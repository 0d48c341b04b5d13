/** pages/2_Reduction_Targets.py: framework presets, the 2030 and annual
    targets, the linear net-zero trajectory (a second projection, separate
    from the geometric one of calculate_targets), per-scope targets ranked by
    the absolute reduction they require, and the verdict against industry
    reduction benchmarks. */
module ReductionTargets {
  import opened Common
  import Constants

  // ---------------------------------------------------------------------------
  // Framework presets and targets

  /** Percent cut by 2030, percent cut per year, net-zero year. */
  datatype Settings = Settings(reductionBy2030: real, annualReduction: real, netZeroYear: int)

  /** The radio choice: the three science-based presets, or the three custom
      sliders for any other choice ("Custom Target"). Each preset cuts a
      tenth of its 2030 reduction per year and reaches net zero between 2050
      and 2070. */
  function FrameworkSettings(framework: string, custom: Settings): (s: Settings)
    ensures s == custom || (s.annualReduction * 10.0 == s.reductionBy2030 && 2050 <= s.netZeroYear <= 2070)
  {
    if framework == "Paris-Aligned (1.5°C)" then Settings(42.0, 4.2, 2050)
    else if framework == "Well Below 2°C" then Settings(35.0, 3.5, 2060)
    else if framework == "2°C" then Settings(25.0, 2.5, 2070)
    else custom
  }

  /** Each preset is the matching row of the framework table in
      utils/constants.py; any other choice takes the custom sliders. */
  lemma PresetsMatchFrameworkTable(i: nat, custom: Settings)
    requires i < |Constants.ReductionTargets|
    ensures var row := Constants.ReductionTargets[i];
      FrameworkSettings(row.0, custom) == Settings(row.1.by2030, row.1.annual, row.1.netZeroYear)
  {
  }

  lemma CustomFramework(framework: string, custom: Settings)
    requires forall i :: 0 <= i < |Constants.ReductionTargets| ==> Constants.ReductionTargets[i].0 != framework
    ensures FrameworkSettings(framework, custom) == custom
  {
    assert Constants.ReductionTargets[0].0 == "Paris-Aligned (1.5°C)";
    assert Constants.ReductionTargets[1].0 == "Well Below 2°C";
    assert Constants.ReductionTargets[2].0 == "2°C";
  }

  datatype Targets = Targets(target2030: real, annualReduction: real, netZeroYear: int)

  /** `st.session_state.targets`: the 2030 emissions and the yearly cut in tCO2e. */
  function TargetsFor(base: real, s: Settings): (t: Targets)
    ensures t.target2030 + base * s.reductionBy2030 / 100.0 == base
    ensures t.annualReduction * 100.0 == base * s.annualReduction
    ensures t.netZeroYear == s.netZeroYear
  {
    Targets(base * (100.0 - s.reductionBy2030) / 100.0, base * s.annualReduction / 100.0, s.netZeroYear)
  }

  /** A deeper 2030 cut never gives a higher 2030 target. */
  lemma TargetShrinksWithReduction(base: real, s: Settings, t: Settings)
    requires base >= 0.0 && s.reductionBy2030 <= t.reductionBy2030
    ensures TargetsFor(base, t).target2030 <= TargetsFor(base, s).target2030
  {
    assert base * (100.0 - t.reductionBy2030) <= base * (100.0 - s.reductionBy2030);
  }

  // ---------------------------------------------------------------------------
  // The linear trajectory

  function Min(a: real, b: real): real { if a <= b then a else b }
  function Max(a: real, b: real): real { if a >= b then a else b }

  /** `years_passed * annual_reduction / 100 * base_emissions` */
  function Cut(base: real, annual: real, yearsPassed: int): real {
    yearsPassed as real * annual / 100.0 * base
  }

  /** The value the loop appends for `year`: the base in the base year, 0
      from the net-zero year on, and never below 0 for a non-negative base. */
  function LinearEmissions(base: real, annual: real, netZeroYear: int, currentYear: int, year: int): (e: real)
    ensures year == currentYear ==> e == base
    ensures year != currentYear && year >= netZeroYear ==> e == 0.0
    ensures base >= 0.0 ==> e >= 0.0
  {
    if year == currentYear then base
    else if year < netZeroYear then
      var reduction := Min(Cut(base, annual, year - currentYear), base);
      Max(base - reduction, 0.0)
    else 0.0
  }

  /** `list(range(lo, hi))` */
  function Range(lo: int, hi: int): (r: seq<int>)
    ensures |r| == (if lo <= hi then hi - lo else 0)
    ensures forall k :: 0 <= k < |r| ==> r[k] == lo + k
    decreases hi - lo
  {
    if lo >= hi then [] else [lo] + Range(lo + 1, hi)
  }

  /** The trajectory from the base year through 2050: one value per year. */
  method LinearTrajectory(base: real, annual: real, netZeroYear: int, currentYear: int)
    returns (years: seq<int>, emissions: seq<real>)
    ensures years == Range(currentYear, 2051)
    ensures |emissions| == |years|
    ensures forall k :: 0 <= k < |emissions| ==>
      emissions[k] == LinearEmissions(base, annual, netZeroYear, currentYear, years[k])
  {
    years := Range(currentYear, 2051);
    emissions := [];
    for k := 0 to |years|
      invariant |emissions| == k
      invariant forall j :: 0 <= j < k ==> emissions[j] == LinearEmissions(base, annual, netZeroYear, currentYear, years[j])
    {
      var year := years[k];
      var value: real;
      if year == currentYear {
        value := base;
      } else {
        if year < netZeroYear {
          var yearsPassed := year - currentYear;
          var reduction := Min(Cut(base, annual, yearsPassed), base);
          value := Max(base - reduction, 0.0);
        } else {
          value := 0.0;
        }
      }
      assert value == LinearEmissions(base, annual, netZeroYear, currentYear, year);
      emissions := emissions + [value];
    }
  }

  /** The first value is the base; from the net-zero year on (other than the
      base year itself) it is 0; with non-negative base and rate every value
      lies between 0 and the base. */
  lemma LinearEmissionsBounds(base: real, annual: real, netZeroYear: int, currentYear: int, year: int)
    requires base >= 0.0 && annual >= 0.0 && year >= currentYear
    ensures LinearEmissions(base, annual, netZeroYear, currentYear, currentYear) == base
    ensures year != currentYear && year >= netZeroYear ==> LinearEmissions(base, annual, netZeroYear, currentYear, year) == 0.0
    ensures 0.0 <= LinearEmissions(base, annual, netZeroYear, currentYear, year) <= base
  {
    if year != currentYear && year < netZeroYear {
      CutGrowsWithYears(base, annual, 0, year - currentYear);
    }
  }

  /** The cut is never negative and grows with the years passed. */
  lemma CutGrowsWithYears(base: real, annual: real, p1: int, p2: int)
    requires base >= 0.0 && annual >= 0.0 && 0 <= p1 <= p2
    ensures 0.0 <= Cut(base, annual, p1) <= Cut(base, annual, p2)
  {
    var r := annual / 100.0 * base;
    assert r >= 0.0;
    assert p1 as real * annual / 100.0 * base == p1 as real * r;
    assert p2 as real * annual / 100.0 * base == p2 as real * r;
    assert (p2 - p1) as real * r >= 0.0;
    assert p1 as real * r >= 0.0;
  }

  /** With non-negative base and rate the trajectory never rises. */
  lemma LinearEmissionsNonIncreasing(base: real, annual: real, netZeroYear: int, currentYear: int, y1: int, y2: int)
    requires base >= 0.0 && annual >= 0.0 && currentYear <= y1 <= y2
    ensures LinearEmissions(base, annual, netZeroYear, currentYear, y2) <= LinearEmissions(base, annual, netZeroYear, currentYear, y1)
  {
    LinearEmissionsBounds(base, annual, netZeroYear, currentYear, y1);
    LinearEmissionsBounds(base, annual, netZeroYear, currentYear, y2);
    if y1 != currentYear && y2 < netZeroYear {
      CutGrowsWithYears(base, annual, y1 - currentYear, y2 - currentYear);
    }
  }

  // ---------------------------------------------------------------------------
  // Per-scope targets and their priority

  /** `scope × (100 − reduction) / 100` */
  function ScopeTarget(emissions: real, reduction: real): (t: real)
    ensures emissions - t == emissions * reduction / 100.0
  {
    emissions * (100.0 - reduction) / 100.0
  }

  /** A scope and the absolute reduction it needs. */
  type Priority = (string, real)

  predicate Descending(t: seq<Priority>) {
    forall i, j :: 0 <= i < j < |t| ==> t[i].1 >= t[j].1
  }

  /** Stable insertion: `x` goes after every entry whose reduction is at least its own. */
  function InsertByReduction(t: seq<Priority>, x: Priority): seq<Priority> {
    if t == [] then [x]
    else if t[|t| - 1].1 >= x.1 then t + [x]
    else InsertByReduction(t[..|t| - 1], x) + [t[|t| - 1]]
  }

  /** `sort(key=reduction, reverse=True)`, a stable sort: a permutation of
      its input with the largest reduction first. */
  function SortByReduction(s: seq<Priority>): (r: seq<Priority>)
    ensures multiset(r) == multiset(s)
    ensures Descending(r)
    decreases |s|
  {
    if s == [] then []
    else
      var front, last := s[..|s| - 1], s[|s| - 1];
      assert s == front + [last];
      var sortedFront := SortByReduction(front);
      InsertMultiset(sortedFront, last);
      InsertDescending(sortedFront, last);
      InsertByReduction(sortedFront, last)
  }

  /** The entries with a given reduction, in order. */
  function WithReduction(t: seq<Priority>, v: real): seq<Priority> {
    if t == [] then []
    else WithReduction(t[..|t| - 1], v) + (if t[|t| - 1].1 == v then [t[|t| - 1]] else [])
  }

  /** `priority_scopes.sort(key=lambda x: x[1], reverse=True)` on the list in place. */
  method SortPriorities(a: array<Priority>)
    modifies a
    ensures a[..] == SortByReduction(old(a[..]))
  {
    var sorted := SortByReduction(a[..]);
    SortedPermutation(a[..]);
    forall i | 0 <= i < a.Length {
      a[i] := sorted[i];
    }
  }

  lemma {:induction false} WithReductionConcat(s: seq<Priority>, t: seq<Priority>, v: real)
    ensures WithReduction(s + t, v) == WithReduction(s, v) + WithReduction(t, v)
    decreases |t|
  {
    if t != [] {
      assert (s + t)[..|s + t| - 1] == s + t[..|t| - 1];
      WithReductionConcat(s, t[..|t| - 1], v);
    } else {
      assert s + t == s;
    }
  }

  lemma {:induction false} InsertMultiset(t: seq<Priority>, x: Priority)
    ensures multiset(InsertByReduction(t, x)) == multiset(t) + multiset{x}
    decreases |t|
  {
    if t != [] && t[|t| - 1].1 < x.1 {
      var front, last := t[..|t| - 1], t[|t| - 1];
      assert t == front + [last];
      InsertMultiset(front, x);
    }
  }

  lemma {:induction false} InsertDescending(t: seq<Priority>, x: Priority)
    requires Descending(t)
    ensures Descending(InsertByReduction(t, x))
    decreases |t|
  {
    if t != [] && t[|t| - 1].1 < x.1 {
      var front, last := t[..|t| - 1], t[|t| - 1];
      assert Descending(front);
      InsertDescending(front, x);
      InsertMultiset(front, x);
      var u := InsertByReduction(front, x);
      forall i | 0 <= i < |u|
        ensures u[i].1 >= last.1
      {
        assert u[i] in multiset(u);
        if u[i] != x {
          var k :| 0 <= k < |front| && front[k] == u[i];
          assert t[k] == u[i];
        }
      }
    }
  }

  lemma {:induction false} InsertWithReduction(t: seq<Priority>, x: Priority, v: real)
    ensures WithReduction(InsertByReduction(t, x), v) == WithReduction(t, v) + WithReduction([x], v)
    decreases |t|
  {
    assert [x][..0] == [];
    if t == [] {
    } else if t[|t| - 1].1 >= x.1 {
      WithReductionConcat(t, [x], v);
    } else {
      var front, last := t[..|t| - 1], t[|t| - 1];
      assert t == front + [last];
      InsertWithReduction(front, x, v);
      var u := InsertByReduction(front, x);
      WithReductionConcat(u, [last], v);
      WithReductionConcat(front, [last], v);
      assert [last][..0] == [];
    }
  }

  /** The sort keeps the length and, among equal reductions, the original
      order. */
  lemma {:induction false} SortedPermutation(s: seq<Priority>)
    ensures |SortByReduction(s)| == |s|
    ensures forall v :: WithReduction(SortByReduction(s), v) == WithReduction(s, v)
    decreases |s|
  {
    if s != [] {
      var front, last := s[..|s| - 1], s[|s| - 1];
      assert s == front + [last];
      SortedPermutation(front);
      forall v
        ensures WithReduction(SortByReduction(s), v) == WithReduction(s, v)
      {
        InsertWithReduction(SortByReduction(front), last, v);
        WithReductionConcat(front, [last], v);
      }
      assert |multiset(SortByReduction(s))| == |multiset(s)|;
    }
  }

  /** The lines shown under "Priority Areas": `enumerate(priority_scopes, 1)`,
      keeping only positive reductions, each with its rank in the full list. */
  function ShownPriorities(t: seq<Priority>, rank: int): (shown: seq<(int, Priority)>)
    ensures |shown| <= |t|
  {
    if t == [] then []
    else (if t[0].1 > 0.0 then [(rank, t[0])] else []) + ShownPriorities(t[1..], rank + 1)
  }

  /** On the sorted list the shown lines are exactly the positive reductions,
      and they are ranked 1, 2, 3, … with no gap. */
  lemma {:induction false} ShownPrioritiesContiguous(t: seq<Priority>, rank: int)
    requires Descending(t)
    ensures forall i :: 0 <= i < |ShownPriorities(t, rank)| ==> ShownPriorities(t, rank)[i] == (rank + i, t[i])
    ensures forall i :: 0 <= i < |t| ==> (t[i].1 > 0.0 <==> i < |ShownPriorities(t, rank)|)
  {
    if t != [] {
      var rest := t[1..];
      assert Descending(rest) by {
        forall i, j | 0 <= i < j < |rest| ensures rest[i].1 >= rest[j].1 {
          assert rest[i] == t[i + 1] && rest[j] == t[j + 1];
        }
      }
      ShownPrioritiesContiguous(rest, rank + 1);
      if t[0].1 <= 0.0 && |rest| > 0 {
        assert rest[0] == t[1];
      }
    }
  }

  // ---------------------------------------------------------------------------
  // Alignment with industry reduction benchmarks

  /** Percent cut by 2030: the industry average and best practice. */
  datatype ReductionBenchmark = ReductionBenchmark(averageReduction: real, bestPractice: real)

  const ReductionBenchmarks: seq<(string, ReductionBenchmark)> := [
    ("Agriculture", ReductionBenchmark(30.0, 45.0)),
    ("Automotive", ReductionBenchmark(35.0, 50.0)),
    ("Aviation", ReductionBenchmark(25.0, 40.0)),
    ("Chemical", ReductionBenchmark(30.0, 45.0)),
    ("Construction", ReductionBenchmark(40.0, 55.0)),
    ("Education", ReductionBenchmark(45.0, 60.0)),
    ("Energy", ReductionBenchmark(35.0, 50.0)),
    ("Financial Services", ReductionBenchmark(50.0, 65.0)),
    ("Food & Beverage", ReductionBenchmark(35.0, 50.0)),
    ("Healthcare", ReductionBenchmark(40.0, 55.0)),
    ("Hospitality", ReductionBenchmark(35.0, 50.0)),
    ("Information Technology", ReductionBenchmark(45.0, 60.0)),
    ("Manufacturing", ReductionBenchmark(30.0, 45.0)),
    ("Mining", ReductionBenchmark(25.0, 40.0)),
    ("Real Estate", ReductionBenchmark(40.0, 55.0)),
    ("Retail", ReductionBenchmark(35.0, 50.0)),
    ("Telecommunications", ReductionBenchmark(40.0, 55.0)),
    ("Transportation", ReductionBenchmark(30.0, 45.0)),
    ("Utilities", ReductionBenchmark(35.0, 50.0)),
    ("Other", ReductionBenchmark(35.0, 50.0))
  ]

  /** Best practice is 15 points above the average in every row, and the rows
      are the industries of the intensity benchmark table, in the same order. */
  lemma ReductionBenchmarksShape()
    ensures |ReductionBenchmarks| == |Constants.IndustryBenchmarks| == 20
    ensures forall i :: 0 <= i < |ReductionBenchmarks| ==>
      ReductionBenchmarks[i].1.bestPractice == ReductionBenchmarks[i].1.averageReduction + 15.0
    ensures forall i :: 0 <= i < 20 ==> ReductionBenchmarks[i].0 == Constants.IndustryBenchmarks[i].0
  {
  }

  datatype Alignment = Leadership | AboveAverage | BelowAverage

  /** The verdict on the 2030 cut; None when no industry is set or the
      industry is not in the table (the page then asks for one). */
  function BenchmarkAlignment(reductionBy2030: real, industry: string): (a: Option<Alignment>)
    ensures a.Some? ==> industry != "" && HasKey(ReductionBenchmarks, industry)
  {
    if industry == "" then None
    else
      LookupFound(ReductionBenchmarks, industry);
      match Lookup(ReductionBenchmarks, industry)
      case None => None
      case Some(b) =>
        if reductionBy2030 >= b.bestPractice then Some(Leadership)
        else if reductionBy2030 >= b.averageReduction then Some(AboveAverage)
        else Some(BelowAverage)
  }

  /** For a benchmarked industry: leadership exactly at or above best
      practice, below average exactly under the average. */
  lemma AlignmentThresholds(r: real, industry: string, b: ReductionBenchmark)
    requires industry != "" && Lookup(ReductionBenchmarks, industry) == Some(b)
    ensures BenchmarkAlignment(r, industry).Some?
      && (BenchmarkAlignment(r, industry) == Some(Leadership) <==> r >= b.bestPractice)
      && (BenchmarkAlignment(r, industry) == Some(BelowAverage) <==> r < b.averageReduction)
  {
    LookupFound(ReductionBenchmarks, industry);
    ReductionBenchmarksShape();
  }

  lemma AlignmentNeedsIndustry(r: real, industry: string)
    ensures BenchmarkAlignment(r, industry).None? <==> industry == "" || !HasKey(ReductionBenchmarks, industry)
  {
    LookupFound(ReductionBenchmarks, industry);
  }

  function AlignmentRank(a: Alignment): int {
    match a
    case BelowAverage => 0
    case AboveAverage => 1
    case Leadership => 2
  }

  /** A deeper cut never earns a worse verdict. */
  lemma AlignmentMonotone(r1: real, r2: real, industry: string)
    requires r1 <= r2 && BenchmarkAlignment(r1, industry).Some?
    ensures BenchmarkAlignment(r2, industry).Some?
    ensures AlignmentRank(BenchmarkAlignment(r1, industry).value) <= AlignmentRank(BenchmarkAlignment(r2, industry).value)
  {
  }
}
