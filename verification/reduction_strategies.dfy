/** The selection logic of pages/5_Reduction_Strategies.py: which scope is the
    largest source, which strategies target it, which are relevant to the
    company's industry, the explorer's filters and the first-match lookups
    behind its detail views. Everything here is a pure function over the
    page's fixed strategy and case-study tables. */
module ReductionStrategies {
  import opened Common

  // ---------------------------------------------------------------------
  // The dominant scope
  // ---------------------------------------------------------------------

  function Max(a: real, b: real): real {
    if a >= b then a else b
  }

  /** The emissions of the scope with the given name. */
  function EmissionsOf(scope: string, s1: real, s2: real, s3: real): real {
    if scope == "Scope 1" then s1 else if scope == "Scope 2" then s2 else s3
  }

  /** The page's rule as written: Scope 1 when it beats both others, Scope 2
      when it beats both others, and Scope 3 in every other case. */
  function DominantScopeAsWritten(s1: real, s2: real, s3: real): (d: string)
    ensures d == "Scope 1" <==> s1 > Max(s2, s3)
    ensures d == "Scope 2" <==> s1 <= Max(s2, s3) && s2 > Max(s1, s3)
    ensures d == "Scope 3" <==> s1 <= Max(s2, s3) && s2 <= Max(s1, s3)
  {
    if s1 > Max(s2, s3) then "Scope 1"
    else if s2 > Max(s1, s3) then "Scope 2"
    else "Scope 3"
  }

  /** When Scope 1 and Scope 2 tie above Scope 3, the rule as written names
      Scope 3, the smallest of the three, as the largest source. */
  lemma DominantTieNamesSmallest()
    ensures DominantScopeAsWritten(100.0, 100.0, 10.0) == "Scope 3"
    ensures EmissionsOf(DominantScopeAsWritten(100.0, 100.0, 10.0), 100.0, 100.0, 10.0)
      < Max(100.0, Max(100.0, 10.0))
  {
  }

  /** The dominant scope: Scope 3 when it is among the largest, otherwise
      Scope 2 when it is strictly larger than Scope 1, otherwise Scope 1. */
  function DominantScope(s1: real, s2: real, s3: real): (d: string)
    ensures d == "Scope 1" || d == "Scope 2" || d == "Scope 3"
  {
    if s3 >= Max(s1, s2) then "Scope 3"
    else if s2 > s1 then "Scope 2"
    else "Scope 1"
  }

  /** The dominant scope's emissions are the largest of the three, which is
      the figure the page prints next to its name. */
  lemma DominantScopeIsLargest(s1: real, s2: real, s3: real)
    ensures EmissionsOf(DominantScope(s1, s2, s3), s1, s2, s3) == Max(s1, Max(s2, s3))
  {
  }

  /** The rule as written and the corrected rule differ only when Scopes 1
      and 2 tie above Scope 3. */
  lemma DominantRulesAgree(s1: real, s2: real, s3: real)
    ensures DominantScopeAsWritten(s1, s2, s3) == DominantScope(s1, s2, s3) <==>
      !(s1 == s2 && s2 > s3)
  {
  }

  // ---------------------------------------------------------------------
  // The strategy table
  // ---------------------------------------------------------------------

  /** One entry of the strategy database, without its description and
      co-benefit texts, which are only displayed. */
  datatype Strategy = Strategy(
    name: string,
    scope: string,
    potential: string,
    time: string,
    cost: string,
    industries: seq<string>)

  /** The Scope 1 strategies. */
  const Scope1Table: seq<Strategy> := [
    Strategy("Electrify vehicle fleet", "Scope 1", "Medium-High", "Medium", "High", ["All"]),
    Strategy("Upgrade to high-efficiency HVAC systems", "Scope 1", "Medium", "Medium", "Medium", ["All"]),
    Strategy("Optimize manufacturing processes", "Scope 1", "Medium-High", "Medium-Long", "Medium-High",
             ["Manufacturing", "Chemical", "Food & Beverage", "Automotive", "Mining"]),
    Strategy("Switch to lower-carbon fuels", "Scope 1", "Medium-High", "Short-Medium", "Low-Medium", ["All"]),
    Strategy("Implement refrigerant management program", "Scope 1", "Medium", "Short", "Low",
             ["Food & Beverage", "Retail", "Hospitality", "Healthcare"])
  ]

  /** The Scope 2 strategies. */
  const Scope2Table: seq<Strategy> := [
    Strategy("Purchase renewable energy", "Scope 2", "High", "Short", "Low-Medium", ["All"]),
    Strategy("Install on-site renewable energy", "Scope 2", "Medium-High", "Medium", "High", ["All"]),
    Strategy("Implement energy efficiency program", "Scope 2", "Medium", "Short-Medium", "Low-Medium", ["All"]),
    Strategy("Smart building management systems", "Scope 2", "Medium", "Medium", "Medium", ["All"]),
    Strategy("Green building certification", "Scope 2", "Medium", "Medium-Long", "Medium-High", ["All"])
  ]

  /** The Scope 3 strategies. */
  const Scope3Table: seq<Strategy> := [
    Strategy("Supplier engagement program", "Scope 3", "Medium-High", "Medium-Long", "Low-Medium", ["All"]),
    Strategy("Sustainable procurement policy", "Scope 3", "Medium", "Short-Medium", "Low", ["All"]),
    Strategy("Optimize product design", "Scope 3", "Medium-High", "Medium-Long", "Medium",
             ["Manufacturing", "Automotive", "Information Technology", "Retail", "Food & Beverage"]),
    Strategy("Implement circular economy initiatives", "Scope 3", "Medium", "Medium-Long", "Medium", ["All"]),
    Strategy("Logistics optimization", "Scope 3", "Medium", "Short-Medium", "Low-Medium",
             ["Retail", "Manufacturing", "Food & Beverage", "Transportation"]),
    Strategy("Remote work policy", "Scope 3", "Low-Medium", "Short", "Low", ["All"]),
    Strategy("Business travel reduction", "Scope 3", "Low-Medium", "Short", "Low", ["All"])
  ]

  /** The strategy database, grouped by scope. */
  const Strategies: seq<Strategy> := Scope1Table + Scope2Table + Scope3Table

  // ---------------------------------------------------------------------
  // List comprehensions
  // ---------------------------------------------------------------------

  /** r is s with some elements left out, the others in their order in s. */
  predicate SubsequenceOf<T(==)>(r: seq<T>, s: seq<T>)
    decreases |s|
  {
    if r == [] then true
    else if s == [] then false
    else (r[0] == s[0] && SubsequenceOf(r[1..], s[1..])) || SubsequenceOf(r, s[1..])
  }

  /** `[x for x in s if keep(x)]`: the kept elements, in the order of s. */
  function Filter<T(!new)>(s: seq<T>, keep: T -> bool): (r: seq<T>)
    ensures |r| <= |s|
    ensures forall x :: x in r <==> x in s && keep(x)
    ensures SubsequenceOf(r, s)
  {
    if s == [] then []
    else if keep(s[0]) then [s[0]] + Filter(s[1..], keep)
    else Filter(s[1..], keep)
  }

  /** A filter applied to a concatenation filters each part, so the kept
      elements stay in the order of the input. */
  lemma {:induction false} FilterConcat<T(!new)>(a: seq<T>, b: seq<T>, keep: T -> bool)
    ensures Filter(a + b, keep) == Filter(a, keep) + Filter(b, keep)
  {
    if a != [] {
      assert (a + b)[0] == a[0];
      assert (a + b)[1..] == a[1..] + b;
      FilterConcat(a[1..], b, keep);
      if keep(a[0]) {
        assert Filter(a + b, keep) == [a[0]] + Filter(a[1..] + b, keep);
        assert Filter(a, keep) == [a[0]] + Filter(a[1..], keep);
        assert Filter(a + b, keep) == [a[0]] + (Filter(a[1..], keep) + Filter(b, keep));
      }
    } else {
      assert a + b == b;
    }
  }

  /** A filter that keeps every element returns its input unchanged. */
  lemma {:induction false} FilterKeepsAll<T(!new)>(s: seq<T>, keep: T -> bool)
    requires forall i :: 0 <= i < |s| ==> keep(s[i])
    ensures Filter(s, keep) == s
  {
    if s != [] {
      assert keep(s[0]);
      FilterKeepsAll(s[1..], keep);
    }
  }

  /** A filter that keeps no element returns the empty list. */
  lemma {:induction false} FilterDropsAll<T(!new)>(s: seq<T>, keep: T -> bool)
    requires forall i :: 0 <= i < |s| ==> !keep(s[i])
    ensures Filter(s, keep) == []
  {
    if s != [] {
      assert !keep(s[0]);
      FilterDropsAll(s[1..], keep);
    }
  }

  // ---------------------------------------------------------------------
  // Priority and industry lists
  // ---------------------------------------------------------------------

  /** `s["applicable_scope"] == scope` */
  function ForScope(scope: string): Strategy -> bool {
    (x: Strategy) => x.scope == scope
  }

  /** `"All" in s["industries"] or industry in s["industries"]` */
  function ForIndustry(industry: string): Strategy -> bool {
    (x: Strategy) => "All" in x.industries || industry in x.industries
  }

  /** The strategies of a table targeting the dominant scope, in table order. */
  function DominantStrategies(table: seq<Strategy>, dominant: string): (r: seq<Strategy>)
    ensures forall x :: x in r <==> x in table && x.scope == dominant
    ensures SubsequenceOf(r, table)
  {
    Filter(table, ForScope(dominant))
  }

  /** With a specific industry (neither empty nor "Other"), the strategies
      marked for all industries or naming that one; otherwise all of them. */
  function IndustryStrategies(table: seq<Strategy>, industry: string): (r: seq<Strategy>)
    ensures industry == "" || industry == "Other" ==> r == table
    ensures industry != "" && industry != "Other" ==>
      forall x :: x in r <==> x in table && ("All" in x.industries || industry in x.industries)
    ensures SubsequenceOf(r, table)
  {
    if industry != "" && industry != "Other" then Filter(table, ForIndustry(industry))
    else
      assert table[..|table|] == table;
      SubsequencePrefix(table, |table|);
      table
  }

  /** `dominant[:min(5, len(dominant))]`: at most the first five. */
  function Top(dominant: seq<Strategy>): (t: seq<Strategy>)
    ensures |t| == if |dominant| < 5 then |dominant| else 5
    ensures t == dominant[..|t|]
  {
    if |dominant| < 5 then dominant else dominant[..5]
  }

  /** `s not in top` */
  function NotIn(top: seq<Strategy>): Strategy -> bool {
    (x: Strategy) => x !in top
  }

  /** The industry list without the top strategies, order kept. */
  function OtherRelevant(industryList: seq<Strategy>, top: seq<Strategy>): (r: seq<Strategy>)
    ensures forall x :: x in r <==> x in industryList && x !in top
    ensures SubsequenceOf(r, industryList)
  {
    Filter(industryList, NotIn(top))
  }

  /** What the page recommends: the dominant scope, its top strategies and
      the other strategies relevant to the industry. */
  datatype Recommendation = Recommendation(dominant: string, top: seq<Strategy>, others: seq<Strategy>)

  /** The priority and other lists for a given dominant scope: at most five
      strategies of that scope, first in table order, then every strategy
      relevant to the industry that is not among them. */
  function RecommendFor(table: seq<Strategy>, dominant: string, industry: string): (r: Recommendation)
    ensures r.dominant == dominant
    ensures r.top == Top(DominantStrategies(table, dominant))
    ensures r.others == OtherRelevant(IndustryStrategies(table, industry), r.top)
    ensures |r.top| <= 5 && SubsequenceOf(r.top, table)
    ensures forall x :: x in r.top ==> x in table && x.scope == dominant
    ensures forall x :: x in r.others <==> x in IndustryStrategies(table, industry) && x !in r.top
  {
    var all := DominantStrategies(table, dominant);
    var top := Top(all);
    assert forall x :: x in top ==> x in all;
    SubsequencePrefix(all, |top|);
    SubsequenceTrans(top, all, table);
    Recommendation(dominant, top, OtherRelevant(IndustryStrategies(table, industry), top))
  }

  /** What the page shows, with the dominant scope of lines 56-61 as written. */
  function RecommendAsWritten(table: seq<Strategy>, s1: real, s2: real, s3: real, industry: string): (r: Recommendation)
    ensures r.dominant == DominantScopeAsWritten(s1, s2, s3)
    ensures r.top == Top(DominantStrategies(table, r.dominant))
    ensures r.others == OtherRelevant(IndustryStrategies(table, industry), r.top)
  {
    RecommendFor(table, DominantScopeAsWritten(s1, s2, s3), industry)
  }

  /** The recommendation with the corrected dominant scope, the one that holds
      the largest emissions. */
  function Recommend(table: seq<Strategy>, s1: real, s2: real, s3: real, industry: string): (r: Recommendation)
    ensures r.dominant == DominantScope(s1, s2, s3)
    ensures EmissionsOf(r.dominant, s1, s2, s3) == Max(s1, Max(s2, s3))
    ensures r.top == Top(DominantStrategies(table, r.dominant))
    ensures r.others == OtherRelevant(IndustryStrategies(table, industry), r.top)
  {
    DominantScopeIsLargest(s1, s2, s3);
    RecommendFor(table, DominantScope(s1, s2, s3), industry)
  }

  /** For (100, 100, 10) the page as written lists the first five Scope 3
      strategies; the corrected rule lists the five Scope 1 strategies. */
  lemma TieRecommendations(industry: string)
    ensures RecommendAsWritten(Strategies, 100.0, 100.0, 10.0, industry).top == Scope3Table[..5]
    ensures Recommend(Strategies, 100.0, 100.0, 10.0, industry).top == Scope1Table
  {
    DominantStrategiesAreGroup("Scope 3");
    DominantStrategiesAreGroup("Scope 1");
  }

  /** Every strategy relevant to the industry is shown exactly once: either
      among the top strategies or among the others. */
  lemma RecommendationCoversIndustry(table: seq<Strategy>, dominant: string, industry: string, x: Strategy)
    requires x in IndustryStrategies(table, industry)
    ensures var r := RecommendFor(table, dominant, industry);
      (x in r.top) != (x in r.others)
  {
  }

  /** A prefix of s is a subsequence of s. */
  lemma {:induction false} SubsequencePrefix<T>(s: seq<T>, n: nat)
    requires n <= |s|
    ensures SubsequenceOf(s[..n], s)
    decreases |s|
  {
    if n > 0 {
      assert s[..n][1..] == s[1..][..n - 1];
      SubsequencePrefix(s[1..], n - 1);
    }
  }

  /** A subsequence of a subsequence of s is a subsequence of s. */
  lemma {:induction false} SubsequenceTrans<T>(a: seq<T>, b: seq<T>, c: seq<T>)
    requires SubsequenceOf(a, b) && SubsequenceOf(b, c)
    ensures SubsequenceOf(a, c)
    decreases |c|
  {
    if a != [] {
      assert b != [] && c != [];
      if SubsequenceOf(b, c[1..]) {
        SubsequenceTrans(a, b, c[1..]);
      } else if a[0] == b[0] && SubsequenceOf(a[1..], b[1..]) {
        SubsequenceTrans(a[1..], b[1..], c[1..]);
      } else {
        SubsequenceTrans(a, b[1..], c[1..]);
      }
    }
  }

  /** Each group holds only strategies of its own scope. */
  lemma GroupScopes()
    ensures forall i :: 0 <= i < |Scope1Table| ==> Scope1Table[i].scope == "Scope 1"
    ensures forall i :: 0 <= i < |Scope2Table| ==> Scope2Table[i].scope == "Scope 2"
    ensures forall i :: 0 <= i < |Scope3Table| ==> Scope3Table[i].scope == "Scope 3"
  {
  }

  /** Filtering three groups, each holding one scope's strategies, for a
      scope returns that scope's group. */
  lemma GroupedFilter(g1: seq<Strategy>, g2: seq<Strategy>, g3: seq<Strategy>, d: string)
    requires forall i :: 0 <= i < |g1| ==> g1[i].scope == "Scope 1"
    requires forall i :: 0 <= i < |g2| ==> g2[i].scope == "Scope 2"
    requires forall i :: 0 <= i < |g3| ==> g3[i].scope == "Scope 3"
    requires d == "Scope 1" || d == "Scope 2" || d == "Scope 3"
    ensures Filter(g1 + g2 + g3, ForScope(d)) ==
      if d == "Scope 1" then g1 else if d == "Scope 2" then g2 else g3
  {
    var keep := ForScope(d);
    FilterConcat(g1 + g2, g3, keep);
    FilterConcat(g1, g2, keep);
    if d == "Scope 1" {
      FilterKeepsAll(g1, keep);
      FilterDropsAll(g2, keep);
      FilterDropsAll(g3, keep);
    } else if d == "Scope 2" {
      FilterDropsAll(g1, keep);
      FilterKeepsAll(g2, keep);
      FilterDropsAll(g3, keep);
    } else {
      FilterDropsAll(g1, keep);
      FilterDropsAll(g2, keep);
      FilterKeepsAll(g3, keep);
    }
  }

  /** Filtering the table for one scope returns that scope's group. */
  lemma DominantStrategiesAreGroup(d: string)
    requires d == "Scope 1" || d == "Scope 2" || d == "Scope 3"
    ensures DominantStrategies(Strategies, d) ==
      if d == "Scope 1" then Scope1Table else if d == "Scope 2" then Scope2Table else Scope3Table
  {
    GroupScopes();
    GroupedFilter(Scope1Table, Scope2Table, Scope3Table, d);
  }

  /** The table holds five Scope 1 and five Scope 2 strategies, so a
      Scope 1 or Scope 2 company sees all of them in its top list. */
  lemma TopKeepsScope1And2(d: string)
    requires d == "Scope 1" || d == "Scope 2"
    ensures |DominantStrategies(Strategies, d)| == 5
    ensures Top(DominantStrategies(Strategies, d)) == DominantStrategies(Strategies, d)
  {
    DominantStrategiesAreGroup(d);
  }

  /** The table holds seven Scope 3 strategies, so the Scope 3 list is cut:
      its last two entries never reach the top list. */
  lemma TopCutsScope3()
    ensures |DominantStrategies(Strategies, "Scope 3")| == 7
    ensures DominantStrategies(Strategies, "Scope 3")[5].name == "Remote work policy"
    ensures DominantStrategies(Strategies, "Scope 3")[6].name == "Business travel reduction"
  {
    DominantStrategiesAreGroup("Scope 3");
  }

  // ---------------------------------------------------------------------
  // The strategy explorer
  // ---------------------------------------------------------------------

  /** `part` occurs in `text` starting at position i. */
  predicate MatchesAt(part: string, text: string, i: int) {
    0 <= i <= |text| - |part| && text[i..i + |part|] == part
  }

  /** Python's `part in text` on strings. */
  ghost predicate IsSubstring(part: string, text: string) {
    exists i :: MatchesAt(part, text, i)
  }

  /** A search for `part` from the left. */
  function Contains(text: string, part: string): (b: bool)
    ensures b <==> IsSubstring(part, text)
    decreases |text|
  {
    if |part| > |text| then false
    else if text[..|part|] == part then
      assert MatchesAt(part, text, 0);
      true
    else
      var b := Contains(text[1..], part);
      assert b ==> IsSubstring(part, text) by {
        if b {
          var i :| MatchesAt(part, text[1..], i);
          assert text[1..][i..i + |part|] == text[i + 1..i + 1 + |part|];
          assert MatchesAt(part, text, i + 1);
        }
      }
      assert text[..|part|] == text[0..|part|];
      assert IsSubstring(part, text) ==> b by {
        if IsSubstring(part, text) {
          var i :| MatchesAt(part, text, i);
          if i > 0 {
            assert text[1..][i - 1..i - 1 + |part|] == text[i..i + |part|];
            assert MatchesAt(part, text[1..], i - 1);
          }
        }
      }
      b
  }

  /** A non-empty part whose first character does not occur in the text is
      not a substring of it. */
  lemma MissingFirstChar(part: string, text: string)
    requires |part| > 0 && part[0] !in text
    ensures !IsSubstring(part, text)
  {
    forall i | 0 <= i <= |text| - |part|
      ensures !MatchesAt(part, text, i)
    {
      assert text[i..i + |part|][0] == text[i];
    }
  }

  /** `any(time in s["implementation_time"] for time in times)` */
  function AnyLabelIn(times: seq<string>, implementationTime: string): (b: bool)
    ensures b <==> exists t :: t in times && IsSubstring(t, implementationTime)
  {
    if times == [] then false
    else Contains(implementationTime, times[0]) || AnyLabelIn(times[1..], implementationTime)
  }

  /** The explorer's test for one strategy. */
  function Explorable(scopes: seq<string>, times: seq<string>): Strategy -> bool {
    (x: Strategy) => x.scope in scopes && AnyLabelIn(times, x.time)
  }

  /** The explorer keeps a strategy of the industry list when its scope is
      selected and one of the selected time labels occurs in its
      implementation time. */
  function Explore(industryList: seq<Strategy>, scopes: seq<string>, times: seq<string>): (r: seq<Strategy>)
    ensures forall x :: x in r <==> (x in industryList && x.scope in scopes &&
      exists t :: t in times && IsSubstring(t, x.time))
  {
    var keep := Explorable(scopes, times);
    assert forall x :: keep(x) <==> x.scope in scopes && AnyLabelIn(times, x.time);
    Filter(industryList, keep)
  }

  /** Selecting "Medium" alone also keeps the "Short-Medium" and
      "Medium-Long" strategies: the filter matches substrings, not labels.
      Selecting "Long" does not keep "Short-Medium". */
  lemma MediumMatchesNeighbours()
    ensures AnyLabelIn(["Medium"], "Short-Medium") && AnyLabelIn(["Medium"], "Medium-Long")
    ensures !AnyLabelIn(["Long"], "Short-Medium")
  {
    assert MatchesAt("Medium", "Short-Medium", 6);
    assert MatchesAt("Medium", "Medium-Long", 0);
    MissingFirstChar("Long", "Short-Medium");
  }

  // ---------------------------------------------------------------------
  // Detail lookups
  // ---------------------------------------------------------------------

  /** Entry i matches and no entry before it does. */
  predicate FirstMatchAt<T>(s: seq<T>, matches: T -> bool, i: int) {
    0 <= i < |s| && matches(s[i]) && forall j :: 0 <= j < i ==> !matches(s[j])
  }

  /** `next((x for x in s if matches(x)), None)` */
  function FirstMatch<T(!new)>(s: seq<T>, matches: T -> bool): (r: Option<T>)
    ensures r.None? <==> forall x :: x in s ==> !matches(x)
    ensures r.Some? ==> exists i :: FirstMatchAt(s, matches, i) && s[i] == r.value
  {
    if s == [] then None
    else if matches(s[0]) then
      assert FirstMatchAt(s, matches, 0);
      Some(s[0])
    else
      var r := FirstMatch(s[1..], matches);
      assert r.Some? ==> exists i :: FirstMatchAt(s, matches, i) && s[i] == r.value by {
        if r.Some? {
          var i :| FirstMatchAt(s[1..], matches, i) && s[1..][i] == r.value;
          assert forall j :: 1 <= j < i + 1 ==> s[j] == s[1..][j - 1];
          assert FirstMatchAt(s, matches, i + 1);
        }
      }
      r
  }

  /** At most one position is the first match. */
  lemma FirstMatchAtUnique<T>(s: seq<T>, matches: T -> bool, i: int, k: int)
    requires FirstMatchAt(s, matches, i) && FirstMatchAt(s, matches, k)
    ensures i == k
  {
    var mi, mk := matches(s[i]), matches(s[k]);
  }

  /** `s["name"] == selected` */
  function Named(selected: string): Strategy -> bool {
    (x: Strategy) => x.name == selected
  }

  /** The detail view of the explorer: the first listed strategy with the
      selected name. */
  function StrategyDetail(listed: seq<Strategy>, selected: string): (r: Option<Strategy>)
    ensures r.Some? ==> r.value in listed && r.value.name == selected
    ensures r.None? <==> forall x :: x in listed ==> x.name != selected
  {
    FirstMatch(listed, Named(selected))
  }

  /** A published emission-reduction story. */
  datatype CaseStudy = CaseStudy(company: string, industry: string, strategies: string, results: string)

  const CaseStudies: seq<CaseStudy> := [
    CaseStudy("Microsoft", "Information Technology",
      "Carbon neutrality since 2012; commitment to be carbon negative by 2030; $1B climate innovation fund; internal carbon fee",
      "Reduced emissions by over 10M tCO2e; on track to reduce Scope 3 emissions by 55% by 2030"),
    CaseStudy("Unilever", "Food & Beverage / Consumer Goods",
      "Transition to renewable energy; reformulation of products; supplier engagement; packaging redesign",
      "70% reduction in manufacturing emissions since 2008; net zero emissions target by 2039"),
    CaseStudy("Ørsted", "Energy",
      "Transformed from fossil fuel company to renewable energy; divested coal assets; invested in offshore wind",
      "Reduced carbon intensity by 87% since 2006; on track for carbon neutrality in energy generation by 2025"),
    CaseStudy("IKEA", "Retail",
      "Renewable energy investments; sustainable sourcing; circular product design; electric delivery vehicles",
      "Reduced climate footprint by 17.3% relative to growth; committed to climate positive by 2030")
  ]

  /** `cs["company"] == company` */
  function OfCompany(company: string): CaseStudy -> bool {
    (c: CaseStudy) => c.company == company
  }

  /** The case study of the selected company, if there is one. */
  function CaseStudyDetail(company: string): (r: Option<CaseStudy>)
    ensures r.Some? ==> r.value in CaseStudies && r.value.company == company
    ensures r.None? <==> forall c :: c in CaseStudies ==> c.company != company
  {
    FirstMatch(CaseStudies, OfCompany(company))
  }

  /** No company has two case studies. */
  lemma CaseStudyCompaniesDistinct()
    ensures forall j, k :: 0 <= j < k < |CaseStudies| ==> CaseStudies[j].company != CaseStudies[k].company
  {
  }

  /** Each company in the selection box finds its own case study. */
  lemma EveryCaseStudyFound(i: nat)
    requires i < |CaseStudies|
    ensures CaseStudyDetail(CaseStudies[i].company) == Some(CaseStudies[i])
  {
    var name := CaseStudies[i].company;
    CaseStudyCompaniesDistinct();
    assert FirstMatchAt(CaseStudies, OfCompany(name), i);
    var r := FirstMatch(CaseStudies, OfCompany(name));
    var k :| FirstMatchAt(CaseStudies, OfCompany(name), k) && CaseStudies[k] == r.value;
    FirstMatchAtUnique(CaseStudies, OfCompany(name), i, k);
  }
}
