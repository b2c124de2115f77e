/** The presentation layer of the results view (src/components/ComplianceResults.tsx):
    which of three states is shown, the risk-ordered list of cards and the
    summary counts above it. */
module ComplianceResults {
  import opened Compliances

  /** `sortOrder`: position of a risk level in display order, critical
      first and low last. */
  function Rank(level: RiskLevel): nat
  {
    match level
    case Critical => 0
    case High => 1
    case Medium => 2
    case Low => 3
  }

  /** The display order of risk levels is strict: critical, high, medium,
      low, and no two levels share a rank, so only cards of the same level
      tie in the sort. */
  lemma RankOrder()
    ensures Rank(Critical) < Rank(High) < Rank(Medium) < Rank(Low)
    ensures forall a: RiskLevel, b: RiskLevel :: Rank(a) == Rank(b) ==> a == b
  {
  }

  /** Adjacent cards never go from a later rank back to an earlier one. */
  predicate RankSorted(s: seq<ComplianceData>)
  {
    forall k :: 0 < k < |s| ==> Rank(s[k - 1].riskLevel) <= Rank(s[k].riskLevel)
  }

  /** The cards of one risk level, in the order they appear in `s`. */
  function OfLevel(s: seq<ComplianceData>, level: RiskLevel): seq<ComplianceData>
  {
    if s == [] then []
    else (if s[0].riskLevel == level then [s[0]] else []) + OfLevel(s[1..], level)
  }

  /** Inserts `x` before the first card whose rank is not smaller than its
      own, so that `x` precedes the cards of its own level. */
  function InsertByRank(x: ComplianceData, s: seq<ComplianceData>): (r: seq<ComplianceData>)
    ensures multiset(r) == multiset(s) + multiset{x}
  {
    if s == [] || Rank(x.riskLevel) <= Rank(s[0].riskLevel) then [x] + s
    else
      assert s == [s[0]] + s[1..];
      [s[0]] + InsertByRank(x, s[1..])
  }

  /** `[...results].sort(byRank)`: a stable sort by risk rank of a copy of the
      results. The result is a permutation of the input, ordered by rank, and
      cards of equal rank keep their relative order. */
  function SortByRisk(results: seq<ComplianceData>): (sorted: seq<ComplianceData>)
    ensures multiset(sorted) == multiset(results)
    ensures RankSorted(sorted)
    ensures forall level :: OfLevel(sorted, level) == OfLevel(results, level)
  {
    if results == [] then []
    else
      var x, rest := results[0], SortByRisk(results[1..]);
      assert results == [x] + results[1..];
      InsertKeepsSorted(x, rest);
      forall level ensures OfLevel(InsertByRank(x, rest), level) == OfLevel(results, level) {
        InsertOfLevel(x, rest, level);
      }
      InsertByRank(x, rest)
  }

  /** Reference order: all critical cards, then high, then medium, then low,
      each group in input order. */
  function RiskBuckets(s: seq<ComplianceData>): seq<ComplianceData>
  {
    OfLevel(s, Critical) + OfLevel(s, High) + OfLevel(s, Medium) + OfLevel(s, Low)
  }

  /** `filter(r => r.riskLevel === level).length`. */
  function CountLevel(s: seq<ComplianceData>, level: RiskLevel): nat
  {
    |OfLevel(s, level)|
  }

  // ---------------------------------------------------------------------------
  // The view

  /** Numbers shown in the summary line above the list. */
  datatype Summary = Summary(total: nat, noun: string, criticalCount: nat, highCount: nat)

  /** What the results view shows. */
  datatype View =
    | NoCheckYet
    | AllClear
    | ResultList(summary: Summary, cards: seq<ComplianceData>)

  /** "compliance" or "compliances" after the count of results. */
  function ComplianceNoun(n: nat): (w: string)
    ensures w == "compliances" <==> n != 1
    ensures w == "compliance" <==> n == 1
  {
    if n != 1 then "compliances" else "compliance"
  }

  /** The results view: nothing searched yet, all clear, or the summary and
      the cards in risk order. The counts are taken over the unsorted results. */
  function Render(results: seq<ComplianceData>, hasSearched: bool): (v: View)
    ensures v.NoCheckYet? <==> !hasSearched
    ensures v.AllClear? <==> hasSearched && results == []
    ensures v.ResultList? ==>
      multiset(v.cards) == multiset(results) && RankSorted(v.cards) &&
      (forall level :: OfLevel(v.cards, level) == OfLevel(results, level)) &&
      v.summary.total == |v.cards| == |results| &&
      v.summary.noun == ComplianceNoun(v.summary.total) &&
      v.summary.criticalCount == CountLevel(v.cards, Critical) &&
      v.summary.highCount == CountLevel(v.cards, High)
  {
    if !hasSearched then NoCheckYet
    else if |results| == 0 then AllClear
    else
      var sorted := SortByRisk(results);
      var summary := Summary(|results|, ComplianceNoun(|results|),
                             CountLevel(results, Critical), CountLevel(results, High));
      assert |sorted| == |multiset(sorted)| == |results|;
      ResultList(summary, sorted)
  }

  // ---------------------------------------------------------------------------
  // Lemmas

  /** Insertion keeps a rank-sorted sequence rank-sorted. */
  lemma {:induction false} InsertKeepsSorted(x: ComplianceData, s: seq<ComplianceData>)
    requires RankSorted(s)
    ensures RankSorted(InsertByRank(x, s))
    ensures InsertByRank(x, s)[0] == x || InsertByRank(x, s)[0] == s[0]
  {
    if s != [] && Rank(x.riskLevel) > Rank(s[0].riskLevel) {
      var tail := InsertByRank(x, s[1..]);
      InsertKeepsSorted(x, s[1..]);
      var r := [s[0]] + tail;
      assert r == InsertByRank(x, s);
      forall k | 0 < k < |r| ensures Rank(r[k - 1].riskLevel) <= Rank(r[k].riskLevel) {
        if k > 1 {
          assert r[k - 1] == tail[k - 2] && r[k] == tail[k - 1];
        }
      }
    }
  }

  /** Insertion puts `x` first among the cards of its own level and leaves
      the other levels as they were: the step that makes the sort stable. */
  lemma {:induction false} InsertOfLevel(x: ComplianceData, s: seq<ComplianceData>, level: RiskLevel)
    ensures OfLevel(InsertByRank(x, s), level) == (if x.riskLevel == level then [x] else []) + OfLevel(s, level)
  {
    if s == [] || Rank(x.riskLevel) <= Rank(s[0].riskLevel) {
      assert ([x] + s)[1..] == s;
    } else {
      var tail := InsertByRank(x, s[1..]);
      InsertOfLevel(x, s[1..], level);
      assert ([s[0]] + tail)[1..] == tail;
    }
  }

  /** When every card of `s` ranks after `level`, `s` holds no card of it. */
  lemma {:induction false} NoneBelowFirst(s: seq<ComplianceData>, level: RiskLevel)
    requires forall k :: 0 <= k < |s| ==> Rank(level) < Rank(s[k].riskLevel)
    ensures OfLevel(s, level) == []
  {
    if s != [] {
      NoneBelowFirst(s[1..], level);
    }
  }

  /** A rank-sorted sequence is its own bucket order: stable sorting by rank
      has exactly one possible outcome. */
  lemma {:induction false} SortedIsBuckets(s: seq<ComplianceData>)
    requires RankSorted(s)
    ensures s == RiskBuckets(s)
  {
    if s != [] {
      var x, t := s[0], s[1..];
      assert s == [x] + t;
      SortedIsBuckets(t);
      SortedTail(s);
      forall level | Rank(level) < Rank(x.riskLevel)
        ensures OfLevel(s, level) == [] && OfLevel(t, level) == []
      {
        NoneBelowFirst(t, level);
      }
      match x.riskLevel
      case Critical =>
      case High =>
      case Medium =>
      case Low =>
    }
  }

  /** Every card after the first ranks at least as late as the first. */
  lemma {:induction false} SortedTail(s: seq<ComplianceData>)
    requires RankSorted(s) && s != []
    ensures forall k :: 0 <= k < |s| ==> Rank(s[0].riskLevel) <= Rank(s[k].riskLevel)
  {
    if |s| > 1 {
      SortedTail(s[1..]);
      assert forall k :: 1 <= k < |s| ==> s[k] == s[1..][k - 1];
    }
  }

  /** The sorted list is the reference bucket order of the results. */
  lemma SortByRiskIsBuckets(results: seq<ComplianceData>)
    ensures SortByRisk(results) == RiskBuckets(results)
  {
    var sorted := SortByRisk(results);
    SortedIsBuckets(sorted);
  }

  /** The four counts cover every result exactly once. */
  lemma CountsPartitionResults(results: seq<ComplianceData>)
    ensures CountLevel(results, Critical) + CountLevel(results, High) +
            CountLevel(results, Medium) + CountLevel(results, Low) == |results|
  {
    var sorted := SortByRisk(results);
    SortedIsBuckets(sorted);
    assert |sorted| == |multiset(sorted)| == |results|;
  }

  /** The cards of one level are the cards of `s` of that level, with the
      same multiplicities. */
  lemma {:induction false} OfLevelMultiset(s: seq<ComplianceData>, level: RiskLevel)
    ensures forall x :: multiset(OfLevel(s, level))[x] == if x.riskLevel == level then multiset(s)[x] else 0
  {
    if s != [] {
      OfLevelMultiset(s[1..], level);
      assert s == [s[0]] + s[1..];
    }
  }

  /** The summary counts do not depend on the order of the cards. */
  lemma CountsIgnoreOrder(a: seq<ComplianceData>, b: seq<ComplianceData>, level: RiskLevel)
    requires multiset(a) == multiset(b)
    ensures CountLevel(a, level) == CountLevel(b, level)
  {
    OfLevelMultiset(a, level);
    OfLevelMultiset(b, level);
    assert multiset(OfLevel(a, level)) == multiset(OfLevel(b, level));
    assert |multiset(OfLevel(a, level))| == |OfLevel(a, level)|;
    assert |multiset(OfLevel(b, level))| == |OfLevel(b, level)|;
  }

  /** The levels of eight cards whose risk levels are, in order, critical,
      critical, high, medium, medium, low, medium, low. */
  predicate EightCardShape(s: seq<ComplianceData>)
  {
    |s| == 8 &&
    s[0].riskLevel == Critical && s[1].riskLevel == Critical && s[2].riskLevel == High &&
    s[3].riskLevel == Medium && s[4].riskLevel == Medium && s[5].riskLevel == Low &&
    s[6].riskLevel == Medium && s[7].riskLevel == Low
  }

  lemma EightCardLevels(s: seq<ComplianceData>)
    requires EightCardShape(s)
    ensures OfLevel(s, Critical) == [s[0], s[1]] && OfLevel(s, High) == [s[2]]
    ensures OfLevel(s, Medium) == [s[3], s[4], s[6]] && OfLevel(s, Low) == [s[5], s[7]]
  {
    assert s[0..] == s;
    assert OfLevel(s[8..], Critical) == [];
    assert OfLevel(s[7..], Critical) == [];
    assert OfLevel(s[6..], Critical) == [];
    assert OfLevel(s[5..], Critical) == [];
    assert OfLevel(s[4..], Critical) == [];
    assert OfLevel(s[3..], Critical) == [];
    assert OfLevel(s[2..], Critical) == [];
    assert OfLevel(s[1..], Critical) == [s[1]];
    assert OfLevel(s[0..], Critical) == [s[0], s[1]];
    assert OfLevel(s[8..], High) == [];
    assert OfLevel(s[7..], High) == [];
    assert OfLevel(s[6..], High) == [];
    assert OfLevel(s[5..], High) == [];
    assert OfLevel(s[4..], High) == [];
    assert OfLevel(s[3..], High) == [];
    assert OfLevel(s[2..], High) == [s[2]];
    assert OfLevel(s[1..], High) == [s[2]];
    assert OfLevel(s[0..], High) == [s[2]];
    assert OfLevel(s[8..], Medium) == [];
    assert OfLevel(s[7..], Medium) == [];
    assert OfLevel(s[6..], Medium) == [s[6]];
    assert OfLevel(s[5..], Medium) == [s[6]];
    assert OfLevel(s[4..], Medium) == [s[4], s[6]];
    assert OfLevel(s[3..], Medium) == [s[3], s[4], s[6]];
    assert OfLevel(s[2..], Medium) == [s[3], s[4], s[6]];
    assert OfLevel(s[1..], Medium) == [s[3], s[4], s[6]];
    assert OfLevel(s[0..], Medium) == [s[3], s[4], s[6]];
    assert OfLevel(s[8..], Low) == [];
    assert OfLevel(s[7..], Low) == [s[7]];
    assert OfLevel(s[6..], Low) == [s[7]];
    assert OfLevel(s[5..], Low) == [s[5], s[7]];
    assert OfLevel(s[4..], Low) == [s[5], s[7]];
    assert OfLevel(s[3..], Low) == [s[5], s[7]];
    assert OfLevel(s[2..], Low) == [s[5], s[7]];
    assert OfLevel(s[1..], Low) == [s[5], s[7]];
    assert OfLevel(s[0..], Low) == [s[5], s[7]];
  }

  /** The four buckets of `EightCardView` laid end to end. Stated apart from
      that lemma because, next to the sorting facts in its context, the solver
      does not find this sequence identity within its resource budget. */
  lemma ConcatBuckets(a: ComplianceData, b: ComplianceData, c: ComplianceData, d: ComplianceData,
                      e: ComplianceData, f: ComplianceData, g: ComplianceData, h: ComplianceData)
    ensures [a, b] + [c] + [d, e, f] + [g, h] == [a, b, c, d, e, f, g, h]
  {
  }

  /** After a search, eight such cards render as a summary of eight
      compliances, two critical and one high, over the cards in bucket order. */
  lemma EightCardView(s: seq<ComplianceData>)
    requires EightCardShape(s)
    ensures Render(s, true) ==
      ResultList(Summary(8, "compliances", 2, 1), [s[0], s[1], s[2], s[3], s[4], s[6], s[5], s[7]])
  {
    SortByRiskIsBuckets(s);
    EightCardLevels(s);
    ConcatBuckets(s[0], s[1], s[2], s[3], s[4], s[6], s[5], s[7]);
  }

  /** The results view after a search for turnover 5000000 and 25 employees:
      eight cards, two critical and one high, critical ones first and, within
      each level, in table order. */
  lemma SmallEmployerView()
    ensures Render(GetApplicableCompliances(5000000.0, 25.0), true) ==
      ResultList(Summary(8, "compliances", 2, 1),
        [ToData(GstRegistration), ToData(PfRegistration), ToData(EsiRegistration),
         ToData(ProfessionalTax), ToData(ShopsEstablishment), ToData(Gratuity),
         ToData(LabourWelfareFund), ToData(MsmeRegistration)])
  {
    SmallEmployerScenario();
    EightCardView(GetApplicableCompliances(5000000.0, 25.0));
  }
}
