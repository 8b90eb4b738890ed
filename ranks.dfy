/**
 * The ranks page (src/components/RanksSection.jsx): a table of four ranks with
 * ascending point thresholds, the current rank found by a backward search,
 * and a progress percentage per rank.
 */
module Ranks {

  /** A rank; its icon, description and colour are presentation only. */
  datatype Rank = Rank(name: string, threshold: int)

  const Table: seq<Rank> := [
    Rank("Sandy Starter", 0),
    Rank("Beach Explorer", 1000),
    Rank("Wave Rider", 2500),
    Rank("Ocean Master", 5000)
  ]

  ghost predicate Ascending(table: seq<Rank>) {
    forall i, j :: 0 <= i < j < |table| ==> table[i].threshold < table[j].threshold
  }

  /** The thresholds 0, 1000, 2500, 5000, strictly ascending. */
  lemma TableAscending()
    ensures |Table| == 4 && Ascending(Table)
    ensures Table[0].threshold == 0 && Table[1].threshold == 1000
    ensures Table[2].threshold == 2500 && Table[3].threshold == 5000
  {
  }

  /**
   * The index of the last rank whose threshold `points` reaches, or 0 when it
   * reaches none. Written from the end of the table, as the page searches it.
   */
  function LastReached(table: seq<Rank>, points: int): (k: nat)
    requires |table| > 0
    ensures k < |table|
    ensures table[k].threshold <= points || (k == 0 && forall j :: 0 <= j < |table| ==> points < table[j].threshold)
    ensures forall j :: k < j < |table| ==> points < table[j].threshold
    decreases |table|
  {
    var last := |table| - 1;
    if last == 0 || table[last].threshold <= points then last
    else LastReached(table[..last], points)
  }

  /** getCurrentRank: search from the last rank down and return the first one reached; the first rank when none is. */
  method GetCurrentRank(points: int) returns (rank: Rank)
    ensures rank == Table[LastReached(Table, points)]
  {
    var i := |Table| - 1;
    while i >= 0
      invariant -1 <= i < |Table|
      invariant forall j :: i < j < |Table| ==> points < Table[j].threshold
      decreases i + 1
    {
      if points >= Table[i].threshold {
        return Table[i];
      }
      i := i - 1;
    }
    return Table[0];
  }

  /** The first rank is returned as a fallback exactly when no threshold is reached, that is for negative points. */
  lemma FallbackOnlyBelowZero(points: int)
    ensures (forall j :: 0 <= j < |Table| ==> points < Table[j].threshold) <==> points < 0
    ensures points < 0 ==> LastReached(Table, points) == 0
    ensures points >= 0 ==> Table[LastReached(Table, points)].threshold <= points
  {
    TableAscending();
    if points >= 0 {
      assert !(points < Table[0].threshold);
    }
  }

  /** More points never give an earlier rank. */
  lemma CurrentRankMonotone(p: int, q: int)
    requires p <= q
    ensures LastReached(Table, p) <= LastReached(Table, q)
  {
  }

  /** `ranks.indexOf(rank)`: the first position of `rank`, or -1. */
  function IndexOf(table: seq<Rank>, rank: Rank): (i: int)
    ensures -1 <= i < |table|
    ensures i == -1 <==> rank !in table
    ensures i >= 0 ==> table[i] == rank && forall j :: 0 <= j < i ==> table[j] != rank
    decreases |table|
  {
    if table == [] then -1
    else if table[0] == rank then 0
    else var i := IndexOf(table[1..], rank); if i == -1 then -1 else i + 1
  }

  function Clamp(x: real): real {
    if x < 0.0 then 0.0 else if x > 100.0 then 100.0 else x
  }

  /** `(progressPoints / totalPoints) * 100` between thresholds `lo` and `hi`. */
  function Share(points: int, lo: int, hi: int): real
    requires lo < hi
  {
    (points - lo) as real / (hi - lo) as real * 100.0
  }

  /**
   * getProgress(rank): 100 once its threshold is reached; 0 when no rank comes
   * before it; otherwise the share of the way from the previous threshold,
   * as a percentage clamped to [0, 100]. Exact reals stand for JavaScript
   * doubles.
   */
  function Progress(rank: Rank, points: int): (r: real)
    ensures 0.0 <= r <= 100.0
    ensures points >= rank.threshold ==> r == 100.0
    ensures IndexOf(Table, rank) < 1 && points < rank.threshold ==> r == 0.0
  {
    if points >= rank.threshold then 100.0
    else
      var i := IndexOf(Table, rank);
      if i < 1 then 0.0
      else
        TableAscending();
        Clamp(Share(points, Table[i - 1].threshold, rank.threshold))
  }

  /** Each rank of the table is found at its own position. */
  lemma IndexOfTable(k: nat)
    requires k < |Table|
    ensures IndexOf(Table, Table[k]) == k
  {
    TableAscending();
  }

  /** Below its threshold, a rank after the first shows the clamped share of the way from the previous one. */
  lemma ProgressBelow(points: int, k: nat)
    requires 0 < k < |Table| && points < Table[k].threshold
    ensures Table[k - 1].threshold < Table[k].threshold
    ensures Progress(Table[k], points) == Clamp(Share(points, Table[k - 1].threshold, Table[k].threshold))
  {
    TableAscending();
    IndexOfTable(k);
  }

  /** Every rank up to the current one is complete. */
  lemma ProgressUpToCurrent(points: int, k: nat)
    requires points >= 0 && k <= LastReached(Table, points) < |Table|
    ensures Progress(Table[k], points) == 100.0
  {
    TableAscending();
    FallbackOnlyBelowZero(points);
    assert Table[k].threshold <= Table[LastReached(Table, points)].threshold;
  }

  /** The rank after the current one shows the unclamped share of the way to it, below 100. */
  lemma ProgressOfNext(points: int, k: nat)
    requires points >= 0 && 0 < k < |Table| && k == LastReached(Table, points) + 1
    ensures Progress(Table[k], points) == Share(points, Table[k - 1].threshold, Table[k].threshold)
    ensures Progress(Table[k], points) < 100.0
  {
    FallbackOnlyBelowZero(points);
    ProgressBelow(points, k);
    FractionBelowWhole(points - Table[k - 1].threshold, Table[k].threshold - Table[k - 1].threshold);
  }

  /** Every rank beyond the next one shows 0. */
  lemma ProgressBeyondNext(points: int, k: nat)
    requires points >= 0 && LastReached(Table, points) + 1 < k < |Table|
    ensures Progress(Table[k], points) == 0.0
  {
    TableAscending();
    ProgressBelow(points, k);
    assert points < Table[k - 1].threshold;
    FractionOfNegative(points - Table[k - 1].threshold, Table[k].threshold - Table[k - 1].threshold);
  }

  /**
   * What the page shows for points >= 0: every rank up to the current one is
   * complete, the next one shows the unclamped share of the way to it, and
   * every rank after that shows 0. This is the three lemmas above in one
   * statement over any row of the table, as the page renders all four bars;
   * the cases are proved apart to keep each proof small.
   */
  lemma ProgressProfile(points: int, k: nat)
    requires points >= 0 && k < |Table|
    ensures var c := LastReached(Table, points);
      && (k <= c ==> Progress(Table[k], points) == 100.0)
      && (k == c + 1 ==>
            && Progress(Table[k], points) == Share(points, Table[c].threshold, Table[k].threshold)
            && Progress(Table[k], points) < 100.0)
      && (k > c + 1 ==> Progress(Table[k], points) == 0.0)
  {
    var c := LastReached(Table, points);
    if k <= c {
      ProgressUpToCurrent(points, k);
    } else if k == c + 1 {
      ProgressOfNext(points, k);
    } else {
      ProgressBeyondNext(points, k);
    }
  }

  lemma FractionBelowWhole(a: int, b: int)
    requires 0 <= a < b
    ensures 0.0 <= a as real / b as real * 100.0 < 100.0
  {
    assert a as real / b as real < 1.0;
  }

  lemma FractionOfNegative(a: int, b: int)
    requires a < 0 < b
    ensures a as real / b as real * 100.0 < 0.0
  {
  }
}
