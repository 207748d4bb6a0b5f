/** The rank table of a week's completion percentage and the lookup over it. */
module Ranks {

  datatype Rank = Rank(threshold: int, name: string, cls: string)

  /** The ranks, by ascending threshold. */
  const RANKS: seq<Rank> := [
    Rank(0, "Ronin", "rank-ronin"),
    Rank(20, "Samurai", "rank-samurai"),
    Rank(40, "Shogun", "rank-shogun"),
    Rank(60, "Daimyo", "rank-daimyo"),
    Rank(80, "Apex Warrior", "rank-apex"),
    Rank(100, "Apex Legend", "rank-legend")
  ]

  /** The thresholds strictly increase along the table, from 0. */
  lemma ThresholdsAscend()
    ensures RANKS[0].threshold == 0
    ensures forall i, j :: 0 <= i < j < |RANKS| ==> RANKS[i].threshold < RANKS[j].threshold
  {
  }

  /** The index of the last of the first `k + 1` ranks whose threshold is at most `p`, or 0. */
  function LastAtMost(p: int, k: nat): (i: nat)
    requires k < |RANKS|
    ensures i <= k
    ensures i == 0 || RANKS[i].threshold <= p
    ensures forall j :: i < j <= k ==> p < RANKS[j].threshold
  {
    if k == 0 || RANKS[k].threshold <= p then k else LastAtMost(p, k - 1)
  }

  /**
   * The rank of percentage `p`: the rank with the largest threshold at most `p`, which is the
   * first rank when no threshold is at most `p`.
   */
  function RankOf(p: int): (r: Rank)
    ensures r in RANKS
    ensures 0 <= p ==> r.threshold <= p
    ensures p < 0 ==> r == RANKS[0]
    ensures forall i :: 0 <= i < |RANKS| && RANKS[i].threshold <= p ==> RANKS[i].threshold <= r.threshold
  {
    ThresholdsAscend();
    RANKS[LastAtMost(p, |RANKS| - 1)]
  }

  /** `getRankForPercent`: scans the table in order, keeping the last rank `percent` reaches. */
  method RankForPercent(percent: int) returns (r: Rank)
    ensures r == RankOf(percent)
  {
    r := RANKS[0];
    for i := 0 to |RANKS|
      invariant i == 0 ==> r == RANKS[0]
      invariant i > 0 ==> r == RANKS[LastAtMost(percent, i - 1)]
    {
      if percent >= RANKS[i].threshold {
        r := RANKS[i];
      }
    }
  }

  /** A percentage from one threshold up to below the next gets the rank of the first threshold. */
  lemma RankOfBand(p: int, i: nat)
    requires i < |RANKS| && RANKS[i].threshold <= p
    requires i + 1 < |RANKS| ==> p < RANKS[i + 1].threshold
    ensures RankOf(p) == RANKS[i]
  {
    ThresholdsAscend();
  }

  /** A higher percentage never gets a lower rank. */
  lemma RankMonotone(p1: int, p2: int)
    requires p1 <= p2
    ensures RankOf(p1).threshold <= RankOf(p2).threshold
  {
    ThresholdsAscend();
    var i :| 0 <= i < |RANKS| && RANKS[i] == RankOf(p1);
  }

  /** The table at its edges: 19 is Ronin, 20 Samurai, 50 Shogun, 100 and above Apex Legend. */
  lemma RankExamples()
    ensures RankOf(0).name == "Ronin" && RankOf(19).name == "Ronin"
    ensures RankOf(20).name == "Samurai" && RankOf(50).name == "Shogun"
    ensures RankOf(99).name == "Apex Warrior" && RankOf(100).name == "Apex Legend"
    ensures RankOf(250).name == "Apex Legend"
  {
    RankOfBand(0, 0);
    RankOfBand(19, 0);
    RankOfBand(20, 1);
    RankOfBand(50, 2);
    RankOfBand(99, 4);
    RankOfBand(100, 5);
    RankOfBand(250, 5);
  }
}
