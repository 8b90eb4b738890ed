/**
 * The header's rank label (getRank in src/App.jsx) and the ranks page
 * (src/components/RanksSection.jsx) classify points with different names and
 * thresholds. This module states exactly where the two agree.
 */
module RankAgreement {
  import Game
  import Ranks

  /** The name the ranks page gives as the current rank. */
  function PageRankName(points: int): string {
    Ranks.Table[Ranks.LastReached(Ranks.Table, points)].name
  }

  /**
   * The two names agree below 1000 points and from 5000 on. In between the page
   * says "Beach Explorer" (from 1000) and "Wave Rider" (from 2500) while the
   * header still says "Sandy Starter" (below 2500) and "Beach Explorer".
   */
  lemma HeaderAgreesWithPage(points: int)
    ensures Game.RankLabel(points) == PageRankName(points) <==> points < 1000 || points >= 5000
    ensures 1000 <= points < 2500 ==> PageRankName(points) == "Beach Explorer" && Game.RankLabel(points) == "Sandy Starter"
    ensures 2500 <= points < 5000 ==> PageRankName(points) == "Wave Rider" && Game.RankLabel(points) == "Beach Explorer"
  {
    Ranks.TableAscending();
    Ranks.FallbackOnlyBelowZero(points);
    var k := Ranks.LastReached(Ranks.Table, points);
    if points < 0 {
      assert k == 0;
    } else if points < 1000 {
      assert k == 0;
    } else if points < 2500 {
      assert k == 1;
    } else if points < 5000 {
      assert k == 2;
    } else {
      assert k == 3;
    }
  }
}
