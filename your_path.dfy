/**
 * The "your path" panel of a creator: the level read from the stored
 * progress, how many works the next level asks for, and how far along the
 * creator is.
 */
module YourPath {
  import opened Wrappers
  import opened Session
  import opened JsText
  import opened LedgerRecords
  import opened LedgerQueries
  import opened Progress

  /** What the panel shows. */
  datatype PathState = PathState(
    currentLevel: string,
    currentWorks: nat,
    totalWorksForNextLevel: nat,
    finalGoal: string,
    progressPercentage: int)

  const FinalGoal: string := "Legendary Creator"

  /** The panel before anything is read. */
  const InitialPath: PathState := PathState("Registered Creator", 0, 5, FinalGoal, 0)

  /** The works the next level asks for, by the first of Bronze, Silver and Gold the level name contains. */
  function WorksNeeded(level: string): (n: nat)
    ensures n in {5, 10, 20, 50}
    ensures Contains(level, "Bronze") ==> n == 10
  {
    if Contains(level, "Bronze") then 10
    else if Contains(level, "Silver") then 20
    else if Contains(level, "Gold") then 50
    else 5
  }

  /** A level name without the capitals B, S and G names none of the tiers. */
  lemma NoneOfTheTiers(level: string)
    requires 'B' !in level && 'S' !in level && 'G' !in level
    ensures WorksNeeded(level) == 5
  {
    MissingCharNotContained(level, "Bronze", 'B');
    MissingCharNotContained(level, "Silver", 'S');
    MissingCharNotContained(level, "Gold", 'G');
  }

  /** A level name starting with "Bronze" asks for 10 works. */
  lemma BronzeTier(level: string)
    requires StartsWith(level, "Bronze")
    ensures WorksNeeded(level) == 10
  {
  }

  /** A level name starting with "Silver", without a capital B, asks for 20 works. */
  lemma SilverTier(level: string)
    requires StartsWith(level, "Silver") && 'B' !in level
    ensures WorksNeeded(level) == 20
  {
    MissingCharNotContained(level, "Bronze", 'B');
  }

  /** A level name starting with "Gold", without a capital B or S, asks for 50 works. */
  lemma GoldTier(level: string)
    requires StartsWith(level, "Gold") && 'B' !in level && 'S' !in level
    ensures WorksNeeded(level) == 50
  {
    MissingCharNotContained(level, "Bronze", 'B');
    MissingCharNotContained(level, "Silver", 'S');
  }

  /** The first and the top creator levels name no tier. */
  lemma UntieredCreatorLevel(level: string)
    requires level == "Emerging Artist" || level == "Platinum Artist"
    ensures WorksNeeded(level) == 5
  {
    NoneOfTheTiers(level);
  }

  /** The top investor levels name no tier. */
  lemma UntieredInvestorLevel(level: string)
    requires level == "Platinum Investor" || level == "Diamond Investor"
    ensures WorksNeeded(level) == 5
  {
    NoneOfTheTiers(level);
  }

  /** Both Silver levels ask for 20 works. */
  lemma SilverLevel(level: string)
    requires level == "Silver Artist" || level == "Silver Investor"
    ensures WorksNeeded(level) == 20
  {
    SilverTier(level);
  }

  /** Both Gold levels ask for 50 works. */
  lemma GoldLevel(level: string)
    requires level == "Gold Artist" || level == "Gold Investor"
    ensures WorksNeeded(level) == 50
  {
    GoldTier(level);
  }

  /**
   * The works asked of a creator at each level the stored progress can
   * hold: 5 for an Emerging Artist, 20 for a Silver Artist, 50 for a Gold
   * Artist, and 5 again for a Platinum Artist, whose level names no tier.
   */
  lemma CreatorLevelWorks(totalMusicPlays: nat)
    ensures WorksNeeded(CreatorTier(totalMusicPlays).level) ==
              if totalMusicPlays >= 1000 then 5
              else if totalMusicPlays >= 500 then 50
              else if totalMusicPlays >= 100 then 20
              else 5
  {
    var level := CreatorTier(totalMusicPlays).level;
    if totalMusicPlays >= 1000 || totalMusicPlays < 100 {
      UntieredCreatorLevel(level);
    } else if totalMusicPlays >= 500 {
      GoldLevel(level);
    } else {
      SilverLevel(level);
    }
  }

  /**
   * The works asked at each investor level: 10 for a Bronze Investor, 20
   * for Silver, 50 for Gold, and 5 for the Platinum and Diamond levels.
   */
  lemma InvestorLevelWorks(totalInvestments: nat)
    ensures WorksNeeded(InvestorTier(totalInvestments).level) ==
              if totalInvestments >= 20 then 5
              else if totalInvestments >= 10 then 50
              else if totalInvestments >= 5 then 20
              else 10
  {
    var level := InvestorTier(totalInvestments).level;
    if totalInvestments >= 20 {
      UntieredInvestorLevel(level);
    } else if totalInvestments >= 10 {
      GoldLevel(level);
    } else if totalInvestments >= 5 {
      SilverLevel(level);
    } else {
      BronzeTier(level);
    }
  }

  /** `Math.round` on a non-negative number: halves round up. */
  function Round(x: real): (n: int)
    requires x >= 0.0
    ensures n >= 0
    ensures n as real - 0.5 <= x < n as real + 0.5
  {
    (x + 0.5).Floor
  }

  /** `Math.round(Math.min(totalWorks / worksNeeded * 100, 100))` */
  function Percentage(totalWorks: nat, worksNeeded: nat): (p: int)
    requires worksNeeded > 0
    ensures 0 <= p <= 100
    ensures var raw := totalWorks as real / worksNeeded as real * 100.0;
            p as real - 0.5 <= (if raw <= 100.0 then raw else 100.0) < p as real + 0.5
  {
    var raw := totalWorks as real / worksNeeded as real * 100.0;
    Round(if raw <= 100.0 then raw else 100.0)
  }

  /** With the works the levels ask for, the bar is full exactly when that many works exist. */
  lemma FullExactlyAtGoal(totalWorks: nat, worksNeeded: nat)
    requires worksNeeded in {5, 10, 20, 50}
    ensures Percentage(totalWorks, worksNeeded) == 100 <==> totalWorks >= worksNeeded
  {
    var raw := totalWorks as real / worksNeeded as real * 100.0;
    if totalWorks < worksNeeded {
      assert totalWorks as real <= worksNeeded as real - 1.0;
      assert raw <= 100.0 - 100.0 / worksNeeded as real;
      assert raw <= 98.0;
    } else {
      assert totalWorks as real / worksNeeded as real >= 1.0;
    }
  }

  /**
   * The panel once loaded: unchanged without a signed-in user or without
   * stored progress for them; otherwise their level against every stored
   * work, whoever created it.
   */
  function LoadedPath(state: PathState, authenticated: bool, userId: Option<string>,
                      progress: seq<UserProgress>, music: seq<Music>): (s: PathState)
    ensures !(authenticated && SignedIn(userId)) ==> s == state
    ensures authenticated && SignedIn(userId) && GetUserProgressById(progress, userId.value).None? ==> s == state
    ensures authenticated && SignedIn(userId) && GetUserProgressById(progress, userId.value).Some? ==>
              s.currentLevel == GetUserProgressById(progress, userId.value).value.level &&
              s.currentWorks == |music| && s.finalGoal == FinalGoal &&
              s.totalWorksForNextLevel == WorksNeeded(s.currentLevel) &&
              s.progressPercentage == Percentage(s.currentWorks, s.totalWorksForNextLevel)
  {
    if !(authenticated && SignedIn(userId)) then state
    else match GetUserProgressById(progress, userId.value)
      case None => state
      case Some(p) =>
        var needed := WorksNeeded(p.level);
        PathState(p.level, |music|, needed, FinalGoal, Percentage(|music|, needed))
  }

  /** Whatever is stored, the panel's percentage stays within 0 to 100 and is full exactly at the goal. */
  lemma LoadedPathBounded(authenticated: bool, userId: Option<string>, progress: seq<UserProgress>, music: seq<Music>)
    ensures var s := LoadedPath(InitialPath, authenticated, userId, progress, music);
            0 <= s.progressPercentage <= 100 &&
            (s.progressPercentage == 100 <==> s.currentWorks >= s.totalWorksForNextLevel)
  {
    var s := LoadedPath(InitialPath, authenticated, userId, progress, music);
    FullExactlyAtGoal(s.currentWorks, s.totalWorksForNextLevel);
  }
}
