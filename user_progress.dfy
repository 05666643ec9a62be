/**
 * The user progress record `updateUserProgress` recomputes: play and
 * investment totals, and a level with a progress percentage, creators
 * ranked by the plays of their music and investors by the number of their
 * investments.
 */
module Progress {
  import opened Wrappers
  import opened JsText
  import opened JsNumber
  import opened SeqOps
  import opened LedgerRecords
  import opened LedgerQueries

  /** A level name with the progress percentage shown beside it. */
  datatype Tier = Tier(level: string, percentage: real)

  function Min(a: real, b: real): real {
    if a <= b then a else b
  }

  /** The creator levels: 1000, 500 and 100 plays; below 100, half a percent per play. */
  function CreatorTier(totalMusicPlays: nat): (t: Tier)
    ensures 0.0 <= t.percentage <= 100.0
  {
    if totalMusicPlays >= 1000 then Tier("Platinum Artist", 100.0)
    else if totalMusicPlays >= 500 then Tier("Gold Artist", 75.0)
    else if totalMusicPlays >= 100 then Tier("Silver Artist", 50.0)
    else Tier("Emerging Artist", Min(totalMusicPlays as real / 100.0 * 50.0, 50.0))
  }

  /** The investor levels: 50, 20, 10 and 5 investments; below 5, eight percent per investment. */
  function InvestorTier(totalInvestments: nat): (t: Tier)
    ensures 0.0 <= t.percentage <= 100.0
  {
    if totalInvestments >= 50 then Tier("Diamond Investor", 100.0)
    else if totalInvestments >= 20 then Tier("Platinum Investor", 80.0)
    else if totalInvestments >= 10 then Tier("Gold Investor", 60.0)
    else if totalInvestments >= 5 then Tier("Silver Investor", 40.0)
    else Tier("Bronze Investor", Min(totalInvestments as real / 5.0 * 40.0, 40.0))
  }

  /** More plays never lower a creator's percentage; only the top level shows 100. */
  lemma CreatorTierMonotone(n: nat, m: nat)
    requires n <= m
    ensures CreatorTier(n).percentage <= CreatorTier(m).percentage
    ensures CreatorTier(n).percentage == 100.0 <==> CreatorTier(n).level == "Platinum Artist"
  {
  }

  /** More investments never lower an investor's percentage; only the top level shows 100. */
  lemma InvestorTierMonotone(n: nat, m: nat)
    requires n <= m
    ensures InvestorTier(n).percentage <= InvestorTier(m).percentage
    ensures InvestorTier(n).percentage == 100.0 <==> InvestorTier(n).level == "Diamond Investor"
  {
  }

  /** The boundary of the first creator level: 99 plays show 49.5%, 100 plays reach Silver at 50%. */
  lemma CreatorTierBoundary()
    ensures CreatorTier(99) == Tier("Emerging Artist", 49.5)
    ensures CreatorTier(100) == Tier("Silver Artist", 50.0)
  {
  }

  /** The boundary of the first investor level: 4 investments show 32%, 5 reach Silver at 40%. */
  lemma InvestorTierBoundary()
    ensures InvestorTier(4) == Tier("Bronze Investor", 32.0)
    ensures InvestorTier(5) == Tier("Silver Investor", 40.0)
  {
  }

  /** `music.reduce((sum, m) => sum + getMusicPlayCount(m.id), 0)` */
  function SumPlayCounts(ms: seq<Music>, plays: seq<PlayEvent>): nat
    decreases |ms|
  {
    if ms == [] then 0
    else
      var last := |ms| - 1;
      SumPlayCounts(ms[..last], plays) + GetMusicPlayCount(plays, ms[last].id)
  }

  /** How many of the records carry this id. */
  function CountWithId(ms: seq<Music>, id: string): (n: nat)
    ensures n <= |ms|
    decreases |ms|
  {
    if ms == [] then 0
    else
      var last := |ms| - 1;
      CountWithId(ms[..last], id) + (if ms[last].id == id then 1 else 0)
  }

  /** The total is zero exactly when no play is of any of these records. */
  lemma {:induction false} SumPlayCountsZero(ms: seq<Music>, plays: seq<PlayEvent>)
    ensures SumPlayCounts(ms, plays) == 0 <==>
            forall i, k :: 0 <= i < |ms| && 0 <= k < |plays| ==> plays[k].musicId != ms[i].id
    decreases |ms|
  {
    if ms != [] {
      var last := |ms| - 1;
      SumPlayCountsZero(ms[..last], plays);
      assert forall i :: 0 <= i < last ==> ms[..last][i] == ms[i];
    }
  }

  /** A new play raises the total by the number of these records carrying its music id. */
  lemma {:induction false} SumPlayCountsAfterPlay(ms: seq<Music>, plays: seq<PlayEvent>, p: PlayEvent)
    ensures SumPlayCounts(ms, [p] + plays) == SumPlayCounts(ms, plays) + CountWithId(ms, p.musicId)
    decreases |ms|
  {
    if ms != [] {
      var last := |ms| - 1;
      SumPlayCountsAfterPlay(ms[..last], plays, p);
      PlayCountAfterSave(plays, p, ms[last].id);
    }
  }

  /** The plays of all music whose creator address matches the user, ignoring case. */
  function CreatorMusicPlays(music: seq<Music>, plays: seq<PlayEvent>, userId: string): nat {
    SumPlayCounts(GetMusicByCreator(music, userId), plays)
  }

  /** The record a user without progress starts from. */
  function InitialProgress(userId: string, role: Role, now: Timestamp): (p: UserProgress)
    ensures p.userId == userId && p.userRole == role
    ensures p.totalPlays == 0 && p.totalInvestments == 0 && p.progressPercentage == 0.0
    ensures p.level == (if role == Creator then CreatorTier(0) else InvestorTier(0)).level
  {
    UserProgress(userId, role, 0, 0, Finite(0.0), 0.0,
                 if role == Creator then "Emerging Artist" else "Bronze Investor", 0.0, now)
  }

  /**
   * `base` with its statistics recomputed from the stored collections: the
   * level follows the role `updateUserProgress` is called with, while the
   * record keeps the role it was created with.
   */
  function Recomputed(base: UserProgress, role: Role, music: seq<Music>, investments: seq<Investment>,
                      plays: seq<PlayEvent>, now: Timestamp): (p: UserProgress)
    ensures p.userId == base.userId && p.userRole == base.userRole && p.lastUpdated == now
    ensures p.totalPlays == |GetPlayHistoryByUser(plays, base.userId)|
    ensures p.totalInvestments == |GetInvestmentsByUser(investments, base.userId)|
    ensures p.totalInvested == SumAmounts(GetInvestmentsByUser(investments, base.userId))
    ensures role == Creator ==>
              p.totalRoyalty == CreatorMusicPlays(music, plays, base.userId) as real * 0.01 &&
              Tier(p.level, p.progressPercentage) == CreatorTier(CreatorMusicPlays(music, plays, base.userId))
    ensures role == User ==>
              p.totalRoyalty == base.totalRoyalty &&
              Tier(p.level, p.progressPercentage) == InvestorTier(p.totalInvestments)
    ensures 0.0 <= p.progressPercentage <= 100.0
  {
    var mine := GetInvestmentsByUser(investments, base.userId);
    var counted := base.(totalPlays := |GetPlayHistoryByUser(plays, base.userId)|,
                         totalInvestments := |mine|,
                         totalInvested := SumAmounts(mine),
                         lastUpdated := now);
    match role
    case Creator =>
      var total := CreatorMusicPlays(music, plays, base.userId);
      var t := CreatorTier(total);
      counted.(totalRoyalty := total as real * 0.01, level := t.level, progressPercentage := t.percentage)
    case User =>
      var t := InvestorTier(|mine|);
      counted.(level := t.level, progressPercentage := t.percentage)
  }

  /**
   * `updateUserProgress(userId, role)`: the user's first record, or a new
   * one, recomputed and stored in front of every other user's record; the
   * result is the stored collection and the recomputed record.
   */
  function ProgressUpdate(progress: seq<UserProgress>, music: seq<Music>, investments: seq<Investment>,
                          plays: seq<PlayEvent>, userId: string, role: Role, now: Timestamp)
    : (r: (seq<UserProgress>, UserProgress))
    ensures r.1.userId == userId
    ensures r.0 == [r.1] + OtherProgress(progress, userId)
    ensures GetUserProgressById(progress, userId).None? ==>
              r.1 == Recomputed(InitialProgress(userId, role, now), role, music, investments, plays, now)
    ensures GetUserProgressById(progress, userId).Some? ==>
              r.1 == Recomputed(GetUserProgressById(progress, userId).value, role, music, investments, plays, now)
  {
    var base := GetUserProgressById(progress, userId).GetOr(InitialProgress(userId, role, now));
    var p := Recomputed(base, role, music, investments, plays, now);
    ([p] + OtherProgress(progress, userId), p)
  }

  /**
   * A user's record put in front of the other users' records is the one
   * found for them, is their only record, and leaves every other user's
   * records as they were.
   */
  lemma FrontRecordIsOnlyRecord(p: UserProgress, progress: seq<UserProgress>, userId: string)
    requires p.userId == userId
    ensures var stored := [p] + OtherProgress(progress, userId);
      && GetUserProgressById(stored, userId) == Some(p)
      && (forall k :: 1 <= k < |stored| ==> stored[k].userId != userId)
      && (forall q :: q in stored && q.userId != userId <==> q in progress && q.userId != userId)
  {
    var others := OtherProgress(progress, userId);
    var stored := [p] + others;
    forall k | 1 <= k < |stored| ensures stored[k].userId != userId {
      assert stored[k] == others[k - 1];
      assert others[k - 1] in others;
    }
  }

  /**
   * After an update the user has exactly one record, found first, and every
   * other user's records are kept in their order.
   */
  lemma UpdateStoresOneRecord(progress: seq<UserProgress>, music: seq<Music>, investments: seq<Investment>,
                              plays: seq<PlayEvent>, userId: string, role: Role, now: Timestamp)
    ensures var (stored, p) := ProgressUpdate(progress, music, investments, plays, userId, role, now);
      && GetUserProgressById(stored, userId) == Some(p)
      && (forall k :: 1 <= k < |stored| ==> stored[k].userId != userId)
      && (forall q :: q in stored && q.userId != userId <==> q in progress && q.userId != userId)
  {
    var r := ProgressUpdate(progress, music, investments, plays, userId, role, now);
    FrontRecordIsOnlyRecord(r.1, progress, userId);
  }

  /** Dropping a user's records twice is dropping them once. */
  lemma OtherProgressTwice(p: UserProgress, progress: seq<UserProgress>, userId: string)
    requires p.userId == userId
    ensures OtherProgress([p] + OtherProgress(progress, userId), userId) == OtherProgress(progress, userId)
  {
    var keep := (q: UserProgress) => q.userId != userId;
    var others := OtherProgress(progress, userId);
    FilterConcat([p], others, keep);
    assert Filter([p], keep) == [] by {
      assert [p][1..] == [];
    }
    forall k | 0 <= k < |others| ensures keep(others[k]) {
      assert others[k] in others;
    }
    FilterKeepsAll(others, keep);
    assert [] + others == others;
  }

  /** Recomputing a recomputed record from the same collections at the same moment changes nothing. */
  lemma RecomputedTwice(base: UserProgress, role: Role, music: seq<Music>, investments: seq<Investment>,
                        plays: seq<PlayEvent>, now: Timestamp)
    ensures var p := Recomputed(base, role, music, investments, plays, now);
            Recomputed(p, role, music, investments, plays, now) == p
  {
  }

  /** Updating a user's progress twice at the same moment stores what the first update stored. */
  lemma UpdateIdempotent(progress: seq<UserProgress>, music: seq<Music>, investments: seq<Investment>,
                         plays: seq<PlayEvent>, userId: string, role: Role, now: Timestamp)
    ensures var once := ProgressUpdate(progress, music, investments, plays, userId, role, now);
            ProgressUpdate(once.0, music, investments, plays, userId, role, now) == once
  {
    var (stored, p) := ProgressUpdate(progress, music, investments, plays, userId, role, now);
    UpdateStoresOneRecord(progress, music, investments, plays, userId, role, now);
    var base := GetUserProgressById(progress, userId).GetOr(InitialProgress(userId, role, now));
    assert p == Recomputed(base, role, music, investments, plays, now);
    RecomputedTwice(base, role, music, investments, plays, now);
    OtherProgressTwice(p, progress, userId);
    var again := ProgressUpdate(stored, music, investments, plays, userId, role, now);
    assert again.1 == Recomputed(p, role, music, investments, plays, now) == p;
    assert again.0 == [p] + OtherProgress(stored, userId) == stored;
  }
}
