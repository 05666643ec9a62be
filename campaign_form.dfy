/**
 * The dialog a creator opens a funding pool for one of their works with:
 * the checks on the typed goal, royalty share and duration, the campaign
 * record it saves, and what that record means for the creator's royalty.
 */
module CampaignForm {
  import opened Wrappers
  import opened Session
  import opened JsText
  import opened JsNumber
  import opened SeqOps
  import opened LedgerRecords
  import opened LedgerQueries
  import opened LedgerStore
  import opened Royalty

  const DayMs: int := 86400000
  /** The largest distance from the epoch a JavaScript date can hold, in milliseconds. */
  const MaxTime: int := 8640000000000000

  /** Why no campaign was saved. */
  datatype CampaignError = NotAuthenticated | InvalidGoal | InvalidRoyalty | InvalidDeadline

  /** The goal check: an empty goal, or one read as at most zero, is refused. */
  predicate GoalRejected(goal: string) {
    goal == "" || AtMost(ParseFloat(goal), 0.0)
  }

  /**
   * An empty goal is refused; a goal that passes reads as a positive number
   * or as NaN (text not starting with a number gets through); a positive
   * whole number passes.
   */
  lemma GoalCheck(goal: string, n: nat)
    ensures goal == "" ==> GoalRejected(goal)
    ensures !GoalRejected(goal) ==> Exceeds(ParseFloat(goal), 0.0) || ParseFloat(goal) == NaN
    ensures n > 0 ==> !GoalRejected(NatToString(n))
  {
    EmptyIsNaN();
    ParseFloatOfNat(n);
  }

  /** The royalty check as the dialog writes it: `royalty <= 0 || royalty > 50`, where NaN fails both. */
  predicate RoyaltyRejectedAsWritten(royalty: Num) {
    AtMost(royalty, 0.0) || Exceeds(royalty, 50.0)
  }

  /** The royalty check as intended: a number above 0 and at most 50. */
  predicate RoyaltyAccepted(royalty: Num) {
    royalty.Finite? && 0.0 < royalty.value <= 50.0
  }

  /** A cleared royalty field reads as NaN and gets through the check as written. */
  lemma EmptyRoyaltyPassesAsWritten()
    ensures ParseFloat("") == NaN
    ensures !RoyaltyRejectedAsWritten(ParseFloat(""))
    ensures !RoyaltyAccepted(ParseFloat(""))
  {
    EmptyIsNaN();
  }

  /** The intended check agrees with the written one on every number and refuses NaN as well. */
  lemma RoyaltyChecksAgree(royalty: Num)
    ensures RoyaltyAccepted(royalty) <==> royalty.Finite? && !RoyaltyRejectedAsWritten(royalty)
    ensures royalty == NaN ==> !RoyaltyAccepted(royalty) && !RoyaltyRejectedAsWritten(royalty)
  {
  }

  /**
   * The deadline: `durationInDays` whole days after now, read with
   * `parseInt`; none when the field holds no number or the date falls
   * outside what a JavaScript date can hold.
   */
  function DeadlineOf(now: Timestamp, durationText: string): (d: Option<Timestamp>)
    ensures d.Some? ==> ParseInt(durationText).Finite? && -MaxTime <= d.value <= MaxTime
    ensures ParseInt(durationText) == NaN ==> d.None?
  {
    match ParseInt(durationText)
    case NaN => None
    case Finite(days) =>
      var t := now + days.Floor * DayMs;
      if -MaxTime <= t <= MaxTime then Some(t) else None
  }

  /** Thirty days from `now` is thirty times a day's milliseconds later. */
  lemma DefaultDeadline(now: Timestamp)
    requires 0 <= now <= MaxTime - 30 * DayMs
    ensures DeadlineOf(now, "30") == Some(now + 30 * DayMs)
  {
    ParseIntOfNat(30);
    assert NatToString(30) == "30" by {
      assert NatToString(3) == "3";
    }
  }

  /** A readable count of days puts the deadline that many whole days after now. */
  lemma DeadlineAfterDays(now: Timestamp, n: nat)
    requires -MaxTime <= now + n * DayMs <= MaxTime
    ensures DeadlineOf(now, NatToString(n)) == Some(now + n * DayMs)
  {
    ParseIntOfNat(n);
  }

  /**
   * The campaign record a submit that passed every check saves: the typed
   * fields, the signed-in id or "guest" as creator, a default description
   * naming the music, nothing raised yet, and active from now.
   */
  function NewCampaign(campaignId: string, musicId: string, musicTitle: string, goal: string, royalty: real,
                       deadline: Timestamp, lockupText: string, description: string, userId: Option<string>,
                       now: Timestamp): (c: Campaign)
    ensures c.id == campaignId && c.musicTokenId == musicId && c.status == Active
    ensures c.currentAmount == Finite(0.0) && c.backers == 0
    ensures c.musicTitle == musicTitle && c.goal == goal && c.royaltyPercentage == royalty
    ensures c.deadline == deadline && c.lockupPeriod == ParseInt(lockupText) && c.createdAt == now
    ensures c.creatorAddress == UserIdOrGuest(userId) && c.creatorAddress != ""
    ensures c.description == (if description == "" then "Pool pendanaan untuk musik " + musicTitle else description)
    ensures c.description != ""
    ensures c.campaignId.None? && c.txHash.None?
  {
    Campaign(campaignId, musicId, musicTitle, goal, royalty, deadline, ParseInt(lockupText), Finite(0.0), 0,
             UserIdOrGuest(userId),
             if description == "" then "Pool pendanaan untuk musik " + musicTitle else description,
             now, Active, None, None)
  }

  /** The outcome of a submit: the first failed check, or the campaign to save. */
  function SubmitOutcome(authenticated: bool, goal: string, royaltyText: string, durationText: string,
                         lockupText: string, description: string, musicId: string, musicTitle: string,
                         campaignId: string, userId: Option<string>, now: Timestamp): (r: Result<Campaign, CampaignError>)
    ensures r.Ok? ==> r.value.id == campaignId && r.value.status == Active && r.value.backers == 0
  {
    if !authenticated then Err(NotAuthenticated)
    else if GoalRejected(goal) then Err(InvalidGoal)
    else
      var royalty := ParseFloat(royaltyText);
      if !RoyaltyAccepted(royalty) then Err(InvalidRoyalty)
      else match DeadlineOf(now, durationText)
        case None => Err(InvalidDeadline)
        case Some(deadline) =>
          Ok(NewCampaign(campaignId, musicId, musicTitle, goal, royalty.value, deadline, lockupText,
                         description, userId, now))
  }

  /**
   * A submit saves a campaign exactly when it is signed in, the goal and
   * the royalty pass and the deadline is a date; otherwise it reports the
   * first check that failed. The saved campaign carries the typed goal,
   * the royalty read from the form (above 0 and at most 50), the deadline
   * and the lock-up read with `parseInt`.
   */
  lemma SubmitChecks(authenticated: bool, goal: string, royaltyText: string, durationText: string,
                     lockupText: string, description: string, musicId: string, musicTitle: string,
                     campaignId: string, userId: Option<string>, now: Timestamp)
    ensures var r := SubmitOutcome(authenticated, goal, royaltyText, durationText, lockupText, description,
                                   musicId, musicTitle, campaignId, userId, now);
      && (r.Ok? <==> authenticated && !GoalRejected(goal) && RoyaltyAccepted(ParseFloat(royaltyText)) &&
                     DeadlineOf(now, durationText).Some?)
      && (!authenticated ==> r == Err(NotAuthenticated))
      && (authenticated && GoalRejected(goal) ==> r == Err(InvalidGoal))
      && (authenticated && !GoalRejected(goal) && !RoyaltyAccepted(ParseFloat(royaltyText)) ==> r == Err(InvalidRoyalty))
      && (r.Ok? ==> r.value.goal == goal && r.value.musicTokenId == musicId &&
                    r.value.royaltyPercentage == ParseFloat(royaltyText).value &&
                    0.0 < r.value.royaltyPercentage <= 50.0 &&
                    r.value.deadline == DeadlineOf(now, durationText).value &&
                    r.value.lockupPeriod == ParseInt(lockupText) &&
                    r.value.creatorAddress == UserIdOrGuest(userId) &&
                    r.value.description == (if description == "" then "Pool pendanaan untuk musik " + musicTitle
                                            else description))
  {
  }

  /**
   * The submit as the dialog writes it, reduced to the royalty it saves: the
   * same checks in the same order, but with the written royalty guard, which
   * a royalty read as NaN gets through.
   */
  function SubmitRoyaltyAsWritten(authenticated: bool, goal: string, royaltyText: string, durationText: string,
                                  now: Timestamp): (r: Result<Num, CampaignError>)
    ensures r.Ok? ==> r.value == ParseFloat(royaltyText)
    ensures r.Ok? && !RoyaltyAccepted(r.value) ==> r.value == NaN
  {
    if !authenticated then Err(NotAuthenticated)
    else if GoalRejected(goal) then Err(InvalidGoal)
    else
      var royalty := ParseFloat(royaltyText);
      if RoyaltyRejectedAsWritten(royalty) then Err(InvalidRoyalty)
      else match DeadlineOf(now, durationText)
        case None => Err(InvalidDeadline)
        case Some(_) => Ok(royalty)
  }

  /**
   * The written and the intended submit agree whenever the royalty field
   * reads as a number. They save differently on exactly one input class: a
   * royalty read as NaN (field cleared, or not starting with a number) with
   * every other check passing, which the written guard saves and the
   * intended one refuses.
   */
  lemma SubmitAsWrittenDiffers(authenticated: bool, goal: string, royaltyText: string, durationText: string,
                               lockupText: string, description: string, musicId: string, musicTitle: string,
                               campaignId: string, userId: Option<string>, now: Timestamp)
    ensures var w := SubmitRoyaltyAsWritten(authenticated, goal, royaltyText, durationText, now);
            var o := SubmitOutcome(authenticated, goal, royaltyText, durationText, lockupText, description,
                                   musicId, musicTitle, campaignId, userId, now);
      && (o.Ok? ==> w == Ok(Finite(o.value.royaltyPercentage)))
      && (ParseFloat(royaltyText).Finite? ==> (o.Err? <==> w.Err?) && (o.Err? ==> o.error == w.error))
      && (w.Ok? && o.Err? <==> authenticated && !GoalRejected(goal) && ParseFloat(royaltyText) == NaN &&
                               DeadlineOf(now, durationText).Some?)
  {
    RoyaltyChecksAgree(ParseFloat(royaltyText));
  }

  /**
   * A saved active campaign is the one found for its id, and the one found
   * first among the active campaigns of its music.
   */
  lemma NewCampaignIsActive(campaigns: seq<Campaign>, c: Campaign)
    requires c.status == Active
    ensures GetCampaignById([c] + campaigns, c.id) == Some(c)
    ensures ActiveCampaignFor([c] + campaigns, c.musicTokenId) == Some(c)
  {
    var all := [c] + campaigns;
    assert all[0] == c && all[1..] == campaigns;
    assert GetActiveCampaigns(all) == [c] + Filter(campaigns, IsActive);
  }

  /** Offering investors at most half of the revenue leaves the creator at least the other half. */
  lemma CreatorKeepsHalf(revenue: real, c: Campaign)
    requires revenue >= 0.0 && 0.0 < c.royaltyPercentage <= 50.0
    ensures revenue / 2.0 <= CreatorPart(revenue, Some(c)) <= revenue
    ensures revenue > 0.0 ==> CreatorPart(revenue, Some(c)) < revenue
  {
    var share := (100.0 - c.royaltyPercentage) / 100.0;
    assert 0.5 <= share < 1.0;
    assert revenue * 0.5 <= revenue * share <= revenue * 1.0;
    if revenue > 0.0 {
      assert revenue * share < revenue * 1.0;
    }
  }

  /**
   * A saved campaign is the active campaign of its music from then on: the
   * creator's royalty becomes their share of the revenue, at least half of
   * it since the royalty offered is at most 50%.
   */
  lemma NewCampaignSetsCreatorShare(plays: seq<PlayEvent>, campaigns: seq<Campaign>, c: Campaign)
    requires c.status == Active && 0.0 < c.royaltyPercentage <= 50.0
    ensures var revenue := Revenue(plays, c.musicTokenId);
            var royalty := CalculateCreatorRoyalty(plays, [c] + campaigns, c.musicTokenId);
            royalty == CreatorPart(revenue, Some(c)) && revenue / 2.0 <= royalty <= revenue
  {
    NewCampaignIsActive(campaigns, c);
    CreatorKeepsHalf(Revenue(plays, c.musicTokenId), c);
  }

  /** What the success dialog shows: the fields as typed. */
  datatype PoolData = PoolData(musicTitle: string, goalAmount: string, royaltyPercentage: string, duration: string,
                               lockupPeriod: string, description: string)

  /**
   * The dialog's state for one work, over the ledger it saves to. The new
   * id and the clock are parameters of the submit.
   */
  class CreateCampaignModal {
    const ledger: Ledger
    const musicId: string
    const musicTitle: string
    var goalAmount: string
    var royaltyPercentage: string
    var durationInDays: string
    var lockupPeriodInDays: string
    var description: string
    var isCreating: bool
    var showSuccessModal: bool
    var poolData: Option<PoolData>

    /** The dialog opens with a 25% royalty, 30 days to run and a 90-day lock-up. */
    constructor (ledger: Ledger, musicId: string, musicTitle: string)
      ensures this.ledger == ledger && this.musicId == musicId && this.musicTitle == musicTitle
      ensures goalAmount == "" && royaltyPercentage == "25" && durationInDays == "30" &&
              lockupPeriodInDays == "90" && description == ""
      ensures !isCreating && !showSuccessModal && poolData.None?
    {
      this.ledger := ledger;
      this.musicId := musicId;
      this.musicTitle := musicTitle;
      goalAmount, royaltyPercentage, durationInDays, lockupPeriodInDays, description := "", "25", "30", "90", "";
      isCreating, showSuccessModal, poolData := false, false, None;
    }

    /**
     * `handleSubmit`: check sign-in, goal and royalty, then save exactly one
     * campaign and open the success dialog; a deadline that cannot be
     * written as a date stops it after the checks, with nothing saved.
     */
    method HandleSubmit(authenticated: bool, userId: Option<string>, campaignId: string, now: Timestamp)
      returns (r: Result<Campaign, CampaignError>)
      modifies this`isCreating, this`showSuccessModal, this`poolData, ledger`campaigns
      ensures r == SubmitOutcome(authenticated, goalAmount, royaltyPercentage, durationInDays, lockupPeriodInDays,
                                 description, musicId, musicTitle, campaignId, userId, now)
      ensures r.Ok? ==> ledger.campaigns == [r.value] + old(ledger.campaigns)
      ensures r.Err? ==> ledger.campaigns == old(ledger.campaigns)
      ensures r.Ok? ==> !isCreating && showSuccessModal &&
                        poolData == Some(PoolData(musicTitle, goalAmount, royaltyPercentage, durationInDays,
                                                  lockupPeriodInDays, r.value.description))
      ensures r == Err(InvalidDeadline) ==> !isCreating && showSuccessModal == old(showSuccessModal) && poolData == old(poolData)
      ensures r.Err? && r != Err(InvalidDeadline) ==>
                isCreating == old(isCreating) && showSuccessModal == old(showSuccessModal) && poolData == old(poolData)
    {
      r := SubmitOutcome(authenticated, goalAmount, royaltyPercentage, durationInDays, lockupPeriodInDays,
                         description, musicId, musicTitle, campaignId, userId, now);
      if r.Err? && r != Err(InvalidDeadline) {
        return;
      }
      isCreating := true;
      if r.Err? {
        isCreating := false;
        return;
      }
      ledger.SaveCampaign(r.value);
      poolData := Some(PoolData(musicTitle, goalAmount, royaltyPercentage, durationInDays, lockupPeriodInDays,
                                r.value.description));
      isCreating := false;
      showSuccessModal := true;
    }

    /** `handleCloseSuccessModal` */
    method HandleCloseSuccessModal()
      modifies this`showSuccessModal, this`poolData
      ensures !showSuccessModal && poolData.None?
    {
      showSuccessModal := false;
      poolData := None;
    }
  }
}
