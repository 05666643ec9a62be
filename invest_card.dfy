/**
 * The card an investor puts money into a campaign from: the checks before
 * an investment is saved, the record it saves (which credits the
 * campaign), the success dialog, and the funding bar and risk colour it
 * draws.
 */
module InvestCard {
  import opened Wrappers
  import opened Session
  import opened JsText
  import opened JsNumber
  import opened LedgerRecords
  import opened LedgerQueries
  import opened LedgerStore

  /** Why no investment was saved. */
  datatype InvestError = NotAuthenticated | InvalidAmount | MissingUserId

  /** The amount check: an empty amount, or one read as at most zero, is refused. */
  predicate AmountRejected(amount: string) {
    amount == "" || AtMost(ParseFloat(amount), 0.0)
  }

  /** The investment record an accepted invest saves. */
  function NewInvestment(investmentId: string, campaignId: string, musicTitle: string, investor: string,
                         amount: string, royaltyPercentage: Option<real>, now: Timestamp): (v: Investment)
    ensures v.id == investmentId && v.campaignId == campaignId && v.investorAddress == investor
    ensures v.amount == amount && v.investedAt == now
    ensures v.royaltyShare == (if royaltyPercentage.Some? then royaltyPercentage.value else 0.0)
  {
    Investment(investmentId, campaignId, musicTitle, investor, amount, now, royaltyPercentage.GetOr(0.0))
  }

  /** The outcome of an invest: the first failed check, or the investment to save. */
  function InvestOutcome(authenticated: bool, amount: string, userId: Option<string>, investmentId: string,
                         campaignId: string, musicTitle: string, royaltyPercentage: Option<real>, now: Timestamp)
    : (r: Result<Investment, InvestError>)
    ensures r.Ok? <==> authenticated && !AmountRejected(amount) && SignedIn(userId)
    ensures !authenticated ==> r == Err(NotAuthenticated)
    ensures authenticated && AmountRejected(amount) ==> r == Err(InvalidAmount)
    ensures authenticated && !AmountRejected(amount) && !SignedIn(userId) ==> r == Err(MissingUserId)
    ensures r.Ok? ==> r.value.investorAddress == userId.value && r.value.amount == amount &&
                      r.value.campaignId == campaignId
  {
    if !authenticated then Err(NotAuthenticated)
    else if AmountRejected(amount) then Err(InvalidAmount)
    else if !SignedIn(userId) then Err(MissingUserId)
    else Ok(NewInvestment(investmentId, campaignId, musicTitle, userId.value, amount, royaltyPercentage, now))
  }

  /**
   * An investment of a positive amount is credited to its campaign: the
   * raised amount grows by it and the campaign gains one backer; no other
   * campaign changes.
   */
  lemma InvestmentCredits(campaigns: seq<Campaign>, k: nat, v: Investment)
    requires k < |campaigns| && UniqueCampaignIds(campaigns) && campaigns[k].id == v.campaignId
    requires Exceeds(ParseFloat(v.amount), 0.0)
    ensures var after := Credited(campaigns, v.campaignId, ParseFloat(v.amount));
            |after| == |campaigns| &&
            after[k].backers == campaigns[k].backers + 1 &&
            after[k].currentAmount == Add(campaigns[k].currentAmount, ParseFloat(v.amount)) &&
            (campaigns[k].currentAmount.Finite? ==>
               after[k].currentAmount.Finite? && after[k].currentAmount.value > campaigns[k].currentAmount.value) &&
            forall j :: 0 <= j < |campaigns| && j != k ==> after[j] == campaigns[j]
  {
    CreditOneCampaign(campaigns, k, ParseFloat(v.amount));
  }

  /**
   * The amount check refuses the empty field and amounts of at most zero;
   * every amount it lets through is credited, a positive one or, from text
   * that is no number, NaN; a positive whole number passes.
   */
  lemma AmountCheck(amount: string, n: nat)
    ensures amount == "" ==> AmountRejected(amount)
    ensures !AmountRejected(amount) ==> Exceeds(ParseFloat(amount), 0.0) || ParseFloat(amount) == NaN
    ensures n > 0 ==> !AmountRejected(NatToString(n))
  {
    EmptyIsNaN();
    ParseFloatOfNat(n);
  }

  /** What the success dialog shows. */
  datatype InvestmentData = InvestmentData(amount: string, campaignId: string, musicTitle: string, musicArtist: string,
                                           royaltyPercentage: Option<real>)

  /** The risk levels a card is labelled with. */
  const LowRiskColor: string := "text-[#72FFC7]"
  const MediumRiskColor: string := "text-[#FFD700]"
  const HighRiskColor: string := "text-[#FF6B6B]"

  /** `getRiskColorClass(risk)`: one of three colours, the low-risk one for any unknown label. */
  function GetRiskColorClass(risk: string): (color: string)
    ensures color in {LowRiskColor, MediumRiskColor, HighRiskColor}
    ensures color == MediumRiskColor <==> risk == "Medium Risk"
    ensures color == HighRiskColor <==> risk == "High Risk"
  {
    if risk == "Low Risk" then LowRiskColor
    else if risk == "Medium Risk" then MediumRiskColor
    else if risk == "High Risk" then HighRiskColor
    else LowRiskColor
  }

  /** The funding bar's width in percent: the funded percentage, never more than the full bar. */
  function FundingBarWidth(fundedPercentage: real): (w: real)
    ensures w <= 100.0
    ensures w == fundedPercentage || (fundedPercentage > 100.0 && w == 100.0)
  {
    if fundedPercentage <= 100.0 then fundedPercentage else 100.0
  }

  /**
   * One campaign's card, over the ledger it saves to. The new id and the
   * clock are parameters of the invest.
   */
  class InvestCardState {
    const ledger: Ledger
    const campaignId: string
    const musicTitle: string
    const musicArtist: string
    const royaltyPercentage: Option<real>
    var investAmount: string
    var showSuccessModal: bool
    var isProcessing: bool
    var investmentData: Option<InvestmentData>

    constructor (ledger: Ledger, campaignId: string, musicTitle: string, musicArtist: string,
                 royaltyPercentage: Option<real>)
      ensures this.ledger == ledger && this.campaignId == campaignId && this.musicTitle == musicTitle
      ensures this.musicArtist == musicArtist && this.royaltyPercentage == royaltyPercentage
      ensures investAmount == "" && !showSuccessModal && !isProcessing && investmentData.None?
    {
      this.ledger := ledger;
      this.campaignId := campaignId;
      this.musicTitle := musicTitle;
      this.musicArtist := musicArtist;
      this.royaltyPercentage := royaltyPercentage;
      investAmount := "";
      showSuccessModal, isProcessing, investmentData := false, false, None;
    }

    /**
     * `handleInvest`: check sign-in, the amount and the user id, then save
     * exactly one investment, which credits the campaign, and open the
     * success dialog.
     */
    method HandleInvest(authenticated: bool, userId: Option<string>, investmentId: string, now: Timestamp)
      returns (r: Result<Investment, InvestError>)
      modifies this`showSuccessModal, this`isProcessing, this`investmentData, ledger`investments, ledger`campaigns
      ensures r == InvestOutcome(authenticated, investAmount, userId, investmentId, campaignId, musicTitle,
                                 royaltyPercentage, now)
      ensures r.Ok? ==> ledger.investments == [r.value] + old(ledger.investments) &&
                        ledger.campaigns == Credited(old(ledger.campaigns), campaignId, ParseFloat(investAmount))
      ensures r.Err? ==> ledger.investments == old(ledger.investments) && ledger.campaigns == old(ledger.campaigns)
      ensures r.Ok? ==> showSuccessModal && !isProcessing &&
                        investmentData == Some(InvestmentData(investAmount, campaignId, musicTitle, musicArtist,
                                                              royaltyPercentage))
      ensures r.Err? ==> showSuccessModal == old(showSuccessModal) && isProcessing == old(isProcessing) &&
                         investmentData == old(investmentData)
    {
      r := InvestOutcome(authenticated, investAmount, userId, investmentId, campaignId, musicTitle,
                         royaltyPercentage, now);
      if r.Err? {
        return;
      }
      isProcessing := true;
      ledger.SaveInvestment(r.value);
      investmentData := Some(InvestmentData(investAmount, campaignId, musicTitle, musicArtist, royaltyPercentage));
      isProcessing := false;
      showSuccessModal := true;
    }

    /** `handleCloseModal`: close the dialog, clear the amount and the shown investment. */
    method HandleCloseModal()
      modifies this`showSuccessModal, this`investAmount, this`investmentData
      ensures !showSuccessModal && investAmount == "" && investmentData.None?
    {
      showSuccessModal := false;
      investAmount := "";
      investmentData := None;
    }
  }
}
