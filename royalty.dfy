/**
 * Royalty arithmetic of the local ledger: per-play revenue of 1/100 dollar,
 * split between the creator and the investors of the music's first active
 * campaign, investors sharing in proportion to their amount in the
 * campaign's current total.
 */
module Royalty {
  import opened Wrappers
  import opened JsText
  import opened JsNumber
  import opened SeqOps
  import opened LedgerRecords
  import opened LedgerQueries

  /** Mock revenue per counted play, in dollars. */
  const RevenuePerPlay: real := 0.01

  /** Revenue of all counted plays of one music id: `playCount * REVENUE_PER_PLAY`. */
  function Revenue(plays: seq<PlayEvent>, musicId: string): (r: real)
    ensures r >= 0.0
    ensures r == 0.0 <==> forall k :: 0 <= k < |plays| ==> plays[k].musicId != musicId
  {
    GetMusicPlayCount(plays, musicId) as real * RevenuePerPlay
  }

  /** The first active campaign whose `musicTokenId` is this music id, in storage order:
      `getActiveCampaigns().find(…)`, with `GetActiveCampaigns`' own filter written out. */
  function ActiveCampaignFor(campaigns: seq<Campaign>, musicId: string): (r: Option<Campaign>)
    ensures r.Some? ==> r.value in campaigns && r.value.status == Active && r.value.musicTokenId == musicId
    ensures r.Some? ==> exists i :: 0 <= i < |campaigns| && campaigns[i] == r.value &&
                          forall j :: 0 <= j < i ==>
                            !(campaigns[j].status == Active && campaigns[j].musicTokenId == musicId)
    ensures r.None? <==> forall c :: c in campaigns && c.status == Active ==> c.musicTokenId != musicId
  {
    var forMusic := (c: Campaign) => c.musicTokenId == musicId;
    FindFiltered(campaigns, IsActive, forMusic);
    NoActiveCampaignFor(campaigns, musicId);
    Find(Filter(campaigns, IsActive), forMusic)
  }

  /** No index holds an active campaign of the music exactly when no stored campaign is one. */
  lemma NoActiveCampaignFor(campaigns: seq<Campaign>, musicId: string)
    ensures (forall j :: 0 <= j < |campaigns| ==> !(campaigns[j].status == Active && campaigns[j].musicTokenId == musicId))
        <==> (forall c :: c in campaigns && c.status == Active ==> c.musicTokenId != musicId)
  {
  }

  /** What the creator keeps of `revenue`: all of it without a campaign, `(100 - royaltyPercentage) / 100` of it with one. */
  function CreatorPart(revenue: real, campaign: Option<Campaign>): real {
    match campaign
    case None => revenue
    case Some(c) => revenue * ((100.0 - c.royaltyPercentage) / 100.0)
  }

  /**
   * `calculateCreatorRoyalty(musicId)`: all of the music's revenue without an
   * active campaign for it; with one, what is left of the revenue once the
   * first such campaign's investor pool is taken out.
   */
  function CalculateCreatorRoyalty(plays: seq<PlayEvent>, campaigns: seq<Campaign>, musicId: string): (r: real)
    ensures ActiveCampaignFor(campaigns, musicId).None? ==> r == Revenue(plays, musicId)
    ensures ActiveCampaignFor(campaigns, musicId).Some? ==>
              r + PoolPart(Revenue(plays, musicId), ActiveCampaignFor(campaigns, musicId).value)
                == Revenue(plays, musicId)
  {
    var campaign := ActiveCampaignFor(campaigns, musicId);
    match campaign
    case None => CreatorPart(Revenue(plays, musicId), campaign)
    case Some(c) =>
      CreatorAndPoolMakeRevenue(Revenue(plays, musicId), c);
      CreatorPart(Revenue(plays, musicId), campaign)
  }

  /** The investors' part of `revenue` under campaign `c`: `royaltyPercentage / 100` of it. */
  function PoolPart(revenue: real, c: Campaign): real {
    revenue * (c.royaltyPercentage / 100.0)
  }

  /** The royalty pool of a campaign: the investors' part of its music's revenue. */
  function RoyaltyPool(plays: seq<PlayEvent>, c: Campaign): real {
    PoolPart(Revenue(plays, c.musicTokenId), c)
  }

  /** One investor's share of a campaign: amount over the campaign total, 0 unless the total is positive. */
  function InvestorShare(v: Investment, c: Campaign): Num {
    var totalRaised := c.currentAmount;
    var investorAmount := ParseFloat(v.amount);
    if Exceeds(totalRaised, 0.0) then Div(investorAmount, totalRaised.value) else Finite(0.0)
  }

  /** The royalty of one investment in campaign `c`, once both have been looked up. */
  function InvestorRoyaltyOf(v: Investment, c: Campaign, plays: seq<PlayEvent>): Num {
    Mul(Finite(RoyaltyPool(plays, c)), InvestorShare(v, c))
  }

  /** `calculateInvestorRoyalty(investmentId)` */
  function CalculateInvestorRoyalty(investments: seq<Investment>, campaigns: seq<Campaign>,
                                    plays: seq<PlayEvent>, investmentId: string): (r: Num)
    ensures GetInvestmentById(investments, investmentId).None? ==> r == Finite(0.0)
    ensures GetInvestmentById(investments, investmentId).Some? &&
            GetCampaignById(campaigns, GetInvestmentById(investments, investmentId).value.campaignId).None?
            ==> r == Finite(0.0)
  {
    match GetInvestmentById(investments, investmentId)
    case None => Finite(0.0)
    case Some(v) =>
      match GetCampaignById(campaigns, v.campaignId)
      case None => Finite(0.0)
      case Some(c) => InvestorRoyaltyOf(v, c, plays)
  }

  /** `invs.reduce((total, inv) => total + calculateInvestorRoyalty(inv.id), 0)` */
  function SumInvestorRoyalty(invs: seq<Investment>, investments: seq<Investment>,
                              campaigns: seq<Campaign>, plays: seq<PlayEvent>): Num
    decreases |invs|
  {
    if invs == [] then Finite(0.0)
    else
      var last := |invs| - 1;
      Add(SumInvestorRoyalty(invs[..last], investments, campaigns, plays),
          CalculateInvestorRoyalty(investments, campaigns, plays, invs[last].id))
  }

  /** `getTotalInvestorRoyalty(userId)`: over the user's investments, address compared ignoring case. */
  function GetTotalInvestorRoyalty(investments: seq<Investment>, campaigns: seq<Campaign>,
                                   plays: seq<PlayEvent>, userId: string): Num {
    SumInvestorRoyalty(GetInvestmentsByUser(investments, userId), investments, campaigns, plays)
  }

  /** `ms.reduce((total, m) => total + calculateCreatorRoyalty(m.id), 0)` */
  function SumCreatorRoyalty(ms: seq<Music>, plays: seq<PlayEvent>, campaigns: seq<Campaign>): real
    decreases |ms|
  {
    if ms == [] then 0.0
    else
      var last := |ms| - 1;
      SumCreatorRoyalty(ms[..last], plays, campaigns) + CalculateCreatorRoyalty(plays, campaigns, ms[last].id)
  }

  /** The music `getTotalCreatorRoyalty` sums over: creator address compared EXACTLY. */
  function MusicOwnedExactly(music: seq<Music>, creatorId: string): (r: seq<Music>)
    ensures forall m :: m in r <==> m in music && m.creatorAddress == creatorId
    ensures forall m :: multiset(r)[m] == if m.creatorAddress == creatorId then multiset(music)[m] else 0
    ensures IsSubsequence(r, music)
  {
    var keep := (m: Music) => m.creatorAddress == creatorId;
    FilterCounts(music, keep);
    FilterMembers(music, keep);
    FilterIsSubsequence(music, keep);
    Filter(music, keep)
  }

  /** `getTotalCreatorRoyalty(creatorId)` */
  function GetTotalCreatorRoyalty(music: seq<Music>, campaigns: seq<Campaign>,
                                  plays: seq<PlayEvent>, creatorId: string): real {
    SumCreatorRoyalty(MusicOwnedExactly(music, creatorId), plays, campaigns)
  }

  // ---------- properties ----------

  /** The creator keeps between nothing and all of a non-negative revenue when the percentage is a percentage. */
  lemma CreatorPartWithin(revenue: real, campaign: Option<Campaign>)
    requires revenue >= 0.0
    requires campaign.Some? ==> 0.0 <= campaign.value.royaltyPercentage <= 100.0
    ensures 0.0 <= CreatorPart(revenue, campaign) <= revenue
    ensures campaign.None? ==> CreatorPart(revenue, campaign) == revenue
  {
    if campaign.Some? {
      var f := (100.0 - campaign.value.royaltyPercentage) / 100.0;
      assert 0.0 <= f <= 1.0;
      assert 0.0 <= revenue * f <= revenue * 1.0;
    }
  }

  /** The creator's part and the investors' pool add up to the revenue, whatever the percentage. */
  lemma CreatorAndPoolMakeRevenue(revenue: real, c: Campaign)
    ensures CreatorPart(revenue, Some(c)) + PoolPart(revenue, c) == revenue
  {
    var p := c.royaltyPercentage;
    assert (100.0 - p) / 100.0 + p / 100.0 == 1.0;
    assert revenue * ((100.0 - p) / 100.0) + revenue * (p / 100.0) == revenue * ((100.0 - p) / 100.0 + p / 100.0);
  }

  /** Adding two investors' royalties from one pool is the royalty of their added amounts, NaN included. */
  lemma SharesAdd(pool: real, a: Num, b: Num, total: real)
    requires total > 0.0
    ensures Add(Mul(Finite(pool), Div(a, total)), Mul(Finite(pool), Div(b, total)))
         == Mul(Finite(pool), Div(Add(a, b), total))
  {
    if a.Finite? && b.Finite? {
      var x, y := a.value, b.value;
      assert x / total + y / total == (x + y) / total;
      assert pool * (x / total) + pool * (y / total) == pool * (x / total + y / total);
    }
  }

  /** A campaign's whole total, over itself, is the whole pool. */
  lemma WholeShare(pool: real, total: real)
    requires total > 0.0
    ensures Mul(Finite(pool), Div(Finite(total), total)) == Finite(pool)
  {
    assert total / total == 1.0;
  }

  /**
   * The creator never gets more than the revenue, nor less than nothing, when
   * the campaign percentages are percentages; without an active campaign the
   * creator gets all of it.
   */
  lemma CreatorRoyaltyWithinRevenue(plays: seq<PlayEvent>, campaigns: seq<Campaign>, musicId: string)
    requires forall c :: c in campaigns ==> 0.0 <= c.royaltyPercentage <= 100.0
    ensures 0.0 <= CalculateCreatorRoyalty(plays, campaigns, musicId) <= Revenue(plays, musicId)
    ensures ActiveCampaignFor(campaigns, musicId).None? ==>
              CalculateCreatorRoyalty(plays, campaigns, musicId) == Revenue(plays, musicId)
  {
    CreatorPartWithin(Revenue(plays, musicId), ActiveCampaignFor(campaigns, musicId));
  }

  /** The documented example: 100 plays, 30% to investors, the creator keeps $0.70. */
  lemma CreatorRoyaltyExample(plays: seq<PlayEvent>, campaigns: seq<Campaign>, musicId: string)
    requires GetMusicPlayCount(plays, musicId) == 100
    requires ActiveCampaignFor(campaigns, musicId).Some?
    requires ActiveCampaignFor(campaigns, musicId).value.royaltyPercentage == 30.0
    ensures Revenue(plays, musicId) == 1.0
    ensures CalculateCreatorRoyalty(plays, campaigns, musicId) == 0.70
  {
  }

  /**
   * The documented example: $200 of an $800 campaign at 30%, 100 plays: the
   * pool is $0.30 and this investor's quarter of it is $0.075.
   */
  lemma InvestorRoyaltyExample(v: Investment, c: Campaign, plays: seq<PlayEvent>)
    requires v.amount == "200" && c.currentAmount == Finite(800.0) && c.royaltyPercentage == 30.0
    requires GetMusicPlayCount(plays, c.musicTokenId) == 100
    ensures RoyaltyPool(plays, c) == 0.30
    ensures InvestorShare(v, c) == Finite(0.25)
    ensures InvestorRoyaltyOf(v, c, plays) == Finite(0.075)
  {
    assert NatToString(200) == "200";
    ParseFloatOfNat(200);
    assert Revenue(plays, c.musicTokenId) == 1.0;
  }

  /** A non-positive or unreadable campaign total gives every investor nothing. */
  lemma NoShareWithoutTotal(v: Investment, c: Campaign, plays: seq<PlayEvent>)
    requires !Exceeds(c.currentAmount, 0.0)
    ensures InvestorShare(v, c) == Finite(0.0)
    ensures InvestorRoyaltyOf(v, c, plays) == Finite(0.0)
  {
  }

  predicate UniqueInvestmentIds(investments: seq<Investment>) {
    forall i, j ::
      0 <= i < |investments| && 0 <= j < |investments| && investments[i].id == investments[j].id ==> i == j
  }

  /** With unique investment ids, looking an investment up by its own id finds it, and then its campaign. */
  lemma InvestorRoyaltyIsShare(investments: seq<Investment>, campaigns: seq<Campaign>,
                               plays: seq<PlayEvent>, c: Campaign, v: Investment)
    requires UniqueInvestmentIds(investments) && v in investments && v.campaignId == c.id
    requires GetCampaignById(campaigns, c.id) == Some(c)
    ensures CalculateInvestorRoyalty(investments, campaigns, plays, v.id) == InvestorRoyaltyOf(v, c, plays)
  {
    var found := GetInvestmentById(investments, v.id);
    assert found.Some?;
    var i :| 0 <= i < |investments| && investments[i] == found.value;
    var j :| 0 <= j < |investments| && investments[j] == v;
    assert i == j;
  }

  /**
   * Summed over a list of a campaign's investments, the royalties are the
   * pool times the list's amounts over the campaign total; an unreadable
   * amount makes both sides NaN.
   */
  lemma {:induction false} SumOfShares(invs: seq<Investment>, investments: seq<Investment>,
                                       campaigns: seq<Campaign>, plays: seq<PlayEvent>, c: Campaign)
    requires UniqueInvestmentIds(investments)
    requires forall k :: 0 <= k < |invs| ==> invs[k] in investments && invs[k].campaignId == c.id
    requires GetCampaignById(campaigns, c.id) == Some(c) && Exceeds(c.currentAmount, 0.0)
    ensures SumInvestorRoyalty(invs, investments, campaigns, plays)
         == Mul(Finite(RoyaltyPool(plays, c)), Div(SumAmounts(invs), c.currentAmount.value))
    decreases |invs|
  {
    if invs == [] {
      NoAmountNoShare(RoyaltyPool(plays, c), c.currentAmount.value);
    } else {
      var front := invs[..|invs| - 1];
      assert forall k :: 0 <= k < |front| ==> front[k] == invs[k];
      SumOfShares(front, investments, campaigns, plays, c);
      SumOfSharesStep(invs, investments, campaigns, plays, c);
    }
  }

  /** Nothing invested earns nothing of the pool. */
  lemma NoAmountNoShare(pool: real, total: real)
    requires total > 0.0
    ensures Mul(Finite(pool), Div(Finite(0.0), total)) == Finite(0.0)
  {
    assert 0.0 / total == 0.0;
  }

  /** One step of `SumOfShares`: adding the last investment of the list. */
  lemma SumOfSharesStep(invs: seq<Investment>, investments: seq<Investment>,
                        campaigns: seq<Campaign>, plays: seq<PlayEvent>, c: Campaign)
    requires invs != [] && UniqueInvestmentIds(investments)
    requires invs[|invs| - 1] in investments && invs[|invs| - 1].campaignId == c.id
    requires GetCampaignById(campaigns, c.id) == Some(c) && Exceeds(c.currentAmount, 0.0)
    requires SumInvestorRoyalty(invs[..|invs| - 1], investments, campaigns, plays)
          == Mul(Finite(RoyaltyPool(plays, c)), Div(SumAmounts(invs[..|invs| - 1]), c.currentAmount.value))
    ensures SumInvestorRoyalty(invs, investments, campaigns, plays)
         == Mul(Finite(RoyaltyPool(plays, c)), Div(SumAmounts(invs), c.currentAmount.value))
  {
    var last := |invs| - 1;
    InvestorRoyaltyIsShare(investments, campaigns, plays, c, invs[last]);
    SharesAdd(RoyaltyPool(plays, c), SumAmounts(invs[..last]), ParseFloat(invs[last].amount),
              c.currentAmount.value);
  }

  /**
   * Revenue split: when a music's first active campaign is the one every
   * investment of it looks up, and the campaign's total equals the amounts
   * of its investments, the creator's royalty and all investor royalties add
   * up to the whole revenue (the documented $0.70 + $0.30 = $1.00).
   */
  lemma RevenueSplit(investments: seq<Investment>, campaigns: seq<Campaign>,
                     plays: seq<PlayEvent>, c: Campaign)
    requires ActiveCampaignFor(campaigns, c.musicTokenId) == Some(c)
    requires GetCampaignById(campaigns, c.id) == Some(c)
    requires UniqueInvestmentIds(investments)
    requires c.currentAmount == SumAmounts(GetInvestmentsByCampaign(investments, c.id))
    requires Exceeds(c.currentAmount, 0.0)
    ensures var investorsTotal :=
              SumInvestorRoyalty(GetInvestmentsByCampaign(investments, c.id), investments, campaigns, plays);
            investorsTotal.Finite? &&
            CalculateCreatorRoyalty(plays, campaigns, c.musicTokenId) + investorsTotal.value
              == Revenue(plays, c.musicTokenId)
  {
    var backing := GetInvestmentsByCampaign(investments, c.id);
    forall k | 0 <= k < |backing| ensures backing[k] in investments && backing[k].campaignId == c.id {
      assert backing[k] in backing;
    }
    SumOfShares(backing, investments, campaigns, plays, c);
    WholeShare(RoyaltyPool(plays, c), c.currentAmount.value);
    CreatorAndPoolMakeRevenue(Revenue(plays, c.musicTokenId), c);
  }

  // ---------- totals ----------

  /** The revenue of a list of music, summed in order. */
  function SumRevenue(ms: seq<Music>, plays: seq<PlayEvent>): (r: real)
    ensures r >= 0.0
    decreases |ms|
  {
    if ms == [] then 0.0
    else SumRevenue(ms[..|ms| - 1], plays) + Revenue(plays, ms[|ms| - 1].id)
  }

  /**
   * Summed over any list of music, the creator royalties lie between nothing
   * and the summed revenue when the percentages are percentages, and are the
   * summed revenue when no campaign is active.
   */
  lemma {:induction false} SumCreatorRoyaltyWithin(ms: seq<Music>, plays: seq<PlayEvent>, campaigns: seq<Campaign>)
    requires forall c :: c in campaigns ==> 0.0 <= c.royaltyPercentage <= 100.0
    ensures 0.0 <= SumCreatorRoyalty(ms, plays, campaigns) <= SumRevenue(ms, plays)
    ensures (forall c :: c in campaigns ==> c.status != Active) ==>
              SumCreatorRoyalty(ms, plays, campaigns) == SumRevenue(ms, plays)
    decreases |ms|
  {
    if ms != [] {
      var last := |ms| - 1;
      SumCreatorRoyaltyWithin(ms[..last], plays, campaigns);
      CreatorRoyaltyWithinRevenue(plays, campaigns, ms[last].id);
    }
  }

  /**
   * `getTotalCreatorRoyalty`: between nothing and the summed revenue of the
   * music stored under exactly this address; all of that revenue when no
   * campaign is active; nothing when no music carries exactly this address
   * (an address differing only in letter case earns nothing).
   */
  lemma CreatorTotalWithinRevenue(music: seq<Music>, campaigns: seq<Campaign>,
                                  plays: seq<PlayEvent>, creatorId: string)
    requires forall c :: c in campaigns ==> 0.0 <= c.royaltyPercentage <= 100.0
    ensures 0.0 <= GetTotalCreatorRoyalty(music, campaigns, plays, creatorId)
                <= SumRevenue(MusicOwnedExactly(music, creatorId), plays)
    ensures (forall c :: c in campaigns ==> c.status != Active) ==>
              GetTotalCreatorRoyalty(music, campaigns, plays, creatorId)
                == SumRevenue(MusicOwnedExactly(music, creatorId), plays)
    ensures (forall m :: m in music ==> m.creatorAddress != creatorId) ==>
              GetTotalCreatorRoyalty(music, campaigns, plays, creatorId) == 0.0
  {
    var owned := MusicOwnedExactly(music, creatorId);
    SumCreatorRoyaltyWithin(owned, plays, campaigns);
  }

  /** The amounts typed into every stored investment read as non-negative numbers. */
  predicate AmountsNonNegative(investments: seq<Investment>) {
    forall v :: v in investments ==> ParseFloat(v.amount).Finite? && ParseFloat(v.amount).value >= 0.0
  }

  /** The product of two non-negative reals is non-negative. */
  lemma ProductNonNegative(x: real, y: real)
    requires x >= 0.0 && y >= 0.0
    ensures x * y >= 0.0
  {
  }

  /** A non-negative amount over a positive total, or nothing, is a non-negative share. */
  lemma ShareNonNegative(amount: Num, total: Num)
    requires amount.Finite? && amount.value >= 0.0
    ensures var share := if Exceeds(total, 0.0) then Div(amount, total.value) else Finite(0.0);
            share.Finite? && share.value >= 0.0
  {
    if Exceeds(total, 0.0) {
      ProductNonNegative(amount.value, 1.0 / total.value);
      assert amount.value / total.value == amount.value * (1.0 / total.value);
    }
  }

  /** The investors' part of a non-negative revenue under a non-negative percentage is non-negative. */
  lemma PoolPartNonNegative(revenue: real, c: Campaign)
    requires revenue >= 0.0 && c.royaltyPercentage >= 0.0
    ensures PoolPart(revenue, c) >= 0.0
  {
    ProductNonNegative(revenue, c.royaltyPercentage / 100.0);
  }

  /** A campaign with a non-negative percentage has a non-negative royalty pool. */
  lemma PoolNonNegative(plays: seq<PlayEvent>, c: Campaign)
    requires c.royaltyPercentage >= 0.0
    ensures RoyaltyPool(plays, c) >= 0.0
  {
    PoolPartNonNegative(Revenue(plays, c.musicTokenId), c);
  }

  /** A readable non-negative amount has a non-negative share of any campaign. */
  lemma InvestorShareNonNegative(v: Investment, c: Campaign)
    requires ParseFloat(v.amount).Finite? && ParseFloat(v.amount).value >= 0.0
    ensures InvestorShare(v, c).Finite? && InvestorShare(v, c).value >= 0.0
  {
    ShareNonNegative(ParseFloat(v.amount), c.currentAmount);
  }

  /** A non-negative pool times a non-negative share is a non-negative number. */
  lemma PoolTimesShareNonNegative(pool: real, share: Num)
    requires pool >= 0.0 && share.Finite? && share.value >= 0.0
    ensures Mul(Finite(pool), share).Finite? && Mul(Finite(pool), share).value >= 0.0
  {
    ProductNonNegative(pool, share.value);
  }

  /** A readable non-negative amount in a campaign with a non-negative percentage earns a non-negative number. */
  lemma InvestorRoyaltyOfNonNegative(v: Investment, c: Campaign, plays: seq<PlayEvent>)
    requires ParseFloat(v.amount).Finite? && ParseFloat(v.amount).value >= 0.0
    requires c.royaltyPercentage >= 0.0
    ensures InvestorRoyaltyOf(v, c, plays).Finite? && InvestorRoyaltyOf(v, c, plays).value >= 0.0
  {
    PoolNonNegative(plays, c);
    InvestorShareNonNegative(v, c);
    PoolTimesShareNonNegative(RoyaltyPool(plays, c), InvestorShare(v, c));
  }

  /** With readable non-negative amounts and non-negative percentages, one investment's royalty is a non-negative number. */
  lemma InvestorRoyaltyNonNegative(investments: seq<Investment>, campaigns: seq<Campaign>,
                                   plays: seq<PlayEvent>, investmentId: string)
    requires AmountsNonNegative(investments)
    requires forall c :: c in campaigns ==> c.royaltyPercentage >= 0.0
    ensures var r := CalculateInvestorRoyalty(investments, campaigns, plays, investmentId);
            r.Finite? && r.value >= 0.0
  {
    match GetInvestmentById(investments, investmentId)
    case None =>
    case Some(v) =>
      match GetCampaignById(campaigns, v.campaignId)
      case None =>
      case Some(c) => InvestorRoyaltyOfNonNegative(v, c, plays);
  }

  /** Summed over any list, the investor royalties are then a non-negative number. */
  lemma {:induction false} SumInvestorRoyaltyNonNegative(invs: seq<Investment>, investments: seq<Investment>,
                                                         campaigns: seq<Campaign>, plays: seq<PlayEvent>)
    requires AmountsNonNegative(investments)
    requires forall c :: c in campaigns ==> c.royaltyPercentage >= 0.0
    ensures var r := SumInvestorRoyalty(invs, investments, campaigns, plays);
            r.Finite? && r.value >= 0.0
    decreases |invs|
  {
    if invs != [] {
      var last := |invs| - 1;
      SumInvestorRoyaltyNonNegative(invs[..last], investments, campaigns, plays);
      InvestorRoyaltyNonNegative(investments, campaigns, plays, invs[last].id);
    }
  }

  /**
   * `getTotalInvestorRoyalty`: nothing for a user without investments (the
   * address compared ignoring case), and a non-negative number whenever the
   * stored amounts read as non-negative numbers and the percentages are not
   * negative.
   */
  lemma InvestorTotalNonNegative(investments: seq<Investment>, campaigns: seq<Campaign>,
                                 plays: seq<PlayEvent>, userId: string)
    ensures (forall v :: v in investments ==> !SameIgnoringCase(v.investorAddress, userId)) ==>
              GetTotalInvestorRoyalty(investments, campaigns, plays, userId) == Finite(0.0)
    ensures AmountsNonNegative(investments) && (forall c :: c in campaigns ==> c.royaltyPercentage >= 0.0) ==>
              var r := GetTotalInvestorRoyalty(investments, campaigns, plays, userId);
              r.Finite? && r.value >= 0.0
  {
    var mine := GetInvestmentsByUser(investments, userId);
    if mine != [] {
      assert mine[0] in mine;
    }
    if AmountsNonNegative(investments) && (forall c :: c in campaigns ==> c.royaltyPercentage >= 0.0) {
      SumInvestorRoyaltyNonNegative(mine, investments, campaigns, plays);
    }
  }
}
