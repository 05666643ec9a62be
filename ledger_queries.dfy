/**
 * The read side of the local ledger (the `get…` functions) and the new
 * collection each write computes before storing it (prepend, map with a
 * field merge, filter), as functions of the stored collections.
 */
module LedgerQueries {
  import opened Wrappers
  import opened JsText
  import opened JsNumber
  import opened SeqOps
  import opened LedgerRecords

  // ---------- music ----------

  /** `getMusicById`: the first record with this id. */
  function GetMusicById(music: seq<Music>, id: string): (r: Option<Music>)
    ensures r.Some? ==> r.value in music && r.value.id == id
    ensures r.Some? ==> exists i :: 0 <= i < |music| && music[i] == r.value &&
                          forall j :: 0 <= j < i ==> music[j].id != id
    ensures r.None? <==> forall k :: 0 <= k < |music| ==> music[k].id != id
  {
    Find(music, (m: Music) => m.id == id)
  }

  /** `getMusicByCreator`: addresses compared ignoring case, storage order kept. */
  function GetMusicByCreator(music: seq<Music>, address: string): (r: seq<Music>)
    ensures forall m :: m in r <==> m in music && SameIgnoringCase(m.creatorAddress, address)
    ensures forall m :: multiset(r)[m] == if SameIgnoringCase(m.creatorAddress, address) then multiset(music)[m] else 0
    ensures IsSubsequence(r, music)
  {
    var keep := (m: Music) => SameIgnoringCase(m.creatorAddress, address);
    FilterCounts(music, keep);
    FilterMembers(music, keep);
    FilterIsSubsequence(music, keep);
    Filter(music, keep)
  }

  /** The collection `updateMusic` stores: matching records get the patch spread over them. */
  function UpdatedMusic(music: seq<Music>, id: string, patch: MusicPatch): (r: seq<Music>)
    ensures |r| == |music|
    ensures forall k :: 0 <= k < |music| ==>
      r[k] == if music[k].id == id then MergeMusic(music[k], patch) else music[k]
  {
    MapWhere(music, (m: Music) => m.id == id, (m: Music) => MergeMusic(m, patch))
  }

  /** The collection `deleteMusic` stores. */
  function WithoutMusic(music: seq<Music>, id: string): (r: seq<Music>)
    ensures forall m :: multiset(r)[m] == if m.id != id then multiset(music)[m] else 0
    ensures IsSubsequence(r, music)
  {
    var keep := (m: Music) => m.id != id;
    FilterCounts(music, keep);
    FilterIsSubsequence(music, keep);
    Filter(music, keep)
  }

  /**
   * The music collection after `savePlayHistory`: the first record with the
   * played id is re-read and spread over every record with that id.
   */
  function RefreshedMusic(music: seq<Music>, musicId: string): seq<Music> {
    match GetMusicById(music, musicId)
    case None => music
    case Some(first) => UpdatedMusic(music, musicId, MusicAsPatch(first))
  }

  predicate UniqueMusicIds(music: seq<Music>) {
    forall i, j :: 0 <= i < |music| && 0 <= j < |music| && music[i].id == music[j].id ==> i == j
  }

  /** With unique ids, re-applying a record's own fields leaves the collection as it was. */
  lemma RefreshKeepsMusic(music: seq<Music>, musicId: string)
    requires UniqueMusicIds(music)
    ensures RefreshedMusic(music, musicId) == music
  {
    match GetMusicById(music, musicId)
    case None =>
    case Some(first) =>
      var r := RefreshedMusic(music, musicId);
      forall k | 0 <= k < |music| ensures r[k] == music[k] {
        if music[k].id == musicId {
          var i :| 0 <= i < |music| && music[i] == first;
          assert i == k;
          MergeOwnFields(first, first);
        }
      }
  }

  // ---------- campaigns ----------

  /** `getCampaignById`: the first campaign with this id. */
  function GetCampaignById(campaigns: seq<Campaign>, id: string): (r: Option<Campaign>)
    ensures r.Some? ==> r.value in campaigns && r.value.id == id
    ensures r.Some? ==> exists i :: 0 <= i < |campaigns| && campaigns[i] == r.value &&
                          forall j :: 0 <= j < i ==> campaigns[j].id != id
    ensures r.None? <==> forall k :: 0 <= k < |campaigns| ==> campaigns[k].id != id
  {
    Find(campaigns, (c: Campaign) => c.id == id)
  }

  /** `getCampaignsByMusic`: exact comparison of the music id. */
  function GetCampaignsByMusic(campaigns: seq<Campaign>, musicTokenId: string): (r: seq<Campaign>)
    ensures forall c :: c in r <==> c in campaigns && c.musicTokenId == musicTokenId
    ensures forall c :: multiset(r)[c] == if c.musicTokenId == musicTokenId then multiset(campaigns)[c] else 0
    ensures IsSubsequence(r, campaigns)
  {
    var keep := (c: Campaign) => c.musicTokenId == musicTokenId;
    FilterCounts(campaigns, keep);
    FilterMembers(campaigns, keep);
    FilterIsSubsequence(campaigns, keep);
    Filter(campaigns, keep)
  }

  /** `getCampaignsByCreator`: addresses compared ignoring case. */
  function GetCampaignsByCreator(campaigns: seq<Campaign>, address: string): (r: seq<Campaign>)
    ensures forall c :: c in r <==> c in campaigns && SameIgnoringCase(c.creatorAddress, address)
    ensures forall c :: multiset(r)[c] == if SameIgnoringCase(c.creatorAddress, address) then multiset(campaigns)[c] else 0
    ensures IsSubsequence(r, campaigns)
  {
    var keep := (c: Campaign) => SameIgnoringCase(c.creatorAddress, address);
    FilterCounts(campaigns, keep);
    FilterMembers(campaigns, keep);
    FilterIsSubsequence(campaigns, keep);
    Filter(campaigns, keep)
  }

  predicate IsActive(c: Campaign) {
    c.status == Active
  }

  /** `getActiveCampaigns` */
  function GetActiveCampaigns(campaigns: seq<Campaign>): (r: seq<Campaign>)
    ensures forall c :: c in r <==> c in campaigns && c.status == Active
    ensures forall c :: multiset(r)[c] == if c.status == Active then multiset(campaigns)[c] else 0
    ensures IsSubsequence(r, campaigns)
  {
    FilterCounts(campaigns, IsActive);
    FilterMembers(campaigns, IsActive);
    FilterIsSubsequence(campaigns, IsActive);
    Filter(campaigns, IsActive)
  }

  datatype StorageStats = StorageStats(totalMusic: nat, totalCampaigns: nat, activeCampaigns: nat)

  /** `getStorageStats` */
  function GetStorageStats(music: seq<Music>, campaigns: seq<Campaign>): (r: StorageStats)
    ensures r.totalMusic == |music| && r.totalCampaigns == |campaigns|
    ensures r.activeCampaigns <= r.totalCampaigns
  {
    StorageStats(|music|, |campaigns|, |GetActiveCampaigns(campaigns)|)
  }

  /** The collection `updateCampaign` stores. */
  function UpdatedCampaigns(campaigns: seq<Campaign>, id: string, patch: CampaignPatch): (r: seq<Campaign>)
    ensures |r| == |campaigns|
    ensures forall k :: 0 <= k < |campaigns| ==>
      r[k] == if campaigns[k].id == id then MergeCampaign(campaigns[k], patch) else campaigns[k]
  {
    MapWhere(campaigns, (c: Campaign) => c.id == id, (c: Campaign) => MergeCampaign(c, patch))
  }

  /** The collection `deleteCampaign` stores. */
  function WithoutCampaign(campaigns: seq<Campaign>, id: string): (r: seq<Campaign>)
    ensures forall c :: multiset(r)[c] == if c.id != id then multiset(campaigns)[c] else 0
    ensures IsSubsequence(r, campaigns)
  {
    var keep := (c: Campaign) => c.id != id;
    FilterCounts(campaigns, keep);
    FilterIsSubsequence(campaigns, keep);
    Filter(campaigns, keep)
  }

  /**
   * The campaign collection after `addContributionToCampaign(id, amount)`,
   * given the contribution as `parseFloat` reads it: the first campaign with
   * the id is read, and every campaign with that id gets its amount plus the
   * contribution and its backer count plus one.
   */
  function Credited(campaigns: seq<Campaign>, id: string, contribution: Num): (r: seq<Campaign>)
    ensures |r| == |campaigns|
    ensures GetCampaignById(campaigns, id).None? ==> r == campaigns
    ensures GetCampaignById(campaigns, id).Some? ==>
      var first := GetCampaignById(campaigns, id).value;
      forall k :: 0 <= k < |campaigns| ==>
        r[k] == if campaigns[k].id == id
                then campaigns[k].(currentAmount := Add(first.currentAmount, contribution),
                                   backers := first.backers + 1)
                else campaigns[k]
  {
    match GetCampaignById(campaigns, id)
    case None => campaigns
    case Some(c) => UpdatedCampaigns(campaigns, id, ContributionPatch(c, contribution))
  }

  /** The update a contribution writes, read from the campaign found: its amount plus the contribution, one more backer. */
  function ContributionPatch(c: Campaign, contribution: Num): (patch: CampaignPatch)
    ensures MergeCampaign(c, patch) == c.(currentAmount := Add(c.currentAmount, contribution), backers := c.backers + 1)
  {
    CampaignPatch(currentAmount := Some(Add(c.currentAmount, contribution)), backers := Some(c.backers + 1))
  }

  predicate UniqueCampaignIds(campaigns: seq<Campaign>) {
    forall i, j :: 0 <= i < |campaigns| && 0 <= j < |campaigns| && campaigns[i].id == campaigns[j].id ==> i == j
  }

  /**
   * With unique ids, a contribution credits exactly the campaign at index `k`:
   * amount increased by the contribution, one more backer, no other field
   * and no other campaign changed.
   */
  lemma CreditOneCampaign(campaigns: seq<Campaign>, k: nat, contribution: Num)
    requires UniqueCampaignIds(campaigns) && k < |campaigns|
    ensures var r := Credited(campaigns, campaigns[k].id, contribution);
      && |r| == |campaigns|
      && r[k] == campaigns[k].(currentAmount := Add(campaigns[k].currentAmount, contribution),
                               backers := campaigns[k].backers + 1)
      && (forall j :: 0 <= j < |campaigns| && j != k ==> r[j] == campaigns[j])
  {
    var id := campaigns[k].id;
    var found := GetCampaignById(campaigns, id);
    assert found.Some?;
    var i :| 0 <= i < |campaigns| && campaigns[i] == found.value && forall j :: 0 <= j < i ==> campaigns[j].id != id;
    assert i == k;
  }

  // ---------- investments ----------

  /** `getInvestmentsByUser`: investor addresses compared ignoring case. */
  function GetInvestmentsByUser(investments: seq<Investment>, address: string): (r: seq<Investment>)
    ensures forall v :: v in r <==> v in investments && SameIgnoringCase(v.investorAddress, address)
    ensures forall v :: multiset(r)[v] == if SameIgnoringCase(v.investorAddress, address) then multiset(investments)[v] else 0
    ensures IsSubsequence(r, investments)
  {
    var keep := (v: Investment) => SameIgnoringCase(v.investorAddress, address);
    FilterCounts(investments, keep);
    FilterMembers(investments, keep);
    FilterIsSubsequence(investments, keep);
    Filter(investments, keep)
  }

  /** `getInvestmentsByCampaign`: exact comparison of the campaign id. */
  function GetInvestmentsByCampaign(investments: seq<Investment>, campaignId: string): (r: seq<Investment>)
    ensures forall v :: v in r <==> v in investments && v.campaignId == campaignId
    ensures forall v :: multiset(r)[v] == if v.campaignId == campaignId then multiset(investments)[v] else 0
    ensures IsSubsequence(r, investments)
  {
    var keep := (v: Investment) => v.campaignId == campaignId;
    FilterCounts(investments, keep);
    FilterMembers(investments, keep);
    FilterIsSubsequence(investments, keep);
    Filter(investments, keep)
  }

  /** `getInvestmentById`: the first investment with this id. */
  function GetInvestmentById(investments: seq<Investment>, id: string): (r: Option<Investment>)
    ensures r.Some? ==> r.value in investments && r.value.id == id
    ensures r.Some? ==> exists i :: 0 <= i < |investments| && investments[i] == r.value &&
                          forall j :: 0 <= j < i ==> investments[j].id != id
    ensures r.None? <==> forall k :: 0 <= k < |investments| ==> investments[k].id != id
  {
    Find(investments, (v: Investment) => v.id == id)
  }

  /**
   * `investments.reduce((sum, inv) => sum + parseFloat(inv.amount), 0)`: the
   * total of the typed amounts, NaN as soon as one of them cannot be read.
   */
  function SumAmounts(investments: seq<Investment>): Num
    decreases |investments|
  {
    if investments == [] then Finite(0.0)
    else
      var last := |investments| - 1;
      Add(SumAmounts(investments[..last]), ParseFloat(investments[last].amount))
  }

  /** Appending one investment adds its amount to the total. */
  lemma SumAmountsSnoc(a: seq<Investment>, v: Investment)
    ensures SumAmounts(a + [v]) == Add(SumAmounts(a), ParseFloat(v.amount))
  {
    assert (a + [v])[..|a|] == a;
  }

  /** Summing a concatenation adds the two partial totals. */
  lemma {:induction false} SumAmountsConcat(a: seq<Investment>, b: seq<Investment>)
    ensures SumAmounts(a + b) == Add(SumAmounts(a), SumAmounts(b))
    decreases |b|
  {
    if b == [] {
      assert a + b == a;
    } else {
      var front, v := b[..|b| - 1], b[|b| - 1];
      assert b == front + [v] && a + b == (a + front) + [v];
      SumAmountsConcat(a, front);
      SumAmountsSnoc(a + front, v);
      SumAmountsSnoc(front, v);
      AddAssociative(SumAmounts(a), SumAmounts(front), ParseFloat(v.amount));
    }
  }

  /** The typed amount reads as a number. */
  predicate Readable(v: Investment) {
    ParseFloat(v.amount).Finite?
  }

  predicate AllAmountsReadable(investments: seq<Investment>) {
    All(investments, Readable)
  }

  /** The total is a number exactly when every amount can be read. */
  lemma {:induction false} SumAmountsFinite(investments: seq<Investment>)
    ensures SumAmounts(investments).Finite? <==> AllAmountsReadable(investments)
    decreases |investments|
  {
    if investments != [] {
      var last := |investments| - 1;
      SumAmountsFinite(investments[..last]);
      AllSplitLast(investments, Readable);
    }
  }

  // ---------- play history ----------

  /** `getPlayHistoryByUser`: exact comparison of the user id. */
  function GetPlayHistoryByUser(plays: seq<PlayEvent>, userId: string): (r: seq<PlayEvent>)
    ensures forall p :: p in r <==> p in plays && p.userId == userId
    ensures forall p :: multiset(r)[p] == if p.userId == userId then multiset(plays)[p] else 0
    ensures IsSubsequence(r, plays)
  {
    var keep := (p: PlayEvent) => p.userId == userId;
    FilterCounts(plays, keep);
    FilterMembers(plays, keep);
    FilterIsSubsequence(plays, keep);
    Filter(plays, keep)
  }

  /** `getPlayHistoryByMusic`: exact comparison of the music id. */
  function GetPlayHistoryByMusic(plays: seq<PlayEvent>, musicId: string): (r: seq<PlayEvent>)
    ensures forall p :: p in r <==> p in plays && p.musicId == musicId
    ensures forall p :: multiset(r)[p] == if p.musicId == musicId then multiset(plays)[p] else 0
    ensures IsSubsequence(r, plays)
  {
    var keep := (p: PlayEvent) => p.musicId == musicId;
    FilterCounts(plays, keep);
    FilterMembers(plays, keep);
    FilterIsSubsequence(plays, keep);
    Filter(plays, keep)
  }

  /** `getMusicPlayCount`: the number of play events recorded for this music id. */
  function GetMusicPlayCount(plays: seq<PlayEvent>, musicId: string): (n: nat)
    ensures n <= |plays|
    ensures n == 0 <==> forall k :: 0 <= k < |plays| ==> plays[k].musicId != musicId
  {
    var r := GetPlayHistoryByMusic(plays, musicId);
    assert r == [] <==> forall k :: 0 <= k < |plays| ==> plays[k].musicId != musicId by {
      if r != [] {
        assert r[0] in plays;
      }
      if exists k :: 0 <= k < |plays| && plays[k].musicId == musicId {
        var k :| 0 <= k < |plays| && plays[k].musicId == musicId;
        assert plays[k] in r;
      }
    }
    |r|
  }

  /** A new play event raises the play count of its music by exactly one and no other. */
  lemma {:induction false} PlayCountAfterSave(plays: seq<PlayEvent>, p: PlayEvent, musicId: string)
    ensures GetMusicPlayCount([p] + plays, musicId)
         == GetMusicPlayCount(plays, musicId) + (if p.musicId == musicId then 1 else 0)
  {
    var s := [p] + plays;
    assert s[1..] == plays;
  }

  // ---------- user progress ----------

  /** `getUserProgressById`: the first progress entry for this user. */
  function GetUserProgressById(progress: seq<UserProgress>, userId: string): (r: Option<UserProgress>)
    ensures r.Some? ==> r.value in progress && r.value.userId == userId
    ensures r.Some? ==> exists i :: 0 <= i < |progress| && progress[i] == r.value &&
                          forall j :: 0 <= j < i ==> progress[j].userId != userId
    ensures r.None? <==> forall k :: 0 <= k < |progress| ==> progress[k].userId != userId
  {
    Find(progress, (q: UserProgress) => q.userId == userId)
  }

  /** The other users' entries, in their stored order. */
  function OtherProgress(progress: seq<UserProgress>, userId: string): (r: seq<UserProgress>)
    ensures forall q :: q in r <==> q in progress && q.userId != userId
    ensures forall q :: multiset(r)[q] == if q.userId != userId then multiset(progress)[q] else 0
    ensures IsSubsequence(r, progress)
  {
    var keep := (q: UserProgress) => q.userId != userId;
    FilterCounts(progress, keep);
    FilterMembers(progress, keep);
    FilterIsSubsequence(progress, keep);
    Filter(progress, keep)
  }
}
