/**
 * The five record kinds the local ledger stores (music, campaigns,
 * investments, play events, user progress) and the partial updates that
 * `updateMusic` / `updateCampaign` spread over a record.
 *
 * Timestamps are milliseconds since the epoch (the stored records hold the
 * same instant as an ISO-8601 string).
 */
module LedgerRecords {
  import opened Wrappers
  import opened JsNumber

  type Timestamp = int

  datatype Music = Music(
    id: string,
    title: string,
    artist: string,
    genre: string,
    description: string,
    duration: Num,            // seconds; NaN when the upload form could not read it
    coverImageUrl: string,
    audioFileUrl: string,
    creatorAddress: string,
    tokenId: Option<string>,
    txHash: Option<string>,
    createdAt: Timestamp,
    fingerprint: Option<string>)

  datatype CampaignStatus = Active | Successful | Failed | Cancelled

  datatype Campaign = Campaign(
    id: string,
    musicTokenId: string,     // the Music id the pool funds (not checked to exist)
    musicTitle: string,
    goal: string,             // the goal exactly as typed
    royaltyPercentage: real,  // share of play revenue offered to investors
    deadline: Timestamp,
    lockupPeriod: Num,        // days; NaN when the form field could not be read
    currentAmount: Num,       // total raised so far
    backers: int,
    creatorAddress: string,
    description: string,
    createdAt: Timestamp,
    status: CampaignStatus,
    campaignId: Option<string>,
    txHash: Option<string>)

  datatype Investment = Investment(
    id: string,
    campaignId: string,
    musicTitle: string,
    investorAddress: string,
    amount: string,           // the amount exactly as typed; read with parseFloat
    investedAt: Timestamp,
    royaltyShare: real)

  datatype PlayEvent = PlayEvent(
    id: string,
    musicId: string,
    musicTitle: string,
    userId: string,
    playedAt: Timestamp,
    duration: real)           // seconds listened

  datatype Role = Creator | User

  datatype UserProgress = UserProgress(
    userId: string,
    userRole: Role,
    totalPlays: nat,
    totalInvestments: nat,
    totalInvested: Num,
    totalRoyalty: real,
    level: string,
    progressPercentage: real,
    lastUpdated: Timestamp)

  /** `Partial<LocalMusicData>`: the fields an update sets. */
  datatype MusicPatch = MusicPatch(
    id: Option<string> := None,
    title: Option<string> := None,
    artist: Option<string> := None,
    genre: Option<string> := None,
    description: Option<string> := None,
    duration: Option<Num> := None,
    coverImageUrl: Option<string> := None,
    audioFileUrl: Option<string> := None,
    creatorAddress: Option<string> := None,
    tokenId: Option<string> := None,
    txHash: Option<string> := None,
    createdAt: Option<Timestamp> := None,
    fingerprint: Option<string> := None)

  /** `Partial<LocalCampaignData>`: the fields an update sets. */
  datatype CampaignPatch = CampaignPatch(
    id: Option<string> := None,
    musicTokenId: Option<string> := None,
    musicTitle: Option<string> := None,
    goal: Option<string> := None,
    royaltyPercentage: Option<real> := None,
    deadline: Option<Timestamp> := None,
    lockupPeriod: Option<Num> := None,
    currentAmount: Option<Num> := None,
    backers: Option<int> := None,
    creatorAddress: Option<string> := None,
    description: Option<string> := None,
    createdAt: Option<Timestamp> := None,
    status: Option<CampaignStatus> := None,
    campaignId: Option<string> := None,
    txHash: Option<string> := None)

  /** Every field of a record, as a patch: spreading it copies the record. */
  function MusicAsPatch(m: Music): MusicPatch {
    MusicPatch(Some(m.id), Some(m.title), Some(m.artist), Some(m.genre), Some(m.description),
      Some(m.duration), Some(m.coverImageUrl), Some(m.audioFileUrl), Some(m.creatorAddress),
      m.tokenId, m.txHash, Some(m.createdAt), m.fingerprint)
  }

  /** `{ ...m, ...p }` for a music record. */
  function MergeMusic(m: Music, p: MusicPatch): (r: Music)
    ensures p == MusicPatch() ==> r == m
  {
    Music(
      p.id.GetOr(m.id), p.title.GetOr(m.title), p.artist.GetOr(m.artist),
      p.genre.GetOr(m.genre), p.description.GetOr(m.description),
      p.duration.GetOr(m.duration), p.coverImageUrl.GetOr(m.coverImageUrl),
      p.audioFileUrl.GetOr(m.audioFileUrl), p.creatorAddress.GetOr(m.creatorAddress),
      if p.tokenId.Some? then p.tokenId else m.tokenId,
      if p.txHash.Some? then p.txHash else m.txHash,
      p.createdAt.GetOr(m.createdAt),
      if p.fingerprint.Some? then p.fingerprint else m.fingerprint)
  }

  /** `{ ...c, ...p }` for a campaign record. */
  function MergeCampaign(c: Campaign, p: CampaignPatch): (r: Campaign)
    ensures p == CampaignPatch() ==> r == c
  {
    Campaign(
      p.id.GetOr(c.id), p.musicTokenId.GetOr(c.musicTokenId), p.musicTitle.GetOr(c.musicTitle),
      p.goal.GetOr(c.goal), p.royaltyPercentage.GetOr(c.royaltyPercentage),
      p.deadline.GetOr(c.deadline), p.lockupPeriod.GetOr(c.lockupPeriod),
      p.currentAmount.GetOr(c.currentAmount), p.backers.GetOr(c.backers),
      p.creatorAddress.GetOr(c.creatorAddress), p.description.GetOr(c.description),
      p.createdAt.GetOr(c.createdAt), p.status.GetOr(c.status),
      if p.campaignId.Some? then p.campaignId else c.campaignId,
      if p.txHash.Some? then p.txHash else c.txHash)
  }

  /**
   * Spreading a record over another with the same required fields yields it,
   * except that optional fields it lacks are kept from the other; spreading a
   * record over itself changes nothing.
   */
  lemma MergeOwnFields(m: Music, other: Music)
    ensures MergeMusic(m, MusicAsPatch(m)) == m
    ensures var r := MergeMusic(other, MusicAsPatch(m));
      r.(tokenId := m.tokenId, txHash := m.txHash, fingerprint := m.fingerprint) == m
  {
  }
}
