/**
 * The local ledger as one object: the five stored collections (music,
 * campaigns, investments, play history, user progress) are its fields, and
 * every write function of the ledger is a method that replaces the
 * collections it writes. New records go to the front, as the ledger stores
 * `[record, ...existing]`.
 */
module LedgerStore {
  import opened Wrappers
  import opened JsText
  import opened JsNumber
  import opened SeqOps
  import opened LedgerRecords
  import opened LedgerQueries
  import opened Progress

  class Ledger {
    var music: seq<Music>
    var campaigns: seq<Campaign>
    var investments: seq<Investment>
    var plays: seq<PlayEvent>
    var progress: seq<UserProgress>

    /** A browser with nothing stored: every `get…` reads an empty list. */
    constructor ()
      ensures music == [] && campaigns == [] && investments == [] && plays == [] && progress == []
    {
      music := [];
      campaigns := [];
      investments := [];
      plays := [];
      progress := [];
    }

    /** `saveMusic(m)` */
    method SaveMusic(m: Music)
      modifies this`music
      ensures music == [m] + old(music)
    {
      music := [m] + music;
    }

    /** `updateMusic(id, updates)` */
    method UpdateMusic(id: string, patch: MusicPatch)
      modifies this`music
      ensures music == UpdatedMusic(old(music), id, patch)
    {
      music := UpdatedMusic(music, id, patch);
    }

    /** `deleteMusic(id)` */
    method DeleteMusic(id: string)
      modifies this`music
      ensures music == WithoutMusic(old(music), id)
    {
      music := WithoutMusic(music, id);
    }

    /** `saveCampaign(c)` */
    method SaveCampaign(c: Campaign)
      modifies this`campaigns
      ensures campaigns == [c] + old(campaigns)
    {
      campaigns := [c] + campaigns;
    }

    /** `updateCampaign(id, updates)` */
    method UpdateCampaign(id: string, patch: CampaignPatch)
      modifies this`campaigns
      ensures campaigns == UpdatedCampaigns(old(campaigns), id, patch)
    {
      campaigns := UpdatedCampaigns(campaigns, id, patch);
    }

    /** `deleteCampaign(id)` */
    method DeleteCampaign(id: string)
      modifies this`campaigns
      ensures campaigns == WithoutCampaign(old(campaigns), id)
    {
      campaigns := WithoutCampaign(campaigns, id);
    }

    /**
     * `addContributionToCampaign(id, amount)`: the campaign found first gets
     * the contribution added to its amount and one more backer; nothing
     * happens for an unknown id.
     */
    method AddContributionToCampaign(campaignId: string, amount: string)
      modifies this`campaigns
      ensures campaigns == Credited(old(campaigns), campaignId, ParseFloat(amount))
    {
      var found := GetCampaignById(campaigns, campaignId);
      if found.Some? {
        UpdateCampaign(campaignId, ContributionPatch(found.value, ParseFloat(amount)));
      }
    }

    /** `clearAllLocalData()`: only the music and campaign collections. */
    method ClearAllLocalData()
      modifies this`music, this`campaigns
      ensures music == [] && campaigns == []
    {
      music := [];
      campaigns := [];
    }

    /** `saveInvestment(v)`: store it, then credit its campaign. */
    method SaveInvestment(v: Investment)
      modifies this`investments, this`campaigns
      ensures investments == [v] + old(investments)
      ensures campaigns == Credited(old(campaigns), v.campaignId, ParseFloat(v.amount))
    {
      investments := [v] + investments;
      AddContributionToCampaign(v.campaignId, v.amount);
    }

    /**
     * `savePlayHistory(play)`: store the play, then spread the played
     * music's first record over its records again, which changes nothing
     * when music ids are unique.
     */
    method SavePlayHistory(play: PlayEvent)
      modifies this`plays, this`music
      ensures plays == [play] + old(plays)
      ensures music == RefreshedMusic(old(music), play.musicId)
      ensures GetMusicPlayCount(plays, play.musicId) == old(GetMusicPlayCount(plays, play.musicId)) + 1
    {
      PlayCountAfterSave(plays, play, play.musicId);
      plays := [play] + plays;
      var found := GetMusicById(music, play.musicId);
      if found.Some? {
        UpdateMusic(play.musicId, MusicAsPatch(found.value));
      }
    }

    /**
     * `updateUserProgress(userId, role)`: find the user's record or push a
     * new one, recompute it field by field, and store it in front of the
     * other users' records.
     */
    method UpdateUserProgress(userId: string, role: Role, now: Timestamp) returns (p: UserProgress)
      modifies this`progress
      ensures (progress, p) == ProgressUpdate(old(progress), music, investments, plays, userId, role, now)
    {
      var allProgress := progress;
      var userProgress: UserProgress;
      var found := GetUserProgressById(allProgress, userId);
      if found.None? {
        userProgress := InitialProgress(userId, role, now);
        allProgress := allProgress + [userProgress];
      } else {
        userProgress := found.value;
      }
      ghost var base := userProgress;

      var userPlays := GetPlayHistoryByUser(plays, userId);
      var userInvestments := GetInvestmentsByUser(investments, userId);
      userProgress := userProgress.(totalPlays := |userPlays|);
      userProgress := userProgress.(totalInvestments := |userInvestments|);
      userProgress := userProgress.(totalInvested := SumAmounts(userInvestments));

      if role == Creator {
        var totalMusicPlays := CreatorMusicPlays(music, plays, userId);
        userProgress := userProgress.(totalRoyalty := totalMusicPlays as real * 0.01);
        var tier := CreatorTier(totalMusicPlays);
        userProgress := userProgress.(level := tier.level, progressPercentage := tier.percentage);
      } else {
        var tier := InvestorTier(userProgress.totalInvestments);
        userProgress := userProgress.(level := tier.level, progressPercentage := tier.percentage);
      }
      userProgress := userProgress.(lastUpdated := now);
      assert userProgress == Recomputed(base, role, music, investments, plays, now);

      var otherProgress := OtherProgress(allProgress, userId);
      if found.None? {
        var keep := (q: UserProgress) => q.userId != userId;
        FilterConcat(progress, [base], keep);
        assert [base][1..] == [];
        assert otherProgress == OtherProgress(progress, userId);
      }
      progress := [userProgress] + otherProgress;
      p := userProgress;
    }

    /** `clearAllLocalDataExtended()`: every collection. */
    method ClearAllLocalDataExtended()
      modifies this
      ensures music == [] && campaigns == [] && investments == [] && plays == [] && progress == []
    {
      music := [];
      campaigns := [];
      investments := [];
      plays := [];
      progress := [];
    }
  }

  // ---------- what the writes promise to later reads ----------

  /** After a delete no record with the id is found, and every other record is kept in order. */
  lemma DeletedNotFound(music: seq<Music>, campaigns: seq<Campaign>, id: string)
    ensures GetMusicById(WithoutMusic(music, id), id).None?
    ensures GetCampaignById(WithoutCampaign(campaigns, id), id).None?
    ensures forall m: Music :: m.id != id ==> (m in WithoutMusic(music, id) <==> m in music)
  {
    var ms := WithoutMusic(music, id);
    forall k | 0 <= k < |ms| ensures ms[k].id != id {
      assert multiset(ms)[ms[k]] > 0;
    }
    var cs := WithoutCampaign(campaigns, id);
    forall k | 0 <= k < |cs| ensures cs[k].id != id {
      assert multiset(cs)[cs[k]] > 0;
    }
    forall m: Music | m.id != id ensures m in ms <==> m in music {
      assert m in ms <==> multiset(ms)[m] > 0;
      assert m in music <==> multiset(music)[m] > 0;
    }
  }

  /** Saving a record with a new id and deleting that id gives back the stored collection. */
  lemma {:induction false} SaveThenDelete(m: Music, music: seq<Music>)
    requires forall k :: 0 <= k < |music| ==> music[k].id != m.id
    ensures WithoutMusic([m] + music, m.id) == music
  {
    var keep := (x: Music) => x.id != m.id;
    FilterKeepsAll(music, keep);
    assert ([m] + music)[1..] == music;
  }

  /**
   * An update that does not rename finds, for the id, the first record with
   * the update spread over it.
   */
  lemma UpdatedFound(music: seq<Music>, id: string, patch: MusicPatch)
    requires patch.id.None? || patch.id == Some(id)
    ensures GetMusicById(UpdatedMusic(music, id, patch), id)
         == if GetMusicById(music, id).Some? then Some(MergeMusic(GetMusicById(music, id).value, patch)) else None
  {
    var r := UpdatedMusic(music, id, patch);
    forall k | 0 <= k < |music| ensures r[k].id == id <==> music[k].id == id {
    }
    var found := GetMusicById(music, id);
    var after := GetMusicById(r, id);
    if found.Some? {
      var i :| 0 <= i < |music| && music[i] == found.value && music[i].id == id &&
               forall j :: 0 <= j < i ==> music[j].id != id;
      assert after.Some?;
      var i' :| 0 <= i' < |r| && r[i'] == after.value && r[i'].id == id &&
                forall j :: 0 <= j < i' ==> r[j].id != id;
      assert i == i';
    }
  }

  /** Saving an active campaign raises the active count by one; saving any campaign raises the total by one. */
  lemma StatsAfterSaveCampaign(music: seq<Music>, campaigns: seq<Campaign>, c: Campaign)
    ensures var before := GetStorageStats(music, campaigns);
            var after := GetStorageStats(music, [c] + campaigns);
            after.totalMusic == before.totalMusic &&
            after.totalCampaigns == before.totalCampaigns + 1 &&
            after.activeCampaigns == before.activeCampaigns + (if c.status == Active then 1 else 0)
  {
    assert ([c] + campaigns)[1..] == campaigns;
  }
}
