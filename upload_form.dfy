/**
 * The form a creator registers a new work with: the audio and banner
 * pickers, the checks before the work is saved, the record it saves (with
 * the media kept as IndexedDB references) and the reset after the success
 * dialog.
 */
module UploadForm {
  import opened Wrappers
  import opened Session
  import opened JsText
  import opened JsNumber
  import opened LedgerRecords
  import opened LedgerQueries
  import opened LedgerStore
  import opened MediaRef
  import opened MusicPool

  /** A picked file: its name and its MIME type. */
  datatype MediaFile = MediaFile(name: string, mimeType: string)

  /** What the success dialog shows. */
  datatype SuccessData = SuccessData(title: string, artist: string, genre: string, audioUrl: string,
                                     bannerUrl: Option<string>)

  /** Why no work was saved. */
  datatype UploadError = NotAuthenticated | MissingFields | StorageFailed

  const DefaultDuration: real := 180.0
  const DefaultCover: string := "/assets/default-cover.png"

  /**
   * The duration field read as `MM:SS`: minutes times sixty plus seconds
   * when the text splits into exactly two parts, three minutes otherwise.
   */
  function ParseDuration(text: string): (d: Num)
    ensures text == "" || |Split(text, ':')| != 2 ==> d == Finite(DefaultDuration)
  {
    if text == "" then Finite(DefaultDuration)
    else
      var parts := Split(text, ':');
      if |parts| == 2 then Add(Mul(ParseInt(parts[0]), Finite(60.0)), ParseInt(parts[1]))
      else Finite(DefaultDuration)
  }

  /** The player's `m:ss` label reads back as the whole seconds it shows. */
  lemma DurationRoundTrip(sec: real)
    requires sec >= 0.0
    ensures ParseDuration(FormatTime(sec)) == Finite(sec.Floor as real)
  {
    var (m, s) := Clock(sec);
    FormatTimeShape(sec);
    var minutes := NatToString(m);
    var seconds := if s < 10 then "0" + NatToString(s) else NatToString(s);
    NatToStringHasNo(m, ':');
    NatToStringHasNo(s, ':');
    assert ':' !in seconds;
    var text := FormatTime(sec);
    assert text == minutes + [':'] + seconds;
    SplitPair(minutes, ':', seconds);
    assert text != "" && Split(text, ':') == [minutes, seconds];
    ParseIntOfNat(m);
    if s < 10 {
      ParseIntOfPadded(s);
    } else {
      ParseIntOfNat(s);
    }
    assert ParseInt(minutes) == Finite(m as real) && ParseInt(seconds) == Finite(s as real);
    assert (m as real) * 60.0 + s as real == (m * 60 + s) as real;
  }

  /** A duration with nothing after the colon is not a number. */
  lemma MissingSecondsIsNaN()
    ensures ParseDuration("3:") == NaN
  {
    assert Split("3:", ':') == ["3", ""] by {
      assert "3:" == "3" + [':'] + "";
      SplitPair("3", ':', "");
    }
  }

  /** The music record a successful submit saves. */
  function NewMusic(musicId: string, title: string, artist: string, genre: string, description: string,
                    durationText: string, hasBanner: bool, userId: Option<string>, now: Timestamp): (m: Music)
    ensures m.id == musicId && m.createdAt == now
    ensures m.title == title && m.artist == artist && m.description == description
    ensures m.genre == (if genre == "" then "General" else genre) && m.genre != ""
    ensures m.creatorAddress == UserIdOrGuest(userId) && m.creatorAddress != ""
    ensures m.duration == ParseDuration(durationText)
    ensures IsIndexedDBReference(m.audioFileUrl)
    ensures IsIndexedDBReference(m.coverImageUrl) <==> hasBanner
  {
    assert !IsIndexedDBReference(DefaultCover) by {
      assert DefaultCover[0] != Scheme[0];
    }
    Music(musicId, title, artist,
          if genre == "" then "General" else genre,
          description,
          ParseDuration(durationText),
          if hasBanner then ImageReference(musicId) else DefaultCover,
          AudioReference(musicId),
          UserIdOrGuest(userId),
          None, None, now, None)
  }

  /**
   * The saved record's audio is found again in the audio store under the
   * record's own id, and its cover in the image store exactly when a
   * banner was picked.
   */
  lemma NewMusicMedia(musicId: string, title: string, artist: string, genre: string, description: string,
                      durationText: string, hasBanner: bool, userId: Option<string>, now: Timestamp)
    requires ':' !in musicId
    ensures var m := NewMusic(musicId, title, artist, genre, description, durationText, hasBanner, userId, now);
            LoadMediaFromReference(m.audioFileUrl) == FetchAudio(m.id) &&
            (LoadMediaFromReference(m.coverImageUrl) == FetchImage(m.id) <==> hasBanner)
  {
    ReferenceRoundTrip(musicId);
  }

  /** After the save the new work is the one found for its id and is listed among its creator's works. */
  lemma NewMusicStored(music: seq<Music>, m: Music)
    ensures GetMusicById([m] + music, m.id) == Some(m)
    ensures m in GetMusicByCreator([m] + music, m.creatorAddress)
  {
    assert SameIgnoringCase(m.creatorAddress, m.creatorAddress);
  }

  /** The outcome of "create work": the first failed check, or the record to save. */
  function CreateOutcome(authenticated: bool, title: string, artist: string, hasAudio: bool, mediaStored: bool,
                         musicId: string, genre: string, description: string, durationText: string,
                         hasBanner: bool, userId: Option<string>, now: Timestamp): (r: Result<Music, UploadError>)
    ensures r.Ok? <==> authenticated && title != "" && artist != "" && hasAudio && mediaStored
    ensures !authenticated ==> r == Err(NotAuthenticated)
    ensures authenticated && (title == "" || artist == "" || !hasAudio) ==> r == Err(MissingFields)
    ensures r.Ok? ==> r.value.title == title && r.value.artist == artist && r.value.id == musicId
  {
    if !authenticated then Err(NotAuthenticated)
    else if title == "" || artist == "" || !hasAudio then Err(MissingFields)
    else if !mediaStored then Err(StorageFailed)
    else Ok(NewMusic(musicId, title, artist, genre, description, durationText, hasBanner, userId, now))
  }

  /**
   * The upload form's state over the ledger it saves to. The new id, the
   * clock, the preview URLs and whether IndexedDB accepted the files are
   * parameters of the handlers.
   */
  class CreateUploadForm {
    const ledger: Ledger
    var title: string
    var artist: string
    var genre: string
    var description: string
    var duration: string
    var audioFile: Option<MediaFile>
    var audioUrl: string
    var bannerFile: Option<MediaFile>
    var bannerURL: Option<string>
    var isUploading: bool
    var showSuccessModal: bool
    var successData: Option<SuccessData>

    constructor (ledger: Ledger)
      ensures this.ledger == ledger
      ensures title == "" && artist == "" && genre == "" && description == "" && duration == ""
      ensures audioFile.None? && audioUrl == "" && bannerFile.None? && bannerURL.None?
      ensures !isUploading && !showSuccessModal && successData.None?
    {
      this.ledger := ledger;
      title, artist, genre, description, duration := "", "", "", "", "";
      audioFile, audioUrl, bannerFile, bannerURL := None, "", None, None;
      isUploading, showSuccessModal, successData := false, false, None;
    }

    /** `handleAudioUpload`: only a file whose MIME type starts with "audio/" is taken. */
    method HandleAudioUpload(file: Option<MediaFile>, previewUrl: string) returns (accepted: bool)
      modifies this`audioFile, this`audioUrl
      ensures accepted == (file.Some? && StartsWith(file.value.mimeType, "audio/"))
      ensures accepted ==> audioFile == file && audioUrl == previewUrl
      ensures !accepted ==> audioFile == old(audioFile) && audioUrl == old(audioUrl)
    {
      accepted := file.Some? && StartsWith(file.value.mimeType, "audio/");
      if accepted {
        audioFile := file;
        audioUrl := previewUrl;
      }
    }

    /** `handleBannerUpload`: any picked file is taken as the banner. */
    method HandleBannerUpload(file: Option<MediaFile>, previewUrl: string)
      modifies this`bannerFile, this`bannerURL
      ensures file.Some? ==> bannerFile == file && bannerURL == Some(previewUrl)
      ensures file.None? ==> bannerFile == old(bannerFile) && bannerURL == old(bannerURL)
    {
      if file.Some? {
        bannerFile := file;
        bannerURL := Some(previewUrl);
      }
    }

    /**
     * `handleCreateKarya`: check sign-in and the required fields, store the
     * files, then save exactly one music record and open the success dialog.
     */
    method HandleCreateKarya(authenticated: bool, userId: Option<string>, musicId: string, now: Timestamp,
                             mediaStored: bool) returns (r: Result<Music, UploadError>)
      modifies this`isUploading, this`showSuccessModal, this`successData, ledger`music
      ensures r == CreateOutcome(authenticated, old(title), old(artist), old(audioFile).Some?, mediaStored, musicId,
                                 genre, description, duration, bannerFile.Some?, userId, now)
      ensures r.Ok? ==> ledger.music == [r.value] + old(ledger.music)
      ensures r.Err? ==> ledger.music == old(ledger.music)
      ensures r.Ok? ==> showSuccessModal && !isUploading &&
                        successData == Some(SuccessData(title, artist, r.value.genre, audioUrl, bannerURL))
      ensures r == Err(StorageFailed) ==> !isUploading && showSuccessModal == old(showSuccessModal) &&
                                          successData == old(successData)
      ensures r == Err(NotAuthenticated) || r == Err(MissingFields) ==>
                isUploading == old(isUploading) && showSuccessModal == old(showSuccessModal) &&
                successData == old(successData)
    {
      r := CreateOutcome(authenticated, title, artist, audioFile.Some?, mediaStored, musicId,
                         genre, description, duration, bannerFile.Some?, userId, now);
      if !authenticated || title == "" || artist == "" || audioFile.None? {
        return;
      }
      isUploading := true;
      if !mediaStored {
        isUploading := false;
        return;
      }
      var m := NewMusic(musicId, title, artist, genre, description, duration, bannerFile.Some?, userId, now);
      ledger.SaveMusic(m);
      successData := Some(SuccessData(title, artist, m.genre, audioUrl, bannerURL));
      showSuccessModal := true;
      isUploading := false;
    }

    /** `handleCloseModal`: close the dialog and clear the form, except the picked banner file. */
    method HandleCloseModal()
      modifies this`showSuccessModal, this`title, this`artist, this`genre, this`description, this`duration,
               this`audioFile, this`audioUrl, this`bannerURL, this`successData
      ensures !showSuccessModal && successData.None?
      ensures title == "" && artist == "" && genre == "" && description == "" && duration == ""
      ensures audioFile.None? && audioUrl == "" && bannerURL.None?
      ensures bannerFile == old(bannerFile)
    {
      showSuccessModal := false;
      title, artist, genre, description, duration := "", "", "", "", "";
      audioFile := None;
      audioUrl := "";
      bannerURL := None;
      successData := None;
    }
  }
}
