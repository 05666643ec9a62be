/**
 * The music pool on the dashboard: the five tracks it lists, the labels it
 * prints beside them, the progress bar of the player, and the rule that
 * turns listening into play events in the ledger.
 */
module MusicPool {
  import opened Wrappers
  import opened Session
  import opened JsText
  import opened JsNumber
  import opened LedgerRecords
  import opened LedgerQueries
  import opened LedgerStore

  // ---------- the listed tracks ----------

  /** One listed track; the id is already the string the play events carry. */
  datatype PoolTrack = PoolTrack(
    musicId: string,
    title: string,
    closeHour: nat,
    artist: string,
    url: string,
    coverImageUrl: Option<string>,
    genre: Option<string>)

  /** The closing hours a listed track may be given at random. */
  const CloseHourOptions: seq<nat> := [6, 12, 18, 24, 48, 72, 96]

  /** The built-in tracks the pool starts with and fills up with. */
  const DummyMusic: seq<PoolTrack> := [
    PoolTrack("1", "Mejikuhibiniu", 48, "Tenxi", "/assets/songs/mejikuhibiniu.mp3",
              Some("https://i.scdn.co/image/ab67616d00001e024d265eb3c717ab45470fdc8c"), Some("Indie Pop")),
    PoolTrack("2", "Pikiran yang matang", 12, "Perunggu", "/assets/songs/pikiran-yang-matang.mp3",
              Some("https://i.scdn.co/image/ab67616d00001e0292aaadd0be503d89c082ecbb"), Some("Alternative Rock")),
    PoolTrack("3", "Alamak", 24, "Rizky Febian, Adrian Khalif", "/assets/songs/alamak.mp3",
              Some("https://i.scdn.co/image/ab67616d00001e0201b9750a33d771645d7f043a"), Some("Pop")),
    PoolTrack("4", "kids", 48, "Hindia", "/assets/songs/kids-hindia.mp3",
              Some("https://i.scdn.co/image/ab67616d00001e0205898628baab6ef07a0a4d03"), Some("Indie")),
    PoolTrack("5", "Tabola Bale", 18, "Silet Open Up, Jacson Zeran, Juan Reza, Diva Aurel", "/assets/songs/tabola-bale.mp3",
              Some("https://i.scdn.co/image/ab67616d00001e0210df7b8e9b3ed2588888a8ae"), Some("Hip Hop"))
  ]

  /** A stored music record as a listed track, with the closing hour drawn for it. */
  function LocalTrack(m: Music, closeHour: nat): (t: PoolTrack)
    ensures t.musicId == m.id && t.url == m.audioFileUrl && t.closeHour == closeHour
  {
    PoolTrack(m.id, m.title, closeHour, m.artist, m.audioFileUrl, Some(m.coverImageUrl), Some(m.genre))
  }

  /** The stored music, newest first, as listed tracks; `hours` holds the drawn closing hours. */
  function LocalTracks(music: seq<Music>, hours: seq<nat>): (r: seq<PoolTrack>)
    requires |hours| == |music|
    ensures |r| == |music|
    ensures forall k :: 0 <= k < |r| ==> r[k] == LocalTrack(music[k], hours[k])
  {
    seq(|music|, k requires 0 <= k < |music| => LocalTrack(music[k], hours[k]))
  }

  /** What the backend request gave: its tracks, or a failure. */
  datatype Fetch = Fetched(tracks: seq<PoolTrack>) | FetchFailed

  /**
   * The list the pool shows once its data is loaded: the first five of the
   * local tracks, the backend tracks and the built-in ones; on a failed
   * request the backend tracks are missing, and with no local track either
   * the built-in list stays.
   */
  function DisplayedMusic(local: seq<PoolTrack>, fetch: Fetch): (r: seq<PoolTrack>)
    ensures |r| == 5
    ensures |local| >= 5 ==> r == local[..5]
    ensures |local| < 5 ==> r[..|local|] == local
    ensures forall t :: t in r ==> t in local || t in DummyMusic || (fetch.Fetched? && t in fetch.tracks)
    ensures fetch == FetchFailed ==> r == (local + DummyMusic)[..5]
  {
    match fetch
    case Fetched(backend) => (local + backend + DummyMusic)[..5]
    case FetchFailed =>
      if |local| > 0 then (local + DummyMusic)[..5]
      else (assert DummyMusic == (local + DummyMusic)[..5]; DummyMusic)
  }

  /** With closing hours drawn from the options, every listed track's closing hour is one of them. */
  lemma DisplayedCloseHours(local: seq<PoolTrack>, fetch: Fetch)
    requires forall t :: t in local ==> t.closeHour in CloseHourOptions
    requires fetch.Fetched? ==> forall t :: t in fetch.tracks ==> t.closeHour in CloseHourOptions
    ensures forall t :: t in DisplayedMusic(local, fetch) ==>
              t.closeHour in CloseHourOptions && ShowsCloseTime(t.closeHour)
  {
    forall t | t in DummyMusic ensures t.closeHour in CloseHourOptions {
      var k :| 0 <= k < |DummyMusic| && DummyMusic[k] == t;
      assert t.closeHour == [48, 12, 24, 48, 18][k];
    }
    CloseTimeOptionsShown();
  }

  // ---------- labels ----------

  /** Minutes and seconds of a time in seconds, as the player's `Math.floor(sec / 60)` and `Math.floor(sec % 60)`. */
  function Clock(sec: real): (ms: (nat, nat))
    requires sec >= 0.0
    ensures ms.0 * 60 + ms.1 == sec.Floor
    ensures ms.1 < 60
  {
    var m := (sec / 60.0).Floor;
    var rem := sec - 60.0 * m as real;
    FloorShift(rem, 60 * m);
    (m, rem.Floor)
  }

  /** Adding a whole number moves the floor by that number. */
  lemma FloorShift(x: real, k: int)
    ensures (x + k as real).Floor == x.Floor + k
  {
  }

  /** `formatTime(sec)`: minutes, a colon, and the seconds padded to two digits. */
  function FormatTime(sec: real): (r: string)
    requires sec >= 0.0
    ensures Count(r, ':') == 1
  {
    var (m, s) := Clock(sec);
    var seconds := (if s < 10 then "0" else "") + NatToString(s);
    NatToStringHasNo(m, ':');
    NatToStringHasNo(s, ':');
    CountJoin(NatToString(m), seconds);
    NatToString(m) + ":" + seconds
  }

  /** A text made of two colon-free halves joined by a colon holds one colon. */
  lemma {:induction false} CountJoin(a: string, b: string)
    requires ':' !in a && ':' !in b
    ensures Count(a + ":" + b, ':') == 1
    decreases |a|
  {
    if a == [] {
      assert a + ":" + b == [':'] + b;
      assert ([':'] + b)[1..] == b;
    } else {
      assert (a + ":" + b)[1..] == a[1..] + ":" + b;
      CountJoin(a[1..], b);
    }
  }

  /** The seconds field of a label always has two digits. */
  lemma FormatTimeShape(sec: real)
    requires sec >= 0.0
    ensures var (m, s) := Clock(sec);
            var r := FormatTime(sec);
            r == NatToString(m) + ":" + (if s < 10 then "0" + NatToString(s) else NatToString(s)) &&
            |r| == |NatToString(m)| + 3
  {
    var (m, s) := Clock(sec);
    if s >= 10 {
      assert NatToString(s) == NatToString(s / 10) + [DigitChar(s % 10)];
    }
  }

  /** The closing hours `formatCloseTime` renders exactly: less than a day, or whole days. */
  predicate ShowsCloseTime(hours: nat) {
    hours < 24 || hours % 24 == 0
  }

  /**
   * `formatCloseTime(hours)`: whole days as "<n> hari", fewer than 24 hours
   * as "<n> jam"; the number in the label, times the unit, gives back the
   * hours.
   */
  function FormatCloseTime(hours: nat): (r: string)
    requires ShowsCloseTime(hours)
    ensures var unit := if hours >= 24 then " hari" else " jam";
            |r| > |unit| && r[|r| - |unit|..] == unit && AllDigits(r[..|r| - |unit|]) &&
            (if hours >= 24 then 24 * DigitsValue(r[..|r| - |unit|]) else DigitsValue(r[..|r| - |unit|])) == hours
  {
    var n := if hours >= 24 then hours / 24 else hours;
    var unit := if hours >= 24 then " hari" else " jam";
    NatToStringValue(n);
    assert (NatToString(n) + unit)[..|NatToString(n)|] == NatToString(n);
    NatToString(n) + unit
  }

  /** Every closing-hour option is less than a day or a whole number of days. */
  lemma CloseTimeOptionsShown()
    ensures forall h :: h in CloseHourOptions ==> ShowsCloseTime(h)
  {
  }

  /** The labels of the closing-hour options below a day. */
  lemma HourLabels()
    ensures FormatCloseTime(6) == "6 jam" && FormatCloseTime(12) == "12 jam" && FormatCloseTime(18) == "18 jam"
  {
    assert NatToString(1) == "1";
    assert NatToString(12) == "1" + "2";
    assert NatToString(18) == "1" + "8";
  }

  /** One to nine whole days read as that digit followed by " hari": 24 hours is "1 hari", 96 hours "4 hari". */
  lemma DayLabel(days: nat)
    requires 1 <= days <= 9
    ensures FormatCloseTime(24 * days) == [DigitChar(days)] + " hari"
  {
    assert (24 * days) / 24 == days;
  }

  /** Different closing hours get different labels. */
  lemma CloseTimeLabelsDiffer(a: nat, b: nat)
    requires ShowsCloseTime(a) && ShowsCloseTime(b)
    ensures FormatCloseTime(a) == FormatCloseTime(b) ==> a == b
  {
    var ra, rb := FormatCloseTime(a), FormatCloseTime(b);
    if ra == rb {
      assert ra[|ra| - 1] == (if a >= 24 then 'i' else 'm');
      assert rb[|rb| - 1] == (if b >= 24 then 'i' else 'm');
      var x, y := if a >= 24 then a / 24 else a, if b >= 24 then b / 24 else b;
      var suffix := if a >= 24 then " hari" else " jam";
      assert ra == NatToString(x) + suffix && rb == NatToString(y) + suffix;
      assert NatToString(x) == ra[..|ra| - |suffix|];
      assert NatToString(y) == rb[..|rb| - |suffix|];
      NatToStringValue(x);
      NatToStringValue(y);
    }
  }

  // ---------- the progress bar ----------

  /**
   * The player's progress bar as (value, max): the played whole seconds,
   * capped at the whole seconds of the track, which count as at least one.
   */
  function ProgressBar(progress: real, duration: real): (bar: (int, int))
    requires progress >= 0.0 && duration >= 0.0
    ensures 1 <= bar.1 && 0 <= bar.0 <= bar.1
    ensures duration >= 1.0 ==> bar.1 == duration.Floor
    ensures progress.Floor <= bar.1 ==> bar.0 == progress.Floor
    ensures progress.Floor > bar.1 ==> bar.0 == bar.1
  {
    var max := if 1 >= duration.Floor then 1 else duration.Floor;
    (if progress.Floor <= max then progress.Floor else max, max)
  }

  // ---------- recording plays ----------

  /** The `timeupdate` rule: 30 seconds into the track, signed in, and 30 wall-clock seconds after the start mark. */
  predicate RecordsOnTimeUpdate(currentTime: real, authenticated: bool, userId: Option<string>,
                                mark: Timestamp, now: Timestamp) {
    currentTime >= 30.0 && authenticated && SignedIn(userId) && (now - mark) as real / 1000.0 >= 30.0
  }

  /** The wall-clock test is a comparison in milliseconds. */
  lemma TimeUpdateRule(currentTime: real, authenticated: bool, userId: Option<string>, mark: Timestamp, now: Timestamp)
    ensures RecordsOnTimeUpdate(currentTime, authenticated, userId, mark, now) <==>
            currentTime >= 30.0 && authenticated && SignedIn(userId) && now >= mark + 30000
  {
  }

  /** After a `timeupdate` record at `t` the mark sits at `t + 1000000`: no second one until 1030 seconds later. */
  lemma NoSecondRecordSoon(currentTime: real, authenticated: bool, userId: Option<string>, t: Timestamp, now: Timestamp)
    requires RecordsOnTimeUpdate(currentTime, authenticated, userId, t + 1000000, now)
    ensures now >= t + 1030000
  {
    TimeUpdateRule(currentTime, authenticated, userId, t + 1000000, now);
  }

  /** The play event a listened track adds to the ledger. */
  function PlayOf(track: PoolTrack, playId: string, userId: string, now: Timestamp, listened: real): (p: PlayEvent)
    ensures p.musicId == track.musicId && p.userId == userId && p.playedAt == now && p.duration == listened
  {
    PlayEvent(playId, track.musicId, track.title, userId, now, listened)
  }

  /**
   * The player of one loaded track: the start mark `playStartTimeRef`, the
   * shown progress and the playing flag, over the ledger the plays go to.
   * The clock and the new event id are parameters of each event.
   */
  class PlayTracker {
    const ledger: Ledger
    var playStartTime: Timestamp
    var progress: real
    var isPlaying: bool

    constructor (ledger: Ledger)
      ensures this.ledger == ledger
      ensures playStartTime == 0 && progress == 0.0 && !isPlaying
    {
      this.ledger := ledger;
      playStartTime := 0;
      progress := 0.0;
      isPlaying := false;
    }

    /** The audio element is created: the start mark is the current time. */
    method LoadAudio(now: Timestamp)
      modifies this`playStartTime
      ensures playStartTime == now
    {
      playStartTime := now;
    }

    /** `play()` resolved. */
    method Started()
      modifies this`isPlaying
      ensures isPlaying
    {
      isPlaying := true;
    }

    /**
     * The `timeupdate` listener: show the media time, and record a play when
     * the 30-second rule holds, moving the mark a million milliseconds ahead.
     */
    method OnTimeUpdate(track: PoolTrack, currentTime: real, authenticated: bool, userId: Option<string>,
                        now: Timestamp, playId: string) returns (recorded: bool)
      modifies this`progress, this`playStartTime, ledger`plays, ledger`music
      ensures progress == currentTime
      ensures recorded == RecordsOnTimeUpdate(currentTime, authenticated, userId, old(playStartTime), now)
      ensures recorded ==>
                playStartTime == now + 1000000 &&
                ledger.plays == [PlayOf(track, playId, userId.value, now, currentTime)] + old(ledger.plays) &&
                ledger.music == RefreshedMusic(old(ledger.music), track.musicId)
      ensures !recorded ==>
                playStartTime == old(playStartTime) && ledger.plays == old(ledger.plays) && ledger.music == old(ledger.music)
    {
      progress := currentTime;
      recorded := false;
      if currentTime >= 30.0 && authenticated && SignedIn(userId) {
        var playDuration := (now - playStartTime) as real / 1000.0;
        if playDuration >= 30.0 {
          ledger.SavePlayHistory(PlayOf(track, playId, userId.value, now, currentTime));
          playStartTime := now + 1000000;
          recorded := true;
        }
      }
    }

    /**
     * The `ended` listener: stop and rewind the display, and record a play
     * whenever the listener is signed in, whatever `timeupdate` recorded.
     */
    method OnEnded(track: PoolTrack, audioDuration: real, authenticated: bool, userId: Option<string>,
                   now: Timestamp, playId: string) returns (recorded: bool)
      modifies this`progress, this`isPlaying, ledger`plays, ledger`music
      ensures !isPlaying && progress == 0.0
      ensures recorded == (authenticated && SignedIn(userId))
      ensures recorded ==>
                ledger.plays == [PlayOf(track, playId, userId.value, now, audioDuration)] + old(ledger.plays) &&
                ledger.music == RefreshedMusic(old(ledger.music), track.musicId)
      ensures !recorded ==> ledger.plays == old(ledger.plays) && ledger.music == old(ledger.music)
    {
      isPlaying := false;
      progress := 0.0;
      recorded := false;
      if authenticated && SignedIn(userId) {
        ledger.SavePlayHistory(PlayOf(track, playId, userId.value, now, audioDuration));
        recorded := true;
      }
    }
  }
}
