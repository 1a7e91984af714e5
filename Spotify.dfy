/** The "now playing" remote control.  The Web API's answers are inputs:
    a reply to `GET /me/player/currently-playing` (status and decoded JSON
    body) or to a player command (status only), or the fact that `fetch`
    itself failed.  The classification of those answers, the mapping of
    the payload to a Track, the local progress step and the time format
    are functions; the class Player holds the widget's state and its
    handlers change it.  The requests a handler sends are recorded in the
    field `sent`, so that which command goes out is part of the state. */
module Spotify {
  import opened Text

  datatype Track = Track(id: string, title: string, artist: string, album: string,
                         coverUrl: string, duration: int)

  // ----- The decoded JSON of a currently-playing answer -----

  datatype Artist = Artist(name: string)
  datatype Image = Image(url: string)
  datatype Album = Album(name: string, images: seq<Image>)
  datatype Item = Item(id: string, name: string, artists: seq<Artist>, album: Album, durationMs: int)

  /** `item` is None when the field is null or absent. */
  datatype Playback = Playback(item: Option<Item>, isPlaying: bool, progressMs: int)

  /** What the playback query's `fetch` gave: a rejection, or a response
      whose body is None when it is not JSON. */
  datatype PlaybackReply =
    | FetchFailed
    | PlaybackResponse(status: int, body: Option<Playback>)

  /** What a command's `fetch` gave: a rejection, or a response. */
  datatype CommandReply =
    | CommandFailed
    | CommandResponse(code: int)

  /** `Response.ok`: a status in the 2xx range. */
  predicate IsOk(status: int) { 200 <= status <= 299 }

  const IdleMessage := "open spotify, play any song once, then come back here"
  const UnavailableMessage := "spotify playback unavailable"
  const NoDeviceMessage := "no active device. open spotify app and start playback once."
  const RejectedMessage := "spotify rejected this action"

  // ----- Mapping the payload -----

  /** `names.join(", ")` over the artists' names: empty for no artists, the
      one name for a single artist, and otherwise starting with the first
      artist's name. */
  function JoinNames(artists: seq<Artist>): (r: string)
    ensures |artists| == 0 ==> r == ""
    ensures |artists| == 1 ==> r == artists[0].name
    ensures |artists| > 0 ==>
              |artists[0].name| <= |r| && r[..|artists[0].name|] == artists[0].name
  {
    if |artists| == 0 then ""
    else if |artists| == 1 then artists[0].name
    else artists[0].name + ", " + JoinNames(artists[1..])
  }

  /** Joining two non-empty lists of artists is joining each and putting
      one separator between them. */
  lemma {:induction false} JoinNamesAppend(a: seq<Artist>, b: seq<Artist>)
    requires |a| > 0 && |b| > 0
    ensures JoinNames(a + b) == JoinNames(a) + ", " + JoinNames(b)
  {
    if |a| == 1 {
      assert (a + b)[1..] == b;
    } else {
      assert (a + b)[1..] == a[1..] + b;
      JoinNamesAppend(a[1..], b);
    }
  }

  /** `Math.floor(ms / 1000)`: the whole seconds in `ms` milliseconds. */
  function WholeSeconds(ms: int): (s: int)
    ensures s * 1000 <= ms < s * 1000 + 1000
  {
    ms / 1000
  }

  /** The Track built from an item; the cover is the first image, which
      the code reads without checking that there is one. */
  function ToTrack(item: Item): (t: Track)
    requires |item.album.images| > 0
    ensures t.id == item.id && t.title == item.name && t.album == item.album.name
    ensures t.duration * 1000 <= item.durationMs < t.duration * 1000 + 1000
    ensures t.artist == JoinNames(item.artists) && t.coverUrl == item.album.images[0].url
  {
    Track(item.id, item.name, JoinNames(item.artists), item.album.name,
          item.album.images[0].url, WholeSeconds(item.durationMs))
  }

  // ----- Classifying the answers -----

  /** What the playback query makes of an answer: nothing playing, the
      service unavailable, a track loaded, or an exception thrown before any
      state is touched (`fetch` failed, a body that is not JSON, a null item
      on a 2xx other than 200, or an item without images). */
  datatype PlaybackOutcome =
    | Idle
    | Unavailable
    | Loaded(track: Track, playing: bool, progress: int)
    | Threw

  function ClassifyPlayback(reply: PlaybackReply): (o: PlaybackOutcome)
    ensures o.Idle? <==>
              reply.PlaybackResponse? &&
              (reply.status == 204 ||
               (reply.status == 200 && reply.body.Some? && reply.body.value.item.None?))
    ensures o.Unavailable? <==> reply.PlaybackResponse? && !IsOk(reply.status)
    ensures o.Loaded? <==>
              reply.PlaybackResponse? && IsOk(reply.status) && reply.status != 204 &&
              reply.body.Some? && reply.body.value.item.Some? &&
              |reply.body.value.item.value.album.images| > 0
    ensures o.Loaded? ==>
              o.track == ToTrack(reply.body.value.item.value) &&
              o.playing == reply.body.value.isPlaying &&
              o.progress * 1000 <= reply.body.value.progressMs < o.progress * 1000 + 1000
  {
    match reply
    case FetchFailed => Threw
    case PlaybackResponse(status, body) =>
      if status == 204 then Idle
      else if status == 200 && body.None? then Threw
      else if status == 200 && body.value.item.None? then Idle
      else if !IsOk(status) then Unavailable
      else if body.None? || body.value.item.None? then Threw
      else if |body.value.item.value.album.images| == 0 then Threw
      else Loaded(ToTrack(body.value.item.value), body.value.isPlaying,
                  WholeSeconds(body.value.progressMs))
  }

  /** What a command makes of an answer. */
  datatype CommandOutcome = NoDevice | Rejected | Accepted | CommandThrew

  function ClassifyCommand(reply: CommandReply): (o: CommandOutcome)
    ensures o.NoDevice? <==> reply.CommandResponse? && reply.code == 404
    ensures o.Rejected? <==> reply.CommandResponse? && reply.code != 404 && !IsOk(reply.code)
    ensures o.Accepted? <==> reply.CommandResponse? && IsOk(reply.code)
    ensures o.CommandThrew? <==> reply.CommandFailed?
  {
    match reply
    case CommandFailed => CommandThrew
    case CommandResponse(code) =>
      if code == 404 then NoDevice else if !IsOk(code) then Rejected else Accepted
  }

  /** The advisory text after a command: left alone when the command threw;
      otherwise cleared exactly on success, and on a failure the no-device
      text exactly when there is no device and the rejection text exactly
      when the service refused. */
  function MessageAfter(o: CommandOutcome, previous: Option<string>): (m: Option<string>)
    ensures o.CommandThrew? ==> m == previous
    ensures !o.CommandThrew? ==> (m == None <==> o.Accepted?)
    ensures !o.CommandThrew? && m.Some? ==>
              (m.value == NoDeviceMessage <==> o.NoDevice?) && (m.value == RejectedMessage <==> o.Rejected?)
  {
    match o
    case NoDevice => Some(NoDeviceMessage)
    case Rejected => Some(RejectedMessage)
    case Accepted => None
    case CommandThrew => previous
  }

  /** The same answer to the same command twice leaves the message as the
      first answer left it. */
  lemma MessageAfterRepeat(o: CommandOutcome, previous: Option<string>)
    ensures MessageAfter(o, MessageAfter(o, previous)) == MessageAfter(o, previous)
  {
  }

  // ----- What an answer to the playback query does -----

  /** The part of the widget's state that the playback query can change. */
  datatype Display = Display(track: Option<Track>, isPlaying: bool, progress: int, message: Option<string>)

  /** The display after the playback query's answer has been handled: an
      idle or unavailable answer clears the track and sets its advisory
      text; a loaded track replaces track, playing flag and progress and
      clears the text; an answer that threw changes nothing.  Only a loaded
      track touches the playing flag and the progress. */
  function AfterFetch(d: Display, o: PlaybackOutcome): (e: Display)
    ensures o.Threw? ==> e == d
    ensures o.Idle? ==> e.track == None && e.message == Some(IdleMessage)
    ensures o.Unavailable? ==> e.track == None && e.message == Some(UnavailableMessage)
    ensures o.Loaded? ==>
              e.track == Some(o.track) && e.isPlaying == o.playing &&
              e.progress == o.progress && e.message == None
    ensures !o.Loaded? ==> e.isPlaying == d.isPlaying && e.progress == d.progress
  {
    match o
    case Idle => d.(track := None, message := Some(IdleMessage))
    case Unavailable => d.(track := None, message := Some(UnavailableMessage))
    case Loaded(track, playing, progress) => Display(Some(track), playing, progress, None)
    case Threw => d
  }

  /** The same answer handled twice leaves the display as it was after the
      first time, so a poll that repeats its answer changes nothing more. */
  lemma AfterFetchRepeat(d: Display, o: PlaybackOutcome)
    ensures AfterFetch(AfterFetch(d, o), o) == AfterFetch(d, o)
  {
  }

  // ----- The requests sent -----

  datatype Request =
    | GetCurrentlyPlaying
    | PutPlay
    | PutPause
    | PostNext
    | PostPrevious
    | PutVolume(percent: int)

  /** The HTTP method of a request: the playback query is the only GET;
      skipping forward and back are POSTs (the helper's default); play,
      pause and volume are PUTs. */
  function Verb(r: Request): (v: string)
    ensures v == "GET" <==> r.GetCurrentlyPlaying?
    ensures v == "POST" <==> r.PostNext? || r.PostPrevious?
    ensures v == "GET" || v == "POST" || v == "PUT"
  {
    match r
    case GetCurrentlyPlaying => "GET"
    case PostNext => "POST"
    case PostPrevious => "POST"
    case _ => "PUT"
  }

  const PlayerUrl := "https://api.spotify.com/v1/me/player/"

  /** The path of a request below the player resource: one non-empty
      segment, with no further `/`. */
  function Endpoint(r: Request): (e: string)
    ensures |e| > 0 && '/' !in e
  {
    NoSlashInNumber(if r.PutVolume? then r.percent else 0);
    match r
    case GetCurrentlyPlaying => "currently-playing"
    case PutPlay => "play"
    case PutPause => "pause"
    case PostNext => "next"
    case PostPrevious => "previous"
    case PutVolume(p) => "volume?volume_percent=" + IntToString(p)
  }

  /** Every request addresses a resource directly below `/v1/me/player/`. */
  function Url(r: Request): (u: string)
    ensures |u| > |PlayerUrl| && u[..|PlayerUrl|] == PlayerUrl && '/' !in u[|PlayerUrl|..]
  {
    var u := PlayerUrl + Endpoint(r);
    assert u[|PlayerUrl|..] == Endpoint(r);
    u
  }

  /** Different requests go to different URLs. */
  lemma UrlInjective(a: Request, b: Request)
    requires Url(a) == Url(b)
    ensures a == b
  {
    var n := |PlayerUrl|;
    assert Endpoint(a) == Url(a)[n..] == Url(b)[n..] == Endpoint(b);
    var v := "volume?volume_percent=";
    if a.PutVolume? && b.PutVolume? {
      assert IntToString(a.percent) == Endpoint(a)[|v|..] == Endpoint(b)[|v|..] == IntToString(b.percent);
      IntToStringInjective(a.percent, b.percent);
    }
  }

  /** The volume query carries the percentage, and it reads back. */
  lemma VolumeUrlReadsBack(percent: int)
    requires percent >= 0
    ensures var u := Url(PutVolume(percent));
            var k := |PlayerUrl + "volume?volume_percent="|;
            u[..k] == PlayerUrl + "volume?volume_percent=" && AllDigits(u[k..]) && ParseNat(u[k..]) == percent
  {
    var k := |PlayerUrl + "volume?volume_percent="|;
    assert Url(PutVolume(percent))[k..] == IntToString(percent);
  }

  // ----- Local progress and its display -----

  /** One second of the local progress ticker: one second more, unless the
      end of the track has been reached. */
  function ProgressStep(p: int, duration: int): (q: int)
    ensures p <= q <= p + 1
    ensures q == p <==> p >= duration
    ensures p <= duration ==> q <= duration
  {
    if p >= duration then p else p + 1
  }

  function ProgressSteps(p: int, duration: int, n: nat): int {
    if n == 0 then p else ProgressStep(ProgressSteps(p, duration, n - 1), duration)
  }

  /** Starting at or before the end, `n` seconds of local progress reach
      `p + n`, but never go past the track's duration. */
  lemma {:induction false} ProgressStepsClamp(p: int, duration: int, n: nat)
    requires p <= duration
    ensures ProgressSteps(p, duration, n) == if p + n <= duration then p + n else duration
  {
    if n > 0 {
      ProgressStepsClamp(p, duration, n - 1);
    }
  }

  /** `formatTime`: the whole minutes, a colon, and the remaining seconds
      padded to two digits. */
  function FormatTime(s: int): (f: string)
    ensures |f| >= 4
  {
    var minutes := IntToString(s / 60);
    var seconds := PadStart(IntToString(JsRem(s, 60)), 2, '0');
    assert |minutes| >= 1 && |seconds| >= 2;
    minutes + ":" + seconds
  }

  /** Reading "m:ss" back: the digits before the colon as minutes, written
      without a redundant leading zero as `String()` writes them, and the
      two digits after it as seconds; None for text of any other shape. */
  function ReadTime(f: string): (r: Option<(nat, nat)>)
    ensures r.Some? ==> |f| >= 4 && f[|f| - 3] == ':' && (|f| > 4 ==> f[0] != '0') && r.value.1 < 100
  {
    if |f| >= 4 && f[|f| - 3] == ':' && (|f| > 4 ==> f[0] != '0')
       && AllDigits(f[..|f| - 3]) && AllDigits(f[|f| - 2..]) then
      var ss := f[|f| - 2..];
      assert ParseNat(ss) == ParseNat(ss[..1]) * 10 + DigitValue(ss[1]);
      assert ParseNat(ss[..1]) == DigitValue(ss[0]);
      Some((ParseNat(f[..|f| - 3]), ParseNat(ss)))
    else None
  }

  /** For a non-negative number of seconds, the text reads back as the
      whole minutes and the remaining seconds of the time. */
  lemma FormatTimeReadsBack(s: int)
    requires s >= 0
    ensures ReadTime(FormatTime(s)) == Some((s / 60, s % 60))
  {
    var mm: nat := s / 60;
    var ss: nat := s % 60;
    assert JsRem(s, 60) == ss;
    var m := NatToString(mm);
    var two := PadStart(NatToString(ss), 2, '0');
    assert FormatTime(s) == m + ":" + two;
    TwoDigits(ss);
    ParseNatToString(mm);
    ReadTimeOfFields(m, two);
  }

  /** `formatTime` is the only text that reads back as the minutes and
      seconds of `s`: together with FormatTimeReadsBack, any text `f` with
      `ReadTime(f) == ReadTime(FormatTime(s))` is `FormatTime(s)`. */
  lemma FormatTimeUnique(s: int, f: string)
    requires s >= 0 && ReadTime(f) == Some((s / 60, s % 60))
    ensures f == FormatTime(s)
  {
    var a := f[..|f| - 3];
    var b := f[|f| - 2..];
    assert AllDigits(a) && AllDigits(b) && ParseNat(a) == s / 60 && ParseNat(b) == s % 60;
    assert |a| > 1 ==> a[0] == f[0];
    FieldsAreCanonical(s / 60, s % 60, a, b);
    assert JsRem(s, 60) == s % 60;
    SplitAtColon(f);
  }

  /** Canonical minutes and two-digit seconds are the only text for their values. */
  lemma FieldsAreCanonical(m: nat, r: nat, a: string, b: string)
    requires |a| >= 1 && AllDigits(a) && (|a| > 1 ==> a[0] != '0') && ParseNat(a) == m
    requires |b| == 2 && AllDigits(b) && ParseNat(b) == r
    ensures IntToString(m) + ":" + PadStart(IntToString(r), 2, '0') == a + ":" + b
  {
    CanonicalDigits(a);
    TwoDigitsUnique(b);
  }

  /** Text with a colon third from the end is the part before, the colon, and the part after. */
  lemma SplitAtColon(f: string)
    requires |f| >= 4 && f[|f| - 3] == ':'
    ensures f == f[..|f| - 3] + ":" + f[|f| - 2..]
  {
  }

  /** Digits, a colon and two more digits read back as the two numbers. */
  lemma ReadTimeOfFields(a: string, b: string)
    requires |a| >= 1 && |b| == 2 && AllDigits(a) && AllDigits(b)
    requires |a| > 1 ==> a[0] != '0'
    ensures ReadTime(a + ":" + b) == Some((ParseNat(a), ParseNat(b)))
  {
    var f := a + ":" + b;
    assert f[..|f| - 3] == a;
    assert f[|f| - 2..] == b;
  }

  // ----- The widget's state, changed by its handlers -----

  class Player {
    /** The token read from local storage when the widget rendered. */
    const accessToken: Option<string>

    var track: Option<Track>
    var isPlaying: bool
    var progress: int
    var volume: int
    var message: Option<string>

    /** Every request sent to the Web API, oldest first. */
    var sent: seq<Request>

    /** Refetches scheduled 400 ms after an accepted command, not yet run. */
    var pendingRefetches: nat

    /** `!accessToken` fails: a token is present and not the empty string. */
    predicate HasToken() {
      accessToken.Some? && accessToken.value != ""
    }

    /** The fields the playback query can change. */
    function Shown(): Display
      reads this
    {
      Display(track, isPlaying, progress, message)
    }

    constructor (token: Option<string>)
      ensures accessToken == token
      ensures track == None && !isPlaying && progress == 0 && volume == 70 && message == None
      ensures sent == [] && pendingRefetches == 0
    {
      accessToken := token;
      track := None;
      isPlaying := false;
      progress := 0;
      volume := 70;
      message := None;
      sent := [];
      pendingRefetches := 0;
    }

    /** The playback query (run on mount, every 5 seconds, and after an
        accepted command). */
    method FetchCurrent(reply: PlaybackReply)
      modifies this
      ensures volume == old(volume) && pendingRefetches == old(pendingRefetches)
      ensures sent == if HasToken() then old(sent) + [GetCurrentlyPlaying] else old(sent)
      ensures HasToken() ==> Verb(sent[|sent| - 1]) == "GET"
      ensures Shown() == if HasToken() then AfterFetch(old(Shown()), ClassifyPlayback(reply)) else old(Shown())
    {
      if !HasToken() {
        return;
      }
      sent := sent + [GetCurrentlyPlaying];
      var o := ClassifyPlayback(reply);
      match o
      case Idle =>
        track := None;
        message := Some(IdleMessage);
      case Unavailable =>
        track := None;
        message := Some(UnavailableMessage);
      case Loaded(t, playing, p) =>
        track := Some(t);
        isPlaying := playing;
        progress := p;
        message := None;
      case Threw =>
    }

    /** A refetch scheduled by an accepted command fires. */
    method RunRefetch(reply: PlaybackReply)
      requires pendingRefetches > 0
      modifies this
      ensures pendingRefetches == old(pendingRefetches) - 1
      ensures volume == old(volume)
      ensures sent == if HasToken() then old(sent) + [GetCurrentlyPlaying] else old(sent)
      ensures Shown() == if HasToken() then AfterFetch(old(Shown()), ClassifyPlayback(reply)) else old(Shown())
    {
      pendingRefetches := pendingRefetches - 1;
      FetchCurrent(reply);
    }

    /** One call of the local progress ticker, which exists only while a
        track is loaded and playing. */
    method ProgressTick()
      modifies this
      ensures progress == if isPlaying && track.Some? then ProgressStep(old(progress), track.value.duration)
                          else old(progress)
      ensures track == old(track) && isPlaying == old(isPlaying) && volume == old(volume)
      ensures message == old(message) && sent == old(sent) && pendingRefetches == old(pendingRefetches)
    {
      if isPlaying && track.Some? {
        progress := ProgressStep(progress, track.value.duration);
      }
    }

    /** The command helper `api`.  `resolved` is false when the call threw
        (its `fetch` failed), so that the caller stops there too. */
    method Api(request: Request, reply: CommandReply) returns (resolved: bool)
      modifies this
      ensures resolved <==> !HasToken() || reply.CommandResponse?
      ensures track == old(track) && isPlaying == old(isPlaying) && progress == old(progress)
      ensures volume == old(volume)
      ensures !HasToken() ==>
                message == old(message) && sent == old(sent) && pendingRefetches == old(pendingRefetches)
      ensures HasToken() ==>
                sent == old(sent) + [request] &&
                message == MessageAfter(ClassifyCommand(reply), old(message)) &&
                pendingRefetches == old(pendingRefetches) + (if ClassifyCommand(reply).Accepted? then 1 else 0)
    {
      if !HasToken() {
        return true;
      }
      sent := sent + [request];
      var o := ClassifyCommand(reply);
      message := MessageAfter(o, message);
      if o.Accepted? {
        pendingRefetches := pendingRefetches + 1;
      }
      resolved := !o.CommandThrew?;
    }

    /** The play/pause button: with no track it only asks to play; with a
        track it asks for the opposite of what it believes and then flips
        its belief, whatever the answer, unless the call threw. */
    method PlayPause(reply: CommandReply)
      modifies this
      ensures track == old(track) && progress == old(progress) && volume == old(volume)
      ensures HasToken() ==>
                sent == old(sent) + [if old(track).Some? && old(isPlaying) then PutPause else PutPlay] &&
                message == MessageAfter(ClassifyCommand(reply), old(message))
      ensures HasToken() ==> Verb(sent[|sent| - 1]) == "PUT"
      ensures !HasToken() ==> sent == old(sent) && message == old(message)
      ensures isPlaying ==
                if old(track).Some? && (!HasToken() || reply.CommandResponse?) then !old(isPlaying)
                else old(isPlaying)
      ensures pendingRefetches == old(pendingRefetches) + (if HasToken() && ClassifyCommand(reply).Accepted? then 1 else 0)
    {
      if track.None? {
        var _ := Api(PutPlay, reply);
        return;
      }
      if isPlaying {
        var resolved := Api(PutPause, reply);
        if resolved {
          isPlaying := false;
        }
      } else {
        var resolved := Api(PutPlay, reply);
        if resolved {
          isPlaying := true;
        }
      }
    }

    /** The skip button: a command and nothing else. */
    method Next(reply: CommandReply)
      modifies this
      ensures track == old(track) && isPlaying == old(isPlaying) && progress == old(progress)
      ensures volume == old(volume)
      ensures sent == if HasToken() then old(sent) + [PostNext] else old(sent)
      ensures HasToken() ==> Verb(sent[|sent| - 1]) == "POST"
      ensures message == if HasToken() then MessageAfter(ClassifyCommand(reply), old(message)) else old(message)
      ensures pendingRefetches == old(pendingRefetches) + (if HasToken() && ClassifyCommand(reply).Accepted? then 1 else 0)
    {
      var _ := Api(PostNext, reply);
    }

    /** The back button: a command and nothing else. */
    method Previous(reply: CommandReply)
      modifies this
      ensures track == old(track) && isPlaying == old(isPlaying) && progress == old(progress)
      ensures volume == old(volume)
      ensures sent == if HasToken() then old(sent) + [PostPrevious] else old(sent)
      ensures HasToken() ==> Verb(sent[|sent| - 1]) == "POST"
      ensures message == if HasToken() then MessageAfter(ClassifyCommand(reply), old(message)) else old(message)
      ensures pendingRefetches == old(pendingRefetches) + (if HasToken() && ClassifyCommand(reply).Accepted? then 1 else 0)
    {
      var _ := Api(PostPrevious, reply);
    }

    /** The volume slider: the local value follows the slider even without
        a token; with one, the new percentage is sent and its answer ignored. */
    method SetVolume(percent: int)
      modifies this
      ensures volume == percent
      ensures sent == if HasToken() then old(sent) + [PutVolume(percent)] else old(sent)
      ensures HasToken() ==> Verb(sent[|sent| - 1]) == "PUT"
      ensures track == old(track) && isPlaying == old(isPlaying) && progress == old(progress)
      ensures message == old(message) && pendingRefetches == old(pendingRefetches)
    {
      volume := percent;
      if HasToken() {
        sent := sent + [PutVolume(percent)];
      }
    }
  }
}
