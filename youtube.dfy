/**
 * The YouTube summariser route (src/app/api/youtube/route.js): the clock rendering
 * of a caption offset, the video-id rule for a URL, the extractive summary and bullet
 * points of a transcript, the query answering over chunks of ten caption lines, and
 * the status codes of the POST and PUT handlers.
 *
 * The WHATWG URL parser, the YouTube Data API, the caption scraper and the in-memory
 * cache are not modelled: a parsed URL, the outcome of fetching a video and the
 * cached transcript are inputs.
 */
module YouTube {
  import opened Wrappers
  import opened Strings
  import opened Lists

  /** A caption line as the fetcher formats it: start offset in seconds and trimmed text. */
  datatype Item = Item(offset: real, text: string)

  /** Caption offsets are never negative. */
  predicate ValidOffsets(items: seq<Item>) {
    forall i :: 0 <= i < |items| ==> items[i].offset >= 0.0
  }

  // ---------------------------------------------------------------- formatTime

  predicate IsColon(c: char) {
    c == ':'
  }

  /** `s.padStart(2, '0')`. */
  function Pad2(s: string): string {
    if |s| >= 2 then s else seq(2 - |s|, _ => '0') + s
  }

  /**
   * `formatTime(seconds)`: `h:mm:ss` from one hour on, `m:ss` below. The source floors
   * `seconds / 3600`, `(seconds % 3600) / 60` and `seconds % 60`; for a non-negative
   * offset these are the parts of its whole number of seconds, used here.
   */
  function FormatTime(seconds: real): string
    requires seconds >= 0.0
  {
    var t: nat := seconds.Floor;
    var hours: nat := t / 3600;
    var minutes: nat := (t % 3600) / 60;
    var secs: nat := t % 60;
    if hours > 0 then Decimal(hours) + ":" + Pad2(Decimal(minutes)) + ":" + Pad2(Decimal(secs))
    else Decimal(minutes) + ":" + Pad2(Decimal(secs))
  }

  /** Reads a clock `m:ss` or `h:mm:ss` back into seconds. */
  function ClockValue(s: string): Option<nat> {
    var parts := Split(s, IsColon);
    if |parts| == 2 && AllDigits(parts[0]) && AllDigits(parts[1]) then
      Some(ValueOf(parts[0]) * 60 + ValueOf(parts[1]))
    else if |parts| == 3 && AllDigits(parts[0]) && AllDigits(parts[1]) && AllDigits(parts[2]) then
      Some(ValueOf(parts[0]) * 3600 + ValueOf(parts[1]) * 60 + ValueOf(parts[2]))
    else None
  }

  /** A number below 100, padded: exactly two digits denoting it. */
  lemma Pad2Decimal(n: nat)
    requires n < 100
    ensures var p := Pad2(Decimal(n)); |p| == 2 && AllDigits(p) && ValueOf(p) == n
  {
    var p := Pad2(Decimal(n));
    if n < 10 {
      assert p == ['0'] + Decimal(n);
      assert p[..1] == ['0'];
    } else {
      assert Decimal(n) == Decimal(n / 10) + [DigitChar(n % 10)];
    }
  }

  lemma DigitsHaveNoColon(s: string)
    requires AllDigits(s)
    ensures NoneIn(s, IsColon)
  {
  }

  /** Two digit fields joined by `:` split back into those fields. */
  lemma ClockFields2(m: string, s: string)
    requires AllDigits(m) && AllDigits(s)
    ensures Split(m + ":" + s, IsColon) == [m, s]
  {
    DigitsHaveNoColon(m);
    DigitsHaveNoColon(s);
    SplitNone(s, IsColon);
    assert m + ":" + s == m + [':'] + s;
    SplitCons(m, ':', s, IsColon);
  }

  /** Three digit fields joined by `:` split back into those fields. */
  lemma ClockFields3(h: string, m: string, s: string)
    requires AllDigits(h) && AllDigits(m) && AllDigits(s)
    ensures Split(h + ":" + m + ":" + s, IsColon) == [h, m, s]
  {
    DigitsHaveNoColon(h);
    ClockFields2(m, s);
    assert h + ":" + m + ":" + s == h + [':'] + (m + ":" + s);
    SplitCons(h, ':', m + ":" + s, IsColon);
  }

  /** A clock field after the first: two digits denoting less than 60. */
  predicate MinuteField(f: string) {
    |f| == 2 && AllDigits(f) && ValueOf(f) < 60
  }

  /** The hour, minute and second parts of a whole number of seconds. */
  lemma ClockParts(t: nat)
    ensures (t % 3600) / 60 < 60 && t % 60 < 60
    ensures t == (t / 3600) * 3600 + ((t % 3600) / 60) * 60 + t % 60
  {
    var h, r := t / 3600, t % 3600;
    var m, s := r / 60, r % 60;
    assert r == m * 60 + s;
    assert t == (h * 60 + m) * 60 + s;
    RemainderOf60(t, h * 60 + m, s);
  }

  /** The remainder by 60 is the one digit of a base-60 decomposition. */
  lemma RemainderOf60(t: nat, q: nat, s: nat)
    requires s < 60 && t == q * 60 + s
    ensures t % 60 == s
  {
  }

  /** The fields of the clock for `t` whole seconds, as digit strings. */
  lemma ClockSplit(t: nat) returns (fields: seq<string>)
    ensures fields == Split(FormatTime(t as real), IsColon)
    ensures |fields| == 2 <==> t < 3600
    ensures |fields| == 3 <==> t >= 3600
    ensures forall k :: 1 <= k < |fields| ==> MinuteField(fields[k])
    ensures |fields| == 2 ==> AllDigits(fields[0]) && AllDigits(fields[1]) && ValueOf(fields[0]) * 60 + ValueOf(fields[1]) == t
    ensures |fields| == 3 ==> AllDigits(fields[0]) && AllDigits(fields[1]) && AllDigits(fields[2]) &&
                              ValueOf(fields[0]) * 3600 + ValueOf(fields[1]) * 60 + ValueOf(fields[2]) == t
  {
    assert (t as real).Floor == t;
    var hours: nat := t / 3600;
    var minutes: nat := (t % 3600) / 60;
    var secs: nat := t % 60;
    ClockParts(t);
    Pad2Decimal(minutes);
    Pad2Decimal(secs);
    var m, s := Pad2(Decimal(minutes)), Pad2(Decimal(secs));
    assert MinuteField(m) && MinuteField(s);
    if hours > 0 {
      var h := Decimal(hours);
      ClockFields3(h, m, s);
      fields := [h, m, s];
      forall k | 1 <= k < 3 ensures MinuteField(fields[k]) {
        if k == 1 {
          assert fields[k] == m;
        } else {
          assert fields[k] == s;
        }
      }
    } else {
      var mm := Decimal(minutes);
      ClockFields2(mm, s);
      fields := [mm, s];
      assert fields[1] == s;
    }
  }

  /**
   * `formatTime` writes two fields below one hour and three from one hour on; every
   * field after the first has two digits below 60, and reading the clock back gives
   * the whole number of seconds.
   */
  lemma FormatTimeClock(seconds: real)
    requires seconds >= 0.0
    ensures var parts := Split(FormatTime(seconds), IsColon);
            && (|parts| == 2 <==> seconds.Floor < 3600)
            && (|parts| == 3 <==> seconds.Floor >= 3600)
            && (forall k :: 1 <= k < |parts| ==> MinuteField(parts[k]))
    ensures ClockValue(FormatTime(seconds)) == Some(seconds.Floor)
  {
    var t: nat := seconds.Floor;
    FormatTimeOfFloor(seconds);
    ClockOfWholeSeconds(t);
  }

  /** `formatTime` looks only at the whole seconds. */
  lemma FormatTimeOfFloor(seconds: real)
    requires seconds >= 0.0
    ensures FormatTime(seconds) == FormatTime(seconds.Floor as real)
  {
    assert (seconds.Floor as real).Floor == seconds.Floor;
  }

  /** `FormatTimeClock` for a whole number of seconds. */
  lemma ClockOfWholeSeconds(t: nat)
    ensures var parts := Split(FormatTime(t as real), IsColon);
            && (|parts| == 2 <==> t < 3600)
            && (|parts| == 3 <==> t >= 3600)
            && (forall k :: 1 <= k < |parts| ==> MinuteField(parts[k]))
    ensures ClockValue(FormatTime(t as real)) == Some(t)
  {
    var fields := ClockSplit(t);
    ReadClock(FormatTime(t as real), t);
  }

  /** A clock whose fields denote `t` seconds reads back as `t`. */
  lemma ReadClock(c: string, t: nat)
    requires var f := Split(c, IsColon);
             || (|f| == 2 && AllDigits(f[0]) && AllDigits(f[1]) && ValueOf(f[0]) * 60 + ValueOf(f[1]) == t)
             || (|f| == 3 && AllDigits(f[0]) && AllDigits(f[1]) && AllDigits(f[2]) &&
                 ValueOf(f[0]) * 3600 + ValueOf(f[1]) * 60 + ValueOf(f[2]) == t)
    ensures ClockValue(c) == Some(t)
  {
  }

  // ---------------------------------------------------------------- extractVideoId

  /** What the URL parser yields: host name, path and the query's name/value pairs in order. */
  datatype Url = Url(hostname: string, pathname: string, query: seq<(string, string)>)

  /** `new URLSearchParams(search).get(name)`: the first value given for `name`, if any. */
  function SearchParam(query: seq<(string, string)>, name: string): (r: Option<string>)
    ensures r.None? <==> forall k :: 0 <= k < |query| ==> query[k].0 != name
    ensures r.Some? ==> exists k :: 0 <= k < |query| && query[k] == (name, r.value) &&
                         forall j :: 0 <= j < k ==> query[j].0 != name
    decreases |query|
  {
    if query == [] then None
    else if query[0].0 == name then Some(query[0].1)
    else
      var r := SearchParam(query[1..], name);
      assert forall k :: 1 <= k < |query| ==> query[k] == query[1..][k - 1];
      r
  }

  /** `url.pathname.slice(1)`. */
  function DropFirst(s: string): string {
    if s == [] then [] else s[1..]
  }

  /**
   * `extractVideoId(url)`: the path after `/` on `youtu.be`, the `v` parameter on a host
   * containing `youtube.com`, nothing otherwise; `url` is `None` when `new URL` throws.
   */
  function ExtractVideoId(url: Option<Url>): (r: Option<string>)
    ensures url.None? ==> r.None?
    ensures url.Some? && url.value.hostname == "youtu.be" ==>
              r.Some? && if url.value.pathname == [] then r.value == [] else [url.value.pathname[0]] + r.value == url.value.pathname
    ensures url.Some? && url.value.hostname != "youtu.be" && Includes(url.value.hostname, "youtube.com") ==> r == SearchParam(url.value.query, "v")
    ensures url.Some? && url.value.hostname != "youtu.be" && !Includes(url.value.hostname, "youtube.com") ==> r.None?
  {
    match url
    case None => None
    case Some(u) =>
      if u.hostname == "youtu.be" then Some(DropFirst(u.pathname))
      else if Includes(u.hostname, "youtube.com") then SearchParam(u.query, "v")
      else None
  }

  /** Short links and watch links give back the id they were written with. */
  lemma ExtractVideoIdRoundTrip(id: string, host: string, query: seq<(string, string)>)
    requires Includes(host, "youtube.com")
    ensures ExtractVideoId(Some(Url("youtu.be", "/" + id, query))) == Some(id)
    ensures ExtractVideoId(Some(Url(host, "/watch", [("v", id)] + query))) == Some(id)
  {
    assert ("/" + id)[1..] == id;
    assert host != "youtu.be" by {
      var i := IncludesWitness(host, "youtube.com");
    }
  }

  // ---------------------------------------------------------------- POST error classification

  datatype ErrorResponse = ErrorResponse(status: nat, error: string)

  const NoCaptionsMessage: string := "This video has no captions available. Please try a different video."
  const VideoNotFoundMessage: string := "Video not found. It might be private or deleted."
  const ApiKeyMessage: string := "YouTube API is not properly configured. Please check your API key."
  const QuotaMessage: string := "YouTube API quota exceeded. Please try again later."
  const NetworkMessage: string := "Network error while fetching video data. Please check your internet connection."
  const ServerErrorMessage: string := "Server error while processing video. Please try again later."

  /** The fragments of a thrown error's message the POST handler looks for, in order. */
  const CaptionsFragment: string := "No captions available"
  const NotFoundFragment: string := "Video not found"
  const ApiKeyFragment: string := "API key"
  const QuotaFragment: string := "quota"
  const NetworkFragment: string := "network"

  /** The POST handler's `catch`: the first message fragment that matches decides. */
  function ClassifyError(message: string): (r: ErrorResponse)
    ensures var captions, missing, key, quota, network :=
              Includes(message, CaptionsFragment), Includes(message, NotFoundFragment),
              Includes(message, ApiKeyFragment), Includes(message, QuotaFragment), Includes(message, NetworkFragment);
            && (r.status == 400 <==> captions)
            && (r.status == 404 <==> !captions && missing)
            && (r.status == 429 <==> !captions && !missing && !key && quota)
            && (r.status == 503 <==> !captions && !missing && !key && !quota && network)
            && (r.status == 500 <==> !captions && !missing && (key || (!quota && !network)))
    ensures var captions, missing, key, quota, network :=
              Includes(message, CaptionsFragment), Includes(message, NotFoundFragment),
              Includes(message, ApiKeyFragment), Includes(message, QuotaFragment), Includes(message, NetworkFragment);
            && (captions ==> r.error == NoCaptionsMessage)
            && (!captions && missing ==> r.error == VideoNotFoundMessage)
            && (!captions && !missing && key ==> r.error == ApiKeyMessage)
            && (!captions && !missing && !key && quota ==> r.error == QuotaMessage)
            && (!captions && !missing && !key && !quota && network ==> r.error == NetworkMessage)
            && (!captions && !missing && !key && !quota && !network ==> r.error == ServerErrorMessage)
  {
    if Includes(message, CaptionsFragment) then
      ErrorResponse(400, NoCaptionsMessage)
    else if Includes(message, NotFoundFragment) then
      ErrorResponse(404, VideoNotFoundMessage)
    else if Includes(message, ApiKeyFragment) then
      ErrorResponse(500, ApiKeyMessage)
    else if Includes(message, QuotaFragment) then
      ErrorResponse(429, QuotaMessage)
    else if Includes(message, NetworkFragment) then
      ErrorResponse(503, NetworkMessage)
    else
      ErrorResponse(500, ServerErrorMessage)
  }
}
