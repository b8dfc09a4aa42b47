/**
 * The module-level logic of the AmpliPi media-player platform and the pieces
 * its four entity classes share: stream-name normalisation, the id codecs
 * that read numbers back out of labels, the image-URL resolver, the
 * playback-state mapping, first-match lookups over snapshot lists, and the
 * loops that search for a free source or list a group's enabled zones.
 *
 * `validators.url` is not modelled: every function that needs it takes it as
 * the parameter `isUrl`.
 */
module MediaPlayer {
  import opened Wrappers
  import opened Text
  import opened Device

  // ---------------------------------------------------------------------
  // Stream-name normalisation
  // ---------------------------------------------------------------------

  /** The substring that marks a name as already normalised. */
  const MARKER := "AmpliPi Stream"

  /** The prefix "AmpliPi Stream {id}: " given to a stream's display name. */
  function StreamTag(id: int): string
  {
    "AmpliPi Stream " + IntToString(id) + ": "
  }

  lemma MarkerStartsTag(id: int, name: string)
    ensures Contains(StreamTag(id) + name, MARKER)
  {
    var rest := " " + IntToString(id) + ": " + name;
    assert StreamTag(id) + name == MARKER + rest;
    PrefixContained(MARKER, rest);
  }

  /** One stream's name as the normaliser leaves it. */
  function NormalizeStream(s: Stream): (r: Stream)
    ensures r.id == s.id && r.kind == s.kind
    ensures Contains(r.name, MARKER)
    ensures Contains(s.name, MARKER) ==> r == s
    ensures !Contains(s.name, MARKER) ==> r.name == StreamTag(s.id) + s.name
  {
    if Contains(s.name, MARKER) then s
    else
      MarkerStartsTag(s.id, s.name);
      s.(name := StreamTag(s.id) + s.name)
  }

  /** Every name carries the marker, so normalising again changes nothing. */
  ghost predicate AllMarked(streams: seq<Stream>)
  {
    forall i :: 0 <= i < |streams| ==> Contains(streams[i].name, MARKER)
  }

  /** The list `process_stream_names` leaves behind: every stream normalised, in place. */
  function NormalizedStreams(streams: seq<Stream>): (r: seq<Stream>)
    ensures |r| == |streams|
    ensures forall i :: 0 <= i < |r| ==> r[i] == NormalizeStream(streams[i])
    ensures forall i :: 0 <= i < |r| ==> r[i].id == streams[i].id && r[i].kind == streams[i].kind
    ensures AllMarked(r)
  {
    seq(|streams|, i requires 0 <= i < |streams| => NormalizeStream(streams[i]))
  }

  /** Normalising a whole list twice is the same as normalising it once. */
  lemma NormalizedStreamsIdempotent(streams: seq<Stream>)
    ensures NormalizedStreams(NormalizedStreams(streams)) == NormalizedStreams(streams)
  {
    var once := NormalizedStreams(streams);
    forall i | 0 <= i < |once|
      ensures NormalizedStreams(once)[i] == once[i]
    {
      NormalizeIdempotent(streams[i]);
    }
  }

  /** `process_stream_names`: rename, in order, every stream whose name lacks the marker. */
  method ProcessStreamNames(streams: seq<Stream>) returns (r: seq<Stream>)
    ensures r == NormalizedStreams(streams)
    ensures forall i :: 0 <= i < |r| ==> r[i].id == streams[i].id && r[i].kind == streams[i].kind
    ensures AllMarked(streams) ==> r == streams
  {
    r := streams;
    for i := 0 to |streams|
      invariant |r| == |streams|
      invariant forall j :: 0 <= j < i ==> r[j] == NormalizeStream(streams[j])
      invariant forall j :: i <= j < |r| ==> r[j] == streams[j]
    {
      if !Contains(r[i].name, MARKER) {
        r := r[i := r[i].(name := StreamTag(r[i].id) + r[i].name)];
      }
    }
  }

  /** Normalising a name twice is the same as normalising it once. */
  lemma NormalizeIdempotent(s: Stream)
    ensures NormalizeStream(NormalizeStream(s)) == NormalizeStream(s)
  {
  }

  // ---------------------------------------------------------------------
  // Reading ids back out of labels
  // ---------------------------------------------------------------------

  /**
   * `extract_source_id_from_name`: the value of the first decimal digit of
   * the label, minus one; `None` where the label has no digit (IndexError).
   */
  function ExtractSourceId(text: string): (r: Option<int>)
    ensures r.None? <==> Digits(text) == []
    ensures r.Some? ==> -1 <= r.value <= 8
  {
    var d := Digits(text);
    if d == [] then None else Some(DigitValue(d[0]) - 1)
  }

  /** The result is decided by the first digit of the label and by nothing after it. */
  lemma ExtractSourceIdIsFirstDigit(text: string, k: nat)
    requires k < |text| && IsDigit(text[k])
    requires forall j :: 0 <= j < k ==> !IsDigit(text[j])
    ensures ExtractSourceId(text) == Some(DigitValue(text[k]) - 1)
  {
    DigitsHead(text, k);
  }

  /** A label raises exactly when it holds no decimal digit. */
  lemma ExtractSourceIdNeedsDigit(text: string)
    ensures ExtractSourceId(text).None? <==> forall i :: 0 <= i < |text| ==> !IsDigit(text[i])
  {
    if Digits(text) != [] {
      DigitsMembers(text, Digits(text)[0]);
    }
    if i :| 0 <= i < |text| && IsDigit(text[i]) {
      DigitsMembers(text, text[i]);
    }
  }

  /** The labels "Source 1".."Source n" the zone and stream entities offer. */
  function SourceLabel(n: int): string
  {
    "Source " + IntToString(n)
  }

  /** Selecting the label "Source n" addresses source n - 1, for the single-digit labels. */
  lemma SourceLabelRoundTrip(n: int)
    requires 1 <= n <= 9
    ensures ExtractSourceId(SourceLabel(n)) == Some(n - 1)
  {
    NatToStringShape(n);
    NoDigits("Source ");
    DigitsAppend("Source ", IntToString(n));
    DigitsOfDigits(IntToString(n));
  }

  lemma ExtractSourceIdExamples()
    ensures ExtractSourceId("Source 3") == Some(2)
    ensures ExtractSourceId("Source 12") == Some(0)
    ensures ExtractSourceId("None") == None
  {
    SourceLabelRoundTrip(3);
    assert SourceLabel(3) == "Source 3";
    var s12 := "Source 12";
    ExtractSourceIdIsFirstDigit(s12, 7);
    ExtractSourceIdNeedsDigit("None");
  }

  /** The `source_list` loop of the zone and stream entities: "Source 1", "Source 2", ... one per source. */
  method SourceLabels(sources: seq<Source>) returns (labels: seq<string>)
    ensures |labels| == |sources|
    ensures forall i :: 0 <= i < |labels| ==> labels[i] == SourceLabel(i + 1)
  {
    labels := [];
    var num := 1;
    for k := 0 to |sources|
      invariant |labels| == k && num == k + 1
      invariant forall i :: 0 <= i < k ==> labels[i] == SourceLabel(i + 1)
    {
      labels := labels + [SourceLabel(num)];
      num := num + 1;
    }
  }

  function Min(a: int, b: int): int
  {
    if a <= b then a else b
  }

  /**
   * `AmpliPiSource.process_stream_id`: the digits of a name, cut to four when
   * the first is 1 and to three when it is 9; `None` for any other leading
   * digit, and an error (IndexError) when there is no digit.
   */
  function ProcessStreamId(name: string): (r: Result<Option<string>, Error>)
    ensures r.Failure? <==> Digits(name) == []
    ensures r.Success? && r.value.Some? ==> IsPrefix(r.value.value, Digits(name))
    ensures r.Success? && r.value.Some? ==> |r.value.value| == Min(if Digits(name)[0] == '1' then 4 else 3, |Digits(name)|)
    ensures r.Success? ==> (r.value.None? <==> Digits(name)[0] != '1' && Digits(name)[0] != '9')
  {
    var d := Digits(name);
    if d == [] then Failure(NoDigit)
    else if d[0] == '1' then Success(Some(d[..Min(4, |d|)]))
    else if d[0] == '9' then Success(Some(d[..Min(3, |d|)]))
    else Success(None)
  }

  /** The fixed text of a stream tag holds no digit. */
  lemma TagTextHasNoDigits()
    ensures Digits("AmpliPi Stream ") == []
    ensures Digits(": ") == []
  {
    var t := "AmpliPi Stream ";
    assert forall i :: 0 <= i < |t| ==> !IsDigit(t[i]);
    NoDigits(t);
    NoDigits(": ");
  }

  /** A tagged name is the fixed text, the id's digits, ": " and the rest. */
  lemma TaggedNameParts(id: int, rest: string)
    ensures StreamTag(id) + rest == "AmpliPi Stream " + (IntToString(id) + (": " + rest))
  {
  }

  /** The digits of a tagged name are the id's digits followed by those of the rest. */
  lemma DigitsOfTagged(id: nat, rest: string)
    ensures Digits(StreamTag(id) + rest) == IntToString(id) + Digits(rest)
  {
    var x := IntToString(id);
    var b := ": " + rest;
    TaggedNameParts(id, rest);
    TagTextHasNoDigits();
    DigitsAppend(": ", rest);
    DigitsOfDigits(x);
    DigitsAppend(x, b);
    DigitsAppend("AmpliPi Stream ", x + b);
  }

  /** A name that starts with the tag of a stream id 900..1999 yields exactly that id. */
  lemma TaggedNameYieldsId(id: int, rest: string)
    requires 900 <= id <= 1999
    ensures ProcessStreamId(StreamTag(id) + rest) == Success(Some(IntToString(id)))
  {
    var x := IntToString(id);
    NatToStringShape(id);
    DigitsOfTagged(id, rest);
    var d := Digits(StreamTag(id) + rest);
    assert d[..|x|] == x;
  }

  /** Every well-tagged stream's name yields its own id. */
  lemma WellTaggedYieldsId(s: Stream)
    requires WellTagged(s)
    ensures ProcessStreamId(s.name) == Success(Some(IntToString(s.id)))
  {
    var tag := StreamTag(s.id);
    assert s.name == tag + s.name[|tag|..];
    TaggedNameYieldsId(s.id, s.name[|tag|..]);
  }

  /**
   * Normalisation and `process_stream_id` round-trip: the id the normaliser
   * writes into a fresh name is the id read back from it.
   */
  lemma NormalizedNameYieldsId(s: Stream)
    requires 900 <= s.id <= 1999
    requires !Contains(s.name, MARKER)
    ensures ProcessStreamId(NormalizeStream(s).name) == Success(Some(IntToString(s.id)))
  {
    TaggedNameYieldsId(s.id, s.name);
  }

  lemma Stream1001Digits()
    ensures IntToString(1001) == "1001"
  {
    assert NatToString(1) == "1";
    assert NatToString(10) == "10";
    assert NatToString(100) == "100";
  }

  lemma Stream996Digits()
    ensures IntToString(996) == "996"
  {
    assert NatToString(9) == "9";
    assert NatToString(99) == "99";
  }

  lemma ProcessStreamIdRadio()
    ensures ProcessStreamId("AmpliPi Stream 1001: Radio") == Success(Some("1001"))
  {
    TaggedNameYieldsId(1001, "Radio");
    Stream1001Digits();
    assert StreamTag(1001) + "Radio" == "AmpliPi Stream 1001: Radio";
  }

  lemma ProcessStreamIdInput()
    ensures ProcessStreamId("AmpliPi Stream 996: Input 1") == Success(Some("996"))
  {
    TaggedNameYieldsId(996, "Input 1");
    Stream996Digits();
    assert StreamTag(996) + "Input 1" == "AmpliPi Stream 996: Input 1";
  }

  lemma ProcessStreamIdNoDigit()
    ensures ProcessStreamId("Groove") == Failure(NoDigit)
  {
    NoDigits("Groove");
  }

  /**
   * The lookup got past the first `k` streams: each of their ids and the
   * label's were processed without raising, and none of them matched.
   */
  predicate ScannedPast(streams: seq<Stream>, text: string, k: nat)
    requires k <= |streams|
  {
    forall j :: 0 <= j < k ==>
      ProcessStreamId(streams[j].name).Success? && ProcessStreamId(text).Success? &&
      ProcessStreamId(streams[j].name) != ProcessStreamId(text)
  }

  /** Stream `k`'s processed id equals the label's, neither raising. */
  predicate MatchesAt(streams: seq<Stream>, text: string, k: nat)
    requires k < |streams|
  {
    ProcessStreamId(streams[k].name).Success? && ProcessStreamId(text).Success? &&
    ProcessStreamId(streams[k].name) == ProcessStreamId(text)
  }

  /** Processing stream `k`'s id, or the label's after it, raises. */
  predicate RaisesAt(streams: seq<Stream>, text: string, k: nat)
    requires k < |streams|
  {
    ProcessStreamId(streams[k].name).Failure? || ProcessStreamId(text).Failure?
  }

  /** A stream whose name carries its own tag, with an id in the range `process_stream_id` keeps whole. */
  predicate WellTagged(s: Stream)
  {
    900 <= s.id <= 1999 && IsPrefix(StreamTag(s.id), s.name)
  }

  /**
   * The stream lookup of `AmpliPiSource.async_select_source`: the first
   * stream whose processed id equals the label's. The stream's id is
   * processed before the label's, so an empty list never raises.
   */
  function MatchStream(streams: seq<Stream>, text: string): (r: Result<Option<Stream>, Error>)
    ensures forall k :: 0 <= k < |streams| && ScannedPast(streams, text, k) && MatchesAt(streams, text, k) ==>
      r == Success(Some(streams[k]))
    ensures forall k :: 0 <= k < |streams| && ScannedPast(streams, text, k) && RaisesAt(streams, text, k) ==>
      r == Failure(NoDigit)
    ensures ScannedPast(streams, text, |streams|) ==> r == Success(None)
    ensures r.Success? && r.value.Some? ==> r.value.value in streams
    ensures r.Success? && r.value.Some? ==> ProcessStreamId(r.value.value.name) == ProcessStreamId(text)
    ensures r.Success? && r.value.Some? ==> ProcessStreamId(text).Success?
    ensures r.Success? && r.value.None? ==>
      forall i :: 0 <= i < |streams| ==> ProcessStreamId(streams[i].name) != ProcessStreamId(text)
    ensures r.Failure? ==> r.error == NoDigit
    ensures streams == [] ==> r == Success(None)
    decreases |streams|
  {
    if streams == [] then Success(None)
    else match ProcessStreamId(streams[0].name)
      case Failure(e) => Failure(e)
      case Success(a) =>
        match ProcessStreamId(text)
        case Failure(e) => Failure(e)
        case Success(b) =>
          if a == b then Success(Some(streams[0]))
          else
            assert forall k :: 1 <= k <= |streams| ==>
              (ScannedPast(streams, text, k) <==> ScannedPast(streams[1..], text, k - 1));
            MatchStream(streams[1..], text)
  }

  /**
   * Selecting a stream's own name finds that stream, when every name is
   * tagged and no earlier stream has the same id.
   */
  lemma {:induction false} MatchStreamFindsOwnName(streams: seq<Stream>, k: nat)
    requires k < |streams|
    requires forall i :: 0 <= i < |streams| ==> WellTagged(streams[i])
    requires forall i :: 0 <= i < k ==> streams[i].id != streams[k].id
    ensures MatchStream(streams, streams[k].name) == Success(Some(streams[k]))
    decreases k
  {
    WellTaggedYieldsId(streams[k]);
    WellTaggedYieldsId(streams[0]);
    if k > 0 {
      if IntToString(streams[0].id) == IntToString(streams[k].id) {
        IntToStringInjective(streams[0].id, streams[k].id);
      }
      assert streams[1..][k - 1] == streams[k];
      MatchStreamFindsOwnName(streams[1..], k - 1);
    }
  }

  // ---------------------------------------------------------------------
  // Image URLs
  // ---------------------------------------------------------------------

  /**
   * `build_url`: keep a full URL, else try it as a path below the API base
   * path, else nothing.
   */
  function BuildUrl(isUrl: string -> bool, basePath: string, img: Option<string>): (r: Option<string>)
    ensures r.Some? ==> isUrl(r.value)
    ensures img.None? ==> r.None?
    ensures img.Some? && isUrl(img.value) ==> r == img
    ensures img.Some? && !isUrl(img.value) ==>
      r == (if isUrl(basePath + "/" + img.value) then Some(basePath + "/" + img.value) else None)
  {
    match img
    case None => None
    case Some(u) =>
      if isUrl(u) then img
      else
        var joined := basePath + "/" + u;
        if isUrl(joined) then Some(joined) else None
  }

  /** Resolving a resolved URL again leaves it as it is. */
  lemma BuildUrlIdempotent(isUrl: string -> bool, basePath: string, img: Option<string>)
    ensures BuildUrl(isUrl, basePath, BuildUrl(isUrl, basePath, img)) == BuildUrl(isUrl, basePath, img)
  {
  }

  // ---------------------------------------------------------------------
  // Playback state
  // ---------------------------------------------------------------------

  /**
   * The `state` property's tests on `info.state`. The source writes them as
   * `x in ('paused')`, which is a substring test on the string "paused", so
   * every substring of "paused" (the empty one too) reads as paused.
   */
  function PlaybackState(reported: string): (r: PlayerState)
    ensures r != Unknown
    ensures r == Paused <==> Contains("paused", reported)
    ensures r == Playing <==> !Contains("paused", reported) && Contains("playing", reported)
  {
    if Contains("paused", reported) then Paused
    else if Contains("playing", reported) then Playing
    else Idle
  }

  lemma PlaybackStateExamples()
    ensures PlaybackState("paused") == Paused
    ensures PlaybackState("") == Paused
    ensures PlaybackState("pause") == Paused
    ensures PlaybackState("playing") == Playing
    ensures PlaybackState("play") == Playing
    ensures PlaybackState("stopped") == Idle
  {
    assert IsPrefix("pause", "paused");
    assert IsPrefix("play", "playing");
    LongerNotContained("paused", "playing");
    LongerNotContained("paused", "stopped");
    LongerNotContained("laying", "stopped");
    assert "playing"[..7][0] != "stopped"[0];
    assert !IsPrefix("stopped", "playing");
    assert "laying" == "playing"[1..];
    assert "paused"[..4][1] != "play"[1];
    assert "aused" == "paused"[1..];
    assert "aused"[..4][0] != "play"[0];
    assert "used" == "aused"[1..];
    assert "used"[..4][0] != "play"[0];
    assert "sed" == "used"[1..];
    LongerNotContained("sed", "play");
  }

  /** The state an entity shows once its last update succeeded. */
  function InfoState(info: Option<SourceInfo>): (r: PlayerState)
    ensures r != Unknown
    ensures info.None? || info.value.state.None? ==> r == Idle
    ensures info.Some? && info.value.state.Some? ==> r == PlaybackState(info.value.state.value)
  {
    if info.None? || info.value.state.None? then Idle else PlaybackState(info.value.state.value)
  }

  // ---------------------------------------------------------------------
  // A source's input descriptor
  // ---------------------------------------------------------------------

  /** The input descriptor that attaches stream `id` to a source. */
  function StreamInput(id: int): string
  {
    "stream=" + IntToString(id)
  }

  datatype StreamRef = NotStream | StreamId(id: int) | Malformed

  /**
   * How `sync_state` reads an input descriptor: "stream=<n>" (but not
   * "stream=local") names stream n; `int` raising on the text after the
   * first '=' is `Malformed`.
   */
  function InputStreamRef(input: string): (r: StreamRef)
    ensures r.NotStream? <==> !Contains(input, "stream=") || Contains(input, "stream=local")
  {
    if Contains(input, "stream=") && !Contains(input, "stream=local") then
      assert "stream="[6] == '=';
      ContainsKeepsChars(input, "stream=", '=');
      match ParseInt(SplitSecond(input, '='))
      case Some(n) => StreamId(n)
      case None => Malformed
    else NotStream
  }

  /** The descriptor a stream selection writes is read back as that stream. */
  lemma StreamInputRoundTrip(id: int)
    ensures InputStreamRef(StreamInput(id)) == StreamId(id)
  {
    var x := IntToString(id);
    var s := StreamInput(id);
    PrefixContained("stream=", x);
    if Contains(s, "stream=local") {
      assert "stream=local"[7] == 'l';
      ContainsKeepsChars(s, "stream=local", 'l');
      assert false;
    }
    var i := IndexOf(s, '=');
    assert s[6] == '=';
    assert i == 6;
    assert s[i + 1..] == x;
    assert forall j :: 0 <= j < |x| ==> IsNumeral(x[j]);
    assert '=' !in x;
    assert IndexOf(x, '=') == |x|;
    assert SplitSecond(s, '=') == x;
    IntToStringRoundTrip(id);
  }

  lemma InputStreamRefExamples()
    ensures InputStreamRef("local") == NotStream
    ensures InputStreamRef("stream=local") == NotStream
    ensures InputStreamRef("None") == NotStream
  {
    LongerNotContained("local", "stream=");
    LongerNotContained("None", "stream=");
    PrefixContained("stream=local", "");
    assert "stream=local" + "" == "stream=local";
  }

  // ---------------------------------------------------------------------
  // First-match lookups: `next(filter(p, xs), None)` and `list(filter(p, xs))`
  // ---------------------------------------------------------------------

  /** Index of the first element satisfying `p`. */
  function FindFirst<T>(s: seq<T>, p: T -> bool): (r: Option<nat>)
    ensures r.Some? ==> r.value < |s| && p(s[r.value])
    ensures r.Some? ==> forall j :: 0 <= j < r.value ==> !p(s[j])
    ensures r.None? <==> forall j :: 0 <= j < |s| ==> !p(s[j])
    decreases |s|
  {
    if s == [] then None
    else if p(s[0]) then Some(0)
    else
      match FindFirst(s[1..], p)
      case None => None
      case Some(k) => Some(k + 1)
  }

  /** `next(filter(p, s), None)`. */
  function NextMatch<T>(s: seq<T>, p: T -> bool): (r: Option<T>)
    ensures r.None? <==> forall j :: 0 <= j < |s| ==> !p(s[j])
    ensures forall k :: 0 <= k < |s| && p(s[k]) && (forall j :: 0 <= j < k ==> !p(s[j])) ==> r == Some(s[k])
  {
    match FindFirst(s, p)
    case None => None
    case Some(k) => Some(s[k])
  }

  function LookupSource(sources: seq<Source>, id: int): Option<Source>
  {
    NextMatch(sources, (s: Source) => s.id == id)
  }

  function LookupOptSource(sources: seq<Source>, id: Option<int>): Option<Source>
  {
    NextMatch(sources, (s: Source) => id == Some(s.id))
  }

  function LookupZone(zones: seq<Zone>, id: int): Option<Zone>
  {
    NextMatch(zones, (z: Zone) => z.id == id)
  }

  function LookupGroup(groups: seq<Group>, id: int): Option<Group>
  {
    NextMatch(groups, (g: Group) => g.id == id)
  }

  function LookupStream(streams: seq<Stream>, id: int): Option<Stream>
  {
    NextMatch(streams, (s: Stream) => s.id == id)
  }

  /** No source before `sources[k]` is fed by the stream. */
  predicate FirstFedAt(sources: seq<Source>, streamId: int, k: nat)
    requires k <= |sources|
  {
    forall j :: 0 <= j < k ==> sources[j].input != StreamInput(streamId)
  }

  /** The stream entity's reverse lookup: the first source whose input is "stream=<id>". */
  function SourceFeeding(sources: seq<Source>, streamId: int): (r: Option<Source>)
    ensures r.None? <==> forall i :: 0 <= i < |sources| ==> sources[i].input != StreamInput(streamId)
    ensures r.Some? ==> r.value in sources && r.value.input == StreamInput(streamId)
    ensures forall k :: 0 <= k < |sources| && sources[k].input == StreamInput(streamId) && FirstFedAt(sources, streamId, k) ==>
      r == Some(sources[k])
  {
    NextMatch(sources, (s: Source) => s.input == StreamInput(streamId))
  }

  /** `list(filter(lambda z: z.source_id == sourceId, zones))`: the zones a source feeds, in order. */
  function ZonesOf(zones: seq<Zone>, sourceId: int): (r: seq<Zone>)
    ensures |r| <= |zones|
    ensures forall z :: z in r <==> z in zones && z.sourceId == Some(sourceId)
    decreases |zones|
  {
    if zones == [] then []
    else
      var last := zones[|zones| - 1];
      ZonesOf(zones[..|zones| - 1], sourceId) + (if last.sourceId == Some(sourceId) then [last] else [])
  }

  /** The same for groups. */
  function GroupsOf(groups: seq<Group>, sourceId: int): (r: seq<Group>)
    ensures |r| <= |groups|
    ensures forall g :: g in r <==> g in groups && g.sourceId == Some(sourceId)
    decreases |groups|
  {
    if groups == [] then []
    else
      var last := groups[|groups| - 1];
      GroupsOf(groups[..|groups| - 1], sourceId) + (if last.sourceId == Some(sourceId) then [last] else [])
  }

  /** Filtering a concatenation filters each part, keeping their order. */
  lemma {:induction false} ZonesOfAppend(a: seq<Zone>, b: seq<Zone>, sourceId: int)
    ensures ZonesOf(a + b, sourceId) == ZonesOf(a, sourceId) + ZonesOf(b, sourceId)
    decreases |b|
  {
    if b == [] {
      assert a + b == a;
    } else {
      var init := b[..|b| - 1];
      assert (a + b)[..|a + b| - 1] == a + init;
      ZonesOfAppend(a, init, sourceId);
    }
  }

  /** A single zone is kept exactly when the source feeds it. */
  lemma ZonesOfSingle(z: Zone, sourceId: int)
    ensures ZonesOf([z], sourceId) == if z.sourceId == Some(sourceId) then [z] else []
  {
    assert [z][..0] == [];
  }

  /** Filtering a concatenation filters each part, keeping their order. */
  lemma {:induction false} GroupsOfAppend(a: seq<Group>, b: seq<Group>, sourceId: int)
    ensures GroupsOf(a + b, sourceId) == GroupsOf(a, sourceId) + GroupsOf(b, sourceId)
    decreases |b|
  {
    if b == [] {
      assert a + b == a;
    } else {
      var init := b[..|b| - 1];
      assert (a + b)[..|a + b| - 1] == a + init;
      GroupsOfAppend(a, init, sourceId);
    }
  }

  /** A single group is kept exactly when the source feeds it. */
  lemma GroupsOfSingle(g: Group, sourceId: int)
    ensures GroupsOf([g], sourceId) == if g.sourceId == Some(sourceId) then [g] else []
  {
    assert [g][..0] == [];
  }

  /** The stream entity's loop that appends every zone fed by the source. */
  method CollectZones(zones: seq<Zone>, sourceId: int) returns (r: seq<Zone>)
    ensures r == ZonesOf(zones, sourceId)
  {
    r := [];
    for i := 0 to |zones|
      invariant r == ZonesOf(zones[..i], sourceId)
    {
      assert zones[..i + 1][..i] == zones[..i];
      if zones[i].sourceId == Some(sourceId) {
        r := r + [zones[i]];
      }
    }
    assert zones[..|zones|] == zones;
  }

  /** The stream entity's loop that appends every group fed by the source. */
  method CollectGroups(groups: seq<Group>, sourceId: int) returns (r: seq<Group>)
    ensures r == GroupsOf(groups, sourceId)
  {
    r := [];
    for i := 0 to |groups|
      invariant r == GroupsOf(groups[..i], sourceId)
    {
      assert groups[..i + 1][..i] == groups[..i];
      if groups[i].sourceId == Some(sourceId) {
        r := r + [groups[i]];
      }
    }
    assert groups[..|groups|] == groups;
  }

  /** No stream before `streams[k]` has its id. */
  predicate FirstWithId(streams: seq<Stream>, k: nat)
    requires k < |streams|
  {
    forall j :: 0 <= j < k ==> streams[j].id != streams[k].id
  }

  /** The current stream a source's input names, looked up in `streams`. */
  function StreamForInput(input: string, streams: seq<Stream>): (r: Option<Stream>)
    ensures r.Some? ==> r.value in streams && InputStreamRef(input) == StreamId(r.value.id)
    ensures r.None? <==>
      !InputStreamRef(input).StreamId? || forall i :: 0 <= i < |streams| ==> streams[i].id != InputStreamRef(input).id
    ensures InputStreamRef(input).StreamId? ==>
      forall k :: 0 <= k < |streams| && streams[k].id == InputStreamRef(input).id && FirstWithId(streams, k) ==>
        r == Some(streams[k])
  {
    match InputStreamRef(input)
    case StreamId(sid) => LookupStream(streams, sid)
    case _ => None
  }

  /**
   * Selecting a stream writes "stream=<id>" into the source; the next
   * `sync_state` reads it back as that same stream, when no earlier stream
   * in the list shares its id.
   */
  lemma SelectedStreamIsCurrent(streams: seq<Stream>, k: nat)
    requires k < |streams|
    requires forall i :: 0 <= i < k ==> streams[i].id != streams[k].id
    ensures StreamForInput(StreamInput(streams[k].id), streams) == Some(streams[k])
  {
    StreamInputRoundTrip(streams[k].id);
  }

  function GroupIds(groups: seq<Group>): (r: seq<int>)
    ensures |r| == |groups| && forall i :: 0 <= i < |r| ==> r[i] == groups[i].id
  {
    seq(|groups|, i requires 0 <= i < |groups| => groups[i].id)
  }

  function ZoneIds(zones: seq<Zone>): (r: seq<int>)
    ensures |r| == |zones| && forall i :: 0 <= i < |r| ==> r[i] == zones[i].id
  {
    seq(|zones|, i requires 0 <= i < |zones| => zones[i].id)
  }

  /** The first group that reports a volume, then the first zone, as the source and stream entities read it. */
  function FirstVolume(groups: seq<Group>, zones: seq<Zone>): (r: Option<real>)
    ensures r.None? <==> (forall i :: 0 <= i < |groups| ==> groups[i].vol.None?) && (forall i :: 0 <= i < |zones| ==> zones[i].vol.None?)
    ensures forall i :: 0 <= i < |groups| && groups[i].vol.Some? && (forall j :: 0 <= j < i ==> groups[j].vol.None?) ==> r == groups[i].vol
    ensures (forall i :: 0 <= i < |groups| ==> groups[i].vol.None?) ==>
      forall i :: 0 <= i < |zones| && zones[i].vol.Some? && (forall j :: 0 <= j < i ==> zones[j].vol.None?) ==> r == zones[i].vol
  {
    match NextMatch(groups, (g: Group) => g.vol.Some?)
    case Some(g) => g.vol
    case None =>
      match NextMatch(zones, (z: Zone) => z.vol.Some?)
      case Some(z) => z.vol
      case None => None
  }

  /** Index of the first group that reports a volume: the record `async_set_volume_level` writes. */
  function FirstGroupWithVolume(groups: seq<Group>): (r: Option<nat>)
    ensures r.Some? ==> r.value < |groups| && groups[r.value].vol.Some?
    ensures r.Some? ==> forall j :: 0 <= j < r.value ==> groups[j].vol.None?
    ensures r.None? <==> forall j :: 0 <= j < |groups| ==> groups[j].vol.None?
    decreases |groups|
  {
    if groups == [] then None
    else if groups[0].vol.Some? then Some(0)
    else
      match FirstGroupWithVolume(groups[1..])
      case None => None
      case Some(k) => Some(k + 1)
  }

  /** Index of the first zone that reports a volume. */
  function FirstZoneWithVolume(zones: seq<Zone>): (r: Option<nat>)
    ensures r.Some? ==> r.value < |zones| && zones[r.value].vol.Some?
    ensures r.Some? ==> forall j :: 0 <= j < r.value ==> zones[j].vol.None?
    ensures r.None? <==> forall j :: 0 <= j < |zones| ==> zones[j].vol.None?
    decreases |zones|
  {
    if zones == [] then None
    else if zones[0].vol.Some? then Some(0)
    else
      match FirstZoneWithVolume(zones[1..])
      case None => None
      case Some(k) => Some(k + 1)
  }

  /** Writing a volume into the first group that reports one makes it the volume read back. */
  lemma FirstVolumeAfterGroupWrite(groups: seq<Group>, zones: seq<Zone>, v: real)
    requires FirstGroupWithVolume(groups).Some?
    ensures var k := FirstGroupWithVolume(groups).value;
      FirstVolume(groups[k := groups[k].(vol := Some(v))], zones) == Some(v)
  {
    var k := FirstGroupWithVolume(groups).value;
    var written := groups[k := groups[k].(vol := Some(v))];
    assert k < |written| && written[k].vol == Some(v);
    assert forall j :: 0 <= j < k ==> written[j] == groups[j];
    assert forall j :: 0 <= j < k ==> written[j].vol.None?;
    assert FirstVolume(written, zones) == written[k].vol;
  }

  /** With no group reporting a volume, writing into the first such zone makes it the volume read back. */
  lemma FirstVolumeAfterZoneWrite(groups: seq<Group>, zones: seq<Zone>, v: real)
    requires FirstGroupWithVolume(groups).None? && FirstZoneWithVolume(zones).Some?
    ensures var k := FirstZoneWithVolume(zones).value;
      FirstVolume(groups, zones[k := zones[k].(vol := Some(v))]) == Some(v)
  {
    var k := FirstZoneWithVolume(zones).value;
    var written := zones[k := zones[k].(vol := Some(v))];
    assert k < |written| && written[k].vol == Some(v);
    assert forall j :: 0 <= j < k ==> written[j] == zones[j];
    assert forall j :: 0 <= j < k ==> written[j].vol.None?;
    assert FirstVolume(groups, written) == written[k].vol;
  }

  /** The same priority for the mute flag. */
  function FirstMute(groups: seq<Group>, zones: seq<Zone>): (r: Option<bool>)
    ensures r.None? <==> (forall i :: 0 <= i < |groups| ==> groups[i].mute.None?) && (forall i :: 0 <= i < |zones| ==> zones[i].mute.None?)
    ensures forall i :: 0 <= i < |groups| && groups[i].mute.Some? && (forall j :: 0 <= j < i ==> groups[j].mute.None?) ==> r == groups[i].mute
    ensures (forall i :: 0 <= i < |groups| ==> groups[i].mute.None?) ==>
      forall i :: 0 <= i < |zones| && zones[i].mute.Some? && (forall j :: 0 <= j < i ==> zones[j].mute.None?) ==> r == zones[i].mute
  {
    match NextMatch(groups, (g: Group) => g.mute.Some?)
    case Some(g) => g.mute
    case None =>
      match NextMatch(zones, (z: Zone) => z.mute.Some?)
      case Some(z) => z.mute
      case None => None
  }

  // ---------------------------------------------------------------------
  // Free sources
  // ---------------------------------------------------------------------

  /** An input nothing is routed to. */
  predicate IsFreeInput(input: string)
  {
    input == "" || input == "None"
  }

  /** Some source's input is free. */
  predicate HasFreeSource(sources: seq<Source>)
  {
    exists i :: 0 <= i < |sources| && IsFreeInput(sources[i].input)
  }

  /** `sources[k]` is free and no later source is. */
  ghost predicate LastFreeAt(sources: seq<Source>, k: int)
  {
    0 <= k < |sources| && IsFreeInput(sources[k].input)
    && forall j :: k < j < |sources| ==> !IsFreeInput(sources[j].input)
  }

  /**
   * The free-source search of `find_source` and the zone's `async_play_media`.
   * The loop never breaks, so it ends on the LAST free source.
   */
  method LastFreeSource(sources: seq<Source>) returns (r: Option<Source>)
    ensures r.None? <==> forall i :: 0 <= i < |sources| ==> !IsFreeInput(sources[i].input)
    ensures r.Some? ==> exists k :: LastFreeAt(sources, k) && sources[k] == r.value
  {
    r := None;
    ghost var at := 0;
    for i := 0 to |sources|
      invariant r.None? <==> forall j :: 0 <= j < i ==> !IsFreeInput(sources[j].input)
      invariant r.Some? ==> LastFreeAt(sources[..i], at) && sources[at] == r.value
    {
      if IsFreeInput(sources[i].input) {
        r := Some(sources[i]);
        at := i;
      }
    }
    assert sources[..|sources|] == sources;
  }

  // ---------------------------------------------------------------------
  // Group membership
  // ---------------------------------------------------------------------

  /** Zone record `z` is member `zoneId` of a group and is enabled. */
  predicate IsEnabledMember(zoneId: int, z: Zone)
  {
    z.id == zoneId && !z.disabled
  }

  /** One `zoneId` for every enabled snapshot zone with that id, in snapshot order. */
  function EnabledCopies(zoneId: int, zones: seq<Zone>): (r: seq<int>)
    ensures |r| <= |zones|
    ensures forall i :: 0 <= i < |r| ==> r[i] == zoneId
    decreases |zones|
  {
    if zones == [] then []
    else
      EnabledCopies(zoneId, zones[..|zones| - 1])
      + (if IsEnabledMember(zoneId, zones[|zones| - 1]) then [zoneId] else [])
  }

  /** The `amplipi_zones` list of a group: its member ids that are enabled zones, in member order. */
  function EnabledMembers(memberIds: seq<int>, zones: seq<Zone>): (r: seq<int>)
    ensures forall i :: 0 <= i < |r| ==> r[i] in memberIds
    decreases |memberIds|
  {
    if memberIds == [] then []
    else EnabledMembers(memberIds[..|memberIds| - 1], zones) + EnabledCopies(memberIds[|memberIds| - 1], zones)
  }

  /** Some member of the group is an enabled zone of the snapshot. */
  ghost predicate MemberEnabled(memberIds: seq<int>, zones: seq<Zone>)
  {
    exists i, j :: 0 <= i < |memberIds| && 0 <= j < |zones| && IsEnabledMember(memberIds[i], zones[j])
  }

  lemma {:induction false} EnabledCopiesSpec(zoneId: int, zones: seq<Zone>, x: int)
    ensures x in EnabledCopies(zoneId, zones) <==>
      x == zoneId && exists j :: 0 <= j < |zones| && IsEnabledMember(zoneId, zones[j])
    decreases |zones|
  {
    if zones != [] {
      var init := zones[..|zones| - 1];
      EnabledCopiesSpec(zoneId, init, x);
      if j :| 0 <= j < |init| && IsEnabledMember(zoneId, init[j]) {
        assert zones[j] == init[j];
      }
      if j :| 0 <= j < |zones| && IsEnabledMember(zoneId, zones[j]) {
        if j < |init| {
          assert init[j] == zones[j];
        }
      }
    }
  }

  /** An id is listed exactly when it is a member id and an enabled zone of the snapshot has it. */
  lemma {:induction false} EnabledMembersSpec(memberIds: seq<int>, zones: seq<Zone>, x: int)
    ensures x in EnabledMembers(memberIds, zones) <==>
      x in memberIds && exists j :: 0 <= j < |zones| && IsEnabledMember(x, zones[j])
    decreases |memberIds|
  {
    if memberIds != [] {
      var init := memberIds[..|memberIds| - 1];
      var last := memberIds[|memberIds| - 1];
      EnabledMembersSpec(init, zones, x);
      EnabledCopiesSpec(last, zones, x);
      assert memberIds == init + [last];
    }
  }

  /** A group's enabled-zone list is non-empty exactly when some member is enabled. */
  lemma EnabledMembersNonEmpty(memberIds: seq<int>, zones: seq<Zone>)
    ensures EnabledMembers(memberIds, zones) != [] <==> MemberEnabled(memberIds, zones)
  {
    var e := EnabledMembers(memberIds, zones);
    if e != [] {
      EnabledMembersSpec(memberIds, zones, e[0]);
      var j :| 0 <= j < |zones| && IsEnabledMember(e[0], zones[j]);
      var i :| 0 <= i < |memberIds| && memberIds[i] == e[0];
      assert IsEnabledMember(memberIds[i], zones[j]);
    }
    if MemberEnabled(memberIds, zones) {
      var i, j :| 0 <= i < |memberIds| && 0 <= j < |zones| && IsEnabledMember(memberIds[i], zones[j]);
      EnabledMembersSpec(memberIds, zones, memberIds[i]);
    }
  }

  /** `_get_extra_attributes` for a group: the nested loop that lists the enabled member zones. */
  method EnabledMemberIds(memberIds: seq<int>, zones: seq<Zone>) returns (ids: seq<int>)
    ensures ids == EnabledMembers(memberIds, zones)
  {
    ids := [];
    for i := 0 to |memberIds|
      invariant ids == EnabledMembers(memberIds[..i], zones)
    {
      for j := 0 to |zones|
        invariant ids == EnabledMembers(memberIds[..i], zones) + EnabledCopies(memberIds[i], zones[..j])
      {
        assert zones[..j + 1][..j] == zones[..j];
        if IsEnabledMember(memberIds[i], zones[j]) {
          ids := ids + [memberIds[i]];
        }
      }
      assert zones[..|zones|] == zones;
      assert memberIds[..i + 1][..i] == memberIds[..i];
    }
    assert memberIds[..|memberIds|] == memberIds;
  }

  /** `_update_available` for a group: the nested loop that stops at the first enabled member. */
  method AnyMemberEnabled(memberIds: seq<int>, zones: seq<Zone>) returns (b: bool)
    ensures b <==> MemberEnabled(memberIds, zones)
  {
    for i := 0 to |memberIds|
      invariant forall i', j :: 0 <= i' < i && 0 <= j < |zones| ==> !IsEnabledMember(memberIds[i'], zones[j])
    {
      for j := 0 to |zones|
        invariant forall j' :: 0 <= j' < j ==> !IsEnabledMember(memberIds[i], zones[j'])
      {
        if IsEnabledMember(memberIds[i], zones[j]) {
          return true;
        }
      }
    }
    return false;
  }

  /** The group entity's `enabled`: some snapshot zone is a member (its disabled flag is not read). */
  function AnyMemberPresent(memberIds: seq<int>, zones: seq<Zone>): (r: bool)
    ensures r <==> exists j :: 0 <= j < |zones| && zones[j].id in memberIds
  {
    NextMatch(zones, (z: Zone) => z.id in memberIds).Some?
  }

  // ---------------------------------------------------------------------
  // Media attributes and extra state attributes
  // ---------------------------------------------------------------------

  /** The `_attr_media_*` and `_attr_app_name` values an entity shows. */
  datatype Media = Media(
    albumArtist: Option<string>,
    albumName: Option<string>,
    title: Option<string>,
    track: Option<string>,
    appName: Option<string>,
    imageUrl: Option<string>,
    channel: Option<string>)

  const NO_MEDIA := Media(None, None, None, None, None, None, None)

  /** The source entity's media attributes: the title falls back to the info name, the app name is the stream type. */
  function SourceMedia(info: Option<SourceInfo>, current: Option<Stream>, basePath: string, isUrl: string -> bool): (m: Media)
    ensures info.None? ==> m == NO_MEDIA
    ensures m.imageUrl.Some? ==> isUrl(m.imageUrl.value)
    ensures info.Some? ==> m.title == (if info.value.track.Some? then info.value.track else info.value.name)
    ensures info.Some? ==> m.imageUrl == BuildUrl(isUrl, basePath, info.value.imgUrl)
    ensures info.Some? ==> m.albumArtist == info.value.artist && m.albumName == info.value.album
    ensures info.Some? ==> m.channel == info.value.station && m.track == info.value.track
    ensures info.Some? ==> m.appName == (if current.Some? then Some(current.value.kind) else None)
  {
    match info
    case None => NO_MEDIA
    case Some(i) =>
      Media(i.artist, i.album, if i.track.Some? then i.track else i.name, i.track,
            if current.Some? then Some(current.value.kind) else None,
            BuildUrl(isUrl, basePath, i.imgUrl), i.station)
  }

  /** The zone and stream entities' media attributes: the title is the info name; no app name. */
  function PlayerMedia(info: Option<SourceInfo>, basePath: string, isUrl: string -> bool): (m: Media)
    ensures info.None? ==> m == NO_MEDIA
    ensures m.imageUrl.Some? ==> isUrl(m.imageUrl.value)
    ensures m.appName.None?
    ensures info.Some? ==> m.title == info.value.name && m.track == info.value.track
    ensures info.Some? ==> m.imageUrl == BuildUrl(isUrl, basePath, info.value.imgUrl)
    ensures info.Some? ==> m.albumArtist == info.value.artist && m.albumName == info.value.album
    ensures info.Some? ==> m.channel == info.value.station
  {
    match info
    case None => NO_MEDIA
    case Some(i) => Media(i.artist, i.album, i.name, i.track, None, BuildUrl(isUrl, basePath, i.imgUrl), i.station)
  }

  /** An entity's `extra_state_attributes`; `NoExtras` is the initial empty list. */
  datatype Extras =
    | NoExtras
    | MemberZones(zoneIds: seq<int>)
    | ZoneIdAttr(zoneId: int)
    | SourceIdAttr(sourceId: Option<int>)

  // ---------------------------------------------------------------------
  // The source entity's stream list
  // ---------------------------------------------------------------------

  /** A stream a source offers: every stream with id 1000 or more, and the source's own RCA input stream. */
  predicate Offered(s: Stream, sourceId: int)
  {
    s.id >= 1000 || s.id - 996 == sourceId
  }

  /** The names of the offered streams, in order. */
  function OfferedNames(streams: seq<Stream>, sourceId: int): (r: seq<string>)
    ensures |r| <= |streams|
    ensures forall i :: 0 <= i < |streams| && Offered(streams[i], sourceId) ==> streams[i].name in r
    ensures forall n :: n in r ==> exists i :: 0 <= i < |streams| && Offered(streams[i], sourceId) && streams[i].name == n
    decreases |streams|
  {
    if streams == [] then []
    else
      var rest := OfferedNames(streams[1..], sourceId);
      assert forall i :: 1 <= i < |streams| ==> streams[i] == streams[1..][i - 1];
      (if Offered(streams[0], sourceId) then [streams[0].name] else []) + rest
  }

  /** The names of a concatenation are the names of each part, in order. */
  lemma {:induction false} OfferedNamesAppend(a: seq<Stream>, b: seq<Stream>, sourceId: int)
    ensures OfferedNames(a + b, sourceId) == OfferedNames(a, sourceId) + OfferedNames(b, sourceId)
    decreases |a|
  {
    if a == [] {
      assert a + b == b;
    } else {
      assert (a + b)[0] == a[0];
      assert (a + b)[1..] == a[1..] + b;
      OfferedNamesAppend(a[1..], b, sourceId);
    }
  }

  /** A single stream contributes its name exactly when the source offers it. */
  lemma OfferedNamesSingle(s: Stream, sourceId: int)
    ensures OfferedNames([s], sourceId) == if Offered(s, sourceId) then [s.name] else []
  {
    assert [s][1..] == [];
  }

  // ---------------------------------------------------------------------
  // Entity ids used when migrating registry entries
  // ---------------------------------------------------------------------

  /** An entity id holds no space and no upper-case ASCII letter. */
  predicate IsEntityId(id: string)
  {
    forall i :: 0 <= i < |id| ==> id[i] != ' ' && !('A' <= id[i] <= 'Z')
  }

  /** `media_player.amplipi_zone_` followed by the slug of the zone's name. */
  function ZoneEntityId(name: string): (r: string)
    ensures IsEntityId(r) && IsPrefix("media_player.amplipi_zone_", r)
    ensures |r| == |"media_player.amplipi_zone_"| + |name|
    ensures r[|"media_player.amplipi_zone_"|..] == Slug(name)
  {
    "media_player.amplipi_zone_" + Slug(name)
  }

  /** `media_player.amplipi_group_` followed by the slug of the group's name. */
  function GroupEntityId(name: string): (r: string)
    ensures IsEntityId(r) && IsPrefix("media_player.amplipi_group_", r)
    ensures |r| == |"media_player.amplipi_group_"| + |name|
    ensures r[|"media_player.amplipi_group_"|..] == Slug(name)
  {
    "media_player.amplipi_group_" + Slug(name)
  }

  /**
   * `media_player.amplipi_stream_`, the stream's id, `_`, then the slug of
   * its name: the id part reads back as the id.
   */
  function StreamEntityId(id: int, name: string): (r: string)
    ensures IsEntityId(r) && IsPrefix("media_player.amplipi_stream_", r)
    ensures |r| == |"media_player.amplipi_stream_"| + |IntToString(id)| + 1 + |name|
    ensures ParseInt(r[|"media_player.amplipi_stream_"|..|r| - |name| - 1]) == Some(id)
    ensures r[|r| - |name| - 1] == '_'
    ensures r[|r| - |name|..] == Slug(name)
  {
    var prefix := "media_player.amplipi_stream_";
    var r := prefix + IntToString(id) + "_" + Slug(name);
    assert r[|prefix|..|r| - |name| - 1] == IntToString(id);
    IntToStringRoundTrip(id);
    r
  }

  /** Two display names that differ only in spaces versus underscores or in ASCII case share an entity id. */
  lemma SlugMergesCaseAndSpaces()
    ensures ZoneEntityId("Living Room") == ZoneEntityId("living_room")
  {
    assert Slug("Living Room") == "living_room";
    assert Slug("living_room") == "living_room";
  }
}
