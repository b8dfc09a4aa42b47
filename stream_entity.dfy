/**
 * `AmpliPiStream`: the media-player entity for one stream. Its source is
 * found by reverse lookup, the first source whose input is "stream=<id>";
 * the zones and groups that source feeds give its volume and mute flag.
 */
module StreamEntity {
  import opened Wrappers
  import opened Text
  import opened Device
  import opened MediaPlayer

  /** Everything a poll of a stream entity syncs, apart from its success flag. */
  datatype StreamCache = StreamCache(
    stream: Stream,
    sources: seq<Source>,
    currentSource: Option<Source>,
    currentZones: seq<Zone>,
    currentGroups: seq<Group>,
    media: Media)

  class AmpliPiStream {
    const id: int
    /** The display name, normalised when the entity is built and never updated. */
    const name: string
    const basePath: string
    const isUrl: string -> bool

    var stream: Stream
    var sources: seq<Source>
    var currentSource: Option<Source>
    var currentZones: seq<Zone>
    var currentGroups: seq<Group>
    var lastUpdateSuccessful: bool
    var available: bool
    var extras: Extras
    var media: Media

    /** The cached stream record carries the marker. */
    ghost predicate Valid()
      reads this
    {
      Contains(stream.name, MARKER)
    }

    ghost function Cache(): StreamCache
      reads this
    {
      StreamCache(stream, sources, currentSource, currentZones, currentGroups, media)
    }

    /**
     * The entity built for a stream record. `process_stream_names` renames the
     * record in place before `_name` is read, so the name is the normalised one.
     */
    constructor (s: Stream, sources: seq<Source>, basePath: string, isUrl: string -> bool)
      ensures Valid()
      ensures id == s.id && stream == NormalizeStream(s) && name == NormalizeStream(s).name
      ensures this.sources == sources && currentSource.None? && currentZones == [] && currentGroups == []
      ensures !lastUpdateSuccessful && !available && extras == NoExtras && media == NO_MEDIA
    {
      id := s.id;
      name := NormalizeStream(s).name;
      this.basePath := basePath;
      this.isUrl := isUrl;
      stream := NormalizeStream(s);
      this.sources := sources;
      currentSource := None;
      currentZones := [];
      currentGroups := [];
      lastUpdateSuccessful := false;
      available := false;
      extras := NoExtras;
      media := NO_MEDIA;
    }

    /** `sync_state`: store the stream record, its source and the zones and groups that source feeds. */
    method SyncState(s: Stream, newSources: seq<Source>, feeding: Option<Source>, zones: seq<Zone>, groups: seq<Group>)
      modifies this`stream, this`sources, this`currentSource, this`lastUpdateSuccessful,
               this`currentZones, this`currentGroups, this`media
      ensures Valid()
      ensures stream == NormalizeStream(s) && sources == newSources && currentSource == feeding
      ensures lastUpdateSuccessful && currentZones == zones && currentGroups == groups
      ensures media == PlayerMedia(if feeding.Some? then feeding.value.info else None, basePath, isUrl)
    {
      var renamed := ProcessStreamNames([s]);
      stream := renamed[0];
      sources := newSources;
      currentSource := feeding;
      lastUpdateSuccessful := true;
      currentZones := zones;
      currentGroups := groups;
      var info: Option<SourceInfo> := None;
      if currentSource.Some? {
        info := currentSource.value.info;
      }
      media := PlayerMedia(info, basePath, isUrl);
    }

    /**
     * `async_update`: poll the device, find this stream's record and the
     * source it feeds. The extra attributes name the source attached BEFORE
     * this poll, and `_update_available` tests the cached record, which is
     * never absent, so every poll that gets a snapshot sets `available`.
     * When the record is gone from the snapshot the call then raises, since
     * the feeding source was never looked up.
     */
    method Update(f: Fetch) returns (outcome: UpdateOutcome)
      requires Valid()
      modifies this
      ensures Valid()
      ensures f.FetchFailed? ==>
        outcome == MarkedFailed && !lastUpdateSuccessful && State() == Unknown &&
        Cache() == old(Cache()) && available == old(available) && extras == old(extras)
      ensures f.Fetched? ==>
        available && extras == SourceIdAttr(if old(currentSource).Some? then Some(old(currentSource).value.id) else None)
      ensures f.Fetched? && LookupStream(f.status.streams, id).None? ==>
        outcome == Raised(StreamMissing) && Cache() == old(Cache()) && lastUpdateSuccessful == old(lastUpdateSuccessful)
      ensures f.Fetched? && LookupStream(f.status.streams, id).Some? ==>
        var st := f.status;
        var feeding := SourceFeeding(st.sources, id);
        outcome == Refreshed && lastUpdateSuccessful &&
        stream == NormalizeStream(LookupStream(st.streams, id).value) &&
        currentSource == feeding && sources == st.sources &&
        currentGroups == (if feeding.Some? then GroupsOf(st.groups, feeding.value.id) else []) &&
        currentZones == (if feeding.Some? then ZonesOf(st.zones, feeding.value.id) else []) &&
        media == PlayerMedia(if feeding.Some? then feeding.value.info else None, basePath, isUrl)
    {
      if f.FetchFailed? {
        lastUpdateSuccessful := false;
        return MarkedFailed;
      }
      var st := f.status;
      var found := LookupStream(st.streams, id);
      var feeding: Option<Source> := None;
      var groups: seq<Group> := [];
      var zones: seq<Zone> := [];
      if found.Some? {
        feeding := SourceFeeding(st.sources, found.value.id);
        if feeding.Some? {
          groups := CollectGroups(st.groups, feeding.value.id);
          zones := CollectZones(st.zones, feeding.value.id);
        }
      }
      // _get_extra_attributes
      extras := SourceIdAttr(if currentSource.Some? then Some(currentSource.value.id) else None);
      // _update_available: `self._stream is None` never holds
      available := true;
      if found.None? {
        return Raised(StreamMissing);
      }
      SyncState(found.value, st.sources, feeding, zones, groups);
      outcome := Refreshed;
    }

    /** The `state` property; a source with id -1 counts as no source. */
    function State(): (r: PlayerState)
      reads this
      ensures !lastUpdateSuccessful <==> r == Unknown
      ensures lastUpdateSuccessful && (currentSource.None? || currentSource.value.id == -1) ==> r == Idle
      ensures lastUpdateSuccessful && currentSource.Some? && currentSource.value.id != -1 ==>
        r == InfoState(currentSource.value.info)
    {
      if !lastUpdateSuccessful then Unknown
      else if currentSource.None? || currentSource.value.id == -1 then Idle
      else InfoState(currentSource.value.info)
    }

    /** The `volume_level` property: the first fed group with a volume, else the first fed zone; `None` without a source. */
    function VolumeLevel(): (r: Option<real>)
      reads this
      ensures currentSource.None? ==> r.None?
      ensures currentSource.Some? ==> r == FirstVolume(currentGroups, currentZones)
    {
      if currentSource.Some? then FirstVolume(currentGroups, currentZones) else None
    }

    /** The `is_volume_muted` property: as the volume, but muted when nothing reports a flag. */
    function IsVolumeMuted(): (r: bool)
      reads this
      ensures currentSource.None? ==> r
      ensures currentSource.Some? && FirstMute(currentGroups, currentZones).None? ==> r
      ensures currentSource.Some? && FirstMute(currentGroups, currentZones).Some? ==>
        r == FirstMute(currentGroups, currentZones).value
    {
      if currentSource.Some? && FirstMute(currentGroups, currentZones).Some? then FirstMute(currentGroups, currentZones).value
      else true
    }

    /** The `source` property: "Source n" for the attached source with id n - 1. */
    function SourceShown(): (r: Option<string>)
      reads this
      ensures r.None? <==> currentSource.None?
      ensures r.Some? ==> r.value == SourceLabel(currentSource.value.id + 1)
    {
      if currentSource.Some? then Some(SourceLabel(currentSource.value.id + 1)) else None
    }

    /** The `source_list` property: one label per source of the last snapshot. */
    method SourceList() returns (labels: seq<string>)
      ensures |labels| == |sources|
      ensures forall i :: 0 <= i < |labels| ==> labels[i] == SourceLabel(i + 1)
    {
      labels := SourceLabels(sources);
    }

    /** The `available` property: the flag the last successful fetch set. */
    function Available(): (r: bool)
      reads this
      ensures r <==> available
    {
      available
    }

    /**
     * `find_source`: without an attached source, ask the device for its
     * sources (`None` when that call fails, which raises) and adopt the last
     * one whose input is free, or raise when there is none.
     */
    method FindSource(fetched: Option<seq<Source>>) returns (r: Outcome<Error>)
      modifies this`currentSource
      ensures old(currentSource).Some? ==> r == Pass && currentSource == old(currentSource)
      ensures old(currentSource).None? && fetched.None? ==> r == Fail(FetchError) && currentSource.None?
      ensures old(currentSource).None? && fetched.Some? && !HasFreeSource(fetched.value) ==>
        r == Fail(NoFreeSource) && currentSource.None?
      ensures old(currentSource).None? && fetched.Some? && HasFreeSource(fetched.value) ==>
        r == Pass && exists k :: LastFreeAt(fetched.value, k) && currentSource == Some(fetched.value[k])
    {
      if currentSource.None? {
        if fetched.None? {
          return Fail(FetchError);
        }
        var free := LastFreeSource(fetched.value);
        if free.None? {
          return Fail(NoFreeSource);
        }
        currentSource := free;
      }
      r := Pass;
    }

    /**
     * `async_select_source`: the label's first digit minus one names the
     * source; the cached source with that id becomes the attached one (the
     * old one stays when there is none), and the device is asked to feed
     * this stream into it. A label without a digit raises.
     */
    method SelectSource(choice: string) returns (r: Result<Request, Error>)
      modifies this`currentSource
      ensures ExtractSourceId(choice).None? ==> r == Failure(NoDigit) && currentSource == old(currentSource)
      ensures ExtractSourceId(choice).Some? ==>
        var sid := ExtractSourceId(choice).value;
        r == Success(SetSource(sid, StreamInput(id))) &&
        currentSource == (if LookupSource(sources, sid).Some? then LookupSource(sources, sid) else old(currentSource))
    {
      var sid := ExtractSourceId(choice);
      if sid.None? {
        return Failure(NoDigit);
      }
      var chosen := LookupSource(sources, sid.value);
      if chosen.Some? {
        currentSource := chosen;
      }
      r := Success(SetSource(sid.value, StreamInput(id)));
    }
  }

  /**
   * Once the device has applied a stream's selection to source `k`, the
   * stream's reverse lookup finds a source fed by it, and it is source `k`
   * unless an earlier source is fed by the same stream.
   */
  lemma SelectionIsFoundBack(sources: seq<Source>, k: nat, streamId: int)
    requires k < |sources| && sources[k].input == StreamInput(streamId)
    ensures SourceFeeding(sources, streamId).Some?
    ensures SourceFeeding(sources, streamId).value.input == StreamInput(streamId)
    ensures (forall j :: 0 <= j < k ==> sources[j].input != StreamInput(streamId)) ==>
      SourceFeeding(sources, streamId) == Some(sources[k])
  {
  }
}
