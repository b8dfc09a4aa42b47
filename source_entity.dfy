/**
 * `AmpliPiSource`: the media-player entity for one hardware source. It keeps
 * a cached view of its source record, the normalised stream list, the stream
 * its input names, and the zones and groups the source feeds; every poll
 * replaces that view with the matching part of a fresh snapshot.
 */
module SourceEntity {
  import opened Wrappers
  import opened Text
  import opened Device
  import opened MediaPlayer

  /** Everything a poll of a source entity may replace, apart from its success flag. */
  datatype SourceCache = SourceCache(
    source: Source,
    streams: seq<Stream>,
    currentStream: Option<Stream>,
    zones: seq<Zone>,
    groups: seq<Group>,
    media: Media)

  class AmpliPiSource {
    const id: int
    const basePath: string
    const isUrl: string -> bool

    var source: Source
    var streams: seq<Stream>
    var currentStream: Option<Stream>
    var zones: seq<Zone>
    var groups: seq<Group>
    var lastUpdateSuccessful: bool
    var media: Media

    /** The stream list is normalised and the current stream is one of its entries. */
    ghost predicate Valid()
      reads this
    {
      AllMarked(streams) && (currentStream.Some? ==> currentStream.value in streams)
    }

    ghost function Cache(): SourceCache
      reads this
    {
      SourceCache(source, streams, currentStream, zones, groups, media)
    }

    constructor (source: Source, streams: seq<Stream>, basePath: string, isUrl: string -> bool)
      ensures Valid()
      ensures id == source.id && this.source == source && this.streams == NormalizedStreams(streams)
      ensures currentStream.None? && zones == [] && groups == [] && media == NO_MEDIA
      ensures !lastUpdateSuccessful
      ensures this.basePath == basePath && this.isUrl == isUrl
    {
      id := source.id;
      this.basePath := basePath;
      this.isUrl := isUrl;
      this.source := source;
      this.streams := NormalizedStreams(streams);
      currentStream := None;
      zones := [];
      groups := [];
      lastUpdateSuccessful := false;
      media := NO_MEDIA;
    }

    /**
     * What `sync_state` leaves behind, from the cache `prev` and flag `prevOk`
     * it started with. A malformed "stream=" input raises after the source,
     * the stream list and the cleared current stream are written.
     */
    ghost predicate SyncedFrom(prev: SourceCache, prevOk: bool, state: Source, newStreams: seq<Stream>,
                               newZones: seq<Zone>, newGroups: seq<Group>, outcome: UpdateOutcome)
      reads this
    {
      source == state && streams == NormalizedStreams(newStreams) &&
      if InputStreamRef(state.input).Malformed? then
        outcome == Raised(BadStreamId) && currentStream.None? &&
        zones == prev.zones && groups == prev.groups && media == prev.media && lastUpdateSuccessful == prevOk
      else
        outcome == Refreshed && currentStream == StreamForInput(state.input, streams) &&
        zones == newZones && groups == newGroups && lastUpdateSuccessful &&
        media == SourceMedia(state.info, currentStream, basePath, isUrl)
    }

    /** `sync_state`: replace the cached view with a source record and the lists that go with it. */
    method SyncState(state: Source, newStreams: seq<Stream>, newZones: seq<Zone>, newGroups: seq<Group>)
      returns (outcome: UpdateOutcome)
      requires Valid()
      modifies this
      ensures Valid()
      ensures SyncedFrom(old(Cache()), old(lastUpdateSuccessful), state, newStreams, newZones, newGroups, outcome)
    {
      source := state;
      streams := ProcessStreamNames(newStreams);
      currentStream := None;
      var ref := InputStreamRef(state.input);
      if ref.Malformed? {
        return Raised(BadStreamId);
      }
      if ref.StreamId? {
        currentStream := LookupStream(streams, ref.id);
      }
      zones := newZones;
      groups := newGroups;
      lastUpdateSuccessful := true;
      media := SourceMedia(state.info, currentStream, basePath, isUrl);
      outcome := Refreshed;
    }

    /**
     * `async_update`: poll the device. A failed fetch or a snapshot without
     * this source only clears the success flag; otherwise the source record,
     * the zones and groups it feeds, and the streams are synced.
     */
    method Update(f: Fetch) returns (outcome: UpdateOutcome)
      requires Valid()
      modifies this
      ensures Valid()
      ensures f.FetchFailed? || LookupSource(f.status.sources, old(source).id).None? ==>
        outcome == MarkedFailed && !lastUpdateSuccessful && Cache() == old(Cache())
      ensures f.Fetched? && LookupSource(f.status.sources, old(source).id).Some? ==>
        SyncedFrom(old(Cache()), old(lastUpdateSuccessful), LookupSource(f.status.sources, old(source).id).value,
                   f.status.streams, ZonesOf(f.status.zones, old(source).id), GroupsOf(f.status.groups, old(source).id), outcome)
      ensures outcome == MarkedFailed ==> State() == Unknown
      ensures outcome == Refreshed ==> State() == InfoState(source.info)
    {
      if f.FetchFailed? {
        lastUpdateSuccessful := false;
        return MarkedFailed;
      }
      var st := f.status;
      var found := LookupSource(st.sources, source.id);
      if found.None? {
        lastUpdateSuccessful := false;
        return MarkedFailed;
      }
      var fedGroups := GroupsOf(st.groups, source.id);
      var fedZones := ZonesOf(st.zones, source.id);
      outcome := SyncState(found.value, st.streams, fedZones, fedGroups);
    }

    /** The `state` property: a failed poll overrides everything, then the info's reported state decides. */
    function State(): (r: PlayerState)
      reads this
      ensures !lastUpdateSuccessful <==> r == Unknown
      ensures lastUpdateSuccessful && (source.info.None? || source.info.value.state.None?) ==> r == Idle
      ensures lastUpdateSuccessful && source.info.Some? && source.info.value.state.Some? ==>
        r == PlaybackState(source.info.value.state.value)
    {
      if !lastUpdateSuccessful then Unknown else InfoState(source.info)
    }

    /** The `volume_level` property: the first fed group with a volume, else the first fed zone, else STATE_UNKNOWN. */
    function VolumeLevel(): (r: Reading<real>)
      reads this
      ensures r.StateUnknown? <==>
        (forall i :: 0 <= i < |groups| ==> groups[i].vol.None?) && (forall i :: 0 <= i < |zones| ==> zones[i].vol.None?)
      ensures r.Value? ==> Some(r.v) == FirstVolume(groups, zones)
    {
      match FirstVolume(groups, zones)
      case Some(v) => Value(v)
      case None => StateUnknown
    }

    /** The `is_volume_muted` property, with the same priority as the volume. */
    function IsVolumeMuted(): (r: Reading<bool>)
      reads this
      ensures r.StateUnknown? <==>
        (forall i :: 0 <= i < |groups| ==> groups[i].mute.None?) && (forall i :: 0 <= i < |zones| ==> zones[i].mute.None?)
      ensures r.Value? ==> Some(r.v) == FirstMute(groups, zones)
    {
      match FirstMute(groups, zones)
      case Some(m) => Value(m)
      case None => StateUnknown
    }

    /** The `source` property: the source's own name on local input, else the current stream's name, else "None". */
    function SourceShown(): (r: string)
      reads this
      ensures source.input == "local" ==> r == source.name
      ensures source.input != "local" && currentStream.Some? ==> r == currentStream.value.name
      ensures source.input != "local" && currentStream.None? ==> r == "None"
    {
      if source.input == "local" then source.name
      else if currentStream.Some? then currentStream.value.name
      else "None"
    }

    /** The `source_list` property: "None", then the names of the streams this source offers. */
    function SourceList(): (r: seq<string>)
      reads this
      ensures |r| >= 1 && r[0] == "None"
      ensures forall i :: 0 <= i < |streams| && Offered(streams[i], id) ==> streams[i].name in r[1..]
      ensures forall n :: n in r[1..] ==> exists i :: 0 <= i < |streams| && Offered(streams[i], id) && streams[i].name == n
      ensures r[1..] == OfferedNames(streams, id)
    {
      ["None"] + OfferedNames(streams, id)
    }

    /**
     * `async_select_source`: the source's own name selects local input, "None"
     * disconnects, any other choice attaches the first stream whose processed
     * id equals the choice's; `Success(None)` is the logged no-op when none does.
     */
    function SelectSource(choice: string): (r: Result<Option<Request>, Error>)
      reads this
      ensures choice == source.name ==> r == Success(Some(SetSource(source.id, "local")))
      ensures choice != source.name && choice == "None" ==> r == Success(Some(SetSource(source.id, "None")))
      ensures choice != source.name && choice != "None" && r.Success? && r.value.Some? ==>
        exists s :: s in streams && ProcessStreamId(s.name) == ProcessStreamId(choice) &&
          r.value.value == SetSource(source.id, StreamInput(s.id))
      ensures choice != source.name && choice != "None" && r.Success? && r.value.None? ==>
        forall i :: 0 <= i < |streams| ==> ProcessStreamId(streams[i].name) != ProcessStreamId(choice)
      ensures choice != source.name && choice != "None" ==>
        forall k :: 0 <= k < |streams| && ScannedPast(streams, choice, k) && MatchesAt(streams, choice, k) ==>
          r == Success(Some(SetSource(source.id, StreamInput(streams[k].id))))
      ensures choice != source.name && choice != "None" && streams != [] && (Digits(streams[0].name) == [] || Digits(choice) == []) ==>
        r == Failure(NoDigit)
      ensures choice != source.name && choice != "None" ==>
        forall k :: 0 <= k < |streams| && ScannedPast(streams, choice, k) && RaisesAt(streams, choice, k) ==>
          r == Failure(NoDigit)
      ensures choice != source.name && choice != "None" && ScannedPast(streams, choice, |streams|) ==>
        r == Success(None)
      ensures r.Failure? ==> r.error == NoDigit
      ensures streams == [] ==> r.Success?
    {
      if choice == source.name then Success(Some(SetSource(source.id, "local")))
      else if choice == "None" then Success(Some(SetSource(source.id, "None")))
      else
        match MatchStream(streams, choice)
        case Failure(e) => Failure(e)
        case Success(None) => Success(None)
        case Success(Some(s)) => Success(Some(SetSource(source.id, StreamInput(s.id))))
    }

    /**
     * Selecting the stream the entity shows asks the device for the input it
     * already has, and the next sync reads that input back as the same
     * stream, when the names are tagged and the ids distinct.
     */
    lemma SelectShownStream()
      requires Valid()
      requires source.input != "local" && currentStream.Some?
      requires currentStream.value.name != source.name
      requires forall i :: 0 <= i < |streams| ==> WellTagged(streams[i])
      requires forall i, j :: 0 <= i < j < |streams| ==> streams[i].id != streams[j].id
      ensures SelectSource(SourceShown()) == Success(Some(SetSource(source.id, StreamInput(currentStream.value.id))))
      ensures StreamForInput(StreamInput(currentStream.value.id), streams) == currentStream
    {
      var k :| 0 <= k < |streams| && streams[k] == currentStream.value;
      var tag := StreamTag(streams[k].id);
      assert WellTagged(streams[k]);
      assert |streams[k].name| >= |tag| > 4;
      MatchStreamFindsOwnName(streams, k);
      SelectedStreamIsCurrent(streams, k);
    }

    /**
     * `extra_state_attributes`: the source's id and, collected by a loop,
     * the ids of the fed zones the last poll cached, in order.
     */
    method ExtraStateAttributes() returns (sourceId: int, zoneList: seq<int>)
      ensures sourceId == id
      ensures |zoneList| == |zones| && forall i :: 0 <= i < |zoneList| ==> zoneList[i] == zones[i].id
    {
      zoneList := [];
      for i := 0 to |zones|
        invariant |zoneList| == i && forall j :: 0 <= j < i ==> zoneList[j] == zones[j].id
      {
        zoneList := zoneList + [zones[i].id];
      }
      sourceId := id;
    }

    /**
     * `async_set_volume_level`: write the volume into the first fed group that
     * reports one, else into the first such zone, and ask the device to set it
     * on every fed zone and group. `None` does nothing.
     */
    method SetVolumeLevel(volume: Option<real>) returns (req: Option<Request>)
      requires Valid()
      modifies this`groups, this`zones
      ensures Valid()
      ensures volume.None? ==> req.None? && groups == old(groups) && zones == old(zones)
      ensures volume.Some? ==> req == Some(SetZones(ZoneIds(old(zones)), GroupIds(old(groups)), VolumeUpdate(volume.value)))
      ensures volume.Some? && FirstGroupWithVolume(old(groups)).Some? ==>
        var k := FirstGroupWithVolume(old(groups)).value;
        groups == old(groups)[k := old(groups)[k].(vol := volume)] && zones == old(zones)
      ensures volume.Some? && FirstGroupWithVolume(old(groups)).None? && FirstZoneWithVolume(old(zones)).Some? ==>
        var k := FirstZoneWithVolume(old(zones)).value;
        groups == old(groups) && zones == old(zones)[k := old(zones)[k].(vol := volume)]
      ensures FirstGroupWithVolume(old(groups)).None? && FirstZoneWithVolume(old(zones)).None? ==>
        groups == old(groups) && zones == old(zones)
      ensures volume.Some? && !old(VolumeLevel()).StateUnknown? ==> VolumeLevel() == Value(volume.value)
    {
      if volume.None? {
        return None;
      }
      req := Some(SetZones(ZoneIds(zones), GroupIds(groups), VolumeUpdate(volume.value)));
      var g := FirstGroupWithVolume(groups);
      var z := FirstZoneWithVolume(zones);
      if g.Some? {
        FirstVolumeAfterGroupWrite(groups, zones, volume.value);
        groups := groups[g.value := groups[g.value].(vol := volume)];
      } else if z.Some? {
        FirstVolumeAfterZoneWrite(groups, zones, volume.value);
        zones := zones[z.value := zones[z.value].(vol := volume)];
      }
    }
  }
}
