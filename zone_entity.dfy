/**
 * `AmpliPiZone`: the media-player entity for one zone or one group of zones.
 * A poll looks the zone or group up by id, lists the group's enabled member
 * zones, recomputes availability, and syncs the source that feeds it.
 */
module ZoneEntity {
  import opened Wrappers
  import opened Text
  import opened Device
  import opened MediaPlayer

  /** Everything a poll of a zone or group entity syncs, apart from its success flag. */
  datatype ZoneCache = ZoneCache(
    zone: Option<Zone>,
    group: Option<Group>,
    streams: seq<Stream>,
    sources: seq<Source>,
    enabled: bool,
    currentSource: Option<Source>,
    currentStream: Option<Stream>,
    media: Media)

  /** The id of the source a zone or group record says feeds it. */
  function OwnerId(newZone: Option<Zone>, newGroup: Option<Group>): Option<int>
  {
    if newGroup.Some? then newGroup.value.sourceId
    else if newZone.Some? then newZone.value.sourceId
    else None
  }

  class AmpliPiZone {
    const isGroup: bool
    const id: int
    const basePath: string
    const isUrl: string -> bool

    var zone: Option<Zone>
    var group: Option<Group>
    var streams: seq<Stream>
    var sources: seq<Source>
    var lastUpdateSuccessful: bool
    var enabled: bool
    var currentSource: Option<Source>
    var currentStream: Option<Stream>
    var available: bool
    var extras: Extras
    var media: Media

    /** A zone entity holds a zone record and no group; a group entity the reverse. */
    ghost predicate Valid()
      reads this
    {
      (isGroup ==> group.Some? && zone.None?) && (!isGroup ==> zone.Some? && group.None?) && AllMarked(streams)
    }

    /** The entity built for a zone record. */
    constructor ForZone(z: Zone, streams: seq<Stream>, sources: seq<Source>, basePath: string, isUrl: string -> bool)
      ensures Valid() && !isGroup && id == z.id && zone == Some(z)
      ensures this.streams == NormalizedStreams(streams) && this.sources == sources
      ensures currentSource.None? && currentStream.None? && media == NO_MEDIA && extras == NoExtras
      ensures !lastUpdateSuccessful && !available && !enabled
    {
      isGroup := false;
      id := z.id;
      this.basePath := basePath;
      this.isUrl := isUrl;
      zone := Some(z);
      group := None;
      this.streams := NormalizedStreams(streams);
      this.sources := sources;
      lastUpdateSuccessful := false;
      enabled := false;
      currentSource := None;
      currentStream := None;
      available := false;
      extras := NoExtras;
      media := NO_MEDIA;
    }

    /** The entity built for a group record. */
    constructor ForGroup(g: Group, streams: seq<Stream>, sources: seq<Source>, basePath: string, isUrl: string -> bool)
      ensures Valid() && isGroup && id == g.id && group == Some(g)
      ensures this.streams == NormalizedStreams(streams) && this.sources == sources
      ensures currentSource.None? && currentStream.None? && media == NO_MEDIA && extras == NoExtras
      ensures !lastUpdateSuccessful && !available && !enabled
    {
      isGroup := true;
      id := g.id;
      this.basePath := basePath;
      this.isUrl := isUrl;
      zone := None;
      group := Some(g);
      this.streams := NormalizedStreams(streams);
      this.sources := sources;
      lastUpdateSuccessful := false;
      enabled := false;
      currentSource := None;
      currentStream := None;
      available := false;
      extras := NoExtras;
      media := NO_MEDIA;
    }

    ghost function Cache(): ZoneCache
      reads this
    {
      ZoneCache(zone, group, streams, sources, enabled, currentSource, currentStream, media)
    }

    /**
     * What `sync_state` leaves behind, from the cache `prev` it started with.
     * The current stream is kept when the feeding source names none; a
     * malformed "stream=" input raises before the media attributes are written.
     */
    ghost predicate SyncedFrom(prev: ZoneCache, newZone: Option<Zone>, newGroup: Option<Group>,
                               newStreams: seq<Stream>, newSources: seq<Source>, en: bool, outcome: UpdateOutcome)
      reads this
    {
      zone == newZone && group == newGroup && streams == NormalizedStreams(newStreams) &&
      sources == newSources && lastUpdateSuccessful && enabled == en &&
      currentSource == LookupOptSource(newSources, OwnerId(newZone, newGroup)) &&
      var ref := if currentSource.Some? then InputStreamRef(currentSource.value.input) else NotStream;
      (if ref.StreamId? then currentStream == LookupStream(streams, ref.id) else currentStream == prev.currentStream) &&
      if ref.Malformed? then
        outcome == Raised(BadStreamId) && media == prev.media
      else
        outcome == Refreshed &&
        media == PlayerMedia(if currentSource.Some? then currentSource.value.info else None, basePath, isUrl)
    }

    /** The snapshot holds this entity's own zone or group record. */
    predicate RecordFound(st: Status)
    {
      if isGroup then LookupGroup(st.groups, id).Some? else LookupZone(st.zones, id).Some?
    }

    /**
     * `sync_state`: store the records, then find the feeding source and,
     * when its input names a stream, the current stream. The current stream
     * is kept from earlier polls when the source has none; a malformed
     * "stream=" input raises before the media attributes are written.
     */
    method SyncState(newZone: Option<Zone>, newGroup: Option<Group>, newStreams: seq<Stream>,
                     newSources: seq<Source>, en: bool) returns (outcome: UpdateOutcome)
      requires isGroup ==> newGroup.Some? && newZone.None?
      requires !isGroup ==> newZone.Some? && newGroup.None?
      modifies this`zone, this`group, this`streams, this`sources, this`lastUpdateSuccessful, this`enabled,
               this`currentSource, this`currentStream, this`media
      ensures Valid()
      ensures SyncedFrom(old(Cache()), newZone, newGroup, newStreams, newSources, en, outcome)
    {
      var renamed := ProcessStreamNames(newStreams);
      var feeding := LookupOptSource(newSources, OwnerId(newZone, newGroup));
      var ref := if feeding.Some? then InputStreamRef(feeding.value.input) else NotStream;
      zone, group, streams, sources, lastUpdateSuccessful, enabled, currentSource :=
        newZone, newGroup, renamed, newSources, true, en, feeding;
      if ref.Malformed? {
        return Raised(BadStreamId);
      }
      if ref.StreamId? {
        currentStream := LookupStream(renamed, ref.id);
      }
      media := PlayerMedia(if feeding.Some? then feeding.value.info else None, basePath, isUrl);
      outcome := Refreshed;
    }

    /**
     * `async_update`. `first` is the status fetch inside the guarded block;
     * `forExtras` is the fetch a group's `_get_extra_attributes` makes and
     * `forAvailable` the one `_update_available` makes, both unguarded, so
     * their failure raises. Both of those read the member list or zone record
     * cached BEFORE this poll's sync.
     */
    method Update(first: Fetch, forExtras: Fetch, forAvailable: Fetch) returns (outcome: UpdateOutcome)
      requires Valid()
      modifies this
      ensures Valid()
      ensures outcome == MarkedFailed <==> first.FetchFailed? || !RecordFound(first.status)
      ensures outcome == Raised(FetchError) <==>
        first.Fetched? && RecordFound(first.status) && ((isGroup && forExtras.FetchFailed?) || forAvailable.FetchFailed?)
      ensures outcome == MarkedFailed ==>
        !lastUpdateSuccessful && State() == Unknown && Cache() == old(Cache()) &&
        available == old(available) && extras == old(extras)
      ensures outcome == Raised(FetchError) ==>
        Cache() == old(Cache()) && lastUpdateSuccessful == old(lastUpdateSuccessful) && available == old(available)
      ensures outcome != MarkedFailed && isGroup && forExtras.FetchFailed? ==>
        outcome == Raised(FetchError) && extras == old(extras)
      ensures outcome != MarkedFailed && isGroup && forExtras.Fetched? ==>
        extras == MemberZones(EnabledMembers(old(group).value.zones, forExtras.status.zones))
      ensures outcome != MarkedFailed && !isGroup ==> extras == ZoneIdAttr(old(zone).value.id)
      ensures outcome != MarkedFailed && outcome != Raised(FetchError) && isGroup ==>
        forAvailable.Fetched? && (available <==> MemberEnabled(old(group).value.zones, forAvailable.status.zones))
      ensures outcome != MarkedFailed && outcome != Raised(FetchError) && !isGroup ==>
        forAvailable.Fetched? && available == !old(zone).value.disabled
      ensures outcome != MarkedFailed && outcome != Raised(FetchError) && isGroup ==>
        group == LookupGroup(first.status.groups, id) &&
        enabled == AnyMemberPresent(group.value.zones, first.status.zones) &&
        currentSource == LookupOptSource(first.status.sources, group.value.sourceId)
      ensures outcome != MarkedFailed && outcome != Raised(FetchError) && !isGroup ==>
        zone == LookupZone(first.status.zones, id) && enabled == !zone.value.disabled &&
        currentSource == LookupOptSource(first.status.sources, zone.value.sourceId)
      ensures outcome != MarkedFailed && outcome != Raised(FetchError) ==>
        first.Fetched? && SyncedFrom(old(Cache()), zone, group, first.status.streams, first.status.sources, enabled, outcome)
      ensures outcome == Refreshed ==>
        State() == (if currentSource.None? then Idle else InfoState(currentSource.value.info))
    {
      if first.FetchFailed? {
        lastUpdateSuccessful := false;
        return MarkedFailed;
      }
      var st := first.status;
      var newZone: Option<Zone> := None;
      var newGroup: Option<Group> := None;
      var en := false;
      if isGroup {
        newGroup := LookupGroup(st.groups, id);
        if newGroup.None? {
          lastUpdateSuccessful := false;
          return MarkedFailed;
        }
        en := AnyMemberPresent(newGroup.value.zones, st.zones);
      } else {
        newZone := LookupZone(st.zones, id);
        if newZone.None? {
          lastUpdateSuccessful := false;
          return MarkedFailed;
        }
        en := !newZone.value.disabled;
      }
      // _get_extra_attributes
      if isGroup {
        if forExtras.FetchFailed? {
          return Raised(FetchError);
        }
        var ids := EnabledMemberIds(group.value.zones, forExtras.status.zones);
        extras := MemberZones(ids);
      } else {
        extras := ZoneIdAttr(zone.value.id);
      }
      // _update_available
      if forAvailable.FetchFailed? {
        return Raised(FetchError);
      }
      if isGroup {
        available := AnyMemberEnabled(group.value.zones, forAvailable.status.zones);
      } else {
        available := !zone.value.disabled;
      }
      outcome := SyncState(newZone, newGroup, st.streams, st.sources, en);
    }

    /** The `state` property: a failed poll overrides everything; no feeding source or no reported state is idle. */
    function State(): (r: PlayerState)
      reads this
      ensures !lastUpdateSuccessful <==> r == Unknown
      ensures lastUpdateSuccessful && currentSource.None? ==> r == Idle
      ensures lastUpdateSuccessful && currentSource.Some? ==> r == InfoState(currentSource.value.info)
    {
      if !lastUpdateSuccessful then Unknown
      else if currentSource.None? then Idle
      else InfoState(currentSource.value.info)
    }

    /** The `volume_level` property: the entity's own record's volume. */
    function VolumeLevel(): (r: Option<real>)
      requires Valid()
      reads this
      ensures isGroup ==> r == group.value.vol
      ensures !isGroup ==> r == zone.value.vol
    {
      // Valid() rules out the Python's final `return None`.
      if isGroup then group.value.vol else zone.value.vol
    }

    /** The `is_volume_muted` property: the entity's own record's mute flag. */
    function IsVolumeMuted(): (r: Option<bool>)
      requires Valid()
      reads this
      ensures isGroup ==> r == group.value.mute
      ensures !isGroup ==> r == zone.value.mute
    {
      if isGroup then group.value.mute else zone.value.mute
    }

    /** The `source` property: "Source n" for the feeding source with id n - 1. */
    function SourceShown(): (r: Option<string>)
      reads this
      ensures r.None? <==> currentSource.None?
      ensures r.Some? ==> r.value == SourceLabel(currentSource.value.id + 1)
    {
      if currentSource.Some? then Some(SourceLabel(currentSource.value.id + 1)) else None
    }

    /** The `source_list` property: one label per source of the last snapshot. */
    method SourceList() returns (labels: seq<string>)
      ensures |labels| == |sources|
      ensures forall i :: 0 <= i < |labels| ==> labels[i] == SourceLabel(i + 1)
    {
      labels := SourceLabels(sources);
    }

    /** The `available` property: the flag the last poll's `_update_available` left. */
    function Available(): (r: bool)
      reads this
      ensures r <==> available
    {
      available
    }

    /** The request `async_select_source` sends for source `sourceId`. */
    function SourceRequest(sourceId: int): (r: Request)
      ensures isGroup ==> r.SetZones? && r.zones == [] && r.groups == [id]
      ensures !isGroup ==> r.SetZone? && r.zoneId == id
      ensures r.update == ZoneUpdate(Some(sourceId), None, None, None)
    {
      if isGroup then SetZones([], [id], SourceIdUpdate(sourceId)) else SetZone(id, SourceIdUpdate(sourceId))
    }

    /**
     * `async_select_source`: route the zone or group to the source whose id
     * is the label's first digit minus one; a label without a digit raises.
     */
    function SelectSource(choice: string): (r: Result<Request, Error>)
      reads this
      ensures r.Failure? <==> forall i :: 0 <= i < |choice| ==> !IsDigit(choice[i])
      ensures r.Failure? ==> r.error == NoDigit
      ensures r.Success? ==> ExtractSourceId(choice).Some? && r.value == SourceRequest(ExtractSourceId(choice).value)
    {
      ExtractSourceIdNeedsDigit(choice);
      match ExtractSourceId(choice)
      case None => Failure(NoDigit)
      case Some(sid) => Success(SourceRequest(sid))
    }

    /** Selecting any of the first nine labels of the source list routes to that source. */
    lemma SelectListedSource(n: int)
      requires 1 <= n <= 9
      ensures SelectSource(SourceLabel(n)) == Success(SourceRequest(n - 1))
    {
      SourceLabelRoundTrip(n);
    }

    /** Selecting the label the entity shows routes it back to the source that feeds it. */
    lemma SelectShownSource()
      requires currentSource.Some? && 0 <= currentSource.value.id <= 8
      ensures SelectSource(SourceShown().value) == Success(SourceRequest(currentSource.value.id))
    {
      SourceLabelRoundTrip(currentSource.value.id + 1);
    }

    /**
     * `async_set_volume_level`: write the volume into the entity's own record
     * and ask the device to set it. `None` does nothing.
     */
    method SetVolumeLevel(volume: Option<real>) returns (req: Option<Request>)
      requires Valid()
      modifies this`zone, this`group
      ensures Valid()
      ensures volume.None? ==> req.None? && zone == old(zone) && group == old(group)
      ensures volume.Some? && isGroup ==>
        req == Some(SetZones([], [old(group).value.id], VolumeUpdate(volume.value))) &&
        group == Some(old(group).value.(vol := volume)) && zone == old(zone)
      ensures volume.Some? && !isGroup ==>
        req == Some(SetZone(id, VolumeUpdate(volume.value))) &&
        zone == Some(old(zone).value.(vol := volume)) && group == old(group)
      ensures volume.Some? ==> VolumeLevel() == volume
    {
      if volume.None? {
        return None;
      }
      if isGroup {
        group := Some(group.value.(vol := volume));
        req := Some(SetZones([], [group.value.id], VolumeUpdate(volume.value)));
      } else {
        zone := Some(zone.value.(vol := volume));
        req := Some(SetZone(id, VolumeUpdate(volume.value)));
      }
    }

    /**
     * The free-source search of `async_play_media`: without a feeding source,
     * ask the device for its sources (`None` when that call fails, which
     * raises) and adopt the last one whose input is free, or raise; then ask
     * the device to play `media` on the feeding source.
     */
    method PlayMedia(fetched: Option<seq<Source>>, media: string) returns (r: Result<Request, Error>)
      modifies this`currentSource
      ensures old(currentSource).Some? ==>
        currentSource == old(currentSource) && r == Success(Request.PlayMedia(currentSource.value.id, media))
      ensures old(currentSource).None? && fetched.None? ==> currentSource.None? && r == Failure(FetchError)
      ensures old(currentSource).None? && fetched.Some? && !HasFreeSource(fetched.value) ==>
        currentSource.None? && r == Failure(NoFreeSource)
      ensures old(currentSource).None? && fetched.Some? && HasFreeSource(fetched.value) ==>
        exists k :: LastFreeAt(fetched.value, k) && currentSource == Some(fetched.value[k]) &&
          r == Success(Request.PlayMedia(fetched.value[k].id, media))
    {
      if currentSource.None? {
        if fetched.None? {
          return Failure(FetchError);
        }
        var free := LastFreeSource(fetched.value);
        if free.None? {
          return Failure(NoFreeSource);
        }
        currentSource := free;
      }
      r := Success(Request.PlayMedia(currentSource.value.id, media));
    }
  }
}
