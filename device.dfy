/**
 * The AmpliPi device as the integration sees it through its client library:
 * the records of a status snapshot, the outcome of fetching one, and the
 * update requests the entities send back. The client itself is not modelled:
 * every `get_status` becomes a `Fetch` value handed in by the caller, and
 * every device call becomes a `Request` value handed back.
 */
module Device {
  import opened Wrappers

  /** Playback information reported for a source while something feeds it. */
  datatype SourceInfo = SourceInfo(
    name: Option<string>,
    track: Option<string>,
    artist: Option<string>,
    album: Option<string>,
    state: Option<string>,
    station: Option<string>,
    imgUrl: Option<string>)

  /** A hardware source; `input` is "local", "None", "" or "stream=<id>". */
  datatype Source = Source(id: int, name: string, input: string, info: Option<SourceInfo>)

  datatype Zone = Zone(
    id: int,
    name: string,
    sourceId: Option<int>,
    vol: Option<real>,
    mute: Option<bool>,
    disabled: bool)

  /** A named set of zones; `zones` holds the member zone ids. */
  datatype Group = Group(
    id: int,
    name: string,
    sourceId: Option<int>,
    zones: seq<int>,
    vol: Option<real>,
    mute: Option<bool>)

  /** A virtual input; `kind` is the stream's type tag. */
  datatype Stream = Stream(id: int, name: string, kind: string)

  /** One read of the whole device state. */
  datatype Status = Status(sources: seq<Source>, zones: seq<Zone>, groups: seq<Group>, streams: seq<Stream>)

  /** The outcome of one `get_status` call: a snapshot, or an exception from the client. */
  datatype Fetch = Fetched(status: Status) | FetchFailed

  /** The fields of a zone or group update; `None` leaves a field as it is. */
  datatype ZoneUpdate = ZoneUpdate(sourceId: Option<int>, mute: Option<bool>, vol: Option<real>, disabled: Option<bool>)

  /** A device call the integration makes. A list the call omits is modelled as empty. */
  datatype Request =
    | SetSource(sourceId: int, input: string)
    | SetZone(zoneId: int, update: ZoneUpdate)
    | SetZones(zones: seq<int>, groups: seq<int>, update: ZoneUpdate)
    | PlayMedia(sourceId: int, media: string)
    | Announce(media: string, vol: real)

  function VolumeUpdate(vol: real): ZoneUpdate
  {
    ZoneUpdate(None, None, Some(vol), None)
  }

  function SourceIdUpdate(sourceId: int): ZoneUpdate
  {
    ZoneUpdate(Some(sourceId), None, None, None)
  }

  /** The host's media-player states (STATE_UNKNOWN, STATE_IDLE, STATE_PLAYING, STATE_PAUSED). */
  datatype PlayerState = Unknown | Idle | Playing | Paused

  /** A host-side reading that is either a value or the string STATE_UNKNOWN. */
  datatype Reading<T> = Value(v: T) | StateUnknown

  /** The exceptions the integration's code raises or lets through. */
  datatype Error =
    | NoDigit        // IndexError: a label without any decimal digit
    | BadStreamId    // ValueError: `int` on the text after "stream="
    | NoFreeSource   // "all sources are in use"
    | FetchError     // a status fetch outside the guarded block failed
    | StreamMissing  // the stream record is gone from the snapshot

  /** What one poll did to an entity. */
  datatype UpdateOutcome = Refreshed | MarkedFailed | Raised(error: Error)
}
