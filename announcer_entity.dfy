/**
 * `AmpliPiAnnouncer`: the entity that plays one-shot announcements. It keeps
 * only a local volume, never polls device state, and always shows idle.
 */
module AnnouncerEntity {
  import opened Wrappers
  import opened Device

  /** The volume a new announcer starts with. */
  const DEFAULT_VOLUME: real := 0.5

  class AmpliPiAnnouncer {
    var volume: real

    constructor ()
      ensures volume == DEFAULT_VOLUME
    {
      volume := DEFAULT_VOLUME;
    }

    /** The `volume_level` property: the locally kept volume. */
    function VolumeLevel(): (r: real)
      reads this
      ensures r == volume
    {
      volume
    }

    /** The `state` property: an announcer is always idle. */
    function State(): (r: PlayerState)
      ensures r == Idle
    {
      Idle
    }

    /** The `available` property: set once at construction and never cleared. */
    function Available(): (r: bool)
      ensures r
    {
      true
    }

    /** `async_set_volume_level`: keep the volume for the next announcement; `None` does nothing. */
    method SetVolumeLevel(v: Option<real>)
      modifies this`volume
      ensures v.None? ==> volume == old(volume)
      ensures v.Some? ==> volume == v.value && VolumeLevel() == v.value
    {
      if v.Some? {
        volume := v.value;
      }
    }

    /** `async_play_media`: announce the resolved media at the kept volume. */
    function PlayMedia(media: string): (r: Request)
      reads this
      ensures r.Announce? && r.media == media && r.vol == VolumeLevel()
    {
      Announce(media, volume)
    }
  }
}
