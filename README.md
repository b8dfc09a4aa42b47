# AmpliPi media-player entities, modelled in Dafny

This project models the media-player platform of the AmpliPi Home Assistant
integration (`custom_components/amplipi/media_player.py`). The integration
polls an AmpliPi multi-zone audio controller for a status snapshot, which
holds its sources, zones, groups and streams. From that snapshot it derives
what four kinds of entity show: a hardware source, a zone or group, a stream,
and the announcement channel. It also turns user commands into update
requests for the device.

Layout:

- `wrappers.dfy`: `Option`, `Result` and `Outcome`. These stand for Python's `None` and for raised exceptions.
- `device.dfy`: the snapshot records and the outcome of a status fetch (`Fetch`). It also holds the requests the entities send (`Request`), the host's player states and the exceptions.
- `text.dfy`: the string operations the code relies on:
  - Python's substring test `in`;
  - the `\d` digit extraction;
  - `str`/`int` on integers;
  - `split('=')[1]`;
  - the lower-case slug.
- `media_player.dfy` (module `MediaPlayer`): the module-level functions and the logic the entity classes share:
  - the stream-name normaliser;
  - the id codecs;
  - `build_url`;
  - the playback-state tests;
  - the first-match lookups;
  - the free-source search;
  - the group-membership loops.
- `source_entity.dfy`, `zone_entity.dfy`, `stream_entity.dfy`, `announcer_entity.dfy`: one class per entity kind. Each has fields for its cached view. `SyncState`/`Update` methods replace that view on every poll. Functions give the host-visible properties, and the commands return the `Request` they would send.

Modelling choices:

- Device I/O is not executed. Each `get_status` is a `Fetch` argument: a snapshot, or a failure. Each device call becomes a returned `Request`.
- Most state-changing commands end with a re-poll (`await self.async_update()`): select source, set volume, and the commands that go through `_update_source`, `_update_zone`, `_update_group` or `_update_zones`. In the model that re-poll is a separate `Update` call made by the caller. `async_play_media` on every entity, the announcer's `async_set_volume_level` and the stream's `find_source` do not re-poll.
- `validators.url` is a parameter `isUrl: string -> bool`. Nothing is assumed about it.
- Volumes (`vol_f`) are `real` values. No arithmetic is done on them.
- `x in ('paused')` in the `state` properties is a substring test on the string `"paused"`, so it is modelled that way. Every substring of `"paused"`, the empty string included, shows as PAUSED, and the paused test comes before the playing test.
- Exceptions the code raises or lets through are modelled as error results, and so are the state changes made before the raise:
  - `IndexError` on a label without a digit;
  - `ValueError` from `int(...)` on a malformed `stream=` input;
  - the "all sources are in use" exception;
  - a failed unguarded fetch;
  - the `UnboundLocalError` of a stream whose record is gone.
- Behaviours of the code as written, kept in the model:
  - A zone or group entity computes `_update_available` and `_get_extra_attributes` from the member list or zone record cached by the previous poll. `_update_available` always reads a snapshot from a fetch of its own. `_get_extra_attributes` does so only for a group; for a zone it fetches nothing.
  - `AmpliPiZone.sync_state` keeps the previous current stream when the new source has none.
  - The stream entity's `_update_available` tests the cached record, which is never `None`. So every poll that gets a snapshot sets `available` to true. When the stream's record is missing, the poll then raises.
  - The group's `enabled` flag only asks whether some snapshot zone is a member. It does not read that zone's disabled flag.
  - The free-source loop never breaks, so it adopts the last free source.

## Model

| member | source | states |
|---|---|---|
| MediaPlayer.NormalizeStream | custom_components/amplipi/media_player.py:73-80 | the id and type are kept and the result carries the marker; a name with "AmpliPi Stream" is unchanged, any other becomes "AmpliPi Stream {id}: " + name |
| MediaPlayer.NormalizedStreams | custom_components/amplipi/media_player.py:73-80 | element by element the normalised stream: same length, order, ids and kinds as the input, and every name carries the marker |
| MediaPlayer.ProcessStreamNames | custom_components/amplipi/media_player.py:73-80 | the in-place renaming loop produces exactly the normalised list; a list whose names are all marked comes back unchanged |
| MediaPlayer.NormalizeIdempotent | custom_components/amplipi/media_player.py:76-79 | normalising a stream twice equals normalising it once |
| MediaPlayer.NormalizedStreamsIdempotent | custom_components/amplipi/media_player.py:73-80 | normalising a whole list twice equals normalising it once |
| MediaPlayer.ExtractSourceId | custom_components/amplipi/media_player.py:82-83 | raises exactly when the label has no digit; otherwise the result lies in [-1, 8] |
| MediaPlayer.ExtractSourceIdIsFirstDigit | custom_components/amplipi/media_player.py:82-83 | the result is the value of the label's first digit minus one, whatever follows |
| MediaPlayer.ExtractSourceIdNeedsDigit | custom_components/amplipi/media_player.py:82-83 | the label raises if and only if none of its characters is a decimal digit |
| MediaPlayer.ExtractSourceIdExamples | custom_components/amplipi/media_player.py:82-83 | "Source 3" gives 2, "Source 12" gives 0, "None" raises |
| MediaPlayer.SourceLabelRoundTrip | custom_components/amplipi/media_player.py:940-947 | for 1 <= n <= 9 the label "Source n" that a source list offers decodes to source n - 1 |
| MediaPlayer.SourceLabels | custom_components/amplipi/media_player.py:940-947 | the label loop yields one label per source, the i-th being "Source i+1" |
| MediaPlayer.ProcessStreamId | custom_components/amplipi/media_player.py:316-325 | raises exactly when the name has no digit; keeps the first 4 digits when the leading one is 1, the first 3 when it is 9, and gives nothing for any other leading digit |
| MediaPlayer.TaggedNameYieldsId | custom_components/amplipi/media_player.py:316-325 | a name that starts with the tag of a stream id in 900..1999 yields exactly that id's digits |
| MediaPlayer.NormalizedNameYieldsId | custom_components/amplipi/media_player.py:73-80 | round trip: the id the normaliser writes into a fresh name is the id `process_stream_id` reads back |
| MediaPlayer.ProcessStreamIdRadio | custom_components/amplipi/media_player.py:316-325 | "AmpliPi Stream 1001: Radio" yields "1001" |
| MediaPlayer.ProcessStreamIdInput | custom_components/amplipi/media_player.py:316-325 | "AmpliPi Stream 996: Input 1" yields "996" |
| MediaPlayer.MatchStream | custom_components/amplipi/media_player.py:336-346 | scanning in list order, each stream's id processed before the label's: the first stream whose processed id equals the label's is found; if the first stream that does not mismatch raises instead, the lookup raises; when every stream mismatches, nothing is found; an empty list never raises |
| MediaPlayer.MatchStreamFindsOwnName | custom_components/amplipi/media_player.py:336-346 | when the names are tagged and no earlier stream shares its id, selecting a stream's own name finds that stream |
| MediaPlayer.BuildUrl | custom_components/amplipi/media_player.py:86-100 | None gives None; a URL is returned unchanged; otherwise base + "/" + img if that is a URL, else None; a result is always a URL |
| MediaPlayer.BuildUrlIdempotent | custom_components/amplipi/media_player.py:86-100 | resolving an already resolved URL changes nothing |
| MediaPlayer.PlaybackState | custom_components/amplipi/media_player.py:505-522 | PAUSED if and only if the reported state is a substring of "paused"; PLAYING if and only if it is not but is a substring of "playing"; otherwise IDLE, never UNKNOWN |
| MediaPlayer.PlaybackStateExamples | custom_components/amplipi/media_player.py:505-522 | "paused", "" and "pause" show PAUSED; "playing" and "play" show PLAYING; "stopped" shows IDLE |
| MediaPlayer.InfoState | custom_components/amplipi/media_player.py:503-522 | a missing info record or a missing reported state shows IDLE; otherwise the substring tests decide |
| MediaPlayer.InputStreamRef | custom_components/amplipi/media_player.py:463-464 | an input names no stream if and only if it lacks "stream=" or contains "stream=local" |
| MediaPlayer.StreamInputRoundTrip | custom_components/amplipi/media_player.py:463-465 | the input "stream=<id>" that a selection writes is read back as stream id |
| MediaPlayer.InputStreamRefExamples | custom_components/amplipi/media_player.py:463-464 | "local", "stream=local" and "None" name no stream |
| MediaPlayer.StreamForInput | custom_components/amplipi/media_player.py:463-465 | nothing is found if and only if the input names no stream or no stream has the id it names; otherwise the FIRST stream with that id is found |
| MediaPlayer.SelectedStreamIsCurrent | custom_components/amplipi/media_player.py:463-465 | after selecting stream k, provided no earlier stream shares its id, the next sync's current stream is stream k |
| MediaPlayer.FindFirst | custom_components/amplipi/media_player.py:440 | `next(filter(...))`: the index found satisfies the test and no earlier index does; none is found if and only if no element satisfies it |
| MediaPlayer.NextMatch | custom_components/amplipi/media_player.py:440 | `next(filter(...), None)` is None exactly when nothing matches, and is otherwise the first match |
| MediaPlayer.ZonesOf | custom_components/amplipi/media_player.py:451 | the zones kept are exactly the snapshot zones whose source id is this source |
| MediaPlayer.ZonesOfAppend | custom_components/amplipi/media_player.py:451 | filtering a concatenation is the concatenation of the filtered parts, so the snapshot order and any repeats are kept |
| MediaPlayer.ZonesOfSingle | custom_components/amplipi/media_player.py:451 | a single zone is kept exactly when this source feeds it; with the append lemma this fixes the whole list |
| MediaPlayer.GroupsOf | custom_components/amplipi/media_player.py:450 | the groups kept are exactly the snapshot groups whose source id is this source |
| MediaPlayer.GroupsOfAppend | custom_components/amplipi/media_player.py:450 | filtering a concatenation is the concatenation of the filtered parts, so the snapshot order and any repeats are kept |
| MediaPlayer.GroupsOfSingle | custom_components/amplipi/media_player.py:450 | a single group is kept exactly when this source feeds it; with the append lemma this fixes the whole list |
| MediaPlayer.CollectZones | custom_components/amplipi/media_player.py:1333-1335 | the appending loop produces the filtered zone list |
| MediaPlayer.SourceFeeding | custom_components/amplipi/media_player.py:1327 | none if and only if no source's input is "stream=<id>"; otherwise the FIRST source whose input is "stream=<id>" |
| MediaPlayer.CollectGroups | custom_components/amplipi/media_player.py:1329-1331 | the appending loop produces the filtered group list |
| MediaPlayer.FirstVolume | custom_components/amplipi/media_player.py:525-534 | the volume of the first group that has one; only if no group has one, that of the first zone that has one; none if and only if no record has a volume |
| MediaPlayer.FirstMute | custom_components/amplipi/media_player.py:537-545 | the same priority for the mute flag |
| MediaPlayer.FirstGroupWithVolume | custom_components/amplipi/media_player.py:230 | the index of the first group that has a volume, or none if no group has one |
| MediaPlayer.FirstZoneWithVolume | custom_components/amplipi/media_player.py:231 | the index of the first zone that has a volume, or none if no zone has one |
| MediaPlayer.FirstVolumeAfterGroupWrite | custom_components/amplipi/media_player.py:230-235 | writing into the first group with a volume makes that the volume read back |
| MediaPlayer.FirstVolumeAfterZoneWrite | custom_components/amplipi/media_player.py:230-237 | with no group volume, writing into the first zone with a volume makes that the volume read back |
| MediaPlayer.LastFreeSource | custom_components/amplipi/media_player.py:1484-1494 | none is found if and only if no source has input '' or 'None'; otherwise the result is the LAST such source in list order |
| MediaPlayer.EnabledMembersSpec | custom_components/amplipi/media_player.py:1008-1011 | an id is listed if and only if it is a member id and some enabled snapshot zone has it |
| MediaPlayer.EnabledMembers | custom_components/amplipi/media_player.py:1008-1011 | the `amplipi_zones` list holds only member ids (exact membership in `EnabledMembersSpec`) |
| MediaPlayer.EnabledMembersNonEmpty | custom_components/amplipi/media_player.py:1019-1026 | a group's enabled-zone list is non-empty if and only if some member is an enabled zone |
| MediaPlayer.EnabledMemberIds | custom_components/amplipi/media_player.py:1003-1012 | the nested loop builds exactly the enabled-member list |
| MediaPlayer.AnyMemberEnabled | custom_components/amplipi/media_player.py:1019-1026 | the early-return loop answers true if and only if some snapshot zone whose id is a member is not disabled |
| MediaPlayer.AnyMemberPresent | custom_components/amplipi/media_player.py:805-808 | a group is enabled if and only if some snapshot zone's id is a member |
| MediaPlayer.SourceMedia | custom_components/amplipi/media_player.py:472-496 | without info every media attribute is None; otherwise artist, album, track and station are copied from the info, the title is the track or else the info name, the app name is the current stream's type, and the image is `build_url` of the info's image (always a URL when present) |
| MediaPlayer.PlayerMedia | custom_components/amplipi/media_player.py:849-862 | without info every media attribute is None; otherwise artist, album, track and station are copied from the info, the title is the info name, there is no app name, and the image is `build_url` of the info's image |
| MediaPlayer.OfferedNames | custom_components/amplipi/media_player.py:557-561 | exactly the names of the streams with id >= 1000 or id - 996 equal to the source id |
| MediaPlayer.OfferedNamesAppend | custom_components/amplipi/media_player.py:560 | the names offered from a concatenation are those of each part in order, so stream order and repeats are kept |
| MediaPlayer.OfferedNamesSingle | custom_components/amplipi/media_player.py:560 | one stream contributes its name exactly when it is offered; with the append lemma this fixes the whole list |
| MediaPlayer.SlugMergesCaseAndSpaces | custom_components/amplipi/media_player.py:123-124 | "Living Room" and "living_room" give the same entity id |
| MediaPlayer.ZoneEntityId | custom_components/amplipi/media_player.py:124 | the migrated zone id is "media_player.amplipi_zone_" followed by exactly the slug of the name (spaces to `_`, ASCII letters lower-cased, every other character kept), so it holds no space or upper-case ASCII letter |
| MediaPlayer.GroupEntityId | custom_components/amplipi/media_player.py:127 | the migrated group id is "media_player.amplipi_group_" followed by exactly the slug of the name, so it holds no space or upper-case ASCII letter |
| MediaPlayer.StreamEntityId | custom_components/amplipi/media_player.py:130 | the migrated stream id is "media_player.amplipi_stream_", then a part that parses back to the stream id, then "_", then exactly the slug of the name; it holds no space or upper-case ASCII letter |
| Text.Slug | custom_components/amplipi/media_player.py:124 | same length; each space becomes '_', each upper-case ASCII letter its lower case, and every other character is kept |
| Text.SlugIdempotent | custom_components/amplipi/media_player.py:124 | the slug of a slug is itself |
| Text.ContainsIffOccurs | custom_components/amplipi/media_player.py:78 | Python's `in` on strings holds if and only if the substring occurs at some position |
| Text.Digits | custom_components/amplipi/media_player.py:83 | the `\d` extraction yields only digits and is no longer than its input |
| Text.DigitsMembers | custom_components/amplipi/media_player.py:83 | a character is in the digit string if and only if it is a digit of the input |
| Text.IntToStringRoundTrip | custom_components/amplipi/media_player.py:464 | `int(str(n)) == n` |
| SourceEntity.AmpliPiSource.constructor | custom_components/amplipi/media_player.py:183-199 | the stream list is normalised; no stream, zone or group; not yet updated |
| SourceEntity.AmpliPiSource.SyncState | custom_components/amplipi/media_player.py:456-496 | records the source and the normalised streams; the current stream is the one the input names, and the fed zones, groups and media are stored; a malformed input raises after clearing the current stream, leaving the rest as it was |
| SourceEntity.AmpliPiSource.Update | custom_components/amplipi/media_player.py:434-454 | a failed fetch or a missing source only clears the success flag and shows UNKNOWN; otherwise syncs the source with the zones and groups it feeds |
| SourceEntity.AmpliPiSource.State | custom_components/amplipi/media_player.py:499-522 | UNKNOWN if and only if the last update failed; otherwise IDLE without info or reported state, else the substring tests |
| SourceEntity.AmpliPiSource.VolumeLevel | custom_components/amplipi/media_player.py:525-534 | STATE_UNKNOWN if and only if no fed group or zone has a volume; otherwise the group-first volume |
| SourceEntity.AmpliPiSource.IsVolumeMuted | custom_components/amplipi/media_player.py:537-545 | STATE_UNKNOWN if and only if no fed group or zone has a mute flag; otherwise the group-first flag |
| SourceEntity.AmpliPiSource.SourceShown | custom_components/amplipi/media_player.py:548-555 | on local input the source's name; otherwise the current stream's name, or "None" |
| SourceEntity.AmpliPiSource.SourceList | custom_components/amplipi/media_player.py:557-561 | "None" first, then the offered stream names in stream order, with repeats (the list `OfferedNamesAppend` and `OfferedNamesSingle` fix) |
| SourceEntity.AmpliPiSource.SelectSource | custom_components/amplipi/media_player.py:327-346 | the source's own name selects "local"; "None" selects "None"; any other label scans the streams in order: it attaches the FIRST stream whose processed id equals the label's, raises at the first stream reached before any match whose name (or the label) has no digit, and does nothing only when every stream was processed and mismatched; an empty stream list never raises |
| SourceEntity.AmpliPiSource.SelectShownStream | custom_components/amplipi/media_player.py:327-346 | selecting the stream shown requests its own "stream=<id>" input, which the next sync reads back as the same stream |
| SourceEntity.AmpliPiSource.ExtraStateAttributes | custom_components/amplipi/media_player.py:580-586 | the attributes are the source's own id and the ids of the cached fed zones, one per zone and in the same order |
| SourceEntity.AmpliPiSource.SetVolumeLevel | custom_components/amplipi/media_player.py:225-245 | None does nothing; otherwise writes the volume into exactly the first group with a volume, else the first such zone, leaving the others untouched; requests it for all fed zones and groups; the volume read back is the new one |
| ZoneEntity.AmpliPiZone.ForZone | custom_components/amplipi/media_player.py:616-650 | a zone entity holds its zone record; not yet updated or available |
| ZoneEntity.AmpliPiZone.ForGroup | custom_components/amplipi/media_player.py:616-650 | a group entity holds its group record; not yet updated or available |
| ZoneEntity.AmpliPiZone.SyncState | custom_components/amplipi/media_player.py:825-862 | stores the records, streams and sources; the current source is the one the record names; the current stream is updated only for a stream input and is otherwise kept, also when a malformed input raises; that raise comes before the media is written, which otherwise come from the feeding source's info |
| ZoneEntity.AmpliPiZone.Update | custom_components/amplipi/media_player.py:790-823 | the poll is marked failed if and only if the first fetch fails or the snapshot lacks the entity's record, and then only the success flag changes (shows UNKNOWN); it raises a fetch error if and only if the record is found and a later fetch it needs fails, with the synced state, the flag and availability unchanged; otherwise a group is available if and only if some member of the cached group is an enabled zone of the fetched snapshot, a zone if and only if the cached zone is not disabled, and the fetched record is synced, including current stream and media |
| ZoneEntity.AmpliPiZone.State | custom_components/amplipi/media_player.py:865-888 | UNKNOWN if and only if the last update failed; IDLE without a current source; otherwise the info tests |
| ZoneEntity.AmpliPiZone.VolumeLevel | custom_components/amplipi/media_player.py:892-899 | the volume of the group's or the zone's own record |
| ZoneEntity.AmpliPiZone.IsVolumeMuted | custom_components/amplipi/media_player.py:901-906 | the mute flag of the group's or the zone's own record |
| ZoneEntity.AmpliPiZone.SourceShown | custom_components/amplipi/media_player.py:951-957 | "Source n" for the current source with id n - 1; None if and only if there is no current source |
| ZoneEntity.AmpliPiZone.SourceList | custom_components/amplipi/media_player.py:940-948 | one label "Source i+1" per source of the last snapshot |
| ZoneEntity.AmpliPiZone.Available | custom_components/amplipi/media_player.py:996-997 | the `available` property is the flag the last poll's availability check left (see `Update`) |
| ZoneEntity.AmpliPiZone.SelectSource | custom_components/amplipi/media_player.py:908-929 | raises if and only if the label has no digit; otherwise routes the zone or group to the source whose id is the first digit minus one |
| ZoneEntity.AmpliPiZone.SourceRequest | custom_components/amplipi/media_player.py:914-928 | a group asks for a multi-zone update of its own group id only; a zone asks for an update of its own zone id; either sets only the source id |
| ZoneEntity.AmpliPiZone.SelectListedSource | custom_components/amplipi/media_player.py:908-929 | selecting "Source n" from the list, 1 <= n <= 9, routes to source n - 1 |
| ZoneEntity.AmpliPiZone.SelectShownSource | custom_components/amplipi/media_player.py:951-957 | selecting the label shown routes back to the current source, for ids 0..8 |
| ZoneEntity.AmpliPiZone.SetVolumeLevel | custom_components/amplipi/media_player.py:688-711 | None does nothing; otherwise writes the volume into the entity's own record only and requests it; the volume read back is the new one |
| ZoneEntity.AmpliPiZone.PlayMedia | custom_components/amplipi/media_player.py:967-992 | keeps an existing source; without one, raises if the source fetch fails, else adopts the last free source of the fetched list, or raises if none is free; the play request names the adopted source |
| StreamEntity.AmpliPiStream.constructor | custom_components/amplipi/media_player.py:1170-1198 | the stream record and the display name are normalised; no source attached; not yet updated or available |
| StreamEntity.AmpliPiStream.SyncState | custom_components/amplipi/media_player.py:1347-1373 | stores the normalised stream, the sources, the feeding source, its zones, groups and media |
| StreamEntity.AmpliPiStream.Update | custom_components/amplipi/media_player.py:1316-1345 | a failed fetch only clears the success flag (shows UNKNOWN, everything else unchanged); otherwise available is set and the extra attribute names the source attached before the poll; a missing record raises with the synced state and flag unchanged; a present one takes the first source whose input is "stream=<id>", exactly the zones and groups it feeds, and that source's media |
| StreamEntity.AmpliPiStream.State | custom_components/amplipi/media_player.py:1376-1394 | UNKNOWN if and only if the last update failed; IDLE without a source or with source id -1; otherwise the info tests |
| StreamEntity.AmpliPiStream.VolumeLevel | custom_components/amplipi/media_player.py:1398-1411 | None without a source; otherwise the group-first volume |
| StreamEntity.AmpliPiStream.IsVolumeMuted | custom_components/amplipi/media_player.py:1413-1424 | muted without a source or when no record has a flag; otherwise the group-first flag |
| StreamEntity.AmpliPiStream.SourceShown | custom_components/amplipi/media_player.py:1449-1455 | "Source n" for the attached source with id n - 1; None if and only if there is none |
| StreamEntity.AmpliPiStream.SourceList | custom_components/amplipi/media_player.py:1438-1447 | one label "Source i+1" per source of the last snapshot |
| StreamEntity.AmpliPiStream.Available | custom_components/amplipi/media_player.py:1497-1498 | the `available` property is the flag the last poll left (true after any fetched snapshot, see `Update`) |
| StreamEntity.AmpliPiStream.FindSource | custom_components/amplipi/media_player.py:1484-1494 | does nothing with a source attached; otherwise raises if the source fetch fails, else adopts the last free source, or raises with the source still absent if none is free |
| StreamEntity.AmpliPiStream.SelectSource | custom_components/amplipi/media_player.py:1426-1436 | a digitless label raises; otherwise requests "stream=<id>" on the source the label names and attaches that source if the cache has it, else keeps the old one |
| StreamEntity.SelectionIsFoundBack | custom_components/amplipi/media_player.py:1327 | once a source's input is "stream=<id>", the reverse lookup finds a source fed by the stream, and it is the first such source |
| AnnouncerEntity.AmpliPiAnnouncer.constructor | custom_components/amplipi/media_player.py:1058-1075 | the announcer starts at volume 0.5 |
| AnnouncerEntity.AmpliPiAnnouncer.VolumeLevel | custom_components/amplipi/media_player.py:1110-1111 | the volume shown is the locally kept one, which announcements use |
| AnnouncerEntity.AmpliPiAnnouncer.State | custom_components/amplipi/media_player.py:1124-1125 | an announcer always shows IDLE |
| AnnouncerEntity.AmpliPiAnnouncer.Available | custom_components/amplipi/media_player.py:1069 | an announcer is always available: the flag is set at construction and never cleared |
| AnnouncerEntity.AmpliPiAnnouncer.SetVolumeLevel | custom_components/amplipi/media_player.py:1152-1155 | None keeps the volume; otherwise the volume read back is the new one |
| AnnouncerEntity.AmpliPiAnnouncer.PlayMedia | custom_components/amplipi/media_player.py:1135-1149 | the announcement carries the media and the kept volume |

## Left out

- `custom_components/amplipi/__init__.py` and `sensor.py` are not part of this model. They do config-entry setup, copy files and wrap a YAML file in entities: file-system and host-platform I/O only.
- The `pyamplipi` client calls, the host's polling scheduler and the sequencing of polls are abstract. Each fetch is an argument and each device call a returned `Request`. The re-poll that ends most state-changing commands is a separate `Update` call; play-media, the announcer's volume command and `find_source` have none.
- Media-source resolution, `async_process_play_media_url`, `async_browse_media` and the entity-registry calls of `migrate_entities` are host APIs. Only the slug rule of the entity ids is modelled. The media id passed to `PlayMedia` is taken as already resolved.
- `validators.url` is a foreign library, so it appears only as the `isUrl` parameter.
- `async_volume_up`/`async_volume_down` are left out: they are ±0.01 floating-point steps with clamping.
- `supported_features` is left out: it is bitmask arithmetic over host feature flags.
- Also left out: `device_info`, `name`, `unique_id`, `media_content_type`, `PARALLEL_UPDATES` and logging.
- Turn on/off and mute are left out. Each forwards a request built from cached ids: a zone or group turn-on clears `disabled`; a turn-off routes it to source -1 or sets the source input to 'None'; mute sets the mute flag on the cached zones and groups.
- The stream entity's `async_turn_on` is left out. It only calls `find_source`, which `StreamEntity.AmpliPiStream.FindSource` models.
- Media play/pause/stop/next/previous are left out. Each sends a stream command for the current stream's id. On the source and zone entities the command reads `self._current_stream.id`, which raises when there is no current stream, and on a zone entity that never attached a stream the attribute does not exist at all.
- `AmpliPiSource._update_groups` is left out. It is never called; it would fetch the groups and send one group update per group the source feeds.
- `AmpliPiStream.async_set_volume_level` and `async_mute_volume` are left out. Both go through `_update_zones`, which does nothing without a current source; otherwise it fetches the zones and replaces the request's zone list by a filter of the fetched Zone records the current source feeds (records, not ids), sends it and re-polls. The volume command also passes the cached group records. The model's `Request` carries ids, so these record-valued requests are not stated in its terms.
- MediaPlayer.LastFreeSource: `Source.input` is a string in the model, so the `source.input is None` disjunct of the free-input test cannot arise and is not modelled.
- ZoneEntity.AmpliPiZone.SelectSource: the transient `self._current_source = source` that stores the label string until the next poll is not modelled. The current source stays a source record.
- StreamEntity.AmpliPiStream.Update: availability is not "if and only if the stream record exists". The code tests the cached record, which is never `None`, so any poll that gets a snapshot sets it true. With the record missing, the poll then raises.
- MediaPlayer.InputStreamRef: Python's `int` also accepts surrounding whitespace and digit-group underscores. The model parses only an optional sign followed by ASCII digits.
- Text.Digits: the model reads only the ASCII digits '0'-'9'. Python 3's `\d` on `str` also matches every other Unicode decimal digit (Arabic-Indic, Devanagari and so on), and `int` accepts them. So `ExtractSourceId` and `ProcessStreamId` find no digit in a label or name whose only digits are non-ASCII, where the Python code would find one.
- MediaPlayer.LastFreeSource: the `source is not None` guard of the free-source loops is not modelled, since a source list in the model holds no `None` entries.
- Text.Slug: the lower-casing covers ASCII letters only. Python's `str.lower` also folds non-ASCII letters.
- Aliasing of the shared stream list is not modelled. `process_stream_names` renames records that all entities share, and the model normalises a copy per entity, with the same resulting names.
