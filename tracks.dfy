/**
 * The raw track objects the provider sends and the flattened records the
 * client hands to the page: the object literal built inside
 * `data.data.map(...)` of `searchTracks` and `getTopTracks`, and the one
 * built by `getTrackById`.
 */
module Tracks {
  import opened Wrappers
  import opened JsText
  import opened Duration

  /** Placeholder shown when the provider gives no medium-size album cover. */
  const FallbackCover: string := "./assets/images/fallback.svg"

  /** Identifiers compared with `===`: a number never equals a string. */
  datatype TrackId = NumId(n: int) | StrId(s: string)

  datatype RawArtist = RawArtist(name: string)

  /** `coverMedium` is `None` when the field is absent or null. */
  datatype RawAlbum = RawAlbum(coverMedium: Option<string>)

  /**
   * One provider track. A missing `artist` or `album` object is `None`:
   * reading `.name` or `.cover_medium` through it throws a TypeError.
   */
  datatype RawTrack = RawTrack(
    id: TrackId,
    title: string,
    artist: Option<RawArtist>,
    duration: nat,
    album: Option<RawAlbum>,
    preview: Option<string>)

  /** The record `{id, title, artist, duration, cover, audioSrc}`. */
  datatype Track = Track(
    id: TrackId,
    title: string,
    artist: string,
    duration: string,
    cover: string,
    audioSrc: Option<string>)

  /** Mapping this raw track does not throw. */
  predicate WellFormed(raw: RawTrack) {
    raw.artist.Some? && raw.album.Some?
  }

  /** `album.cover_medium || './assets/images/fallback.svg'`: absent, null and '' are falsy. */
  function CoverOf(album: RawAlbum): (cover: string)
    ensures cover != []
    ensures cover == FallbackCover || Some(cover) == album.coverMedium
    ensures cover == FallbackCover <== album.coverMedium.None? || album.coverMedium.value == []
    ensures album.coverMedium.Some? && album.coverMedium.value != [] ==> cover == album.coverMedium.value
  {
    match album.coverMedium
    case Some(c) => if c != [] then c else FallbackCover
    case None => FallbackCover
  }

  /** Builds the record for one raw track; `None` where the JavaScript throws. */
  function Normalize(raw: RawTrack): (r: Option<Track>)
    ensures r.Some? <==> WellFormed(raw)
  {
    if WellFormed(raw) then
      Some(Track(
        raw.id,
        raw.title,
        raw.artist.value.name,
        FormatDuration(raw.duration),
        CoverOf(raw.album.value),
        raw.preview))
    else
      None
  }

  /**
   * What a record keeps of its raw track: id, title, artist name and preview
   * are copied, the duration display reads back as the raw seconds, and the
   * cover is the provider's non-empty cover or else the placeholder, never empty.
   */
  lemma NormalizeFaithful(raw: RawTrack)
    requires WellFormed(raw)
    ensures var t := Normalize(raw).value;
      && t.id == raw.id && t.title == raw.title && t.audioSrc == raw.preview
      && t.artist == raw.artist.value.name
      && IsDurationDisplay(t.duration) && ParseDuration(t.duration) == Some(raw.duration)
      && t.cover != []
      && (match raw.album.value.coverMedium
          case Some(c) => t.cover == if c != [] then c else FallbackCover
          case None => t.cover == FallbackCover)
  {
    FormatThenParse(raw.duration);
  }

  /** `data.data.map(...)`: one record per element in order, or `None` if any element throws. */
  function NormalizeAll(raws: seq<RawTrack>): (r: Option<seq<Track>>)
    ensures r.Some? <==> forall i | 0 <= i < |raws| :: WellFormed(raws[i])
    ensures r.Some? ==> |r.value| == |raws|
    ensures r.Some? ==> forall i | 0 <= i < |raws| :: Normalize(raws[i]) == Some(r.value[i])
    decreases |raws|
  {
    if raws == [] then Some([])
    else
      match (Normalize(raws[0]), NormalizeAll(raws[1..]))
      case (Some(t), Some(ts)) =>
        assert forall i | 1 <= i < |raws| :: raws[i] == raws[1..][i - 1];
        Some([t] + ts)
      case (_, _) =>
        assert forall i | 1 <= i < |raws| :: raws[i] == raws[1..][i - 1];
        None
  }

  /** Every record of a normalised list has an `m:ss` duration and a non-empty cover. */
  lemma NormalizeAllDisplayInvariants(raws: seq<RawTrack>)
    requires NormalizeAll(raws).Some?
    ensures forall t | t in NormalizeAll(raws).value :: IsDurationDisplay(t.duration) && t.cover != []
  {
    var ts := NormalizeAll(raws).value;
    forall t | t in ts ensures IsDurationDisplay(t.duration) && t.cover != [] {
      var i :| 0 <= i < |ts| && ts[i] == t;
      NormalizeFaithful(raws[i]);
    }
  }
}
