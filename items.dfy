/**
 * The plugin's normalised view of streaming-service entities and its
 * settings. A field that JavaScript leaves undefined (a track with no
 * progress, a local track with no id or album id) is the empty string
 * here. Where the plugin tests such a field for truthiness the two agree;
 * where it interpolates one into text, JavaScript writes "undefined" and
 * the model writes nothing.
 */
module Items {

  datatype Track = Track(
    id: string,
    name: string,
    artists: string,   // artist names already joined for display
    album: string,
    albumId: string,
    duration: string,
    progress: string)  // formatted playback position, "" when not playing

  datatype Album = Album(
    id: string,
    name: string,
    artists: string,
    releaseDate: string,
    duration: string,
    tracks: seq<Track>)

  /** A track or an album, as the plugin's `type` tag distinguishes them. */
  datatype Item = TrackItem(track: Track) | AlbumItem(album: Album) {
    function Id(): string {
      match this
      case TrackItem(t) => t.id
      case AlbumItem(a) => a.id
    }

    function Name(): string {
      match this
      case TrackItem(t) => t.name
      case AlbumItem(a) => a.name
    }

    function Artists(): string {
      match this
      case TrackItem(t) => t.artists
      case AlbumItem(a) => a.artists
    }

    /** The value of the `type` field. */
    function Type(): string {
      if TrackItem? then "Track" else "Album"
    }

    /** `"progress" in item ? item.progress : undefined`. */
    function Progress(): string {
      if TrackItem? then track.progress else ""
    }
  }

  /** The plugin settings the core reads. */
  datatype Settings = Settings(
    folderPath: string,
    alwaysCreateTrackFiles: bool,   // scrobbleAlbumAlwaysCreatesNewTrackFiles / logAlbumAlwaysCreateNewTrackFiles
    showType: bool,
    showDuration: bool,
    showTags: bool,
    showAlbumReleaseDate: bool,
    aliasShowArtists: bool)
}
