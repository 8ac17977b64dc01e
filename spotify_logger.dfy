/**
 * The note logic of src/SpotifyLogger.ts, the generation before
 * src/Scrobbler.ts. It differs in these points: the display key is
 * "title" and the alias is the bare name; `appendInput` gives up quietly
 * when the note is missing; a track note is created before its album is
 * looked up; links come from `parsePlayingAsWikilink`; ids of local
 * tracks are not derived. Entries are the ones of module Scrobbler (the
 * two files hold the same formatter text).
 */
module SpotifyLogger {
  import opened Wrappers
  import Utils
  import Items
  import Vault
  import Scrobbler

  /** `normalizePath` and this generation's `tracksAsWikilinks(app, folderPath, tracks, album, alwaysCreate)`. */
  datatype LoggerHost = LoggerHost(
    normalizePath: string -> string,
    tracksAsWikilinks: (Vault.Notes, string, Items.Album, bool) -> seq<string>)

  /** `parsePlayingAsWikilink(playing)`: no embed, no block id. */
  function PlainLink(id: string, name: string): (r: string)
    ensures r == "[[" + id + "|" + name + "]]"
  {
    Utils.ParsePlayingAsWikilink(id, name, false, "")
  }

  /**
   * `appendInput`: a missing note is reported on the console and nothing
   * changes; otherwise the entry is appended.
   */
  method AppendInput(vault: Vault.Vault, filePath: string, date: string, input: string,
                     progress: string, blockId: string, referenceLink: string) returns (appended: bool)
    modifies vault
    ensures appended == (filePath in old(vault.notes))
    ensures !appended ==> vault.notes == old(vault.notes)
    ensures appended ==> vault.notes == Vault.Appended(old(vault.notes), filePath, Scrobbler.Entry(date, input, progress, blockId, referenceLink))
  {
    if filePath !in vault.notes {
      return false;
    }
    var formatted := "";
    if progress != "" {
      formatted := Scrobbler.FormatInput(date, input, progress, blockId, referenceLink);
    } else {
      formatted := Scrobbler.FormatInputNoTimestamp(date, input, blockId, referenceLink);
    }
    vault.Append(filePath, formatted);
    return true;
  }

  /** `updateTrackFrontmatter`: "album" becomes `[[albumid|album name]]`; no other key changes. */
  method UpdateTrackFrontmatter(vault: Vault.Vault, trackPath: string, album: Items.Album)
    requires trackPath in vault.notes
    modifies vault
    ensures vault.notes.Keys == old(vault.notes).Keys
    ensures forall p :: p in old(vault.notes) && p != trackPath ==> vault.notes[p] == old(vault.notes)[p]
    ensures vault.notes[trackPath].body == old(vault.notes)[trackPath].body
    ensures vault.notes[trackPath].frontmatter == Vault.SetAlbumLink(old(vault.notes)[trackPath].frontmatter, "[[" + album.id + "|" + album.name + "]]")
  {
    var link := PlainLink(album.id, album.name);
    vault.ProcessFrontMatter(trackPath, fm => Some(Vault.SetAlbumLink(fm, link)));
  }

  /** `updateAlbumFrontmatter`: the first "tracks" entry equal to the track name becomes `[[id|name]]`. */
  method UpdateAlbumFrontmatter(vault: Vault.Vault, albumPath: string, track: Items.Track)
    requires albumPath in vault.notes
    modifies vault
    ensures vault.notes == Vault.Edited(old(vault.notes), albumPath,
      Vault.UpdateAlbumTracks(old(vault.notes)[albumPath].frontmatter, track.name, PlainLink(track.id, track.name)))
  {
    var link := PlainLink(track.id, track.name);
    vault.ProcessFrontMatter(albumPath, fm => Vault.UpdateAlbumTracks(fm, track.name, link));
  }

  /** The frontmatter of a new album note in this generation. */
  function AlbumFields(host: LoggerHost, notes: Vault.Notes, settings: Items.Settings, album: Items.Album): (fm: Vault.Frontmatter)
    ensures "title" in fm && fm["title"] == Vault.Str(album.name)
    ensures "artists" in fm && fm["artists"] == Vault.Str(album.artists)
    ensures "tracks" in fm && fm["tracks"] == Vault.List(host.tracksAsWikilinks(notes, settings.folderPath, album, settings.alwaysCreateTrackFiles))
    ensures "aliases" in fm && fm["aliases"] == Vault.Str(album.name)
    ensures "type" in fm <==> settings.showType
    ensures "release date" in fm <==> settings.showAlbumReleaseDate
    ensures "duration" in fm <==> settings.showDuration
    ensures "tags" in fm <==> settings.showTags
    ensures "type" in fm ==> fm["type"] == Vault.Str("Album")
    ensures "release date" in fm ==> fm["release date"] == Vault.Str(album.releaseDate)
    ensures "duration" in fm ==> fm["duration"] == Vault.Str(album.duration)
    ensures "tags" in fm ==> fm["tags"] == Vault.Str("")
    ensures fm.Keys <= {"title", "artists", "type", "release date", "duration", "tracks", "tags", "aliases"}
  {
    var fm: Vault.Frontmatter := map["title" := Vault.Str(album.name), "artists" := Vault.Str(album.artists)];
    var fm := if settings.showType then fm["type" := Vault.Str("Album")] else fm;
    var fm := if settings.showAlbumReleaseDate then fm["release date" := Vault.Str(album.releaseDate)] else fm;
    var fm := if settings.showDuration then fm["duration" := Vault.Str(album.duration)] else fm;
    var fm := fm["tracks" := Vault.List(host.tracksAsWikilinks(notes, settings.folderPath, album, settings.alwaysCreateTrackFiles))];
    var fm := if settings.showTags then fm["tags" := Vault.Str("")] else fm;
    fm["aliases" := Vault.Str(album.name)]
  }

  /** The frontmatter of a new track note in this generation. */
  function TrackFields(settings: Items.Settings, track: Items.Track, albumLink: string): (fm: Vault.Frontmatter)
    ensures "title" in fm && fm["title"] == Vault.Str(track.name)
    ensures "artists" in fm && fm["artists"] == Vault.Str(track.artists)
    ensures "album" in fm && fm["album"] == Vault.Str(if albumLink != "" then albumLink else track.album)
    ensures "aliases" in fm && fm["aliases"] == Vault.Str(track.name)
    ensures "type" in fm <==> settings.showType
    ensures "duration" in fm <==> settings.showDuration
    ensures "tags" in fm <==> settings.showTags
    ensures "type" in fm ==> fm["type"] == Vault.Str("Track")
    ensures "duration" in fm ==> fm["duration"] == Vault.Str(track.duration)
    ensures "tags" in fm ==> fm["tags"] == Vault.Str("")
    ensures fm.Keys <= {"title", "artists", "type", "album", "duration", "tags", "aliases"}
  {
    var fm: Vault.Frontmatter := map["title" := Vault.Str(track.name), "artists" := Vault.Str(track.artists)];
    var fm := if settings.showType then fm["type" := Vault.Str("Track")] else fm;
    var fm := fm["album" := Vault.Str(if albumLink != "" then albumLink else track.album)];
    var fm := if settings.showDuration then fm["duration" := Vault.Str(track.duration)] else fm;
    var fm := if settings.showTags then fm["tags" := Vault.Str("")] else fm;
    fm["aliases" := Vault.Str(track.name)]
  }

  /** The notes and the album note's path after `createAlbumFile`. */
  function CreateAlbumFileSpec(notes: Vault.Notes, host: LoggerHost, settings: Items.Settings, album: Items.Album)
    : (r: (Vault.Notes, string))
    ensures r.1 == Utils.GetFilePath(host.normalizePath, settings.folderPath, album.id)
    ensures r.0.Keys == notes.Keys + {r.1}
    ensures r.1 in notes ==> r.0 == notes
    ensures r.1 !in notes ==> r.0 == notes[r.1 := Vault.Note(AlbumFields(host, notes[r.1 := Vault.Note(map[], "")], settings, album), "")]
  {
    var path := Utils.GetFilePath(host.normalizePath, settings.folderPath, album.id);
    if path in notes then (notes, path)
    else
      var created := notes[path := Vault.Note(map[], "")];
      (created[path := Vault.Note(AlbumFields(host, created, settings, album), "")], path)
  }

  /** `createAlbumFile`: the album's note is created first, then its frontmatter written. */
  method CreateAlbumFile(vault: Vault.Vault, host: LoggerHost, settings: Items.Settings, album: Items.Album)
    returns (path: string)
    modifies vault
    ensures (vault.notes, path) == CreateAlbumFileSpec(old(vault.notes), host, settings, album)
  {
    path := Utils.GetFilePath(host.normalizePath, settings.folderPath, album.id);
    if path in vault.notes {
      return;
    }
    vault.Create(path);
    var fields := AlbumFields(host, vault.notes, settings, album);
    vault.ProcessFrontMatter(path, fm => Some(fm + fields));
    assert map[] + fields == fields;
  }

  /** The notes and the track note's path after `createTrackFile`. */
  function CreateTrackFileSpec(notes: Vault.Notes, host: LoggerHost, settings: Items.Settings, track: Items.Track)
    : (r: (Vault.Notes, string))
    ensures r.1 == Utils.GetFilePath(host.normalizePath, settings.folderPath, track.id)
    ensures r.0.Keys == notes.Keys + {r.1}
  {
    var path := Utils.GetFilePath(host.normalizePath, settings.folderPath, track.id);
    if path in notes then (notes, path)
    else
      var created := notes[path := Vault.Note(map[], "")];
      var albumPath := Utils.GetFilePath(host.normalizePath, settings.folderPath, track.albumId);
      var linked := albumPath in created;
      var updated := if linked
        then Vault.Edited(created, albumPath, Vault.UpdateAlbumTracks(created[albumPath].frontmatter, track.name, PlainLink(track.id, track.name)))
        else created;
      var fields := TrackFields(settings, track, if linked then Scrobbler.AlbumLink(track) else "");
      (Vault.Edited(updated, path, Some(updated[path].frontmatter + fields)), path)
  }

  /** `createTrackFile`. */
  method CreateTrackFile(vault: Vault.Vault, host: LoggerHost, settings: Items.Settings, track: Items.Track)
    returns (path: string)
    modifies vault
    ensures (vault.notes, path) == CreateTrackFileSpec(old(vault.notes), host, settings, track)
  {
    path := Utils.GetFilePath(host.normalizePath, settings.folderPath, track.id);
    if path in vault.notes {
      return;
    }
    vault.Create(path);
    var albumLink := "";
    var albumPath := Utils.GetFilePath(host.normalizePath, settings.folderPath, track.albumId);
    if albumPath in vault.notes {
      albumLink := Scrobbler.AlbumLink(track);
      UpdateAlbumFrontmatter(vault, albumPath, track);
    }
    var fields := TrackFields(settings, track, albumLink);
    vault.ProcessFrontMatter(path, fm => Some(fm + fields));
  }

  /** An existing track note is returned as it is and no note changes. */
  lemma CreateTrackFileExisting(notes: Vault.Notes, host: LoggerHost, settings: Items.Settings, track: Items.Track)
    requires Utils.GetFilePath(host.normalizePath, settings.folderPath, track.id) in notes
    ensures CreateTrackFileSpec(notes, host, settings, track).0 == notes
  {
  }

  /**
   * A new track note gets the fields with `album` linked exactly when the
   * album has a note; the album's "tracks" gets the track's link; no other
   * note changes.
   */
  lemma CreateTrackFileNew(notes: Vault.Notes, host: LoggerHost, settings: Items.Settings, track: Items.Track)
    requires Utils.GetFilePath(host.normalizePath, settings.folderPath, track.id) !in notes
    requires Utils.GetFilePath(host.normalizePath, settings.folderPath, track.albumId)
          != Utils.GetFilePath(host.normalizePath, settings.folderPath, track.id)
    ensures var (r, path) := CreateTrackFileSpec(notes, host, settings, track);
      var albumPath := Utils.GetFilePath(host.normalizePath, settings.folderPath, track.albumId);
      && r[path] == Vault.Note(TrackFields(settings, track, if albumPath in notes then Scrobbler.AlbumLink(track) else ""), "")
      && (albumPath in notes ==> (r[albumPath].frontmatter ==
            Vault.UpdateAlbumTracks(notes[albumPath].frontmatter, track.name, PlainLink(track.id, track.name)).GetOr(notes[albumPath].frontmatter)))
      && forall p :: p in notes && p != albumPath ==> r[p] == notes[p]
  {
    var path := Utils.GetFilePath(host.normalizePath, settings.folderPath, track.id);
    var created := notes[path := Vault.Note(map[], "")];
    assert map[] + TrackFields(settings, track, if Utils.GetFilePath(host.normalizePath, settings.folderPath, track.albumId) in notes then Scrobbler.AlbumLink(track) else "")
        == TrackFields(settings, track, if Utils.GetFilePath(host.normalizePath, settings.folderPath, track.albumId) in notes then Scrobbler.AlbumLink(track) else "");
  }

  /**
   * The track note exists before the album is looked up: when a track's
   * album id names the track's own note, that new note counts as the album
   * note and the track links to itself, its own frontmatter untouched by
   * the album update (it has no "tracks" yet).
   */
  lemma TrackNoteCreatedBeforeAlbumLookup(notes: Vault.Notes, host: LoggerHost, settings: Items.Settings, track: Items.Track)
    requires Utils.GetFilePath(host.normalizePath, settings.folderPath, track.id) !in notes
    requires track.albumId == track.id
    ensures var (r, path) := CreateTrackFileSpec(notes, host, settings, track);
      r[path].frontmatter["album"] == Vault.Str(Scrobbler.AlbumLink(track))
  {
    var path := Utils.GetFilePath(host.normalizePath, settings.folderPath, track.id);
    var created := notes[path := Vault.Note(map[], "")];
    assert Vault.UpdateAlbumTracks(created[path].frontmatter, track.name, PlainLink(track.id, track.name)).None?;
    assert Scrobbler.AlbumLink(track) != "";
  }

  /** createTrackFile twice for the same track: the second call changes nothing. */
  lemma CreateTrackFileIdempotent(notes: Vault.Notes, host: LoggerHost, settings: Items.Settings, track: Items.Track)
    ensures var (r, path) := CreateTrackFileSpec(notes, host, settings, track);
      CreateTrackFileSpec(r, host, settings, track) == (r, path)
  {
  }

  /** The note of a picked item, made by `createTrackFile` or `createAlbumFile` as its type says, and the notes after that. */
  function ItemFileSpec(notes: Vault.Notes, host: LoggerHost, settings: Items.Settings, item: Items.Item): (r: (Vault.Notes, string))
    ensures r.1 == Utils.GetFilePath(host.normalizePath, settings.folderPath, item.Id())
    ensures r.0.Keys == notes.Keys + {r.1}
  {
    match item
    case TrackItem(t) => CreateTrackFileSpec(notes, host, settings, t)
    case AlbumItem(a) => CreateAlbumFileSpec(notes, host, settings, a)
  }

  /** `createTrackFile` or `createAlbumFile`, as the item's type says. */
  method CreateItemFile(vault: Vault.Vault, host: LoggerHost, settings: Items.Settings, item: Items.Item) returns (path: string)
    modifies vault
    ensures (vault.notes, path) == ItemFileSpec(old(vault.notes), host, settings, item)
  {
    match item {
      case TrackItem(t) =>
        path := CreateTrackFile(vault, host, settings, t);
      case AlbumItem(a) =>
        path := CreateAlbumFile(vault, host, settings, a);
    }
  }

  /** The notes after createTrackFile has run on each track in order. */
  function CreateTracksSpec(notes: Vault.Notes, host: LoggerHost, settings: Items.Settings, tracks: seq<Items.Track>): (r: Vault.Notes)
    ensures notes.Keys <= r.Keys
    ensures forall i :: 0 <= i < |tracks| ==> Utils.GetFilePath(host.normalizePath, settings.folderPath, tracks[i].id) in r
  {
    if tracks == [] then notes
    else
      var init := tracks[..|tracks| - 1];
      var before := CreateTracksSpec(notes, host, settings, init);
      assert forall i :: 0 <= i < |init| ==> init[i] == tracks[i];
      CreateTrackFileSpec(before, host, settings, tracks[|tracks| - 1]).0
  }

  /** The note a playing item is logged to and the notes before the entry is appended. */
  function PrepareSpec(notes: Vault.Notes, host: LoggerHost, settings: Items.Settings, playing: Items.Item): (r: (Vault.Notes, string))
    ensures r.1 in r.0 && notes.Keys <= r.0.Keys
  {
    match playing
    case TrackItem(t) => CreateTrackFileSpec(notes, host, settings, t)
    case AlbumItem(a) =>
      var (n, path) := CreateAlbumFileSpec(notes, host, settings, a);
      if settings.alwaysCreateTrackFiles then (CreateTracksSpec(n, host, settings, a.tracks), path) else (n, path)
  }

  /**
   * `logPlaying` up to the append: nothing playing returns null and changes
   * nothing; otherwise the notes are created and the entry appended.
   */
  method LogPlaying(vault: Vault.Vault, host: LoggerHost, settings: Items.Settings, date: string, input: string,
                    playing: Option<Items.Item>, blockId: string) returns (logged: bool)
    modifies vault
    ensures logged == playing.Some?
    ensures !logged ==> vault.notes == old(vault.notes)
    ensures logged ==>
      var (prepared, path) := PrepareSpec(old(vault.notes), host, settings, playing.value);
      vault.notes == Vault.Appended(prepared, path, Scrobbler.Entry(date, input, playing.value.Progress(), blockId, ""))
  {
    if playing.None? {
      return false;
    }
    var path: string;
    match playing.value {
      case TrackItem(t) =>
        path := CreateTrackFile(vault, host, settings, t);
      case AlbumItem(a) =>
        path := CreateAlbumFile(vault, host, settings, a);
        if settings.alwaysCreateTrackFiles {
          ghost var start := vault.notes;
          for i := 0 to |a.tracks|
            invariant vault.notes == CreateTracksSpec(start, host, settings, a.tracks[..i])
          {
            var _ := CreateTrackFile(vault, host, settings, a.tracks[i]);
            assert a.tracks[..i + 1][..i] == a.tracks[..i];
          }
          assert a.tracks[..|a.tracks|] == a.tracks;
        }
    }
    var _ := AppendInput(vault, path, date, input, playing.value.Progress(), blockId, "");
    logged := true;
  }
}
