/**
 * The note logic of src/Scrobbler.ts: entries appended to a note body, one
 * note per track or album id created on first use, the settings that
 * decide which frontmatter keys a new note gets, and the cross-links
 * between a new track note and its album note. The formatters are the
 * same text in src/SpotifyLogger.ts, which uses these definitions too.
 */
module Scrobbler {
  import opened Wrappers
  import Text
  import Utils
  import Items
  import Vault
  import Wikilinks

  /**
   * Helpers of the plugin that are not part of this model, as functions:
   * `normalizePath`, `parseItemAsWikilink(item, false)`, `itemAsString`,
   * `generateIdFromTrack` and `tracksAsWikilinks` (which reads the vault).
   */
  datatype Host = Host(
    normalizePath: string -> string,
    itemAsWikilink: Items.Item -> string,
    itemAsString: (Items.Item, bool) -> string,
    idFromTrack: Items.Track -> string,
    tracksAsWikilinks: (Vault.Notes, Items.Settings, Items.Album) -> seq<string>)

  const NotSupportedMessage: string := "Playback state not supported"

  // ---------------------------------------------------------------- entries

  /** `^blockId` when a block id is given. */
  function BlockSuffix(blockId: string): string {
    if blockId != "" then "^" + blockId else ""
  }

  /** The entry with a playback position; `date` is the moment.js header. */
  function FormatInput(date: string, input: string, progress: string, blockId: string, referenceLink: string): string {
    "**" + date + "**" + "\n\n" + input + " " + BlockSuffix(blockId) + "\n\n"
    + "*" + (if referenceLink != "" then referenceLink + ", " else "") + progress + "*" + "\n\n---\n\n"
  }

  /** The entry without a playback position. */
  function FormatInputNoTimestamp(date: string, input: string, blockId: string, referenceLink: string): string {
    "**" + date + "**" + "\n\n" + input + " " + BlockSuffix(blockId) + "\n"
    + (if referenceLink != "" then "\n" + referenceLink + "\n" else "") + "\n---\n\n"
  }

  /** The entry `appendInput` writes: the progress form exactly when progress is not empty. */
  function Entry(date: string, input: string, progress: string, blockId: string, referenceLink: string): string {
    if progress != "" then FormatInput(date, input, progress, blockId, referenceLink)
    else FormatInputNoTimestamp(date, input, blockId, referenceLink)
  }

  /** The lines of an entry, one per element. */
  function EntryLines(date: string, input: string, progress: string, blockId: string, referenceLink: string): (r: seq<string>)
    ensures |r| >= 7 && r[|r| - 3..] == ["---", "", ""]
    ensures r[0] == "**" + date + "**" && r[2] == input + " " + BlockSuffix(blockId)
  {
    var head := ["**" + date + "**", "", input + " " + BlockSuffix(blockId), ""];
    if progress != "" then
      head + ["*" + (if referenceLink != "" then referenceLink + ", " else "") + progress + "*", ""] + ["---", "", ""]
    else
      head + (if referenceLink != "" then [referenceLink, ""] else []) + ["---", "", ""]
  }

  lemma JoinCons(x: string, xs: seq<string>)
    requires |xs| >= 1
    ensures Text.Join([x] + xs, "\n") == x + "\n" + Text.Join(xs, "\n")
  {
    assert ([x] + xs)[1..] == xs;
  }

  lemma {:induction false} JoinAppend(xs: seq<string>, ys: seq<string>)
    requires |xs| >= 1 && |ys| >= 1
    ensures Text.Join(xs + ys, "\n") == Text.Join(xs, "\n") + "\n" + Text.Join(ys, "\n")
    decreases |xs|
  {
    var zs := xs + ys;
    assert zs[0] == xs[0];
    if |xs| == 1 {
      assert zs[1..] == ys;
    } else {
      JoinAppend(xs[1..], ys);
      assert zs[1..] == xs[1..] + ys;
      var a, b, c := Text.Join(xs[1..], "\n"), Text.Join(ys, "\n"), xs[0];
      assert Text.Join(zs, "\n") == c + "\n" + (a + "\n" + b);
      assert Text.Join(xs, "\n") == c + "\n" + a;
      assert c + "\n" + (a + "\n" + b) == (c + "\n" + a) + "\n" + b;
    }
  }

  lemma TailLines()
    ensures Text.Join(["---", "", ""], "\n") == "---\n\n"
  {
    JoinCons("---", ["", ""]);
    JoinCons("", [""]);
    assert ["", ""][1..] == [""];
  }

  lemma HeadLines(a: string, b: string)
    ensures Text.Join([a, "", b, ""], "\n") == a + "\n\n" + b + "\n"
  {
    JoinCons(a, ["", b, ""]);
    assert ["", b, ""][1..] == [b, ""];
    JoinCons("", [b, ""]);
    assert [b, ""][1..] == [""];
    JoinCons(b, [""]);
  }

  lemma PairLines(a: string)
    ensures Text.Join([a, ""], "\n") == a + "\n"
  {
    JoinCons(a, [""]);
  }

  lemma ThreePartLines(head: seq<string>, middle: seq<string>)
    requires |head| >= 1 && |middle| >= 1
    ensures Text.Join(head + middle + ["---", "", ""], "\n")
         == Text.Join(head, "\n") + "\n" + Text.Join(middle, "\n") + "\n" + "---\n\n"
  {
    TailLines();
    JoinAppend(head, middle);
    JoinAppend(head + middle, ["---", "", ""]);
  }

  /** The joined lines of an entry with a middle line `m`, grouped as the formatters build them. */
  lemma MiddleLines(first: string, third: string, m: string)
    ensures Text.Join([first, "", third, ""] + [m, ""] + ["---", "", ""], "\n")
         == (first + "\n\n" + third + "\n") + "\n" + (m + "\n") + "\n" + "---\n\n"
  {
    HeadLines(first, third);
    PairLines(m);
    ThreePartLines([first, "", third, ""], [m, ""]);
  }

  lemma FormatInputText(date: string, input: string, progress: string, blockId: string, referenceLink: string)
    ensures var m := "*" + (if referenceLink != "" then referenceLink + ", " else "") + progress + "*";
      FormatInput(date, input, progress, blockId, referenceLink)
        == ("**" + date + "**" + "\n\n" + (input + " " + BlockSuffix(blockId)) + "\n") + "\n" + (m + "\n") + "\n" + "---\n\n"
  {
    var nl := "\n";
    assert "\n\n" == nl + nl;
    assert "\n\n---\n\n" == nl + nl + "---\n\n";
  }

  lemma NoTimestampTextWithReference(date: string, input: string, blockId: string, referenceLink: string)
    requires referenceLink != ""
    ensures FormatInputNoTimestamp(date, input, blockId, referenceLink)
         == ("**" + date + "**" + "\n\n" + (input + " " + BlockSuffix(blockId)) + "\n") + "\n" + (referenceLink + "\n") + "\n" + "---\n\n"
  {
    var nl := "\n";
    assert "\n---\n\n" == nl + "---\n\n";
  }

  lemma NoTimestampTextPlain(date: string, input: string, blockId: string)
    ensures FormatInputNoTimestamp(date, input, blockId, "")
         == ("**" + date + "**" + "\n\n" + (input + " " + BlockSuffix(blockId)) + "\n") + "\n" + "---\n\n"
  {
    var nl := "\n";
    assert "\n---\n\n" == nl + "---\n\n";
  }

  lemma FormatInputLines(date: string, input: string, progress: string, blockId: string, referenceLink: string)
    requires progress != ""
    ensures FormatInput(date, input, progress, blockId, referenceLink) == Text.Join(EntryLines(date, input, progress, blockId, referenceLink), "\n")
  {
    var first, third := "**" + date + "**", input + " " + BlockSuffix(blockId);
    var m := "*" + (if referenceLink != "" then referenceLink + ", " else "") + progress + "*";
    MiddleLines(first, third, m);
    FormatInputText(date, input, progress, blockId, referenceLink);
    assert EntryLines(date, input, progress, blockId, referenceLink) == [first, "", third, ""] + [m, ""] + ["---", "", ""];
  }

  lemma NoTimestampLinesWithReference(date: string, input: string, blockId: string, referenceLink: string)
    requires referenceLink != ""
    ensures FormatInputNoTimestamp(date, input, blockId, referenceLink) == Text.Join(EntryLines(date, input, "", blockId, referenceLink), "\n")
  {
    var first, third := "**" + date + "**", input + " " + BlockSuffix(blockId);
    MiddleLines(first, third, referenceLink);
    NoTimestampTextWithReference(date, input, blockId, referenceLink);
    assert EntryLines(date, input, "", blockId, referenceLink) == [first, "", third, ""] + [referenceLink, ""] + ["---", "", ""];
  }

  lemma NoTimestampLinesPlain(date: string, input: string, blockId: string)
    ensures FormatInputNoTimestamp(date, input, blockId, "") == Text.Join(EntryLines(date, input, "", blockId, ""), "\n")
  {
    var first, third := "**" + date + "**", input + " " + BlockSuffix(blockId);
    var head := [first, "", third, ""];
    HeadLines(first, third);
    TailLines();
    JoinAppend(head, ["---", "", ""]);
    NoTimestampTextPlain(date, input, blockId);
    assert EntryLines(date, input, "", blockId, "") == head + ["---", "", ""];
  }

  /** An entry is its lines joined with newlines. */
  lemma EntryIsLines(date: string, input: string, progress: string, blockId: string, referenceLink: string)
    ensures Entry(date, input, progress, blockId, referenceLink) == Text.Join(EntryLines(date, input, progress, blockId, referenceLink), "\n")
  {
    if progress != "" {
      FormatInputLines(date, input, progress, blockId, referenceLink);
    } else if referenceLink != "" {
      NoTimestampLinesWithReference(date, input, blockId, referenceLink);
    } else {
      NoTimestampLinesPlain(date, input, blockId);
    }
  }

  /**
   * When no part holds a line break, the lines of an entry are exactly
   * EntryLines: header, blank, text with the block marker, blank, the
   * optional reference or progress line, and a closing "---" followed by a
   * blank line.
   */
  lemma EntryLayout(date: string, input: string, progress: string, blockId: string, referenceLink: string)
    requires '\n' !in date && '\n' !in input && '\n' !in progress && '\n' !in blockId && '\n' !in referenceLink
    ensures Text.Split(Entry(date, input, progress, blockId, referenceLink), '\n') == EntryLines(date, input, progress, blockId, referenceLink)
  {
    var lines := EntryLines(date, input, progress, blockId, referenceLink);
    EntryIsLines(date, input, progress, blockId, referenceLink);
    forall i | 0 <= i < |lines| ensures '\n' !in lines[i] {
    }
    Text.SplitJoin(lines, '\n');
  }

  // ---------------------------------------------------------------- appendInput

  /**
   * `appendInput`: throws when no note exists at the path, otherwise appends
   * the entry to its body.
   */
  method AppendInput(vault: Vault.Vault, filePath: string, date: string, input: string,
                     progress: string, blockId: string, referenceLink: string) returns (r: Result<()>)
    modifies vault
    ensures filePath !in old(vault.notes) ==>
      r == Failure("File " + filePath + " could not be found") && vault.notes == old(vault.notes)
    ensures filePath in old(vault.notes) ==>
      r.Success? && vault.notes == Vault.Appended(old(vault.notes), filePath, Entry(date, input, progress, blockId, referenceLink))
  {
    if filePath !in vault.notes {
      return Failure("File " + filePath + " could not be found");
    }
    var formatted := "";
    if progress != "" {
      formatted := FormatInput(date, input, progress, blockId, referenceLink);
    } else {
      formatted := FormatInputNoTimestamp(date, input, blockId, referenceLink);
    }
    vault.Append(filePath, formatted);
    r := Success(());
  }

  // ---------------------------------------------------------------- frontmatter

  /** The frontmatter a new album note gets: the toggles decide type, release date, duration and tags. */
  function AlbumFields(host: Host, notes: Vault.Notes, settings: Items.Settings, album: Items.Album): (fm: Vault.Frontmatter)
    ensures "name" in fm && fm["name"] == Vault.Str(album.name)
    ensures "artists" in fm && fm["artists"] == Vault.Str(album.artists)
    ensures "tracks" in fm && fm["tracks"] == Vault.List(host.tracksAsWikilinks(notes, settings, album))
    ensures "aliases" in fm && fm["aliases"] == Vault.Str(host.itemAsString(Items.AlbumItem(album), settings.aliasShowArtists))
    ensures "type" in fm <==> settings.showType
    ensures "release date" in fm <==> settings.showAlbumReleaseDate
    ensures "duration" in fm <==> settings.showDuration
    ensures "tags" in fm <==> settings.showTags
    ensures "type" in fm ==> fm["type"] == Vault.Str("Album")
    ensures "release date" in fm ==> fm["release date"] == Vault.Str(album.releaseDate)
    ensures "duration" in fm ==> fm["duration"] == Vault.Str(album.duration)
    ensures "tags" in fm ==> fm["tags"] == Vault.Str("")
    ensures fm.Keys <= {"name", "artists", "type", "release date", "duration", "tracks", "tags", "aliases"}
  {
    var fm: Vault.Frontmatter := map["name" := Vault.Str(album.name), "artists" := Vault.Str(album.artists)];
    var fm := if settings.showType then fm["type" := Vault.Str("Album")] else fm;
    var fm := if settings.showAlbumReleaseDate then fm["release date" := Vault.Str(album.releaseDate)] else fm;
    var fm := if settings.showDuration then fm["duration" := Vault.Str(album.duration)] else fm;
    var fm := fm["tracks" := Vault.List(host.tracksAsWikilinks(notes, settings, album))];
    var fm := if settings.showTags then fm["tags" := Vault.Str("")] else fm;
    fm["aliases" := Vault.Str(host.itemAsString(Items.AlbumItem(album), settings.aliasShowArtists))]
  }

  /** The frontmatter a new track note gets; `album` is the link when there is one, else the album name. */
  function TrackFields(host: Host, settings: Items.Settings, track: Items.Track, albumLink: string): (fm: Vault.Frontmatter)
    ensures "name" in fm && fm["name"] == Vault.Str(track.name)
    ensures "artists" in fm && fm["artists"] == Vault.Str(track.artists)
    ensures "album" in fm && fm["album"] == Vault.Str(if albumLink != "" then albumLink else track.album)
    ensures "aliases" in fm && fm["aliases"] == Vault.Str(host.itemAsString(Items.TrackItem(track), settings.aliasShowArtists))
    ensures "type" in fm <==> settings.showType
    ensures "duration" in fm <==> settings.showDuration
    ensures "tags" in fm <==> settings.showTags
    ensures "type" in fm ==> fm["type"] == Vault.Str("Track")
    ensures "duration" in fm ==> fm["duration"] == Vault.Str(track.duration)
    ensures "tags" in fm ==> fm["tags"] == Vault.Str("")
    ensures fm.Keys <= {"name", "artists", "type", "album", "duration", "tags", "aliases"}
  {
    var fm: Vault.Frontmatter := map["name" := Vault.Str(track.name), "artists" := Vault.Str(track.artists)];
    var fm := if settings.showType then fm["type" := Vault.Str("Track")] else fm;
    var fm := fm["album" := Vault.Str(if albumLink != "" then albumLink else track.album)];
    var fm := if settings.showDuration then fm["duration" := Vault.Str(track.duration)] else fm;
    var fm := if settings.showTags then fm["tags" := Vault.Str("")] else fm;
    fm["aliases" := Vault.Str(host.itemAsString(Items.TrackItem(track), settings.aliasShowArtists))]
  }

  /** `updateTrackFrontmatter`: the album link goes into "album". */
  method UpdateTrackFrontmatter(vault: Vault.Vault, host: Host, trackPath: string, album: Items.Album)
    requires trackPath in vault.notes
    modifies vault
    ensures vault.notes == Vault.Edited(old(vault.notes), trackPath,
      Some(Vault.SetAlbumLink(old(vault.notes)[trackPath].frontmatter, host.itemAsWikilink(Items.AlbumItem(album)))))
  {
    var link := host.itemAsWikilink(Items.AlbumItem(album));
    vault.ProcessFrontMatter(trackPath, fm => Some(Vault.SetAlbumLink(fm, link)));
  }

  /** `updateAlbumFrontmatter`: the first "tracks" entry equal to the track name becomes its link. */
  method UpdateAlbumFrontmatter(vault: Vault.Vault, host: Host, albumPath: string, track: Items.Track)
    requires albumPath in vault.notes
    modifies vault
    ensures vault.notes == Vault.Edited(old(vault.notes), albumPath,
      Vault.UpdateAlbumTracks(old(vault.notes)[albumPath].frontmatter, track.name, host.itemAsWikilink(Items.TrackItem(track))))
  {
    var link := host.itemAsWikilink(Items.TrackItem(track));
    vault.ProcessFrontMatter(albumPath, fm => Vault.UpdateAlbumTracks(fm, track.name, link));
  }

  // ---------------------------------------------------------------- createFile

  /**
   * `createFile`: the note for an id. When it does not exist yet it is
   * created empty and `setFrontmatter` then fills it in, seeing the notes
   * with the new one in them.
   */
  method CreateFile(vault: Vault.Vault, host: Host, settings: Items.Settings, id: string,
                    setFrontmatter: Vault.Notes -> Vault.Frontmatter) returns (path: string)
    modifies vault
    ensures path == Utils.GetFilePath(host.normalizePath, settings.folderPath, id)
    ensures vault.notes == Vault.CreateFileSpec(old(vault.notes), path, setFrontmatter)
  {
    path := Utils.GetFilePath(host.normalizePath, settings.folderPath, id);
    if path in vault.notes {
      return;
    }
    vault.Create(path);
    var fields := setFrontmatter(vault.notes);
    vault.ProcessFrontMatter(path, fm => Some(fm + fields));
    assert map[] + fields == fields;
  }

  /** The callback `createAlbumFile` hands to `createFile`. */
  function SetAlbumFrontmatter(host: Host, settings: Items.Settings, album: Items.Album): (callback: Vault.Notes -> Vault.Frontmatter)
    ensures forall notes :: callback(notes) == AlbumFields(host, notes, settings, album)
  {
    notes => AlbumFields(host, notes, settings, album)
  }

  /** The callback `createTrackFile` hands to `createFile`: it does not look at the notes. */
  function SetTrackFrontmatter(host: Host, settings: Items.Settings, track: Items.Track, albumLink: string)
    : (callback: Vault.Notes -> Vault.Frontmatter)
    ensures forall notes :: callback(notes) == TrackFields(host, settings, track, albumLink)
  {
    _ => TrackFields(host, settings, track, albumLink)
  }

  /**
   * The notes and the album note's path after `createAlbumFile`; the track
   * list is computed once the album's own note exists.
   */
  function CreateAlbumFileSpec(notes: Vault.Notes, host: Host, settings: Items.Settings, album: Items.Album): (r: (Vault.Notes, string))
    ensures r.1 == Utils.GetFilePath(host.normalizePath, settings.folderPath, album.id)
    ensures r.1 in notes ==> r.0 == notes
    ensures r.1 !in notes ==> r.0 == notes[r.1 := Vault.Note(AlbumFields(host, notes[r.1 := Vault.Note(map[], "")], settings, album), "")]
  {
    var path := Utils.GetFilePath(host.normalizePath, settings.folderPath, album.id);
    (Vault.CreateFileSpec(notes, path, SetAlbumFrontmatter(host, settings, album)), path)
  }

  /** `createAlbumFile`. */
  method CreateAlbumFile(vault: Vault.Vault, host: Host, settings: Items.Settings, album: Items.Album)
    returns (path: string)
    modifies vault
    ensures (vault.notes, path) == CreateAlbumFileSpec(old(vault.notes), host, settings, album)
  {
    path := CreateFile(vault, host, settings, album.id, SetAlbumFrontmatter(host, settings, album));
  }

  /** The id `createTrackFile` files a track under: a local track without one gets the derived id. */
  function TrackId(host: Host, track: Items.Track): string {
    if track.id == "" then host.idFromTrack(track) else track.id
  }

  /** `[[albumid|album]]`, the link a new track note gets when its album has a note. */
  function AlbumLink(track: Items.Track): (r: string)
    ensures Wikilinks.WellFormed(Wikilinks.Wikilink(false, track.albumId, "", track.album)) ==>
      Wikilinks.Parse(r) == Some(Wikilinks.Wikilink(false, track.albumId, "", track.album))
  {
    var w := Wikilinks.Wikilink(false, track.albumId, "", track.album);
    assert Wikilinks.Render(w) == "[[" + track.albumId + "|" + track.album + "]]";
    if Wikilinks.WellFormed(w) then Wikilinks.ParseRender(w); "[[" + track.albumId + "|" + track.album + "]]"
    else "[[" + track.albumId + "|" + track.album + "]]"
  }

  /**
   * The notes, the track note's path and the track (with its id withId)
   * after `createTrackFile`.
   */
  function CreateTrackFileSpec(notes: Vault.Notes, host: Host, settings: Items.Settings, track: Items.Track)
    : (r: (Vault.Notes, string, Items.Track))
    ensures r.2 == track.(id := TrackId(host, track))
    ensures r.1 == Utils.GetFilePath(host.normalizePath, settings.folderPath, r.2.id)
    ensures r.0.Keys == notes.Keys + {r.1}
  {
    var t := track.(id := TrackId(host, track));
    var path := Utils.GetFilePath(host.normalizePath, settings.folderPath, t.id);
    if path in notes then (notes, path, t)
    else
      var albumPath := Utils.GetFilePath(host.normalizePath, settings.folderPath, t.albumId);
      var linked := albumPath in notes;
      var notes1 := if linked
        then Vault.Edited(notes, albumPath, Vault.UpdateAlbumTracks(notes[albumPath].frontmatter, t.name, host.itemAsWikilink(Items.TrackItem(t))))
        else notes;
      (Vault.CreateFileSpec(notes1, path, SetTrackFrontmatter(host, settings, t, if linked then AlbumLink(t) else "")), path, t)
  }

  /** `createTrackFile`. */
  method CreateTrackFile(vault: Vault.Vault, host: Host, settings: Items.Settings, track: Items.Track)
    returns (path: string, withId: Items.Track)
    modifies vault
    ensures (vault.notes, path, withId) == CreateTrackFileSpec(old(vault.notes), host, settings, track)
  {
    withId := track;
    if withId.id == "" {
      withId := withId.(id := host.idFromTrack(track));
    }
    path := Utils.GetFilePath(host.normalizePath, settings.folderPath, withId.id);
    if path in vault.notes {
      return;
    }
    var albumLink := "";
    var albumPath := Utils.GetFilePath(host.normalizePath, settings.folderPath, withId.albumId);
    if albumPath in vault.notes {
      albumLink := AlbumLink(withId);
      UpdateAlbumFrontmatter(vault, host, albumPath, withId);
    }
    var _ := CreateFile(vault, host, settings, withId.id, SetTrackFrontmatter(host, settings, withId, albumLink));
  }

  /** An existing track note is returned as it is, and no other note (the album's included) is touched. */
  lemma CreateTrackFileExisting(notes: Vault.Notes, host: Host, settings: Items.Settings, track: Items.Track)
    requires Utils.GetFilePath(host.normalizePath, settings.folderPath, TrackId(host, track)) in notes
    ensures CreateTrackFileSpec(notes, host, settings, track).0 == notes
  {
  }

  /**
   * A new track note: its "album" is `[[albumid|album]]` exactly when the
   * album has a note, else the album name; the album note's "tracks" has
   * the first entry equal to the track name replaced by the track's link;
   * every other note stays as it was.
   */
  lemma CreateTrackFileNew(notes: Vault.Notes, host: Host, settings: Items.Settings, track: Items.Track)
    requires Utils.GetFilePath(host.normalizePath, settings.folderPath, TrackId(host, track)) !in notes
    ensures var (r, path, t) := CreateTrackFileSpec(notes, host, settings, track);
      var albumPath := Utils.GetFilePath(host.normalizePath, settings.folderPath, t.albumId);
      && r[path].body == ""
      && r[path].frontmatter["album"] == Vault.Str(if albumPath in notes then AlbumLink(t) else t.album)
      && (albumPath in notes ==> (r[albumPath].frontmatter ==
            Vault.UpdateAlbumTracks(notes[albumPath].frontmatter, t.name, host.itemAsWikilink(Items.TrackItem(t))).GetOr(notes[albumPath].frontmatter)))
      && forall p :: p in notes && p != albumPath ==> r[p] == notes[p]
  {
    var (r, path, t) := CreateTrackFileSpec(notes, host, settings, track);
    var albumPath := Utils.GetFilePath(host.normalizePath, settings.folderPath, t.albumId);
    assert AlbumLink(t) != "";
  }

  /** createTrackFile twice for the same track: the second call changes nothing. */
  lemma CreateTrackFileIdempotent(notes: Vault.Notes, host: Host, settings: Items.Settings, track: Items.Track)
    ensures var (r, path, t) := CreateTrackFileSpec(notes, host, settings, track);
      CreateTrackFileSpec(r, host, settings, track) == (r, path, t)
  {
  }

  /**
   * An id-less track is looked up under its derived id: creating it is the
   * same as creating the track with that id already withId.
   */
  lemma CreateTrackFileDerivesId(notes: Vault.Notes, host: Host, settings: Items.Settings, track: Items.Track)
    requires track.id == "" && host.idFromTrack(track) != ""
    ensures CreateTrackFileSpec(notes, host, settings, track)
         == CreateTrackFileSpec(notes, host, settings, track.(id := host.idFromTrack(track)))
  {
  }

  /** createAlbumFile twice: the second call changes nothing. */
  lemma CreateAlbumFileIdempotent(notes: Vault.Notes, host: Host, settings: Items.Settings, album: Items.Album)
    ensures var (r, path) := CreateAlbumFileSpec(notes, host, settings, album);
      path in r && CreateAlbumFileSpec(r, host, settings, album) == (r, path)
  {
  }

  // ---------------------------------------------------------------- scrobbleItem

  /** The notes after createTrackFile has run on each track in order. */
  function CreateTracksSpec(notes: Vault.Notes, host: Host, settings: Items.Settings, tracks: seq<Items.Track>): (r: Vault.Notes)
    ensures notes.Keys <= r.Keys
  {
    if tracks == [] then notes
    else CreateTrackFileSpec(CreateTracksSpec(notes, host, settings, tracks[..|tracks| - 1]), host, settings, tracks[|tracks| - 1]).0
  }

  /** After the album loop every listed track has a note under its (possibly derived) id. */
  lemma {:induction false} EveryTrackHasNote(notes: Vault.Notes, host: Host, settings: Items.Settings, tracks: seq<Items.Track>, i: nat)
    requires i < |tracks|
    ensures Utils.GetFilePath(host.normalizePath, settings.folderPath, TrackId(host, tracks[i])) in CreateTracksSpec(notes, host, settings, tracks)
  {
    var last := |tracks| - 1;
    if i < last {
      EveryTrackHasNote(notes, host, settings, tracks[..last], i);
      assert tracks[..last][i] == tracks[i];
    }
  }

  /** The note an item is logged to and the notes before the entry is appended. */
  function PrepareSpec(notes: Vault.Notes, host: Host, settings: Items.Settings, item: Items.Item): (r: (Vault.Notes, string))
    ensures r.1 in r.0 && notes.Keys <= r.0.Keys
  {
    match item
    case TrackItem(t) =>
      var (n, path, _) := CreateTrackFileSpec(notes, host, settings, t);
      (n, path)
    case AlbumItem(a) =>
      var (n, path) := CreateAlbumFileSpec(notes, host, settings, a);
      if settings.alwaysCreateTrackFiles then (CreateTracksSpec(n, host, settings, a.tracks), path) else (n, path)
  }

  /**
   * `scrobbleItem` up to the append: no item throws "Playback state not
   * supported"; otherwise the item's note (and, for an album with the
   * setting on, a note per track) is created and the entry appended to the
   * item's note, which never fails.
   */
  method ScrobbleItem(vault: Vault.Vault, host: Host, settings: Items.Settings, date: string, input: string,
                      item: Option<Items.Item>, blockId: string) returns (r: Result<()>)
    modifies vault
    ensures item.None? ==> r == Failure(NotSupportedMessage) && vault.notes == old(vault.notes)
    ensures item.Some? ==> (r.Success? &&
      var (prepared, path) := PrepareSpec(old(vault.notes), host, settings, item.value);
      vault.notes == Vault.Appended(prepared, path, Entry(date, input, item.value.Progress(), blockId, "")))
  {
    if item.None? {
      return Failure(NotSupportedMessage);
    }
    var path: string;
    match item.value {
    case TrackItem(t) =>
      var filed;
      path, filed := CreateTrackFile(vault, host, settings, t);
    case AlbumItem(a) =>
      path := CreateAlbumFile(vault, host, settings, a);
      if settings.alwaysCreateTrackFiles {
        ghost var start := vault.notes;
        for i := 0 to |a.tracks|
          invariant vault.notes == CreateTracksSpec(start, host, settings, a.tracks[..i])
        {
          var _, _ := CreateTrackFile(vault, host, settings, a.tracks[i]);
          assert a.tracks[..i + 1][..i] == a.tracks[..i];
        }
        assert a.tracks[..|a.tracks|] == a.tracks;
      }
    }
    r := AppendInput(vault, path, date, input, item.value.Progress(), blockId, "");
  }
}
