/**
 * The part of Obsidian's vault that the loggers use: notes addressed by
 * normalised path, each a frontmatter map and a body. `vault.create`,
 * `vault.append` and `fileManager.processFrontMatter` are the methods of
 * class Vault; an edit given to processFrontMatter yields None when the
 * callback throws, and then the frontmatter is left as it was.
 */
module Vault {
  import opened Wrappers
  import Text

  /** A frontmatter value as the loggers write and read it; an empty YAML value is `Null`. */
  datatype FmValue = Str(s: string) | Num(n: int) | NaN | Null | Bool(b: bool) | List(items: seq<string>)

  type Frontmatter = map<string, FmValue>

  datatype Note = Note(frontmatter: Frontmatter, body: string)

  type Notes = map<string, Note>

  /** `getFileByPath(path)`: None is null. */
  function FileAt(notes: Notes, path: string): (r: Option<Note>)
    ensures r.Some? <==> path in notes
    ensures r.Some? ==> r.value == notes[path]
  {
    if path in notes then Some(notes[path]) else None
  }

  /**
   * The notes once an edit of the note at path has produced `edited`: the
   * new frontmatter, or None when the edit threw and nothing is written.
   */
  function Edited(notes: Notes, path: string, edited: Option<Frontmatter>): (r: Notes)
    requires path in notes
    ensures r.Keys == notes.Keys
    ensures forall p :: p in notes && p != path ==> r[p] == notes[p]
    ensures r[path].body == notes[path].body
    ensures r[path].frontmatter == edited.GetOr(notes[path].frontmatter)
  {
    match edited
    case Some(fm) => notes[path := notes[path].(frontmatter := fm)]
    case None => notes
  }

  /** The notes once text is appended to the body of the note at path. */
  function Appended(notes: Notes, path: string, text: string): (r: Notes)
    requires path in notes
    ensures r.Keys == notes.Keys
    ensures forall p :: p in notes && p != path ==> r[p] == notes[p]
    ensures r[path].frontmatter == notes[path].frontmatter
    ensures r[path].body == notes[path].body + text
  {
    notes[path := notes[path].(body := notes[path].body + text)]
  }

  /**
   * `tracks[tracks.indexOf(name)] = link` when the index is not -1: only the
   * first element equal to name is replaced.
   */
  function ReplaceFirst(tracks: seq<string>, name: string, link: string): (r: seq<string>)
    ensures |r| == |tracks|
    ensures name !in tracks ==> r == tracks
    ensures name in tracks ==>
      (exists k :: 0 <= k < |tracks| && tracks[k] == name && name !in tracks[..k] && r == tracks[k := link])
  {
    var k := Text.IndexOf(tracks, name);
    if k == -1 then tracks else tracks[k := link]
  }

  /**
   * The callback of `updateAlbumFrontmatter`: replaces the first entry of
   * "tracks" equal to the track name. Without a "tracks" list the callback
   * throws (or changes nothing) and nothing is written.
   */
  function UpdateAlbumTracks(fm: Frontmatter, name: string, link: string): (r: Option<Frontmatter>)
    ensures r.Some? <==> "tracks" in fm && fm["tracks"].List?
    ensures r.Some? ==> r.value == fm["tracks" := List(ReplaceFirst(fm["tracks"].items, name, link))]
  {
    if "tracks" in fm && fm["tracks"].List? then Some(fm["tracks" := List(ReplaceFirst(fm["tracks"].items, name, link))])
    else None
  }

  /** The callback of `updateTrackFrontmatter`: sets "album" and nothing else. */
  function SetAlbumLink(fm: Frontmatter, link: string): (r: Frontmatter)
    ensures r.Keys == fm.Keys + {"album"} && r["album"] == Str(link)
    ensures forall k :: k in fm && k != "album" ==> r[k] == fm[k]
  {
    fm["album" := Str(link)]
  }

  /**
   * The notes after `createFile`: an existing note is kept as it is;
   * otherwise an empty note is created and its frontmatter set by the
   * callback, which sees the notes with the new one already in them.
   */
  function CreateFileSpec(notes: Notes, path: string, setFrontmatter: Notes -> Frontmatter): (r: Notes)
    ensures r.Keys == notes.Keys + {path}
    ensures path in notes ==> r == notes
    ensures path !in notes ==> r[path] == Note(setFrontmatter(notes[path := Note(map[], "")]), "")
                               && forall p :: p in notes ==> r[p] == notes[p]
  {
    if path in notes then notes
    else
      var created := notes[path := Note(map[], "")];
      created[path := Note(setFrontmatter(created), "")]
  }

  /** createFile twice for the same path: the second call changes nothing. */
  lemma CreateFileIdempotent(notes: Notes, path: string, setFrontmatter: Notes -> Frontmatter, again: Notes -> Frontmatter)
    ensures CreateFileSpec(CreateFileSpec(notes, path, setFrontmatter), path, again) == CreateFileSpec(notes, path, setFrontmatter)
  {
  }

  class Vault {
    var notes: Notes

    constructor(notes: Notes)
      ensures this.notes == notes
    {
      this.notes := notes;
    }

    /** `vault.create(path, "")`: a new note with empty frontmatter and body. */
    method Create(path: string)
      requires path !in notes
      modifies this
      ensures notes == old(notes)[path := Note(map[], "")]
    {
      notes := notes[path := Note(map[], "")];
    }

    /** `vault.append(file, text)`. */
    method Append(path: string, text: string)
      requires path in notes
      modifies this
      ensures notes == Appended(old(notes), path, text)
    {
      notes := notes[path := notes[path].(body := notes[path].body + text)];
    }

    /** `fileManager.processFrontMatter(file, edit)`. */
    method ProcessFrontMatter(path: string, edit: Frontmatter -> Option<Frontmatter>)
      requires path in notes
      modifies this
      ensures notes == Edited(old(notes), path, edit(old(notes)[path].frontmatter))
    {
      match edit(notes[path].frontmatter)
      case Some(fm) => notes := notes[path := notes[path].(frontmatter := fm)];
      case None =>
    }
  }
}
