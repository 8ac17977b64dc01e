/**
 * `logSong` of the oldest generation (SpotifyLogger.ts): one note per
 * Spotify track id whose "log count" frontmatter is created at 1 and
 * incremented on every later log. The editor work after the note is
 * ready (opening the leaf, inserting the date) is not part of this model.
 */
module LegacyLogger {
  import opened Wrappers
  import Text
  import Utils
  import Api
  import Vault

  const LogCount := "log count"

  /**
   * JavaScript's `x += 1` on a frontmatter value: numbers add, null counts
   * as 0 and a boolean as 0 or 1, a missing value or NaN gives NaN, and a
   * string or an array (which JavaScript first turns into its comma-joined
   * text) gets "1" appended.
   */
  function Increment(v: Option<Vault.FmValue>): (r: Vault.FmValue)
    ensures r.Num? <==> v.Some? && (v.value.Num? || v.value.Null? || v.value.Bool?)
    ensures v.Some? && v.value.Num? ==> r == Vault.Num(v.value.n + 1)
    ensures v == Some(Vault.Null) ==> r == Vault.Num(1)
    ensures v.Some? && v.value.Bool? ==> r == Vault.Num(if v.value.b then 2 else 1)
    ensures v.None? || v == Some(Vault.NaN) <==> r.NaN?
    ensures v.Some? && v.value.Str? ==> r == Vault.Str(v.value.s + "1")
    ensures v.Some? && v.value.List? ==> r == Vault.Str(Text.Join(v.value.items, ",") + "1")
  {
    match v
    case None => Vault.NaN
    case Some(Num(n)) => Vault.Num(n + 1)
    case Some(NaN) => Vault.NaN
    case Some(Null) => Vault.Num(1)
    case Some(Bool(b)) => Vault.Num(if b then 2 else 1)
    case Some(Str(s)) => Vault.Str(s + "1")
    case Some(List(items)) => Vault.Str(Text.Join(items, ",") + "1")
  }

  /** The frontmatter written into a newly created note. */
  function NewFields(song: Api.ApiTrack): (fm: Vault.Frontmatter)
    ensures fm.Keys == {"title", "artists", "album", LogCount, "aliases"}
    ensures fm["title"] == Vault.Str(song.name) && fm["aliases"] == Vault.Str(song.name)
    ensures fm["artists"] == Vault.Str(Text.Join(song.artistNames, ", "))
    ensures fm["album"] == Vault.Str(song.album.name)
    ensures fm[LogCount] == Vault.Num(1)
  {
    map["title" := Vault.Str(song.name), "artists" := Vault.Str(Text.Join(song.artistNames, ", ")),
        "album" := Vault.Str(song.album.name), LogCount := Vault.Num(1), "aliases" := Vault.Str(song.name)]
  }

  /** The frontmatter after one more log of an existing note. */
  function Counted(fm: Vault.Frontmatter): (r: Vault.Frontmatter)
    ensures r.Keys == fm.Keys + {LogCount}
    ensures forall k :: k in fm && k != LogCount ==> r[k] == fm[k]
    ensures LogCount in fm && fm[LogCount].Num? ==> r[LogCount] == Vault.Num(fm[LogCount].n + 1)
  {
    fm[LogCount := Increment(if LogCount in fm then Some(fm[LogCount]) else None)]
  }

  /** The notes after `logSong` and the path of the song's note. */
  function LogSongSpec(notes: Vault.Notes, normalizePath: string -> string, folderPath: string, song: Api.ApiTrack)
    : (r: (Vault.Notes, string))
    ensures r.1 == Utils.GetFilePath(normalizePath, folderPath, song.id)
    ensures r.0.Keys == notes.Keys + {r.1}
    ensures forall p :: p in notes && p != r.1 ==> r.0[p] == notes[p]
    ensures r.0[r.1].body == (if r.1 in notes then notes[r.1].body else "")
  {
    var path := Utils.GetFilePath(normalizePath, folderPath, song.id);
    if path !in notes then
      (notes[path := Vault.Note(NewFields(song), "")], path)
    else
      (Vault.Edited(notes, path, Some(Counted(notes[path].frontmatter))), path)
  }

  /** `logSong`: create the note with a count of 1, or add 1 to its count. */
  method LogSong(vault: Vault.Vault, normalizePath: string -> string, folderPath: string, song: Api.ApiTrack)
    returns (path: string)
    modifies vault
    ensures (vault.notes, path) == LogSongSpec(old(vault.notes), normalizePath, folderPath, song)
  {
    path := Utils.GetFilePath(normalizePath, folderPath, song.id);
    if path !in vault.notes {
      vault.Create(path);
      var fields := NewFields(song);
      vault.ProcessFrontMatter(path, fm => Some(fm + fields));
      assert map[] + fields == fields;
      assert vault.notes == old(vault.notes)[path := Vault.Note(fields, "")];
    } else {
      vault.ProcessFrontMatter(path, fm => Some(Counted(fm)));
    }
  }

  /** A new note holds title, artists, album, aliases and a count of 1. */
  lemma LogSongNew(notes: Vault.Notes, normalizePath: string -> string, folderPath: string, song: Api.ApiTrack)
    requires Utils.GetFilePath(normalizePath, folderPath, song.id) !in notes
    ensures var (r, path) := LogSongSpec(notes, normalizePath, folderPath, song);
      r[path].frontmatter == NewFields(song)
  {
  }

  /** Logging an existing note changes its "log count" and nothing else. */
  lemma LogSongOnlyCounts(notes: Vault.Notes, normalizePath: string -> string, folderPath: string, song: Api.ApiTrack)
    requires Utils.GetFilePath(normalizePath, folderPath, song.id) in notes
    ensures var (r, path) := LogSongSpec(notes, normalizePath, folderPath, song);
      && r[path].frontmatter.Keys == notes[path].frontmatter.Keys + {LogCount}
      && (forall k :: k in notes[path].frontmatter && k != LogCount ==> r[path].frontmatter[k] == notes[path].frontmatter[k])
      && (LogCount in notes[path].frontmatter && notes[path].frontmatter[LogCount].Num? ==>
            r[path].frontmatter[LogCount] == Vault.Num(notes[path].frontmatter[LogCount].n + 1))
  {
  }

  /** The notes after the same song is logged n times. */
  function LogSongTimes(notes: Vault.Notes, normalizePath: string -> string, folderPath: string, song: Api.ApiTrack, n: nat)
    : (r: Vault.Notes)
    ensures n > 0 ==> Utils.GetFilePath(normalizePath, folderPath, song.id) in r
  {
    if n == 0 then notes
    else LogSongSpec(LogSongTimes(notes, normalizePath, folderPath, song, n - 1), normalizePath, folderPath, song).0
  }

  /**
   * Logging a song n >= 1 times, starting without its note, leaves a count
   * of n; the other fields stay those the first log wrote.
   */
  lemma {:induction false} LogSongCountsLogs(notes: Vault.Notes, normalizePath: string -> string, folderPath: string,
                                             song: Api.ApiTrack, n: nat)
    requires Utils.GetFilePath(normalizePath, folderPath, song.id) !in notes
    requires n >= 1
    ensures var r := LogSongTimes(notes, normalizePath, folderPath, song, n);
      r[Utils.GetFilePath(normalizePath, folderPath, song.id)].frontmatter == NewFields(song)[LogCount := Vault.Num(n)]
  {
    if n > 1 {
      LogSongCountsLogs(notes, normalizePath, folderPath, song, n - 1);
    }
  }
}
