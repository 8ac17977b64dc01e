/**
 * The log modal of src/ui/SpotifyLogModal.ts. Unlike the reference modals
 * it writes every reference the moment it is picked: the picked item's
 * note is made, a fresh block id replaces the previous one, and the
 * subject's block is embedded at the end of that note. Submitting hands on
 * the text and the latest block id. The modal holds a folder path and the
 * album flag rather than the settings record, see `SettingsReadFromString`.
 */
module SpotifyLogModal {
  import opened Wrappers
  import Utils
  import Items
  import Vault
  import Scrobbler
  import SpotifyLogger

  const InvalidFolderMessage: string := "invalid folder path, please check the defined folder path in settings."
  const BlockIdLength: nat := 6

  /**
   * The settings `createTrackFile` and `createAlbumFile` read when they are
   * handed the modal's folder path string instead of a settings record:
   * every destructured field is undefined, so the folder becomes the text
   * "undefined" and every switch is off.
   */
  function SettingsReadFromString(folderPath: string, alwaysCreate: bool): (s: Items.Settings)
    ensures s.folderPath == "undefined"
    ensures !s.alwaysCreateTrackFiles && !s.showType && !s.showDuration && !s.showTags && !s.showAlbumReleaseDate
  {
    Items.Settings("undefined", false, false, false, false, false, false)
  }

  /** As written, a picked item's note path does not depend on the modal's folder at all. */
  lemma AsWrittenPathIgnoresFolder(notes: Vault.Notes, host: SpotifyLogger.LoggerHost, folderPath: string, alwaysCreate: bool,
                                   item: Items.Item)
    ensures SpotifyLogger.ItemFileSpec(notes, host, SettingsReadFromString(folderPath, alwaysCreate), item).1
         == host.normalizePath("undefined/" + item.Id() + ".md")
  {
    var settings := SettingsReadFromString(folderPath, alwaysCreate);
    assert SpotifyLogger.ItemFileSpec(notes, host, settings, item).1 == Utils.GetFilePath(host.normalizePath, "undefined", item.Id());
    assert Utils.RawFilePath("undefined", item.Id()) == "undefined/" + item.Id() + ".md";
  }

  /** With a path normaliser that keeps its input, a pick from folder "Music" lands outside it. */
  lemma AsWrittenMisplacesNote()
    ensures Utils.GetFilePath(s => s, SettingsReadFromString("Music", false).folderPath, "x") == "undefined/x.md"
    ensures Utils.GetFilePath(s => s, "Music", "x") == "Music/x.md"
  {
  }

  /**
   * The settings the modal evidently means to pass: its own folder and
   * album flag. It holds no display switches, so those stay off.
   */
  function IntendedSettings(folderPath: string, alwaysCreate: bool): (s: Items.Settings)
    ensures s.folderPath == folderPath && s.alwaysCreateTrackFiles == alwaysCreate
    ensures !s.showType && !s.showDuration && !s.showTags && !s.showAlbumReleaseDate
  {
    Items.Settings(folderPath, alwaysCreate, false, false, false, false, false)
  }

  /** With the intended settings a picked item's note lives in the modal's folder. */
  lemma IntendedPathInFolder(notes: Vault.Notes, host: SpotifyLogger.LoggerHost, folderPath: string, alwaysCreate: bool,
                             item: Items.Item)
    ensures SpotifyLogger.ItemFileSpec(notes, host, IntendedSettings(folderPath, alwaysCreate), item).1
         == host.normalizePath(folderPath + "/" + item.Id() + ".md")
  {
  }

  class SpotifyLogModal {
    const vault: Vault.Vault
    const host: SpotifyLogger.LoggerHost
    const folderPath: string
    /** `logAlbumAlwaysCreateNewTrackFiles`. */
    const alwaysCreate: bool
    /** `this.playing`; none for an episode, when the modal has no body. */
    const playing: Option<Items.Item>
    var input: string
    var blockId: Option<string>

    constructor(vault: Vault.Vault, host: SpotifyLogger.LoggerHost, folderPath: string, alwaysCreate: bool,
                playing: Option<Items.Item>)
      ensures this.vault == vault && this.host == host && this.folderPath == folderPath
      ensures this.alwaysCreate == alwaysCreate && this.playing == playing
      ensures input == "" && blockId == None
    {
      this.vault := vault;
      this.host := host;
      this.folderPath := folderPath;
      this.alwaysCreate := alwaysCreate;
      this.playing := playing;
      input := "";
      blockId := None;
    }

    function Settings(): Items.Settings {
      IntendedSettings(folderPath, alwaysCreate)
    }

    /** Where a picked item's note lives. */
    function ItemPath(item: Items.Item): string {
      Utils.GetFilePath(host.normalizePath, folderPath, item.Id())
    }

    /** The entry appended to a picked item's note: the subject's block `id` embedded, its progress, its link. */
    function BacklinkEntry(subject: Items.Item, date: string, id: string): string {
      Scrobbler.Entry(date, Utils.ParsePlayingAsWikilink(subject.Id(), subject.Name(), true, id), subject.Progress(), "",
                      Utils.ParsePlayingAsWikilink(subject.Id(), subject.Name(), false, ""))
    }

    /** The notes after one pick: the item's note, made when missing, with the backlink entry at its end. */
    function Backlink(notes: Vault.Notes, subject: Items.Item, date: string, id: string, item: Items.Item): (r: Vault.Notes)
      ensures r.Keys == notes.Keys + {ItemPath(item)}
      ensures var (created, path) := SpotifyLogger.ItemFileSpec(notes, host, Settings(), item);
        r[path].body == created[path].body + BacklinkEntry(subject, date, id)
        && forall p :: p in created && p != path ==> r[p] == created[p]
    {
      var (created, path) := SpotifyLogger.ItemFileSpec(notes, host, Settings(), item);
      Vault.Appended(created, path, BacklinkEntry(subject, date, id))
    }

    /** A pick's note exists and ends with the entry that embeds the block id drawn for it. */
    lemma PickedNoteEndsWithEntry(notes: Vault.Notes, subject: Items.Item, date: string, id: string, item: Items.Item)
      ensures var r := Backlink(notes, subject, date, id, item);
        var entry := BacklinkEntry(subject, date, id);
        && ItemPath(item) in r
        && |entry| <= |r[ItemPath(item)].body|
        && r[ItemPath(item)].body[|r[ItemPath(item)].body| - |entry|..] == entry
    {
      var r := Backlink(notes, subject, date, id, item);
      var (created, path) := SpotifyLogger.ItemFileSpec(notes, host, Settings(), item);
      var entry := BacklinkEntry(subject, date, id);
      assert r[path].body == created[path].body + entry;
      assert r[path].body[|r[path].body| - |entry|..] == entry;
    }

    /** `textComponent.onChange`. */
    method Edit(value: string)
      modifies this
      ensures input == value && blockId == old(blockId)
    {
      input := value;
    }

    /**
     * `handleChooseSuggestion`: nothing happens without a subject or when
     * the subject itself is picked; otherwise the pick's link is appended to
     * the text, a fresh block id replaces the last one and the backlink is
     * written at once.
     */
    method Choose(item: Items.Item, date: string, draw: nat -> Utils.CharIndex) returns (chosen: bool)
      modifies this, vault
      ensures chosen <==> playing.Some? && playing.value.Id() != item.Id()
      ensures !chosen ==> input == old(input) && blockId == old(blockId) && vault.notes == old(vault.notes)
      ensures chosen ==> input == old(input) + Utils.ParsePlayingAsWikilink(item.Id(), item.Name(), false, "")
      ensures chosen ==> blockId == Some(Utils.BlockIdOf(BlockIdLength, draw))
      ensures chosen ==> vault.notes == Backlink(old(vault.notes), playing.value, date, Utils.BlockIdOf(BlockIdLength, draw), item)
    {
      if playing.None? || playing.value.Id() == item.Id() {
        return false;
      }
      var subject := playing.value;
      var path := SpotifyLogger.CreateItemFile(vault, host, Settings(), item);
      input := input + Utils.ParsePlayingAsWikilink(item.Id(), item.Name(), false, "");
      var id := Utils.GenerateBlockID(BlockIdLength, draw);
      blockId := Some(id);
      var _ := SpotifyLogger.AppendInput(vault, path, date, Utils.ParsePlayingAsWikilink(subject.Id(), subject.Name(), true, id),
                                         subject.Progress(), "", Utils.ParsePlayingAsWikilink(subject.Id(), subject.Name(), false, ""));
      return true;
    }

    /** `handleSubmit`: the text and the latest block id are handed on and the id is cleared; no note changes. */
    method Submit() returns (submittedInput: string, submittedBlockId: Option<string>)
      modifies this
      ensures submittedInput == old(input) && submittedBlockId == old(blockId)
      ensures input == old(input) && blockId == None
    {
      submittedInput, submittedBlockId := input, blockId;
      blockId := None;
    }
  }

  /**
   * The constructor: with nothing playing (an episode) it returns a modal
   * without a body; otherwise it throws when the folder does not exist.
   */
  method Open(vault: Vault.Vault, folders: set<string>, host: SpotifyLogger.LoggerHost, folderPath: string,
              alwaysCreate: bool, playing: Option<Items.Item>) returns (r: Result<SpotifyLogModal>)
    ensures r.Failure? <==> playing.Some? && host.normalizePath(folderPath) !in folders
    ensures r.Failure? ==> r.message == InvalidFolderMessage
    ensures r.Success? ==> (fresh(r.value) && r.value.vault == vault && r.value.playing == playing
      && r.value.folderPath == folderPath && r.value.alwaysCreate == alwaysCreate && r.value.input == "" && r.value.blockId == None)
  {
    if playing.Some? && host.normalizePath(folderPath) !in folders {
      return Failure(InvalidFolderMessage);
    }
    var modal := new SpotifyLogModal(vault, host, folderPath, alwaysCreate, playing);
    return Success(modal);
  }
}
