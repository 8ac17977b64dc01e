/**
 * The reference session of src/ui/LogModal.ts, the logging counterpart of
 * module ScrobbleModal. It differs in the block ids: a fresh one is drawn
 * for every queued item, and the one handed on with the entry is the last
 * one drawn, which belongs to the earliest pick; with nothing queued none
 * is drawn. Notes are made by module SpotifyLogger and links by
 * `parsePlayingAsWikilink`.
 */
module LogModal {
  import opened Wrappers
  import Utils
  import Items
  import Vault
  import Scrobbler
  import SpotifyLogger
  import Drain

  const NotSupportedMessage: string := "current track not supported"
  const InvalidFolderMessage: string := "invalid folder path, please check the defined folder path in settings."
  const BlockIdLength: nat := 6

  /** The random source of the k-th block id drawn during one submit is `draws(k)`. */
  type Draws = nat -> nat -> Utils.CharIndex

  /** The k-th block id drawn. */
  function DrawnId(draws: Draws, k: nat): (r: string)
    ensures |r| == BlockIdLength
  {
    Utils.BlockIdOf(BlockIdLength, draws(k))
  }

  class LogModal {
    const vault: Vault.Vault
    const host: SpotifyLogger.LoggerHost
    const settings: Items.Settings
    /** `this.playing`, present once the constructor has not thrown. */
    const subject: Items.Item
    var input: string
    var pendingPlayings: seq<Items.Item>
    var blockId: Option<string>

    constructor(vault: Vault.Vault, host: SpotifyLogger.LoggerHost, settings: Items.Settings, subject: Items.Item)
      ensures this.vault == vault && this.host == host && this.settings == settings && this.subject == subject
      ensures input == "" && pendingPlayings == [] && blockId == None
    {
      this.vault := vault;
      this.host := host;
      this.settings := settings;
      this.subject := subject;
      input := "";
      pendingPlayings := [];
      blockId := None;
    }

    /** Where an item's note lives. */
    function ItemPath(item: Items.Item): string {
      Utils.GetFilePath(host.normalizePath, settings.folderPath, item.Id())
    }

    /** The entry appended to a referenced item's note for block id `id`. */
    function BacklinkEntry(date: string, id: string): string {
      Scrobbler.Entry(date, Utils.ParsePlayingAsWikilink(subject.Id(), subject.Name(), true, id), subject.Progress(), "",
                      Utils.ParsePlayingAsWikilink(subject.Id(), subject.Name(), false, ""))
    }

    /** One referenced item: its note, with the subject's block `id` embedded at its end. */
    function Backlink(notes: Vault.Notes, date: string, id: string, item: Items.Item): (r: Vault.Notes)
      ensures r.Keys == notes.Keys + {ItemPath(item)}
      ensures r[ItemPath(item)].body == SpotifyLogger.ItemFileSpec(notes, host, settings, item).0[ItemPath(item)].body + BacklinkEntry(date, id)
    {
      var (created, path) := SpotifyLogger.ItemFileSpec(notes, host, settings, item);
      Vault.Appended(created, path, BacklinkEntry(date, id))
    }

    /** The drain step of `updateFiles`: the item popped after `j` others gets the block id drawn `j`-th. */
    function Step(date: string, draws: Draws): (r: Drain.Step<Items.Item>)
      ensures forall m, j, x :: r(m, j, x) == Backlink(m, date, DrawnId(draws, j), x)
    {
      (m: Vault.Notes, j: nat, x: Items.Item) => Backlink(m, date, DrawnId(draws, j), x)
    }

    /** Backlinking the last queued item with the `k`-th id leaves the rest of the drain to do. */
    lemma DrainedAfterBacklink(notes: Vault.Notes, date: string, draws: Draws, k: nat, pending: seq<Items.Item>)
      requires |pending| > 0
      ensures Drain.Drained(Step(date, draws), Backlink(notes, date, DrawnId(draws, k), pending[|pending| - 1]), k + 1, pending[..|pending| - 1])
           == Drain.Drained(Step(date, draws), notes, k, pending)
    {
      Drain.DrainedStep(Step(date, draws), notes, k, pending);
    }

    /** Each step adds exactly the popped item's note. */
    lemma StepAddsItsNote(date: string, draws: Draws)
      ensures forall m, j, x :: Step(date, draws)(m, j, x).Keys == m.Keys + {ItemPath(x)}
    {
      forall m, j, x
        ensures Step(date, draws)(m, j, x).Keys == m.Keys + {ItemPath(x)}
      {
        var _ := Backlink(m, date, DrawnId(draws, j), x);
      }
    }

    /** A drain adds exactly the queued items' notes: every pick ends up with a note, and nothing else is created. */
    lemma DrainAddsQueuedNotes(notes: Vault.Notes, date: string, draws: Draws, pending: seq<Items.Item>)
      ensures Drain.Drained(Step(date, draws), notes, 0, pending).Keys == notes.Keys + Drain.Paths(x => ItemPath(x), pending)
      ensures forall i :: 0 <= i < |pending| ==> ItemPath(pending[i]) in Drain.Drained(Step(date, draws), notes, 0, pending)
    {
      StepAddsItsNote(date, draws);
      Drain.DrainedKeys(Step(date, draws), x => ItemPath(x), notes, 0, pending);
      forall i | 0 <= i < |pending|
        ensures ItemPath(pending[i]) in Drain.Drained(Step(date, draws), notes, 0, pending)
      {
        Drain.PathsHaveEach(x => ItemPath(x), pending, i);
      }
    }

    /**
     * The earliest pick is handled last, with the last block id drawn,
     * which is the one handed on with the entry (see `SubmittedId`).
     */
    lemma EarliestPickGetsSubmittedId(notes: Vault.Notes, date: string, draws: Draws, pending: seq<Items.Item>)
      requires |pending| > 0
      ensures Drain.Drained(Step(date, draws), notes, 0, pending)
           == Backlink(Drain.Drained(Step(date, draws), notes, 0, pending[1..]), date, DrawnId(draws, |pending| - 1), pending[0])
    {
      var j := |pending| - 1;
      Drain.EarliestLastAt(Step(date, draws), notes, 0, pending, j);
      LastStepIsBacklink(Drain.Drained(Step(date, draws), notes, 0, pending[1..]), date, draws, j, pending[0]);
    }

    /** The step that pops an item after `j` others is its backlink with the `j`-th id drawn. */
    lemma LastStepIsBacklink(notes: Vault.Notes, date: string, draws: Draws, j: nat, item: Items.Item)
      ensures Step(date, draws)(notes, j, item) == Backlink(notes, date, DrawnId(draws, j), item)
    {
    }

    /** So the earliest pick's note ends with the backlink entry of the block id handed on. */
    lemma EarliestPickNoteEndsWithSubmittedEntry(notes: Vault.Notes, date: string, draws: Draws, before: Option<string>,
                                                 pending: seq<Items.Item>)
      requires |pending| > 0
      ensures SubmittedId(draws, |pending|, before).Some?
      ensures var r := Drain.Drained(Step(date, draws), notes, 0, pending);
        var entry := BacklinkEntry(date, SubmittedId(draws, |pending|, before).value);
        && ItemPath(pending[0]) in r
        && |entry| <= |r[ItemPath(pending[0])].body|
        && r[ItemPath(pending[0])].body[|r[ItemPath(pending[0])].body| - |entry|..] == entry
    {
      EarliestPickGetsSubmittedId(notes, date, draws, pending);
      var rest := Drain.Drained(Step(date, draws), notes, 0, pending[1..]);
      var entry := BacklinkEntry(date, SubmittedId(draws, |pending|, before).value);
      var body := Backlink(rest, date, SubmittedId(draws, |pending|, before).value, pending[0])[ItemPath(pending[0])].body;
      assert body[|body| - |entry|..] == entry;
    }

    /** The block id `handleSubmit` hands on: the last drawn, none when nothing was queued. */
    function SubmittedId(draws: Draws, queued: nat, before: Option<string>): (r: Option<string>)
      ensures queued == 0 ==> r == before
      ensures queued > 0 ==> r == Some(DrawnId(draws, queued - 1))
    {
      if queued == 0 then before else Some(DrawnId(draws, queued - 1))
    }

    /** `textComponent.onChange`. */
    method Edit(value: string)
      modifies this
      ensures input == value && pendingPlayings == old(pendingPlayings) && blockId == old(blockId)
    {
      input := value;
    }

    /** `handleChooseSuggestion`: the subject is refused; another item is queued and linked in the text. */
    method Choose(item: Items.Item) returns (accepted: bool)
      modifies this
      ensures accepted <==> item.Id() != subject.Id()
      ensures !accepted ==> input == old(input) && pendingPlayings == old(pendingPlayings)
      ensures accepted ==> (input == old(input) + Utils.ParsePlayingAsWikilink(item.Id(), item.Name(), false, "")
        && pendingPlayings == old(pendingPlayings) + [item])
      ensures blockId == old(blockId)
    {
      if subject.Id() == item.Id() {
        return false;
      }
      pendingPlayings := pendingPlayings + [item];
      input := input + Utils.ParsePlayingAsWikilink(item.Id(), item.Name(), false, "");
      return true;
    }

    /**
     * One turn of `updateFiles`' loop: pop the last queued item, make its
     * note, draw the next block id and append the backlink.
     */
    method BacklinkLast(date: string, draws: Draws, drawn: nat) returns (id: string)
      requires |pendingPlayings| > 0
      modifies this, vault
      ensures pendingPlayings == old(pendingPlayings)[..|old(pendingPlayings)| - 1]
      ensures id == DrawnId(draws, drawn) && blockId == Some(id) && input == old(input)
      ensures vault.notes == Backlink(old(vault.notes), date, id, old(pendingPlayings)[|old(pendingPlayings)| - 1])
    {
      var playing := pendingPlayings[|pendingPlayings| - 1];
      pendingPlayings := pendingPlayings[..|pendingPlayings| - 1];
      var path := SpotifyLogger.CreateItemFile(vault, host, settings, playing);
      id := Utils.GenerateBlockID(BlockIdLength, draws(drawn));
      blockId := Some(id);
      var embedLink := Utils.ParsePlayingAsWikilink(subject.Id(), subject.Name(), true, id);
      var referenceLink := Utils.ParsePlayingAsWikilink(subject.Id(), subject.Name(), false, "");
      assert BacklinkEntry(date, id) == Scrobbler.Entry(date, embedLink, subject.Progress(), "", referenceLink);
      var _ := SpotifyLogger.AppendInput(vault, path, date, embedLink, subject.Progress(), "", referenceLink);
    }

    /** `updateFiles`: the queue is drained from its end, each item with its own fresh block id. */
    method UpdateFiles(date: string, draws: Draws)
      modifies this, vault
      ensures pendingPlayings == [] && input == old(input)
      ensures blockId == SubmittedId(draws, |old(pendingPlayings)|, old(blockId))
      ensures vault.notes == Drain.Drained(Step(date, draws), old(vault.notes), 0, old(pendingPlayings))
    {
      ghost var start := vault.notes;
      ghost var queued := pendingPlayings;
      var drawn := 0;
      while |pendingPlayings| > 0
        invariant |pendingPlayings| <= |queued| && input == old(input)
        invariant drawn == |queued| - |pendingPlayings|
        invariant blockId == SubmittedId(draws, drawn, old(blockId))
        invariant Drain.Drained(Step(date, draws), vault.notes, drawn, pendingPlayings) == Drain.Drained(Step(date, draws), start, 0, queued)
        decreases |pendingPlayings|
      {
        ghost var before := vault.notes;
        ghost var queue := pendingPlayings;
        var id := BacklinkLast(date, draws, drawn);
        DrainedAfterBacklink(before, date, draws, drawn, queue);
        drawn := drawn + 1;
      }
    }

    /** `handleSubmit`: write the backlinks, hand on the text and the last id, clear the id. */
    method Submit(date: string, draws: Draws) returns (submittedInput: string, submittedBlockId: Option<string>)
      modifies this, vault
      ensures submittedInput == old(input)
      ensures submittedBlockId == SubmittedId(draws, |old(pendingPlayings)|, old(blockId))
      ensures vault.notes == Drain.Drained(Step(date, draws), old(vault.notes), 0, old(pendingPlayings))
      ensures blockId == None && pendingPlayings == [] && input == old(input)
    {
      UpdateFiles(date, draws);
      submittedInput, submittedBlockId := input, blockId;
      blockId := None;
    }
  }

  /** The constructor: it throws without a playing item and when the folder does not exist. */
  method Open(vault: Vault.Vault, folders: set<string>, host: SpotifyLogger.LoggerHost,
              settings: Items.Settings, playing: Option<Items.Item>) returns (r: Result<LogModal>)
    ensures playing.None? ==> r == Failure(NotSupportedMessage)
    ensures playing.Some? && host.normalizePath(settings.folderPath) !in folders ==> r == Failure(InvalidFolderMessage)
    ensures r.Success? <==> playing.Some? && host.normalizePath(settings.folderPath) in folders
    ensures r.Success? ==> (fresh(r.value) && r.value.vault == vault && r.value.subject == playing.value
      && r.value.settings == settings && r.value.input == "" && r.value.pendingPlayings == [] && r.value.blockId == None)
  {
    if playing.None? {
      return Failure(NotSupportedMessage);
    }
    if host.normalizePath(settings.folderPath) !in folders {
      return Failure(InvalidFolderMessage);
    }
    var modal := new LogModal(vault, host, settings, playing.value);
    return Success(modal);
  }
}
