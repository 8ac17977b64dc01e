/**
 * The reference session of src/ui/ScrobbleModal.ts. While the modal is
 * open the user types an entry and picks other tracks or albums to
 * reference; each pick is queued and its link is appended to the entry
 * text. On submit one block id is drawn, every queued item gets a note and
 * an embed of the subject's new block appended to it (last pick first),
 * and the entry text with the block id is handed on to be scrobbled.
 */
module ScrobbleModal {
  import opened Wrappers
  import Utils
  import Items
  import Vault
  import Scrobbler
  import Drain

  const InvalidFolderMessage: string := "Invalid folder path, please check the defined folder path in settings."

  /** Length of the block ids the modal draws. */
  const BlockIdLength: nat := 6

  class ScrobbleModal {
    /** `app.vault`. */
    const vault: Vault.Vault
    const host: Scrobbler.Host
    /** `parseItemAsWikilink(item, true, blockId)`, a helper that is not part of this model. */
    const embedLink: (Items.Item, string) -> string
    const settings: Items.Settings
    /** The item being scrobbled (`this.item`). */
    const subject: Items.Item
    /** The entry text, which the text field keeps in step. */
    var input: string
    var pendingItems: seq<Items.Item>
    var blockId: Option<string>

    constructor(vault: Vault.Vault, host: Scrobbler.Host, embedLink: (Items.Item, string) -> string,
                settings: Items.Settings, subject: Items.Item)
      ensures this.vault == vault && this.host == host && this.embedLink == embedLink
      ensures this.settings == settings && this.subject == subject
      ensures input == "" && pendingItems == [] && blockId == None
    {
      this.vault := vault;
      this.host := host;
      this.embedLink := embedLink;
      this.settings := settings;
      this.subject := subject;
      input := "";
      pendingItems := [];
      blockId := None;
    }

    /** The note a referenced item's backlink goes to, created when missing, and the notes after that. */
    function ItemNote(notes: Vault.Notes, item: Items.Item): (r: (Vault.Notes, string))
      ensures r.1 == ItemPath(item) && r.0.Keys == notes.Keys + {r.1}
    {
      match item
      case TrackItem(t) =>
        var (n, path, _) := Scrobbler.CreateTrackFileSpec(notes, host, settings, t);
        (n, path)
      case AlbumItem(a) => Scrobbler.CreateAlbumFileSpec(notes, host, settings, a)
    }

    /** Where an item's note lives (a track without an id is filed under the derived one). */
    function ItemPath(item: Items.Item): string {
      match item
      case TrackItem(t) => Utils.GetFilePath(host.normalizePath, settings.folderPath, Scrobbler.TrackId(host, t))
      case AlbumItem(a) => Utils.GetFilePath(host.normalizePath, settings.folderPath, a.id)
    }

    /**
     * The backlink of one referenced item: the subject's block embedded in
     * the item's note, in the progress form exactly when the subject has
     * progress, with the subject's own link as the reference.
     */
    function Backlink(notes: Vault.Notes, date: string, id: string, item: Items.Item): (r: Vault.Notes)
      ensures r.Keys == notes.Keys + {ItemPath(item)}
      ensures var (created, path) := ItemNote(notes, item);
        && r[path].body == created[path].body
           + Scrobbler.Entry(date, embedLink(subject, id), subject.Progress(), "", host.itemAsWikilink(subject))
        && forall p :: p in created && p != path ==> r[p] == created[p]
    {
      var (created, path) := ItemNote(notes, item);
      Vault.Appended(created, path, Scrobbler.Entry(date, embedLink(subject, id), subject.Progress(), "", host.itemAsWikilink(subject)))
    }

    /** The drain step of `updateFiles`: every popped item gets the backlink with the one block id `id`. */
    function Step(date: string, id: string): (r: Drain.Step<Items.Item>)
      ensures forall m, j, x :: r(m, j, x) == Backlink(m, date, id, x)
    {
      (m: Vault.Notes, j: nat, x: Items.Item) => Backlink(m, date, id, x)
    }

    /** Each step adds exactly the popped item's note. */
    lemma StepAddsItsNote(date: string, id: string)
      ensures forall m, j, x :: Step(date, id)(m, j, x).Keys == m.Keys + {ItemPath(x)}
    {
      forall m, j, x
        ensures Step(date, id)(m, j, x).Keys == m.Keys + {ItemPath(x)}
      {
        var _ := Backlink(m, date, id, x);
      }
    }

    /** A drain adds exactly the queued items' notes: every pick ends up with a note, and nothing else is created. */
    lemma DrainAddsQueuedNotes(notes: Vault.Notes, date: string, id: string, pending: seq<Items.Item>)
      ensures Drain.Drained(Step(date, id), notes, 0, pending).Keys == notes.Keys + Drain.Paths(x => ItemPath(x), pending)
      ensures forall i :: 0 <= i < |pending| ==> ItemPath(pending[i]) in Drain.Drained(Step(date, id), notes, 0, pending)
    {
      StepAddsItsNote(date, id);
      Drain.DrainedKeys(Step(date, id), x => ItemPath(x), notes, 0, pending);
      forall i | 0 <= i < |pending|
        ensures ItemPath(pending[i]) in Drain.Drained(Step(date, id), notes, 0, pending)
      {
        Drain.PathsHaveEach(x => ItemPath(x), pending, i);
      }
    }

    /** The earliest pick is handled last, on the notes the later picks left. */
    lemma EarliestPickLast(notes: Vault.Notes, date: string, id: string, pending: seq<Items.Item>)
      requires |pending| > 0
      ensures Drain.Drained(Step(date, id), notes, 0, pending)
           == Backlink(Drain.Drained(Step(date, id), notes, 0, pending[1..]), date, id, pending[0])
    {
      Drain.EarliestLast(Step(date, id), notes, 0, pending);
    }

    /** `textComponent.onChange`: the entry text follows the field. */
    method Edit(value: string)
      modifies this
      ensures input == value && pendingItems == old(pendingItems) && blockId == old(blockId)
    {
      input := value;
    }

    /**
     * `handleChooseSuggestion`: the subject itself is refused with nothing
     * changed; any other item is queued and its link appended to the text.
     */
    method Choose(item: Items.Item) returns (accepted: bool)
      modifies this
      ensures accepted <==> item.Id() != subject.Id()
      ensures !accepted ==> input == old(input) && pendingItems == old(pendingItems)
      ensures accepted ==> input == old(input) + host.itemAsWikilink(item) && pendingItems == old(pendingItems) + [item]
      ensures blockId == old(blockId)
    {
      if subject.Id() == item.Id() {
        return false;
      }
      pendingItems := pendingItems + [item];
      input := input + host.itemAsWikilink(item);
      return true;
    }

    /** `createTrackFile` or `createAlbumFile`, as the item's type says. */
    method CreateItemNote(item: Items.Item) returns (path: string)
      modifies vault
      ensures (vault.notes, path) == ItemNote(old(vault.notes), item)
    {
      match item {
        case TrackItem(t) =>
          var withId;
          path, withId := Scrobbler.CreateTrackFile(vault, host, settings, t);
        case AlbumItem(a) =>
          path := Scrobbler.CreateAlbumFile(vault, host, settings, a);
      }
    }

    /** One turn of `updateFiles`' loop: pop the last queued item, make its note and append the backlink. */
    method BacklinkLast(date: string, id: string)
      requires |pendingItems| > 0
      modifies this, vault
      ensures pendingItems == old(pendingItems)[..|old(pendingItems)| - 1]
      ensures input == old(input) && blockId == old(blockId)
      ensures vault.notes == Backlink(old(vault.notes), date, id, old(pendingItems)[|old(pendingItems)| - 1])
    {
      var item := pendingItems[|pendingItems| - 1];
      pendingItems := pendingItems[..|pendingItems| - 1];
      var path := CreateItemNote(item);
      var _ := Scrobbler.AppendInput(vault, path, date, embedLink(subject, id), subject.Progress(), "", host.itemAsWikilink(subject));
    }

    /**
     * `updateFiles`: one block id is drawn before the loop (even with
     * nothing queued) and the queue is drained from its end, each item
     * getting its note and the backlink.
     */
    method UpdateFiles(date: string, draw: nat -> Utils.CharIndex)
      modifies this, vault
      ensures blockId == Some(Utils.BlockIdOf(BlockIdLength, draw))
      ensures pendingItems == [] && input == old(input)
      ensures vault.notes == Drain.Drained(Step(date, Utils.BlockIdOf(BlockIdLength, draw)), old(vault.notes), 0, old(pendingItems))
    {
      var id := Utils.GenerateBlockID(BlockIdLength, draw);
      blockId := Some(id);
      ghost var start := vault.notes;
      ghost var queued := pendingItems;
      var popped := 0;
      while |pendingItems| > 0
        invariant blockId == Some(id) && input == old(input)
        invariant Drain.Drained(Step(date, id), vault.notes, popped, pendingItems) == Drain.Drained(Step(date, id), start, 0, queued)
        decreases |pendingItems|
      {
        ghost var before := vault.notes;
        ghost var queue := pendingItems;
        BacklinkLast(date, id);
        Drain.DrainedStep(Step(date, id), before, popped, queue);
        popped := popped + 1;
      }
    }

    /**
     * `handleSubmit`: the backlinks are written, then the entry text and the
     * block id are handed to `onSubmit` (returned here), and the block id
     * and the queue are cleared.
     */
    method Submit(date: string, draw: nat -> Utils.CharIndex) returns (submittedInput: string, submittedBlockId: Option<string>)
      modifies this, vault
      ensures submittedInput == old(input) && submittedBlockId == Some(Utils.BlockIdOf(BlockIdLength, draw))
      ensures vault.notes == Drain.Drained(Step(date, Utils.BlockIdOf(BlockIdLength, draw)), old(vault.notes), 0, old(pendingItems))
      ensures blockId == None && pendingItems == [] && input == old(input)
    {
      UpdateFiles(date, draw);
      submittedInput, submittedBlockId := input, blockId;
      blockId := None;
      pendingItems := [];
    }
  }

  /** The constructor: it throws when the configured folder does not exist. */
  method Open(vault: Vault.Vault, folders: set<string>, host: Scrobbler.Host, embedLink: (Items.Item, string) -> string,
              settings: Items.Settings, subject: Items.Item) returns (r: Result<ScrobbleModal>)
    ensures r.Failure? <==> host.normalizePath(settings.folderPath) !in folders
    ensures r.Failure? ==> r.message == InvalidFolderMessage
    ensures r.Success? ==> (fresh(r.value) && r.value.vault == vault && r.value.subject == subject && r.value.settings == settings
      && r.value.input == "" && r.value.pendingItems == [] && r.value.blockId == None)
  {
    if host.normalizePath(settings.folderPath) !in folders {
      return Failure(InvalidFolderMessage);
    }
    var modal := new ScrobbleModal(vault, host, embedLink, settings, subject);
    return Success(modal);
  }
}
