/**
 * The first version of the log modal (SpotifyLogModal.ts at the
 * repository root). It reads the playback state once; an episode gives a
 * modal without a body. Each picked song is linked in the text and gets a
 * fresh block id; the note of the picked song is made by `createSongFile`
 * and the backlink written by `appendInput`, neither of which is defined in
 * the root sources, so a pick returns the requests it hands to them.
 */
module LegacyLogModal {
  import opened Wrappers
  import Utils
  import Api
  import Wikilinks

  const BlockIdLength: nat := 6

  /** What one pick asks `appendInput` to write into the picked song's note. */
  datatype BacklinkRequest = BacklinkRequest(
    song: Api.TrackFormatted,     // the song whose note `createSongFile` returned
    input: string,                // the embed of the current song's new block
    progress: Api.MomentText,
    blockId: string,              // always "": the block id lives in the embed
    referenceLink: string)

  /** `[[id|name]]`, the plain link the modal writes by hand. */
  function SongLink(song: Api.TrackFormatted): (r: string)
    ensures Wikilinks.WellFormed(Wikilinks.Wikilink(false, song.id, "", song.name)) ==>
      Wikilinks.Parse(r) == Some(Wikilinks.Wikilink(false, song.id, "", song.name))
  {
    var w := Wikilinks.Wikilink(false, song.id, "", song.name);
    assert Wikilinks.Render(w) == "[[" + song.id + "|" + song.name + "]]";
    if Wikilinks.WellFormed(w) then Wikilinks.ParseRender(w); "[[" + song.id + "|" + song.name + "]]"
    else "[[" + song.id + "|" + song.name + "]]"
  }

  /** `![[id#^blockId]]`: the embed of one block of a song's note, without a display part. */
  function BlockEmbed(id: string, blockId: string): (r: string)
    ensures |r| == |id| + |blockId| + 7 && r[..3] == "![[" && r[|r| - 2..] == "]]"
    ensures r[3..|r| - 2] == id + "#^" + blockId
  {
    "![[" + id + "#^" + blockId + "]]"
  }

  class LegacyLogModal {
    /** The song playing when the modal opened; none for an episode. */
    const track: Option<Api.TrackFormatted>
    const folderPath: string
    /** The text field's value as `onChange` last reported it. */
    var input: string
    /** The latest block id drawn; "" before any pick and after a submit. */
    var blockId: string

    constructor(currentlyPlaying: Api.PlaybackState, folderPath: string)
      ensures track == Api.ProcessCurrentlyPlayingResponse(currentlyPlaying)
      ensures track.None? <==> currentlyPlaying.item.EpisodePlaying?
      ensures this.folderPath == folderPath && input == "" && blockId == ""
    {
      track := Api.ProcessCurrentlyPlayingResponse(currentlyPlaying);
      this.folderPath := folderPath;
      input := "";
      blockId := "";
    }

    /** `textComponent.onChange`; the field exists only for a song. */
    method Edit(value: string)
      requires track.Some?
      modifies this
      ensures input == value && blockId == old(blockId)
    {
      input := value;
    }

    /**
     * `onChooseSuggestionCb`: the picked song's link is appended to the text
     * and a fresh block id replaces the last one; the backlink is requested
     * only when the current song has a progress stamp.
     */
    method Choose(song: Api.TrackFormatted, draw: nat -> Utils.CharIndex) returns (request: Option<BacklinkRequest>)
      requires track.Some?
      modifies this
      ensures input == old(input) + SongLink(song)
      ensures blockId == Utils.BlockIdOf(BlockIdLength, draw)
      ensures request.Some? <==> track.value.progress.Some?
      ensures request.Some? ==> (request.value
        == BacklinkRequest(song, BlockEmbed(track.value.id, blockId), track.value.progress.value, "", SongLink(track.value)))
    {
      input := input + SongLink(song);
      blockId := Utils.GenerateBlockID(BlockIdLength, draw);
      var playing := track.value;
      if playing.progress.None? {
        return None;
      }
      return Some(BacklinkRequest(song, BlockEmbed(playing.id, blockId), playing.progress.value, "", SongLink(playing)));
    }

    /** `onSubmitWrapper`: the text and the latest block id are handed on, and the id is cleared. */
    method Submit() returns (submittedInput: string, submittedBlockId: string)
      requires track.Some?
      modifies this
      ensures submittedInput == old(input) && submittedBlockId == old(blockId)
      ensures input == old(input) && blockId == ""
    {
      submittedInput, submittedBlockId := input, blockId;
      blockId := "";
    }
  }

  /** The block a pick's request embeds is the one the modal hands on at the next submit, six alphabet characters long. */
  lemma RequestEmbedsLatestBlock(id: string, draw: nat -> Utils.CharIndex)
    ensures var b := Utils.BlockIdOf(BlockIdLength, draw);
      var e := BlockEmbed(id, b);
      && |b| == BlockIdLength
      && (forall i :: 0 <= i < |b| ==> b[i] in Utils.Alphabet)
      && e[|e| - 2 - |b|..|e| - 2] == b
  {
    var b := Utils.BlockIdOf(BlockIdLength, draw);
    var e := BlockEmbed(id, b);
    assert e[3..|e| - 2] == id + "#^" + b;
    assert e[|e| - 2 - |b|..|e| - 2] == (id + "#^" + b)[|id| + 2..];
  }
}
