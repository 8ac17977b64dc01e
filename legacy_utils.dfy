/**
 * The older generation's helpers in utils.ts. Its `generateRandomString`,
 * `base64encode` and `generateBlockID` are the same code as in
 * src/utils.ts and are the members of module Utils; what differs is the
 * choice of `formatMs` pattern and the track-only wikilink.
 */
module LegacyUtils {
  import opened Wrappers
  import Text
  import Wikilinks
  import Items
  import Utils

  /** The moment.js pattern `formatMs` formats with: hours from 3600000 ms on. */
  function FormatMsPattern(ms: string): string {
    match Text.ParseInt(ms)
    case Some(n) => if n >= 3600000 then "HH:mm:ss" else "mm:ss"
    case None => "mm:ss"  // NaN >= 3600000 is false
  }

  /**
   * On the decimal string of a duration the older pattern choice agrees with
   * the newer `formatMs`: the hour pattern exactly when the newer one prints
   * three fields.
   */
  lemma FormatMsPatternAgrees(ms: nat)
    ensures FormatMsPattern(Text.NatToString(ms)) == "HH:mm:ss" <==> |Text.Split(Utils.FormatMs(ms), ':')| == 3
    ensures FormatMsPattern(Text.NatToString(ms)) == "mm:ss" <==> |Text.Split(Utils.FormatMs(ms), ':')| == 2
  {
    Text.ParseIntOfNatToString(ms);
    Utils.FormatMsFields(ms);
  }

  /** A string without leading digits parses as NaN and takes the short pattern. */
  lemma FormatMsPatternOfNaN(ms: string)
    requires ms == [] || !(0 <= Text.DigitOf(ms[0]) < 10)
    ensures FormatMsPattern(ms) == "mm:ss"
  {
  }

  /** `parseTrackAsWikilink(track, embed, blockId)`. */
  function ParseTrackAsWikilink(track: Items.Track, embed: bool, blockId: string): (r: string)
    ensures Wikilinks.WellFormed(Wikilinks.Wikilink(embed, track.id, blockId, track.name)) ==>
      Wikilinks.Parse(r) == Some(Wikilinks.Wikilink(embed, track.id, blockId, track.name))
  {
    var w := Wikilinks.Wikilink(embed, track.id, blockId, track.name);
    if Wikilinks.WellFormed(w) then Wikilinks.ParseRender(w); Wikilinks.Render(w)
    else Wikilinks.Render(w)
  }
}
