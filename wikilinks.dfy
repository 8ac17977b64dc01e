/**
 * The note-store's link syntax `[[target#^block|display]]`, with `!` in
 * front for an embed. Render is the form every link of the plugin takes;
 * Parse reads one back and is the partner Render is proved against.
 */
module Wikilinks {
  import opened Wrappers
  import Text

  datatype Wikilink = Wikilink(embed: bool, target: string, blockId: string, display: string)

  function Render(w: Wikilink): string {
    (if w.embed then "!" else "")
    + "[[" + w.target
    + (if w.blockId != "" then "#^" + w.blockId else "")
    + "|" + w.display + "]]"
  }

  /**
   * Reads `target` and `blockId` out of the part before the pipe; a `#^`
   * marker must be followed by a block id, since Render writes none for an
   * empty one.
   */
  function ParseTarget(t: string): Option<(string, string)> {
    var h := Text.IndexOf(t, '#');
    if h == -1 then Some((t, ""))
    else if h + 2 < |t| && t[h + 1] == '^' then Some((t[..h], t[h + 2..]))
    else None
  }

  /** Reads the part between `[[` and `]]`: target, block id, pipe, display text. */
  function ParseInner(embed: bool, inner: string): Option<Wikilink> {
    var p := Text.IndexOf(inner, '|');
    if p == -1 then None
    else
      match ParseTarget(inner[..p])
      case None => None
      case Some((target, blockId)) => Some(Wikilink(embed, target, blockId, inner[p + 1..]))
  }

  function Parse(s: string): Option<Wikilink> {
    var embed := |s| > 0 && s[0] == '!';
    var rest := if embed then s[1..] else s;
    if |rest| < 4 || rest[..2] != "[[" || rest[|rest| - 2..] != "]]" then None
    else ParseInner(embed, rest[2..|rest| - 2])
  }

  /**
   * The links the plugin writes have a target without `#` or `|` (a
   * base-62 service id or a hex digest) and a block id without `|`.
   */
  predicate WellFormed(w: Wikilink) {
    '#' !in w.target && '|' !in w.target && '|' !in w.blockId
  }

  /** The part between `[[` and `]]`. */
  function Inner(w: Wikilink): string {
    w.target + (if w.blockId != "" then "#^" + w.blockId else "") + "|" + w.display
  }

  lemma ParseTargetOfMarked(target: string, blockId: string)
    requires '#' !in target
    ensures ParseTarget(target + (if blockId != "" then "#^" + blockId else "")) == Some((target, blockId))
  {
    if blockId != "" {
      var t := target + ("#^" + blockId);
      Text.IndexOfAfterPrefix(target, '#', "^" + blockId);
      assert t == target + ['#'] + ("^" + blockId);
      assert t[..|target|] == target && t[|target| + 2..] == blockId;
    } else {
      assert target + "" == target;
    }
  }

  lemma InnerSplitsAtPipe(w: Wikilink)
    requires WellFormed(w)
    ensures var inner := Inner(w); var p := Text.IndexOf(inner, '|');
      p != -1 && ParseTarget(inner[..p]) == Some((w.target, w.blockId)) && inner[p + 1..] == w.display
  {
    var marker := if w.blockId != "" then "#^" + w.blockId else "";
    var t := w.target + marker;
    assert '|' !in t;
    Text.IndexOfAfterPrefix(t, '|', w.display);
    var inner := Inner(w);
    assert inner == t + ['|'] + w.display;
    assert inner[..|t|] == t && inner[|t| + 1..] == w.display;
    ParseTargetOfMarked(w.target, w.blockId);
  }

  lemma Bracketed(inner: string)
    ensures var rest := "[[" + inner + "]]";
      |rest| >= 4 && rest[0] == '[' && rest[..2] == "[[" && rest[|rest| - 2..] == "]]"
      && rest[2..|rest| - 2] == inner
  {
  }

  lemma ParseBracketed(embed: bool, inner: string)
    ensures Parse((if embed then "!" else "") + "[[" + inner + "]]") == ParseInner(embed, inner)
  {
    if embed {
      ParseEmbedded(inner);
    } else {
      assert "" + "[[" + inner + "]]" == "[[" + inner + "]]";
      ParsePlain(inner);
    }
  }

  lemma ParsePlain(inner: string)
    ensures Parse("[[" + inner + "]]") == ParseInner(false, inner)
  {
    Bracketed(inner);
  }

  lemma ParseEmbedded(inner: string)
    ensures Parse("!" + "[[" + inner + "]]") == ParseInner(true, inner)
  {
    var rest := "[[" + inner + "]]";
    Bracketed(inner);
    var s := "!" + rest;
    assert "!" + "[[" + inner + "]]" == s;
    assert s[0] == '!' && s[1..] == rest;
  }

  lemma {:induction false} ParseRender(w: Wikilink)
    requires WellFormed(w)
    ensures Parse(Render(w)) == Some(w)
  {
    assert Render(w) == (if w.embed then "!" else "") + "[[" + Inner(w) + "]]";
    ParseBracketed(w.embed, Inner(w));
    InnerSplitsAtPipe(w);
  }

  /** The part before the pipe is the target, then the marked block id when there is one. */
  lemma ParseTargetLayout(t: string)
    requires ParseTarget(t).Some?
    ensures var (target, blockId) := ParseTarget(t).value;
      '#' !in target && t == target + (if blockId != "" then "#^" + blockId else "")
  {
    var h := Text.IndexOf(t, '#');
    if h != -1 {
      assert t == t[..h] + "#^" + t[h + 2..];
    }
  }

  /** What ParseInner reads back is well formed and its Inner is the text it read. */
  lemma InnerParse(embed: bool, inner: string)
    requires ParseInner(embed, inner).Some?
    ensures WellFormed(ParseInner(embed, inner).value) && Inner(ParseInner(embed, inner).value) == inner
  {
    var p := Text.IndexOf(inner, '|');
    var t := inner[..p];
    assert inner == t + "|" + inner[p + 1..];
    ParseTargetLayout(t);
    ParseTargetWithout(t, '|');
  }

  /** A character absent from the part before the pipe is absent from the target and block id read from it. */
  lemma ParseTargetWithout(t: string, c: char)
    requires ParseTarget(t).Some? && c !in t
    ensures c !in ParseTarget(t).value.0 && c !in ParseTarget(t).value.1
  {
    var h := Text.IndexOf(t, '#');
    if h != -1 {
      var blockId := t[h + 2..];
      assert forall i :: 0 <= i < |blockId| ==> blockId[i] == t[h + 2 + i];
    }
  }

  /** Parse accepts only renderings: whatever it reads back is well formed and renders to the text it read. */
  lemma RenderParse(s: string)
    requires Parse(s).Some?
    ensures WellFormed(Parse(s).value) && Render(Parse(s).value) == s
  {
    var embed := |s| > 0 && s[0] == '!';
    var rest := if embed then s[1..] else s;
    var inner := rest[2..|rest| - 2];
    Unbracket(rest);
    EmbedPrefix(s, embed);
    InnerParse(embed, inner);
    var w := ParseInner(embed, inner).value;
    assert Parse(s).value == w;
    RenderBracketsInner(w);
  }

  /** A text that starts with `[[` and ends with `]]` is the bracketed text between them. */
  lemma Unbracket(rest: string)
    requires |rest| >= 4 && rest[..2] == "[[" && rest[|rest| - 2..] == "]]"
    ensures rest == "[[" + rest[2..|rest| - 2] + "]]"
  {
    assert rest == rest[..2] + rest[2..|rest| - 2] + rest[|rest| - 2..];
  }

  /** The text is its leading `!` when it is an embed, then the rest. */
  lemma EmbedPrefix(s: string, embed: bool)
    requires embed == (|s| > 0 && s[0] == '!')
    ensures s == (if embed then "!" else "") + (if embed then s[1..] else s)
  {
    if embed {
      assert s == [s[0]] + s[1..];
    }
  }

  lemma RenderBracketsInner(w: Wikilink)
    ensures Render(w) == (if w.embed then "!" else "") + ("[[" + Inner(w) + "]]")
  {
  }

  /** Render and Parse are inverse: two well-formed links render alike only if they are equal. */
  lemma RenderInjective(v: Wikilink, w: Wikilink)
    requires WellFormed(v) && WellFormed(w) && Render(v) == Render(w)
    ensures v == w
  {
    ParseRender(v);
    ParseRender(w);
  }
}
