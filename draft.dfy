/**
 * The document model the shorthand interpreter works on: an abstract
 * rendering of the draft-js values and operations it calls.
 *
 * A content state is an ordered sequence of blocks (key, text, type) plus the
 * caret that an edit leaves behind; an editor state pairs a content state with
 * the current caret and the inline styles active at that caret. The active
 * styles form an ordered set (no duplicates, additions go to the end), as the
 * immutable OrderedSet draft-js uses does.
 *
 * Only collapsed selections (a caret) are represented.
 */
module Draft {

  const UNSTYLED := "unstyled"
  const HEADER_ONE := "header-one"

  datatype Block = Block(key: string, text: string, blockType: string)

  /** A collapsed selection: a block key and an offset into that block's text. */
  datatype Caret = Caret(blockKey: string, offset: nat)

  /** A content state: the blocks, and where the caret goes after the edit that produced it. */
  datatype Content = Content(blocks: seq<Block>, selectionAfter: Caret)

  datatype EditorState = EditorState(content: Content, selection: Caret, styles: seq<string>)

  // ---------------------------------------------------------------------------
  // Keys, lookup and well-formedness
  // ---------------------------------------------------------------------------

  function Keys(blocks: seq<Block>): (ks: seq<string>)
    ensures |ks| == |blocks|
    ensures forall i | 0 <= i < |blocks| :: ks[i] == blocks[i].key
  {
    seq(|blocks|, i requires 0 <= i < |blocks| => blocks[i].key)
  }

  predicate Distinct<T(==)>(s: seq<T>)
  {
    forall a, b | 0 <= a < b < |s| :: s[a] != s[b]
  }

  /** The position of the first occurrence of `x` in `s`. */
  function IndexOf<T(==)>(s: seq<T>, x: T): (i: nat)
    requires x in s
    ensures i < |s| && s[i] == x
    ensures x !in s[..i]
  {
    if s[0] == x then 0
    else
      var j := IndexOf(s[1..], x);
      assert s[..j + 1] == [s[0]] + s[1..][..j];
      1 + j
  }

  /** The position of the block with key `key` (getBlockForKey). */
  function BlockIndex(blocks: seq<Block>, key: string): (i: nat)
    requires key in Keys(blocks)
    ensures i < |blocks| && blocks[i].key == key
  {
    IndexOf(Keys(blocks), key)
  }

  /** The caret names an existing block and an offset within its text. */
  predicate CaretIn(blocks: seq<Block>, at: Caret)
  {
    at.blockKey in Keys(blocks) && at.offset <= |blocks[BlockIndex(blocks, at.blockKey)].text|
  }

  predicate ValidContent(c: Content)
  {
    Distinct(Keys(c.blocks)) && CaretIn(c.blocks, c.selectionAfter)
  }

  predicate ValidState(s: EditorState)
  {
    ValidContent(s.content) && CaretIn(s.content.blocks, s.selection) && Distinct(s.styles)
  }

  /** The position of the block holding the caret (selection.getStartKey()). */
  function CaretIndex(s: EditorState): (i: nat)
    requires ValidState(s)
    ensures i < |s.content.blocks| && s.content.blocks[i].key == s.selection.blockKey
    ensures s.selection.offset <= |s.content.blocks[i].text|
  {
    BlockIndex(s.content.blocks, s.selection.blockKey)
  }

  /** With distinct keys, a block is found exactly where its key stands. */
  lemma IndexOfDistinct<T>(s: seq<T>, j: nat)
    requires Distinct(s) && j < |s|
    ensures IndexOf(s, s[j]) == j
  {
  }

  /** Replacing a block by one with the same key keeps the keys. */
  lemma KeysUpdate(blocks: seq<Block>, i: nat, b: Block)
    requires i < |blocks| && b.key == blocks[i].key
    ensures Keys(blocks[i := b]) == Keys(blocks)
  {
  }

  // ---------------------------------------------------------------------------
  // EditorState.createEmpty
  // ---------------------------------------------------------------------------

  /** An empty document: one empty unstyled block, the caret at its start, no active style. */
  function CreateEmpty(key: string): (s: EditorState)
    ensures ValidState(s)
    ensures |s.content.blocks| == 1 && s.content.blocks[0].text == ""
    ensures s.content.blocks[0].blockType == UNSTYLED && s.styles == []
  {
    var at := Caret(key, 0);
    var blocks := [Block(key, "", UNSTYLED)];
    assert Keys(blocks) == [key];
    EditorState(Content(blocks, at), at, [])
  }

  // ---------------------------------------------------------------------------
  // Modifier.replaceText / Modifier.insertText
  // ---------------------------------------------------------------------------

  /**
   * Replaces offsets [start, end) of block `key` by `text`. The other blocks,
   * the keys and the block's type stay; the caret goes after the inserted text.
   */
  function ReplaceText(c: Content, key: string, start: nat, end: nat, text: string): (r: Content)
    requires ValidContent(c) && key in Keys(c.blocks)
    requires start <= end <= |c.blocks[BlockIndex(c.blocks, key)].text|
    ensures ValidContent(r) && Keys(r.blocks) == Keys(c.blocks)
    ensures var i := BlockIndex(c.blocks, key);
            var t := c.blocks[i].text;
            && BlockIndex(r.blocks, key) == i
            && |r.blocks[i].text| == |t| - (end - start) + |text|
            && r.blocks[i].text[..start] == t[..start]
            && r.blocks[i].text[start..start + |text|] == text
            && r.blocks[i].text[start + |text|..] == t[end..]
            && r.blocks[i].blockType == c.blocks[i].blockType
            && (forall j | 0 <= j < |c.blocks| && j != i :: r.blocks[j] == c.blocks[j])
    ensures r.selectionAfter == Caret(key, start + |text|)
  {
    var i := BlockIndex(c.blocks, key);
    var b := c.blocks[i];
    var nb := b.(text := b.text[..start] + text + b.text[end..]);
    var blocks := c.blocks[i := nb];
    KeysUpdate(c.blocks, i, nb);
    assert nb.text[..start] == b.text[..start];
    assert nb.text[start..start + |text|] == text;
    assert nb.text[start + |text|..] == b.text[end..];
    Content(blocks, Caret(key, start + |text|))
  }

  /** Inserts `text` at a caret. */
  function InsertText(c: Content, at: Caret, text: string): (r: Content)
    requires ValidContent(c) && CaretIn(c.blocks, at)
    ensures ValidContent(r) && Keys(r.blocks) == Keys(c.blocks)
    ensures var i := BlockIndex(c.blocks, at.blockKey);
            var t := c.blocks[i].text;
            && r.blocks == c.blocks[i := c.blocks[i].(text := t[..at.offset] + text + t[at.offset..])]
            && r.selectionAfter == Caret(at.blockKey, at.offset + |text|)
  {
    var r := ReplaceText(c, at.blockKey, at.offset, at.offset, text);
    var i := BlockIndex(c.blocks, at.blockKey);
    var t := c.blocks[i].text;
    var u := r.blocks[i].text;
    assert u == u[..at.offset] + u[at.offset..at.offset + |text|] + u[at.offset + |text|..];
    r
  }

  /** Deleting what was just inserted gives back the original blocks. */
  lemma InsertThenDelete(c: Content, at: Caret, text: string)
    requires ValidContent(c) && CaretIn(c.blocks, at)
    ensures var r := InsertText(c, at, text);
            at.blockKey in Keys(r.blocks) &&
            at.offset + |text| <= |r.blocks[BlockIndex(r.blocks, at.blockKey)].text| &&
            ReplaceText(r, at.blockKey, at.offset, at.offset + |text|, "").blocks == c.blocks
  {
    var r := InsertText(c, at, text);
    var i := BlockIndex(c.blocks, at.blockKey);
    var t := c.blocks[i].text;
    var d := ReplaceText(r, at.blockKey, at.offset, at.offset + |text|, "");
    var u := d.blocks[i].text;
    assert u == u[..at.offset] + u[at.offset..];
    assert u == t;
    assert d.blocks[i] == c.blocks[i];
  }

  // ---------------------------------------------------------------------------
  // Modifier.splitBlock
  // ---------------------------------------------------------------------------

  /**
   * Cuts the caret's block in two at the caret. The first part keeps the key,
   * the second gets `newKey`; both keep the type. The caret goes to the start
   * of the second part.
   */
  function SplitBlock(c: Content, at: Caret, newKey: string): (r: Content)
    requires ValidContent(c) && CaretIn(c.blocks, at) && newKey !in Keys(c.blocks)
    ensures ValidContent(r)
    ensures |r.blocks| == |c.blocks| + 1
    ensures r.selectionAfter == Caret(newKey, 0)
    ensures var i := BlockIndex(c.blocks, at.blockKey);
            var b := c.blocks[i];
            && BlockIndex(r.blocks, newKey) == i + 1
            && r.blocks == c.blocks[..i] + [r.blocks[i], r.blocks[i + 1]] + c.blocks[i + 1..]
            && r.blocks[i].key == at.blockKey && r.blocks[i + 1].key == newKey
            && r.blocks[i].text + r.blocks[i + 1].text == b.text
            && |r.blocks[i].text| == at.offset
            && r.blocks[i].blockType == r.blocks[i + 1].blockType == b.blockType
  {
    var i := BlockIndex(c.blocks, at.blockKey);
    var b := c.blocks[i];
    var first := b.(text := b.text[..at.offset]);
    var second := Block(newKey, b.text[at.offset..], b.blockType);
    SplitFacts(c.blocks, i, first, second);
    assert first.text + second.text == b.text;
    Content(c.blocks[..i] + [first, second] + c.blocks[i + 1..], Caret(newKey, 0))
  }

  /** Putting a fresh block right after block `i` keeps the keys distinct and the new key findable. */
  lemma SplitFacts(blocks: seq<Block>, i: nat, first: Block, second: Block)
    requires i < |blocks| && Distinct(Keys(blocks))
    requires first.key == blocks[i].key && second.key !in Keys(blocks)
    ensures var split := blocks[..i] + [first, second] + blocks[i + 1..];
            && |split| == |blocks| + 1
            && split[i] == first && split[i + 1] == second
            && Distinct(Keys(split))
            && second.key in Keys(split)
            && BlockIndex(split, second.key) == i + 1
  {
    var split := blocks[..i] + [first, second] + blocks[i + 1..];
    assert split[i] == first && split[i + 1] == second;
    forall j | 0 <= j <= i ensures split[j].key == blocks[j].key {
      if j < i { assert split[j] == blocks[..i][j]; }
    }
    forall j | i + 1 < j < |split| ensures split[j].key == blocks[j - 1].key {
      assert split[j] == blocks[i + 1..][j - i - 2];
    }
    SplitKeysDistinct(blocks, i, split, second.key);
    assert Keys(split)[i + 1] == second.key;
    IndexOfDistinct(Keys(split), i + 1);
  }

  lemma SplitKeysDistinct(blocks: seq<Block>, i: nat, split: seq<Block>, newKey: string)
    requires i < |blocks| && Distinct(Keys(blocks)) && newKey !in Keys(blocks)
    requires |split| == |blocks| + 1
    requires forall j | 0 <= j <= i :: split[j].key == blocks[j].key
    requires split[i + 1].key == newKey
    requires forall j | i + 1 < j < |split| :: split[j].key == blocks[j - 1].key
    ensures Distinct(Keys(split))
  {
    var ks, ss := Keys(blocks), Keys(split);
    forall a, b | 0 <= a < b < |ss| ensures ss[a] != ss[b] {
      var a' := if a <= i then a else a - 1;
      var b' := if b <= i then b else b - 1;
      if a == i + 1 {
        assert ss[b] == ks[b'];
      } else if b == i + 1 {
        assert ss[a] == ks[a'];
      } else {
        assert ss[a] == ks[a'] && ss[b] == ks[b'] && a' < b';
      }
    }
  }

  // ---------------------------------------------------------------------------
  // Modifier.setBlockType, EditorState.push, RichUtils toggles
  // ---------------------------------------------------------------------------

  /** Sets the type of the caret's block; the caret stays where it is. */
  function SetBlockType(c: Content, at: Caret, blockType: string): (r: Content)
    requires ValidContent(c) && CaretIn(c.blocks, at)
    ensures ValidContent(r) && Keys(r.blocks) == Keys(c.blocks)
    ensures var i := BlockIndex(c.blocks, at.blockKey);
            r.blocks == c.blocks[i := c.blocks[i].(blockType := blockType)]
    ensures r.selectionAfter == at
  {
    var i := BlockIndex(c.blocks, at.blockKey);
    var nb := c.blocks[i].(blockType := blockType);
    KeysUpdate(c.blocks, i, nb);
    Content(c.blocks[i := nb], at)
  }

  /**
   * A new editor state for a new content: the caret moves to where the edit
   * left it; the active styles are carried over.
   */
  function Push(s: EditorState, c: Content): (r: EditorState)
    requires Distinct(s.styles) && ValidContent(c)
    ensures ValidState(r)
    ensures r.content == c && r.selection == c.selectionAfter && r.styles == s.styles
  {
    EditorState(c, c.selectionAfter, s.styles)
  }

  /** EditorState.forceSelection: the same state with the given caret. */
  function ForceSelection(s: EditorState, at: Caret): (r: EditorState)
    requires ValidState(s) && CaretIn(s.content.blocks, at)
    ensures ValidState(r)
    ensures r.content == s.content && r.selection == at && r.styles == s.styles
  {
    s.(selection := at)
  }

  /**
   * RichUtils.toggleBlockType: the caret's block becomes `blockType`, or
   * `unstyled` when it already has that type. Nothing else changes.
   */
  function ToggleBlockType(s: EditorState, blockType: string): (r: EditorState)
    requires ValidState(s)
    ensures ValidState(r)
    ensures var i := CaretIndex(s);
            var cur := s.content.blocks[i].blockType;
            && CaretIndex(r) == i
            && r.content.blocks == s.content.blocks[i := s.content.blocks[i].(blockType := if cur == blockType then UNSTYLED else blockType)]
    ensures r.selection == s.selection && r.content.selectionAfter == s.selection
    ensures r.styles == s.styles
  {
    var i := CaretIndex(s);
    var typeToSet := if s.content.blocks[i].blockType == blockType then UNSTYLED else blockType;
    Push(s, SetBlockType(s.content, s.selection, typeToSet))
  }

  /** Toggling `unstyled` always leaves the caret's block unstyled. */
  lemma ResetIsUnstyled(s: EditorState)
    requires ValidState(s)
    ensures var r := ToggleBlockType(s, UNSTYLED);
            r.content.blocks[CaretIndex(r)].blockType == UNSTYLED
  {
  }

  /** After a reset to `unstyled`, toggling any other type sets it and never turns it off. */
  lemma ToggleAfterResetSets(s: EditorState, blockType: string)
    requires ValidState(s) && blockType != UNSTYLED
    ensures var r := ToggleBlockType(ToggleBlockType(s, UNSTYLED), blockType);
            r.content.blocks[CaretIndex(r)].blockType == blockType
  {
  }

  /** Toggling a type twice from a block of another type ends unstyled. */
  lemma ToggleBlockTypeTwice(s: EditorState, blockType: string)
    requires ValidState(s) && s.content.blocks[CaretIndex(s)].blockType != blockType
    ensures var r := ToggleBlockType(ToggleBlockType(s, blockType), blockType);
            r.content.blocks[CaretIndex(r)].blockType == UNSTYLED
  {
  }

  // ---------------------------------------------------------------------------
  // The active style set (an ordered set) and RichUtils.toggleInlineStyle
  // ---------------------------------------------------------------------------

  /** Removes `x`, keeping the order of the rest. */
  function Remove(s: seq<string>, x: string): (r: seq<string>)
    ensures forall y :: y in r <==> y in s && y != x
    ensures Distinct(s) ==> Distinct(r)
    ensures x !in s ==> r == s
  {
    if s == [] then []
    else if s[0] == x then Remove(s[1..], x)
    else
      var rest := Remove(s[1..], x);
      assert Distinct(s) ==> s[0] !in s[1..];
      [s[0]] + rest
  }

  /**
   * Removing a present style from a duplicate-free set takes out exactly its
   * one position: the styles before and after it stay, in their order.
   */
  lemma {:induction false} RemoveKeepsOrder(s: seq<string>, x: string)
    requires Distinct(s) && x in s
    ensures var k := IndexOf(s, x); Remove(s, x) == s[..k] + s[k + 1..]
  {
    if s[0] == x {
      assert x !in s[1..];
    } else {
      assert Distinct(s[1..]);
      RemoveKeepsOrder(s[1..], x);
      var k := IndexOf(s[1..], x);
      assert IndexOf(s, x) == k + 1;
      assert s[..k + 1] == [s[0]] + s[1..][..k];
      assert s[k + 2..] == s[1..][k + 1..];
    }
  }

  /** Adds `x` at the end when absent, removes it when present. */
  function Toggle(s: seq<string>, x: string): (r: seq<string>)
    ensures forall y :: y in r <==> if y == x then x !in s else y in s
    ensures Distinct(s) ==> Distinct(r)
  {
    if x in s then Remove(s, x) else s + [x]
  }

  /** Toggling the first element of a duplicate-free sequence drops exactly that element. */
  lemma ToggleHead(s: seq<string>)
    requires Distinct(s) && s != []
    ensures Toggle(s, s[0]) == s[1..]
  {
    assert s[0] !in s[1..];
  }

  /**
   * A sanity law of the ordered-set abstraction, not a step the editor takes:
   * toggling a style twice gives back the same set of styles.
   */
  lemma ToggleTwice(s: seq<string>, x: string)
    ensures forall y :: y in Toggle(Toggle(s, x), x) <==> y in s
  {
  }

  /** RichUtils.toggleInlineStyle at a caret: flips whether `style` is active. */
  function ToggleInlineStyle(s: EditorState, style: string): (r: EditorState)
    requires ValidState(s)
    ensures ValidState(r)
    ensures r.content == s.content && r.selection == s.selection
    ensures style in r.styles <==> style !in s.styles
    ensures forall y | y != style :: y in r.styles <==> y in s.styles
  {
    s.(styles := Toggle(s.styles, style))
  }
}
