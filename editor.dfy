/**
 * The shorthand interpreter of the text editor component: the key binding
 * that classifies a key press, the routine that clears the active inline
 * styles, and the command handler that rewrites the editor state.
 *
 * The list of trigger strings and draft-js's default key binding are not part
 * of this model; both are parameters.
 */
module Editor {
  import opened Draft

  datatype Option<T> = None | Some(value: T)

  datatype KeyModifier = Shift | Ctrl | Alt | Meta

  /** A key press: the key's name (" ", "Enter", "a", ...) and the modifiers held. */
  datatype KeyEvent = KeyEvent(key: string, modifiers: set<KeyModifier>)

  datatype HandleValue = Handled | NotHandled

  /** The commands the key binding produces. */
  const SPACE := "space"
  const ENTER := "enter"

  /** The inline styles the triggers turn on. */
  const BOLD := "BOLD"
  const TEXT_COLOR := "TEXT_COLOR"
  const UNDERLINE := "UNDERLINE"

  /** The text from the start of the caret's block up to the caret. */
  function LeadingText(s: EditorState): (lead: string)
    requires ValidState(s)
    ensures |lead| == s.selection.offset
    ensures lead <= s.content.blocks[CaretIndex(s)].text
  {
    s.content.blocks[CaretIndex(s)].text[..s.selection.offset]
  }

  /**
   * handleKeyBinding: a space typed right after one of the `rules` strings
   * (standing alone at the start of the block) is the command "space"; Enter
   * is the command "enter"; every other key goes to the default binding.
   */
  function KeyBinding(rules: seq<string>, s: EditorState, e: KeyEvent,
                      defaultBinding: KeyEvent -> Option<string>): (r: Option<string>)
    requires ValidState(s)
    ensures e.key == " " && LeadingText(s) in rules ==> r == Some(SPACE)
    ensures e.key == "Enter" ==> r == Some(ENTER)
    ensures !(e.key == " " && LeadingText(s) in rules) && e.key != "Enter" ==> r == defaultBinding(e)
  {
    var blockText := s.content.blocks[CaretIndex(s)].text;
    var startOffset := s.selection.offset;
    if e.key == " " && blockText[..startOffset] in rules then Some(SPACE)
    else if e.key == "Enter" then Some(ENTER)
    else defaultBinding(e)
  }

  /**
   * When the default binding never yields "space", the command is "space"
   * exactly when a space follows a trigger string at the start of the block.
   */
  lemma SpaceExactlyAfterTrigger(rules: seq<string>, s: EditorState, e: KeyEvent,
                                 defaultBinding: KeyEvent -> Option<string>)
    requires ValidState(s) && defaultBinding(e) != Some(SPACE)
    ensures KeyBinding(rules, s, e, defaultBinding) == Some(SPACE) <==> e.key == " " && LeadingText(s) in rules
  {
  }

  /**
   * removeInlineStyles: toggles off, one at a time, every style active at the
   * caret. Afterwards no style is active; content and caret are untouched.
   */
  method RemoveInlineStyles(state: EditorState) returns (r: EditorState)
    requires ValidState(state)
    ensures ValidState(r)
    ensures r.styles == []
    ensures r.content == state.content && r.selection == state.selection
  {
    var currentStyle := state.styles;
    r := state;
    for i := 0 to |currentStyle|
      invariant ValidState(r)
      invariant r == state.(styles := currentStyle[i..])
    {
      ToggleHead(currentStyle[i..]);
      r := ToggleInlineStyle(r, currentStyle[i]);
    }
  }

  /**
   * `s` with the caret's block holding `text` and `blockType`, every other
   * block as it was, the caret at `offset` of that block and `styles` active.
   */
  function Rewritten(s: EditorState, text: string, blockType: string, offset: nat, styles: seq<string>): (r: EditorState)
    requires ValidState(s) && offset <= |text| && Distinct(styles)
    ensures ValidState(r) && CaretIndex(r) == CaretIndex(s) && Keys(r.content.blocks) == Keys(s.content.blocks)
  {
    var i := CaretIndex(s);
    var at := Caret(s.selection.blockKey, offset);
    var b := Block(s.selection.blockKey, text, blockType);
    KeysUpdate(s.content.blocks, i, b);
    EditorState(Content(s.content.blocks[i := b], at), at, styles)
  }

  /**
   * The first steps of the "space" command: deleting the text before the
   * caret and resetting the block to `unstyled` leaves the rest of the block,
   * unstyled, with the caret at its start and the active styles as they were.
   */
  lemma DeleteLeadingAndReset(s: EditorState)
    requires ValidState(s)
    ensures var key, k := s.selection.blockKey, s.selection.offset;
            var t := s.content.blocks[CaretIndex(s)].text;
            ToggleBlockType(Push(s, ReplaceText(s.content, key, 0, k, "")), UNSTYLED)
              == Rewritten(s, t[k..], UNSTYLED, 0, s.styles)
  {
    var key, k := s.selection.blockKey, s.selection.offset;
    var i := CaretIndex(s);
    var t := s.content.blocks[i].text;
    var c := ReplaceText(s.content, key, 0, k, "");
    assert c.blocks[i].text == t[k..];
    assert c.blocks == s.content.blocks[i := c.blocks[i]];
  }

  /** Setting a block type on a rewritten unstyled block rewrites it with that type. */
  lemma RetypeRewritten(s: EditorState, text: string, offset: nat, styles: seq<string>, blockType: string)
    requires ValidState(s) && offset <= |text| && Distinct(styles) && blockType != UNSTYLED
    ensures ToggleBlockType(Rewritten(s, text, UNSTYLED, offset, styles), blockType)
              == Rewritten(s, text, blockType, offset, styles)
  {
  }

  /** Turning a style on when none is active makes it the only active style. */
  lemma StyleRewritten(s: EditorState, text: string, offset: nat, style: string)
    requires ValidState(s) && offset <= |text|
    ensures ToggleInlineStyle(Rewritten(s, text, UNSTYLED, offset, []), style)
              == Rewritten(s, text, UNSTYLED, offset, [style])
  {
  }

  /** The fallback of the "space" command: a space typed at the caret of the original state. */
  lemma SpaceInserted(s: EditorState)
    requires ValidState(s)
    ensures var b := s.content.blocks[CaretIndex(s)];
            var k := s.selection.offset;
            Push(s, InsertText(s.content, s.selection, " "))
              == Rewritten(s, b.text[..k] + " " + b.text[k..], b.blockType, k + 1, s.styles)
  {
  }

  /** The block Enter creates, before its styles are cleared: unstyled, holding the text after the caret. */
  lemma SplitAndReset(s: EditorState, freshKey: string)
    requires ValidState(s) && freshKey !in Keys(s.content.blocks)
    ensures var i := CaretIndex(s);
            var b := s.content.blocks[i];
            var k := s.selection.offset;
            var at := Caret(freshKey, 0);
            var split := Push(s, SplitBlock(s.content, s.selection, freshKey));
            CaretIn(split.content.blocks, split.selection) &&
            ToggleBlockType(ForceSelection(split, split.selection), UNSTYLED)
              == EditorState(Content(s.content.blocks[..i] + [b.(text := b.text[..k]), Block(freshKey, b.text[k..], UNSTYLED)] + s.content.blocks[i + 1..], at), at, s.styles)
  {
    var i := CaretIndex(s);
    var b := s.content.blocks[i];
    var k := s.selection.offset;
    var c := SplitBlock(s.content, s.selection, freshKey);
    var first, second := c.blocks[i], c.blocks[i + 1];
    assert first.text == b.text[..k] && second.text == b.text[k..];
    assert first == b.(text := b.text[..k]);
    var prefix, suffix := s.content.blocks[..i], s.content.blocks[i + 1..];
    assert c.blocks == prefix + [first, second] + suffix;
    assert c.blocks[i + 1 := second.(blockType := UNSTYLED)] == prefix + [first, second.(blockType := UNSTYLED)] + suffix;
  }

  /** The trigger strings the command handler gives an effect to. */
  predicate IsTrigger(lead: string)
  {
    lead == "#" || lead == "*" || lead == "**" || lead == "***"
  }

  /**
   * What the "space" command leaves, stated directly: after a trigger string
   * the text before the caret is gone and the caret is at the block start,
   * the block is a heading ("#") or unstyled with exactly one style active
   * ("*", "**", "***"); after any other text a plain space is typed at the
   * caret.
   */
  function AfterSpace(s: EditorState): EditorState
    requires ValidState(s)
  {
    var b := s.content.blocks[CaretIndex(s)];
    var k := s.selection.offset;
    var lead, rest := b.text[..k], b.text[k..];
    if lead == "#" then Rewritten(s, rest, HEADER_ONE, 0, [])
    else if lead == "*" then Rewritten(s, rest, UNSTYLED, 0, [BOLD])
    else if lead == "**" then Rewritten(s, rest, UNSTYLED, 0, [TEXT_COLOR])
    else if lead == "***" then Rewritten(s, rest, UNSTYLED, 0, [UNDERLINE])
    else Rewritten(s, lead + " " + rest, b.blockType, k + 1, s.styles)
  }

  /**
   * What the "enter" command leaves, stated directly: the caret's block cut
   * in two at the caret, the second part a new unstyled block holding the
   * caret at its start, and no style active.
   */
  function AfterEnter(s: EditorState, freshKey: string): EditorState
    requires ValidState(s)
  {
    var i := CaretIndex(s);
    var b := s.content.blocks[i];
    var k := s.selection.offset;
    var at := Caret(freshKey, 0);
    var blocks := s.content.blocks[..i] + [b.(text := b.text[..k]), Block(freshKey, b.text[k..], UNSTYLED)] + s.content.blocks[i + 1..];
    EditorState(Content(blocks, at), at, [])
  }

  /**
   * A trigger consumes exactly the text before the caret: the rest of the
   * block stays, every other block stays, the caret goes to the block start.
   */
  lemma TriggerConsumesLeadingText(s: EditorState)
    requires ValidState(s) && IsTrigger(LeadingText(s))
    ensures var r, i, k := AfterSpace(s), CaretIndex(s), s.selection.offset;
            && |r.content.blocks| == |s.content.blocks|
            && r.content.blocks[i].key == s.content.blocks[i].key
            && r.content.blocks[i].text == s.content.blocks[i].text[k..]
            && (forall j | 0 <= j < |s.content.blocks| && j != i :: r.content.blocks[j] == s.content.blocks[j])
            && r.selection == Caret(s.selection.blockKey, 0)
  {
  }

  /** "#" always makes a heading with no style active, whatever the block and the styles were. */
  lemma HeadingTrigger(s: EditorState)
    requires ValidState(s) && LeadingText(s) == "#"
    ensures var r := AfterSpace(s);
            r.content.blocks[CaretIndex(s)].blockType == HEADER_ONE && r.styles == []
  {
  }

  /** "*", "**" and "***" leave an unstyled block with exactly BOLD, TEXT_COLOR or UNDERLINE active. */
  lemma StyleTriggers(s: EditorState)
    requires ValidState(s)
    ensures var r, lead := AfterSpace(s), LeadingText(s);
            && (lead == "*" || lead == "**" || lead == "***" ==> r.content.blocks[CaretIndex(s)].blockType == UNSTYLED)
            && (lead == "*" ==> r.styles == [BOLD])
            && (lead == "**" ==> r.styles == [TEXT_COLOR])
            && (lead == "***" ==> r.styles == [UNDERLINE])
  {
  }

  /**
   * Any other leading text is kept: the block reads as before with one space
   * at the caret, the caret after it, type and styles unchanged.
   */
  lemma NonTriggerTypesSpace(s: EditorState)
    requires ValidState(s) && !IsTrigger(LeadingText(s))
    ensures var r, i, k := AfterSpace(s), CaretIndex(s), s.selection.offset;
            var t := s.content.blocks[i].text;
            && r.content.blocks == s.content.blocks[i := s.content.blocks[i].(text := t[..k] + " " + t[k..])]
            && r.selection == Caret(s.selection.blockKey, k + 1)
            && LeadingText(r) == LeadingText(s) + " "
            && r.styles == s.styles
  {
  }

  /**
   * Enter adds one block: the first part keeps the text before the caret and
   * the type, the new block holds the text after the caret and is unstyled,
   * no style is active, every other block stays.
   */
  lemma EnterSplitsBlock(s: EditorState, freshKey: string)
    requires ValidState(s)
    ensures var r, i, k := AfterEnter(s, freshKey), CaretIndex(s), s.selection.offset;
            var b := s.content.blocks[i];
            && |r.content.blocks| == |s.content.blocks| + 1
            && r.content.blocks[i] == b.(text := b.text[..k])
            && r.content.blocks[i + 1] == Block(freshKey, b.text[k..], UNSTYLED)
            && r.content.blocks[i].text + r.content.blocks[i + 1].text == b.text
            && (forall j | 0 <= j < i :: r.content.blocks[j] == s.content.blocks[j])
            && (forall j | i < j < |s.content.blocks| :: r.content.blocks[j + 1] == s.content.blocks[j])
            && r.selection == Caret(freshKey, 0) && r.styles == []
  {
  }

  /** The text editor component; its one state field is the editor state. */
  class TextEditor {
    var editorState: EditorState

    ghost predicate Valid()
      reads this
    {
      ValidState(editorState)
    }

    /** The component starts from an empty document. */
    constructor (key: string)
      ensures Valid() && editorState == CreateEmpty(key)
    {
      editorState := CreateEmpty(key);
    }

    /** The editor's onChange: the new state replaces the old one. */
    method OnChange(next: EditorState)
      requires ValidState(next)
      modifies this
      ensures Valid() && editorState == next
    {
      editorState := next;
    }

    /**
     * handleKeyCommand. "space" consumes the leading trigger text and applies
     * its effect (or, for a string without one, inserts a plain space);
     * "enter" splits the block and starts the new line unstyled with no
     * active style; any other command is left to the default behaviour.
     * `freshKey` is the key draft-js generates for the block a split creates.
     */
    method HandleKeyCommand(command: string, freshKey: string) returns (r: HandleValue)
      requires Valid()
      requires command == ENTER ==> freshKey !in Keys(editorState.content.blocks)
      modifies this
      ensures Valid()
      ensures r == Handled <==> command == SPACE || command == ENTER
      ensures command != SPACE && command != ENTER ==> editorState == old(editorState)
      ensures command == SPACE ==> editorState == AfterSpace(old(editorState))
      ensures command == ENTER ==> editorState == AfterEnter(old(editorState), freshKey)
    {
      var contentState := editorState.content;
      var selectionState := editorState.selection;
      var blockKey := selectionState.blockKey;
      var i := CaretIndex(editorState);
      var block := contentState.blocks[i];
      var blockText := block.text;
      var startOffset := selectionState.offset;

      if command == SPACE {
        var leadingSymbols := blockText[..startOffset];
        var newContentState := ReplaceText(contentState, blockKey, 0, startOffset, "");
        var nextEditorState := Push(editorState, newContentState);
        nextEditorState := ToggleBlockType(nextEditorState, UNSTYLED);
        DeleteLeadingAndReset(editorState);
        nextEditorState := RemoveInlineStyles(nextEditorState);
        ghost var rest := blockText[startOffset..];
        assert nextEditorState == Rewritten(editorState, rest, UNSTYLED, 0, []);

        if leadingSymbols == "#" {
          RetypeRewritten(editorState, rest, 0, [], HEADER_ONE);
          editorState := ToggleBlockType(nextEditorState, HEADER_ONE);
        } else if leadingSymbols == "*" {
          StyleRewritten(editorState, rest, 0, BOLD);
          editorState := ToggleInlineStyle(nextEditorState, BOLD);
        } else if leadingSymbols == "**" {
          StyleRewritten(editorState, rest, 0, TEXT_COLOR);
          editorState := ToggleInlineStyle(nextEditorState, TEXT_COLOR);
        } else if leadingSymbols == "***" {
          StyleRewritten(editorState, rest, 0, UNDERLINE);
          editorState := ToggleInlineStyle(nextEditorState, UNDERLINE);
        } else {
          SpaceInserted(editorState);
          var newContentStateWithSpace := InsertText(contentState, selectionState, " ");
          editorState := Push(editorState, newContentStateWithSpace);
        }
        return Handled;
      }

      if command == ENTER {
        SplitAndReset(editorState, freshKey);
        var newContentState := SplitBlock(contentState, selectionState, freshKey);
        var newEditorState := Push(editorState, newContentState);
        var newSelectionState := newEditorState.selection;
        newEditorState := ToggleBlockType(ForceSelection(newEditorState, newSelectionState), UNSTYLED);
        newEditorState := RemoveInlineStyles(newEditorState);
        editorState := newEditorState;
        return Handled;
      }

      return NotHandled;
    }
  }
}
