/**
 * Worked key sequences through the editor component, with the trigger list
 * configured as "#", "*", "**", "***" and one string, "-", that the command
 * handler gives no effect to.
 */
module Scenarios {
  import opened Draft
  import opened Editor

  const RULES: seq<string> := ["#", "*", "**", "***", "-"]

  /** A stand-in for the default binding: Ctrl+B is "bold", nothing else is a command. */
  function DefaultBinding(e: KeyEvent): Option<string>
  {
    if e.key == "b" && Ctrl in e.modifiers then Some("bold") else None
  }

  /** A single-block document with the caret at `offset` and the styles `styles` active. */
  function OneBlock(text: string, blockType: string, offset: nat, styles: seq<string>): (s: EditorState)
    requires offset <= |text| && Distinct(styles)
    ensures ValidState(s) && CaretIndex(s) == 0 && LeadingText(s) == text[..offset]
  {
    var at := Caret("a", offset);
    assert Keys([Block("a", text, blockType)]) == ["a"];
    EditorState(Content([Block("a", text, blockType)], at), at, styles)
  }

  /** "#" then space: the block becomes an empty heading. */
  method HeadingShorthand() returns (blocks: seq<Block>, styles: seq<string>)
    ensures blocks == [Block("a", "", HEADER_ONE)] && styles == []
  {
    var editor := new TextEditor("a");
    editor.OnChange(OneBlock("#", UNSTYLED, 1, []));
    assert "#"[..1] == RULES[0];
    var command := KeyBinding(RULES, editor.editorState, KeyEvent(" ", {}), DefaultBinding);
    assert command == Some(SPACE);
    var handled := editor.HandleKeyCommand(command.value, "b");
    blocks, styles := editor.editorState.content.blocks, editor.editorState.styles;
  }

  /** "*" then space inside a heading with UNDERLINE active: an unstyled block with only BOLD active. */
  method BoldShorthand() returns (blocks: seq<Block>, styles: seq<string>)
    ensures blocks == [Block("a", "", UNSTYLED)] && styles == [BOLD]
  {
    var editor := new TextEditor("a");
    editor.OnChange(OneBlock("*", HEADER_ONE, 1, [UNDERLINE]));
    assert "*"[..1] == RULES[1];
    var command := KeyBinding(RULES, editor.editorState, KeyEvent(" ", {}), DefaultBinding);
    assert command == Some(SPACE);
    var handled := editor.HandleKeyCommand(command.value, "b");
    blocks, styles := editor.editorState.content.blocks, editor.editorState.styles;
  }

  /** "-" then space: "-" is a trigger string without an effect, so a plain space is typed. */
  method UnrecognisedTrigger() returns (blocks: seq<Block>, caret: Caret)
    ensures blocks == [Block("a", "- ", UNSTYLED)] && caret == Caret("a", 2)
  {
    var editor := new TextEditor("a");
    editor.OnChange(OneBlock("-", UNSTYLED, 1, []));
    assert "-"[..1] == RULES[4];
    var command := KeyBinding(RULES, editor.editorState, KeyEvent(" ", {}), DefaultBinding);
    assert command == Some(SPACE);
    var handled := editor.HandleKeyCommand(command.value, "b");
    assert "-" + " " + "" == "- ";
    blocks, caret := editor.editorState.content.blocks, editor.editorState.selection;
  }

  /** Enter at offset 5 of a bold heading "hello world": "hello" stays a heading, " world" starts unstyled. */
  method EnterSplitsLine() returns (blocks: seq<Block>, styles: seq<string>, result: HandleValue)
    ensures blocks == [Block("a", "hello", HEADER_ONE), Block("b", " world", UNSTYLED)]
    ensures styles == [] && result == Handled
  {
    var editor := new TextEditor("a");
    editor.OnChange(OneBlock("hello world", HEADER_ONE, 5, [BOLD]));
    var command := KeyBinding(RULES, editor.editorState, KeyEvent("Enter", {}), DefaultBinding);
    assert command == Some(ENTER);
    result := editor.HandleKeyCommand(command.value, "b");
    assert "hello world"[..5] == "hello" && "hello world"[5..] == " world";
    blocks, styles := editor.editorState.content.blocks, editor.editorState.styles;
  }

  /** Ctrl+B goes to the default binding; the handler leaves its command, and the state, alone. */
  method DefaultCommandNotHandled() returns (result: HandleValue, kept: bool)
    ensures result == NotHandled && kept
  {
    var editor := new TextEditor("a");
    editor.OnChange(OneBlock("#", UNSTYLED, 1, [BOLD]));
    var before := editor.editorState;
    var command := KeyBinding(RULES, editor.editorState, KeyEvent("b", {Ctrl}), DefaultBinding);
    assert command == Some("bold");
    result := editor.HandleKeyCommand(command.value, "b");
    kept := editor.editorState == before;
  }
}
