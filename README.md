# Shorthand interpreter of a draft-js text editor

This project models the keystroke logic of the `TextEditor` component
(`src/components/Editor/TextEditor.tsx`): a rich-text editor with
Markdown-like shorthands. Typing a space right after `#`, `*`, `**` or `***`
at the very start of a block deletes those characters. Then:

- `#` turns the block into a `header-one`;
- `*`, `**` and `***` make `BOLD`, `TEXT_COLOR` or `UNDERLINE` the only
  active inline style.

Pressing Enter splits the block at the caret. The new line starts as an
`unstyled` block, with no inline style active.

The component has three pieces:

- `handleKeyBinding` classifies a key press into the command `"space"`,
  the command `"enter"`, or whatever draft-js's default binding gives.
- `removeInlineStyles` toggles off every style active at the caret.
- `handleKeyCommand` rewrites the editor state for `"space"` and `"enter"`
  and answers `"handled"`, or answers `"not-handled"` for anything else.

The draft-js operations these call are not part of this model. They are
modelled abstractly in module `Draft` (`draft.dfy`), each as a function with
a contract:

- a document is a sequence of blocks `(key, text, type)` with distinct keys;
- a content state also carries the caret the last edit left behind;
- an editor state pairs a content state with the current caret and the
  ordered set of inline styles active at the caret (an immutable
  OrderedSet: an added style goes to the end, a removed one leaves the
  others in order);
- `replaceText` and `insertText` splice a block's text;
- `splitBlock` cuts a block in two at the caret;
- `toggleBlockType(t)` makes the caret's block `t`, or `unstyled` when it
  is already `t`;
- `toggleInlineStyle(s)` flips whether `s` is active at the caret;
- `EditorState.push` moves the caret to where the edit left it.

Module `Editor` (`editor.dfy`) holds the interpreter: `KeyBinding`
(a function), `RemoveInlineStyles` (a method whose loop toggles one style per
step) and the class `TextEditor`. That class owns the component's single
state field, `editorState`; `HandleKeyCommand` rewrites it step by step, as
the source does. Its postcondition equates the result with `AfterSpace` or
`AfterEnter`. These reference functions state the outcome of each command
directly, and the lemmas next to them spell out what that outcome is.
Module `Scenarios` (`scenarios.dfy`) runs worked key sequences through the
class. It uses the trigger list `#`, `*`, `**`, `***`,
plus `-`, a string the handler gives no effect to.

Parameters stand for what the component reads from outside:

- the trigger list `RULES` comes from a constants module that is not part of
  this model;
- draft-js's `getDefaultKeyBinding` is a function parameter;
- the random key draft-js gives the block a split creates is a parameter,
  `freshKey`, required not to be a key already in use.

## Model

| member | source | states |
|---|---|---|
| `Draft.IndexOf` | src/components/Editor/TextEditor.tsx:45-46 | the position found holds the key and no earlier position does |
| `Draft.BlockIndex` | src/components/Editor/TextEditor.tsx:73-74 | `getBlockForKey` finds a block carrying the requested key |
| `Draft.CaretIndex` | src/components/Editor/TextEditor.tsx:44-48 | the selection's start block exists and the start offset lies within its text |
| `Draft.CreateEmpty` | src/components/Editor/TextEditor.tsx:24 | the initial state is well formed: one empty unstyled block, no active style |
| `Draft.ReplaceText` | src/components/Editor/TextEditor.tsx:80-84 | only offsets [start, end) of the one block change; the text before and after is kept, as are the type, the keys and every other block; the caret lands after the new text |
| `Draft.InsertText` | src/components/Editor/TextEditor.tsx:114-118 | the text goes in at the caret of that block only; the caret moves past it |
| `Draft.InsertThenDelete` | src/components/Editor/TextEditor.tsx:114-118 | deleting the span just inserted gives back the original blocks |
| `Draft.SplitBlock` | src/components/Editor/TextEditor.tsx:132 | one more block; blocks before and after are kept; the two parts concatenate to the old text, the first ends at the caret, both keep the type; the new key is unique and the caret starts the second part |
| `Draft.SplitFacts` | src/components/Editor/TextEditor.tsx:132 | a block with a fresh key placed right after block i: keys stay distinct and the new key is found at i + 1 |
| `Draft.SplitKeysDistinct` | src/components/Editor/TextEditor.tsx:132 | inserting a fresh key next to an existing one keeps all keys distinct |
| `Draft.SetBlockType` | src/components/Editor/TextEditor.tsx:91 | only the caret block's type changes; the caret stays |
| `Draft.Push` | src/components/Editor/TextEditor.tsx:86-90 | the new state shows the new content, with the caret where the edit left it |
| `Draft.ForceSelection` | src/components/Editor/TextEditor.tsx:138-140 | only the caret changes |
| `Draft.ToggleBlockType` | src/components/Editor/TextEditor.tsx:91 | the caret block becomes the type, or `unstyled` if it already had it; nothing else changes |
| `Draft.ResetIsUnstyled` | src/components/Editor/TextEditor.tsx:91 | toggling `unstyled` always yields `unstyled` |
| `Draft.ToggleAfterResetSets` | src/components/Editor/TextEditor.tsx:91-98 | after the reset, toggling `header-one` always sets it, never turns it off |
| `Draft.ToggleBlockTypeTwice` | src/components/Editor/TextEditor.tsx:97 | toggling the same type twice from another type ends `unstyled` |
| `Draft.Remove` | src/components/Editor/TextEditor.tsx:64 | exactly the given style leaves the ordered set; it stays duplicate-free |
| `Draft.RemoveKeepsOrder` | src/components/Editor/TextEditor.tsx:64 | removing a present style takes out exactly its position; the styles before and after it keep their order |
| `Draft.Toggle` | src/components/Editor/TextEditor.tsx:64 | membership flips for the toggled style only; no duplicates appear |
| `Draft.ToggleHead` | src/components/Editor/TextEditor.tsx:63-65 | toggling the first active style removes exactly that one |
| `Draft.ToggleTwice` | src/components/Editor/TextEditor.tsx:64 | a sanity law of the ordered-set abstraction: toggling a style twice leaves the same set of styles |
| `Draft.ToggleInlineStyle` | src/components/Editor/TextEditor.tsx:101 | only whether that style is active changes; content and caret are kept |
| `Editor.LeadingText` | src/components/Editor/TextEditor.tsx:47-50 | the leading text is the prefix of the caret block that ends at the caret |
| `Editor.KeyBinding` | src/components/Editor/TextEditor.tsx:42-57 | space after a rule string at the block start is `"space"`; Enter is `"enter"`; anything else is the default binding's answer |
| `Editor.SpaceExactlyAfterTrigger` | src/components/Editor/TextEditor.tsx:50-52 | when the default binding never says `"space"`: the command is `"space"` if and only if the key is a space and the leading text is in the rules |
| `Editor.RemoveInlineStyles` | src/components/Editor/TextEditor.tsx:59-68 | afterwards no style is active, and content and caret are unchanged; the loop toggles each style of the snapshot taken at the start once, in order |
| `Editor.Rewritten` | src/components/Editor/TextEditor.tsx:79-84 | rewriting the caret's block keeps the keys, the caret's block position and a well-formed state |
| `Editor.DeleteLeadingAndReset` | src/components/Editor/TextEditor.tsx:79-91 | deleting [0, caret) and resetting to `unstyled` leaves the text after the caret, unstyled, caret at 0, styles as they were, other blocks untouched |
| `Editor.RetypeRewritten` | src/components/Editor/TextEditor.tsx:95-98 | on the reset block, toggling `header-one` sets it and changes nothing else |
| `Editor.StyleRewritten` | src/components/Editor/TextEditor.tsx:100-111 | with no style active, toggling a style makes it the only active style and changes nothing else |
| `Editor.SpaceInserted` | src/components/Editor/TextEditor.tsx:113-125 | the fallback, applied to the original state, puts one space at the caret and moves the caret past it |
| `Editor.SplitAndReset` | src/components/Editor/TextEditor.tsx:132-142 | after the split and the reset, the first part keeps its type and the new block is `unstyled`, holding the text after the caret with the caret at its start |
| `Editor.TriggerConsumesLeadingText` | src/components/Editor/TextEditor.tsx:79-84 | after a trigger, only offsets [0, caret) of the caret's block are gone: the rest of that block and every other block stay, and the caret is at offset 0 |
| `Editor.HeadingTrigger` | src/components/Editor/TextEditor.tsx:91-98 | `#` always yields `header-one` with no style active, whatever the block's type and styles were |
| `Editor.StyleTriggers` | src/components/Editor/TextEditor.tsx:91-111 | `*`, `**`, `***` yield an `unstyled` block with exactly `BOLD`, `TEXT_COLOR`, `UNDERLINE` active, whatever was active before |
| `Editor.NonTriggerTypesSpace` | src/components/Editor/TextEditor.tsx:113-125 | any other leading text is kept and followed by one space at the caret; type and styles are as before |
| `Editor.EnterSplitsBlock` | src/components/Editor/TextEditor.tsx:131-145 | Enter adds one block: the first part keeps the text before the caret and its type; the new block holds the rest, is `unstyled` and has the caret; no style is active; the other blocks are kept in order |
| `Editor.TextEditor.constructor` | src/components/Editor/TextEditor.tsx:24 | the component starts from the empty document |
| `Editor.TextEditor.OnChange` | src/components/Editor/TextEditor.tsx:179 | the editor's change replaces the whole state |
| `Editor.TextEditor.HandleKeyCommand` | src/components/Editor/TextEditor.tsx:70-149 | `"handled"` exactly for `"space"` and `"enter"`; other commands leave the state untouched. For `"space"`, the draft-js steps lead to `AfterSpace` of the old state: the outcome written directly per trigger. For `"enter"` they lead to `AfterEnter`: the block cut at the caret. The lemmas above state what those outcomes are |
| `Scenarios.HeadingShorthand` | src/components/Editor/TextEditor.tsx:94-98 | `#` then space turns the block into an empty heading |
| `Scenarios.BoldShorthand` | src/components/Editor/TextEditor.tsx:100-102 | `*` then space in a heading with `UNDERLINE` active leaves an empty unstyled block with only `BOLD` active |
| `Scenarios.UnrecognisedTrigger` | src/components/Editor/TextEditor.tsx:113-125 | a rule string with no effect is kept, followed by a plain space |
| `Scenarios.EnterSplitsLine` | src/components/Editor/TextEditor.tsx:131-145 | Enter at offset 5 of the bold heading `hello world` gives the heading `hello` and the unstyled block ` world`, with no style active |
| `Scenarios.DefaultCommandNotHandled` | src/components/Editor/TextEditor.tsx:148 | a command from the default binding is not handled and the state is kept |

## Left out

- Loading from and saving to `localStorage` (`TextEditor.tsx:27-35`,
  `151-157`) is browser I/O. It goes through draft-js's raw codec, which is
  not part of this model. `TextEditor.tsx:29-32` has no handling for
  malformed saved data, so no fallback is modelled.
- The `styleMap` (`TextEditor.tsx:37-40`) only matters when rendering.
  Rendering, focus handling, the page, the button and the title components
  are view code and are left out too.
- Selections that are not a collapsed caret are not represented. This
  covers ranges within one block, ranges across blocks and backward ranges.
  The effect of `selectionState.merge` at `TextEditor.tsx:82`, which keeps
  the original keys, on such ranges is therefore not modelled.
- Draft.Push: it carries the active style set over unchanged. draft-js drops
  its inline-style override on most pushes and re-derives the caret's
  styles from per-character style metadata. That metadata is not modelled.
  This matters only for the style set after a shorthand that has no effect,
  which the model leaves as it was before the key press. The members whose
  stated style set comes from this abstraction are `Editor.NonTriggerTypesSpace`,
  `Editor.DeleteLeadingAndReset` and the fallback branch of `Editor.AfterSpace`.
- Draft.ForceSelection: it keeps the active style set. draft-js's
  `forceSelection` (`TextEditor.tsx:140`) also clears the inline-style
  override, so the caret's styles are worked out again from per-character
  metadata; that reset is not modelled. The outcome of Enter does not depend
  on it, because `removeInlineStyles` clears the set straight afterwards.
- Draft.SplitBlock: it always cuts the block in two. draft-js's `splitBlock`
  does not split an empty `unordered-list-item` or `ordered-list-item`
  block; it turns that block `unstyled` at depth 0 instead. Such blocks can
  reach this editor through pasted HTML or saved content, and for them
  "Enter adds one block" (`Editor.EnterSplitsBlock`, `Editor.AfterEnter`) is
  not what the program does.
- Draft.ToggleBlockType: the draft-js guard that leaves a selection touching
  an `atomic` block unchanged is not modelled. Nor is the adjustment for a
  selection that ends at offset 0 of the next block.
- Undo history and change-type tags (`"remove-range"`, `"split-block"`, ...)
  have no effect the model can observe.
- Entities, block data and block depth are not represented.
- The default editing that draft-js performs after `"not-handled"`
  (character insertion and so on) is not modelled.
- `handleKeyBinding` reads the component's current state. `handleKeyCommand`
  reads the state draft-js passes it, which is the same state. The model uses
  the class field for both. React's deferred state update is modelled as an
  immediate assignment.
