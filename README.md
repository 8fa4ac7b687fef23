# PromptBall floating ball — a Dafny model of its core

PromptBall is a small desktop widget: an always-on-top ball that you drag around,
whose right click saves the clipboard text into a persistent list of snippets, and
whose left click opens a popup listing them (left click on a row copies it back to
the clipboard, right click deletes it). This project models the logic inside
`floating_ball.py` and proves what it does:

- **The snippet store** (`snippet_store.dfy`, `floating_ball.dfy`). The ball keeps an
  ordered list `options` and a set `option_set` used to reject duplicates. The list is
  one shared object (`Ball.SnippetList`): the ball, the popup dialog and its list widget
  all hold the same reference, so a delete in the popup is a delete in the ball's list.
  The store as a value (`SnippetStore.Store`) and its operations `Load`, `Add`, `Delete`
  specify the class methods; the lemmas prove that a consistent store (set equal to the
  list's elements, no repeats) stays consistent under every add and delete.
- **The drift.** `load_options` builds the set from whatever list the file holds. If the
  file holds two copies of a text, the store starts inconsistent; deleting one copy
  discards the text from the set while the other copy stays in the list, and adding the
  text again, if it is non-empty, then succeeds and re-creates the second copy
  (`SnippetStore.DuplicateLoadDrifts`).
  The app itself never writes duplicates from a consistent start, so this needs a list
  edited outside the app; the model keeps the behaviour as written.
- **Persistence** is ghost state: `disk` maps a save directory to the list its
  `options.json` holds, `configFile` is the config file's two keys. `save_options` and
  `save_config` overwrite them whole.
- **The display rule** (`display.dfy`): a row's label is the first 20 characters, with
  `...` appended when the text is longer; its tooltip keeps the full text, and it is the
  tooltip that a delete discards from the set.
- **The face validator** (`symbols.dfy`): `is_emoji` accepts exactly one character whose
  Unicode general category is So, Sk or Cs. The category table is a parameter.
- **Pointer input** (`input.dfy`, `floating_ball.dfy`): press dispatch by button and
  modifiers, and the press/move/release drag machine over `is_pressing`, `is_moving`,
  `press_pos` and the window position.

The model follows the code as written: `add_option_from_clipboard` reports one of three
outcomes (added, already exists, no text); the set mirrors the list only when the loaded
file has no duplicates; a click outside every row is passed to the list's default
handling (`DefaultHandling`).

Inputs the code reads from the outside world are parameters: the clipboard text, the
directory test `os.path.isdir`, the category table `unicodedata.category`, the default
save directory under the home directory, the files present at start-up and the window's
start position.

## Model

| member | source | states |
|---|---|---|
| `SnippetStore.RemoveAt` | floating_ball.py:78 | `del s[i]`: one shorter, elements before `i` kept, those after shifted down by one, and the multiset loses exactly `s[i]` |
| `SnippetStore.Load` | floating_ball.py:323-327 | the list is the file's list, or empty when there is no file, and the set holds exactly the list's elements |
| `SnippetStore.AddOutcomeOf` | floating_ball.py:265-275 | the text is added exactly when it is non-empty and not in the set; "no text" exactly when it is empty |
| `SnippetStore.Add` | floating_ball.py:265-271 | the list grows by one exactly when the text is added, earlier elements are kept, the new last element is the text, and the set gains exactly the text when it is added and is otherwise unchanged |
| `SnippetStore.Delete` | floating_ball.py:77-79 | the list is one shorter and loses exactly one copy of the row's text; the set is the old set without that text |
| `SnippetStore.LoadConsistentIff` | floating_ball.py:323-327 | the loaded store is consistent exactly when the file is absent or its list has no duplicates |
| `SnippetStore.AddPreservesConsistent` | floating_ball.py:265-271 | every add, accepted or rejected, keeps a consistent store consistent |
| `SnippetStore.DeletePreservesConsistent` | floating_ball.py:77-79 | deleting a valid row of a consistent store keeps it consistent, and the deleted text is then absent from the list |
| `SnippetStore.DuplicateLoadDrifts` | floating_ball.py:323-327 | with two copies of a text on disk the loaded store is inconsistent; deleting one copy leaves the text in the list but not in the set; a later add of it, for a non-empty text, succeeds and leaves at least two copies |
| `SnippetStore.AddTwiceRejectsSecond` | floating_ball.py:265-271 | adding the same text a second time reports no addition and changes nothing |
| `SnippetStore.AddAllDistinct` | floating_ball.py:265-271 | adding distinct non-empty new texts one after another appends exactly those texts in call order and keeps the store consistent |
| `SnippetStore.HelloWorldScenario` | floating_ball.py:262-275 | from an empty store: add "hello" is added, again is rejected, "world" is added, deleting row 0 leaves `["world"]` |
| `Display.Slice` | floating_ball.py:126 | Python's `s[:n]`: a prefix of `s` of length `min(|s|, n)` |
| `Display.Label` | floating_ball.py:126-128 | a text of at most 20 characters is shown unchanged; a longer one as its first 20 characters followed by `...`; the label has at most 23 characters and starts with the shown prefix |
| `Display.LabelsEqualIff` | floating_ball.py:126-128 | two texts share a label exactly when they are equal or both are longer than 20 characters with the same first 20 |
| `Display.Items` | floating_ball.py:125-132 | one row per text, in list order, each with the text's label and the full text as tooltip |
| `Display.ItemsAppend` | floating_ball.py:125-137 | adding the row of one more text extends the rows of the list by that row |
| `Display.ItemsRemoveAt` | floating_ball.py:78-81 | taking row `i` out of the rows gives the rows of the list with element `i` deleted, so rows and list stay in step |
| `Symbols.IsEmoji` | floating_ball.py:246-253 | false for every text whose length is not 1 (the empty text included); for one character, true exactly when its category is So, Sk or Cs |
| `Input.PressActionOf` | floating_ball.py:200-218 | Ctrl+left quits, other left presses begin a drag; right presses: Ctrl selects the save-path change over Shift, Shift without Ctrl the face change, and only a press with neither adds a snippet; other buttons do nothing |
| `Input.Press` | floating_ball.py:205-208 | pressing and not moving; the window stays, and window position plus grab offset is the pointer position |
| `Input.Move` | floating_ball.py:220-224 | with exactly the left button held while pressing, moving is set and the window goes to `global - press_pos`; otherwise nothing changes; the press fields are kept |
| `Input.Release` | floating_ball.py:226-231 | a left release clears both flags and keeps the window and grab offset; any other release changes nothing |
| `Input.OpensMenu` | floating_ball.py:227-229 | a release that opens the menu ends the press without the window having moved in it (only the pressing flag changes) |
| `Input.Step` | floating_ball.py:200-231 | one event keeps the moving-only-while-pressed invariant, and only a press can change the grab offset |
| `Input.Run` | floating_ball.py:200-231 | over a run of events without a press the grab offset stays as it was |
| `Input.RunKeepsDragInvariant` | floating_ball.py:200-231 | over any sequence of presses, moves and releases the ball is moving only while pressed |
| `Input.NoDragOpensMenu` | floating_ball.py:220-231 | from a state that is not moving, without a move holding exactly the left button, the window does not move and a left release opens the menu |
| `Input.DragSuppressesMenu` | floating_ball.py:220-231 | once moving, as long as no left release or new left drag press occurs, whatever else happens (right-click adds, other moves, other releases), a left release does not open the menu |
| `Input.RunSplit` | floating_ball.py:200-231 | handling two stretches of events in turn is handling their concatenation |
| `Input.PressingStays` | floating_ball.py:200-231 | from a pressed state, events that end no drag keep the ball pressed |
| `Input.PressedDragSuppressesMenu` | floating_ball.py:200-231 | after a left press, events that end no drag, one left-held move, and more events that end no drag, a left release opens no menu |
| `Input.DragFollowsPointer` | floating_ball.py:205-224 | after a left press at `start`, left-held moves ending at `p` put the window at its old position plus `p - start`; the release then opens no menu and clears both flags |
| `Ball.SnippetList.constructor` | floating_ball.py:326 | a list holding the given texts |
| `Ball.SnippetList.Append` | floating_ball.py:270 | the text is appended at the end, earlier elements unchanged |
| `Ball.SnippetList.DeleteAt` | floating_ball.py:78 | the list becomes `RemoveAt` of the old list |
| `Ball.FloatingBall.constructor` | floating_ball.py:158-170 | flags cleared, grab offset (0, 0); save directory and face from the config file with defaults for a missing file or key; the store is `Load` of that directory's list; disk and config as found |
| `Ball.FloatingBall.SaveOptions` | floating_ball.py:316-320 | the current save directory's file now holds the list; other files unchanged |
| `Ball.FloatingBall.SaveConfig` | floating_ball.py:291-299 | the config file now holds the save directory and the face |
| `Ball.FloatingBall.AddOptionFromClipboard` | floating_ball.py:262-275 | empty or already-present text changes neither list, set nor disk; otherwise the text is appended, inserted into the set, the saved list equals the new list, and consistency is preserved |
| `Ball.FloatingBall.SetNewEmoji` | floating_ball.py:234-243 | accepted exactly when `IsEmoji`; then the face is the text and the config file is rewritten, otherwise nothing changes |
| `Ball.FloatingBall.SetNewSavePath` | floating_ball.py:278-288 | accepted exactly when the text names a directory; then it is the save directory, the list is written there and the config records it; otherwise nothing changes |
| `Ball.FloatingBall.MousePressEvent` | floating_ball.py:200-218 | per `PressActionOf`: quit, start a drag (`Press` of the drag state), or run the chosen right-click handler; every other part of the state is left as it was |
| `Ball.FloatingBall.MouseMoveEvent` | floating_ball.py:220-224 | the drag state becomes `Move` of the old one: with exactly the left button held while pressing the window goes to `global - press_pos` and moving is set |
| `Ball.FloatingBall.MouseReleaseEvent` | floating_ball.py:226-231 | a left release opens a popup over the same list exactly when not moving, and both flags clear; other releases change nothing |
| `Ball.FloatingBall.ShowMenu` | floating_ball.py:256-259 | a fresh popup whose list object is the ball's own and whose rows are `Items` of it |
| `Ball.OptionsDialog.constructor` | floating_ball.py:87-137 | the loop over the list adds one row per text, so the list widget's rows equal `Items` of the shared list |
| `Ball.OptionsListWidget.constructor` | floating_ball.py:51-54 | the widget refers to the given list and ball and has no rows yet |
| `Ball.OptionsListWidget.AddItem` | floating_ball.py:137 | the row is appended |
| `Ball.OptionsListWidget.MousePressEvent` | floating_ball.py:64-84 | left on a row copies that row's full text and changes nothing; right deletes that row from the shared list and the rows, discards its text from the ball's set, saves the new list, and preserves consistency; other cases change nothing |

## Left out

- Windows start-up registration (`set_startup`): an operating-system call.
- Widget construction and looks: stylesheet, shadow, opacity, translucency, icons, the
  font-metrics width of the popup, row size hints, elide mode, per-pixel scrolling,
  hidden scroll bars, placing the popup at the cursor.
- The bounce animation: timer-driven and purely visual.
- Clipboard I/O and notices: the text read is a parameter, the text written on a left
  click is the `Copied` result, and each `QToolTip` notice is a rejected result
  (`AlreadyExists`, `NoText`, `false`).
- JSON: encoding, decoding and indentation are not modelled; a file is the list (or config
  keys) it holds, identified by its directory. The model assumes the file holds a list of
  strings. Malformed JSON, `null`, a number, or a list with unhashable elements makes the
  source fail at load; other JSON (an object, a string, a list of numbers) loads and fails
  later, at an append, a label, a copy or a delete, or not at all.
- Directory creation by `os.makedirs` and path joining: a file is named by its directory.
- `Symbols.IsEmoji`: the `TypeError` branch is not modelled, because the argument is
  always a one-character string there; Dafny's `char` excludes surrogate code points, so
  a real category table could not produce Cs here, although the parameter may.
- Quitting by Ctrl+left click is only the `Quitting` result.
- The modal popup session (`exec_`): the caller plays it by calling the list widget's
  `MousePressEvent`. In the source the session runs before the release handler clears its
  flags; the session touches only the store, so the order does not matter to the model.
- Qt's hit test `itemAt`: the row under the pointer is a parameter.
- Screen points are unbounded integers; Qt's 32-bit coordinates are not modelled.
