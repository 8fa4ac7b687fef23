/**
 * The floating ball widget and its popup, as objects whose fields change in place.
 * One `SnippetList` object is the Python list `options`: the ball, the popup dialog
 * and the popup's list widget all refer to it, so a delete in the popup is a delete
 * in the ball's list. The files on disk are ghost state: `disk` maps a save
 * directory to the list its `options.json` holds, and `configFile` is the config file.
 */
module Ball {
  import opened Wrappers
  import SnippetStore
  import Display
  import Symbols
  import opened Input

  /** The face the ball shows when no config names one: U+1F48E GEM STONE. */
  const DefaultEmoji: string := "\U{1F48E}"

  /** The config file: its `save_dir` and `emoji` keys, either of which may be missing. */
  datatype ConfigFile = ConfigFile(saveDir: Option<string>, emoji: Option<string>)

  /** What a press on the ball did; the notices the source shows are the rejected results. */
  datatype PressEffect =
    | Quitting
    | DragStarted
    | SavePathSet(pathAccepted: bool)
    | EmojiSet(emojiAccepted: bool)
    | SnippetAdd(outcome: SnippetStore.AddOutcome)
    | Ignored

  /** What a press on the popup list did. */
  datatype ListClick =
    | Copied(copied: string)     // written to the clipboard; the popup closes
    | Deleted(deleted: string)   // removed from the store; the popup stays open
    | NoEffect                   // a row hit with another button
    | DefaultHandling            // no row under the pointer: the list's default handling

  /** A Python list of strings, shared by reference. */
  class SnippetList {
    var elems: seq<string>

    constructor (elems: seq<string>)
      ensures this.elems == elems
    {
      this.elems := elems;
    }

    /** `list.append(x)`. */
    method Append(x: string)
      modifies this
      ensures elems == old(elems) + [x]
    {
      elems := elems + [x];
    }

    /** `del list[i]`. */
    method DeleteAt(i: nat)
      requires i < |elems|
      modifies this
      ensures elems == SnippetStore.RemoveAt(old(elems), i)
    {
      elems := elems[..i] + elems[i + 1..];
    }
  }

  class FloatingBall {
    const options: SnippetList
    const defaultSaveDir: string
    var optionSet: set<string>
    var isMoving: bool
    var isPressing: bool
    var pressPos: Point
    var pos: Point
    var saveDir: string
    var currentEmoji: string
    var optionsDialog: OptionsDialog?
    ghost var disk: map<string, seq<string>>
    ghost var configFile: Option<ConfigFile>

    /** The list and the set as one store value. */
    function Snapshot(): SnippetStore.Store
      reads this, options
    {
      SnippetStore.Store(options.elems, optionSet)
    }

    /** The drag fields and the window position as one state of the drag machine. */
    function Drag(): DragState
      reads this
    {
      DragState(isPressing, isMoving, pressPos, pos)
    }

    /**
     * Start-up: `load_config` picks the save directory and face from the config file
     * (defaults for a missing file or key), then `load_options` reads that directory's
     * list, if there is one, and builds the set from it.
     */
    constructor (defaultSaveDir: string, storedConfig: Option<ConfigFile>,
                 storedOptions: map<string, seq<string>>, startPos: Point)
      ensures this.defaultSaveDir == defaultSaveDir
      ensures saveDir == if storedConfig.Some? then storedConfig.value.saveDir.GetOr(defaultSaveDir)
                         else defaultSaveDir
      ensures currentEmoji == if storedConfig.Some? then storedConfig.value.emoji.GetOr(DefaultEmoji)
                              else DefaultEmoji
      ensures Snapshot() == SnippetStore.Load(if saveDir in storedOptions then Some(storedOptions[saveDir])
                                              else None)
      ensures Drag() == DragState(false, false, Point(0, 0), startPos)
      ensures disk == storedOptions && configFile == storedConfig
      ensures fresh(options) && optionsDialog == null
    {
      var dir := defaultSaveDir;
      var emoji := DefaultEmoji;
      if storedConfig.Some? {
        dir := storedConfig.value.saveDir.GetOr(defaultSaveDir);
        emoji := storedConfig.value.emoji.GetOr(DefaultEmoji);
      }
      var loaded: seq<string> := [];
      var loadedSet: set<string> := {};
      if dir in storedOptions {
        loaded := storedOptions[dir];
        loadedSet := set x | x in loaded;
      }
      this.defaultSaveDir := defaultSaveDir;
      options := new SnippetList(loaded);
      optionSet := loadedSet;
      isMoving, isPressing := false, false;
      pressPos, pos := Point(0, 0), startPos;
      saveDir, currentEmoji := dir, emoji;
      optionsDialog := null;
      disk, configFile := storedOptions, storedConfig;
    }

    /** `save_options`: the list is written to the current save directory. */
    method SaveOptions()
      modifies this`disk
      ensures disk == old(disk)[saveDir := options.elems]
    {
      disk := disk[saveDir := options.elems];
    }

    /** `save_config`: the config file is rewritten with both keys. */
    method SaveConfig()
      modifies this`configFile
      ensures configFile == Some(ConfigFile(Some(saveDir), Some(currentEmoji)))
    {
      configFile := Some(ConfigFile(Some(saveDir), Some(currentEmoji)));
    }

    /**
     * `add_option_from_clipboard` with clipboard text `text`: empty text and a text
     * already in the set change nothing; otherwise the text goes at the end of the list
     * and into the set, and the list is saved.
     */
    method AddOptionFromClipboard(text: string) returns (outcome: SnippetStore.AddOutcome)
      modifies options, this`optionSet, this`disk
      ensures outcome == SnippetStore.AddOutcomeOf(old(Snapshot()), text)
      ensures outcome == SnippetStore.Added <==> text != "" && text !in old(optionSet)
      ensures Snapshot() == SnippetStore.Add(old(Snapshot()), text)
      ensures outcome == SnippetStore.Added ==>
                options.elems == old(options.elems) + [text] &&
                optionSet == old(optionSet) + {text} &&
                disk == old(disk)[saveDir := options.elems]
      ensures outcome != SnippetStore.Added ==>
                options.elems == old(options.elems) && optionSet == old(optionSet) && disk == old(disk)
      ensures old(SnippetStore.Consistent(Snapshot())) ==> SnippetStore.Consistent(Snapshot())
    {
      ghost var before := Snapshot();
      if text != "" {
        if text in optionSet {
          outcome := SnippetStore.AlreadyExists;
        } else {
          options.Append(text);
          optionSet := optionSet + {text};
          SaveOptions();
          outcome := SnippetStore.Added;
        }
      } else {
        outcome := SnippetStore.NoText;
      }
      if SnippetStore.Consistent(before) {
        SnippetStore.AddPreservesConsistent(before, text);
      }
    }

    /** `set_new_emoji`: a clipboard text that passes `is_emoji` becomes the face and is saved. */
    method SetNewEmoji(text: string, category: char -> Symbols.Category) returns (accepted: bool)
      modifies this`currentEmoji, this`configFile
      ensures accepted == Symbols.IsEmoji(text, category)
      ensures currentEmoji == if accepted then text else old(currentEmoji)
      ensures configFile == if accepted then Some(ConfigFile(Some(saveDir), Some(text))) else old(configFile)
    {
      accepted := Symbols.IsEmoji(text, category);
      if accepted {
        currentEmoji := text;
        SaveConfig();
      }
    }

    /**
     * `set_new_save_path`: a clipboard text naming an existing directory becomes the
     * save directory; the list is written there and the config file records it.
     */
    method SetNewSavePath(path: string, isDir: string -> bool) returns (accepted: bool)
      modifies this`saveDir, this`disk, this`configFile
      ensures accepted == isDir(path)
      ensures saveDir == if accepted then path else old(saveDir)
      ensures disk == if accepted then old(disk)[path := options.elems] else old(disk)
      ensures configFile == if accepted then Some(ConfigFile(Some(path), Some(currentEmoji)))
                            else old(configFile)
    {
      accepted := isDir(path);
      if accepted {
        saveDir := path;
        SaveOptions();
        SaveConfig();
      }
    }

    /**
     * `mouse_press_event`: dispatch on the button and modifiers. The clipboard text, the
     * directory test and the category table are what the chosen handler reads.
     */
    method MousePressEvent(button: Button, modifiers: set<Modifier>, globalPos: Point, clipboard: string,
                           isDir: string -> bool, category: char -> Symbols.Category)
      returns (effect: PressEffect)
      modifies options, this`optionSet, this`disk, this`configFile, this`saveDir, this`currentEmoji
      modifies this`isMoving, this`isPressing, this`pressPos
      ensures PressActionOf(button, modifiers) == Quit ==> effect == Quitting
      ensures PressActionOf(button, modifiers) == NoAction ==> effect == Ignored
      ensures PressActionOf(button, modifiers) == BeginDrag ==>
                effect == DragStarted && Drag() == Press(old(Drag()), globalPos)
      ensures PressActionOf(button, modifiers) != BeginDrag ==> Drag() == old(Drag())
      ensures PressActionOf(button, modifiers) == AddSnippet ==>
                effect == SnippetAdd(SnippetStore.AddOutcomeOf(old(Snapshot()), clipboard)) &&
                Snapshot() == SnippetStore.Add(old(Snapshot()), clipboard)
      ensures PressActionOf(button, modifiers) != AddSnippet ==> Snapshot() == old(Snapshot())
      ensures PressActionOf(button, modifiers) == ChangeEmoji ==>
                effect == EmojiSet(Symbols.IsEmoji(clipboard, category)) &&
                currentEmoji == (if effect.emojiAccepted then clipboard else old(currentEmoji))
      ensures PressActionOf(button, modifiers) != ChangeEmoji ==> currentEmoji == old(currentEmoji)
      ensures PressActionOf(button, modifiers) == ChangeSavePath ==>
                effect == SavePathSet(isDir(clipboard)) &&
                saveDir == (if effect.pathAccepted then clipboard else old(saveDir))
      ensures PressActionOf(button, modifiers) != ChangeSavePath ==> saveDir == old(saveDir)
      ensures disk == if effect == SnippetAdd(SnippetStore.Added) then old(disk)[saveDir := options.elems]
                      else if effect == SavePathSet(true) then old(disk)[clipboard := options.elems]
                      else old(disk)
      ensures configFile == if effect == SavePathSet(true) || effect == EmojiSet(true)
                            then Some(ConfigFile(Some(saveDir), Some(currentEmoji)))
                            else old(configFile)
    {
      if button == LeftButton {
        if ControlModifier in modifiers {
          effect := Quitting;
        } else {
          isMoving := false;
          pressPos := globalPos.Minus(pos);
          isPressing := true;
          effect := DragStarted;
        }
      } else if button == RightButton {
        if ControlModifier in modifiers {
          var accepted := SetNewSavePath(clipboard, isDir);
          effect := SavePathSet(accepted);
        } else if ShiftModifier in modifiers {
          var accepted := SetNewEmoji(clipboard, category);
          effect := EmojiSet(accepted);
        } else {
          var outcome := AddOptionFromClipboard(clipboard);
          effect := SnippetAdd(outcome);
        }
      } else {
        effect := Ignored;
      }
    }

    /** `mouse_move_event`: with exactly the left button held while pressing, the window follows. */
    method MouseMoveEvent(held: set<Button>, globalPos: Point)
      modifies this`pos, this`isMoving
      ensures Drag() == Move(old(Drag()), held, globalPos)
    {
      if held == {LeftButton} && isPressing {
        var movePos := globalPos.Minus(pressPos);
        pos := movePos;
        isMoving := true;
      }
    }

    /** `mouse_release_event`: a left release that ends no drag opens the popup; both flags clear. */
    method MouseReleaseEvent(button: Button) returns (menuShown: bool)
      modifies this`optionsDialog, this`isMoving, this`isPressing
      ensures menuShown == OpensMenu(old(Drag()), button)
      ensures Drag() == Release(old(Drag()), button)
      ensures menuShown ==>
                optionsDialog != null && fresh(optionsDialog) && fresh(optionsDialog.listWidget) &&
                optionsDialog.options == options && optionsDialog.parentWindow == this &&
                optionsDialog.Valid() && optionsDialog.listWidget.items == Display.Items(options.elems)
      ensures !menuShown ==> optionsDialog == old(optionsDialog)
    {
      menuShown := false;
      if button == LeftButton {
        if !isMoving {
          ShowMenu();
          menuShown := true;
        }
        isMoving := false;
        isPressing := false;
      }
    }

    /** `show_menu`: a new popup over this ball's own list (the same object, not a copy). */
    method ShowMenu()
      modifies this`optionsDialog
      ensures optionsDialog != null && fresh(optionsDialog) && fresh(optionsDialog.listWidget)
      ensures optionsDialog.options == options && optionsDialog.parentWindow == this
      ensures optionsDialog.Valid() && optionsDialog.listWidget.items == Display.Items(options.elems)
    {
      optionsDialog := new OptionsDialog(options, this);
    }
  }

  /** The popup: it owns the list widget and builds one row per saved text. */
  class OptionsDialog {
    const options: SnippetList
    const parentWindow: FloatingBall
    const listWidget: OptionsListWidget

    ghost predicate Valid()
      reads this, listWidget, options
    {
      listWidget.options == options && listWidget.parentWindow == parentWindow && listWidget.Valid()
    }

    /** `__init__` and `init_ui`: one row per text, in list order, labelled by the display rule. */
    constructor (options: SnippetList, parentWindow: FloatingBall)
      requires parentWindow.options == options
      ensures this.options == options && this.parentWindow == parentWindow
      ensures fresh(listWidget) && Valid()
      ensures listWidget.items == Display.Items(options.elems)
    {
      this.options := options;
      this.parentWindow := parentWindow;
      listWidget := new OptionsListWidget(options, parentWindow);
      new;
      var all := options.elems;
      for k := 0 to |all|
        invariant listWidget.items == Display.Items(all[..k])
      {
        var option := all[k];
        assert all[..k + 1] == all[..k] + [option];
        Display.ItemsAppend(all[..k], option);
        listWidget.AddItem(Display.ListItem(Display.Label(option), option));
      }
      assert all[..|all|] == all;
    }
  }

  /** The popup's list: its rows mirror the shared list, row for row. */
  class OptionsListWidget {
    const options: SnippetList
    const parentWindow: FloatingBall
    var items: seq<Display.ListItem>

    ghost predicate Valid()
      reads this, options
    {
      parentWindow.options == options && items == Display.Items(options.elems)
    }

    constructor (options: SnippetList, parentWindow: FloatingBall)
      ensures this.options == options && this.parentWindow == parentWindow && items == []
    {
      this.options := options;
      this.parentWindow := parentWindow;
      items := [];
    }

    /** `addItem`. */
    method AddItem(item: Display.ListItem)
      modifies this
      ensures items == old(items) + [item]
    {
      items := items + [item];
    }

    /**
     * `mousePressEvent` with `row` the row under the pointer, if any. A left click copies
     * that row's full text (and closes the popup); a right click deletes the row from the
     * shared list, discards its tooltip text from the ball's set, saves, and drops the row.
     */
    method MousePressEvent(row: Option<nat>, button: Button) returns (click: ListClick)
      requires Valid()
      requires row.Some? ==> row.value < |items|
      modifies this, options, parentWindow`optionSet, parentWindow`disk
      ensures Valid()
      ensures row.None? ==> click == DefaultHandling
      ensures row.Some? && button == LeftButton ==> click == Copied(old(options.elems)[row.value])
      ensures row.Some? && button != LeftButton && button != RightButton ==> click == NoEffect
      ensures row.Some? && button == RightButton ==>
                click == Deleted(old(options.elems)[row.value]) &&
                options.elems == SnippetStore.RemoveAt(old(options.elems), row.value) &&
                parentWindow.optionSet == old(parentWindow.optionSet) - {old(options.elems)[row.value]} &&
                parentWindow.disk == old(parentWindow.disk)[parentWindow.saveDir := options.elems] &&
                items == SnippetStore.RemoveAt(old(items), row.value) &&
                parentWindow.Snapshot() == SnippetStore.Delete(old(parentWindow.Snapshot()), row.value) &&
                (old(SnippetStore.Consistent(parentWindow.Snapshot())) ==>
                   SnippetStore.Consistent(parentWindow.Snapshot()))
      ensures !(row.Some? && button == RightButton) ==>
                options.elems == old(options.elems) && items == old(items) &&
                parentWindow.optionSet == old(parentWindow.optionSet) && parentWindow.disk == old(parentWindow.disk)
    {
      if row.Some? {
        var index := row.value;
        if button == LeftButton {
          var text := options.elems[index];
          click := Copied(text);
        } else if button == RightButton {
          ghost var before := parentWindow.Snapshot();
          var item := items[index];
          Display.ItemsRemoveAt(options.elems, index);
          options.DeleteAt(index);
          parentWindow.optionSet := parentWindow.optionSet - {item.toolTip};
          parentWindow.SaveOptions();
          items := items[..index] + items[index + 1..];
          click := Deleted(item.toolTip);
          if SnippetStore.Consistent(before) {
            SnippetStore.DeletePreservesConsistent(before, index);
          }
        } else {
          click := NoEffect;
        }
      } else {
        click := DefaultHandling;
      }
    }
  }
}
