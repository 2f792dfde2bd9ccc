/**
 * ViModel (vimodel.h:247-310, vimodel.cpp:69-424): the engine object that routes key presses to
 * normal mode, installs and runs the command-line strategies and performs the operations the
 * chords are bound to. PasteFileCommand (vimodel.h:99-106) is folded in as the field pathCopy.
 * Every method is proved to change the state exactly as the function of the same name in
 * the ViSemantics module (visemantics.dfy) says.
 */
module Vi {
  import opened Wrappers
  import Keys
  import opened KeyMatching
  import opened NormalModes
  import opened HostModel
  import opened Util
  import opened Search
  import opened CommandRegistry
  import opened ViSemantics

  class ViModel {
    const view: View
    const searchController: SearchController
    const normalMode: NormalMode
    /** normalOperations: one member-function slot per ENormalOperation below COUNT. */
    const normalOperations: array<Option<OperationFunction>>
    const commands: map<string, Command>
    /** clStrategy; None until the first mode switch installs one. */
    var clStrategy: Option<LineStrategy>
    /** pasteFileCommand.pathCopy. */
    var pathCopy: string

    /** The collaborators are wired together and the tables are those the constructor builds. */
    ghost predicate Wired()
      reads this, searchController, normalMode, normalMode.keySequence, normalOperations
    {
      searchController.owner == view &&
      normalMode.Valid() && normalMode.operations == Table &&
      normalOperations.Length == OperationCount && normalOperations[..] == DispatchTable &&
      commands == Registry
    }

    /** Between two key presses the pending chord is one handleKeyPress can leave behind. */
    ghost predicate Valid()
      reads this, searchController, normalMode, normalMode.keySequence, normalMode.keySequence.keys, normalOperations
    {
      Wired() && Kept(Table, normalMode.Pending())
    }

    /** The part of the engine and its host that the operations change. */
    ghost function State(): ModelState
      requires Wired()
      reads this, view, searchController, normalMode, normalMode.keySequence, normalMode.keySequence.keys, normalOperations
    {
      ModelState(normalMode.Pending(), clStrategy, pathCopy, searchController.lastSearchLine,
                 view.multiSelection, view.trace)
    }

    /**
     * The constructor (vimodel.cpp:69-119): the thirteen chords in registration order, their
     * dispatch slots and the command map; nothing pending, no strategy, nothing yanked or searched.
     */
    constructor (newView: View)
      ensures view == newView && Valid()
      ensures State() == ModelState([], None, "", "", newView.multiSelection, newView.trace)
    {
      view := newView;
      searchController := new SearchController(newView);
      var mode := new NormalMode();
      RegisterChords(mode);
      normalMode := mode;
      var slots := BindOperations();
      normalOperations := slots;
      commands := Registry;
      clStrategy := None;
      pathCopy := "";
    }

    /** switchToNormalMode (vimodel.cpp:205-213). */
    method SwitchToNormalMode()
      requires Wired()
      modifies view
      ensures Wired() && State() == ViSemantics.SwitchToNormalMode(old(State()), view.env)
    {
      view.Call(ActivateFileViewer);
      if view.IsMultiSelectionEnabled() {
        view.SetMultiSelection(false);
        view.Call(SelectRow(view.env.currentRow));
      }
    }

    /** switchToCommandMode (vimodel.cpp:215-228): installs the command-line strategy. */
    method SwitchToCommandMode()
      requires Wired()
      modifies this, view
      ensures Wired() && State() == ViSemantics.SwitchToCommandMode(old(State()))
    {
      clStrategy := Some(CommandLine);
      view.Call(FocusToCommandLine(""));
    }

    /** switchToSearchMode (vimodel.cpp:230-239): installs the search strategy. */
    method SwitchToSearchMode()
      requires Wired()
      modifies this, view
      ensures Wired() && State() == ViSemantics.SwitchToSearchMode(old(State()))
    {
      clStrategy := Some(SearchLine);
      view.Call(FocusToCommandLine(""));
    }

    /** switchToFileRenameMode (vimodel.cpp:241-247): installs the paste-rename strategy. */
    method SwitchToFileRenameMode(oldName: string)
      requires Wired()
      modifies this, view
      ensures Wired() && State() == ViSemantics.SwitchToFileRenameMode(old(State()), oldName)
    {
      clStrategy := Some(PasteRename);
      view.Call(FocusToCommandLine(oldName));
    }

    /** switchToVisualMode (vimodel.cpp:249-252). */
    method SwitchToVisualMode()
      requires Wired()
      modifies view
      ensures Wired() && State() == Perform(old(State()), view.env, OperationFunction.SwitchToVisualMode)
    {
      view.SetMultiSelection(true);
    }

    /** exit (vimodel.cpp:254-257): the request to quit is recorded. */
    method Exit()
      requires Wired()
      modifies view
      ensures Wired() && State() == Perform(old(State()), view.env, OperationFunction.Exit)
    {
      view.Call(ExitApplication);
    }

    /** openCurrentDirectory (vimodel.cpp:268-271). */
    method OpenCurrentDirectory()
      requires Wired()
      modifies view
      ensures Wired() && State() == Perform(old(State()), view.env, OpenCurrent)
    {
      view.Call(HostCall.OpenCurrentDirectory);
    }

    /** openParentDirectory (vimodel.cpp:273-276). */
    method OpenParentDirectory()
      requires Wired()
      modifies view
      ensures Wired() && State() == Perform(old(State()), view.env, OpenParent)
    {
      view.Call(HostCall.OpenParentDirectory);
    }

    /** selectPrevious (vimodel.cpp:278-286): the row above, or the first row when none is current. */
    method SelectPrevious()
      requires Wired()
      modifies view
      ensures Wired() && State() == Perform(old(State()), view.env, OperationFunction.SelectPrevious)
    {
      var currRow := view.env.currentRow;
      if currRow == -1 {
        view.Call(SelectRow(0));
        return;
      }
      view.Call(SelectRow(currRow - 1));
    }

    /** selectNext (vimodel.cpp:288-296): the row below, or the first row when none is current. */
    method SelectNext()
      requires Wired()
      modifies view
      ensures Wired() && State() == Perform(old(State()), view.env, OperationFunction.SelectNext)
    {
      var currRow := view.env.currentRow;
      if currRow == -1 {
        view.Call(SelectRow(0));
        return;
      }
      view.Call(SelectRow(currRow + 1));
    }

    /** selectFirst (vimodel.cpp:298-301). */
    method SelectFirst()
      requires Wired()
      modifies view
      ensures Wired() && State() == Perform(old(State()), view.env, OperationFunction.SelectFirst)
    {
      view.Call(SelectRow(0));
    }

    /** selectLast (vimodel.cpp:303-307). */
    method SelectLast()
      requires Wired()
      modifies view
      ensures Wired() && State() == Perform(old(State()), view.env, OperationFunction.SelectLast)
    {
      var rowCount := view.env.rowCount;
      view.Call(SelectRow(rowCount - 1));
    }

    /** yankFile (vimodel.cpp:309-312): the current file becomes the path to paste. */
    method YankFile()
      requires Wired()
      modifies this
      ensures Wired() && State() == Perform(old(State()), view.env, OperationFunction.YankFile)
    {
      pathCopy := view.env.currentFile;
    }

    /** PasteFileCommand::paste (vimodel.cpp:394-411), reached through pasteFile (vimodel.cpp:314-317). */
    method Paste()
      requires Wired()
      modifies this, view
      ensures Wired() && State() == ViSemantics.Paste(old(State()), view.env)
    {
      if pathCopy == "" {
        return;
      }
      var newFileName := view.env.fileName(pathCopy);
      var newFilePath := Join(view.env.currentDirectory, newFileName);
      var copied := view.Copy(pathCopy, newFilePath);
      if copied {
        return;
      }
      if pathCopy !in view.env.existing {
        view.Call(ShowStatus(CopiedFileGone, 4));
      } else if newFilePath in view.env.existing {
        SwitchToFileRenameMode(newFileName);
        view.Call(ShowStatus(AskForNewName, 0));
      } else {
        view.Call(ShowStatus(PasteFailed, 4));
      }
    }

    /** PasteFileCommand::pasteWithNewName (vimodel.cpp:413-424). */
    method PasteWithNewName(newName: string)
      requires Wired()
      modifies view
      ensures Wired() && State() == ViSemantics.PasteWithNewName(old(State()), view.env, newName)
    {
      var destPath := Join(view.env.currentDirectory, newName);
      var copied := view.Copy(pathCopy, destPath);
      if copied {
        return;
      }
      if pathCopy !in view.env.existing {
        view.Call(ShowStatus(CopiedFileGone, 4));
      } else if destPath in view.env.existing {
        view.Call(ShowStatus(NameTaken, 4));
      } else {
        view.Call(ShowStatus(CopyFailed, 4));
      }
    }

    /** searchNext (vimodel.cpp:319-322). */
    method SearchNext()
      requires Wired()
      modifies view
      ensures Wired() && State() == Perform(old(State()), view.env, SearchNextLine)
    {
      searchController.SearchNext();
    }

    /** renameCurrent (vimodel.cpp:324-332): offers the name for editing, then installs the rename strategy. */
    method RenameCurrent()
      requires Wired()
      modifies this, view
      ensures Wired() && State() == Perform(old(State()), view.env, OperationFunction.RenameCurrent)
    {
      var file := view.env.currentFile;
      view.Call(FocusToCommandLine(view.env.fileName(file)));
      clStrategy := Some(Rename(file, view.env.directoryOf(file)));
    }

    /** removeCurrent (vimodel.cpp:334-343): removes the current file or directory once confirmed. */
    method RemoveCurrent()
      requires Wired()
      modifies view
      ensures Wired() && State() == Perform(old(State()), view.env, OperationFunction.RemoveCurrent)
    {
      var file := view.env.currentFile;
      var confirmed := view.Ask(RemovalQuestion + view.env.fileName(file));
      if !confirmed {
        return;
      }
      if file in view.env.directories {
        view.Call(RemoveRecursively(file));
      } else {
        view.Call(RemoveFile(file));
      }
    }

    /** ((this)->*ptr)() for the member function a dispatch slot holds. */
    method Dispatch(f: OperationFunction)
      requires Wired()
      modifies this, view
      ensures Wired() && State() == Perform(old(State()), view.env, f)
    {
      match f
      case SwitchToVisualMode => SwitchToVisualMode();
      case OpenParent => OpenParentDirectory();
      case OpenCurrent => OpenCurrentDirectory();
      case SelectNext => SelectNext();
      case SelectPrevious => SelectPrevious();
      case SelectFirst => SelectFirst();
      case SelectLast => SelectLast();
      case RemoveCurrent => RemoveCurrent();
      case RenameCurrent => RenameCurrent();
      case YankFile => YankFile();
      case PasteFile => Paste();
      case SearchNextLine => SearchNext();
      case Exit => Exit();
    }

    /**
     * handleKeyPress (vimodel.cpp:159-196): the mode keys switch mode, a letter goes to normal
     * mode and either stays pending, fires the operation bound to the chord it completes, or is
     * dropped with the rest of the chord.
     */
    method HandleKeyPress(key: Keys.Key)
      requires Valid()
      modifies this, view, normalMode.keySequence, normalMode.keySequence.keys
      ensures Valid() && State() == KeyPress(old(State()), view.env, key)
    {
      if key.value == Keys.ESCAPE {
        SwitchToNormalMode();
      } else if key.value == Keys.COLON {
        SwitchToCommandMode();
      } else if key.value == Keys.SLASH {
        SwitchToSearchMode();
      } else if Keys.IsChar(key.value) {
        HandleLetter(key);
      }
    }

    /**
     * The letter branch of handleKeyPress (vimodel.cpp:175-189): the key joins the pending chord,
     * which stays pending on a partial match, and is cleared after the bound operation ran or when
     * nothing matches.
     */
    method HandleLetter(key: Keys.Key)
      requires Valid()
      modifies this, view, normalMode.keySequence, normalMode.keySequence.keys
      ensures Valid() && State() == Chord(old(State()), view.env, old(State()).pending + [key])
    {
      ghost var s := State();
      ghost var p := s.pending + [key];
      assert |normalMode.Pending()| < Capacity by {
        TableIsWellFormed();
        KeptIsShort(Table, s.pending);
      }
      normalMode.AddKey(key);
      var status := normalMode.Handle();
      if !status.matched {
        normalMode.Reset();
        return;
      }
      if status.operation == NONE {
        assert Kept(Table, p) by {
          TableIsWellFormed();
          ExtendKept(Table, s.pending, key);
        }
        return;
      }
      assert status.operation != COUNT && DispatchTable[Index(status.operation)].Some? by {
        ReportedOperationIsBound(p);
      }
      var f := normalOperations[Index(status.operation)].value;
      Dispatch(f);
      assert State() == Perform(s, view.env, f).(pending := p) by {
        PerformIgnoresPending(s, view.env, f, p);
      }
      normalMode.Reset();
    }

    /** runIfHas (vimodel.cpp:259-266): exact lookup of the first token. */
    method RunIfHas(args: seq<string>) returns (found: bool)
      requires Wired() && |args| > 0
      modifies view
      ensures Wired()
      ensures found == RunIfHasCalls(view.env, args).0
      ensures State() == Emit(old(State()), RunIfHasCalls(view.env, args).1)
    {
      if args[0] !in commands {
        assert view.trace == old(view.trace) + [];
        return false;
      }
      Invoke(view, commands[args[0]], args);
      return true;
    }

    /** The command-line strategy (vimodel.cpp:217-226). */
    method RunCommandLine(line: string)
      requires Wired()
      modifies view
      ensures Wired() && State() == ViSemantics.RunCommandLine(old(State()), view.env, line)
    {
      if line == "" {
        return;
      }
      var args := Split(line);
      if args == [] {
        return;
      }
      var found := RunIfHas(args);
      if !found {
        view.Call(ShowStatus(UnknownCommand, 4));
      }
    }

    /** handleCommandEnter (vimodel.cpp:198-203): the installed strategy once, then normal mode. */
    method HandleCommandEnter(line: string)
      requires Valid() && clStrategy.Some?
      modifies this, view, searchController
      ensures Valid() && State() == CommandEnter(old(State()), view.env, line)
    {
      match clStrategy.value {
        case CommandLine => RunCommandLine(line);
        case SearchLine =>
          if line != "" {
            searchController.EnterSearchLine(line);
          }
        case PasteRename => PasteWithNewName(line);
        case Rename(file, directory) =>
          if line != "" {
            view.Call(RenameFile(file, Join(directory, line)));
          }
      }
      SwitchToNormalMode();
    }
  }

  /** The addCommand calls of the constructor (vimodel.cpp:76-88). */
  method RegisterChords(mode: NormalMode)
    requires mode.Valid() && mode.operations == [] && mode.Pending() == []
    modifies mode
    ensures mode.Valid() && mode.operations == Table && mode.Pending() == []
  {
    RegisterNavigationChords(mode);
    RegisterFileChords(mode);
  }

  /** The chords of the mode switch and of the navigation operations (vimodel.cpp:76-82). */
  method RegisterNavigationChords(mode: NormalMode)
    requires mode.Valid() && mode.operations == [] && mode.Pending() == []
    modifies mode
    ensures mode.Valid() && mode.operations == Table[..7] && mode.Pending() == []
  {
    mode.AddCommand(NormalOperation(VISUAL_MODE, [Plain(Keys.V)]));
    mode.AddCommand(NormalOperation(OPEN_PARENT_DIRECTORY, [Plain(Keys.H)]));
    mode.AddCommand(NormalOperation(OPEN_CURRENT_DIRECTORY, [Plain(Keys.L)]));
    mode.AddCommand(NormalOperation(SELECT_NEXT, [Plain(Keys.J)]));
    mode.AddCommand(NormalOperation(SELECT_PREVIOUS, [Plain(Keys.K)]));
    mode.AddCommand(NormalOperation(SELECT_FIRST, [Plain(Keys.G), Plain(Keys.G)]));
    mode.AddCommand(NormalOperation(SELECT_LAST, [Keys.Key(Keys.G, true, false, false)]));
  }

  /** The chords of the file operations, search and exit (vimodel.cpp:83-88). */
  method RegisterFileChords(mode: NormalMode)
    requires mode.Valid() && mode.operations == Table[..7] && mode.Pending() == []
    modifies mode
    ensures mode.Valid() && mode.operations == Table && mode.Pending() == []
  {
    mode.AddCommand(NormalOperation(DELETE_FILE, [Keys.Key(Keys.D, true, false, false)]));
    mode.AddCommand(NormalOperation(RENAME_FILE, [Plain(Keys.C), Plain(Keys.W)]));
    mode.AddCommand(NormalOperation(YANK_FILE, [Plain(Keys.Y), Plain(Keys.Y)]));
    mode.AddCommand(NormalOperation(PASTE_FILE, [Plain(Keys.P)]));
    mode.AddCommand(NormalOperation(SEARCH_NEXT, [Plain(Keys.N)]));
    mode.AddCommand(NormalOperation(EXIT, [Keys.Key(Keys.Q, false, true, false)]));
  }

  /** The normalOperations assignments of the constructor (vimodel.cpp:90-102). */
  method BindOperations() returns (slots: array<Option<OperationFunction>>)
    ensures fresh(slots) && slots.Length == OperationCount && slots[..] == DispatchTable
  {
    slots := new Option<OperationFunction>[OperationCount](_ => None);
    BindNavigation(slots);
    BindFileOperations(slots);
    assert slots[..] == slots[..1] + slots[1..8] + slots[8..11] + slots[11..];
    assert DispatchTable == DispatchTable[..1] + DispatchTable[1..8] + DispatchTable[8..11] + DispatchTable[11..];
  }

  /** The slots of the mode switch and of the navigation operations (vimodel.cpp:90-96). */
  method BindNavigation(slots: array<Option<OperationFunction>>)
    requires slots.Length == OperationCount
    modifies slots
    ensures slots[1..8] == DispatchTable[1..8] && slots[0] == old(slots[0]) && slots[8..] == old(slots[8..])
  {
    slots[Index(VISUAL_MODE)] := Some(SwitchToVisualMode);
    slots[Index(OPEN_PARENT_DIRECTORY)] := Some(OpenParent);
    slots[Index(OPEN_CURRENT_DIRECTORY)] := Some(OpenCurrent);
    slots[Index(SELECT_NEXT)] := Some(SelectNext);
    slots[Index(SELECT_PREVIOUS)] := Some(SelectPrevious);
    slots[Index(SELECT_FIRST)] := Some(SelectFirst);
    slots[Index(SELECT_LAST)] := Some(SelectLast);
  }

  /** The slots of the file operations, the search and the exit (vimodel.cpp:97-102). */
  method BindFileOperations(slots: array<Option<OperationFunction>>)
    requires slots.Length == OperationCount
    modifies slots
    ensures slots[11..] == DispatchTable[11..] && slots[..11] == old(slots[..11])
  {
    slots[Index(DELETE_FILE)] := Some(RemoveCurrent);
    slots[Index(RENAME_FILE)] := Some(RenameCurrent);
    slots[Index(YANK_FILE)] := Some(YankFile);
    slots[Index(PASTE_FILE)] := Some(PasteFile);
    slots[Index(SEARCH_NEXT)] := Some(SearchNextLine);
    slots[Index(EXIT)] := Some(Exit);
  }
}
