/**
 * What ViModel does, as functions of its state: the registered chords and the dispatch table
 * (vimodel.cpp:76-102), key handling (vimodel.cpp:159-196), the line strategies and mode switches
 * (vimodel.cpp:198-257), the normal-mode operations (vimodel.cpp:268-343) and the paste guard of
 * PasteFileCommand (vimodel.cpp:394-424). The class in vimodel.dfy is proved to follow them.
 */
module ViSemantics {
  import opened Wrappers
  import Keys
  import opened KeyMatching
  import opened NormalModes
  import opened HostModel
  import opened Util
  import opened CommandRegistry

  /** The line strategies clStrategy can hold (vimodel.cpp:217-226, 232-237, 243-245, 328-331). */
  datatype LineStrategy =
    | CommandLine
    | SearchLine
    | PasteRename
    | Rename(filePath: string, directory: string)

  /** The member functions the dispatch table can point to (vimodel.h:264-279). */
  datatype OperationFunction =
    | SwitchToVisualMode | OpenParent | OpenCurrent
    | SelectNext | SelectPrevious | SelectFirst | SelectLast
    | RemoveCurrent | RenameCurrent | YankFile | PasteFile | SearchNextLine | Exit

  /**
   * The part of ViModel and its collaborators that the engine changes: the pending keys of
   * normalMode, clStrategy (None while no strategy was ever installed), pasteFileCommand.pathCopy,
   * searchController.lastSearchLine, the view's multi-selection flag and the calls made so far.
   */
  datatype ModelState = ModelState(
    pending: seq<Keys.Key>,
    strategy: Option<LineStrategy>,
    pathCopy: string,
    lastSearchLine: string,
    multiSelection: bool,
    trace: seq<HostCall>)

  function Emit(s: ModelState, calls: seq<HostCall>): ModelState
  {
    s.(trace := s.trace + calls)
  }

  /** A key with no modifier. */
  function Plain(e: Keys.EKey): Keys.Key
  {
    Keys.Key(e, false, false, false)
  }

  /** The chords the constructor registers, in registration order (vimodel.cpp:76-88). */
  const Table: seq<NormalOperation> := [
    NormalOperation(VISUAL_MODE, [Plain(Keys.V)]),
    NormalOperation(OPEN_PARENT_DIRECTORY, [Plain(Keys.H)]),
    NormalOperation(OPEN_CURRENT_DIRECTORY, [Plain(Keys.L)]),
    NormalOperation(SELECT_NEXT, [Plain(Keys.J)]),
    NormalOperation(SELECT_PREVIOUS, [Plain(Keys.K)]),
    NormalOperation(SELECT_FIRST, [Plain(Keys.G), Plain(Keys.G)]),
    NormalOperation(SELECT_LAST, [Keys.Key(Keys.G, true, false, false)]),
    NormalOperation(DELETE_FILE, [Keys.Key(Keys.D, true, false, false)]),
    NormalOperation(RENAME_FILE, [Plain(Keys.C), Plain(Keys.W)]),
    NormalOperation(YANK_FILE, [Plain(Keys.Y), Plain(Keys.Y)]),
    NormalOperation(PASTE_FILE, [Plain(Keys.P)]),
    NormalOperation(SEARCH_NEXT, [Plain(Keys.N)]),
    NormalOperation(EXIT, [Keys.Key(Keys.Q, false, true, false)])]

  /** A single letter as a StaticKey argument list is that letter with no modifier. */
  lemma StaticLetter(e: Keys.EKey)
    requires Keys.IsChar(e)
    ensures Keys.StaticKey([e]) == Some(Plain(e))
  {
  }

  /** A modifier before a letter sets that modifier's bit of the letter's key. */
  lemma StaticModifiedLetter(m: Keys.EKey, e: Keys.EKey)
    requires Keys.IsChar(e) && m in {Keys.SHIFT, Keys.CONTROL}
    ensures Keys.StaticKey([m, e]) == Some(Keys.Key(e, m == Keys.SHIFT, m == Keys.CONTROL, false))
  {
    assert [m, e][1..] == [e];
  }

  /** The modified keys of the table are StaticKey<SHIFT, G>, StaticKey<SHIFT, D> and StaticKey<CONTROL, Q>. */
  lemma ModifiedChordsAreStaticKeys()
    ensures Keys.StaticKey([Keys.SHIFT, Keys.G]) == Some(Table[6].keySequence[0])
    ensures Keys.StaticKey([Keys.SHIFT, Keys.D]) == Some(Table[7].keySequence[0])
    ensures Keys.StaticKey([Keys.CONTROL, Keys.Q]) == Some(Table[12].keySequence[0])
  {
    StaticModifiedLetter(Keys.SHIFT, Keys.G);
    StaticModifiedLetter(Keys.SHIFT, Keys.D);
    StaticModifiedLetter(Keys.CONTROL, Keys.Q);
  }

  /** The registered table is well formed: chords of one or two keys, each bound to an operation. */
  lemma TableIsWellFormed()
    ensures WellFormedTable(Table)
    ensures forall i :: 0 <= i < |Table| ==> 1 <= |Table[i].keySequence| <= 2
  {
  }

  /** normalOperations (vimodel.cpp:90-102): COUNT slots, empty where nothing is bound. */
  const DispatchTable: seq<Option<OperationFunction>> := [
    None,
    Some(SwitchToVisualMode), Some(OpenParent), Some(OpenCurrent),
    Some(SelectNext), Some(SelectPrevious), Some(SelectFirst), Some(SelectLast),
    None, None, None,
    Some(RemoveCurrent), Some(RenameCurrent), Some(YankFile), Some(PasteFile),
    Some(SearchNextLine), Some(Exit)]

  /**
   * Every registered operation indexes the table in bounds and finds a function there; the only
   * empty slots are NONE and the three declared but unbound SELECT_HIGH, SELECT_LOW, SELECT_MIDDLE.
   */
  lemma DispatchCoversTable()
    ensures |DispatchTable| == OperationCount
    ensures forall i :: 0 <= i < |Table| ==>
      Table[i].operation != COUNT && DispatchTable[Index(Table[i].operation)].Some?
    ensures forall op :: op != COUNT ==>
      (DispatchTable[Index(op)].None? <==> op in {NONE, SELECT_HIGH, SELECT_LOW, SELECT_MIDDLE})
  {
    forall op | op != COUNT
      ensures DispatchTable[Index(op)].None? <==> op in {NONE, SELECT_HIGH, SELECT_LOW, SELECT_MIDDLE}
    {
      match op
      case NONE => case VISUAL_MODE => case OPEN_PARENT_DIRECTORY => case OPEN_CURRENT_DIRECTORY =>
      case SELECT_NEXT => case SELECT_PREVIOUS => case SELECT_FIRST => case SELECT_LAST =>
      case SELECT_HIGH => case SELECT_LOW => case SELECT_MIDDLE => case DELETE_FILE =>
      case RENAME_FILE => case YANK_FILE => case PASTE_FILE => case SEARCH_NEXT => case EXIT =>
    }
  }

  /** The operation handle() reports for the registered table is NONE or a bound one. */
  lemma ReportedOperationIsBound(pending: seq<Keys.Key>)
    ensures var op := Handled(Table, pending).operation;
      op != COUNT && (op != NONE ==> DispatchTable[Index(op)].Some?)
  {
    DispatchCoversTable();
  }

  /** switchToNormalMode (vimodel.cpp:205-213): multi-selection is switched off, keeping the current row. */
  function SwitchToNormalMode(s: ModelState, env: Environment): ModelState
  {
    var s1 := Emit(s, [ActivateFileViewer]);
    if s.multiSelection then
      Emit(s1.(multiSelection := false), [SetMultiSelectionEnabled(false), SelectRow(env.currentRow)])
    else s1
  }

  /** switchToCommandMode (vimodel.cpp:215-228). */
  function SwitchToCommandMode(s: ModelState): ModelState
  {
    Emit(s.(strategy := Some(CommandLine)), [FocusToCommandLine("")])
  }

  /** switchToSearchMode (vimodel.cpp:230-239). */
  function SwitchToSearchMode(s: ModelState): ModelState
  {
    Emit(s.(strategy := Some(SearchLine)), [FocusToCommandLine("")])
  }

  /** switchToFileRenameMode (vimodel.cpp:241-247): the old name is offered for editing. */
  function SwitchToFileRenameMode(s: ModelState, oldName: string): ModelState
  {
    Emit(s.(strategy := Some(PasteRename)), [FocusToCommandLine(oldName)])
  }

  const CopiedFileGone: string := "The file being copied no longer exists"
  const AskForNewName: string := "Set a new name for the destination file"
  const PasteFailed: string := "Enexpected copy error"
  const NameTaken: string := "The file being copied with that name already exists"
  const CopyFailed: string := "Unexpected copy error"
  const RemovalQuestion: string := "Do you want to remove?\n"

  /**
   * PasteFileCommand::paste (vimodel.cpp:394-411): nothing without a yanked path; otherwise a
   * copy into the current directory, and on failure one message that says why, switching to the
   * rename strategy when the destination is taken.
   */
  function Paste(s: ModelState, env: Environment): ModelState
  {
    if s.pathCopy == "" then s
    else
      var name := env.fileName(s.pathCopy);
      var target := Join(env.currentDirectory, name);
      var s1 := Emit(s, [CopyFile(s.pathCopy, target)]);
      if env.copies(s.pathCopy, target) then s1
      else if s.pathCopy !in env.existing then Emit(s1, [ShowStatus(CopiedFileGone, 4)])
      else if target in env.existing then Emit(SwitchToFileRenameMode(s1, name), [ShowStatus(AskForNewName, 0)])
      else Emit(s1, [ShowStatus(PasteFailed, 4)])
  }

  /** PasteFileCommand::pasteWithNewName (vimodel.cpp:413-424): the copy under the name typed. */
  function PasteWithNewName(s: ModelState, env: Environment, newName: string): ModelState
  {
    var target := Join(env.currentDirectory, newName);
    var s1 := Emit(s, [CopyFile(s.pathCopy, target)]);
    if env.copies(s.pathCopy, target) then s1
    else if s.pathCopy !in env.existing then Emit(s1, [ShowStatus(CopiedFileGone, 4)])
    else if target in env.existing then Emit(s1, [ShowStatus(NameTaken, 4)])
    else Emit(s1, [ShowStatus(CopyFailed, 4)])
  }

  /** The operations the dispatch table points to (vimodel.cpp:249-257 and 268-343). */
  function Perform(s: ModelState, env: Environment, f: OperationFunction): ModelState
  {
    match f
    case SwitchToVisualMode => Emit(s.(multiSelection := true), [SetMultiSelectionEnabled(true)])
    case OpenParent => Emit(s, [OpenParentDirectory])
    case OpenCurrent => Emit(s, [OpenCurrentDirectory])
    case SelectPrevious => Emit(s, [SelectRow(if env.currentRow == -1 then 0 else env.currentRow - 1)])
    case SelectNext => Emit(s, [SelectRow(if env.currentRow == -1 then 0 else env.currentRow + 1)])
    case SelectFirst => Emit(s, [SelectRow(0)])
    case SelectLast => Emit(s, [SelectRow(env.rowCount - 1)])
    case YankFile => s.(pathCopy := env.currentFile)
    case PasteFile => Paste(s, env)
    case SearchNextLine => Emit(s, [SearchForward(s.lastSearchLine)])
    case RenameCurrent =>
      var file := env.currentFile;
      Emit(s, [FocusToCommandLine(env.fileName(file))]).(strategy := Some(Rename(file, env.directoryOf(file))))
    case RemoveCurrent =>
      var file := env.currentFile;
      var s1 := Emit(s, [ShowQuestion(RemovalQuestion + env.fileName(file))]);
      if !env.confirmsRemoval then s1
      else if file in env.directories then Emit(s1, [RemoveRecursively(file)])
      else Emit(s1, [RemoveFile(file)])
    case Exit => Emit(s, [ExitApplication])
  }

  /** No operation reads or writes the pending chord (the dispatch runs before reset()). */
  lemma PerformIgnoresPending(s: ModelState, env: Environment, f: OperationFunction, p: seq<Keys.Key>)
    ensures Perform(s.(pending := p), env, f) == Perform(s, env, f).(pending := p)
  {
    match f
    case SwitchToVisualMode => case OpenParent => case OpenCurrent => case SelectPrevious =>
    case SelectNext => case SelectFirst => case SelectLast => case YankFile =>
    case SearchNextLine => case RenameCurrent => case RemoveCurrent => case Exit =>
    case PasteFile =>
      assert Paste(s.(pending := p), env) == Paste(s, env).(pending := p);
  }

  /**
   * handleKeyPress (vimodel.cpp:159-196): Escape, Colon and Slash switch mode, a letter is added
   * to the pending chord, which is kept while it only partially matches, and cleared once an
   * operation ran or nothing matches; any other key is ignored.
   */
  function KeyPress(s: ModelState, env: Environment, key: Keys.Key): ModelState
  {
    if key.value == Keys.ESCAPE then SwitchToNormalMode(s, env)
    else if key.value == Keys.COLON then SwitchToCommandMode(s)
    else if key.value == Keys.SLASH then SwitchToSearchMode(s)
    else if Keys.IsChar(key.value) then Chord(s, env, s.pending + [key])
    else s
  }

  /** The letter branch of handleKeyPress, once the letter is added: p is the pending chord. */
  function Chord(s: ModelState, env: Environment, p: seq<Keys.Key>): ModelState
  {
    var status := Handled(Table, p);
    if status.matched && status.operation == NONE then s.(pending := p)
    else if !status.matched then s.(pending := [])
    else
      assert status.operation != COUNT && DispatchTable[Index(status.operation)].Some? by {
        ReportedOperationIsBound(p);
      }
      Perform(s, env, DispatchTable[Index(status.operation)].value).(pending := [])
  }

  /** The number of leading characters of s before the first space. */
  function WordLength(s: string): (n: nat)
    ensures n <= |s|
    ensures forall i :: 0 <= i < n ==> s[i] != ' '
    ensures n < |s| ==> s[n] == ' '
  {
    if s == [] || s[0] == ' ' then 0 else 1 + WordLength(s[1..])
  }

  /** line.split(' ', QString::SkipEmptyParts): the maximal runs of characters other than space. */
  function Split(line: string): (r: seq<string>)
    ensures forall i :: 0 <= i < |r| ==> r[i] != [] && ' ' !in r[i]
    decreases |line|
  {
    if line == [] then []
    else if line[0] == ' ' then Split(line[1..])
    else
      var n := WordLength(line);
      [line[..n]] + Split(line[n..])
  }

  function NonSpaces(s: string): string
  {
    if s == [] then [] else (if s[0] == ' ' then [] else [s[0]]) + NonSpaces(s[1..])
  }

  function Concat(words: seq<string>): string
  {
    if words == [] then [] else words[0] + Concat(words[1..])
  }

  lemma {:induction false} NonSpacesOfWord(s: string, n: nat)
    requires n <= |s| && forall i :: 0 <= i < n ==> s[i] != ' '
    ensures NonSpaces(s) == s[..n] + NonSpaces(s[n..])
    decreases n
  {
    if n > 0 {
      NonSpacesOfWord(s[1..], n - 1);
      assert s[1..][..n - 1] == s[1..n];
      assert s[1..][n - 1..] == s[n..];
      assert [s[0]] + s[1..n] == s[..n];
    }
  }

  /** Splitting loses exactly the spaces: the tokens, put back together, are the line without its spaces. */
  lemma {:induction false} SplitKeepsNonSpaces(line: string)
    ensures Concat(Split(line)) == NonSpaces(line)
    decreases |line|
  {
    if line != [] {
      if line[0] == ' ' {
        SplitKeepsNonSpaces(line[1..]);
      } else {
        var n := WordLength(line);
        SplitKeepsNonSpaces(line[n..]);
        NonSpacesOfWord(line, n);
        var r := Split(line);
        assert r[0] == line[..n] && r[1..] == Split(line[n..]);
      }
    }
  }

  lemma {:induction false} NonSpacesEmpty(s: string)
    ensures NonSpaces(s) == [] <==> forall i :: 0 <= i < |s| ==> s[i] == ' '
  {
    if s != [] {
      NonSpacesEmpty(s[1..]);
      assert forall i :: 1 <= i < |s| ==> s[i] == s[1..][i - 1];
    }
  }

  /** A line splits into no token exactly when it is made of spaces only (the empty line included). */
  lemma SplitEmptyIffBlank(line: string)
    ensures Split(line) == [] <==> forall i :: 0 <= i < |line| ==> line[i] == ' '
  {
    SplitKeepsNonSpaces(line);
    NonSpacesEmpty(line);
    var r := Split(line);
    if r != [] {
      assert Concat(r) == r[0] + Concat(r[1..]);
    }
  }

  const UnknownCommand: string := "Unknown command"

  /** The command-line strategy (vimodel.cpp:217-226) with runIfHas (vimodel.cpp:259-266). */
  function RunCommandLine(s: ModelState, env: Environment, line: string): ModelState
  {
    if line == "" then s
    else
      var args := Split(line);
      if args == [] then s
      else
        var run := RunIfHasCalls(env, args);
        if run.0 then Emit(s, run.1) else Emit(s, [ShowStatus(UnknownCommand, 4)])
  }

  /** Running the installed strategy on the submitted line. */
  function RunStrategy(s: ModelState, env: Environment, strategy: LineStrategy, line: string): ModelState
  {
    match strategy
    case CommandLine => RunCommandLine(s, env, line)
    case SearchLine => if line == "" then s else Emit(s.(lastSearchLine := line), [SearchForward(line)])
    case PasteRename => PasteWithNewName(s, env, line)
    case Rename(file, directory) => if line == "" then s else Emit(s, [RenameFile(file, Join(directory, line))])
  }

  /** handleCommandEnter (vimodel.cpp:198-203): a strategy must be installed. */
  function CommandEnter(s: ModelState, env: Environment, line: string): ModelState
    requires s.strategy.Some?
  {
    SwitchToNormalMode(RunStrategy(s, env, s.strategy.value, line), env)
  }

  /** The state after a sequence of key presses. */
  function Feed(s: ModelState, env: Environment, keys: seq<Keys.Key>): ModelState
    decreases |keys|
  {
    if keys == [] then s else Feed(KeyPress(s, env, keys[0]), env, keys[1..])
  }

  /** Feeding one key is one key press. */
  lemma FeedOne(s: ModelState, env: Environment, key: Keys.Key)
    ensures Feed(s, env, [key]) == KeyPress(s, env, key)
  {
    assert [key][1..] == [];
  }

  /** n copies of x. */
  function Repeat<T>(x: T, n: nat): (r: seq<T>)
    ensures |r| == n && forall i :: 0 <= i < n ==> r[i] == x
  {
    if n == 0 then [] else [x] + Repeat(x, n - 1)
  }

  /** A kept chord of the registered table has at most one key, since every chord has at most two. */
  lemma KeptIsAtMostOneKey(pending: seq<Keys.Key>)
    requires Kept(Table, pending)
    ensures |pending| <= 1
  {
    TableIsWellFormed();
    KeptIsShort(Table, pending);
    if pending != [] {
      var i :| 0 <= i < |Table| && |pending| < |Table[i].keySequence|;
    }
  }

  /** Escape, Colon, Slash and every other key that is not a letter leave the pending chord alone. */
  lemma NonLetterKeepsPending(s: ModelState, env: Environment, key: Keys.Key)
    requires !Keys.IsChar(key.value)
    ensures KeyPress(s, env, key).pending == s.pending
    ensures key.value != Keys.ESCAPE && key.value != Keys.COLON && key.value != Keys.SLASH ==>
      KeyPress(s, env, key) == s
  {
  }

  /**
   * On a letter the pending chord grows by that key and is kept exactly when handle() reports a
   * match without an operation; otherwise it is cleared, and with no match nothing else happens.
   */
  lemma LetterKeepsOrClears(s: ModelState, env: Environment, key: Keys.Key)
    requires Keys.IsChar(key.value)
    ensures var p := s.pending + [key];
      (KeyPress(s, env, key).pending == p <==> Handled(Table, p) == Status(true, NONE)) &&
      (KeyPress(s, env, key).pending != p ==> KeyPress(s, env, key).pending == [])
    ensures !Handled(Table, s.pending + [key]).matched ==> KeyPress(s, env, key) == s.(pending := [])
  {
    var p := s.pending + [key];
    assert KeyPress(s, env, key) == Chord(s, env, p) by {
      Keys.LetterIsNoControlKey(key.value);
    }
    var status := Handled(Table, p);
    if status == Status(true, NONE) {
      assert Chord(s, env, p) == s.(pending := p);
    } else if !status.matched {
      assert Chord(s, env, p) == s.(pending := []);
    } else {
      assert Chord(s, env, p).pending == [] != p;
    }
  }

  /**
   * A letter that completes a chord exactly, the last such chord in registration order, runs
   * the operation bound to that chord's slot of the dispatch table once and clears the chord,
   * whatever other chords still match partially.
   */
  lemma ExactChordFires(s: ModelState, env: Environment, key: Keys.Key, i: nat) returns (f: OperationFunction)
    requires Keys.IsChar(key.value) && i < |Table| && Table[i].keySequence == s.pending + [key]
    requires forall j :: i < j < |Table| ==> Table[j].keySequence != s.pending + [key]
    ensures Index(Table[i].operation) < |DispatchTable| && DispatchTable[Index(Table[i].operation)] == Some(f)
    ensures KeyPress(s, env, key) == Perform(s, env, f).(pending := [])
  {
    var p := s.pending + [key];
    var op := Table[i].operation;
    TableIsWellFormed();
    ExactMatchFires(Table, p, i);
    DispatchCoversTable();
    f := DispatchTable[Index(op)].value;
    ChordRunsReported(s, env, p, op, f);
    Keys.LetterIsNoControlKey(key.value);
  }

  /** The letter branch once handle() has reported a bound operation: its function runs and the chord is cleared. */
  lemma ChordRunsReported(s: ModelState, env: Environment, p: seq<Keys.Key>, op: ENormalOperation, f: OperationFunction)
    requires Handled(Table, p) == Status(true, op) && op != NONE && op != COUNT
    requires DispatchTable[Index(op)] == Some(f)
    ensures Chord(s, env, p) == Perform(s, env, f).(pending := [])
  {
  }

  /** Each chord the scenarios below complete is bound once, so it is the last exact match. */
  lemma LastChords()
    ensures forall j :: 5 < j < |Table| ==> Table[j].keySequence != Table[5].keySequence
    ensures forall j :: 9 < j < |Table| ==> Table[j].keySequence != Table[9].keySequence
    ensures forall j :: 10 < j < |Table| ==> Table[j].keySequence != Table[10].keySequence
    ensures forall j :: 11 < j < |Table| ==> Table[j].keySequence != Table[11].keySequence
    ensures forall j :: 0 < j < |Table| ==> Table[j].keySequence != Table[0].keySequence
  {
  }

  /** The dispatch-table slots of the chords the scenarios below use. */
  lemma BoundFunctions()
    ensures DispatchTable[Index(Table[0].operation)] == Some(SwitchToVisualMode)
    ensures DispatchTable[Index(Table[5].operation)] == Some(SelectFirst)
    ensures DispatchTable[Index(Table[9].operation)] == Some(YankFile)
    ensures DispatchTable[Index(Table[10].operation)] == Some(PasteFile)
    ensures DispatchTable[Index(Table[11].operation)] == Some(SearchNextLine)
  {
  }

  /**
   * Starting from a kept chord every key press leaves a kept chord of at most one key, so the
   * next addKey always has a free slot in the four-key array.
   */
  lemma KeyPressKeepsKept(s: ModelState, env: Environment, key: Keys.Key)
    requires Kept(Table, s.pending)
    ensures Kept(Table, KeyPress(s, env, key).pending)
    ensures |KeyPress(s, env, key).pending| <= 1 < Capacity
  {
    TableIsWellFormed();
    if Keys.IsChar(key.value) {
      var p := s.pending + [key];
      if Handled(Table, p) == Status(true, NONE) {
        ExtendKept(Table, s.pending, key);
      }
      LetterKeepsOrClears(s, env, key);
    } else {
      NonLetterKeepsPending(s, env, key);
    }
    KeptIsAtMostOneKey(KeyPress(s, env, key).pending);
  }

  /** The same for any sequence of key presses. */
  lemma {:induction false} FeedKeepsKept(s: ModelState, env: Environment, keys: seq<Keys.Key>)
    requires Kept(Table, s.pending)
    ensures Kept(Table, Feed(s, env, keys).pending) && |Feed(s, env, keys).pending| <= 1
    decreases |keys|
  {
    if keys != [] {
      KeyPressKeepsKept(s, env, keys[0]);
      FeedKeepsKept(KeyPress(s, env, keys[0]), env, keys[1..]);
    } else {
      KeptIsAtMostOneKey(s.pending);
    }
  }

  /** No operation of the dispatch table changes the remembered search line. */
  lemma PerformKeepsSearchLine(s: ModelState, env: Environment, f: OperationFunction)
    ensures Perform(s, env, f).lastSearchLine == s.lastSearchLine
  {
  }

  /** Nor does any key press. */
  lemma KeyPressKeepsSearchLine(s: ModelState, env: Environment, key: Keys.Key)
    ensures KeyPress(s, env, key).lastSearchLine == s.lastSearchLine
  {
    if key.value != Keys.ESCAPE && key.value != Keys.COLON && key.value != Keys.SLASH && Keys.IsChar(key.value) {
      var p := s.pending + [key];
      var status := Handled(Table, p);
      if status.matched && status.operation != NONE {
        ReportedOperationIsBound(p);
        PerformKeepsSearchLine(s, env, DispatchTable[Index(status.operation)].value);
      }
    }
  }

  /** Key presses never change the remembered search line; only a submitted search does. */
  lemma {:induction false} FeedKeepsSearchLine(s: ModelState, env: Environment, keys: seq<Keys.Key>)
    ensures Feed(s, env, keys).lastSearchLine == s.lastSearchLine
    decreases |keys|
  {
    if keys != [] {
      KeyPressKeepsSearchLine(s, env, keys[0]);
      FeedKeepsSearchLine(KeyPress(s, env, keys[0]), env, keys[1..]);
    }
  }

  /** The keys that are a chord on their own. */
  const SingleKeyChords: set<Keys.Key> := {
    Plain(Keys.V), Plain(Keys.H), Plain(Keys.L), Plain(Keys.J), Plain(Keys.K),
    Keys.Key(Keys.G, true, false, false), Keys.Key(Keys.D, true, false, false),
    Plain(Keys.P), Plain(Keys.N), Keys.Key(Keys.Q, false, true, false)}

  /** A chord of one key is one of SingleKeyChords, so any other key alone is no exact match. */
  lemma NoOtherSingleKeyChord(k: Keys.Key)
    requires k !in SingleKeyChords
    ensures forall i :: 0 <= i < |Table| ==> Table[i].keySequence != [k]
  {
    forall i | 0 <= i < |Table|
      ensures Table[i].keySequence != [k]
    {
      if |Table[i].keySequence| == 1 {
        assert Table[i].keySequence[0] in SingleKeyChords;
      }
    }
  }

  /** One g is kept as a partial match of gg. */
  lemma FirstGIsKept(s: ModelState, env: Environment)
    requires s.pending == []
    ensures KeyPress(s, env, Plain(Keys.G)) == s.(pending := [Plain(Keys.G)])
  {
    var p := [Plain(Keys.G)];
    assert s.pending + [Plain(Keys.G)] == p;
    assert Compare(Table[5].keySequence, p) == PARTIALLY_TRUE;
    NoOtherSingleKeyChord(Plain(Keys.G));
  }

  /** A g after a kept g selects the first row and clears the chord. */
  lemma SecondGSelectsFirstRow(s: ModelState, env: Environment)
    requires s.pending == [Plain(Keys.G)]
    ensures KeyPress(s, env, Plain(Keys.G)) == Emit(s.(pending := []), [SelectRow(0)])
  {
    assert s.pending + [Plain(Keys.G)] == Table[5].keySequence;
    assert forall j :: 5 < j < |Table| ==> Table[j].keySequence != Table[5].keySequence by {
      LastChords();
    }
    var f := ExactChordFires(s, env, Plain(Keys.G), 5);
    assert f == SelectFirst by {
      BoundFunctions();
    }
  }

  /** gg selects the first row and leaves no pending chord. */
  lemma GGSelectsFirstRow(s: ModelState, env: Environment)
    requires s.pending == []
    ensures Feed(s, env, [Plain(Keys.G), Plain(Keys.G)]) == Emit(s, [SelectRow(0)])
  {
    var g := Plain(Keys.G);
    FirstGIsKept(s, env);
    var s1 := s.(pending := [g]);
    SecondGSelectsFirstRow(s1, env);
    FeedOne(s1, env, g);
    var keys := [g, g];
    assert keys[0] == g && keys[1..] == [g];
  }

  /**
   * Escape between the two g's does not cancel the chord: the view goes back to normal mode and
   * the second g still selects the first row.
   */
  lemma EscapeDoesNotCancelChord(s: ModelState, env: Environment)
    requires s.pending == []
    ensures Feed(s, env, [Plain(Keys.G), Plain(Keys.ESCAPE), Plain(Keys.G)]) ==
      Emit(SwitchToNormalMode(s, env), [SelectRow(0)])
  {
    var g, esc := Plain(Keys.G), Plain(Keys.ESCAPE);
    FirstGIsKept(s, env);
    var s1 := s.(pending := [g]);
    var s2 := SwitchToNormalMode(s1, env);
    assert KeyPress(s1, env, esc) == s2;
    SecondGSelectsFirstRow(s2, env);
    FeedOne(s2, env, g);
    var keys := [g, esc, g];
    assert keys[0] == g && keys[1..] == [esc, g];
    assert keys[1..][0] == esc && keys[1..][1..] == [g];
  }

  /** With nothing pending, n asks the host to search the remembered line again. */
  lemma NSearchesAgain(s: ModelState, env: Environment)
    requires s.pending == []
    ensures KeyPress(s, env, Plain(Keys.N)) == Emit(s, [SearchForward(s.lastSearchLine)])
  {
    assert s.pending + [Plain(Keys.N)] == Table[11].keySequence;
    assert forall j :: 11 < j < |Table| ==> Table[j].keySequence != Table[11].keySequence by {
      LastChords();
    }
    var f := ExactChordFires(s, env, Plain(Keys.N), 11);
    assert f == SearchNextLine by {
      BoundFunctions();
    }
  }

  /** k presses of n forward the remembered line k times. */
  lemma {:induction false} SearchNextRepeats(s: ModelState, env: Environment, k: nat)
    requires s.pending == []
    ensures Feed(s, env, Repeat(Plain(Keys.N), k)) == Emit(s, Repeat(SearchForward(s.lastSearchLine), k))
    decreases k
  {
    if k > 0 {
      NSearchesAgain(s, env);
      var s1 := Emit(s, [SearchForward(s.lastSearchLine)]);
      SearchNextRepeats(s1, env, k - 1);
      assert Repeat(Plain(Keys.N), k)[1..] == Repeat(Plain(Keys.N), k - 1);
      assert s.trace + [SearchForward(s.lastSearchLine)] + Repeat(SearchForward(s.lastSearchLine), k - 1) ==
        s.trace + Repeat(SearchForward(s.lastSearchLine), k);
    } else {
      assert s.trace + [] == s.trace;
    }
  }

  /**
   * A submitted search line is remembered and forwarded once; afterwards k presses of n forward
   * the same line k more times. Submitting an empty line changes nothing but the mode.
   */
  lemma SubmittedSearchIsReplayed(s: ModelState, env: Environment, line: string, k: nat)
    requires s.strategy == Some(SearchLine) && s.pending == []
    ensures line == "" ==> CommandEnter(s, env, line) == SwitchToNormalMode(s, env)
    ensures line != "" ==>
      var t := CommandEnter(s, env, line);
      t.lastSearchLine == line &&
      t == SwitchToNormalMode(Emit(s.(lastSearchLine := line), [SearchForward(line)]), env) &&
      Feed(t, env, Repeat(Plain(Keys.N), k)).trace == t.trace + Repeat(SearchForward(line), k)
  {
    if line != "" {
      SearchNextRepeats(CommandEnter(s, env, line), env, k);
    }
  }

  /**
   * The command-line strategy: an empty line or one of spaces only does nothing; a line whose
   * first token is registered runs that command with all the tokens; any other line shows one
   * "Unknown command" status for four seconds and makes no other call.
   */
  lemma CommandLineOutcomes(s: ModelState, env: Environment, line: string)
    ensures (forall i :: 0 <= i < |line| ==> line[i] == ' ') ==> RunCommandLine(s, env, line) == s
    ensures Split(line) != [] && Split(line)[0] in Registry ==>
      RunCommandLine(s, env, line) == Emit(s, CommandCalls(env, Registry[Split(line)[0]], Split(line)))
    ensures Split(line) != [] && Split(line)[0] !in RegistryNames ==>
      RunCommandLine(s, env, line) == Emit(s, [ShowStatus(UnknownCommand, 4)])
  {
    SplitEmptyIffBlank(line);
    if Split(line) != [] {
      RunIfHasOutcomes(env, Split(line));
    }
  }

  /** A word followed by the end of the line or a space is the first token. */
  lemma SplitWord(w: string, rest: string)
    requires w != [] && ' ' !in w && (rest == [] || rest[0] == ' ')
    ensures Split(w + rest) == [w] + Split(rest)
  {
    var line := w + rest;
    assert line[0] == w[0];
    assert WordLength(line) == |w| by {
      WordLengthOfWord(w, rest);
    }
    assert line[..|w|] == w && line[|w|..] == rest;
  }

  lemma {:induction false} WordLengthOfWord(w: string, rest: string)
    requires ' ' !in w && (rest == [] || rest[0] == ' ')
    ensures WordLength(w + rest) == |w|
    decreases |w|
  {
    if w != [] {
      assert (w + rest)[0] == w[0];
      assert (w + rest)[1..] == w[1..] + rest;
      WordLengthOfWord(w[1..], rest);
    } else {
      assert w + rest == rest;
    }
  }

  /** A leading space is skipped. */
  lemma SplitSpace(rest: string)
    ensures Split(" " + rest) == Split(rest)
  {
    assert (" " + rest)[1..] == rest;
  }

  /** Splitting drops the empty part between two spaces. */
  lemma SplitExample()
    ensures Split("mkdir a  b") == ["mkdir", "a", "b"]
  {
    var t := " " + ("a" + (" " + (" " + "b")));
    assert "mkdir a  b" == "mkdir" + t;
    SplitWord("mkdir", t);
    SplitTailExample();
    assert ["mkdir"] + ["a", "b"] == ["mkdir", "a", "b"];
  }

  lemma SplitTailExample()
    ensures Split(" " + ("a" + (" " + (" " + "b")))) == ["a", "b"]
  {
    var t1 := " " + (" " + "b");
    assert Split("b") == ["b"] by {
      assert "b" == "b" + [];
      SplitWord("b", []);
    }
    assert Split(t1) == ["b"] by {
      SplitSpace("b");
      SplitSpace(" " + "b");
    }
    assert Split("a" + t1) == ["a", "b"] by {
      SplitWord("a", t1);
    }
    SplitSpace("a" + t1);
  }

  /** A line whose tokens are mkdir and some names makes one directory per name, in order. */
  lemma MkdirMakesEachName(s: ModelState, env: Environment, line: string, names: seq<string>)
    requires Split(line) == ["mkdir"] + names
    ensures RunCommandLine(s, env, line) == Emit(s, MkdirCalls(names))
  {
    var args := Split(line);
    assert args[0] == "mkdir" && args[1..] == names;
  }

  /** "mkdir a  b" makes the two directories in order. */
  lemma MkdirTwoDirectories(s: ModelState, env: Environment)
    ensures RunCommandLine(s, env, "mkdir a  b") == Emit(s, [Mkdir("a"), Mkdir("b")])
  {
    assert Split("mkdir a  b") == ["mkdir"] + ["a", "b"] by {
      SplitExample();
    }
    MkdirMakesEachName(s, env, "mkdir a  b", ["a", "b"]);
    MkdirCallsOfTwo("a", "b");
  }

  /**
   * handleCommandEnter leaves the installed strategy in place (the next submitted line uses it
   * again), and no strategy touches the pending chord or the yanked path.
   */
  lemma StrategyPersists(s: ModelState, env: Environment, line: string)
    requires s.strategy.Some?
    ensures CommandEnter(s, env, line).strategy == s.strategy
    ensures CommandEnter(s, env, line).pending == s.pending && CommandEnter(s, env, line).pathCopy == s.pathCopy
  {
  }

  /** The rename strategy ignores an empty name and otherwise renames within the file's directory. */
  lemma RenameIgnoresEmptyName(s: ModelState, env: Environment, file: string, directory: string, line: string)
    ensures line == "" ==> RunStrategy(s, env, Rename(file, directory), line) == s
    ensures line != "" ==>
      RunStrategy(s, env, Rename(file, directory), line) == Emit(s, [RenameFile(file, Join(directory, line))])
  {
  }

  /** The paste-rename strategy always tries the copy, even for an empty name. */
  lemma PasteRenameAlwaysCopies(s: ModelState, env: Environment, line: string)
    ensures s.trace + [CopyFile(s.pathCopy, Join(env.currentDirectory, line))] <=
      RunStrategy(s, env, PasteRename, line).trace
  {
  }

  /**
   * The paste guard: nothing is pasted before a yank; otherwise the copy into the current
   * directory is tried, success is silent, and each failure shows one status that says which;
   * only a taken destination switches to the rename strategy.
   */
  lemma PasteOutcomes(s: ModelState, env: Environment)
    ensures s.pathCopy == "" ==> Paste(s, env) == s
    ensures s.pathCopy != "" ==>
      var target := Join(env.currentDirectory, env.fileName(s.pathCopy));
      var t := Paste(s, env);
      s.trace + [CopyFile(s.pathCopy, target)] <= t.trace &&
      (env.copies(s.pathCopy, target) <==> |t.trace| == |s.trace| + 1) &&
      (!env.copies(s.pathCopy, target) ==> t.trace[|t.trace| - 1].ShowStatus?) &&
      (t.strategy != s.strategy ==> t.strategy == Some(PasteRename))
    ensures Paste(s, env).pathCopy == s.pathCopy && Paste(s, env).pending == s.pending
    ensures Paste(s, env).strategy != s.strategy ==>
      !env.copies(s.pathCopy, Join(env.currentDirectory, env.fileName(s.pathCopy))) &&
      Join(env.currentDirectory, env.fileName(s.pathCopy)) in env.existing
  {
  }

  /** One y is kept as a partial match of yy. */
  lemma FirstYIsKept(s: ModelState, env: Environment)
    requires s.pending == []
    ensures KeyPress(s, env, Plain(Keys.Y)) == s.(pending := [Plain(Keys.Y)])
  {
    var p := [Plain(Keys.Y)];
    assert s.pending + [Plain(Keys.Y)] == p;
    assert Compare(Table[9].keySequence, p) == PARTIALLY_TRUE;
    NoOtherSingleKeyChord(Plain(Keys.Y));
  }

  /** A y after a kept y remembers the current file as the path to paste. */
  lemma SecondYYanks(s: ModelState, env: Environment)
    requires s.pending == [Plain(Keys.Y)]
    ensures KeyPress(s, env, Plain(Keys.Y)) == s.(pathCopy := env.currentFile, pending := [])
  {
    assert s.pending + [Plain(Keys.Y)] == Table[9].keySequence;
    assert forall j :: 9 < j < |Table| ==> Table[j].keySequence != Table[9].keySequence by {
      LastChords();
    }
    var f := ExactChordFires(s, env, Plain(Keys.Y), 9);
    assert f == YankFile by {
      BoundFunctions();
    }
  }

  /** With nothing pending, p runs the paste guard. */
  lemma PPastes(s: ModelState, env: Environment)
    requires s.pending == []
    ensures KeyPress(s, env, Plain(Keys.P)) == Paste(s, env)
  {
    assert s.pending + [Plain(Keys.P)] == Table[10].keySequence;
    assert forall j :: 10 < j < |Table| ==> Table[j].keySequence != Table[10].keySequence by {
      LastChords();
    }
    var f := ExactChordFires(s, env, Plain(Keys.P), 10);
    assert f == PasteFile by {
      BoundFunctions();
    }
    assert Paste(s, env).(pending := []) == Paste(s, env) by {
      PasteKeepsPending(s, env);
    }
  }

  lemma PasteKeepsPending(s: ModelState, env: Environment)
    ensures Paste(s, env).pending == s.pending
  {
  }

  /** yy then p copies the current file into the current directory under its own name. */
  lemma YankThenPaste(s: ModelState, env: Environment)
    requires s.pending == [] && env.currentFile != ""
    ensures var t := Feed(s, env, [Plain(Keys.Y), Plain(Keys.Y), Plain(Keys.P)]);
      t.pathCopy == env.currentFile &&
      s.trace + [CopyFile(env.currentFile, Join(env.currentDirectory, env.fileName(env.currentFile)))] <= t.trace
  {
    FirstYIsKept(s, env);
    var s1 := s.(pending := [Plain(Keys.Y)]);
    SecondYYanks(s1, env);
    var s2 := s.(pathCopy := env.currentFile);
    PPastes(s2, env);
    var s3 := Paste(s2, env);
    var keys := [Plain(Keys.Y), Plain(Keys.Y), Plain(Keys.P)];
    assert keys[1..] == [Plain(Keys.Y), Plain(Keys.P)] && keys[1..][1..] == [Plain(Keys.P)];
    FeedOne(s2, env, Plain(Keys.P));
    assert Feed(s1, env, keys[1..]) == s3;
    assert Feed(s, env, keys) == s3;
    PasteOutcomes(s2, env);
  }

  /** With nothing pending, v switches multi-selection on. */
  lemma VStartsVisualMode(s: ModelState, env: Environment)
    requires s.pending == []
    ensures KeyPress(s, env, Plain(Keys.V)) == Emit(s.(multiSelection := true), [SetMultiSelectionEnabled(true)])
  {
    assert s.pending + [Plain(Keys.V)] == Table[0].keySequence;
    assert forall j :: 0 < j < |Table| ==> Table[j].keySequence != Table[0].keySequence by {
      LastChords();
    }
    var f := ExactChordFires(s, env, Plain(Keys.V), 0);
    assert f == SwitchToVisualMode by {
      BoundFunctions();
    }
  }

  /** v then Escape: multi-selection is switched on, then off again keeping the current row. */
  lemma VisualThenEscape(s: ModelState, env: Environment)
    requires s.pending == []
    ensures var t := Feed(s, env, [Plain(Keys.V), Plain(Keys.ESCAPE)]);
      !t.multiSelection && t.pending == [] &&
      t.trace == s.trace + [SetMultiSelectionEnabled(true), ActivateFileViewer,
                            SetMultiSelectionEnabled(false), SelectRow(env.currentRow)]
  {
    VStartsVisualMode(s, env);
    var s1 := Emit(s.(multiSelection := true), [SetMultiSelectionEnabled(true)]);
    assert KeyPress(s1, env, Plain(Keys.ESCAPE)) == SwitchToNormalMode(s1, env);
    FeedOne(s1, env, Plain(Keys.ESCAPE));
    var keys := [Plain(Keys.V), Plain(Keys.ESCAPE)];
    assert keys[0] == Plain(Keys.V) && keys[1..] == [Plain(Keys.ESCAPE)];
  }
}
