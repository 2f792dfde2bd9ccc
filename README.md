# FileManager key-chord engine in Dafny

This project models the input engine of FileManager, a Qt file manager driven from the keyboard in
the manner of vi. The engine has five parts:

- **Keys.** A key is a base symbol (`EKey`) plus Shift, Control and Meta flags. It can be accumulated
  from a list of symbols (`Key::+=`, `Key(std::initializer_list)`) or computed at compile time
  (`StaticKey<...>`). It can be printed (`toString`).
- **Chords.** A chord is a `KeySequence` of at most four keys. Comparing a registered chord with the
  pending chord gives one of three answers: no match, exact match, or partial match.
- **Normal mode.** `NormalMode` appends each letter to the pending chord. It then decides whether any
  registered chord still matches and which operation, if any, the chord completes.
- **The dispatcher.** `ViModel` routes Escape, Colon and Slash to mode switches and letters to the
  chord matcher. It runs the operation bound to a completed chord through the `normalOperations`
  table, which has one slot per value of `ENormalOperation`. A submitted line goes to the installed
  line strategy: the command line, forward search, rename, or the paste-conflict rename.
- **The collaborators.**
  - The command registry (`CommandMaster`, and the same table inside `ViModel`) holds five commands:
    `cd`, `touch`, `open`, `mkdir` and `colorscheme`.
  - Command-name completion (`CommandCompletion`).
  - The search controller (`SearchController`).
  - The path operator `/` (`util.cpp`).

The host, meaning the Qt view and the filesystem, is a `View` object. It records every call the engine
makes on a trace, and it answers queries from a fixed `Environment`.

The model is split into imperative and pure layers:

- **Stateful classes.** These keep the source's classes and in-place updates: `KeyMatching.KeySequence`
  (an `array` of four keys and a length), `NormalModes.NormalMode`, `Search.SearchController`,
  `CommandRegistry.CommandMaster`, `Completion.CommandCompletion` and `Vi.ViModel`.
- **Method contracts.** Every method states the new state as a function of the old one. For `ViModel`,
  the state is the abstract `ViSemantics.ModelState`: the pending chord, the installed strategy, the
  yanked path, the last search line, the multi-selection flag, and the host trace.
- **Pure layer.** The lemmas prove the engine's behaviour from the functions of the pure `ViSemantics`
  module (`KeyPress`, `Feed`, `CommandEnter`, `Perform`, `Paste`, …).
- **Enumerations.** `EKey` is an `enum class`, so it is modelled as a newtype over its positions 0 to
  34, with one constant per enumerator. Then `isChar` and the letter offset in `toString` compare
  and subtract those positions, as the source's `static_cast<int>` does. `ENormalOperation` is a
  datatype, and `NormalModes.Index` gives the slot of each value.

Some of the engine's behaviour is easy to get wrong when reading it quickly. The model follows the
code exactly:

- **Last exact match wins.** When several registered chords match exactly, `NormalMode::handle` reports
  the last one, not the first (vimodel.cpp:487-504). With the registered table this makes no
  difference, because no chord is registered twice.
- **Escape keeps the pending chord.** Escape switches back to normal mode but does not clear the
  pending chord, unlike vi (vimodel.cpp:162-164, 205-213). So `g`, Escape, `g` still selects the
  first row.
- **Exact beats partial.** An exact match runs its operation even while another chord still matches
  partially.
- **The strategy persists.** A submitted line does not uninstall the line strategy
  (vimodel.cpp:198-203). The next submit runs it again.
- **Completion order.** Completion offers names in the registry's iteration order. That is the
  `std::map` order, lexicographic by name, not registration order.
- The status messages and timeouts are the source's own. They include the misspelt
  "Enexpected copy error" and the default timeout 0 of "Set a new name for the destination file".

## Model

| member | source | states |
|---|---|---|
| Keys.Ordinal | vimodel.h:33-45 | `static_cast<int>` of an enumerator is its position in the declaration; the constants NONE = 0 to COUNT = 34 give those positions, and the function itself only reads the value |
| Keys.NonLettersExactly | vimodel.h:33-45 | `isChar` rejects exactly NONE, ESCAPE, META, SHIFT, CONTROL, COLON, SLASH, SEMICOLON and COUNT |
| Keys.KeyEquals | vimodel.cpp:542-548 | `Key::operator==` holds exactly when the base symbol and all three modifier flags agree |
| Keys.Plus | vimodel.cpp:555-577 | `Key::+=` fails (the assertion) exactly for a modifier whose bit is already set or for a second base symbol; otherwise a modifier keeps the base symbol and any other symbol becomes the base symbol, and each flag of the result is set exactly when it was already set or the symbol is that modifier |
| Keys.AccumulateStaysRejected | vimodel.cpp:555-577 | once accumulation has failed, no further symbol can make it succeed |
| Keys.NewKey | vimodel.cpp:534-540 | the initializer-list constructor starts from the default key and applies `+=` to each symbol in turn; its result equals the pure accumulation |
| Keys.PlusIsFill | vimodel.h:130-148 | on a modifier or a letter, the run-time `+=` and the compile-time `fill` build the same key, or both fire their assertion |
| Keys.AccumulateIsKeyOfBag | vimodel.cpp:534-540 | on a list of modifiers and letters, accumulating with `+=` gives the same key as the order-free reading of its symbols: defined exactly when no symbol repeats and at most one letter occurs |
| Keys.KeyFromListMatchesStaticKey | vimodel.cpp:534-540 | on every nonempty list of modifiers and letters, the run-time constructor and the compile-time `StaticKey` agree |
| Keys.AddToRejected | vimodel.h:130-148 | adding any symbol to a multiset of symbols that `StaticKeyImpl` rejects keeps it rejected |
| Keys.FillStep | vimodel.h:130-148 | one `StaticKeyImpl::fill` step on the key of a multiset of symbols gives the key of that multiset with the symbol added |
| Keys.StaticKeyIsKeyOfBag | vimodel.h:159-171 | the `StaticKey` recursion computes the key determined by the multiset of its arguments |
| Keys.StaticKeyOrderFree | vimodel.h:159-171 | two argument lists with the same symbols give the same `StaticKey`, whatever their order |
| Keys.StaticKeyAccepts | vimodel.h:130-148 | `StaticKey` yields a key exactly when its arguments are modifiers and letters, none repeated, with at most one letter; the key then sets exactly the listed modifiers and its base is NONE or the listed letter |
| Keys.ToString | vimodel.cpp:33-60 | the loop over the keys produces the concatenated text of each key: a letter as its lower-case character, Control, Shift and Meta as C, S and M, any other symbol as nothing |
| Keys.ParseKeyText | vimodel.cpp:33-60 | a letter or modifier renders as one character that reads back as that symbol; any other symbol renders as nothing |
| Keys.LetterCharParsesBack | vimodel.cpp:24-27 | the character `'a' + offset` written for a letter reads back as that letter |
| Keys.ParseTextOfText | vimodel.cpp:33-60 | reading back the text of a list of symbols gives exactly its letters and modifiers in their original order: `toString` loses only the symbols it does not render |
| KeyMatching.Compare | vimodel.cpp:441-450 | no match exactly when the two chords differ at some position below the shorter length; exact exactly when they are equal; partial exactly when one is a proper prefix of the other |
| KeyMatching.CompareIsSymmetric | vimodel.cpp:441-450 | swapping the registered chord and the pending chord does not change the result |
| KeyMatching.CompareKeys | vimodel.cpp:441-450 | the loop over the common prefix returns the three-valued comparison of the two chords |
| KeyMatching.KeySequence.Contents | vimodel.cpp:431-439 | the keys between `cbegin()` and `cend()` never number more than the four slots |
| KeyMatching.KeySequence.constructor | vimodel.cpp:427-429 | a new sequence is empty |
| KeyMatching.KeySequence.FromKeys | vimodel.h:187-191 | the variadic constructor holds exactly the keys given, at most four |
| KeyMatching.KeySequence.Append | vimodel.cpp:452-455 | `+=` appends the key; it demands a free slot, since the source writes `keys[length]` unchecked |
| KeyMatching.KeySequence.Clear | vimodel.cpp:457-460 | `clear` empties the sequence and leaves the slots' old keys in place |
| KeyMatching.KeySequence.IsEmpty | vimodel.cpp:462-465 | true exactly when no key is in use |
| KeyMatching.KeySequence.GetLength | vimodel.cpp:467-470 | the number of keys in use |
| NormalModes.Index | vimodel.h:10-30 | every operation except the end marker COUNT has a slot below `COUNT` in the dispatch table |
| NormalModes.IndexIsInjective | vimodel.h:10-30 | distinct operations have distinct slots |
| NormalModes.Handled | vimodel.cpp:487-504 | the pending chord matches when some registered chord compares to it as exact or partial; the reported operation is NONE when no chord matches exactly, and otherwise the operation of the last exact match |
| NormalModes.KeptIsShort | vimodel.cpp:482-485 | a pending chord kept as a partial match is shorter than some registered chord, so it is shorter than the four slots |
| NormalModes.ExtendKept | vimodel.cpp:178-183 | a key appended to a kept chord, when `handle` reports a match with no operation, gives a chord that is again kept |
| NormalModes.ExactMatchFires | vimodel.cpp:487-504 | when the pending chord equals a registered chord and no later chord equals it, `handle` reports a match with that chord's operation |
| NormalModes.NormalMode.constructor | vimodel.h:225-239 | a new normal mode has no registered chord and an empty pending chord |
| NormalModes.NormalMode.AddCommand | vimodel.cpp:472-475 | `addCommand` appends the chord to the registration list and leaves the pending chord as it was |
| NormalModes.NormalMode.IsEmptySequence | vimodel.cpp:477-480 | true exactly when no key is pending |
| NormalModes.NormalMode.AddKey | vimodel.cpp:482-485 | `addKey` appends the key to the pending chord |
| NormalModes.HandledStep | vimodel.cpp:491-502 | one chord more: an exact match overwrites the operation, a partial match only raises the flag, and no match changes nothing |
| NormalModes.NormalMode.Handle | vimodel.cpp:487-504 | the loop over the registered chords returns `Handled` of the pending chord: matched and the last exact operation |
| NormalModes.NormalMode.Reset | vimodel.cpp:506-509 | `reset` empties the pending chord and keeps the registered chords |
| HostModel.View.Call | vimodel.h:79-95 | a view call with no answer is recorded once on the trace and nothing else changes |
| HostModel.View.IsMultiSelectionEnabled | vimodel.h:79-95 | the view reports its multi-selection flag |
| HostModel.View.SetMultiSelection | vimodel.h:79-95 | the call is recorded and the flag takes the new value |
| HostModel.View.ChangeDirectory | vimodel.h:79-95 | `changeDirectoryIfCan` is recorded and succeeds exactly for the directories the host can enter |
| HostModel.View.Ask | vimodel.h:79-95 | `showQuestion` is recorded and answers with the user's reply |
| HostModel.View.Copy | vimodel.cpp:401 | `QFile::copy` is recorded and answers with the filesystem's outcome |
| Util.Join | util.cpp:5-14 | `lhs / rhs` is `lhs`, one separator (`QDir::separator()`), then `rhs`: its length is the sum plus one and the parts can be read back |
| Util.JoinDoesNotNormalise | util.cpp:5-14 | the separator is added even when `lhs` is empty or already ends with one |
| Util.JoinSplitsAtFirstSeparator | util.cpp:5-14 | when the left operand holds no separator, the joined path determines both operands |
| Search.SearchController.constructor | searchcontroller.cpp:4-7 | a new controller remembers the empty line and has made no call |
| Search.SearchController.EnterSearchLine | searchcontroller.cpp:9-13 | the line is remembered and forwarded once to the owner's `searchForward` |
| Search.SearchController.SearchNext | searchcontroller.cpp:15-18 | the remembered line is forwarded again and not changed |
| CommandRegistry.LexLessIrreflexive | commandmaster.h:17-20 | no name is less than itself under QString's lexicographic order |
| CommandRegistry.LexLessTransitive | commandmaster.h:17-20 | the order is transitive |
| CommandRegistry.LexLessTotal | commandmaster.h:17-20 | any two distinct names are ordered one way or the other |
| CommandRegistry.RegistryNamesAreTheKeys | commandmaster.cpp:13-19 | the five registered names, listed in map order, are exactly the registry's keys and are strictly increasing |
| CommandRegistry.SortedEnumerationIsUnique | commandmaster.h:23-44 | two strictly increasing lists with the same elements are equal |
| CommandRegistry.RegistryIterationOrder | commandmaster.h:23-44 | any strictly increasing listing of the registry's keys is cd, colorscheme, mkdir, open, touch: the map's iteration order is fixed |
| CommandRegistry.ProperPrefixIsNotRegistered | commandmaster.cpp:34 | `find` looks up the whole first token, and no proper prefix of a registered name is itself registered |
| CommandRegistry.Arguments | commandmaster.cpp:44 | the loops from index 1 visit every token after the command name, in order |
| CommandRegistry.MkdirCalls | commandmaster.cpp:75-79 | one `mkdir` call per argument, in order |
| CommandRegistry.CreateFileCalls | commandmaster.cpp:41-48 | one file creation per argument, each at the current directory joined with the argument |
| CommandRegistry.WrongArityIsRejected | commandmaster.cpp:52-55 | `cd` and `colorscheme` with other than one argument only show "Invalid command signature" for four seconds |
| CommandRegistry.ChangeDirectoryOutcomes | commandmaster.cpp:56-67 | `cd` with one argument resolves a relative path against the current directory; for a target that does not exist it shows only "Target directory does not exist"; otherwise it asks the view to change directory and shows "Unexpected error" exactly when that fails |
| CommandRegistry.SetColorSchemePassesLastToken | commandmaster.cpp:81-88 | `colorscheme` with one argument sets exactly that scheme name |
| CommandRegistry.LoopHandlersSkipTheName | commandmaster.cpp:41-79 | `mkdir` and `touch` make one call per token after the name, in order, and none for the name itself |
| CommandRegistry.CreateEmptyFileHandler | commandmaster.cpp:41-48 | the loop records the file creations of `CreateFileCalls` |
| CommandRegistry.ChangeDirectoryHandler | commandmaster.cpp:50-68 | the handler records the calls of `ChangeDirectoryCalls` |
| CommandRegistry.OpenFileHandler | commandmaster.cpp:70-73 | the handler asks the platform to open the current file, whatever the arguments |
| CommandRegistry.MakeDirectoryHandler | commandmaster.cpp:75-79 | the loop records the calls of `MkdirCalls` |
| CommandRegistry.SetColorSchemeHandler | commandmaster.cpp:81-88 | the handler records the calls of `SetColorSchemeCalls` |
| CommandRegistry.Invoke | commandmaster.cpp:37 | calling a registered member runs that command's handler |
| CommandRegistry.RunIfHasOutcomes | commandmaster.cpp:32-39 | `runIfHas` finds a command exactly when the first token is one of the five names; a missing name makes no call; a proper prefix such as "c" is missing |
| CommandRegistry.CommandMaster.constructor | commandmaster.cpp:9-20 | the registry holds the five commands and the owner is the given view |
| CommandRegistry.CommandMaster.RunIfHas | commandmaster.cpp:32-39 | the result and the recorded calls are those of `RunIfHasCalls` |
| Completion.IsOneWordLine | commandcompletion.cpp:48-54 | a line is one word exactly when it contains no space (the empty line included) |
| Completion.NextMatch | commandcompletion.cpp:29-35 | the scan stops at the first name at or after the cursor that starts with the typed word, or at the end when there is none |
| Completion.SuggestionIsMatchOrWord | commandcompletion.cpp:25-38 | every suggestion is a registered name that starts with the typed word, or the typed word itself |
| Completion.Matches | commandcompletion.cpp:31 | the names that start with the typed word, exactly, and no more of them than there are names |
| Completion.MatchesKeepOrder | commandcompletion.cpp:29-35 | over names in strictly increasing order, as the `std::map` iterates them, the matches are strictly increasing too, so each is offered once and in registry order |
| Completion.SuggestionsAfterMatch | commandcompletion.cpp:29-35 | while a match is left, a suggestion is that match and the cursor moves just past it |
| Completion.SuggestionsAtEnd | commandcompletion.cpp:36-37 | with no match left, the suggestion is the typed word and the cursor goes back to the first name |
| Completion.CycleFrom | commandcompletion.cpp:25-38 | from any cursor, successive suggestions are every remaining match once in registry order, then the typed word, and the cursor is back at the first name |
| Completion.CycleRepeats | commandcompletion.cpp:25-38 | from the first name the suggestions repeat with period one more than the number of matches |
| Completion.CompletingC | commandcompletion.cpp:25-38 | with the registry, "c" completes to cd, then colorscheme, then back to "c" |
| Completion.CommandCompletion.constructor | commandcompletion.cpp:4-7 | a new completion is inactive with an empty word |
| Completion.CommandCompletion.IsActivated | commandcompletion.cpp:9-12 | reports whether a word is being completed |
| Completion.CommandCompletion.Activate | commandcompletion.cpp:14-23 | a one-word line is remembered and the cursor goes to the first name; any other line leaves the completion inactive and unchanged |
| Completion.CommandCompletion.GetNextSuggestion | commandcompletion.cpp:25-38 | the loop returns the next match and moves the cursor after it, or returns the typed word and moves the cursor to the first name |
| Completion.CommandCompletion.Deactivate | commandcompletion.cpp:40-46 | the completion becomes inactive and forgets the word |
| ViSemantics.StaticLetter | vimodel.h:159-171 | `StaticKey<letter>` is that letter with no modifier |
| ViSemantics.StaticModifiedLetter | vimodel.h:159-171 | `StaticKey<SHIFT or CONTROL, letter>` is that letter with exactly that flag set |
| ViSemantics.ModifiedChordsAreStaticKeys | vimodel.cpp:82-88 | the table's modified keys are `StaticKey<SHIFT, G>`, `StaticKey<SHIFT, D>` and `StaticKey<CONTROL, Q>` |
| ViSemantics.TableIsWellFormed | vimodel.cpp:76-88 | every registered chord has one or two keys and is bound to an operation other than NONE |
| ViSemantics.DispatchCoversTable | vimodel.cpp:90-102 | the dispatch table has COUNT slots; every registered operation finds a bound function in its slot; the only empty slots are NONE and the unbound SELECT_HIGH, SELECT_LOW and SELECT_MIDDLE |
| ViSemantics.ReportedOperationIsBound | vimodel.cpp:184-188 | whatever `handle` reports for the registered table is NONE or an operation with a bound slot, so the member-function call never goes through an empty slot |
| ViSemantics.PerformIgnoresPending | vimodel.cpp:184-191 | no operation reads or changes the pending chord |
| ViSemantics.Split | vimodel.cpp:221 | `split(' ', SkipEmptyParts)` gives nonempty tokens without spaces |
| ViSemantics.SplitKeepsNonSpaces | vimodel.cpp:221 | the tokens put back together are the line with its spaces removed |
| ViSemantics.SplitEmptyIffBlank | vimodel.cpp:221-223 | a line splits into no token exactly when it consists of spaces only |
| ViSemantics.SplitExample | vimodel.cpp:221 | "mkdir a  b" splits into mkdir, a, b |
| ViSemantics.KeptIsAtMostOneKey | vimodel.cpp:76-88 | with the registered table a kept chord has at most one key |
| ViSemantics.NonLetterKeepsPending | vimodel.cpp:161-195 | Escape, Colon, Slash and every other non-letter leave the pending chord as it was; a non-letter other than those three changes nothing |
| ViSemantics.LetterKeepsOrClears | vimodel.cpp:175-192 | a letter grows the pending chord, which is kept exactly when `handle` reports a match with no operation and is otherwise cleared; with no match nothing else happens |
| ViSemantics.ExactChordFires | vimodel.cpp:175-192 | a letter that completes a registered chord, the last one equal to it, runs the function in that operation's dispatch slot once and clears the chord |
| ViSemantics.KeyPressKeepsKept | vimodel.cpp:159-196 | from a kept chord every key press leaves a kept chord of at most one key, so the next `addKey` always has a free slot |
| ViSemantics.FeedKeepsKept | vimodel.cpp:159-196 | the same holds for any sequence of key presses |
| ViSemantics.PerformKeepsSearchLine | vimodel.cpp:268-343 | no operation changes the remembered search line |
| ViSemantics.KeyPressKeepsSearchLine | vimodel.cpp:159-196 | no key press changes the remembered search line |
| ViSemantics.FeedKeepsSearchLine | vimodel.cpp:159-196 | key presses never change the remembered search line; only a submitted search does |
| ViSemantics.NoOtherSingleKeyChord | vimodel.cpp:76-88 | a key outside the ten single-key chords is no whole chord |
| ViSemantics.FirstGIsKept | vimodel.cpp:81 | a g with nothing pending is kept as a partial match of gg and makes no call |
| ViSemantics.SecondGSelectsFirstRow | vimodel.cpp:298-301 | a g after a kept g selects row 0 and clears the chord |
| ViSemantics.GGSelectsFirstRow | vimodel.cpp:81 | gg selects row 0, makes no other call and leaves nothing pending |
| ViSemantics.EscapeDoesNotCancelChord | vimodel.cpp:162-164 | g, Escape, g switches back to normal mode and still selects row 0 |
| ViSemantics.NSearchesAgain | vimodel.cpp:319-322 | n forwards the remembered search line once |
| ViSemantics.SearchNextRepeats | vimodel.cpp:319-322 | k presses of n forward the remembered line k times |
| ViSemantics.SubmittedSearchIsReplayed | vimodel.cpp:230-239 | a submitted nonempty search line is remembered and forwarded once, and later presses of n forward that same line; an empty line only switches back to normal mode |
| ViSemantics.CommandLineOutcomes | vimodel.cpp:217-226 | a blank line does nothing; a registered first token runs that command with all the tokens; an unregistered one shows "Unknown command" for four seconds and makes no other call |
| ViSemantics.MkdirMakesEachName | vimodel.cpp:379-383 | `:mkdir` followed by names makes one directory per name, in the order given, and nothing else |
| ViSemantics.MkdirTwoDirectories | vimodel.cpp:379-383 | ":mkdir a  b" makes the directories a and b, in that order |
| ViSemantics.StrategyPersists | vimodel.cpp:198-203 | submitting a line leaves the installed strategy in place and does not touch the pending chord or the yanked path |
| ViSemantics.RenameIgnoresEmptyName | vimodel.cpp:324-331 | the rename strategy ignores an empty name and otherwise renames the file within its own directory |
| ViSemantics.PasteRenameAlwaysCopies | vimodel.cpp:241-247 | the paste-rename strategy always tries the copy into the current directory, an empty name included |
| ViSemantics.PasteOutcomes | vimodel.cpp:394-411 | nothing is pasted before a yank; otherwise the copy is tried, success is silent, and each failure ends in a status; only a taken destination installs the paste-rename strategy |
| ViSemantics.FirstYIsKept | vimodel.cpp:85 | a y with nothing pending is kept as a partial match of yy |
| ViSemantics.SecondYYanks | vimodel.cpp:309-312 | a y after a kept y remembers the current file as the path to paste |
| ViSemantics.PPastes | vimodel.cpp:314-317 | p with nothing pending runs the paste guard |
| ViSemantics.YankThenPaste | vimodel.cpp:85-86 | yy then p copies the current file into the current directory under its own name |
| ViSemantics.VStartsVisualMode | vimodel.cpp:249-252 | v switches multi-selection on |
| ViSemantics.VisualThenEscape | vimodel.cpp:205-213 | v then Escape switches multi-selection on and then off again, reselecting the current row |
| Vi.ViModel.constructor | vimodel.cpp:70-113 | the engine starts with the thirteen chords registered in order, the dispatch table bound, the five commands, nothing pending, no strategy, nothing yanked and no call made |
| Vi.RegisterChords | vimodel.cpp:76-88 | the normal mode holds exactly the registered table |
| Vi.RegisterNavigationChords | vimodel.cpp:76-82 | the first seven chords, v to G, are registered in order |
| Vi.RegisterFileChords | vimodel.cpp:83-88 | the last six chords, D to Control-q, follow them in order |
| Vi.BindOperations | vimodel.cpp:90-102 | the COUNT-slot array holds exactly the dispatch table |
| Vi.BindNavigation | vimodel.cpp:90-96 | slots 1 to 7 hold the mode and navigation functions, and slot 0 is unchanged |
| Vi.BindFileOperations | vimodel.cpp:97-102 | slots 11 to 16 hold the file, search and exit functions, and the other slots are unchanged |
| Vi.ViModel.SwitchToNormalMode | vimodel.cpp:205-213 | the file viewer is activated; in multi-selection the selection is switched off and the current row reselected |
| Vi.ViModel.SwitchToCommandMode | vimodel.cpp:215-228 | the command-line strategy is installed and the line input gets focus |
| Vi.ViModel.SwitchToSearchMode | vimodel.cpp:230-239 | the search strategy is installed and the line input gets focus |
| Vi.ViModel.SwitchToFileRenameMode | vimodel.cpp:241-247 | the paste-rename strategy is installed and the line input gets focus with the old name |
| Vi.ViModel.SwitchToVisualMode | vimodel.cpp:249-252 | multi-selection is switched on |
| Vi.ViModel.Exit | vimodel.cpp:254-257 | the application is asked to exit |
| Vi.ViModel.OpenCurrentDirectory | vimodel.cpp:268-271 | the view opens the current directory |
| Vi.ViModel.OpenParentDirectory | vimodel.cpp:273-276 | the view opens the parent directory |
| Vi.ViModel.SelectPrevious | vimodel.cpp:278-286 | with no current row (-1), row 0 is selected; otherwise the row above |
| Vi.ViModel.SelectNext | vimodel.cpp:288-296 | with no current row (-1), row 0 is selected; otherwise the row below |
| Vi.ViModel.SelectFirst | vimodel.cpp:298-301 | row 0 is selected |
| Vi.ViModel.SelectLast | vimodel.cpp:303-307 | the row at the row count minus one is selected |
| Vi.ViModel.YankFile | vimodel.cpp:309-312 | the current file becomes the path to paste |
| Vi.ViModel.Paste | vimodel.cpp:394-411 | the state becomes that of the paste guard |
| Vi.ViModel.PasteWithNewName | vimodel.cpp:413-424 | the copy under the new name is tried; on failure one status says whether the source is gone, the name is taken, or the error is unknown |
| Vi.ViModel.SearchNext | vimodel.cpp:319-322 | the search controller forwards the remembered line again |
| Vi.ViModel.RenameCurrent | vimodel.cpp:324-332 | the line input gets focus with the file's name, and the rename strategy for the current file is installed |
| Vi.ViModel.RemoveCurrent | vimodel.cpp:334-343 | the user is asked; on yes a directory is removed recursively and a file is removed |
| Vi.ViModel.Dispatch | vimodel.cpp:184-188 | the member-function call through the slot runs the operation the slot holds |
| Vi.ViModel.HandleKeyPress | vimodel.cpp:159-196 | the new state is `KeyPress` of the old one, and the pending chord stays a kept chord, so the array never overflows |
| Vi.ViModel.HandleLetter | vimodel.cpp:175-189 | a letter joins the pending chord; the new state is `Chord` of the old one, so the chord stays pending on a partial match and is cleared after the bound operation ran or when nothing matches |
| Vi.ViModel.RunIfHas | vimodel.cpp:259-266 | the result and the recorded calls are those of the registry lookup, with the handlers at vimodel.cpp:345-392 |
| Vi.ViModel.RunCommandLine | vimodel.cpp:217-226 | the command-line strategy: blank lines do nothing, and unknown commands show "Unknown command" |
| Vi.ViModel.HandleCommandEnter | vimodel.cpp:198-203 | the installed strategy runs on the line, then the engine switches to normal mode; the new state is `CommandEnter` of the old one |

## Left out

- **Out of the model.** The Qt widgets and windows: mainwindow.cpp, filemanager.cpp and platform.cpp are
  not part of this model. The view is the `View` class, which records calls and answers from a fixed
  `Environment`.
- **Host answers are fixed.** The filesystem and the view's answers (current row, row count, current
  file and directory, `QFileInfo` queries, `QFile::copy`, `changeDirectoryIfCan` and
  `showQuestion`) are fields of `Environment`. They stay fixed during a run, so the model does not
  capture how the host reacts to the engine's calls, such as the current row moving after
  `selectRow`.
- **Recorded calls.** `qApp->exit()` becomes the `ExitApplication` call and `Platform::open` becomes
  `PlatformOpen`. The `QFile::open` of `touch` becomes `CreateFile`. `QFile::rename`, `QFile::remove`
  and `removeRecursively` are recorded, and their results are ignored, as in the source.
- **Debug output.** The `qDebug` messages are left out.
- **Lambdas.** The line strategies are tagged values (`LineStrategy`) instead of lambdas. The by-value
  captures of the rename strategy are kept as the file path and its directory. The by-reference
  captures of the other three are read from the engine when the line is submitted.
- **`PasteFileCommand`.** It is folded into `ViModel`, because its only state is `pathCopy` and its
  owner is the engine.
- **The separator.** `QDir::separator()` is modelled as the constant `\`. On other platforms it is
  `/`, and no property depends on which.
- **Declared but unbound operations.** `selectHigh`, `selectLow` and `selectMiddle`, like
  `findHighRow` and its neighbours, are declared but not defined. Their operations SELECT_HIGH,
  SELECT_LOW and SELECT_MIDDLE have empty dispatch slots, and no chord reaches them.
- **Unused helpers.** `toStringg` (vimodel.cpp:11-30) is never called: `toString` (vimodel.cpp:33-60)
  repeats the same switch inline. `Keys.KeyText` models that shared switch once. The commented-out
  functions are not modelled. The unused view queries `isRowVisible` and `getCurrentDir` are left out.
- **`CommandCompletion.constructor`.** `commandIter` is left uninitialised by the source, and it is
  modelled as the first name. It is read only after `activate` sets it.
- **`Q_ASSERT` checks.** The `Q_ASSERT` of `Key::+=` is modelled as the absence of a key (`None`).
  The asserts of `handleCommandEnter`, `getNextSuggestion`, `deactivate` and `activate` are modelled
  as preconditions: the source aborts there in debug builds.
- **`Key::operator!=`.** It is the negation of `Keys.KeyEquals`, and the comparison loop uses it in
  that form.
- Vi.ViModel.SelectPrevious: does not model the 32-bit `int` arithmetic of `currRow - 1`, because
  rows are unbounded integers here and the view never reports row -2^31.
- Vi.ViModel.SelectNext: does not model the 32-bit wrap-around of `currRow + 1`, for the same reason.
- Vi.ViModel.SelectLast: does not model the 32-bit `int` of `rowCount - 1`.
- KeyMatching.KeySequence.GetLength: the source's `uint8_t` length is a `nat` here. It never exceeds
  four, so no truncation can occur.
