/**
 * The textual-command registry and its handlers (commandmaster.h:23-44, commandmaster.cpp:9-88).
 * The same table and the same handlers are repeated in ViModel (vimodel.cpp:104-110, 259-266
 * and 345-392); both use the definitions here.
 */
module CommandRegistry {
  import opened HostModel
  import opened Util

  /** The handlers a name can be bound to. */
  datatype Command = ChangeDirectory | CreateEmptyFile | OpenFile | MakeDirectory | SetColorScheme

  /** The registry built by the constructor (commandmaster.cpp:13-19). */
  const Registry: map<string, Command> := map[
    "cd" := ChangeDirectory,
    "touch" := CreateEmptyFile,
    "open" := OpenFile,
    "mkdir" := MakeDirectory,
    "colorscheme" := SetColorScheme]

  /** QString's operator< (commandmaster.h:17-20): lexicographic order on code units. */
  predicate LexLess(a: string, b: string)
  {
    b != [] && (a == [] || a[0] < b[0] || (a[0] == b[0] && LexLess(a[1..], b[1..])))
  }

  lemma {:induction false} LexLessIrreflexive(a: string)
    ensures !LexLess(a, a)
  {
    if a != [] {
      LexLessIrreflexive(a[1..]);
    }
  }

  lemma {:induction false} LexLessTransitive(a: string, b: string, c: string)
    requires LexLess(a, b) && LexLess(b, c)
    ensures LexLess(a, c)
  {
    if a != [] && a[0] == b[0] && b[0] == c[0] {
      LexLessTransitive(a[1..], b[1..], c[1..]);
    }
  }

  lemma {:induction false} LexLessTotal(a: string, b: string)
    requires a != b
    ensures LexLess(a, b) || LexLess(b, a)
  {
    if a != [] && b != [] && a[0] == b[0] {
      assert a == [a[0]] + a[1..] && b == [b[0]] + b[1..];
      LexLessTotal(a[1..], b[1..]);
    }
  }

  /** Strictly increasing: the order std::map visits its keys in. */
  predicate StrictlySorted(s: seq<string>)
  {
    forall i, j :: 0 <= i < j < |s| ==> LexLess(s[i], s[j])
  }

  /** The registry's names in iteration order, which is not the order they were inserted in. */
  const RegistryNames: seq<string> := ["cd", "colorscheme", "mkdir", "open", "touch"]

  lemma RegistryNamesAreTheKeys()
    ensures StrictlySorted(RegistryNames)
    ensures forall n :: n in RegistryNames <==> n in Registry
  {
  }

  /** The first element of a strictly sorted sequence precedes every other one. */
  lemma {:induction false} HeadIsLeast(s: seq<string>, x: string)
    requires StrictlySorted(s) && s != [] && x in s && x != s[0]
    ensures LexLess(s[0], x)
  {
    var i :| 0 <= i < |s| && s[i] == x;
    assert i != 0;
  }

  lemma FirstIsMember(s: seq<string>)
    ensures s != [] ==> s[0] in s
  {
  }

  /** Two strictly increasing enumerations of the same names are the same sequence. */
  lemma {:induction false} SortedEnumerationIsUnique(s1: seq<string>, s2: seq<string>)
    requires StrictlySorted(s1) && StrictlySorted(s2)
    requires forall n :: n in s1 <==> n in s2
    ensures s1 == s2
    decreases |s1|
  {
    if s1 == [] {
      if s2 != [] {
        FirstIsMember(s2);
        assert false;
      }
    } else {
      assert s1[0] in s2;
      assert s2 != [];
      if s1[0] != s2[0] {
        HeadIsLeast(s1, s2[0]);
        HeadIsLeast(s2, s1[0]);
        LexLessTransitive(s1[0], s2[0], s1[0]);
        LexLessIrreflexive(s1[0]);
      }
      forall n
        ensures n in s1[1..] <==> n in s2[1..]
      {
        if n in s1[1..] {
          var i :| 1 <= i < |s1| && s1[i] == n;
          assert LexLess(s1[0], n);
          LexLessIrreflexive(n);
          assert n in s2;
          var j :| 0 <= j < |s2| && s2[j] == n;
          assert j != 0;
        }
        if n in s2[1..] {
          var j :| 1 <= j < |s2| && s2[j] == n;
          assert LexLess(s2[0], n);
          LexLessIrreflexive(n);
          assert n in s1;
          var i :| 0 <= i < |s1| && s1[i] == n;
          assert i != 0;
        }
      }
      SortedEnumerationIsUnique(s1[1..], s2[1..]);
      assert s1 == [s1[0]] + s1[1..] && s2 == [s2[0]] + s2[1..];
    }
  }

  /** Iterating the registry visits exactly RegistryNames, in that order. */
  lemma RegistryIterationOrder(s: seq<string>)
    requires StrictlySorted(s) && forall n :: n in s <==> n in Registry
    ensures s == RegistryNames
  {
    RegistryNamesAreTheKeys();
    SortedEnumerationIsUnique(s, RegistryNames);
  }

  /** Lookup is exact (commandmaster.cpp:34): no proper prefix of a registered name is registered. */
  lemma ProperPrefixIsNotRegistered(name: string, prefix: string)
    requires name in Registry && prefix < name
    ensures prefix !in Registry
  {
    // The registered names already differ in their first two characters.
    PrefixSharesHead(prefix, name);
  }

  lemma PrefixSharesHead(prefix: string, name: string)
    ensures prefix < name && |prefix| >= 2 ==> prefix[0] == name[0] && prefix[1] == name[1]
  {
  }

  /** The tokens after the command name, the handlers' loop range 1..n-1. */
  function Arguments(args: seq<string>): (r: seq<string>)
    ensures |r| == if args == [] then 0 else |args| - 1
    ensures forall i :: 1 <= i < |args| ==> r[i - 1] == args[i]
  {
    if args == [] then [] else args[1..]
  }

  /** The mkdir calls for a list of names, in order. */
  function MkdirCalls(names: seq<string>): (r: seq<HostCall>)
    ensures |r| == |names|
    ensures forall i :: 0 <= i < |names| ==> r[i] == Mkdir(names[i])
  {
    if names == [] then [] else MkdirCalls(names[..|names| - 1]) + [Mkdir(names[|names| - 1])]
  }

  lemma MkdirCallsOfTwo(a: string, b: string)
    ensures MkdirCalls([a, b]) == [Mkdir(a), Mkdir(b)]
  {
    assert [a, b][..1] == [a];
  }

  /** The files created for a list of names, each under the given directory, in order. */
  function CreateFileCalls(directory: string, names: seq<string>): (r: seq<HostCall>)
    ensures |r| == |names|
    ensures forall i :: 0 <= i < |names| ==> r[i] == CreateFile(Join(directory, names[i]))
  {
    if names == [] then []
    else CreateFileCalls(directory, names[..|names| - 1]) + [CreateFile(Join(directory, names[|names| - 1]))]
  }

  const InvalidSignature: string := "Invalid command signature"
  const TargetMissing: string := "Target directory does not exist"
  const UnexpectedError: string := "Unexpected error"

  /** The path changeDirectory checks for existence: a relative argument is taken under the current directory. */
  function TargetPath(env: Environment, path: string): string
  {
    if env.isRelative(path) then Join(env.currentDirectory, path) else path
  }

  /** The path changeDirectory hands to the host: a relative argument is made absolute first. */
  function NewDirectoryPath(env: Environment, path: string): string
  {
    if env.isRelative(path) then env.absolutePath(TargetPath(env, path)) else path
  }

  /** The calls changeDirectory makes (commandmaster.cpp:50-68). */
  function ChangeDirectoryCalls(env: Environment, args: seq<string>): seq<HostCall>
  {
    if |args| != 2 then [ShowStatus(InvalidSignature, 4)]
    else if TargetPath(env, args[1]) !in env.existing then [ShowStatus(TargetMissing, 4)]
    else
      var path := NewDirectoryPath(env, args[1]);
      [ChangeDirectoryIfCan(path)] + (if path in env.enterable then [] else [ShowStatus(UnexpectedError, 4)])
  }

  /** The calls setColorScheme makes (commandmaster.cpp:81-88). */
  function SetColorSchemeCalls(args: seq<string>): seq<HostCall>
  {
    if |args| != 2 then [ShowStatus(InvalidSignature, 4)] else [SetColorSchemeName(args[|args| - 1])]
  }

  /** The calls a handler makes for a token list. */
  function CommandCalls(env: Environment, command: Command, args: seq<string>): seq<HostCall>
  {
    match command
    case ChangeDirectory => ChangeDirectoryCalls(env, args)
    case CreateEmptyFile => CreateFileCalls(env.currentDirectory, Arguments(args))
    case OpenFile => [PlatformOpen(env.currentFile)]
    case MakeDirectory => MkdirCalls(Arguments(args))
    case SetColorScheme => SetColorSchemeCalls(args)
  }

  /**
   * The two handlers that check their arity reject any count other than two with one status
   * message and no other call.
   */
  lemma WrongArityIsRejected(env: Environment, args: seq<string>)
    requires |args| != 2
    ensures CommandCalls(env, ChangeDirectory, args) == [ShowStatus(InvalidSignature, 4)]
    ensures CommandCalls(env, SetColorScheme, args) == [ShowStatus(InvalidSignature, 4)]
  {
  }

  /**
   * changeDirectory's failures: a missing target is reported without trying to enter it, and a
   * refused change is reported after the attempt; an accepted change is the only call.
   */
  lemma ChangeDirectoryOutcomes(env: Environment, args: seq<string>)
    requires |args| == 2
    ensures TargetPath(env, args[1]) !in env.existing ==>
      CommandCalls(env, ChangeDirectory, args) == [ShowStatus(TargetMissing, 4)]
    ensures TargetPath(env, args[1]) in env.existing ==>
      var path := NewDirectoryPath(env, args[1]);
      CommandCalls(env, ChangeDirectory, args)[0] == ChangeDirectoryIfCan(path) &&
      (path in env.enterable <==> |CommandCalls(env, ChangeDirectory, args)| == 1)
    ensures forall c :: c in CommandCalls(env, ChangeDirectory, args) && c.ChangeDirectoryIfCan? ==>
      TargetPath(env, args[1]) in env.existing
  {
  }

  /** setColorScheme hands the last token to the host as it is. */
  lemma SetColorSchemePassesLastToken(env: Environment, args: seq<string>)
    requires |args| == 2
    ensures CommandCalls(env, SetColorScheme, args) == [SetColorSchemeName(args[1])]
  {
  }

  /** mkdir and touch act on the tokens after the name, in order, and never on the name itself. */
  lemma LoopHandlersSkipTheName(env: Environment, args: seq<string>)
    ensures |CommandCalls(env, MakeDirectory, args)| == |Arguments(args)|
    ensures |CommandCalls(env, CreateEmptyFile, args)| == |Arguments(args)|
    ensures forall i :: 1 <= i < |args| ==>
      CommandCalls(env, MakeDirectory, args)[i - 1] == Mkdir(args[i]) &&
      CommandCalls(env, CreateEmptyFile, args)[i - 1] == CreateFile(Join(env.currentDirectory, args[i]))
  {
  }

  /** createEmptyFile (commandmaster.cpp:41-48): one empty file per argument, under the current directory. */
  method CreateEmptyFileHandler(owner: View, args: seq<string>)
    modifies owner
    ensures owner.trace == old(owner.trace) + CommandCalls(owner.env, CreateEmptyFile, args)
    ensures owner.multiSelection == old(owner.multiSelection)
  {
    var currDir := owner.env.currentDirectory;
    var names := Arguments(args);
    var i := 1;
    while i < |args|
      invariant 1 <= i <= |names| + 1
      invariant owner.trace == old(owner.trace) + CreateFileCalls(currDir, names[..i - 1])
      invariant owner.multiSelection == old(owner.multiSelection)
    {
      assert names[..i][..i - 1] == names[..i - 1];
      owner.Call(CreateFile(Join(currDir, args[i])));
      i := i + 1;
    }
    assert names[..i - 1] == names;
  }

  /** changeDirectory (commandmaster.cpp:50-68). */
  method ChangeDirectoryHandler(owner: View, args: seq<string>)
    modifies owner
    ensures owner.trace == old(owner.trace) + CommandCalls(owner.env, ChangeDirectory, args)
    ensures owner.multiSelection == old(owner.multiSelection)
  {
    if |args| != 2 {
      owner.Call(ShowStatus(InvalidSignature, 4));
      return;
    }
    var newDirPath := args[1];
    var newDirInfo := newDirPath;
    if owner.env.isRelative(newDirPath) {
      newDirInfo := Join(owner.env.currentDirectory, newDirPath);
      newDirPath := owner.env.absolutePath(newDirInfo);
    }
    if newDirInfo !in owner.env.existing {
      owner.Call(ShowStatus(TargetMissing, 4));
      return;
    }
    var ok := owner.ChangeDirectory(newDirPath);
    if !ok {
      owner.Call(ShowStatus(UnexpectedError, 4));
    }
  }

  /** openFile (commandmaster.cpp:70-73): the current file goes to the platform's opener. */
  method OpenFileHandler(owner: View, args: seq<string>)
    modifies owner
    ensures owner.trace == old(owner.trace) + CommandCalls(owner.env, OpenFile, args)
    ensures owner.multiSelection == old(owner.multiSelection)
  {
    owner.Call(PlatformOpen(owner.env.currentFile));
  }

  /** makeDirectory (commandmaster.cpp:75-79): one mkdir per argument. */
  method MakeDirectoryHandler(owner: View, args: seq<string>)
    modifies owner
    ensures owner.trace == old(owner.trace) + CommandCalls(owner.env, MakeDirectory, args)
    ensures owner.multiSelection == old(owner.multiSelection)
  {
    var names := Arguments(args);
    var i := 1;
    while i < |args|
      invariant 1 <= i <= |names| + 1
      invariant owner.trace == old(owner.trace) + MkdirCalls(names[..i - 1])
      invariant owner.multiSelection == old(owner.multiSelection)
    {
      assert names[..i][..i - 1] == names[..i - 1];
      owner.Call(Mkdir(args[i]));
      i := i + 1;
    }
    assert names[..i - 1] == names;
  }

  /** setColorScheme (commandmaster.cpp:81-88). */
  method SetColorSchemeHandler(owner: View, args: seq<string>)
    modifies owner
    ensures owner.trace == old(owner.trace) + CommandCalls(owner.env, SetColorScheme, args)
    ensures owner.multiSelection == old(owner.multiSelection)
  {
    if |args| != 2 {
      owner.Call(ShowStatus(InvalidSignature, 4));
      return;
    }
    owner.Call(SetColorSchemeName(args[|args| - 1]));
  }

  /** (this->*(iter->second))(args): the handler bound to a name, applied to the whole token list. */
  method Invoke(owner: View, command: Command, args: seq<string>)
    modifies owner
    ensures owner.trace == old(owner.trace) + CommandCalls(owner.env, command, args)
    ensures owner.multiSelection == old(owner.multiSelection)
  {
    match command
    case ChangeDirectory => ChangeDirectoryHandler(owner, args);
    case CreateEmptyFile => CreateEmptyFileHandler(owner, args);
    case OpenFile => OpenFileHandler(owner, args);
    case MakeDirectory => MakeDirectoryHandler(owner, args);
    case SetColorScheme => SetColorSchemeHandler(owner, args);
  }

  /** What runIfHas does: whether the first token is registered, and the calls its handler makes. */
  function RunIfHasCalls(env: Environment, args: seq<string>): (r: (bool, seq<HostCall>))
    requires |args| > 0
  {
    if args[0] in Registry then (true, CommandCalls(env, Registry[args[0]], args)) else (false, [])
  }

  /**
   * runIfHas either finds the first token and runs exactly that handler once, or reports it
   * missing and makes no call at all; a proper prefix of a name, such as "c", is missing.
   */
  lemma RunIfHasOutcomes(env: Environment, args: seq<string>)
    requires |args| > 0
    ensures RunIfHasCalls(env, args).0 <==> args[0] in RegistryNames
    ensures !RunIfHasCalls(env, args).0 ==> RunIfHasCalls(env, args).1 == []
    ensures args[0] == "c" ==> RunIfHasCalls(env, args) == (false, [])
  {
    RegistryNamesAreTheKeys();
  }

  /** CommandMaster (commandmaster.h:23-44). */
  class CommandMaster {
    const owner: View
    const commands: map<string, Command>
    /** The keys of commands in the order cbegin()..cend() visits them. */
    const names: seq<string>

    /** The constructor (commandmaster.cpp:9-20). */
    constructor (owner: View)
      ensures this.owner == owner && commands == Registry && names == RegistryNames
    {
      this.owner := owner;
      commands := Registry;
      names := RegistryNames;
    }

    /** runIfHas (commandmaster.cpp:32-39); QStringList::first needs a token. */
    method RunIfHas(args: seq<string>) returns (found: bool)
      requires |args| > 0 && commands == Registry
      modifies owner
      ensures found == RunIfHasCalls(owner.env, args).0
      ensures owner.trace == old(owner.trace) + RunIfHasCalls(owner.env, args).1
      ensures owner.multiSelection == old(owner.multiSelection)
    {
      if args[0] !in commands {
        assert owner.trace == old(owner.trace) + [];
        return false;
      }
      Invoke(owner, commands[args[0]], args);
      return true;
    }
  }
}
