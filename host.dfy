/**
 * The host the engine drives: the view interfaces IViView, ICommandMasterOwner and
 * ISearchControllerOwner (vimodel.h:55-95, commandmaster.h:6-13, searchcontroller.h:6-9) and the
 * Qt filesystem and application calls made from vimodel.cpp and commandmaster.cpp.
 *
 * Every call the engine makes is appended to a trace. What the host answers comes from a fixed
 * environment: the engine only branches on those answers, it never computes them.
 */
module HostModel {
  /** One call the engine makes on its host, with its arguments. */
  datatype HostCall =
    | SelectRow(row: int)
    | Mkdir(name: string)
    | ShowStatus(message: string, timeout: int)
    | SearchForward(line: string)
    | ChangeDirectoryIfCan(path: string)
    | SetColorSchemeName(name: string)
    | OpenCurrentDirectory
    | OpenParentDirectory
    | FocusToCommandLine(text: string)
    | ActivateFileViewer
    | SetMultiSelectionEnabled(enabled: bool)
    | ShowQuestion(text: string)
    | CreateFile(path: string)
    | RenameFile(source: string, target: string)
    | RemoveFile(path: string)
    | RemoveRecursively(path: string)
    | CopyFile(source: string, target: string)
    | PlatformOpen(path: string)
    | ExitApplication

  /**
   * What the host reports: the view's rows, current file and directory, and the answers of the
   * filesystem queries (QFileInfo::isRelative, absoluteFilePath, fileName, path, isDir, exists),
   * of QFile::copy, of changeDirectoryIfCan and of the removal question.
   */
  datatype Environment = Environment(
    currentRow: int,
    rowCount: int,
    currentFile: string,
    currentDirectory: string,
    isRelative: string -> bool,
    absolutePath: string -> string,
    fileName: string -> string,
    directoryOf: string -> string,
    directories: set<string>,
    existing: set<string>,
    copies: (string, string) -> bool,
    enterable: set<string>,
    confirmsRemoval: bool)

  /** The host: its fixed answers, the calls made on it so far and its multi-selection flag. */
  class View {
    const env: Environment
    var trace: seq<HostCall>
    var multiSelection: bool

    constructor (env: Environment, multiSelection: bool)
      ensures this.env == env && trace == [] && this.multiSelection == multiSelection
    {
      this.env := env;
      trace := [];
      this.multiSelection := multiSelection;
    }

    /** A call with no answer: it is recorded and nothing else changes. */
    method Call(c: HostCall)
      modifies this
      ensures trace == old(trace) + [c] && multiSelection == old(multiSelection)
    {
      trace := trace + [c];
    }

    /** isMultiSelectionEnabled. */
    function IsMultiSelectionEnabled(): (r: bool)
      reads this
      ensures r == multiSelection
    {
      multiSelection
    }

    /** setMultiSelectionEnabled: recorded, and the flag takes the new value. */
    method SetMultiSelection(enabled: bool)
      modifies this
      ensures trace == old(trace) + [SetMultiSelectionEnabled(enabled)] && multiSelection == enabled
    {
      trace := trace + [SetMultiSelectionEnabled(enabled)];
      multiSelection := enabled;
    }

    /** changeDirectoryIfCan: recorded; it succeeds for the directories the host can enter. */
    method ChangeDirectory(path: string) returns (ok: bool)
      modifies this
      ensures trace == old(trace) + [ChangeDirectoryIfCan(path)] && multiSelection == old(multiSelection)
      ensures ok <==> path in env.enterable
    {
      trace := trace + [ChangeDirectoryIfCan(path)];
      ok := path in env.enterable;
    }

    /** showQuestion: recorded, with the user's fixed answer. */
    method Ask(text: string) returns (yes: bool)
      modifies this
      ensures trace == old(trace) + [ShowQuestion(text)] && multiSelection == old(multiSelection)
      ensures yes == env.confirmsRemoval
    {
      trace := trace + [ShowQuestion(text)];
      yes := env.confirmsRemoval;
    }

    /** QFile::copy: recorded, with the filesystem's answer. */
    method Copy(source: string, target: string) returns (ok: bool)
      modifies this
      ensures trace == old(trace) + [CopyFile(source, target)] && multiSelection == old(multiSelection)
      ensures ok == env.copies(source, target)
    {
      trace := trace + [CopyFile(source, target)];
      ok := env.copies(source, target);
    }
  }
}
