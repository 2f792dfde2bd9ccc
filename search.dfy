/** The search memory (searchcontroller.h:12-21, searchcontroller.cpp:4-18). */
module Search {
  import opened HostModel

  /** SearchController: the last line searched for, replayed to the owner on demand. */
  class SearchController {
    const owner: View
    var lastSearchLine: string

    /** The constructor (searchcontroller.cpp:4-7): nothing has been searched for yet. */
    constructor (owner: View)
      ensures this.owner == owner && lastSearchLine == ""
    {
      this.owner := owner;
      lastSearchLine := "";
    }

    /** enterSearchLine (searchcontroller.cpp:9-13): remembers the line, then searches for it once. */
    method EnterSearchLine(line: string)
      modifies this, owner
      ensures lastSearchLine == line
      ensures owner.trace == old(owner.trace) + [SearchForward(line)]
      ensures owner.multiSelection == old(owner.multiSelection)
    {
      lastSearchLine := line;
      owner.Call(SearchForward(lastSearchLine));
    }

    /** searchNext (searchcontroller.cpp:15-18): searches again for the remembered line. */
    method SearchNext()
      modifies owner
      ensures owner.trace == old(owner.trace) + [SearchForward(lastSearchLine)]
      ensures owner.multiSelection == old(owner.multiSelection)
    {
      owner.Call(SearchForward(lastSearchLine));
    }
  }
}
