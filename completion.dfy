/**
 * Completion of command names (commandcompletion.h:6-25, commandcompletion.cpp:4-54): a cursor
 * over the registry that offers, one at a time, the names the typed word is a prefix of, and
 * then the typed word itself.
 */
module Completion {
  import opened CommandRegistry

  /** isOneWordLine (commandcompletion.cpp:48-54): the line has no space, searching from its end. */
  function IsOneWordLine(line: string): (r: bool)
    ensures r <==> ' ' !in line
  {
    if line == [] then true
    else line[|line| - 1] != ' ' && IsOneWordLine(line[..|line| - 1])
  }

  /** The first position at or after `from` whose name starts with prefix, or |names| if none does. */
  function NextMatch(names: seq<string>, prefix: string, from: nat): (r: nat)
    requires from <= |names|
    ensures from <= r <= |names|
    ensures r < |names| ==> prefix <= names[r]
    ensures forall j :: from <= j < r ==> !(prefix <= names[j])
    decreases |names| - from
  {
    if from == |names| then from
    else if prefix <= names[from] then from
    else NextMatch(names, prefix, from + 1)
  }

  /**
   * One getNextSuggestion step from a cursor: the next matching name and the position after it,
   * or, when the names are exhausted, the typed word and the position of the first name.
   */
  function Suggest(names: seq<string>, prefix: string, cursor: nat): (r: (string, nat))
    requires cursor <= |names|
    ensures r.1 <= |names|
  {
    var j := NextMatch(names, prefix, cursor);
    if j < |names| then (names[j], j + 1) else (prefix, 0)
  }

  /** Every suggestion is a name the typed word is a prefix of, or the typed word itself. */
  lemma SuggestionIsMatchOrWord(names: seq<string>, prefix: string, cursor: nat)
    requires cursor <= |names|
    ensures var s := Suggest(names, prefix, cursor).0; s == prefix || (s in names && prefix <= s)
  {
  }

  /** The names a word is a prefix of, in the order they are listed. */
  function Matches(names: seq<string>, prefix: string): (r: seq<string>)
    ensures forall s :: s in r ==> s in names && prefix <= s
    ensures forall s :: s in names && prefix <= s ==> s in r
    ensures |r| <= |names|
  {
    if names == [] then []
    else (if prefix <= names[0] then [names[0]] else []) + Matches(names[1..], prefix)
  }

  /**
   * Over names in strictly increasing order, as the registry's std::map iterates them, the
   * matches are strictly increasing too: each is offered once, in registry order.
   */
  lemma {:induction false} MatchesKeepOrder(names: seq<string>, prefix: string)
    requires StrictlySorted(names)
    ensures StrictlySorted(Matches(names, prefix))
  {
    if names != [] {
      var tail := names[1..];
      assert StrictlySorted(tail) by {
        forall i, j | 0 <= i < j < |tail| ensures LexLess(tail[i], tail[j]) {
          assert tail[i] == names[i + 1] && tail[j] == names[j + 1];
        }
      }
      MatchesKeepOrder(tail, prefix);
      var rest := Matches(tail, prefix);
      if prefix <= names[0] {
        forall x | x in rest ensures LexLess(names[0], x) {
          var k :| 0 <= k < |tail| && tail[k] == x;
          assert names[k + 1] == x;
        }
        var r := [names[0]] + rest;
        forall i, j | 0 <= i < j < |r| ensures LexLess(r[i], r[j]) {
          if i == 0 {
            assert r[j] == rest[j - 1] && r[j] in rest;
          } else {
            assert r[i] == rest[i - 1] && r[j] == rest[j - 1];
          }
        }
      } else {
        assert Matches(names, prefix) == rest;
      }
    }
  }

  /** k successive suggestions from a cursor, and the cursor they leave. */
  function Suggestions(names: seq<string>, prefix: string, cursor: nat, k: nat): (r: (seq<string>, nat))
    requires cursor <= |names|
    ensures |r.0| == k && r.1 <= |names|
    decreases k
  {
    if k == 0 then ([], cursor)
    else
      var step := Suggest(names, prefix, cursor);
      var rest := Suggestions(names, prefix, step.1, k - 1);
      ([step.0] + rest.0, rest.1)
  }

  /** The matches from a cursor on are the next match followed by the matches after it. */
  lemma {:induction false} MatchesFromCursor(names: seq<string>, prefix: string, cursor: nat)
    requires cursor <= |names|
    ensures var j := NextMatch(names, prefix, cursor);
      if j < |names| then Matches(names[cursor..], prefix) == [names[j]] + Matches(names[j + 1..], prefix)
      else Matches(names[cursor..], prefix) == []
    decreases |names| - cursor
  {
    if cursor < |names| {
      var rest := names[cursor..];
      assert rest[0] == names[cursor] && rest[1..] == names[cursor + 1..];
      if !(prefix <= names[cursor]) {
        MatchesFromCursor(names, prefix, cursor + 1);
      }
    }
  }

  /** The first of k > 0 successive suggestions is one Suggest step. */
  lemma SuggestionsStep(names: seq<string>, prefix: string, cursor: nat, k: nat)
    requires cursor <= |names| && k > 0
    ensures var step := Suggest(names, prefix, cursor);
      var rest := Suggestions(names, prefix, step.1, k - 1);
      Suggestions(names, prefix, cursor, k).0 == [step.0] + rest.0 &&
      Suggestions(names, prefix, cursor, k).1 == rest.1
  {
  }

  /** When a match is left, k + 1 suggestions are that match followed by k from just after it. */
  lemma SuggestionsAfterMatch(names: seq<string>, prefix: string, cursor: nat, k: nat)
    requires cursor <= |names| && NextMatch(names, prefix, cursor) < |names|
    ensures var j := NextMatch(names, prefix, cursor);
      var rest := Suggestions(names, prefix, j + 1, k);
      Suggestions(names, prefix, cursor, k + 1) == ([names[j]] + rest.0, rest.1)
  {
  }

  /** When no match is left, the one suggestion is the typed word, and the cursor goes back to 0. */
  lemma SuggestionsAtEnd(names: seq<string>, prefix: string, cursor: nat)
    requires cursor <= |names| && NextMatch(names, prefix, cursor) == |names|
    ensures Suggestions(names, prefix, cursor, 1) == ([prefix], 0)
  {
    assert Suggestions(names, prefix, 0, 0) == ([], 0);
    assert [prefix] + [] == [prefix];
  }

  /**
   * From any cursor, one more call than there are matches left returns each remaining match
   * once, in registry order, then the typed word, and leaves the cursor on the first name.
   */
  lemma {:induction false} CycleFrom(names: seq<string>, prefix: string, cursor: nat)
    requires cursor <= |names|
    ensures var m := Matches(names[cursor..], prefix);
      Suggestions(names, prefix, cursor, |m| + 1).0 == m + [prefix] &&
      Suggestions(names, prefix, cursor, |m| + 1).1 == 0
    decreases |names| - cursor
  {
    MatchesFromCursor(names, prefix, cursor);
    var j := NextMatch(names, prefix, cursor);
    if j < |names| {
      var m' := Matches(names[j + 1..], prefix);
      CycleFrom(names, prefix, j + 1);
      SuggestionsAfterMatch(names, prefix, cursor, |m'| + 1);
      assert [names[j]] + (m' + [prefix]) == ([names[j]] + m') + [prefix];
    } else {
      SuggestionsAtEnd(names, prefix, cursor);
    }
  }

  /** k successive suggestions followed by l more are k + l successive suggestions. */
  lemma {:induction false} SuggestionsConcatenate(names: seq<string>, prefix: string, cursor: nat, k: nat, l: nat)
    requires cursor <= |names|
    ensures var first := Suggestions(names, prefix, cursor, k);
      var second := Suggestions(names, prefix, first.1, l);
      Suggestions(names, prefix, cursor, k + l) == (first.0 + second.0, second.1)
    decreases k
  {
    if k > 0 {
      var step := Suggest(names, prefix, cursor);
      var rest := Suggestions(names, prefix, step.1, k - 1);
      var second := Suggestions(names, prefix, rest.1, l);
      var all := Suggestions(names, prefix, step.1, k - 1 + l);
      assert Suggestions(names, prefix, cursor, k) == ([step.0] + rest.0, rest.1) by {
        SuggestionsStep(names, prefix, cursor, k);
      }
      assert Suggestions(names, prefix, cursor, k + l) == ([step.0] + all.0, all.1) by {
        SuggestionsStep(names, prefix, cursor, k + l);
        assert k + l - 1 == k - 1 + l;
      }
      assert all == (rest.0 + second.0, second.1) by {
        SuggestionsConcatenate(names, prefix, step.1, k - 1, l);
      }
      assert [step.0] + (rest.0 + second.0) == ([step.0] + rest.0) + second.0;
    } else {
      assert [] + Suggestions(names, prefix, cursor, l).0 == Suggestions(names, prefix, cursor, l).0;
    }
  }

  /**
   * Starting from the first name, with n matches the suggestions repeat with period n + 1:
   * each match in registry order, then the typed word, then the same again.
   */
  lemma CycleRepeats(names: seq<string>, prefix: string, k: nat)
    ensures var m := Matches(names, prefix);
      Suggestions(names, prefix, 0, |m| + 1 + k).0 == m + [prefix] + Suggestions(names, prefix, 0, k).0 &&
      Suggestions(names, prefix, 0, |m| + 1 + k).1 == Suggestions(names, prefix, 0, k).1
  {
    assert names[0..] == names;
    CycleFrom(names, prefix, 0);
    SuggestionsConcatenate(names, prefix, 0, |Matches(names, prefix)| + 1, k);
  }

  /** With the registry, "c" completes to cd, then colorscheme, then back to "c". */
  lemma CompletingC()
    ensures Matches(RegistryNames, "c") == ["cd", "colorscheme"]
    ensures Suggestions(RegistryNames, "c", 0, 3).0 == ["cd", "colorscheme", "c"]
    ensures Suggestions(RegistryNames, "c", 0, 3).1 == 0
  {
    assert "c" <= "cd" && "c" <= "colorscheme";
    assert "mkdir"[0] != 'c' && "open"[0] != 'c' && "touch"[0] != 'c';
    assert RegistryNames[0..] == RegistryNames;
    CycleFrom(RegistryNames, "c", 0);
  }

  /** CommandCompletion (commandcompletion.h:6-25). */
  class CommandCompletion {
    const commandContainer: CommandMaster
    var initialString: string
    /** The position of commandIter among the container's names; |names| stands for cend(). */
    var commandIter: nat
    var activated: bool

    ghost predicate Valid()
      reads this
    {
      commandIter <= |commandContainer.names|
    }

    /** The constructor (commandcompletion.cpp:4-7): inactive, with an empty word. */
    constructor (commandMaster: CommandMaster)
      ensures commandContainer == commandMaster && !activated && initialString == ""
      ensures Valid()
    {
      commandContainer := commandMaster;
      initialString := "";
      commandIter := 0;
      activated := false;
    }

    /** isActivated (commandcompletion.cpp:9-12). */
    function IsActivated(): (r: bool)
      reads this
      ensures r == activated
    {
      activated
    }

    /**
     * activate (commandcompletion.cpp:14-23): a one-word line is remembered and the cursor goes
     * to the first name; any other line leaves the cycler as it was.
     */
    method Activate(line: string)
      requires Valid() && !activated
      modifies this
      ensures Valid()
      ensures IsOneWordLine(line) ==> activated && initialString == line && commandIter == 0
      ensures !IsOneWordLine(line) ==>
        !activated && initialString == old(initialString) && commandIter == old(commandIter)
    {
      if !IsOneWordLine(line) {
        return;
      }
      activated := true;
      initialString := line;
      commandIter := 0;
    }

    /** getNextSuggestion (commandcompletion.cpp:25-38): one Suggest step over the container's names. */
    method GetNextSuggestion() returns (suggestion: string)
      requires Valid() && activated
      modifies this
      ensures Valid() && activated && initialString == old(initialString)
      ensures (suggestion, commandIter) == Suggest(commandContainer.names, initialString, old(commandIter))
    {
      var names := commandContainer.names;
      while commandIter < |names|
        invariant old(commandIter) <= commandIter <= |names|
        invariant activated && initialString == old(initialString)
        invariant NextMatch(names, initialString, old(commandIter)) == NextMatch(names, initialString, commandIter)
        decreases |names| - commandIter
      {
        var name := names[commandIter];
        if initialString <= name {
          commandIter := commandIter + 1;
          return name;
        }
        commandIter := commandIter + 1;
      }
      commandIter := 0;
      return initialString;
    }

    /** deactivate (commandcompletion.cpp:40-46): inactive again, with the word forgotten. */
    method Deactivate()
      requires Valid() && activated
      modifies this
      ensures Valid() && !activated && initialString == "" && commandIter == old(commandIter)
    {
      activated := false;
      initialString := "";
    }
  }
}
