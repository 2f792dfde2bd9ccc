/**
 * Normal mode: the registration-ordered list of (operation, chord) pairs, the pending key
 * sequence, and the fold of compare over every chord (vimodel.h:10-30 and 209-239,
 * vimodel.cpp:472-525).
 */
module NormalModes {
  import Keys
  import opened KeyMatching

  /** ENormalOperation, in declaration order (vimodel.h:10-30). */
  datatype ENormalOperation =
    | NONE | VISUAL_MODE | OPEN_PARENT_DIRECTORY | OPEN_CURRENT_DIRECTORY
    | SELECT_NEXT | SELECT_PREVIOUS | SELECT_FIRST | SELECT_LAST
    | SELECT_HIGH | SELECT_LOW | SELECT_MIDDLE
    | DELETE_FILE | RENAME_FILE | YANK_FILE | PASTE_FILE | SEARCH_NEXT | EXIT
    | COUNT

  /** static_cast<int>(ENormalOperation::COUNT): the size of the dispatch table. */
  const OperationCount: nat := 17

  /** static_cast<size_t>(operation): every enumerator but COUNT is a valid table index. */
  function Index(op: ENormalOperation): (r: nat)
    ensures op == COUNT <==> r == OperationCount
    ensures op != COUNT ==> r < OperationCount
  {
    match op
    case NONE => 0 case VISUAL_MODE => 1 case OPEN_PARENT_DIRECTORY => 2
    case OPEN_CURRENT_DIRECTORY => 3 case SELECT_NEXT => 4 case SELECT_PREVIOUS => 5
    case SELECT_FIRST => 6 case SELECT_LAST => 7 case SELECT_HIGH => 8 case SELECT_LOW => 9
    case SELECT_MIDDLE => 10 case DELETE_FILE => 11 case RENAME_FILE => 12 case YANK_FILE => 13
    case PASTE_FILE => 14 case SEARCH_NEXT => 15 case EXIT => 16
    case COUNT => 17
  }

  /** Distinct enumerators have distinct indices, so each table slot belongs to one operation. */
  lemma {:induction false} IndexIsInjective(a: ENormalOperation, b: ENormalOperation)
    ensures Index(a) == Index(b) ==> a == b
  {
    match a
    case NONE => case VISUAL_MODE => case OPEN_PARENT_DIRECTORY => case OPEN_CURRENT_DIRECTORY =>
    case SELECT_NEXT => case SELECT_PREVIOUS => case SELECT_FIRST => case SELECT_LAST =>
    case SELECT_HIGH => case SELECT_LOW => case SELECT_MIDDLE => case DELETE_FILE =>
    case RENAME_FILE => case YANK_FILE => case PASTE_FILE => case SEARCH_NEXT => case EXIT =>
    case COUNT =>
  }

  /** NormalOperation (vimodel.h:209-218): an operation and the chord bound to it, held by value. */
  datatype NormalOperation = NormalOperation(operation: ENormalOperation, keySequence: seq<Keys.Key>)

  /** NormalMode::Status (vimodel.h:227): whether some chord still matches, and the operation to run. */
  datatype Status = Status(matched: bool, operation: ENormalOperation)

  /**
   * The value of handle()'s accumulator after the first |ops| registered operations: the flag
   * is raised by any exact or partial match, and every exact match overwrites the operation.
   */
  function Handled(ops: seq<NormalOperation>, pending: seq<Keys.Key>): (r: Status)
    ensures r.matched <==> exists i :: 0 <= i < |ops| && Compare(ops[i].keySequence, pending) != FALSE
    ensures (forall i :: 0 <= i < |ops| ==> Compare(ops[i].keySequence, pending) != TRUE) ==> r.operation == NONE
    ensures (exists i :: 0 <= i < |ops| && Compare(ops[i].keySequence, pending) == TRUE) ==>
      exists i :: 0 <= i < |ops| && Compare(ops[i].keySequence, pending) == TRUE &&
        r.operation == ops[i].operation &&
        forall j :: i < j < |ops| ==> Compare(ops[j].keySequence, pending) != TRUE
  {
    if ops == [] then Status(false, NONE)
    else
      var init, last := ops[..|ops| - 1], ops[|ops| - 1];
      var acc := Handled(init, pending);
      assert forall i :: 0 <= i < |init| ==> init[i] == ops[i];
      assert last == ops[|ops| - 1];
      var c := Compare(last.keySequence, pending);
      if c == TRUE then Status(true, last.operation)
      else
        assert forall j :: |init| <= j < |ops| ==> ops[j] == last;
        if c == FALSE then acc else Status(true, acc.operation)
  }

  /** One more registered operation: handle()'s accumulator after it, from the one before it. */
  lemma HandledStep(ops: seq<NormalOperation>, pending: seq<Keys.Key>, i: nat)
    requires i < |ops|
    ensures var acc, c := Handled(ops[..i], pending), Compare(ops[i].keySequence, pending);
      Handled(ops[..i + 1], pending) ==
        if c == TRUE then Status(true, ops[i].operation)
        else if c == FALSE then acc
        else Status(true, acc.operation)
  {
    assert ops[..i + 1][..i] == ops[..i];
  }

  /** Every chord of a well-formed table has between one and Capacity keys and names an operation. */
  predicate WellFormedTable(ops: seq<NormalOperation>)
  {
    forall i :: 0 <= i < |ops| ==> 1 <= |ops[i].keySequence| <= Capacity && ops[i].operation != NONE
  }

  /**
   * A pending sequence handleKeyPress can leave behind: empty, or a proper prefix of some chord
   * of which no chord is a prefix (an exact match would have fired and cleared it).
   */
  predicate Kept(ops: seq<NormalOperation>, pending: seq<Keys.Key>)
  {
    pending == [] ||
    ((exists i :: 0 <= i < |ops| && pending < ops[i].keySequence) &&
     forall i :: 0 <= i < |ops| ==> !(ops[i].keySequence <= pending))
  }

  /** A kept sequence is shorter than some chord, so it fits the four slots with one to spare. */
  lemma KeptIsShort(ops: seq<NormalOperation>, pending: seq<Keys.Key>)
    requires WellFormedTable(ops) && Kept(ops, pending)
    ensures |pending| < Capacity
    ensures pending != [] ==> exists i :: 0 <= i < |ops| && |pending| < |ops[i].keySequence|
  {
    if pending != [] {
      var i :| 0 <= i < |ops| && pending < ops[i].keySequence;
    }
  }

  /**
   * Adding a key to a kept sequence: when handle() reports a match without an operation the
   * longer sequence is kept again, because any chord it partially matches is longer than it.
   */
  lemma ExtendKept(ops: seq<NormalOperation>, pending: seq<Keys.Key>, key: Keys.Key)
    requires WellFormedTable(ops) && Kept(ops, pending)
    requires Handled(ops, pending + [key]) == Status(true, NONE)
    ensures Kept(ops, pending + [key])
  {
    var p := pending + [key];
    // No chord equals p: the last one that did would have made handle() report its operation.
    assert forall k :: 0 <= k < |ops| ==> ops[k].keySequence != p;
    var i :| 0 <= i < |ops| && Compare(ops[i].keySequence, p) != FALSE;
    assert p < ops[i].keySequence;
  }

  /**
   * An exact match fires even while other chords still match partially: handle() reports the
   * operation of the last exactly matching chord, and in a well-formed table that is never NONE.
   */
  lemma ExactMatchFires(ops: seq<NormalOperation>, pending: seq<Keys.Key>, i: nat)
    requires WellFormedTable(ops) && i < |ops| && ops[i].keySequence == pending
    requires forall j :: i < j < |ops| ==> ops[j].keySequence != pending
    ensures Handled(ops, pending) == Status(true, ops[i].operation)
    ensures Handled(ops, pending).operation != NONE
  {
    var r := Handled(ops, pending);
    assert Compare(ops[i].keySequence, pending) == TRUE;
    var k :| 0 <= k < |ops| && Compare(ops[k].keySequence, pending) == TRUE &&
      r.operation == ops[k].operation &&
      forall j :: k < j < |ops| ==> Compare(ops[j].keySequence, pending) != TRUE;
    assert k == i;
  }

  /** NormalMode (vimodel.h:225-239): the registered chords and the keys typed so far. */
  class NormalMode {
    var operations: seq<NormalOperation>
    const keySequence: KeySequence

    ghost predicate Valid()
      reads this, keySequence
    {
      keySequence.Valid()
    }

    /** The keys typed since the last reset. */
    function Pending(): seq<Keys.Key>
      requires Valid()
      reads this, keySequence, keySequence.keys
    {
      keySequence.Contents()
    }

    /** The implicit constructor: no chord registered, nothing typed. */
    constructor ()
      ensures Valid() && operations == [] && Pending() == []
      ensures fresh(keySequence) && fresh(keySequence.keys)
    {
      operations := [];
      keySequence := new KeySequence();
    }

    /** addCommand (vimodel.cpp:472-475): appends in registration order. */
    method AddCommand(operation: NormalOperation)
      requires Valid()
      modifies this
      ensures Valid() && operations == old(operations) + [operation] && Pending() == old(Pending())
    {
      operations := operations + [operation];
    }

    /** isEmptySequence (vimodel.cpp:477-480). */
    function IsEmptySequence(): (r: bool)
      requires Valid()
      reads this, keySequence, keySequence.keys
      ensures r <==> Pending() == []
    {
      keySequence.IsEmpty()
    }

    /** addKey (vimodel.cpp:482-485): one more key in the pending sequence. */
    method AddKey(key: Keys.Key)
      requires Valid() && |Pending()| < Capacity
      modifies keySequence, keySequence.keys
      ensures Valid() && Pending() == old(Pending()) + [key]
    {
      keySequence.Append(key);
    }

    /** handle (vimodel.cpp:487-504): compares every registered chord with the pending keys. */
    method Handle() returns (result: Status)
      requires Valid()
      ensures result == Handled(operations, Pending())
    {
      result := Status(false, NONE);
      var pending := keySequence.Contents();
      for i := 0 to |operations|
        invariant result == Handled(operations[..i], pending)
      {
        HandledStep(operations, pending, i);
        var c := CompareKeys(operations[i].keySequence, pending);
        match c
        case FALSE =>
        case PARTIALLY_TRUE => result := Status(true, result.operation);
        case TRUE => result := Status(true, operations[i].operation);
      }
      assert operations[..|operations|] == operations;
    }

    /** reset (vimodel.cpp:506-509): forgets the pending keys. */
    method Reset()
      requires Valid()
      modifies keySequence
      ensures Valid() && Pending() == []
    {
      keySequence.Clear();
    }
  }
}
