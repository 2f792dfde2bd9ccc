/**
 * Chord sequences: the three-valued comparison of two key sequences and the KeySequence
 * value holder, a fixed array of four keys plus a length (vimodel.h:174-207,
 * vimodel.cpp:427-470).
 */
module KeyMatching {
  import Keys

  /** CompareResult (vimodel.h:174-179). */
  datatype CompareResult = FALSE | TRUE | PARTIALLY_TRUE

  /** The number of slots of KeySequence::Keys, std::array<Keys.Key, 4>. */
  const Capacity: nat := 4

  function Min(a: nat, b: nat): nat
  {
    if a < b then a else b
  }

  /**
   * KeySequence::compare as a function of the two contents: the key sequences agree up to the
   * shorter length, and then the lengths decide between an exact and a partial match.
   */
  function Compare(lhs: seq<Keys.Key>, rhs: seq<Keys.Key>): (r: CompareResult)
    ensures r == FALSE <==> exists i :: 0 <= i < Min(|lhs|, |rhs|) && lhs[i] != rhs[i]
    ensures r == TRUE <==> lhs == rhs
    ensures r == PARTIALLY_TRUE <==> lhs < rhs || rhs < lhs
  {
    if lhs <= rhs || rhs <= lhs then
      (if |lhs| == |rhs| then TRUE else PARTIALLY_TRUE)
    else
      assert exists i :: 0 <= i < Min(|lhs|, |rhs|) && lhs[i] != rhs[i] by {
        FirstDifference(lhs, rhs);
      }
      FALSE
  }

  /** Two sequences of which neither is a prefix of the other differ below the shorter length. */
  lemma FirstDifference(lhs: seq<Keys.Key>, rhs: seq<Keys.Key>)
    requires !(lhs <= rhs) && !(rhs <= lhs)
    ensures exists i :: 0 <= i < Min(|lhs|, |rhs|) && lhs[i] != rhs[i]
  {
    if |lhs| <= |rhs| {
      assert lhs != rhs[..|lhs|];
      var i :| 0 <= i < |lhs| && lhs[i] != rhs[..|lhs|][i];
    } else {
      assert rhs != lhs[..|rhs|];
      var i :| 0 <= i < |rhs| && rhs[i] != lhs[..|rhs|][i];
    }
  }

  /** Swapping the registered chord and the pending sequence gives the same result. */
  lemma CompareIsSymmetric(lhs: seq<Keys.Key>, rhs: seq<Keys.Key>)
    ensures Compare(lhs, rhs) == Compare(rhs, lhs)
  {
    if Compare(lhs, rhs) == FALSE {
      var i :| 0 <= i < Min(|lhs|, |rhs|) && lhs[i] != rhs[i];
      assert 0 <= i < Min(|rhs|, |lhs|) && rhs[i] != lhs[i];
    }
  }

  /** KeySequence::compare (vimodel.cpp:441-450): the loop over the common prefix. */
  method CompareKeys(lhs: seq<Keys.Key>, rhs: seq<Keys.Key>) returns (r: CompareResult)
    ensures r == Compare(lhs, rhs)
  {
    var len := Min(|lhs|, |rhs|);
    for i := 0 to len
      invariant forall j :: 0 <= j < i ==> lhs[j] == rhs[j]
    {
      if !Keys.KeyEquals(lhs[i], rhs[i]) {
        return FALSE;
      }
    }
    if |lhs| != |rhs| {
      if |lhs| < |rhs| {
        assert lhs == rhs[..|lhs|];
      } else {
        assert rhs == lhs[..|rhs|];
      }
      return PARTIALLY_TRUE;
    }
    assert lhs == rhs;
    return TRUE;
  }

  /** KeySequence (vimodel.h:182-207): four key slots of which the first `length` are in use. */
  class KeySequence {
    const keys: array<Keys.Key>
    var length: nat

    ghost predicate Valid()
      reads this
    {
      keys.Length == Capacity && length <= Capacity
    }

    /** The keys between cbegin() and cend() (vimodel.cpp:431-439). */
    function Contents(): (r: seq<Keys.Key>)
      requires Valid()
      reads this, keys
      ensures |r| <= Capacity
    {
      keys[..length]
    }

    /** The default constructor (vimodel.cpp:427-429): no key in use. */
    constructor ()
      ensures Valid() && Contents() == [] && fresh(keys)
    {
      keys := new Keys.Key[Capacity](_ => Keys.DefaultKey);
      length := 0;
    }

    /** The variadic constructor (vimodel.h:187-191): the keys given, and length their number. */
    constructor FromKeys(ks: seq<Keys.Key>)
      requires |ks| <= Capacity
      ensures Valid() && Contents() == ks && length == |ks| && fresh(keys)
    {
      keys := new Keys.Key[Capacity](i requires 0 <= i => if i < |ks| then ks[i] else Keys.DefaultKey);
      length := |ks|;
    }

    /** operator+= (vimodel.cpp:452-455): writes the next slot, which must exist. */
    method Append(key: Keys.Key)
      requires Valid() && length < Capacity
      modifies this, keys
      ensures Valid() && Contents() == old(Contents()) + [key]
    {
      keys[length] := key;
      assert keys[..length] == old(keys[..length]);
      length := length + 1;
    }

    /** clear (vimodel.cpp:457-460): only the length is reset. */
    method Clear()
      requires Valid()
      modifies this
      ensures Valid() && Contents() == [] && keys[..] == old(keys[..])
    {
      length := 0;
    }

    /** isEmpty (vimodel.cpp:462-465). */
    function IsEmpty(): (r: bool)
      requires Valid()
      reads this, keys
      ensures r <==> Contents() == []
    {
      length == 0
    }

    /** getLength (vimodel.cpp:467-470). */
    function GetLength(): (r: nat)
      requires Valid()
      reads this, keys
      ensures r == |Contents()|
    {
      length
    }
  }
}
