/**
 * Keys of the chord language: the EKey enumeration, the Key value (a base key plus three
 * modifier bits), the run-time Key constructor, the compile-time StaticKey builder and the
 * textual rendering of keys (vimodel.h:33-171, vimodel.cpp:33-67 and 527-577).
 *
 * A Q_ASSERT that fires while a key is being built is modelled as rejection (None).
 */
module Keys {
  import opened Wrappers

  /**
   * EKey (vimodel.h:33-45), an enum class: an enumerator is its position in the declaration,
   * which is also the value of static_cast<int>.
   */
  newtype EKey = x: int | 0 <= x <= 34

  const NONE: EKey := 0
  const ESCAPE: EKey := 1
  const META: EKey := 2
  const SHIFT: EKey := 3
  const CONTROL: EKey := 4
  const COLON: EKey := 5
  const SLASH: EKey := 6
  const SEMICOLON: EKey := 7
  const A: EKey := 8
  const B: EKey := 9
  const C: EKey := 10
  const D: EKey := 11
  const E: EKey := 12
  const F: EKey := 13
  const G: EKey := 14
  const H: EKey := 15
  const I: EKey := 16
  const J: EKey := 17
  const K: EKey := 18
  const L: EKey := 19
  const M: EKey := 20
  const N: EKey := 21
  const O: EKey := 22
  const P: EKey := 23
  const Q: EKey := 24
  const R: EKey := 25
  const S: EKey := 26
  const T: EKey := 27
  const U: EKey := 28
  const V: EKey := 29
  const W: EKey := 30
  const X: EKey := 31
  const Y: EKey := 32
  const Z: EKey := 33
  const COUNT: EKey := 34

  /** The value of static_cast<int>(key). */
  function Ordinal(key: EKey): nat
  {
    key as int
  }

  /** isChar and StaticKeyImpl::isChar: the ordinal lies between those of A and Z. */
  predicate IsChar(key: EKey)
  {
    Ordinal(A) <= Ordinal(key) <= Ordinal(Z)
  }

  /** The three keys that set a modifier bit rather than the base key. */
  predicate IsModifier(key: EKey)
  {
    key == SHIFT || key == CONTROL || key == META
  }

  /** The enumerators outside the range A..Z. */
  const NonLetters: set<EKey> := {NONE, ESCAPE, META, SHIFT, CONTROL, COLON, SLASH, SEMICOLON, COUNT}

  /** Outside the range A..Z lie exactly the nine named keys. */
  lemma NonLettersExactly(key: EKey)
    ensures !IsChar(key) <==> key in NonLetters
  {
  }

  /** A letter is neither a modifier nor one of the control keys that switch mode. */
  lemma LetterIsNoControlKey(key: EKey)
    requires IsChar(key)
    ensures key != ESCAPE && key != COLON && key != SLASH && !IsModifier(key)
  {
  }

  /** Key (vimodel.h:109-124): a base key and three independent modifier bits. */
  datatype Key = Key(value: EKey, shift: bool, control: bool, meta: bool)

  /** The default Key (vimodel.cpp:527-532): no base key, no modifier. */
  const DefaultKey: Key := Key(NONE, false, false, false)

  /** Key::operator== (vimodel.cpp:542-548): field-by-field comparison. */
  function KeyEquals(lhs: Key, rhs: Key): (r: bool)
    ensures r <==> lhs == rhs
  {
    lhs.value == rhs.value && lhs.shift == rhs.shift &&
    lhs.control == rhs.control && lhs.meta == rhs.meta
  }

  /**
   * Key::operator+= (vimodel.cpp:555-577): a modifier sets its bit, any other key becomes
   * the base key; None where a Q_ASSERT would fire (a bit set twice, a second base key).
   */
  function Plus(key: Key, e: EKey): (r: Option<Key>)
    ensures r.Some? && IsModifier(e) ==> r.value.value == key.value
    ensures r.Some? && !IsModifier(e) ==> key.value == NONE && r.value.value == e
    ensures r.None? <==>
      (e == SHIFT && key.shift) || (e == CONTROL && key.control) || (e == META && key.meta) ||
      (!IsModifier(e) && key.value != NONE)
    ensures r.Some? ==>
      r.value.shift == (key.shift || e == SHIFT) &&
      r.value.control == (key.control || e == CONTROL) &&
      r.value.meta == (key.meta || e == META)
  {
    if e == SHIFT then (if key.shift then None else Some(key.(shift := true)))
    else if e == CONTROL then (if key.control then None else Some(key.(control := true)))
    else if e == META then (if key.meta then None else Some(key.(meta := true)))
    else if key.value != NONE then None
    else Some(key.(value := e))
  }

  /** The key accumulated by applying += to each element of keys, left to right. */
  function Accumulate(keys: seq<EKey>): Option<Key>
  {
    if keys == [] then Some(DefaultKey)
    else match Accumulate(keys[..|keys| - 1])
      case None => None
      case Some(k) => Plus(k, keys[|keys| - 1])
  }

  /** Once an assertion has fired, no later key can repair the result. */
  lemma {:induction false} AccumulateStaysRejected(keys: seq<EKey>, n: nat)
    requires n <= |keys| && Accumulate(keys[..n]) == None
    ensures Accumulate(keys) == None
    decreases |keys| - n
  {
    if n < |keys| {
      assert keys[..n + 1][..n] == keys[..n];
      AccumulateStaysRejected(keys, n + 1);
    } else {
      assert keys[..n] == keys;
    }
  }

  /** What Key(std::initializer_list<EKey>) produces: the accumulated key, which must have a base. */
  function KeyFromList(keys: seq<EKey>): Option<Key>
  {
    match Accumulate(keys)
    case None => None
    case Some(k) => if k.value == NONE then None else Some(k)
  }

  /** Key::Key(std::initializer_list<EKey>) (vimodel.cpp:534-540). */
  method NewKey(keys: seq<EKey>) returns (r: Option<Key>)
    ensures r == KeyFromList(keys)
  {
    var key := DefaultKey;
    var i := 0;
    while i < |keys|
      invariant 0 <= i <= |keys|
      invariant Accumulate(keys[..i]) == Some(key)
    {
      assert keys[..i + 1][..i] == keys[..i];
      var next := Plus(key, keys[i]);
      if next.None? {
        AccumulateStaysRejected(keys, i + 1);
        return None;
      }
      key := next.value;
      i := i + 1;
    }
    assert keys[..i] == keys;
    if key.value == NONE {
      return None;
    }
    return Some(key);
  }

  /**
   * StaticKeyImpl<key>::fill (vimodel.h:130-148): a modifier sets its bit at most once, a
   * letter becomes the base key at most once, and every other key is invalid.
   */
  function Fill(e: EKey, result: Key): Option<Key>
  {
    if e == SHIFT then (if result.shift then None else Some(result.(shift := true)))
    else if e == CONTROL then (if result.control then None else Some(result.(control := true)))
    else if e == META then (if result.meta then None else Some(result.(meta := true)))
    else if IsChar(e) then (if result.value != NONE then None else Some(result.(value := e)))
    else None
  }

  /**
   * StaticKey<k1, ..., kn>::result (vimodel.h:159-171): fill applied right to left, starting
   * from the default key with the last template argument.
   */
  function StaticKey(keys: seq<EKey>): Option<Key>
    requires keys != []
  {
    if |keys| == 1 then Fill(keys[0], DefaultKey)
    else match StaticKey(keys[1..])
      case None => None
      case Some(k) => Fill(keys[0], k)
  }

  /** A bag of keys that fill accepts: modifiers and letters only, each modifier at most once, at most one letter. */
  ghost predicate Admissible(m: multiset<EKey>)
  {
    && (forall e :: e in m ==> IsModifier(e) || IsChar(e))
    && m[SHIFT] <= 1 && m[CONTROL] <= 1 && m[META] <= 1
    && (forall e :: IsChar(e) ==> m[e] <= 1)
    && (forall e1, e2 :: e1 in m && e2 in m && IsChar(e1) && IsChar(e2) ==> e1 == e2)
  }

  /** The letter of a bag of keys, or NONE if it has none. */
  ghost function BaseOf(m: multiset<EKey>): EKey
  {
    if exists e :: e in m && IsChar(e) then var e :| e in m && IsChar(e); e else NONE
  }

  /** The key a bag of keys stands for, independent of the order the keys are listed in. */
  ghost function KeyOfBag(m: multiset<EKey>): Option<Key>
  {
    if Admissible(m) then Some(Key(BaseOf(m), SHIFT in m, CONTROL in m, META in m)) else None
  }

  lemma BaseOfLetter(m: multiset<EKey>, l: EKey)
    requires Admissible(m) && l in m && IsChar(l)
    ensures BaseOf(m) == l
  {
  }

  lemma BaseOfNoLetter(m: multiset<EKey>)
    requires forall e :: e in m ==> !IsChar(e)
    ensures BaseOf(m) == NONE
  {
  }

  /** A bag contained in an admissible bag is admissible. */
  lemma AdmissibleShrinks(m: multiset<EKey>, m': multiset<EKey>)
    requires forall x :: m[x] <= m'[x]
    ensures Admissible(m') ==> Admissible(m)
  {
  }

  /** A rejected bag stays rejected whatever is added to it. */
  lemma AddToRejected(m: multiset<EKey>, e: EKey)
    requires !Admissible(m)
    ensures !Admissible(m + multiset{e})
  {
    AdmissibleShrinks(m, m + multiset{e});
  }

  /** Adding a modifier to an admissible bag sets its bit, unless it is already set. */
  lemma AddModifier(m: multiset<EKey>, e: EKey)
    requires Admissible(m) && IsModifier(e)
    ensures KeyOfBag(m + multiset{e}) == Fill(e, KeyOfBag(m).value)
  {
    var m' := m + multiset{e};
    var k := KeyOfBag(m).value;
    assert k == Key(BaseOf(m), SHIFT in m, CONTROL in m, META in m);
    ModifierIsNoLetter(e);
    if Admissible(m') {
      assert BaseOf(m') == BaseOf(m) by {
        if exists l :: l in m && IsChar(l) {
          var l :| l in m && IsChar(l);
          BaseOfLetter(m, l);
          BaseOfLetter(m', l);
        } else {
          BaseOfNoLetter(m);
          assert forall x :: x in m' ==> x in m || x == e;
          BaseOfNoLetter(m');
        }
      }
      assert m[e] == 0 by {
        assert m'[e] == m[e] + 1;
      }
      assert (SHIFT in m') == (SHIFT in m || e == SHIFT);
      assert (CONTROL in m') == (CONTROL in m || e == CONTROL);
      assert (META in m') == (META in m || e == META);
    } else {
      assert m'[e] == m[e] + 1;
    }
  }

  lemma ModifierIsNoLetter(e: EKey)
    requires IsModifier(e)
    ensures !IsChar(e)
  {
  }

  lemma AddSecondLetter(m: multiset<EKey>, e: EKey, l: EKey)
    requires Admissible(m) && IsChar(e) && l in m && IsChar(l)
    ensures !Admissible(m + multiset{e})
  {
    var m' := m + multiset{e};
    if l == e {
      assert m'[e] == m[e] + 1;
    } else {
      assert l in m' && e in m';
    }
  }

  lemma AddFirstLetter(m: multiset<EKey>, e: EKey)
    requires Admissible(m) && IsChar(e) && forall x :: x in m ==> !IsChar(x)
    ensures Admissible(m + multiset{e})
  {
    var m' := m + multiset{e};
    assert forall x :: x in m' ==> x in m || x == e;
    assert m'[e] == 1;
  }

  lemma AddFirstLetterKey(m: multiset<EKey>, e: EKey)
    requires Admissible(m) && IsChar(e) && forall x :: x in m ==> !IsChar(x)
    ensures KeyOfBag(m + multiset{e}) == Some(Key(e, SHIFT in m, CONTROL in m, META in m))
  {
    var m' := m + multiset{e};
    AddFirstLetter(m, e);
    BaseOfLetter(m', e);
    assert e != SHIFT && e != CONTROL && e != META;
    assert (SHIFT in m') == (SHIFT in m);
    assert (CONTROL in m') == (CONTROL in m);
    assert (META in m') == (META in m);
  }

  /** Adding a letter to an admissible bag makes it the base key, unless there already is one. */
  lemma AddLetter(m: multiset<EKey>, e: EKey)
    requires Admissible(m) && IsChar(e)
    ensures KeyOfBag(m + multiset{e}) == Fill(e, KeyOfBag(m).value)
  {
    assert e != SHIFT && e != CONTROL && e != META;
    if exists l :: l in m && IsChar(l) {
      var l :| l in m && IsChar(l);
      BaseOfLetter(m, l);
      AddSecondLetter(m, e, l);
    } else {
      BaseOfNoLetter(m);
      AddFirstLetterKey(m, e);
    }
  }

  /** Adding one key to the bag is one application of fill. */
  lemma FillStep(m: multiset<EKey>, e: EKey)
    ensures KeyOfBag(m + multiset{e}) == (match KeyOfBag(m) case None => None case Some(k) => Fill(e, k))
  {
    if !Admissible(m) {
      AddToRejected(m, e);
    } else if IsModifier(e) {
      AddModifier(m, e);
    } else if IsChar(e) {
      AddLetter(m, e);
    } else {
      assert e in m + multiset{e};
    }
  }

  /** StaticKey as a function of the bag of its arguments. */
  lemma {:induction false} StaticKeyIsKeyOfBag(keys: seq<EKey>)
    requires keys != []
    ensures StaticKey(keys) == KeyOfBag(multiset(keys))
  {
    if |keys| == 1 {
      assert multiset(keys) == multiset{} + multiset{keys[0]};
      BaseOfNoLetter(multiset{});
      assert KeyOfBag(multiset{}) == Some(DefaultKey);
      FillStep(multiset{}, keys[0]);
    } else {
      StaticKeyIsKeyOfBag(keys[1..]);
      assert keys == [keys[0]] + keys[1..];
      assert multiset(keys) == multiset(keys[1..]) + multiset{keys[0]};
      FillStep(multiset(keys[1..]), keys[0]);
    }
  }

  /**
   * The order of StaticKey's arguments is irrelevant, and the result is the key whose base is
   * the one letter and whose bits are the modifiers named; anything else is rejected.
   */
  lemma StaticKeyOrderFree(k1: seq<EKey>, k2: seq<EKey>)
    requires k1 != [] && k2 != [] && multiset(k1) == multiset(k2)
    ensures StaticKey(k1) == StaticKey(k2)
  {
    StaticKeyIsKeyOfBag(k1);
    StaticKeyIsKeyOfBag(k2);
  }

  /** StaticKey accepts a list iff it is admissible, and then the bits say which modifiers were listed. */
  lemma StaticKeyAccepts(keys: seq<EKey>)
    requires keys != []
    ensures StaticKey(keys).Some? <==> Admissible(multiset(keys))
    ensures StaticKey(keys).Some? ==>
      && StaticKey(keys).value.shift == (SHIFT in keys)
      && StaticKey(keys).value.control == (CONTROL in keys)
      && StaticKey(keys).value.meta == (META in keys)
      && (StaticKey(keys).value.value == NONE || (IsChar(StaticKey(keys).value.value) && StaticKey(keys).value.value in keys))
  {
    StaticKeyIsKeyOfBag(keys);
    var m := multiset(keys);
    if exists e :: e in m && IsChar(e) {
      var l :| l in m && IsChar(l);
      if Admissible(m) {
        BaseOfLetter(m, l);
      }
    }
  }

  /** On modifiers and letters the run-time += and the compile-time fill agree. */
  lemma {:induction false} AccumulateIsKeyOfBag(keys: seq<EKey>)
    requires forall i :: 0 <= i < |keys| ==> IsModifier(keys[i]) || IsChar(keys[i])
    ensures Accumulate(keys) == KeyOfBag(multiset(keys))
  {
    if keys == [] {
      BaseOfNoLetter(multiset{});
    } else {
      var init, last := keys[..|keys| - 1], keys[|keys| - 1];
      AccumulateIsKeyOfBag(init);
      assert multiset(keys) == multiset(init) + multiset{last} by {
        assert keys == init + [last];
      }
      FillStep(multiset(init), last);
      if Accumulate(init).Some? {
        PlusIsFill(Accumulate(init).value, last);
      }
    }
  }

  /** On a modifier or a letter, += and fill make the same key. */
  lemma PlusIsFill(key: Key, e: EKey)
    requires IsModifier(e) || IsChar(e)
    ensures Plus(key, e) == Fill(e, key)
  {
    if IsChar(e) {
      LetterIsNoControlKey(e);
    }
  }

  /** On modifiers and letters, Key{...} is StaticKey<...>::result with the base key required. */
  lemma KeyFromListMatchesStaticKey(keys: seq<EKey>)
    requires keys != []
    requires forall i :: 0 <= i < |keys| ==> IsModifier(keys[i]) || IsChar(keys[i])
    ensures KeyFromList(keys) ==
      (if StaticKey(keys).Some? && StaticKey(keys).value.value != NONE then StaticKey(keys) else None)
  {
    AccumulateIsKeyOfBag(keys);
    StaticKeyIsKeyOfBag(keys);
  }

  /** The lower-case letter toString writes for a letter key: 'a' + offset from A. */
  function LetterChar(key: EKey): char
    requires IsChar(key)
  {
    (('a' as int) + Ordinal(key) - Ordinal(A)) as char
  }

  /** The text one key contributes to toString (vimodel.cpp:41-57); other keys contribute nothing. */
  function KeyText(key: EKey): string
  {
    if key == CONTROL then "C"
    else if key == SHIFT then "S"
    else if key == META then "M"
    else if IsChar(key) then [LetterChar(key)]
    else ""
  }

  /** The text toString builds for a list of keys. */
  function Text(keys: seq<EKey>): string
  {
    if keys == [] then "" else Text(keys[..|keys| - 1]) + KeyText(keys[|keys| - 1])
  }

  /** toString(const std::vector<EKey>&) (vimodel.cpp:33-60). */
  method ToString(keys: seq<EKey>) returns (result: string)
    ensures result == Text(keys)
  {
    result := "";
    for i := 0 to |keys|
      invariant result == Text(keys[..i])
    {
      assert keys[..i + 1][..i] == keys[..i];
      var key := keys[i];
      if key == CONTROL {
        result := result + "C";
      } else if key == SHIFT {
        result := result + "S";
      } else if key == META {
        result := result + "M";
      } else if IsChar(key) {
        result := result + [LetterChar(key)];
      }
    }
    assert keys[..|keys|] == keys;
  }

  /** The keys that toString renders: the three modifiers and the letters. */
  predicate Printable(key: EKey)
  {
    IsModifier(key) || IsChar(key)
  }

  function Printables(keys: seq<EKey>): seq<EKey>
  {
    if keys == [] then []
    else Printables(keys[..|keys| - 1]) + (if Printable(keys[|keys| - 1]) then [keys[|keys| - 1]] else [])
  }

  /** Reading back one character of toString's output. */
  function ParseChar(c: char): seq<EKey>
  {
    if c == 'C' then [CONTROL]
    else if c == 'S' then [SHIFT]
    else if c == 'M' then [META]
    else if 'a' <= c <= 'z' then [(Ordinal(A) + (c as int - 'a' as int)) as EKey]
    else []
  }

  /** Reading back a whole text, the partner of Text. */
  function ParseText(s: string): seq<EKey>
  {
    if s == [] then [] else ParseText(s[..|s| - 1]) + ParseChar(s[|s| - 1])
  }

  /** Each printable key renders as one character that reads back as that key. */
  lemma ParseKeyText(key: EKey)
    ensures Printable(key) ==> |KeyText(key)| == 1 && ParseChar(KeyText(key)[0]) == [key]
    ensures !Printable(key) ==> KeyText(key) == ""
  {
    if IsChar(key) {
      assert KeyText(key) == [LetterChar(key)] by {
        LetterIsNoControlKey(key);
      }
      LetterCharParsesBack(key);
    }
  }

  /** The lower-case letter of a letter key reads back as that key. */
  lemma LetterCharParsesBack(key: EKey)
    requires IsChar(key)
    ensures ParseChar(LetterChar(key)) == [key]
  {
  }

  /** toString loses exactly the keys it does not render: reading its text back gives the printable keys. */
  lemma {:induction false} ParseTextOfText(keys: seq<EKey>)
    ensures ParseText(Text(keys)) == Printables(keys)
    ensures |Text(keys)| == |Printables(keys)|
  {
    if keys != [] {
      var init, last := keys[..|keys| - 1], keys[|keys| - 1];
      ParseTextOfText(init);
      ParseKeyText(last);
      var t := Text(init);
      var s := t + KeyText(last);
      if Printable(last) {
        assert s[..|s| - 1] == t;
        assert s[|s| - 1] == KeyText(last)[0];
      } else {
        assert s == t;
      }
    }
  }
}
