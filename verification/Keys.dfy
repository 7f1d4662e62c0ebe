/** Sorted keys leave no enumeration order. */
module Keys {
  import opened Wrappers
  import opened Sorting
  import opened Utf8
  import opened Canonical

  predicate AtMost(a: Bytes, b: Bytes) { a == b || Less(a, b) }

  ghost predicate Ascending(s: seq<Bytes>) { forall i, j :: 0 <= i < j < |s| ==> AtMost(s[i], s[j]) }

  ghost predicate NoRepeats(s: seq<Bytes>) { forall i, j :: 0 <= i < j < |s| ==> s[i] != s[j] }

  /** s lists each key once, in whatever order the map's iteration yields. */
  ghost predicate Enumerates(s: seq<Bytes>, keys: set<Bytes>) {
    NoRepeats(s) && forall k :: k in s <==> k in keys
  }

  ghost predicate IsPermutation(a: seq<Bytes>, b: seq<Bytes>) { multiset(a) == multiset(b) }

  // ---- Sorting -------------------------------------------------------------

  lemma InsertedAscending(s: seq<Bytes>, i: nat, k: Bytes)
    requires i <= |s| && Ascending(s)
    requires forall j :: 0 <= j < i ==> AtMost(s[j], k)
    requires forall j :: i <= j < |s| ==> AtMost(k, s[j])
    ensures Ascending(s[..i] + [k] + s[i..])
  {
  }

  lemma InsertedPermutation(s: seq<Bytes>, i: nat, k: Bytes)
    requires i <= |s|
    ensures multiset(s[..i] + [k] + s[i..]) == multiset(s) + multiset{k}
  {
    assert s == s[..i] + s[i..];
  }

  /** What lies before a place that is not above k is not above k either. */
  lemma BelowInsertion(s: seq<Bytes>, i: nat, k: Bytes)
    requires i <= |s| && Ascending(s) && (i > 0 ==> !Less(k, s[i - 1]))
    ensures forall j :: 0 <= j < i ==> AtMost(s[j], k)
  {
    if i > 0 { LessTotal(k, s[i - 1]); }
    forall j | 0 <= j < i ensures AtMost(s[j], k) {
      if j < i - 1 && s[j] != s[i - 1] && s[i - 1] != k { LessTransitive(s[j], s[i - 1], k); }
    }
  }

  lemma PermutationStep(s: seq<Bytes>, n: nat, a: seq<Bytes>, b: seq<Bytes>)
    requires n < |s| && IsPermutation(a, s[..n]) && multiset(b) == multiset(a) + multiset{s[n]}
    ensures IsPermutation(b, s[..n + 1])
  {
    assert s[..n + 1] == s[..n] + [s[n]];
  }

  /** sort.Strings */
  method SortStrings(s: seq<Bytes>) returns (r: seq<Bytes>)
    ensures Ascending(r) && IsPermutation(r, s)
  {
    r := [];
    for n := 0 to |s|
      invariant Ascending(r) && IsPermutation(r, s[..n])
    {
      var i: nat := |r|;
      while i > 0 && Less(s[n], r[i - 1])
        invariant i <= |r|
        invariant forall j :: i <= j < |r| ==> Less(s[n], r[j])
      {
        i := i - 1;
      }
      BelowInsertion(r, i, s[n]);
      InsertedAscending(r, i, s[n]);
      InsertedPermutation(r, i, s[n]);
      PermutationStep(s, n, r, r[..i] + [s[n]] + r[i..]);
      r := r[..i] + [s[n]] + r[i..];
    }
    assert s[..|s|] == s;
  }

  // ---- One order -----------------------------------------------------------

  lemma SameElements(a: seq<Bytes>, b: seq<Bytes>)
    requires IsPermutation(a, b)
    ensures forall k :: k in a <==> k in b
  {
    forall k ensures k in a <==> k in b {
      assert k in a <==> multiset(a)[k] > 0;
      assert k in b <==> multiset(b)[k] > 0;
    }
  }

  lemma {:induction false} OnceEach(s: seq<Bytes>)
    ensures NoRepeats(s) <==> forall k :: multiset(s)[k] <= 1
  {
    if s != [] {
      var rest := s[1..];
      OnceEach(rest);
      assert s == [s[0]] + rest;
      assert multiset(s) == multiset{s[0]} + multiset(rest);
      assert s[0] in rest <==> multiset(rest)[s[0]] > 0;
      if NoRepeats(s) {
        forall k ensures multiset(s)[k] <= 1 {
          assert multiset(rest)[k] <= 1;
        }
      }
      if forall k :: multiset(s)[k] <= 1 {
        forall k ensures multiset(rest)[k] <= 1 {
          assert multiset(s)[k] <= 1;
        }
        assert multiset(s)[s[0]] <= 1;
        assert s[0] !in rest;
      }
    }
  }

  /** However a map's keys are enumerated, sorting them gives the same sequence, so equal maps print identically. */
  lemma KeyOrderIsUnique(keys: set<Bytes>, enumerated: seq<Bytes>, sorted: seq<Bytes>)
    requires Enumerates(enumerated, keys)
    requires IsPermutation(sorted, enumerated)
    ensures Ascending(sorted) <==> sorted == SortedKeys(keys)
  {
    LessIsStrictTotal();
    SameElements(sorted, enumerated);
    OnceEach(enumerated);
    OnceEach(sorted);
    if Ascending(sorted) {
      assert Increasing(Less, sorted);
      IncreasingUnique(Less, sorted, SortedKeys(keys));
    }
  }

  lemma MoreEnumerated(s: seq<Bytes>, k: Bytes, keys: set<Bytes>, left: set<Bytes>)
    requires k in left && left <= keys && Enumerates(s, keys - left)
    ensures Enumerates(s + [k], keys - (left - {k}))
  {
  }

  /** sortedKeys: the keys in the order the iteration yields them, then sorted */
  method CollectSortedKeys(keys: set<Bytes>) returns (sorted: seq<Bytes>)
    ensures sorted == SortedKeys(keys)
  {
    var collected: seq<Bytes> := [];
    var left := keys;
    while left != {}
      invariant left <= keys && Enumerates(collected, keys - left)
    {
      var k :| k in left;
      MoreEnumerated(collected, k, keys, left);
      collected, left := collected + [k], left - {k};
    }
    sorted := SortStrings(collected);
    KeyOrderIsUnique(keys, collected, sorted);
  }

  // ---- Code-point order ----------------------------------------------------

  function Names(names: seq<seq<rune>>): (keys: seq<Bytes>)
    ensures |keys| == |names| && forall i :: 0 <= i < |names| ==> keys[i] == EncodeAll(names[i])
  {
    seq(|names|, i requires 0 <= i < |names| => EncodeAll(names[i]))
  }

  /** Names in code-point order are keys in bytewise order. */
  lemma NamesIncrease(names: seq<seq<rune>>)
    requires Increasing(RuneLess, names)
    ensures Increasing(Less, Names(names))
  {
    hide Less, RuneLess, EncodeAll;
    forall i, j | 0 <= i < j < |names| ensures Less(Names(names)[i], Names(names)[j]) {
      BytewiseOrderIsCodePointOrder(names[i], names[j]);
    }
  }

  /** The members of an object are written in the code-point order of their names. */
  lemma MembersInCodePointOrder(e: Encoder, v: Json, names: seq<seq<rune>>)
    requires v.Obj? && Increasing(RuneLess, names)
    requires forall k :: k in Names(names) <==> k in v.fields
    ensures Write(e, v) == (var body :- WriteMembers(e, v, Names(names)); Ok("{" + body + "}"))
  {
    hide Less, RuneLess, EncodeAll, Names, WriteMembers;
    NamesIncrease(names);
    LessIsStrictTotal();
    IncreasingUnique(Less, Names(names), SortedKeys(v.fields.Keys));
  }
}
