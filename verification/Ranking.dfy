/**
 Sort-and-truncate selection. The storage code collects candidates from a hash map, sorts them by
 a two-part key and keeps a prefix; candidates with equal keys come out in any order.
 */
module Ranking {
  import opened JobModel
  import opened Strings

  /** Smallest first: by `major`, then `minor`, then `text` in byte order. */
  datatype Key = Key(major: int, minor: int, text: string)

  predicate Before(a: Key, b: Key) {
    || a.major < b.major
    || (a.major == b.major && a.minor < b.minor)
    || (a.major == b.major && a.minor == b.minor && Less(a.text, b.text))
  }

  /** Keys are strictly and totally ordered. */
  lemma BeforeIsOrder(a: Key, b: Key, c: Key)
    ensures !Before(a, a)
    ensures Before(a, b) || a == b || Before(b, a)
    ensures Before(a, b) && Before(b, c) ==> Before(a, c)
  {
    LessIrreflexive(a.text);
    LessTotal(a.text, b.text);
    if Less(a.text, b.text) && Less(b.text, c.text) {
      LessTransitive(a.text, b.text, c.text);
    }
  }

  /** Not coming after is transitive too. */
  lemma NotAfter(a: Key, b: Key, c: Key)
    requires !Before(b, a)
    ensures Before(b, c) ==> Before(a, c)
    ensures !Before(c, b) ==> !Before(c, a)
  {
    BeforeIsOrder(a, b, c);
    BeforeIsOrder(b, a, c);
    BeforeIsOrder(c, a, b);
    BeforeIsOrder(b, c, a);
  }

  ghost predicate Distinct(s: seq<Id>) {
    forall i, j :: 0 <= i < j < |s| ==> s[i] != s[j]
  }

  function Elements(s: seq<Id>): (r: set<Id>)
    ensures forall x :: x in r <==> x in s
  {
    set x | x in s
  }

  ghost predicate Sorted(keys: map<Id, Key>, s: seq<Id>) {
    && Elements(s) <= keys.Keys
    && forall i, j :: 0 <= i < j < |s| ==> !Before(keys[s[j]], keys[s[i]])
  }

  /** `s` lists every candidate once, in key order. */
  ghost predicate SortedListing(keys: map<Id, Key>, s: seq<Id>) {
    Sorted(keys, s) && Distinct(s) && Elements(s) == keys.Keys
  }

  /** `s` is what sorting the candidates and truncating to `k` can return. */
  ghost predicate TopPrefix(keys: map<Id, Key>, k: nat, s: seq<Id>) {
    && Sorted(keys, s)
    && Distinct(s)
    && |s| == Min(k, |keys|)
    && forall x, y :: x in s && y in keys && y !in s ==> !Before(keys[y], keys[x])
  }

  ghost predicate NoTies(keys: map<Id, Key>) {
    forall x, y :: x in keys && y in keys && x != y ==> keys[x] != keys[y]
  }

  lemma {:induction false} DistinctSize(s: seq<Id>)
    requires Distinct(s)
    ensures |Elements(s)| == |s|
  {
    if s != [] {
      var t := s[..|s| - 1];
      DistinctSize(t);
      assert s == t + [s[|s| - 1]];
      assert Elements(s) == Elements(t) + {s[|s| - 1]};
    }
  }

  lemma KeysSize(keys: map<Id, Key>)
    ensures |keys.Keys| == |keys|
  {
  }

  /** A prefix of a sorted listing is a top selection. */
  lemma PrefixIsTop(keys: map<Id, Key>, full: seq<Id>, k: nat)
    requires SortedListing(keys, full)
    ensures |full| == |keys|
    ensures TopPrefix(keys, k, full[..Min(k, |full|)])
  {
    DistinctSize(full);
    KeysSize(keys);
    var s := full[..Min(k, |full|)];
    forall x, y | x in s && y in keys && y !in s
      ensures !Before(keys[y], keys[x])
    {
      var i :| 0 <= i < |s| && s[i] == x;
      assert y in full;
      var j :| 0 <= j < |full| && full[j] == y;
      assert |s| <= j;
      assert full[i] == x;
    }
  }

  /** Taking `k` and then `m` of what is left is taking `k + m`. */
  lemma Compose(keys: map<Id, Key>, k: nat, s: seq<Id>, m: nat, t: seq<Id>)
    requires TopPrefix(keys, k, s)
    requires TopPrefix(keys - Elements(s), m, t)
    ensures TopPrefix(keys, k + m, s + t)
  {
    var rest := keys - Elements(s);
    Remaining(keys, s);
    forall x, y | x in s && y in t
      ensures x != y && !Before(keys[y], keys[x])
    {
      assert y in Elements(t);
      assert y in rest;
    }
    assert Sorted(keys, t) by { assert Elements(t) <= rest.Keys <= keys.Keys; }
    Join(keys, s, t);
    forall x, y | x in s + t && y in keys && y !in s + t
      ensures !Before(keys[y], keys[x])
    {
      assert y !in s && y !in t && y in rest;
      if x !in s {
        assert x in t && rest[x] == keys[x] && rest[y] == keys[y];
      }
    }
  }

  lemma Remaining(keys: map<Id, Key>, s: seq<Id>)
    requires Distinct(s) && Elements(s) <= keys.Keys
    ensures (keys - Elements(s)).Keys == keys.Keys - Elements(s)
    ensures |keys - Elements(s)| == |keys| - |s|
  {
    DistinctSize(s);
    KeysSize(keys);
    KeysSize(keys - Elements(s));
    assert (keys - Elements(s)).Keys == keys.Keys - Elements(s);
  }

  lemma Join(keys: map<Id, Key>, s: seq<Id>, t: seq<Id>)
    requires Sorted(keys, s) && Distinct(s)
    requires Sorted(keys, t) && Distinct(t)
    requires forall x, y :: x in s && y in t ==> x != y && !Before(keys[y], keys[x])
    ensures Sorted(keys, s + t) && Distinct(s + t)
    ensures Elements(s + t) == Elements(s) + Elements(t)
  {
    var r := s + t;
    forall i, j | 0 <= i < j < |r|
      ensures r[i] != r[j] && r[i] in keys && r[j] in keys && !Before(keys[r[j]], keys[r[i]])
    {
      assert r[i] == if i < |s| then s[i] else t[i - |s|];
      assert r[j] == if j < |s| then s[j] else t[j - |s|];
      if i < |s| <= j {
        assert s[i] in s && t[j - |s|] in t;
      }
    }
  }

  /** With pairwise different keys the selection is determined. */
  lemma {:induction false} Unique(keys: map<Id, Key>, k: nat, s: seq<Id>, t: seq<Id>)
    requires TopPrefix(keys, k, s) && TopPrefix(keys, k, t)
    requires NoTies(keys)
    ensures s == t
  {
    KeysDetermined(keys, k, s, t);
    forall i | 0 <= i < |s|
      ensures s[i] == t[i]
    {
      assert s[i] in keys && t[i] in keys;
    }
  }

  /** Even with ties, the keys read off any two selections agree position by position. */
  lemma {:induction false} KeysDetermined(keys: map<Id, Key>, k: nat, s: seq<Id>, t: seq<Id>)
    requires TopPrefix(keys, k, s) && TopPrefix(keys, k, t)
    ensures |s| == |t|
    ensures forall i :: 0 <= i < |s| ==> s[i] in keys && t[i] in keys && keys[s[i]] == keys[t[i]]
  {
    forall i | 0 <= i < |s|
      ensures s[i] in keys && t[i] in keys && keys[s[i]] == keys[t[i]]
    {
      assert s[i] in Elements(s) && t[i] in Elements(t);
      NotBeforeAt(keys, k, s, t, i);
      NotBeforeAt(keys, k, t, s, i);
      BeforeIsOrder(keys[s[i]], keys[t[i]], keys[s[i]]);
    }
  }

  /** If the i-th of `s` came before the i-th of `t`, what `s` lists up to it would be in `t` before that. */
  lemma AmongFirst(keys: map<Id, Key>, k: nat, s: seq<Id>, t: seq<Id>, i: nat, j: nat)
    requires TopPrefix(keys, k, s) && TopPrefix(keys, k, t)
    requires j <= i < |s| && s[i] in keys && t[i] in keys && Before(keys[s[i]], keys[t[i]])
    ensures s[j] in t[..i]
  {
    var x := s[j];
    assert x in Elements(s) && t[i] in Elements(t);
    BeforeIsOrder(keys[t[i]], keys[x], keys[x]);
    assert Before(keys[x], keys[t[i]]) by {
      if j < i {
        NotAfter(keys[x], keys[s[i]], keys[t[i]]);
      }
    }
    assert x in t;
    var l :| 0 <= l < |t| && t[l] == x;
    assert l < i;
    assert t[..i][l] == x;
  }

  lemma NotBeforeAt(keys: map<Id, Key>, k: nat, s: seq<Id>, t: seq<Id>, i: nat)
    requires TopPrefix(keys, k, s) && TopPrefix(keys, k, t)
    requires i < |s|
    ensures s[i] in keys && t[i] in keys && !Before(keys[s[i]], keys[t[i]])
  {
    assert s[i] in Elements(s) && t[i] in Elements(t);
    if Before(keys[s[i]], keys[t[i]]) {
      var a, b := s[..i + 1], t[..i];
      forall x | x in a
        ensures x in b
      {
        var j :| 0 <= j <= i && s[j] == x;
        AmongFirst(keys, k, s, t, i, j);
      }
      DistinctSize(a);
      DistinctSize(b);
      SubsetSize(Elements(a), Elements(b));
    }
  }

  lemma {:induction false} SubsetSize<T>(a: set<T>, b: set<T>)
    requires a <= b
    ensures |a| <= |b|
    ensures |a| == |b| ==> a == b
  {
    assert b == a + (b - a);
  }

  /** Selections depend on the keys only through their order. */
  lemma SameOrder(keys: map<Id, Key>, keys': map<Id, Key>, k: nat, s: seq<Id>)
    requires keys.Keys == keys'.Keys
    requires forall x, y :: x in keys && y in keys ==> (Before(keys[x], keys[y]) <==> Before(keys'[x], keys'[y]))
    requires TopPrefix(keys, k, s)
    ensures TopPrefix(keys', k, s)
  {
    KeysSize(keys);
    KeysSize(keys');
    forall i | 0 <= i < |s|
      ensures s[i] in keys
    {
      assert s[i] in Elements(s);
    }
  }

  /** A candidate that no other comes after. */
  lemma {:induction false} Last(keys: map<Id, Key>) returns (x: Id)
    requires keys != map[]
    ensures x in keys && forall y :: y in keys ==> !Before(keys[x], keys[y])
    decreases |keys|
  {
    x :| x in keys;
    var rest := keys - {x};
    assert rest.Keys == keys.Keys - {x};
    KeysSize(keys);
    KeysSize(rest);
    BeforeIsOrder(keys[x], keys[x], keys[x]);
    if rest != map[] {
      var z := Last(rest);
      forall y | y in rest
        ensures !Before(keys[z], keys[y])
      {
      }
      BeforeIsOrder(keys[z], keys[x], keys[z]);
      if Before(keys[x], keys[z]) {
        x := z;
      } else {
        forall y | y in rest
          ensures !Before(keys[x], keys[y])
        {
          NotAfter(keys[y], keys[z], keys[x]);
        }
      }
    }
  }

  /** Any candidates can be listed in key order. */
  lemma {:induction false} ListingExists(keys: map<Id, Key>) returns (s: seq<Id>)
    ensures SortedListing(keys, s)
    decreases |keys|
  {
    s := [];
    if keys != map[] {
      var x := Last(keys);
      var rest := keys - {x};
      assert rest.Keys == keys.Keys - {x};
      KeysSize(keys);
      KeysSize(rest);
      var front := ListingExists(rest);
      s := front + [x];
      ListingSnoc(keys, front, x);
    }
  }

  lemma ListingSnoc(keys: map<Id, Key>, front: seq<Id>, x: Id)
    requires x in keys && SortedListing(keys - {x}, front) && forall y :: y in keys ==> !Before(keys[x], keys[y])
    ensures SortedListing(keys, front + [x])
  {
    var s := front + [x];
    assert Elements(s) == Elements(front) + {x};
    forall i | 0 <= i < |front|
      ensures front[i] in keys && front[i] != x
    {
      assert front[i] in Elements(front);
    }
  }

  /** A selection large enough is the whole listing. */
  lemma ListingIsTop(keys: map<Id, Key>, s: seq<Id>, k: nat)
    requires SortedListing(keys, s) && k >= |keys|
    ensures TopPrefix(keys, k, s)
  {
    PrefixIsTop(keys, s, k);
    assert s[..|s|] == s;
  }

  /** And the other way around. */
  lemma WholeIsListing(keys: map<Id, Key>, s: seq<Id>, k: nat)
    requires TopPrefix(keys, k, s) && k >= |keys|
    ensures Elements(s) == keys.Keys
  {
    DistinctSize(s);
    KeysSize(keys);
    SubsetSize(Elements(s), keys.Keys);
  }

  /** The next element of a list without repetitions is new. */
  lemma Growing(s: seq<Id>, i: nat)
    requires Distinct(s) && i < |s|
    ensures s[i] !in Elements(s[..i]) && Elements(s[..i + 1]) == Elements(s[..i]) + {s[i]}
  {
    assert s[..i + 1] == s[..i] + [s[i]];
  }

  /** Insertion sort of the candidates: any sorted listing, whatever order the hash map gives them in. */
  method Sort(keys: map<Id, Key>) returns (s: seq<Id>)
    ensures SortedListing(keys, s)
  {
    s := [];
    var rest := keys.Keys;
    while rest != {}
      invariant rest <= keys.Keys
      invariant Sorted(keys, s) && Distinct(s)
      invariant Elements(s) == keys.Keys - rest
      decreases rest
    {
      var x :| x in rest;
      s := Insert(keys, s, x);
      rest := rest - {x};
    }
  }

  method Insert(keys: map<Id, Key>, s: seq<Id>, x: Id) returns (r: seq<Id>)
    requires Sorted(keys, s) && Distinct(s)
    requires x in keys && x !in s
    ensures Sorted(keys, r) && Distinct(r)
    ensures Elements(r) == Elements(s) + {x}
  {
    var i := 0;
    while i < |s| && !Before(keys[x], keys[s[i]])
      invariant 0 <= i <= |s|
      invariant forall j :: 0 <= j < i ==> !Before(keys[x], keys[s[j]])
    {
      i := i + 1;
    }
    assert s == s[..i] + s[i..];
    forall y | y in s[i..]
      ensures !Before(keys[y], keys[x])
    {
      var j :| i <= j < |s| && s[j] == y;
      BeforeIsOrder(keys[y], keys[x], keys[s[i]]);
      assert i < j ==> !Before(keys[s[j]], keys[s[i]]);
    }
    Slice(keys, s, i);
    Join(keys, [x], s[i..]);
    Join(keys, s[..i], [x] + s[i..]);
    r := s[..i] + ([x] + s[i..]);
  }

  lemma Slice(keys: map<Id, Key>, s: seq<Id>, i: nat)
    requires Sorted(keys, s) && Distinct(s) && i <= |s|
    ensures Sorted(keys, s[..i]) && Distinct(s[..i])
    ensures Sorted(keys, s[i..]) && Distinct(s[i..])
    ensures forall x, y :: x in s[..i] && y in s[i..] ==> x != y && !Before(keys[y], keys[x])
  {
  }

  /** Sort, then keep the first `k`. */
  method SortAndTake(keys: map<Id, Key>, k: nat) returns (s: seq<Id>)
    ensures TopPrefix(keys, k, s)
  {
    var full := Sort(keys);
    PrefixIsTop(keys, full, k);
    s := full[..Min(k, |full|)];
  }
}
