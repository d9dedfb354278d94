/** Python's sorted() and list.sort() with a key function. Both are stable:
    elements with equal keys keep their relative order. Every key the scripts
    sort by is a tuple of integers and strings, which is modelled by `Key`
    (an int, a string, two more ints) compared lexicographically. */
module Sorting {
  import opened Text

  datatype Key = Key(a: int, name: string, b: int, c: int)

  /** Python's tuple comparison `x <= y` on keys. */
  predicate KeyLe(x: Key, y: Key) {
    x.a < y.a || (x.a == y.a && (StrLess(x.name, y.name) || (x.name == y.name &&
      (x.b < y.b || (x.b == y.b && x.c <= y.c)))))
  }

  lemma KeyLeTotal(x: Key, y: Key)
    ensures KeyLe(x, y) || KeyLe(y, x)
  {
    StrLessTotal(x.name, y.name);
  }

  lemma KeyLeAntisymmetric(x: Key, y: Key)
    requires KeyLe(x, y) && KeyLe(y, x)
    ensures x == y
  {
    if StrLess(x.name, y.name) { StrLessAsymmetric(x.name, y.name); }
    if x.name == y.name { StrLessIrreflexive(x.name); }
  }

  lemma KeyLeTransitive(x: Key, y: Key, z: Key)
    requires KeyLe(x, y) && KeyLe(y, z)
    ensures KeyLe(x, z)
  {
    if StrLess(x.name, y.name) && StrLess(y.name, z.name) {
      StrLessTransitive(x.name, y.name, z.name);
    }
  }

  predicate SortedBy<T>(s: seq<T>, key: T -> Key) {
    forall i, j :: 0 <= i < j < |s| ==> KeyLe(key(s[i]), key(s[j]))
  }

  /** The elements of s whose key is k, in their order in s. */
  function Ties<T>(s: seq<T>, key: T -> Key, k: Key): seq<T> {
    if s == [] then []
    else Ties(s[..|s| - 1], key, k) + (if key(s[|s| - 1]) == k then [s[|s| - 1]] else [])
  }

  lemma {:induction false} TiesAppend<T>(s: seq<T>, t: seq<T>, key: T -> Key, k: Key)
    ensures Ties(s + t, key, k) == Ties(s, key, k) + Ties(t, key, k)
  {
    if t != [] {
      assert (s + t)[..|s + t| - 1] == s + t[..|t| - 1];
      TiesAppend(s, t[..|t| - 1], key, k);
    } else {
      assert s + t == s;
    }
  }

  /** x placed after every element of s whose key is at most x's. */
  function Insert<T>(x: T, s: seq<T>, key: T -> Key): seq<T> {
    if s == [] || KeyLe(key(s[|s| - 1]), key(x)) then s + [x]
    else Insert(x, s[..|s| - 1], key) + [s[|s| - 1]]
  }

  /** The stable sort: insert the elements one after another. */
  function SortBy<T>(s: seq<T>, key: T -> Key): seq<T> {
    if s == [] then [] else Insert(s[|s| - 1], SortBy(s[..|s| - 1], key), key)
  }

  lemma {:induction false} InsertElements<T>(x: T, s: seq<T>, key: T -> Key)
    ensures multiset(Insert(x, s, key)) == multiset(s) + multiset{x}
  {
    if s != [] && !KeyLe(key(s[|s| - 1]), key(x)) {
      InsertElements(x, s[..|s| - 1], key);
      assert s == s[..|s| - 1] + [s[|s| - 1]];
    }
  }

  lemma {:induction false} InsertSorted<T>(x: T, s: seq<T>, key: T -> Key)
    requires SortedBy(s, key)
    ensures SortedBy(Insert(x, s, key), key)
  {
    if s == [] {
    } else if KeyLe(key(s[|s| - 1]), key(x)) {
      var r := s + [x];
      forall i, j | 0 <= i < j < |r| ensures KeyLe(key(r[i]), key(r[j])) {
        if j == |s| && i < |s| - 1 {
          KeyLeTransitive(key(s[i]), key(s[|s| - 1]), key(x));
        }
      }
    } else {
      var init, last := s[..|s| - 1], s[|s| - 1];
      InsertSorted(x, init, key);
      InsertElements(x, init, key);
      var p := Insert(x, init, key);
      KeyLeTotal(key(last), key(x));
      forall i | 0 <= i < |p| ensures KeyLe(key(p[i]), key(last)) {
        assert p[i] in multiset(p);
        if p[i] != x {
          assert p[i] in multiset(init);
          var m :| 0 <= m < |init| && init[m] == p[i];
        }
      }
      var r := p + [last];
      forall i, j | 0 <= i < j < |r| ensures KeyLe(key(r[i]), key(r[j])) {
        if j < |p| { assert r[i] == p[i] && r[j] == p[j]; }
      }
    }
  }

  lemma {:induction false} InsertTies<T>(x: T, s: seq<T>, key: T -> Key, k: Key)
    ensures Ties(Insert(x, s, key), key, k) == Ties(s, key, k) + Ties([x], key, k)
  {
    if s == [] || KeyLe(key(s[|s| - 1]), key(x)) {
      TiesAppend(s, [x], key, k);
    } else {
      var init, last := s[..|s| - 1], s[|s| - 1];
      InsertTies(x, init, key, k);
      TiesAppend(Insert(x, init, key), [last], key, k);
      assert s == init + [last];
      TiesAppend(init, [last], key, k);
      KeyLeTotal(key(last), key(x));
      assert key(last) != key(x);
    }
  }

  /** sorted(s, key=key) is ordered by the key, has the same elements, and keeps
      the input order among equal keys: the three facts that define a stable sort. */
  lemma {:induction false} SortByCorrect<T>(s: seq<T>, key: T -> Key)
    ensures SortedBy(SortBy(s, key), key)
    ensures multiset(SortBy(s, key)) == multiset(s)
    ensures forall k :: Ties(SortBy(s, key), key, k) == Ties(s, key, k)
  {
    if s != [] {
      var init, last := s[..|s| - 1], s[|s| - 1];
      assert s == init + [last];
      SortByCorrect(init, key);
      InsertSorted(last, SortBy(init, key), key);
      InsertElements(last, SortBy(init, key), key);
      forall k ensures Ties(SortBy(s, key), key, k) == Ties(s, key, k) {
        InsertTies(last, SortBy(init, key), key, k);
        TiesAppend(init, [last], key, k);
      }
    }
  }

  lemma SortByLength<T>(s: seq<T>, key: T -> Key)
    ensures |SortBy(s, key)| == |s|
  {
    SortByCorrect(s, key);
    assert |multiset(SortBy(s, key))| == |multiset(s)|;
  }

  /** Membership is unchanged by sorting. */
  lemma SortByMembers<T>(s: seq<T>, key: T -> Key)
    ensures forall x :: x in SortBy(s, key) <==> x in s
  {
    SortByCorrect(s, key);
    forall x ensures x in SortBy(s, key) <==> x in s {
      assert x in SortBy(s, key) <==> x in multiset(SortBy(s, key));
      assert x in s <==> x in multiset(s);
    }
  }
}
