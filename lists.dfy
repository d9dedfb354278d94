/** List comprehensions the scripts use over file lines and fields, written
    once for any element type: `[g(x) for x in s if g(x) is not None]`, and
    `[g(x) for x in s]` where g may raise. */
module Lists {
  import opened Wrappers

  /** The present results of f over s, in order. */
  function FilterMap<A, B>(f: A -> Option<B>, s: seq<A>): seq<B> {
    if s == [] then [] else FilterMap(f, s[..|s| - 1]) + f(s[|s| - 1]).ToSeq()
  }

  lemma {:induction false} FilterMapAppend<A, B>(f: A -> Option<B>, s: seq<A>, t: seq<A>)
    ensures FilterMap(f, s + t) == FilterMap(f, s) + FilterMap(f, t)
  {
    if t == [] {
      assert s + t == s;
    } else {
      assert (s + t)[..|s + t| - 1] == s + t[..|t| - 1];
      FilterMapAppend(f, s, t[..|t| - 1]);
    }
  }

  lemma AppendAssoc<T>(a: seq<T>, b: seq<T>, c: seq<T>)
    ensures a + (b + c) == (a + b) + c
  {
  }

  /** A non-empty sequence is its front and its last element. */
  lemma Snoc<T>(s: seq<T>)
    requires s != []
    ensures s[..|s| - 1] + [s[|s| - 1]] == s
  {
  }

  lemma FilterMapSingle<A, B>(f: A -> Option<B>, x: A)
    ensures FilterMap(f, [x]) == f(x).ToSeq()
  {
    assert [x][..0] == [];
  }

  /** Extending the input by one element extends the result by that element's
      result, if any (the step of a loop that appends). */
  lemma FilterMapStep<A, B>(f: A -> Option<B>, s: seq<A>, i: nat)
    requires i < |s|
    ensures FilterMap(f, s[..i + 1]) == FilterMap(f, s[..i]) + f(s[i]).ToSeq()
  {
    assert s[..i + 1][..i] == s[..i];
  }

  /** Every result comes from one element, and every present result is kept. */
  lemma {:induction false} FilterMapMembers<A, B>(f: A -> Option<B>, s: seq<A>, b: B)
    ensures b in FilterMap(f, s) <==> exists j :: 0 <= j < |s| && f(s[j]) == Some(b)
  {
    if s != [] {
      var init := s[..|s| - 1];
      FilterMapMembers(f, init, b);
      if b in FilterMap(f, init) {
        var j :| 0 <= j < |init| && f(init[j]) == Some(b);
        assert s[j] == init[j];
      }
      if exists j :: 0 <= j < |s| && f(s[j]) == Some(b) {
        var j :| 0 <= j < |s| && f(s[j]) == Some(b);
        if j < |init| { assert init[j] == s[j]; }
      }
    }
  }

  /** [x for x in s if p(x)] */
  function Keep<A>(p: A -> bool): A -> Option<A> {
    x => if p(x) then Some(x) else None
  }

  lemma KeepMembers<A>(p: A -> bool, s: seq<A>, x: A)
    ensures x in FilterMap(Keep(p), s) <==> x in s && p(x)
  {
    FilterMapMembers(Keep(p), s, x);
  }

  lemma {:induction false} FilterMapLength<A, B>(f: A -> Option<B>, s: seq<A>)
    ensures |FilterMap(f, s)| <= |s|
  {
    if s != [] { FilterMapLength(f, s[..|s| - 1]); }
  }

  /** Nothing is kept exactly when f gives nothing for every element. */
  lemma {:induction false} FilterMapEmpty<A, B>(f: A -> Option<B>, s: seq<A>)
    ensures FilterMap(f, s) == [] <==> forall i :: 0 <= i < |s| ==> f(s[i]).None?
  {
    if s != [] {
      FilterMapEmpty(f, s[..|s| - 1]);
      assert forall i :: 0 <= i < |s| - 1 ==> s[..|s| - 1][i] == s[i];
    }
  }

  /** Every result satisfies what f promises of its present results. */
  lemma {:induction false} FilterMapAll<A, B>(f: A -> Option<B>, s: seq<A>, p: B -> bool)
    requires forall x :: f(x).Some? ==> p(f(x).value)
    ensures forall k :: 0 <= k < |FilterMap(f, s)| ==> p(FilterMap(f, s)[k])
  {
    if s != [] { FilterMapAll(f, s[..|s| - 1], p); }
  }

  /** [f(x) for x in s] */
  function Image<A, B>(f: A --> B, s: seq<A>): (r: seq<B>)
    requires forall i :: 0 <= i < |s| ==> f.requires(s[i])
    ensures |r| == |s|
  {
    if s == [] then [] else Image(f, s[..|s| - 1]) + [f(s[|s| - 1])]
  }

  lemma {:induction false} ImageAt<A, B>(f: A --> B, s: seq<A>, i: nat)
    requires forall i :: 0 <= i < |s| ==> f.requires(s[i])
    requires i < |s|
    ensures Image(f, s)[i] == f(s[i])
  {
    var init := s[..|s| - 1];
    if i < |init| {
      ImageAt(f, init, i);
      assert init[i] == s[i];
    }
  }

  lemma ImageStep<A, B>(f: A -> B, s: seq<A>, i: nat)
    requires i < |s|
    ensures Image(f, s[..i + 1]) == Image(f, s[..i]) + [f(s[i])]
  {
    assert s[..i + 1][..i] == s[..i];
  }

  lemma {:induction false} ImageAppend<A, B>(f: A -> B, s: seq<A>, t: seq<A>)
    ensures Image(f, s + t) == Image(f, s) + Image(f, t)
    decreases |t|
  {
    if t == [] {
      assert s + t == s;
    } else {
      assert (s + t)[..|s + t| - 1] == s + t[..|t| - 1];
      ImageAppend(f, s, t[..|t| - 1]);
    }
  }

  /** [f(x) for x in s] where f may raise (None): the values when no call
      raises, otherwise None. */
  function MapAll<A, B>(f: A -> Option<B>, s: seq<A>): Option<seq<B>> {
    if s == [] then Some([])
    else
      var first, rest := f(s[0]), MapAll(f, s[1..]);
      if first.Some? && rest.Some? then Some([first.value] + rest.value) else None
  }

  /** The comprehension succeeds exactly when every call does, and then holds
      their values in order. */
  lemma {:induction false} MapAllSome<A, B>(f: A -> Option<B>, s: seq<A>)
    ensures MapAll(f, s).Some? <==> forall i :: 0 <= i < |s| ==> f(s[i]).Some?
    ensures MapAll(f, s).Some? ==> |MapAll(f, s).value| == |s|
    ensures MapAll(f, s).Some? ==> forall i :: 0 <= i < |s| ==> f(s[i]) == Some(MapAll(f, s).value[i])
  {
    if s != [] {
      MapAllSome(f, s[1..]);
      assert forall i :: 1 <= i < |s| ==> s[i] == s[1..][i - 1];
    }
  }

  lemma MapAllThree<A, B>(f: A -> Option<B>, p: A, q: A, r: A, u: B, v: B, w: B)
    requires f(p) == Some(u) && f(q) == Some(v) && f(r) == Some(w)
    ensures MapAll(f, [p, q, r]) == Some([u, v, w])
  {
    var none: seq<A> := [];
    assert MapAll(f, none) == Some([]);
    assert [r][1..] == none;
    assert [w] + [] == [w];
    assert MapAll(f, [r]) == Some([w]);
    assert [q, r][1..] == [r];
    assert [v] + [w] == [v, w];
    assert MapAll(f, [q, r]) == Some([v, w]);
    assert [u] + [v, w] == [u, v, w];
    assert [p, q, r][1..] == [q, r];
  }

  /** The lists of s, one after another. */
  function Concat<T>(s: seq<seq<T>>): seq<T> {
    if s == [] then [] else Concat(s[..|s| - 1]) + s[|s| - 1]
  }

  /** A slice within the first part of a concatenation. */
  lemma SliceAppendLeft<T>(a: seq<T>, b: seq<T>, lo: nat, hi: nat)
    requires lo <= hi <= |a|
    ensures (a + b)[lo..hi] == a[lo..hi]
  {
    assert forall k :: 0 <= k < hi - lo ==> (a + b)[lo..hi][k] == a[lo + k];
  }

  /** A slice within the second part of a concatenation. */
  lemma SliceAppendRight<T>(a: seq<T>, b: seq<T>, lo: nat, hi: nat)
    requires |a| <= lo <= hi <= |a| + |b|
    ensures (a + b)[lo..hi] == b[lo - |a|..hi - |a|]
  {
    assert forall k :: 0 <= k < hi - lo ==> (a + b)[lo..hi][k] == b[lo - |a| + k];
  }

  /** Concatenating one more list of a prefix. */
  lemma ConcatPrefixStep<T>(s: seq<seq<T>>, k: nat)
    requires k < |s|
    ensures Concat(s[..k + 1]) == Concat(s[..k]) + s[k]
  {
    assert s[..k + 1][..k] == s[..k];
  }

  /** The first list followed by the concatenation of the others. */
  lemma {:induction false} ConcatCons<T>(a: seq<T>, rest: seq<seq<T>>)
    ensures Concat([a] + rest) == a + Concat(rest)
    decreases |rest|
  {
    if rest == [] {
      assert [a] + rest == [a];
      assert [a][..0] == [];
    } else {
      var init := rest[..|rest| - 1];
      assert ([a] + rest)[..|rest|] == [a] + init;
      ConcatCons(a, init);
    }
  }

  /** d[k].append(v) on a defaultdict(list). */
  function AddPair<K, V>(m: map<K, seq<V>>, kv: (K, V)): map<K, seq<V>> {
    m[kv.0 := (if kv.0 in m then m[kv.0] else []) + [kv.1]]
  }

  /** The defaultdict(list) after appending each pair in turn. */
  function Buckets<K, V>(m: map<K, seq<V>>, kvs: seq<(K, V)>): map<K, seq<V>> {
    if kvs == [] then m else AddPair(Buckets(m, kvs[..|kvs| - 1]), kvs[|kvs| - 1])
  }

  /** The values paired with k, in order. */
  function BucketOf<K(==), V>(kvs: seq<(K, V)>, k: K): seq<V> {
    if kvs == [] then []
    else BucketOf(kvs[..|kvs| - 1], k) + (if kvs[|kvs| - 1].0 == k then [kvs[|kvs| - 1].1] else [])
  }

  /** The keys of kvs, each once, in order of first appearance (the key
      order of the dict). */
  function KeysOf<K(==), V>(kvs: seq<(K, V)>): seq<K> {
    if kvs == [] then []
    else
      var ks := KeysOf(kvs[..|kvs| - 1]);
      if kvs[|kvs| - 1].0 in ks then ks else ks + [kvs[|kvs| - 1].0]
  }

  lemma BucketsSnoc<K, V>(m: map<K, seq<V>>, kvs: seq<(K, V)>, kv: (K, V))
    ensures Buckets(m, kvs + [kv]) == AddPair(Buckets(m, kvs), kv)
  {
    assert (kvs + [kv])[..|kvs|] == kvs;
  }

  lemma {:induction false} BucketsAppend<K, V>(m: map<K, seq<V>>, a: seq<(K, V)>, b: seq<(K, V)>)
    ensures Buckets(m, a + b) == Buckets(Buckets(m, a), b)
  {
    if b == [] {
      assert a + b == a;
    } else {
      assert (a + b)[..|a + b| - 1] == a + b[..|b| - 1];
      BucketsAppend(m, a, b[..|b| - 1]);
    }
  }

  /** A key is present exactly when some pair has it, and its list holds
      every value paired with it, in order. */
  lemma {:induction false} BucketsLookup<K, V>(kvs: seq<(K, V)>, k: K)
    ensures k in Buckets(map[], kvs) <==> BucketOf(kvs, k) != []
    ensures k in Buckets(map[], kvs) ==> Buckets(map[], kvs)[k] == BucketOf(kvs, k)
  {
    if kvs != [] {
      BucketsLookup(kvs[..|kvs| - 1], k);
    }
  }

  /** A value sits in k's list once per pair (k, v). */
  lemma {:induction false} BucketCount<K, V>(kvs: seq<(K, V)>, k: K, v: V)
    ensures multiset(BucketOf(kvs, k))[v] == multiset(kvs)[(k, v)]
  {
    if kvs != [] {
      var init := kvs[..|kvs| - 1];
      BucketCount(init, k, v);
      assert kvs == init + [kvs[|kvs| - 1]];
    }
  }

  /** The dict's keys are exactly the paired keys, each once. */
  lemma {:induction false} KeysOfFacts<K, V>(kvs: seq<(K, V)>)
    ensures forall k :: k in KeysOf(kvs) <==> BucketOf(kvs, k) != []
    ensures forall i, j :: 0 <= i < j < |KeysOf(kvs)| ==> KeysOf(kvs)[i] != KeysOf(kvs)[j]
  {
    if kvs != [] {
      KeysOfFacts(kvs[..|kvs| - 1]);
    }
  }
}
