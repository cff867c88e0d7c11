/**
 * Grouping a list by an optional tag, as both text panels do with
 * `frame_dict`: the distinct tags in first-occurrence order, the elements of
 * each tag in input order, and the untagged rest. The lemmas show that the
 * groups of all tags plus the untagged elements hold every element once.
 */
module Grouping {
  import opened Wrappers
  import opened Sorting

  /** No element occurs twice. */
  ghost predicate Distinct<K(!new)>(s: seq<K>) {
    forall x :: multiset(s)[x] <= 1
  }

  /** The distinct tags of `s` in first-occurrence order (the keys of the dictionary). */
  function Keys<T, K(==)>(s: seq<T>, tag: T -> Option<K>): (keys: seq<K>)
    ensures forall k :: 0 <= k < |s| && tag(s[k]).Some? ==> tag(s[k]).value in keys
    ensures forall f :: f in keys ==> exists k :: 0 <= k < |s| && tag(s[k]) == Some(f)
  {
    if s == [] then []
    else
      var init := s[..|s| - 1];
      var t := tag(s[|s| - 1]);
      var prev := Keys(init, tag);
      assert forall k :: 0 <= k < |init| ==> init[k] == s[k];
      if t.Some? && t.value !in prev then prev + [t.value] else prev
  }

  lemma {:induction false} KeysDistinct<T, K(!new)>(s: seq<T>, tag: T -> Option<K>)
    ensures Distinct(Keys(s, tag))
  {
    if s != [] {
      var init := s[..|s| - 1];
      var t := tag(s[|s| - 1]);
      KeysDistinct(init, tag);
      if t.Some? && t.value !in Keys(init, tag) {
        assert multiset(Keys(init, tag) + [t.value]) == multiset(Keys(init, tag)) + multiset{t.value};
      }
    }
  }

  /** The elements tagged `f`, in input order. */
  function Tagged<T, K(==)>(s: seq<T>, tag: T -> Option<K>, f: K): (g: seq<T>)
    ensures forall k :: 0 <= k < |g| ==> tag(g[k]) == Some(f)
  {
    if s == [] then []
    else
      var x := s[|s| - 1];
      Tagged(s[..|s| - 1], tag, f) + (if tag(x) == Some(f) then [x] else [])
  }

  /** The untagged elements, in input order. */
  function Untagged<T, K>(s: seq<T>, tag: T -> Option<K>): (u: seq<T>)
    ensures forall k :: 0 <= k < |u| ==> tag(u[k]).None?
  {
    if s == [] then []
    else
      var x := s[|s| - 1];
      Untagged(s[..|s| - 1], tag) + (if tag(x).None? then [x] else [])
  }

  /** The tagged elements, in input order. */
  function AnyTagged<T, K>(s: seq<T>, tag: T -> Option<K>): (u: seq<T>)
    ensures |u| <= |s|
    ensures forall k :: 0 <= k < |u| ==> tag(u[k]).Some?
  {
    if s == [] then []
    else
      var x := s[|s| - 1];
      AnyTagged(s[..|s| - 1], tag) + (if tag(x).Some? then [x] else [])
  }

  /** The elements whose tag is one of `keys`, in input order. */
  function TaggedIn<T, K(==)>(s: seq<T>, tag: T -> Option<K>, keys: seq<K>): seq<T> {
    if s == [] then []
    else
      var x := s[|s| - 1];
      TaggedIn(s[..|s| - 1], tag, keys) + (if tag(x).Some? && tag(x).value in keys then [x] else [])
  }

  /** The group of each key. */
  function GroupsOf<T, K(==)>(s: seq<T>, tag: T -> Option<K>, keys: seq<K>): (g: seq<seq<T>>)
    ensures |g| == |keys| && forall k :: 0 <= k < |keys| ==> g[k] == Tagged(s, tag, keys[k])
  {
    seq(|keys|, k requires 0 <= k < |keys| => Tagged(s, tag, keys[k]))
  }

  lemma GroupsOfSnoc<T, K>(s: seq<T>, tag: T -> Option<K>, keys: seq<K>, f: K)
    ensures GroupsOf(s, tag, keys + [f]) == GroupsOf(s, tag, keys) + [Tagged(s, tag, f)]
  {
    var g := GroupsOf(s, tag, keys + [f]);
    forall k | 0 <= k < |g| ensures g[k] == (GroupsOf(s, tag, keys) + [Tagged(s, tag, f)])[k] {
      assert (keys + [f])[k] == if k < |keys| then keys[k] else f;
    }
  }

  /** A value that is no key has an empty group. */
  lemma {:induction false} TaggedAbsent<T, K>(s: seq<T>, tag: T -> Option<K>, f: K)
    requires f !in Keys(s, tag)
    ensures Tagged(s, tag, f) == []
  {
    if s != [] {
      var init := s[..|s| - 1];
      if f in Keys(init, tag) {
        assert false;
      }
      TaggedAbsent(init, tag, f);
    }
  }

  lemma {:induction false} TaggedUntaggedSplit<T, K>(s: seq<T>, tag: T -> Option<K>)
    ensures multiset(AnyTagged(s, tag)) + multiset(Untagged(s, tag)) == multiset(s)
  {
    if s != [] {
      var init := s[..|s| - 1];
      var x := s[|s| - 1];
      TaggedUntaggedSplit(init, tag);
      assert s == init + [x];
      if tag(x).Some? {
        assert AnyTagged(s, tag) == AnyTagged(init, tag) + [x];
        assert Untagged(s, tag) == Untagged(init, tag);
      } else {
        assert AnyTagged(s, tag) == AnyTagged(init, tag);
        assert Untagged(s, tag) == Untagged(init, tag) + [x];
      }
    }
  }

  /** When `keys` covers every tag, the elements tagged in `keys` are all tagged elements. */
  lemma {:induction false} TaggedInAll<T, K>(s: seq<T>, tag: T -> Option<K>, keys: seq<K>)
    requires forall k :: 0 <= k < |s| && tag(s[k]).Some? ==> tag(s[k]).value in keys
    ensures TaggedIn(s, tag, keys) == AnyTagged(s, tag)
  {
    if s != [] {
      var init := s[..|s| - 1];
      assert forall k :: 0 <= k < |init| ==> init[k] == s[k];
      TaggedInAll(init, tag, keys);
    }
  }

  /** Adding a new key adds exactly that key's group. */
  lemma {:induction false} TaggedInSnocKey<T, K>(s: seq<T>, tag: T -> Option<K>, keys: seq<K>, f: K)
    requires f !in keys
    ensures multiset(TaggedIn(s, tag, keys + [f])) == multiset(TaggedIn(s, tag, keys)) + multiset(Tagged(s, tag, f))
  {
    if s != [] {
      var init := s[..|s| - 1];
      var x := s[|s| - 1];
      TaggedInSnocKey(init, tag, keys, f);
      var a := if tag(x).Some? && tag(x).value in keys + [f] then [x] else [];
      var b := if tag(x).Some? && tag(x).value in keys then [x] else [];
      var c := if tag(x) == Some(f) then [x] else [];
      assert multiset(a) == multiset(b) + multiset(c);
      assert TaggedIn(s, tag, keys + [f]) == TaggedIn(init, tag, keys + [f]) + a;
      assert TaggedIn(s, tag, keys) == TaggedIn(init, tag, keys) + b;
      assert Tagged(s, tag, f) == Tagged(init, tag, f) + c;
    }
  }

  lemma {:induction false} TaggedInNone<T, K>(s: seq<T>, tag: T -> Option<K>)
    ensures TaggedIn(s, tag, []) == []
  {
    if s != [] {
      TaggedInNone(s[..|s| - 1], tag);
    }
  }

  /** The keys before the last of distinct keys are distinct and do not hold it. */
  lemma DistinctSnoc<K(!new)>(init: seq<K>, f: K)
    requires Distinct(init + [f])
    ensures Distinct(init) && f !in init
  {
    var keys := init + [f];
    assert multiset(keys) == multiset(init) + multiset{f};
    forall x ensures multiset(init)[x] <= 1 {
      assert multiset(init)[x] <= multiset(keys)[x];
    }
    assert multiset(keys)[f] == multiset(init)[f] + 1;
  }

  /** The groups of distinct keys together hold the elements tagged with those keys. */
  lemma {:induction false} GroupsOfMultiset<T, K(!new)>(s: seq<T>, tag: T -> Option<K>, keys: seq<K>)
    requires Distinct(keys)
    ensures multiset(Flatten(GroupsOf(s, tag, keys))) == multiset(TaggedIn(s, tag, keys))
  {
    if keys == [] {
      TaggedInNone(s, tag);
    } else {
      var init := keys[..|keys| - 1];
      var f := keys[|keys| - 1];
      assert keys == init + [f];
      DistinctSnoc(init, f);
      GroupsOfMultiset(s, tag, init);
      GroupsOfSnoc(s, tag, init, f);
      FlattenSnoc(GroupsOf(s, tag, init), Tagged(s, tag, f));
      TaggedInSnocKey(s, tag, init, f);
    }
  }

  /**
   * Taking the groups in any order of the keys (a permutation of them)
   * gathers every tagged element exactly once.
   */
  lemma GroupsInOrder<T, K(!new)>(s: seq<T>, tag: T -> Option<K>, order: seq<K>)
    requires multiset(order) == multiset(Keys(s, tag))
    ensures multiset(Flatten(GroupsOf(s, tag, order))) == multiset(AnyTagged(s, tag))
  {
    KeysDistinct(s, tag);
    assert Distinct(order);
    forall k | 0 <= k < |s| && tag(s[k]).Some? ensures tag(s[k]).value in order {
      assert tag(s[k]).value in multiset(Keys(s, tag));
    }
    GroupsOfMultiset(s, tag, order);
    TaggedInAll(s, tag, order);
  }
}
