/**
 * The recently opened folders (`CacheFolder`): most recent first, each at
 * most once after it is added, at most `max_items` long. The JSON file it is
 * loaded from and saved to is a parameter of the constructor.
 */
module RecentFolders {

  /** The folders other than `p`, in their order. */
  function Without(folders: seq<string>, p: string): (r: seq<string>)
    ensures |r| <= |folders| && p !in r
    ensures forall q :: q in r <==> q in folders && q != p
    ensures forall q :: q != p ==> multiset(r)[q] == multiset(folders)[q]
  {
    if folders == [] then []
    else
      var rest := Without(folders[1..], p);
      assert folders == [folders[0]] + folders[1..];
      if folders[0] == p then rest else [folders[0]] + rest
  }

  /** `folders[:n]`. */
  function Take(s: seq<string>, n: nat): (r: seq<string>)
    ensures |r| <= n && |r| <= |s| && r == s[..|r|]
    ensures |s| <= n ==> r == s
  {
    if |s| > n then s[..n] else s
  }

  /** `add(p)`: `p` in front of the others, cut to `maxItems`. */
  function Added(folders: seq<string>, p: string, maxItems: nat): seq<string> {
    Take([p] + Without(folders, p), maxItems)
  }

  predicate NoDuplicates(s: seq<string>) {
    forall i, j :: 0 <= i < j < |s| ==> s[i] != s[j]
  }

  lemma {:induction false} WithoutKeepsNoDuplicates(folders: seq<string>, p: string)
    requires NoDuplicates(folders)
    ensures NoDuplicates(Without(folders, p))
  {
    if folders != [] {
      var rest := folders[1..];
      assert NoDuplicates(rest) by {
        forall i, j | 0 <= i < j < |rest| ensures rest[i] != rest[j] {
          assert rest[i] == folders[i + 1] && rest[j] == folders[j + 1];
        }
      }
      WithoutKeepsNoDuplicates(rest, p);
      assert folders[0] !in rest;
    }
  }

  /**
   * After `add(p)` the list is at most `maxItems` long; when it has room for
   * one, `p` is first and occurs once; the others follow in their old order
   * with `p` taken out.
   */
  lemma AddedShape(folders: seq<string>, p: string, maxItems: nat)
    ensures var r := Added(folders, p, maxItems);
            |r| <= maxItems &&
            (maxItems >= 1 ==> r[0] == p && multiset(r)[p] == 1 && r[1..] == Without(folders, p)[..|r| - 1])
  {
    var r := Added(folders, p, maxItems);
    if maxItems >= 1 {
      var w := [p] + Without(folders, p);
      assert r == w[..|r|];
      assert r == [p] + r[1..];
      assert r[1..] == Without(folders, p)[..|r| - 1];
      assert p !in r[1..];
      assert multiset(r) == multiset{p} + multiset(r[1..]);
    }
  }

  /** A list without duplicates keeps none. */
  lemma AddedNoDuplicates(folders: seq<string>, p: string, maxItems: nat)
    requires NoDuplicates(folders)
    ensures NoDuplicates(Added(folders, p, maxItems))
  {
    WithoutKeepsNoDuplicates(folders, p);
    var w := [p] + Without(folders, p);
    assert NoDuplicates(w) by {
      forall i, j | 0 <= i < j < |w| ensures w[i] != w[j] {
        if i == 0 {
          assert w[j] in Without(folders, p);
        } else {
          assert w[i] == Without(folders, p)[i - 1] && w[j] == Without(folders, p)[j - 1];
        }
      }
    }
  }

  /** Adding the same folder twice is adding it once. */
  lemma AddedIdempotent(folders: seq<string>, p: string, maxItems: nat)
    ensures Added(Added(folders, p, maxItems), p, maxItems) == Added(folders, p, maxItems)
  {
    var once := Added(folders, p, maxItems);
    if maxItems >= 1 {
      AddedShape(folders, p, maxItems);
      assert once == [p] + once[1..];
      assert p !in once[1..] by {
        assert once[1..] == Without(folders, p)[..|once| - 1];
      }
      WithoutAbsent(once[1..], p);
      assert Without(once, p) == once[1..];
    }
  }

  lemma {:induction false} WithoutAbsent(s: seq<string>, p: string)
    requires p !in s
    ensures Without(s, p) == s
  {
    if s != [] {
      WithoutAbsent(s[1..], p);
    }
  }

  class CacheFolder {
    var folders: seq<string>
    const maxItems: nat

    /** A new list holding what the file held (`stored`), or nothing when it is missing or unreadable. */
    constructor (stored: seq<string>, maxItems: nat)
      ensures folders == stored && this.maxItems == maxItems
    {
      folders := stored;
      this.maxItems := maxItems;
    }

    /** `add`. */
    method Add(p: string)
      modifies this
      ensures folders == Added(old(folders), p, maxItems)
    {
      folders := [p] + Without(folders, p);
      if |folders| > maxItems {
        folders := folders[..maxItems];
      }
    }

    /** `get_all`: the folders, most recent first. */
    method GetAll() returns (r: seq<string>)
      ensures r == folders
    {
      r := folders;
    }

    /** `clear`. */
    method Clear()
      modifies this
      ensures folders == []
    {
      folders := [];
    }
  }
}
