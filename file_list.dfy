/** The list of paths behind a file list widget (`FileList`,
    par2guard.py:626-688): its rows, read back by `paths()`, and `add_paths`,
    which appends each new non-empty path once, in the order given. */
module FileList {

  function Elems(ps: seq<string>): set<string> {
    set p | p in ps
  }

  predicate NoDup(ps: seq<string>) {
    forall i, j :: 0 <= i < j < |ps| ==> ps[i] != ps[j]
  }

  /** The paths `add_paths` appends, given the paths `seen` already in the
      store: the non-empty ones not seen before, each at its first occurrence. */
  function Fresh(seen: set<string>, paths: seq<string>): seq<string>
    decreases |paths|
  {
    if paths == [] then []
    else if paths[0] != "" && paths[0] !in seen then [paths[0]] + Fresh(seen + {paths[0]}, paths[1..])
    else Fresh(seen, paths[1..])
  }

  /** A path is appended iff it is non-empty, was not already present and is
      among the paths given. */
  lemma {:induction false} FreshMembers(seen: set<string>, paths: seq<string>, x: string)
    ensures x in Fresh(seen, paths) <==> x != "" && x !in seen && x in paths
    decreases |paths|
  {
    if paths != [] {
      var p := paths[0];
      assert paths == [p] + paths[1..];
      if p != "" && p !in seen {
        FreshMembers(seen + {p}, paths[1..], x);
      } else {
        FreshMembers(seen, paths[1..], x);
      }
    }
  }

  /** No path is appended twice. */
  lemma {:induction false} FreshNoDup(seen: set<string>, paths: seq<string>)
    ensures NoDup(Fresh(seen, paths))
    decreases |paths|
  {
    if paths != [] {
      var p := paths[0];
      if p != "" && p !in seen {
        var rest := Fresh(seen + {p}, paths[1..]);
        FreshNoDup(seen + {p}, paths[1..]);
        FreshMembers(seen + {p}, paths[1..], p);
        var r := [p] + rest;
        forall i, j | 0 <= i < j < |r| ensures r[i] != r[j] {
          if i == 0 {
            assert r[j] == rest[j - 1] && rest[j - 1] in rest;
          } else {
            assert r[i] == rest[i - 1] && r[j] == rest[j - 1];
          }
        }
      } else {
        FreshNoDup(seen, paths[1..]);
      }
    }
  }

  /** Adding `a` and then `b` appends what adding `a + b` at once appends. */
  lemma {:induction false} FreshAppend(seen: set<string>, a: seq<string>, b: seq<string>)
    ensures Fresh(seen, a + b) == Fresh(seen, a) + Fresh(seen + Elems(Fresh(seen, a)), b)
    decreases |a|
  {
    if a == [] {
      assert a + b == b;
      assert seen + Elems(Fresh(seen, a)) == seen;
    } else {
      var p := a[0];
      assert (a + b)[0] == p && (a + b)[1..] == a[1..] + b;
      if p != "" && p !in seen {
        FreshAppend(seen + {p}, a[1..], b);
        var rest := Fresh(seen + {p}, a[1..]);
        assert Elems([p] + rest) == {p} + Elems(rest);
        assert seen + Elems([p] + rest) == seen + {p} + Elems(rest);
      } else {
        FreshAppend(seen, a[1..], b);
      }
    }
  }

  /** Nothing is appended when every path given is empty or already present. */
  lemma {:induction false} FreshOfSeen(seen: set<string>, paths: seq<string>)
    requires forall i :: 0 <= i < |paths| ==> paths[i] == "" || paths[i] in seen
    ensures Fresh(seen, paths) == []
    decreases |paths|
  {
    if paths != [] {
      FreshOfSeen(seen, paths[1..]);
    }
  }

  /** `Fresh` on the paths from `i` on takes `paths[i]` or skips it. */
  lemma {:induction false} FreshFrom(seen: set<string>, paths: seq<string>, i: nat)
    requires i < |paths|
    ensures Fresh(seen, paths[i..])
         == if paths[i] != "" && paths[i] !in seen then [paths[i]] + Fresh(seen + {paths[i]}, paths[i + 1..])
            else Fresh(seen, paths[i + 1..])
  {
    assert paths[i..][0] == paths[i] && paths[i..][1..] == paths[i + 1..];
  }

  /** The rows of one file list. */
  class FileList {
    var store: seq<string>

    constructor ()
      ensures store == []
    {
      store := [];
    }

    /** `paths()`: every stored path, in order. */
    function Paths(): seq<string>
      reads this
    {
      store
    }

    /** `add_paths(paths)`. */
    method AddPaths(paths: seq<string>)
      modifies this
      ensures store == old(store) + Fresh(Elems(old(store)), paths)
    {
      var existing := set p | p in store;
      ghost var start := store;
      var i := 0;
      while i < |paths|
        invariant 0 <= i <= |paths|
        invariant existing == Elems(store)
        invariant store + Fresh(existing, paths[i..]) == start + Fresh(Elems(start), paths)
      {
        var p := paths[i];
        FreshFrom(existing, paths, i);
        if p != "" && p !in existing {
          ghost var rest := Fresh(existing + {p}, paths[i + 1..]);
          assert store + ([p] + rest) == (store + [p]) + rest;
          assert Elems(store + [p]) == Elems(store) + {p};
          store := store + [p];
          existing := existing + {p};
        }
        i := i + 1;
      }
      assert paths[i..] == [];
    }
  }

  /** The store never holds the same path twice, nor an empty one, once it
      starts out that way. */
  lemma {:induction false} AddPathsKeepsUnique(store: seq<string>, paths: seq<string>)
    requires NoDup(store) && "" !in store
    ensures var s := store + Fresh(Elems(store), paths);
      NoDup(s) && "" !in s
  {
    var f := Fresh(Elems(store), paths);
    FreshNoDup(Elems(store), paths);
    var s := store + f;
    forall i, j | 0 <= i < j < |s| ensures s[i] != s[j] {
      if j >= |store| {
        FreshMembers(Elems(store), paths, s[j]);
        assert s[j] == f[j - |store|] && s[j] in f;
        if i >= |store| {
          assert s[i] == f[i - |store|];
        } else {
          assert s[i] in store;
        }
      }
    }
    FreshMembers(Elems(store), paths, "");
  }

  /** Adding the same paths a second time changes nothing. */
  lemma {:induction false} AddPathsIdempotent(store: seq<string>, paths: seq<string>)
    ensures var s := store + Fresh(Elems(store), paths);
      Fresh(Elems(s), paths) == []
  {
    var f := Fresh(Elems(store), paths);
    var s := store + f;
    forall i | 0 <= i < |paths| ensures paths[i] == "" || paths[i] in Elems(s) {
      FreshMembers(Elems(store), paths, paths[i]);
    }
    FreshOfSeen(Elems(s), paths);
  }

  /** Two additions in turn leave the store as one addition of both lists. */
  lemma {:induction false} AddPathsTwice(store: seq<string>, a: seq<string>, b: seq<string>)
    ensures var s := store + Fresh(Elems(store), a);
      s + Fresh(Elems(s), b) == store + Fresh(Elems(store), a + b)
  {
    var f := Fresh(Elems(store), a);
    FreshAppend(Elems(store), a, b);
    assert Elems(store + f) == Elems(store) + Elems(f);
  }
}
