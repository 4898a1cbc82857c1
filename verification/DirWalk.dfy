/**
 The directory walks of content_manager.cpp:267-344 over an abstract finite tree: what they
 list, in which order, and that it is every file once.
 */
module DirWalk {
  import opened Folds
  import opened Text
  import opened MyVectors

  /** A directory entry.  A directory's own entries "." and ".." are `SubDir` too, with whatever below. */
  datatype Entry = SubDir(name: string, entries: seq<Entry>) | Other(name: string)

  /** What the served path is. */
  datatype Root = Directory(entries: seq<Entry>) | Regular | Neither

  predicate Dots(name: string) {
    name == "." || name == ".."
  }

  // ---- What there is ---------------------------------------------------------------------

  /** `names` leads from a directory, through directories, to something else. */
  predicate LeadsTo(entries: seq<Entry>, names: seq<string>)
    decreases |names|
  {
    names != [] &&
    if |names| == 1 then Other(names[0]) in entries
    else
      exists k :: 0 <= k < |entries| && entries[k].SubDir? && entries[k].name == names[0] && !Dots(names[0])
                  && LeadsTo(entries[k].entries, names[1..])
  }

  /** `/a/b/c`. */
  function Slashed(names: seq<string>): string {
    if names == [] then "" else "/" + names[0] + Slashed(names[1..])
  }

  /** Sibling names are distinct and hold no slash, all the way down. */
  predicate Proper(entries: seq<Entry>) {
    && (forall i, j :: 0 <= i < j < |entries| ==> entries[i].name != entries[j].name)
    && (forall k :: 0 <= k < |entries| ==>
      Free(entries[k].name, '/') && (entries[k].SubDir? ==> Proper(entries[k].entries)))
  }

  // ---- The walk ----------------------------------------------------------------------------

  /** The paths of one entry. */
  function WalkEntry(path: string, e: Entry): seq<string>
    decreases e, 0
  {
    match e
    case Other(name) => [path + "/" + name]
    case SubDir(name, sub) => if Dots(name) then [] else Walk(path + "/" + name, sub)
  }

  /** The paths of all entries that are no directories, in the order of the walk. */
  function Walk(path: string, entries: seq<Entry>): seq<string>
    decreases entries, 1
  {
    if entries == [] then [] else Walk(path, entries[..|entries| - 1]) + WalkEntry(path, entries[|entries| - 1])
  }

  /** With the first occurrence of the root's path taken out of each. */
  function Relative(paths: seq<string>, root: string): (rs: seq<string>)
    ensures |rs| == |paths|
  {
    seq(|paths|, k requires 0 <= k < |paths| => RemoveFirst(paths[k], root))
  }

  function IfMatch(p: string, cond: string): seq<string> {
    if Contains(p, cond) then [p] else []
  }

  /** The paths that contain `cond` (content_manager.cpp:332-334). */
  function Matching(paths: seq<string>, cond: string): seq<string> {
    Select(paths, (p: string) => Contains(p, cond))
  }

  /** `cond` occurs in `p`. */
  ghost predicate Occurs(p: string, cond: string) {
    exists a, b :: p == a + cond + b
  }

  /** `found` is those of the paths in which `cond` occurs, in their order and as often. */
  ghost predicate AreMatches(found: seq<string>, paths: seq<string>, cond: string) {
    exists at :: MatchesAt(at, found, paths, cond)
  }

  ghost predicate MatchesAt(at: seq<nat>, found: seq<string>, paths: seq<string>, cond: string) {
    Picks(at, paths, found, (p: string) => Occurs(p, cond))
  }

  lemma MatchingMeans(paths: seq<string>, cond: string)
    ensures AreMatches(Matching(paths, cond), paths, cond)
    ensures forall p :: p in Matching(paths, cond) <==> p in paths && Occurs(p, cond)
  {
    var at := SelectPicks(paths, (p: string) => Contains(p, cond));
    forall p ensures Contains(p, cond) <==> Occurs(p, cond) { SearchMeaning(p, cond); }
    assert MatchesAt(at, Matching(paths, cond), paths, cond);
    forall p ensures p in Matching(paths, cond) <==> p in paths && Occurs(p, cond) {
      PickedIsWanted(at, paths, Matching(paths, cond), (p: string) => Occurs(p, cond), p);
    }
    hide Contains, Occurs, Picks;
  }

  lemma WalkMore(path: string, entries: seq<Entry>, i: nat)
    requires i < |entries|
    ensures Walk(path, entries[..i + 1]) == Walk(path, entries[..i]) + WalkEntry(path, entries[i])
  {
    assert entries[..i + 1][..i] == entries[..i];
  }

  /** The walk goes through the entries in order, and into a directory where it stands. */
  lemma {:induction false} WalkInOrder(path: string, a: seq<Entry>, b: seq<Entry>)
    ensures Walk(path, a + b) == Walk(path, a) + Walk(path, b)
  {
    if b == [] {
      assert a + b == a;
    } else {
      assert (a + b)[..|a + b| - 1] == a + b[..|b| - 1];
      WalkInOrder(path, a, b[..|b| - 1]);
      hide WalkEntry;
    }
  }

  lemma WalkOfOne(path: string, name: string, sub: seq<Entry>)
    ensures Walk(path, [Other(name)]) == [path + "/" + name]
    ensures name != "." && name != ".." ==> Walk(path, [SubDir(name, sub)]) == Walk(path + "/" + name, sub)
    ensures Walk(path, [SubDir(".", sub)]) == Walk(path, [SubDir("..", sub)]) == []
  {
    assert [Other(name)][..0] == [] && [SubDir(name, sub)][..0] == [];
    assert [SubDir(".", sub)][..0] == [] && [SubDir("..", sub)][..0] == [];
  }

  lemma RelativeMore(a: seq<string>, b: seq<string>, root: string)
    ensures Relative(a + b, root) == Relative(a, root) + Relative(b, root)
  {
  }

  /** What `_get_list` pushes for the entries of a directory. */
  function Listed(path: string, entries: seq<Entry>, root: string): seq<string> {
    Relative(Walk(path, entries), root)
  }

  lemma ListedMore(path: string, entries: seq<Entry>, i: nat, root: string)
    requires i < |entries|
    ensures Listed(path, entries[..i + 1], root)
      == Listed(path, entries[..i], root) + Relative(WalkEntry(path, entries[i]), root)
  {
    WalkMore(path, entries, i);
    RelativeMore(Walk(path, entries[..i]), WalkEntry(path, entries[i]), root);
  }

  lemma ListedEntry(path: string, e: Entry, root: string)
    ensures e.SubDir? && !Dots(e.name) ==>
      Relative(WalkEntry(path, e), root) == Listed(path + "/" + e.name, e.entries, root)
    ensures e.SubDir? && Dots(e.name) ==> Relative(WalkEntry(path, e), root) == []
    ensures e.Other? ==> Relative(WalkEntry(path, e), root) == [RemoveFirst(path + "/" + e.name, root)]
  {
  }

  lemma Regroup<T>(a: seq<T>, b: seq<T>, c: seq<T>)
    ensures (a + b) + c == a + (b + c)
  {
  }

  /** `_get_list` (content_manager.cpp:277-301): the recursion pushes into one vector. */
  method GetList(path: string, entries: seq<Entry>, root: string, v: MyVector<string>)
    requires v.Valid()
    modifies v, v.entries
    ensures v.Valid() && (v.entries == old(v.entries) || fresh(v.entries))
    ensures v.Contents() == old(v.Contents()) + Listed(path, entries, root)
    decreases entries
  {
    assert Listed(path, [], root) == [];
    hide Listed, Relative, WalkEntry, Dots;
    for i := 0 to |entries|
      invariant v.Valid() && (v.entries == old(v.entries) || fresh(v.entries))
      invariant v.Contents() == old(v.Contents()) + Listed(path, entries[..i], root)
    {
      ghost var was := v.Contents();
      ghost var more := Relative(WalkEntry(path, entries[i]), root);
      ListedMore(path, entries, i, root);
      ListedEntry(path, entries[i], root);
      Regroup(old(v.Contents()), Listed(path, entries[..i], root), more);
      match entries[i] {
        case SubDir(name, sub) =>
          if !Dots(name) {
            GetList(path + "/" + name, sub, root, v);
          }
        case Other(name) =>
          v.Push(RemoveFirst(path + "/" + name, root));
      }
      assert v.Contents() == was + more;
    }
    assert entries[..|entries|] == entries;
  }

  /** A served path that is a regular file is listed as it is (content_manager.cpp:302-304). */
  method ListRoot(path: string, root: Root, v: MyVector<string>)
    requires v.Valid()
    modifies v, v.entries
    ensures v.Valid()
    ensures v.Contents() == old(v.Contents()) +
      match root
      case Directory(es) => Listed(path, es, path)
      case Regular => [path]
      case Neither => []
  {
    match root
    case Directory(es) => GetList(path, es, path, v);
    case Regular => v.Push(path);
    case Neither =>
  }

  /**
   What `_get_contents_cond` pushes for the entries of a directory: the walk again, unstripped and
   filtered.
   */
  function Found(path: string, entries: seq<Entry>, cond: string): seq<string> {
    Matching(Walk(path, entries), cond)
  }

  lemma FoundMore(path: string, entries: seq<Entry>, i: nat, cond: string)
    requires i < |entries|
    ensures Found(path, entries[..i + 1], cond)
      == Found(path, entries[..i], cond) + Matching(WalkEntry(path, entries[i]), cond)
  {
    WalkMore(path, entries, i);
    SelectSum(Walk(path, entries[..i]), WalkEntry(path, entries[i]), (p: string) => Contains(p, cond));
  }

  lemma FoundEntry(path: string, e: Entry, cond: string)
    ensures e.SubDir? && !Dots(e.name) ==>
      Matching(WalkEntry(path, e), cond) == Found(path + "/" + e.name, e.entries, cond)
    ensures e.SubDir? && Dots(e.name) ==> Matching(WalkEntry(path, e), cond) == []
    ensures e.Other? ==> Matching(WalkEntry(path, e), cond) == IfMatch(path + "/" + e.name, cond)
  {
    SelectOne(path + "/" + e.name, (p: string) => Contains(p, cond));
  }

  /** content_manager.cpp:332-334 and 340-342. */
  method PushMatch(p: string, cond: string, v: MyVector<string>)
    requires v.Valid()
    modifies v, v.entries
    ensures v.Valid() && (v.entries == old(v.entries) || fresh(v.entries))
    ensures v.Contents() == old(v.Contents()) + IfMatch(p, cond)
  {
    if Contains(p, cond) { v.Push(p); }
  }

  /** `_get_contents_cond` (content_manager.cpp:314-338). */
  method GetContentsCond(path: string, entries: seq<Entry>, cond: string, v: MyVector<string>)
    requires v.Valid()
    modifies v, v.entries
    ensures v.Valid() && (v.entries == old(v.entries) || fresh(v.entries))
    ensures v.Contents() == old(v.Contents()) + Found(path, entries, cond)
    ensures AreMatches(Found(path, entries, cond), Walk(path, entries), cond)
    decreases entries
  {
    MatchingMeans(Walk(path, entries), cond);
    assert Found(path, [], cond) == [];
    hide Found, Matching, WalkEntry, IfMatch, Dots, AreMatches, Occurs;
    for i := 0 to |entries|
      invariant v.Valid() && (v.entries == old(v.entries) || fresh(v.entries))
      invariant v.Contents() == old(v.Contents()) + Found(path, entries[..i], cond)
    {
      ghost var was := v.Contents();
      ghost var more := Matching(WalkEntry(path, entries[i]), cond);
      FoundMore(path, entries, i, cond);
      FoundEntry(path, entries[i], cond);
      Regroup(old(v.Contents()), Found(path, entries[..i], cond), more);
      var e := entries[i];
      if e.Other? {
        PushMatch(path + "/" + e.name, cond, v);
        assert v.Contents() == was + more;
      } else if !Dots(e.name) {
        GetContentsCond(path + "/" + e.name, e.entries, cond, v);
        assert v.Contents() == was + more;
      }
    }
    assert entries[..|entries|] == entries;
  }

  /** The same from the served path on, which may be a file itself. */
  method ContentsOfRoot(path: string, root: Root, cond: string, v: MyVector<string>)
    requires v.Valid()
    modifies v, v.entries
    ensures v.Valid()
    ensures v.Contents() == old(v.Contents()) + Matching(PathsOf(path, root), cond)
    ensures AreMatches(Matching(PathsOf(path, root), cond), PathsOf(path, root), cond)
  {
    MatchingMeans(PathsOf(path, root), cond);
    hide AreMatches;
    match root
    case Directory(es) => GetContentsCond(path, es, cond, v);
    case Regular =>
      SelectOne(path, (p: string) => Contains(p, cond));
      PushMatch(path, cond, v);
    case Neither =>
  }

  /** All that there is to list. */
  function PathsOf(path: string, root: Root): seq<string> {
    match root
    case Directory(es) => Walk(path, es)
    case Regular => [path]
    case Neither => []
  }

  /** What is found is every file below a directory whose path contains `cond`, or the file itself if its own does. */
  lemma RootMatches(path: string, root: Root, cond: string, p: string)
    ensures p in Matching(PathsOf(path, root), cond) <==>
      Occurs(p, cond) && match root
                         case Directory(es) => IsFile(path, es, p)
                         case Regular => p == path
                         case Neither => false
  {
    MatchingMeans(PathsOf(path, root), cond);
    if root.Directory? { WalkIsEveryFile(path, root.entries); }
    hide Matching, Walk, Occurs, IsFile, AreMatches;
  }

  /**
   What a FETCH can choose from (content_manager.cpp:213-228): it searches below the served path and the
   path asked for, for the latter, and that filter never rejects anything.  A regular file is the one
   match; for a directory every file below it is one, the first in the order of the walk being sent.
   */
  lemma FetchFindsAll(served: string, asked: string, root: Root)
    ensures var path := served + "/" + asked;
            && Matching(PathsOf(path, root), asked) == PathsOf(path, root)
            && (root == Regular ==> Matching(PathsOf(path, root), asked) == [path])
  {
    var path := served + "/" + asked;
    forall p | p in PathsOf(path, root) ensures Contains(p, asked) {
      var rest := "";
      if root.Directory? { rest := ListedRest(path, root.entries, p); }
      assert p == (served + "/") + asked + rest;
      SearchMeaning(p, asked);
    }
    SelectAll(PathsOf(path, root), (p: string) => Contains(p, asked));
    hide Contains, Walk;
  }

  lemma ListedRest(path: string, entries: seq<Entry>, p: string) returns (rest: string)
    requires p in Walk(path, entries)
    ensures p == path + rest
  {
    var names := ListedIsThere(path, entries, p);
    rest := Slashed(names);
  }

  // ---- Every file, once ------------------------------------------------------------------------

  lemma SlashedCons(name: string, names: seq<string>)
    ensures Slashed([name] + names) == "/" + name + Slashed(names)
  {
    assert ([name] + names)[1..] == names;
  }

  /** Whatever the walk of one entry lists is a file below it. */
  lemma {:induction false} ListedIsThere(path: string, entries: seq<Entry>, p: string) returns (names: seq<string>)
    requires p in Walk(path, entries)
    ensures LeadsTo(entries, names) && p == path + Slashed(names)
    decreases entries
  {
    var k := |entries| - 1;
    if p in Walk(path, entries[..k]) {
      names := ListedIsThere(path, entries[..k], p);
      LeadsOn(entries[..k], entries, names);
    } else {
      var e := entries[k];
      EntryHolds(path, e, p);
      hide Walk, WalkEntry;
      var rest := [];
      if e.SubDir? {
        rest := ListedIsThere(path + "/" + e.name, e.entries, p);
      }
      names := [e.name] + rest;
      assert names[1..] == rest;
      SlashedCons(e.name, rest);
    }
  }

  /** What an entry's walk lists: the file it is, or something in the directory it is. */
  lemma EntryHolds(path: string, e: Entry, p: string)
    requires p in WalkEntry(path, e)
    ensures e.Other? ==> p == path + "/" + e.name
    ensures e.SubDir? ==> !Dots(e.name) && p in Walk(path + "/" + e.name, e.entries)
  {
    hide Walk;
  }

  lemma LeadsOn(some: seq<Entry>, all: seq<Entry>, names: seq<string>)
    requires some <= all && LeadsTo(some, names)
    ensures LeadsTo(all, names)
  {
    if |names| > 1 {
      var k :| 0 <= k < |some| && some[k].SubDir? && some[k].name == names[0] && LeadsTo(some[k].entries, names[1..]);
      assert all[k] == some[k];
    }
  }

  lemma {:induction false} WalkHolds(path: string, entries: seq<Entry>, k: nat)
    requires k < |entries|
    ensures forall p :: p in WalkEntry(path, entries[k]) ==> p in Walk(path, entries)
  {
    if k < |entries| - 1 { WalkHolds(path, entries[..|entries| - 1], k); }
  }

  /** Every file below is listed. */
  lemma {:induction false} ThereIsListed(path: string, entries: seq<Entry>, names: seq<string>)
    requires LeadsTo(entries, names)
    ensures path + Slashed(names) in Walk(path, entries)
    decreases |names|
  {
    if |names| == 1 {
      var k :| 0 <= k < |entries| && entries[k] == Other(names[0]);
      WalkHolds(path, entries, k);
      assert path + Slashed(names)
        == path + "/" + names[0] by { SlashedCons(names[0], []); assert [names[0]] + [] == names; }
    } else {
      var k :| 0 <= k < |entries| && entries[k].SubDir? && entries[k].name == names[0] && !Dots(names[0])
               && LeadsTo(entries[k].entries, names[1..]);
      ThereIsListed(path + "/" + names[0], entries[k].entries, names[1..]);
      WalkHolds(path, entries, k);
      SlashedCons(names[0], names[1..]);
      assert [names[0]] + names[1..] == names;
      assert path + Slashed(names) == path + "/" + names[0] + Slashed(names[1..]);
    }
  }

  predicate NoTwice(paths: seq<string>) {
    forall i, j :: 0 <= i < j < |paths| ==> paths[i] != paths[j]
  }

  /** The first name of what an entry lists is its own. */
  lemma EntryStart(path: string, e: Entry, p: string) returns (rest: string)
    requires p in WalkEntry(path, e)
    ensures p == path + "/" + e.name + rest && (rest == "" || rest[0] == '/')
  {
    match e
    case Other(_) => rest := "";
    case SubDir(name, sub) =>
      var names := ListedIsThere(path + "/" + name, sub, p);
      rest := Slashed(names);
  }

  lemma NameEnds(a: string, b: string, x: string, y: string)
    requires Free(b, '/') && a + x == b + y && (x == "" || x[0] == '/')
    ensures |b| <= |a|
  {
    var s := a + x;
    assert |a| < |s| ==> s[|a|] == x[0] == '/';
    assert forall k :: 0 <= k < |b| ==> s[k] == b[k] != '/';
  }

  /** Names without a slash can be told apart in a path. */
  lemma NamesDiffer(a: string, b: string, x: string, y: string)
    requires Free(a, '/') && Free(b, '/') && a + x == b + y
    requires (x == "" || x[0] == '/') && (y == "" || y[0] == '/')
    ensures a == b
  {
    NameEnds(a, b, x, y);
    NameEnds(b, a, y, x);
    assert a == (a + x)[..|a|] == b;
  }

  lemma SiblingsDiffer(path: string, e: Entry, f: Entry, p: string)
    requires Free(e.name, '/') && Free(f.name, '/') && e.name != f.name
    requires p in WalkEntry(path, e)
    ensures p !in WalkEntry(path, f)
  {
    if p in WalkEntry(path, f) {
      var x := EntryStart(path, e, p);
      var y := EntryStart(path, f, p);
      assert e.name + x == p[|path| + 1..] == f.name + y;
      NamesDiffer(e.name, f.name, x, y);
      assert false;
    }
  }

  lemma {:induction false} WalkFrom(path: string, entries: seq<Entry>, p: string) returns (k: nat)
    requires p in Walk(path, entries)
    ensures k < |entries| && p in WalkEntry(path, entries[k])
  {
    var n := |entries| - 1;
    if p in WalkEntry(path, entries[n]) {
      k := n;
    } else {
      k := WalkFrom(path, entries[..n], p);
    }
  }

  /** When sibling names are distinct and hold no slash, it lists no path twice. */
  lemma {:induction false} WalkNoTwice(path: string, entries: seq<Entry>)
    requires Proper(entries)
    ensures NoTwice(Walk(path, entries))
    decreases entries
  {
    if entries != [] {
      var n := |entries| - 1;
      var e := entries[n];
      WalkNoTwice(path, entries[..n]);
      if e.SubDir? { WalkNoTwice(path + "/" + e.name, e.entries); }
      assert NoTwice(WalkEntry(path, e));
      forall p | p in Walk(path, entries[..n]) ensures p !in WalkEntry(path, e) {
        var k := WalkFrom(path, entries[..n], p);
        SiblingsDiffer(path, entries[k], e, p);
      }
      NoTwiceSum(Walk(path, entries[..n]), WalkEntry(path, e));
    }
  }

  lemma NoTwiceSum(a: seq<string>, b: seq<string>)
    requires NoTwice(a) && NoTwice(b) && forall p :: p in a ==> p !in b
    ensures NoTwice(a + b)
  {
    forall i, j | 0 <= i < j < |a + b| ensures (a + b)[i] != (a + b)[j] {
      if i < |a| <= j { assert a[i] in a && b[j - |a|] in b; }
    }
  }

  /** `p` is the path of a file below `path`. */
  ghost predicate IsFile(path: string, entries: seq<Entry>, p: string) {
    exists names :: LeadsTo(entries, names) && p == path + Slashed(names)
  }

  /** The walk lists exactly the files of the tree. */
  lemma WalkIsEveryFile(path: string, entries: seq<Entry>)
    ensures forall p :: p in Walk(path, entries) <==> IsFile(path, entries, p)
  {
    forall p ensures p in Walk(path, entries) <==> IsFile(path, entries, p) {
      if p in Walk(path, entries) {
        var names := ListedIsThere(path, entries, p);
      }
      if IsFile(path, entries, p) {
        var names :| LeadsTo(entries, names) && p == path + Slashed(names);
        ThereIsListed(path, entries, names);
      }
    }
  }

  /** The root's path and a listed relative name make the original path again. */
  lemma RelativeNamesRejoin(root: string, entries: seq<Entry>, k: nat)
    requires k < |Walk(root, entries)|
    ensures root + Relative(Walk(root, entries), root)[k] == Walk(root, entries)[k]
  {
    hide Walk, RemoveFirst;
    var p := Walk(root, entries)[k];
    var names := ListedIsThere(root, entries, p);
    RemovePrefix(root, Slashed(names));
    assert Relative(Walk(root, entries), root)[k] == RemoveFirst(root + Slashed(names), root);
  }
}
