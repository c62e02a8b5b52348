/** `ExecutionEnvironment` as the difference between two snapshots of the session's files. */
module Changes {
  import opened Common
  import opened Paths
  import opened Scan
  import FileTree

  // ----- the order of file names -----

  /** Strings in the order Python sorts them. */
  predicate Less(a: string, b: string) {
    b != "" && (a == "" || a[0] < b[0] || (a[0] == b[0] && Less(a[1..], b[1..])))
  }

  lemma {:induction false} LessIsTotal(a: string, b: string)
    ensures a == b || Less(a, b) || Less(b, a)
    ensures !(Less(a, b) && Less(b, a)) && !Less(a, a)
  {
    if a != "" {
      LessIsTotal(a[1..], a[1..]);
    }
    if a != "" && b != "" {
      LessIsTotal(a[1..], b[1..]);
      assert a[0] == b[0] && a[1..] == b[1..] ==> a == [a[0]] + a[1..] && b == [b[0]] + b[1..];
    }
  }

  /** At the first place where two names differ, one ends or has the smaller character. */
  ghost predicate FirstDifference(a: string, b: string) {
    || (|a| < |b| && b[..|a|] == a)
    || exists i :: 0 <= i < |a| && i < |b| && a[..i] == b[..i] && a[i] as int < b[i] as int
  }

  /** That is the order of the lists. */
  lemma {:induction false} LessIsFirstDifference(a: string, b: string)
    ensures Less(a, b) <==> FirstDifference(a, b)
  {
    if a != "" && b != "" {
      LessIsFirstDifference(a[1..], b[1..]);
      if a[0] == b[0] {
        FirstDifferenceOfRest(a, b);
      } else if a[0] < b[0] {
        assert a[..0] == b[..0];
      } else {
        assert forall i :: 0 < i < |a| && i < |b| ==> a[..i][0] != b[..i][0];
        assert |a| < |b| ==> b[..|a|][0] != a[0];
      }
    }
  }

  lemma AscendingByFirstDifference(names: seq<string>)
    requires Ascending(names)
    ensures forall i :: 0 <= i < |names| - 1 ==> FirstDifference(names[i], names[i + 1])
  {
    forall i | 0 <= i < |names| - 1 ensures FirstDifference(names[i], names[i + 1]) {
      LessIsFirstDifference(names[i], names[i + 1]);
    }
  }

  lemma FirstDifferenceOfRest(a: string, b: string)
    requires a != "" && b != "" && a[0] == b[0]
    ensures FirstDifference(a, b) <==> FirstDifference(a[1..], b[1..])
  {
    assert a == [a[0]] + a[1..] && b == [b[0]] + b[1..];
    assert |a| < |b| ==> (b[..|a|] == a <==> b[1..][..|a[1..]|] == a[1..]) by {
      assert |a| < |b| ==> b[..|a|] == [b[0]] + b[1..][..|a[1..]|];
    }
    if i :| 0 <= i < |a| && i < |b| && a[..i] == b[..i] && a[i] < b[i] {
      assert a[1..][..i - 1] == a[..i][1..] && b[1..][..i - 1] == b[..i][1..];
      assert a[1..][i - 1] == a[i] && b[1..][i - 1] == b[i];
    }
    if i :| 0 <= i < |a[1..]| && i < |b[1..]| && a[1..][..i] == b[1..][..i] && a[1..][i] < b[1..][i] {
      assert a[..i + 1] == [a[0]] + a[1..][..i] && b[..i + 1] == [b[0]] + b[1..][..i];
      assert a[i + 1] == a[1..][i] && b[i + 1] == b[1..][i];
    }
  }

  lemma {:induction false} LessIsTransitive(a: string, b: string, c: string)
    requires Less(a, b) && Less(b, c)
    ensures Less(a, c)
  {
    if a != "" && a[0] == b[0] && b[0] == c[0] {
      LessIsTransitive(a[1..], b[1..], c[1..]);
    }
  }

  ghost predicate Ascending(names: seq<string>) {
    forall i, j :: 0 <= i < j < |names| ==> Less(names[i], names[j])
  }

  function Insert(name: string, names: seq<string>): (r: seq<string>)
    ensures forall n :: n in r <==> n == name || n in names
  {
    if names == [] || Less(name, names[0]) then [name] + names else [names[0]] + Insert(name, names[1..])
  }

  /** `list.sort` and `sorted`. */
  function Sorted(names: seq<string>): (r: seq<string>)
    ensures forall n :: n in r <==> n in names
  {
    if names == [] then [] else Insert(names[0], Sorted(names[1..]))
  }

  lemma {:induction false} InsertKeepsAscending(name: string, names: seq<string>)
    requires Ascending(names) && name !in names
    ensures Ascending(Insert(name, names))
  {
    if names != [] {
      LessIsTotal(name, names[0]);
      if Less(name, names[0]) {
        forall j | 0 <= j < |names| ensures Less(name, names[j]) {
          if j > 0 {
            LessIsTransitive(name, names[0], names[j]);
          }
        }
      } else {
        InsertKeepsAscending(name, names[1..]);
        var rest := Insert(name, names[1..]);
        forall j | 0 <= j < |rest| ensures Less(names[0], rest[j]) {
          assert rest[j] in rest;
        }
      }
    }
  }

  lemma {:induction false} SortedIsAscending(names: seq<string>)
    requires NoDup(names)
    ensures Ascending(Sorted(names))
  {
    if names != [] {
      SortedIsAscending(names[1..]);
      InsertKeepsAscending(names[0], Sorted(names[1..]));
    }
  }

  /** Two ascending lists of the same names are the same list. */
  lemma {:induction false} AscendingIsUnique(a: seq<string>, b: seq<string>)
    requires Ascending(a) && Ascending(b) && forall n :: n in a <==> n in b
    ensures a == b
  {
    assert a == [] || a[0] in b;
    assert b == [] || b[0] in a;
    if a != [] && b != [] {
      FirstIsLeast(a, b);
      FirstIsLeast(b, a);
      LessIsTotal(a[0], b[0]);
      forall n ensures n in a[1..] <==> n in b[1..] {
        LessIsTotal(a[0], a[0]);
        assert n in a[1..] ==> n in b;
        assert n in b[1..] ==> n in a;
      }
      AscendingIsUnique(a[1..], b[1..]);
      assert a == [a[0]] + a[1..] && b == [b[0]] + b[1..];
    }
  }

  lemma FirstIsLeast(a: seq<string>, b: seq<string>)
    requires Ascending(a) && a != [] && b != [] && b[0] in a
    ensures a[0] == b[0] || Less(a[0], b[0])
  {
  }

  // ----- the difference -----

  type Snapshot = map<string, Signature>

  ghost predicate DistinctPaths(yielded: seq<Yield>) {
    forall i, j :: 0 <= i < j < |yielded| ==> yielded[i].subPath != yielded[j].subPath
  }

  /** A dictionary of what a scan yields. */
  function SnapshotOf(yielded: seq<Yield>): Snapshot {
    if yielded == [] then map[]
    else
      var last := yielded[|yielded| - 1];
      SnapshotOf(yielded[..|yielded| - 1])[last.subPath := last.signature]
  }

  /** The names whose stamp is new or another one, and the names that are gone. */
  ghost predicate IsDiff(before: Snapshot, after: Snapshot, changed: seq<string>, deleted: seq<string>) {
    && Ascending(changed) && Ascending(deleted)
    && (forall n :: n in changed <==> n in after && !(n in before && before[n] == after[n]))
    && forall n :: n in deleted <==> n in before && n !in after
  }

  ghost function Elements(names: seq<string>): set<string> {
    set n | n in names
  }

  /** Forgetting some files and taking the stamps of others from `after`. */
  ghost function Patched(before: Snapshot, changed: set<string>, deleted: set<string>, after: Snapshot): Snapshot
    requires changed <= after.Keys
  {
    before - deleted + map n | n in changed :: after[n]
  }

  /** A diff turns the old snapshot into the new one, and no list can do without one of its names. */
  lemma DiffIsExact(before: Snapshot, after: Snapshot, changed: seq<string>, deleted: seq<string>)
    requires IsDiff(before, after, changed, deleted)
    ensures Elements(changed) <= after.Keys
    ensures Patched(before, Elements(changed), Elements(deleted), after) == after
    ensures forall n :: !(n in changed && n in deleted)
    ensures forall c, d :: c <= after.Keys && Patched(before, c, d, after) == after ==>
      Elements(changed) <= c && Elements(deleted) <= d
  {
    forall c, d | c <= after.Keys && Patched(before, c, d, after) == after
      ensures Elements(changed) <= c && Elements(deleted) <= d
    {
      var p := Patched(before, c, d, after);
      forall n | n in changed ensures n in c {
        assert n in p && p[n] == after[n];
      }
      forall n | n in deleted ensures n in d {
        assert n !in p;
      }
    }
  }

  /** There is one diff: neither list depends on the order the files were met in. */
  lemma DiffIsUnique(before: Snapshot, after: Snapshot, changed: seq<string>, deleted: seq<string>,
                     changed': seq<string>, deleted': seq<string>)
    requires IsDiff(before, after, changed, deleted) && IsDiff(before, after, changed', deleted')
    ensures changed == changed' && deleted == deleted'
  {
    AscendingIsUnique(changed, changed');
    AscendingIsUnique(deleted, deleted');
  }

  lemma SnapshotOneMore(yielded: seq<Yield>, n: nat)
    requires n < |yielded|
    ensures SnapshotOf(yielded[..n + 1]) == SnapshotOf(yielded[..n])[yielded[n].subPath := yielded[n].signature]
  {
    assert yielded[..n + 1][..n] == yielded[..n];
  }

  lemma {:induction false} SnapshotKeys(yielded: seq<Yield>)
    ensures forall n :: n in SnapshotOf(yielded) <==> exists i :: 0 <= i < |yielded| && yielded[i].subPath == n
  {
    if yielded != [] {
      SnapshotKeys(yielded[..|yielded| - 1]);
      forall n ensures n in SnapshotOf(yielded) <==> exists i :: 0 <= i < |yielded| && yielded[i].subPath == n {
        if i :| 0 <= i < |yielded| && yielded[i].subPath == n {
          assert i < |yielded| - 1 ==> yielded[..|yielded| - 1][i].subPath == n;
        }
      }
    }
  }

  lemma {:induction false} SnapshotEntries(yielded: seq<Yield>, i: nat)
    requires DistinctPaths(yielded) && i < |yielded|
    ensures yielded[i].subPath in SnapshotOf(yielded) && SnapshotOf(yielded)[yielded[i].subPath] == yielded[i].signature
  {
    if i < |yielded| - 1 {
      SnapshotEntries(yielded[..|yielded| - 1], i);
    }
  }

  lemma YieldsAreDistinct(items: seq<Item>, found: seq<Found>)
    requires Scan.Proper(items) && multiset(found) == multiset(Visible([], items))
    ensures DistinctPaths(Yields(found))
    ensures forall i :: 0 <= i < |found| ==> ProperPath(found[i].path)
  {
    VisibleOnce([], items);
    RearrangedOnce(found, Visible([], items));
    forall i | 0 <= i < |found| ensures ProperPath(found[i].path) {
      assert found[i] in multiset(found);
      VisibleIsProper([], items, found[i]);
    }
    forall i, j | 0 <= i < j < |found| ensures Yields(found)[i].subPath != Yields(found)[j].subPath {
      SplitOfJoin(found[i].path);
      SplitOfJoin(found[j].path);
    }
  }

  /** A snapshot is the tree: it says of a path what the path leads to, whatever the order of the scans. */
  lemma SnapshotIsTheTree(items: seq<Item>, found: seq<Found>, p: Path, signature: Signature)
    requires Scan.Proper(items) && multiset(found) == multiset(Visible([], items)) && ProperPath(p)
    ensures var s := SnapshotOf(Yields(found));
      LeadsTo(items, p, signature) <==> Join(p) in s && s[Join(p)] == signature
  {
    var yielded := Yields(found);
    YieldsAreDistinct(items, found);
    SnapshotKeys(yielded);
    VisibleIsWhatPathsLeadTo([], items, p, signature);
    assert [] + p == p;
    assert Found(p, signature) in multiset(found) <==> Found(p, signature) in Visible([], items);
    if i :| 0 <= i < |found| && found[i] == Found(p, signature) {
      SnapshotEntries(yielded, i);
    }
    if i :| 0 <= i < |yielded| && yielded[i].subPath == Join(p) {
      SnapshotEntries(yielded, i);
      SplitOfJoin(p);
      SplitOfJoin(found[i].path);
      assert found[i] == Found(p, yielded[i].signature);
    }
  }

  /** What the snapshot holds for a path is what the path leads to, if anything. */
  lemma SnapshotAt(items: seq<Item>, found: seq<Found>, p: Path)
    requires Scan.Proper(items) && multiset(found) == multiset(Visible([], items)) && ProperPath(p)
    ensures var s := SnapshotOf(Yields(found));
      && (Join(p) in s <==> IsFile(items, p))
      && (Join(p) in s ==> LeadsTo(items, p, s[Join(p)]))
  {
    var s := SnapshotOf(Yields(found));
    if Join(p) in s {
      SnapshotIsTheTree(items, found, p, s[Join(p)]);
    }
    if signature :| LeadsTo(items, p, signature) {
      SnapshotIsTheTree(items, found, p, signature);
    }
  }

  /**
    From the two trees to the two lists: a path is reported as changed exactly if it leads to a file whose
    stamp it did not lead to before, and as deleted exactly if it led to a file and now leads to none.
   */
  lemma ReportedExactly(before: seq<Item>, after: seq<Item>, found: seq<Found>, found': seq<Found>,
                        changed: seq<string>, deleted: seq<string>, p: Path)
    requires Scan.Proper(before) && multiset(found) == multiset(Visible([], before))
    requires Scan.Proper(after) && multiset(found') == multiset(Visible([], after))
    requires IsDiff(SnapshotOf(Yields(found)), SnapshotOf(Yields(found')), changed, deleted) && ProperPath(p)
    ensures Join(p) in changed <==>
      exists signature :: LeadsTo(after, p, signature) && !LeadsTo(before, p, signature)
    ensures Join(p) in deleted <==> IsFile(before, p) && !IsFile(after, p)
  {
    SnapshotAt(before, found, p);
    SnapshotAt(after, found', p);
    var s, s' := SnapshotOf(Yields(found)), SnapshotOf(Yields(found'));
    if signature :| LeadsTo(after, p, signature) && !LeadsTo(before, p, signature) {
      SnapshotIsTheTree(after, found', p, signature);
    }
    if Join(p) in s' {
      SnapshotIsTheTree(before, found, p, s'[Join(p)]);
    }
  }

  /** And in terms of the inodes, for trees at rest: deleted is what was a regular file and is none any more. */
  lemma DeletedFromTheTree(nodes: FileTree.Nodes, nodes': FileTree.Nodes, root: FileTree.Ino,
                           before: seq<Item>, after: seq<Item>, found: seq<Found>, found': seq<Found>,
                           changed: seq<string>, deleted: seq<string>, p: Path)
    requires Scan.Proper(before) && multiset(found) == multiset(Visible([], before)) && Shows(nodes, root, before)
    requires Scan.Proper(after) && multiset(found') == multiset(Visible([], after)) && Shows(nodes', root, after)
    requires IsDiff(SnapshotOf(Yields(found)), SnapshotOf(Yields(found')), changed, deleted) && ProperPath(p)
    ensures Join(p) in deleted <==>
      && NamesRegular(nodes, root, p) && !NamesRegular(nodes', root, p)
      && forall i :: 0 <= i < |p| - 1 ==> !("." <= p[i])
  {
    ReportedExactly(before, after, found, found', changed, deleted, p);
    ScanShowsTheTree(nodes, root, before, p);
    ScanShowsTheTree(nodes', root, after, p);
  }

  class ExecutionEnvironment {
    var inputFiles: Snapshot

    constructor (yielded: seq<Yield>)
      ensures inputFiles == SnapshotOf(yielded)
    {
      inputFiles := map[];
      new;
      var n := 0;
      while n < |yielded|
        invariant 0 <= n <= |yielded|
        invariant inputFiles == SnapshotOf(yielded[..n])
      {
        SnapshotOneMore(yielded, n);
        inputFiles := inputFiles[yielded[n].subPath := yielded[n].signature];
        n := n + 1;
      }
      assert yielded[..n] == yielded;
    }

    method CollectChanges(yielded: seq<Yield>) returns (changed: seq<string>, deleted: seq<string>)
      requires DistinctPaths(yielded)
      ensures IsDiff(inputFiles, SnapshotOf(yielded), changed, deleted)
      ensures forall i :: 0 <= i < |changed| - 1 ==> FirstDifference(changed[i], changed[i + 1])
      ensures forall i :: 0 <= i < |deleted| - 1 ==> FirstDifference(deleted[i], deleted[i + 1])
    {
      changed := [];
      var current: set<string> := {};
      var n := 0;
      while n < |yielded|
        invariant 0 <= n <= |yielded|
        invariant current == SnapshotOf(yielded[..n]).Keys
        invariant NoDup(changed)
        invariant forall p :: p in changed <==>
          p in SnapshotOf(yielded[..n]) && !(p in inputFiles && inputFiles[p] == SnapshotOf(yielded[..n])[p])
      {
        var subPath, signature := yielded[n].subPath, yielded[n].signature;
        SnapshotOneMore(yielded, n);
        SnapshotKeys(yielded[..n]);
        assert subPath !in SnapshotOf(yielded[..n]);
        current := current + {subPath};
        if !(subPath in inputFiles && inputFiles[subPath] == signature) {
          changed := changed + [subPath];
        }
        n := n + 1;
      }
      assert yielded[..n] == yielded;
      SortedIsAscending(changed);
      changed := Sorted(changed);
      deleted := SortedSet(inputFiles.Keys - current);
      AscendingByFirstDifference(changed);
      AscendingByFirstDifference(deleted);
    }
  }

  /** `sorted` of a set, which comes in no particular order. */
  method SortedSet(names: set<string>) returns (r: seq<string>)
    ensures Ascending(r) && forall n :: n in r <==> n in names
  {
    var rest := names;
    r := [];
    while rest != {}
      invariant rest <= names && Ascending(r) && forall n :: n in r <==> n in names - rest
    {
      var name :| name in rest;
      InsertKeepsAscending(name, r);
      r := Insert(name, r);
      rest := rest - {name};
    }
  }
}
