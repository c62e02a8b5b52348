/**
  `_iter_session_files`: a loop over a stack of directories, against the recursive reading of a tree and
  against what each path leads to.
 */
module Scan {
  import opened Common
  import opened Paths

  import FileTree

  type Path = FileTree.Path

  /** The stamp `_signature` takes of a file. */
  datatype Signature = Signature(ino: int, size: int, mtime: int, ctime: int)

  /**
    What a scan meets under a name. A folder comes with what scanning it yields, in whatever order,
    before it ends or fails. `Undecided` is an entry whose very type cannot be found out.
   */
  datatype Item =
    | Folder(name: Component, items: seq<Item>)
    | File(name: Component, signature: Signature)
    | Vanished(name: Component)
    | Irregular(name: Component)
    | Undecided(name: Component)

  datatype Found = Found(path: Path, signature: Signature)

  predicate Hidden(name: Component) {
    name != "" && name[0] == '.'
  }

  // ----- what there is to find -----

  /** In the order of a recursive descent; an undecided entry ends the scan of its directory. */
  function Visible(at: Path, items: seq<Item>): seq<Found>
    decreases items
  {
    if items == [] || items[0].Undecided? then []
    else
      (if items[0].File? then [Found(at + [items[0].name], items[0].signature)]
       else if items[0].Folder? && !Hidden(items[0].name) then Visible(at + [items[0].name], items[0].items)
       else [])
      + Visible(at, items[1..])
  }

  /** The path leads, through folders that are not hidden, to a regular file with this stamp. */
  predicate LeadsTo(items: seq<Item>, p: Path, signature: Signature)
    decreases items
  {
    p != [] && items != [] && !items[0].Undecided?
    && (|| (p[0] == items[0].name && items[0] == File(p[0], signature) && |p| == 1)
        || (p[0] == items[0].name && items[0].Folder? && !Hidden(p[0]) && LeadsTo(items[0].items, p[1..], signature))
        || LeadsTo(items[1..], p, signature))
  }

  /** No directory holds a name twice, and names are names. */
  predicate Proper(items: seq<Item>)
    decreases items
  {
    items == [] ||
      (&& Paths.Proper(items[0].name)
       && (forall i :: 1 <= i < |items| ==> items[i].name != items[0].name)
       && (items[0].Folder? ==> Proper(items[0].items))
       && Proper(items[1..]))
  }

  lemma {:induction false} VisibleIsWhatPathsLeadTo(at: Path, items: seq<Item>, p: Path, signature: Signature)
    ensures Found(at + p, signature) in Visible(at, items) <==> LeadsTo(items, p, signature)
    decreases items
  {
    if items != [] && !items[0].Undecided? {
      VisibleIsWhatPathsLeadTo(at, items[1..], p, signature);
      var first := items[0];
      if first.File? {
        assert at + p == at + [first.name] <==> p == [first.name] by {
          assert at + p == at + [first.name] ==> p == (at + p)[|at|..];
        }
      } else if first.Folder? && !Hidden(first.name) {
        if p != [] && p[0] == first.name {
          assert at + [first.name] + p[1..] == at + p;
          VisibleIsWhatPathsLeadTo(at + [first.name], first.items, p[1..], signature);
        } else if Found(at + p, signature) in Visible(at + [first.name], first.items) {
          VisibleIsBelow(at + [first.name], first.items, Found(at + p, signature));
          assert false;
        }
      }
    }
  }

  lemma {:induction false} VisibleIsBelow(at: Path, items: seq<Item>, f: Found)
    requires f in Visible(at, items)
    ensures |f.path| > |at| && f.path[..|at|] == at
    decreases items
  {
    if items != [] && !items[0].Undecided? {
      if f in Visible(at, items[1..]) {
        VisibleIsBelow(at, items[1..], f);
      } else if items[0].Folder? {
        VisibleIsBelow(at + [items[0].name], items[0].items, f);
        assert f.path[..|at|] == f.path[..|at| + 1][..|at|];
      }
    }
  }

  lemma {:induction false} VisibleIsUnder(at: Path, items: seq<Item>, f: Found)
    requires f in Visible(at, items)
    ensures |f.path| > |at| && exists i :: 0 <= i < |items| && items[i].name == f.path[|at|]
    decreases items
  {
    VisibleIsBelow(at, items, f);
    if f in Visible(at, items[1..]) {
      VisibleIsUnder(at, items[1..], f);
      var i :| 0 <= i < |items[1..]| && items[1..][i].name == f.path[|at|];
      assert items[i + 1].name == f.path[|at|];
    } else if items[0].Folder? {
      VisibleIsBelow(at + [items[0].name], items[0].items, f);
      assert f.path[..|at| + 1][|at|] == items[0].name;
    }
  }

  ghost predicate EachOnce(found: seq<Found>) {
    forall i, j :: 0 <= i < j < |found| ==> found[i].path != found[j].path
  }

  lemma {:induction false} VisibleOnce(at: Path, items: seq<Item>)
    requires Proper(items)
    ensures EachOnce(Visible(at, items))
    decreases items
  {
    if items != [] && !items[0].Undecided? {
      VisibleOnce(at, items[1..]);
      var first := items[0];
      var rest := Visible(at, items[1..]);
      if first.Folder? && !Hidden(first.name) {
        VisibleOnce(at + [first.name], first.items);
        var below := Visible(at + [first.name], first.items);
        forall i, j | 0 <= i < |below| && 0 <= j < |rest| ensures below[i].path != rest[j].path {
          VisibleIsBelow(at + [first.name], first.items, below[i]);
          assert below[i].path[..|at| + 1][|at|] == first.name;
          VisibleIsUnder(at, items[1..], rest[j]);
        }
      } else if first.File? {
        forall j | 0 <= j < |rest| ensures rest[j].path != at + [first.name] {
          VisibleIsUnder(at, items[1..], rest[j]);
        }
      }
    }
  }

  lemma {:induction false} VisibleIsProper(at: Path, items: seq<Item>, f: Found)
    requires Proper(items) && f in Visible(at, items) && forall i :: 0 <= i < |at| ==> Paths.Proper(at[i])
    ensures ProperPath(f.path)
    decreases items
  {
    if f in Visible(at, items[1..]) {
      VisibleIsProper(at, items[1..], f);
    } else if items[0].Folder? {
      VisibleIsProper(at + [items[0].name], items[0].items, f);
    }
  }

  lemma {:induction false} CountAtMostOnce(found: seq<Found>, f: Found)
    requires forall i, j :: 0 <= i < j < |found| ==> found[i] != found[j]
    ensures multiset(found)[f] <= 1
  {
    if found != [] {
      var n := |found| - 1;
      CountAtMostOnce(found[..n], f);
      assert found == found[..n] + [found[n]];
      assert f in found[..n] ==> f != found[n];
    }
  }

  /** A rearrangement of a list in which every path occurs once is such a list too. */
  lemma RearrangedOnce(found: seq<Found>, visible: seq<Found>)
    requires EachOnce(visible) && multiset(found) == multiset(visible)
    ensures EachOnce(found)
  {
    forall i, j | 0 <= i < j < |found| ensures found[i].path != found[j].path {
      var a, b := found[i], found[j];
      assert a in multiset(found) && b in multiset(found);
      assert a in visible && b in visible;
      if a == b {
        CountTwice(found, i, j);
      }
      CountAtMostOnce(visible, a);
    }
  }

  lemma CountTwice(found: seq<Found>, i: nat, j: nat)
    requires i < j < |found| && found[i] == found[j]
    ensures multiset(found)[found[i]] >= 2
  {
    assert found == found[..j] + [found[j]] + found[j + 1..];
    assert found[..j][i] == found[i];
  }

  // ----- scans of a file tree -----

  /** The path leads to some file. */
  ghost predicate IsFile(items: seq<Item>, p: Path) {
    exists signature :: LeadsTo(items, p, signature)
  }

  /** A tree at rest has been scanned: every entry of every directory is there, as what it is. */
  ghost predicate Shows(nodes: FileTree.Nodes, d: FileTree.Ino, items: seq<Item>)
    decreases items
  {
    && FileTree.IsDirectory(nodes, d)
    && (forall c <- nodes[d].entries :: exists i :: 0 <= i < |items| && items[i].name == c)
    && forall i :: 0 <= i < |items| ==>
         && items[i].name in nodes[d].entries
         && var e := nodes[d].entries[items[i].name];
         && e in nodes
         && match items[i]
            case Folder(_, below) => Shows(nodes, e, below)
            case File(_, _) => nodes[e].Regular?
            case Irregular(_) => nodes[e].Symlink? || nodes[e].Special?
            case _ => false
  }

  ghost predicate NamesRegular(nodes: FileTree.Nodes, d: FileTree.Ino, p: Path) {
    var node := FileTree.Seen(nodes, d, p);
    node.Some? && node.value.Regular?
  }

  lemma {:induction false} LeadsThrough(items: seq<Item>, p: Path, signature: Signature)
    requires p != [] && forall i :: 0 <= i < |items| ==> !items[i].Undecided?
    ensures LeadsTo(items, p, signature) <==>
      exists i :: 0 <= i < |items| && items[i].name == p[0]
        && ((items[i] == File(p[0], signature) && |p| == 1)
            || (items[i].Folder? && !Hidden(p[0]) && LeadsTo(items[i].items, p[1..], signature)))
  {
    if items != [] {
      LeadsThrough(items[1..], p, signature);
      if LeadsTo(items[1..], p, signature) {
        var i :| 0 <= i < |items[1..]| && items[1..][i].name == p[0]
          && ((items[1..][i] == File(p[0], signature) && |p| == 1)
              || (items[1..][i].Folder? && !Hidden(p[0]) && LeadsTo(items[1..][i].items, p[1..], signature)));
        assert items[i + 1] == items[1..][i];
      }
    }
  }

  lemma {:induction false} ProperAt(items: seq<Item>, i: nat, j: nat)
    requires Proper(items) && i < |items| && j < |items|
    ensures items[i].name == items[j].name ==> i == j
    ensures items[i].Folder? ==> Proper(items[i].items)
  {
    if i > 0 && j > 0 {
      ProperAt(items[1..], i - 1, j - 1);
    } else if i > 0 {
      ProperAt(items[1..], i - 1, i - 1);
    }
  }

  /** Only the one entry with the first name of a path matters to where the path leads. */
  lemma LeadsThroughOne(items: seq<Item>, p: Path, i: nat)
    requires Proper(items) && forall k :: 0 <= k < |items| ==> !items[k].Undecided?
    requires p != [] && i < |items| && items[i].name == p[0]
    ensures IsFile(items, p) <==>
      (items[i].File? && |p| == 1) || (items[i].Folder? && !Hidden(p[0]) && IsFile(items[i].items, p[1..]))
  {
    forall k | 0 <= k < |items| ensures items[k].name == p[0] ==> k == i {
      ProperAt(items, k, i);
    }
    forall signature ensures LeadsTo(items, p, signature) <==>
      (items[i] == File(p[0], signature) && |p| == 1)
      || (items[i].Folder? && !Hidden(p[0]) && LeadsTo(items[i].items, p[1..], signature))
    {
      LeadsThrough(items, p, signature);
    }
    if items[i].File? && |p| == 1 {
      assert LeadsTo(items, p, items[i].signature);
    }
  }

  /** What a path leads to by the scan is what it names in the tree, but for what is under a hidden directory. */
  lemma {:induction false} ScanShowsTheTree(nodes: FileTree.Nodes, d: FileTree.Ino, items: seq<Item>, p: Path)
    requires Shows(nodes, d, items) && Proper(items)
    ensures IsFile(items, p) <==>
      NamesRegular(nodes, d, p) && forall i :: 0 <= i < |p| - 1 ==> !("." <= p[i])
    decreases |p|
  {
    if p != [] {
      var c, rest := p[0], p[1..];
      FileTree.LookupFirst(nodes, d, p);
      if i :| 0 <= i < |items| && items[i].name == c {
        ProperAt(items, i, i);
        LeadsThroughOne(items, p, i);
        var e := nodes[d].entries[c];
        if items[i].Folder? {
          ScanShowsTheTree(nodes, e, items[i].items, rest);
          assert forall k :: 0 <= k < |rest| ==> rest[k] == p[k + 1];
          if forall k :: 0 <= k < |p| - 1 ==> !Hidden(p[k]) {
            assert forall k :: 0 <= k < |rest| - 1 ==> !Hidden(rest[k]);
          }
        } else if rest != [] {
          FileTree.LookupFirst(nodes, e, rest);
        }
      } else {
        forall signature ensures !LeadsTo(items, p, signature) {
          LeadsThrough(items, p, signature);
        }
      }
    }
  }

  // ----- the loop -----

  /** The path `os.scandir` gives an entry, below a directory that need not be empty-named. */
  function FullPath(root: string, at: Path): string {
    if at == [] then root else FullPath(root, at[..|at| - 1]) + "/" + at[|at| - 1]
  }

  lemma {:induction false} FullPathIsJoin(root: string, at: Path)
    requires at != []
    ensures FullPath(root, at) == root + "/" + Join(at)
  {
    if |at| == 1 {
      assert at[..0] == [];
    } else {
      FullPathIsJoin(root, at[..|at| - 1]);
      JoinOneMore(at[..|at| - 1], at[|at| - 1]);
      assert at == at[..|at| - 1] + [at[|at| - 1]];
    }
  }

  lemma {:induction false} JoinOneMore(at: Path, name: Component)
    requires at != []
    ensures Join(at + [name]) == Join(at) + "/" + name
  {
    if |at| > 1 {
      JoinOneMore(at[1..], name);
      assert (at + [name])[1..] == at[1..] + [name];
      assert at[0] + "/" + (Join(at[1..]) + "/" + name) == Join(at) + "/" + name;
    }
  }

  /** A directory still to be scanned; where it is below the root is known to the proof only. */
  datatype Pending = Pending(directory: string, items: seq<Item>)

  function Size(items: seq<Item>): nat
    decreases items
  {
    if items == [] then 0 else 1 + (if items[0].Folder? then Size(items[0].items) else 0) + Size(items[1..])
  }

  function Weight(pending: seq<Pending>): nat {
    if pending == [] then 0 else Weight(pending[..|pending| - 1]) + 1 + Size(pending[|pending| - 1].items)
  }

  ghost function Below(pending: seq<Pending>, ats: seq<Path>): multiset<Found>
    requires |pending| == |ats|
  {
    if pending == [] then multiset{}
    else Below(pending[..|pending| - 1], ats[..|ats| - 1])
         + multiset(Visible(ats[|ats| - 1], pending[|pending| - 1].items))
  }

  /** What the generator yields: a path below the root, and the stamp. */
  datatype Yield = Yield(subPath: string, signature: Signature)

  function YieldOf(f: Found): Yield {
    Yield(Join(f.path), f.signature)
  }

  function Yields(found: seq<Found>): seq<Yield> {
    seq(|found|, i requires 0 <= i < |found| => YieldOf(found[i]))
  }

  lemma OneMorePending(pending: seq<Pending>, ats: seq<Path>, p: Pending, at: Path)
    requires |pending| == |ats|
    ensures Below(pending + [p], ats + [at]) == Below(pending, ats) + multiset(Visible(at, p.items))
    ensures Weight(pending + [p]) == Weight(pending) + 1 + Size(p.items)
  {
    assert (pending + [p])[..|pending|] == pending && (ats + [at])[..|ats|] == ats;
  }

  lemma VisibleStep(at: Path, rest: seq<Item>)
    requires rest != [] && !rest[0].Undecided?
    ensures var here, bag := at + [rest[0].name], multiset(Visible(at, rest));
      if rest[0].File? then bag == multiset{Found(here, rest[0].signature)} + multiset(Visible(at, rest[1..]))
      else if rest[0].Folder? && !Hidden(rest[0].name) then
        bag == multiset(Visible(here, rest[0].items)) + multiset(Visible(at, rest[1..]))
      else bag == multiset(Visible(at, rest[1..]))
  {
    if !rest[0].File? && !(rest[0].Folder? && !Hidden(rest[0].name)) {
      assert [] + Visible(at, rest[1..]) == Visible(at, rest[1..]);
    }
  }

  ghost predicate Placed(root: string, pending: seq<Pending>, ats: seq<Path>) {
    |ats| == |pending| && forall i :: 0 <= i < |pending| ==> pending[i].directory == FullPath(root, ats[i])
  }

  /** What is found already and what is still below the stack. */
  ghost function All(found: seq<Found>, pending: seq<Pending>, ats: seq<Path>): multiset<Found>
    requires |pending| == |ats|
  {
    multiset(found) + Below(pending, ats)
  }

  lemma AllPush(found: seq<Found>, pending: seq<Pending>, ats: seq<Path>, p: Pending, at: Path)
    requires |pending| == |ats|
    ensures All(found, pending + [p], ats + [at]) == All(found, pending, ats) + multiset(Visible(at, p.items))
    ensures Weight(pending + [p]) == Weight(pending) + 1 + Size(p.items)
  {
    OneMorePending(pending, ats, p, at);
  }

  lemma AllPop(found: seq<Found>, pending: seq<Pending>, ats: seq<Path>)
    requires |pending| == |ats| && pending != []
    ensures var n := |pending| - 1;
      && All(found, pending, ats) == All(found, pending[..n], ats[..n]) + multiset(Visible(ats[n], pending[n].items))
      && Weight(pending) == Weight(pending[..n]) + 1 + Size(pending[n].items)
  {
  }

  lemma AllFound(found: seq<Found>, f: Found, pending: seq<Pending>, ats: seq<Path>)
    requires |pending| == |ats|
    ensures All(found + [f], pending, ats) == All(found, pending, ats) + multiset{f}
    ensures Yields(found + [f]) == Yields(found) + [Yield(Join(f.path), f.signature)]
  {
  }

  /** All that is found, waiting on the stack, or still to come in the scan of one directory. */
  ghost function Ahead(found: seq<Found>, pending: seq<Pending>, ats: seq<Path>, at: Path, rest: seq<Item>)
    : multiset<Found>
    requires |pending| == |ats|
  {
    All(found, pending, ats) + multiset(Visible(at, rest))
  }

  lemma AheadPush(found: seq<Found>, pending: seq<Pending>, ats: seq<Path>, at: Path, rest: seq<Item>, p: Pending)
    requires |pending| == |ats| && rest != [] && rest[0].Folder? && !Hidden(rest[0].name) && p.items == rest[0].items
    ensures Ahead(found, pending + [p], ats + [at + [rest[0].name]], at, rest[1..]) ==
      Ahead(found, pending, ats, at, rest)
    ensures Weight(pending + [p]) + Size(rest[1..]) <= Weight(pending) + Size(rest)
  {
    VisibleStep(at, rest);
    AllPush(found, pending, ats, p, at + [rest[0].name]);
  }

  lemma AheadFound(found: seq<Found>, pending: seq<Pending>, ats: seq<Path>, at: Path, rest: seq<Item>, f: Found)
    requires |pending| == |ats| && rest != [] && rest[0].File? && f == Found(at + [rest[0].name], rest[0].signature)
    ensures Ahead(found + [f], pending, ats, at, rest[1..]) == Ahead(found, pending, ats, at, rest)
    ensures Yields(found + [f]) == Yields(found) + [Yield(Join(f.path), f.signature)]
  {
    VisibleStep(at, rest);
    AllFound(found, f, pending, ats);
  }

  lemma AheadSkip(found: seq<Found>, pending: seq<Pending>, ats: seq<Path>, at: Path, rest: seq<Item>)
    requires |pending| == |ats| && rest != [] && !rest[0].Undecided? && !rest[0].File?
    requires rest[0].Folder? ==> Hidden(rest[0].name)
    ensures Ahead(found, pending, ats, at, rest[1..]) == Ahead(found, pending, ats, at, rest)
  {
    VisibleStep(at, rest);
  }

  lemma AheadEnds(found: seq<Found>, pending: seq<Pending>, ats: seq<Path>, at: Path, rest: seq<Item>)
    requires |pending| == |ats| && (rest == [] || rest[0].Undecided?)
    ensures Ahead(found, pending, ats, at, rest) == All(found, pending, ats)
  {
  }

  lemma PlacedPush(root: string, pending: seq<Pending>, ats: seq<Path>, p: Pending, at: Path)
    requires Placed(root, pending, ats) && p.directory == FullPath(root, at)
    ensures Placed(root, pending + [p], ats + [at])
  {
  }

  /** What `entry.path` leaves when the root and a slash are cut off. */
  lemma EntryPath(root: string, at: Path, name: Component)
    ensures FullPath(root, at + [name]) == FullPath(root, at) + "/" + name
    ensures |FullPath(root, at + [name])| > |root|
    ensures FullPath(root, at + [name])[|root| + 1..] == Join(at + [name])
  {
    assert (at + [name])[..|at + [name]| - 1] == at;
    FullPathIsJoin(root, at + [name]);
  }

  /** The scan of one directory: yields its files, and puts its directories on the stack. */
  method ScanDirectory(root: string, directory: Pending, before: seq<Pending>, ghost at: Path,
                       ghost found: seq<Found>, ghost ats: seq<Path>)
    returns (yielded: seq<Yield>, pending: seq<Pending>, ghost found': seq<Found>, ghost ats': seq<Path>)
    requires directory.directory == FullPath(root, at) && Placed(root, before, ats)
    ensures Yields(found') == Yields(found) + yielded && Placed(root, pending, ats')
    ensures All(found', pending, ats') == All(found, before, ats) + multiset(Visible(at, directory.items))
    ensures Weight(pending) <= Weight(before) + Size(directory.items)
  {
    yielded, pending, found', ats' := [], before, found, ats;
    var prefixLength := |root| + 1;
    var rest := directory.items;
    while rest != [] && !rest[0].Undecided?
      invariant Yields(found') == Yields(found) + yielded && Placed(root, pending, ats')
      invariant Ahead(found', pending, ats', at, rest) == Ahead(found, before, ats, at, directory.items)
      invariant Weight(pending) + Size(rest) <= Weight(before) + Size(directory.items)
      decreases |rest|
    {
      var entry := rest[0];
      ghost var here := at + [entry.name];
      EntryPath(root, at, entry.name);
      var path := directory.directory + "/" + entry.name;
      if entry.Folder? && !Hidden(entry.name) {
        var p := Pending(path, entry.items);
        AheadPush(found', pending, ats', at, rest, p);
        PlacedPush(root, pending, ats', p, here);
        pending, ats' := pending + [p], ats' + [here];
      } else if entry.File? {
        AheadFound(found', pending, ats', at, rest, Found(here, entry.signature));
        yielded := yielded + [Yield(path[prefixLength..], entry.signature)];
        found' := found' + [Found(here, entry.signature)];
      } else {
        AheadSkip(found', pending, ats', at, rest);
      }
      rest := rest[1..];
    }
    AheadEnds(found', pending, ats', at, rest);
  }

  lemma YieldsWithout(b: seq<Found>, i: nat)
    requires i < |b|
    ensures var rest := b[..i] + b[i + 1..];
      && multiset(b) == multiset(rest) + multiset{b[i]}
      && multiset(Yields(b)) == multiset(Yields(rest)) + multiset{YieldOf(b[i])}
  {
    var rest := b[..i] + b[i + 1..];
    assert b == b[..i] + [b[i]] + b[i + 1..];
    assert Yields(b) == Yields(b[..i]) + [YieldOf(b[i])] + Yields(b[i + 1..]);
    assert Yields(rest) == Yields(b[..i]) + Yields(b[i + 1..]);
  }

  lemma Cancel(p: multiset<Found>, q: multiset<Found>, f: Found)
    requires p + multiset{f} == q + multiset{f}
    ensures p == q
  {
    forall x: Found ensures p[x] == q[x] {
      assert (p + multiset{f})[x] == (q + multiset{f})[x];
    }
  }

  /** Rearranging what is found rearranges what is yielded. */
  lemma {:induction false} YieldsRearranged(a: seq<Found>, b: seq<Found>)
    requires multiset(a) == multiset(b)
    ensures multiset(Yields(a)) == multiset(Yields(b))
  {
    if a == [] {
      assert |multiset(b)| == |b|;
    } else {
      assert a[0] in multiset(b);
      var i :| 0 <= i < |b| && b[i] == a[0];
      YieldsWithout(a, 0);
      YieldsWithout(b, i);
      var a', b' := a[..0] + a[1..], b[..i] + b[i + 1..];
      Cancel(multiset(a'), multiset(b'), a[0]);
      YieldsRearranged(a', b');
    }
  }

  /** Every visible file is yielded, as often as it is visible, whatever the order of the scans. */
  method IterSessionFiles(root: string, items: seq<Item>) returns (yielded: seq<Yield>, ghost found: seq<Found>)
    ensures multiset(yielded) == multiset(Yields(Visible([], items)))
    ensures multiset(found) == multiset(Visible([], items)) && yielded == Yields(found)
  {
    yielded, found := [], [];
    var pending := [Pending(root, items)];
    ghost var ats: seq<Path> := [[]];
    AllPop([], pending, ats);
    while pending != []
      invariant Placed(root, pending, ats)
      invariant All(found, pending, ats) == multiset(Visible([], items))
      invariant yielded == Yields(found)
      decreases Weight(pending)
    {
      var n := |pending| - 1;
      AllPop(found, pending, ats);
      var more;
      more, pending, found, ats := ScanDirectory(root, pending[n], pending[..n], ats[n], found, ats[..n]);
      yielded := yielded + more;
    }
    YieldsRearranged(found, Visible([], items));
  }
}
