/**
  `_remove_tree`: a pass that opens up every directory of an owned tree, whatever permission bits executed
  code left on it, and the removal that can then not be refused.
 */
module Removal {
  import opened Common
  import opened Paths
  import opened FileTree

  /** The owner's bits. */
  datatype Mode = Mode(r: bool, w: bool, x: bool)

  const RWX := Mode(true, true, true)    // 0o700

  /** Every directory of the tree is found where its home is. */
  ghost predicate Rooted(nodes: Nodes, root: Ino, home: map<Ino, Path>) {
    Housed(nodes, root, home) && forall d <- home :: Lookup(nodes, root, home[d]) == Some(d)
  }

  /** The real directories some names of a directory stand for. */
  ghost function Behind(nodes: Nodes, d: Ino, names: set<Component>): set<Ino>
    requires IsDirectory(nodes, d)
  {
    set c | c in names && c in nodes[d].entries && IsDirectory(nodes, nodes[d].entries[c]) :: nodes[d].entries[c]
  }

  ghost function Subdirectories(nodes: Nodes, d: Ino): set<Ino>
    requires IsDirectory(nodes, d)
  {
    Behind(nodes, d, nodes[d].entries.Keys)
  }

  lemma OneMoreBehind(nodes: Nodes, d: Ino, names: set<Component>, c: Component)
    requires IsDirectory(nodes, d) && c in nodes[d].entries
    ensures Behind(nodes, d, names + {c}) ==
      Behind(nodes, d, names) + if IsDirectory(nodes, nodes[d].entries[c]) then {nodes[d].entries[c]} else {}
  {
  }

  lemma SubdirectoryHome(nodes: Nodes, root: Ino, home: map<Ino, Path>, d: Ino, i: Ino)
    requires Rooted(nodes, root, home) && d in home && i in Subdirectories(nodes, d)
    ensures i in home && home[i] != [] && home[i][..|home[i]| - 1] == home[d]
  {
    var c :| c in nodes[d].entries && nodes[d].entries[c] == i;
    assert AtHome(nodes, home, d, c);
  }

  lemma HomesDiffer(nodes: Nodes, root: Ino, home: map<Ino, Path>, d: Ino, e: Ino)
    requires Rooted(nodes, root, home) && d in home && e in home
    ensures home[d] == home[e] ==> d == e
  {
  }

  /** What holds the root, and with every directory those right below it, holds the whole tree. */
  lemma {:induction false} ClosedDownwards(nodes: Nodes, root: Ino, home: map<Ino, Path>, seen: set<Ino>, p: Path)
    requires Housed(nodes, root, home) && root in seen && seen <= home.Keys
    requires forall d <- seen :: Subdirectories(nodes, d) <= seen
    ensures var i := Lookup(nodes, root, p); i.Some? && IsDirectory(nodes, i.value) ==> i.value in seen
  {
    if p != [] {
      ClosedDownwards(nodes, root, home, seen, p[..|p| - 1]);
      var d := Lookup(nodes, root, p[..|p| - 1]);
      assert d.Some? && IsDirectory(nodes, d.value) ==> Subdirectories(nodes, d.value) <= seen;
    }
  }

  /** Where an inode leads when links are followed. */
  function Follow(nodes: Nodes, i: Ino): Ino {
    if i in nodes && nodes[i].Symlink? then nodes[i].target else i
  }

  /** The names `fwalk` lists as directories: links to directories are among them. */
  function DirectoryNames(nodes: Nodes, d: Ino): set<Component>
    requires IsDirectory(nodes, d)
  {
    set c | c in nodes[d].entries && IsDirectory(nodes, Follow(nodes, nodes[d].entries[c]))
  }

  /** Some inodes have their bits, and no other mode changed. */
  ghost predicate Opened(before: map<Ino, Mode>, after: map<Ino, Mode>, some: set<Ino>) {
    after.Keys == before.Keys && forall i <- after :: after[i] == if i in some then RWX else before[i]
  }

  lemma OpenedFurther(before: map<Ino, Mode>, after: map<Ino, Mode>, some: set<Ino>, i: Ino)
    requires Opened(before, after, some) && i in after
    ensures Opened(before, after[i := RWX], some + {i})
  {
  }

  /** How far a walk has come: what it has been through, and what it still has to go into. */
  ghost predicate Frontier(nodes: Nodes, root: Ino, home: map<Ino, Path>, seen: set<Ino>, front: set<Ino>) {
    && root in seen + front && seen + front <= home.Keys && seen !! front
    && (forall d <- seen :: d in home && IsDirectory(nodes, d) && Subdirectories(nodes, d) <= seen + front)
    && forall i <- seen + front ::
         i == root || exists d <- seen :: IsDirectory(nodes, d) && i in Subdirectories(nodes, d)
  }

  lemma FrontierAdvances(nodes: Nodes, root: Ino, home: map<Ino, Path>, seen: set<Ino>, front: set<Ino>, d: Ino)
    requires Rooted(nodes, root, home) && Frontier(nodes, root, home, seen, front) && d in front
    ensures Subdirectories(nodes, d) !! seen + front
    ensures Frontier(nodes, root, home, seen + {d}, front - {d} + Subdirectories(nodes, d))
  {
    forall i | i in Subdirectories(nodes, d) ensures i !in seen + front && i in home {
      SubdirectoryHome(nodes, root, home, d, i);
      if i in seen + front {
        var v :| v in seen && IsDirectory(nodes, v) && i in Subdirectories(nodes, v);
        SubdirectoryHome(nodes, root, home, v, i);
        HomesDiffer(nodes, root, home, d, v);
      }
    }
  }

  /** The stack as a set: every directory waiting is on it once. */
  ghost predicate Stacks(pending: seq<Ino>, front: set<Ino>) {
    NoDup(pending) && forall i :: i in pending <==> i in front
  }

  lemma StackAdvances(pending: seq<Ino>, front: set<Ino>, more: seq<Ino>, below: set<Ino>)
    requires pending != [] && Stacks(pending, front) && Stacks(more, below) && below !! front
    ensures var n := |pending| - 1;
      pending[n] in front && Stacks(pending[..n] + more, front - {pending[n]} + below)
  {
    var n := |pending| - 1;
    NoDupQueue(pending, pending[n]);
    forall i, j | 0 <= i < |pending| && 0 <= j < |more| ensures pending[i] != more[j] {
      assert pending[i] in front && more[j] in below;
    }
  }

  lemma FrontierEnds(nodes: Nodes, root: Ino, home: map<Ino, Path>, seen: set<Ino>)
    requires Rooted(nodes, root, home) && Frontier(nodes, root, home, seen, {})
    ensures seen == home.Keys
  {
    forall d <- home ensures d in seen {
      assert forall e <- seen :: Subdirectories(nodes, e) <= seen + {};
      ClosedDownwards(nodes, root, home, seen, home[d]);
    }
  }

  lemma OneNameEach(nodes: Nodes, root: Ino, home: map<Ino, Path>, d: Ino, c: Component, c': Component)
    requires Housed(nodes, root, home) && d in home && c in nodes[d].entries && c' in nodes[d].entries
    requires nodes[d].entries[c] == nodes[d].entries[c'] && IsDirectory(nodes, nodes[d].entries[c])
    ensures c == c'
  {
    assert AtHome(nodes, home, d, c) && AtHome(nodes, home, d, c');
    assert (home[d] + [c])[|home[d]|] == (home[d] + [c'])[|home[d]|];
  }

  /** Entries went at and below a directory; nothing else happened. */
  ghost predicate ShrunkBelow(home: map<Ino, Path>, d: Ino, before: Nodes, after: Nodes) {
    && before.Keys == after.Keys
    && forall i <- before ::
         && (before[i].Directory? <==> after[i].Directory?)
         && (!(i in home && d in home && home[d] <= home[i]) ==> after[i] == before[i])
         && (before[i].Directory? ==> forall c <- after[i].entries ::
               c in before[i].entries && after[i].entries[c] == before[i].entries[c])
  }

  lemma ShrunkHoused(before: Nodes, after: Nodes, root: Ino, home: map<Ino, Path>, d: Ino)
    requires Housed(before, root, home) && ShrunkBelow(home, d, before, after)
    ensures Housed(after, root, home)
  {
    forall i: Ino, c: Component ensures AtHome(after, home, i, c) {
      assert AtHome(before, home, i, c);
    }
  }

  // ----- which removals succeed -----

  /** No two directories have one home. */
  ghost predicate Distinct(home: map<Ino, Path>) {
    forall d <- home, e <- home :: home[d] == home[e] ==> d == e
  }

  /** Directory `e` is `d`, or is somewhere below it. */
  ghost predicate Below(home: map<Ino, Path>, d: Ino, e: Ino) {
    d in home && e in home && home[d] <= home[e]
  }

  /** Directory `e` is what `d` has under the name `c`, or is somewhere below that. */
  ghost predicate Under(home: map<Ino, Path>, d: Ino, c: Component, e: Ino) {
    d in home && e in home && home[d] + [c] <= home[e]
  }

  /** Every directory below `d` is found where its home is. */
  ghost predicate Grounded(nodes: Nodes, root: Ino, home: map<Ino, Path>, d: Ino) {
    && Housed(nodes, root, home) && d in home
    && forall e <- home :: Below(home, d, e) ==> Lookup(nodes, d, home[e][|home[d]|..]) == Some(e)
  }

  lemma AtItsRoot(nodes: Nodes, root: Ino, home: map<Ino, Path>)
    requires Rooted(nodes, root, home)
    ensures Grounded(nodes, root, home, root) && Distinct(home)
  {
    forall e <- home ensures home[e][|home[root]|..] == home[e] {
    }
  }

  /** A directory can be listed and, if anything is in it, be searched and written. */
  predicate Accessible(nodes: Nodes, modes: map<Ino, Mode>, d: Ino) {
    d in modes && IsDirectory(nodes, d) && modes[d].r && (nodes[d].entries != map[] ==> modes[d].w && modes[d].x)
  }

  ghost predicate AllAccessible(nodes: Nodes, modes: map<Ino, Mode>, home: map<Ino, Path>, d: Ino) {
    forall e <- home :: Below(home, d, e) ==> Accessible(nodes, modes, e)
  }

  /** What is still under an entry of `d` is as it was, and all that has gone was accessible. */
  ghost predicate Cleared(start: Nodes, nodes: Nodes, modes: map<Ino, Mode>, home: map<Ino, Path>, d: Ino) {
    && IsDirectory(nodes, d)
    && forall e: Ino, c: Component :: Under(home, d, c, e) ==>
         if c in nodes[d].entries then e in start && e in nodes && nodes[e] == start[e]
         else Accessible(start, modes, e)
  }

  /** An entry of `d` leads to each directory below. */
  lemma UnderEntry(nodes: Nodes, root: Ino, home: map<Ino, Path>, d: Ino, c: Component, e: Ino)
    requires Grounded(nodes, root, home, d) && Under(home, d, c, e)
    ensures c in nodes[d].entries
    ensures var i := nodes[d].entries[c];
      IsDirectory(nodes, i) && Lookup(nodes, i, home[e][|home[d]| + 1..]) == Some(e)
  {
    var p := home[e][|home[d]|..];
    assert p[0] == c && p[1..] == home[e][|home[d]| + 1..];
    LookupFirst(nodes, d, p);
    if p[1..] != [] {
      LookupFirst(nodes, nodes[d].entries[c], p[1..]);
    }
  }

  lemma ClearedAtFirst(nodes: Nodes, modes: map<Ino, Mode>, root: Ino, home: map<Ino, Path>, d: Ino)
    requires Grounded(nodes, root, home, d)
    ensures Cleared(nodes, nodes, modes, home, d)
  {
    forall e: Ino, c: Component | Under(home, d, c, e) ensures c in nodes[d].entries && e in nodes {
      UnderEntry(nodes, root, home, d, c, e);
    }
  }

  lemma ClearedAtLast(start: Nodes, nodes: Nodes, modes: map<Ino, Mode>, home: map<Ino, Path>, d: Ino)
    requires Cleared(start, nodes, modes, home, d) && nodes[d].entries == map[]
    requires Distinct(home) && d in home && Accessible(start, modes, d)
    ensures AllAccessible(start, modes, home, d)
  {
    forall e <- home | Below(home, d, e) ensures Accessible(start, modes, e) {
      if home[e] != home[d] {
        assert Under(home, d, home[e][|home[d]|], e);
      }
    }
  }

  /** Paths below a directory are the same in two trees that agree on the directories there. */
  lemma {:induction false} SameLookup(a: Nodes, b: Nodes, root: Ino, home: map<Ino, Path>, i: Ino, p: Path)
    requires Housed(a, root, home) && i in home && a.Keys == b.Keys
    requires forall j <- a :: a[j].Directory? <==> b[j].Directory?
    requires forall e <- home :: Below(home, i, e) ==> e in a && e in b && a[e] == b[e]
    ensures Lookup(a, i, p) == Lookup(b, i, p)
    ensures var j := Lookup(a, i, p);
      j.Some? && IsDirectory(a, j.value) ==> j.value in home && home[j.value] == home[i] + p
  {
    if p != [] {
      var q, c := p[..|p| - 1], p[|p| - 1];
      SameLookup(a, b, root, home, i, q);
      var d := Lookup(a, i, q);
      if d.Some? && IsDirectory(a, d.value) {
        assert Below(home, i, d.value) && AtHome(a, home, d.value, c);
        assert home[i] + q + [c] == home[i] + p;
      }
    }
  }

  lemma BelowIsUnder(nodes: Nodes, root: Ino, home: map<Ino, Path>, d: Ino, c: Component, i: Ino)
    requires Housed(nodes, root, home) && d in home
    requires c in nodes[d].entries && nodes[d].entries[c] == i && IsDirectory(nodes, i)
    ensures i in home && home[i] == home[d] + [c]
    ensures forall e :: Below(home, i, e) <==> Under(home, d, c, e)
  {
    assert AtHome(nodes, home, d, c);
  }

  lemma GroundedUnder(start: Nodes, nodes: Nodes, modes: map<Ino, Mode>, root: Ino, home: map<Ino, Path>,
                      d: Ino, c: Component, i: Ino)
    requires Grounded(start, root, home, d) && Housed(nodes, root, home) && ShrunkBelow(home, d, start, nodes)
    requires c in nodes[d].entries && c in start[d].entries && start[d].entries[c] == i && IsDirectory(start, i)
    requires Cleared(start, nodes, modes, home, d)
    ensures Grounded(nodes, root, home, i) && home[i] == home[d] + [c]
  {
    BelowIsUnder(start, root, home, d, c, i);
    forall e <- home | Below(home, i, e) ensures Lookup(nodes, i, home[e][|home[i]|..]) == Some(e) {
      UnderEntry(start, root, home, d, c, e);
      SameLookup(start, nodes, root, home, i, home[e][|home[i]|..]);
    }
  }

  /** What is under an entry that is still there is accessible now if it was at first. */
  lemma AccessibleUnder(start: Nodes, nodes: Nodes, modes: map<Ino, Mode>, root: Ino, home: map<Ino, Path>,
                        d: Ino, c: Component)
    requires Grounded(start, root, home, d) && ShrunkBelow(home, d, start, nodes)
    requires Cleared(start, nodes, modes, home, d) && c in nodes[d].entries
    ensures var i := nodes[d].entries[c];
      if IsDirectory(nodes, i) then
        && (AllAccessible(nodes, modes, home, i) ==>
              forall e: Ino :: Under(home, d, c, e) ==> Accessible(start, modes, e))
        && (AllAccessible(start, modes, home, d) ==> AllAccessible(nodes, modes, home, i))
      else
        forall e: Ino :: !Under(home, d, c, e)
  {
    var i := nodes[d].entries[c];
    assert AtHome(start, home, d, c);
    forall e | Under(home, d, c, e) ensures IsDirectory(nodes, i) && nodes[e] == start[e] && Below(home, i, e) {
      UnderEntry(start, root, home, d, c, e);
    }
    if IsDirectory(nodes, i) {
      assert forall e :: Below(home, i, e) ==> Under(home, d, c, e) && Below(home, d, e);
    }
  }

  /** What is below an entry shrinks, and then the entry itself goes. */
  lemma ShrunkFurther(start: Nodes, before: Nodes, between: Nodes, after: Nodes, home: map<Ino, Path>,
                      d: Ino, c: Component)
    requires d in home && IsDirectory(before, d) && IsDirectory(between, d) && c in before[d].entries
    requires ShrunkBelow(home, d, start, before)
    requires var i := before[d].entries[c];
      between == before || (i in home && home[i] == home[d] + [c] && ShrunkBelow(home, i, before, between))
    requires after == between[d := between[d].(entries := between[d].entries - {c})]
    ensures ShrunkBelow(home, d, start, after)
    ensures IsDirectory(after, d) && after[d].entries == before[d].entries - {c}
    ensures forall e: Ino :: e in home && e in before && e != d && !Under(home, d, c, e) ==>
      e in after && after[e] == before[e]
  {
    assert between[d] == before[d];
  }

  /** The step from one entry to the next: what was under the entry was accessible and is gone. */
  lemma ClearedFurther(start: Nodes, before: Nodes, after: Nodes, modes: map<Ino, Mode>, root: Ino,
                       home: map<Ino, Path>, d: Ino, c: Component)
    requires Grounded(start, root, home, d) && Cleared(start, before, modes, home, d)
    requires IsDirectory(after, d) && c in before[d].entries && after[d].entries == before[d].entries - {c}
    requires forall e: Ino :: Under(home, d, c, e) ==> Accessible(start, modes, e)
    requires forall e: Ino :: e in home && e != d && !Under(home, d, c, e) ==>
      e in after && e in before && after[e] == before[e]
    ensures Cleared(start, after, modes, home, d)
  {
    forall e: Ino, c': Component | Under(home, d, c', e)
      ensures if c' in after[d].entries then e in start && e in after && after[e] == start[e]
              else Accessible(start, modes, e)
    {
      assert home[e][|home[d]|] == c';
      assert c' != c ==> !Under(home, d, c, e);
    }
  }

  ghost function LongestHome(home: map<Ino, Path>): (bound: nat)
    ensures forall i <- home :: |home[i]| <= bound
  {
    if home == map[] then 0
    else
      var i :| i in home;
      var rest := LongestHome(home - {i});
      assert forall j <- home :: j != i ==> j in home - {i} && (home - {i})[j] == home[j];
      if |home[i]| > rest then |home[i]| else rest
  }

  class OwnedTree {
    const root: Ino
    ghost const home: map<Ino, Path>
    var nodes: Nodes
    var modes: map<Ino, Mode>

    ghost predicate Valid()
      reads this
    {
      Rooted(nodes, root, home) && nodes.Keys <= modes.Keys
    }

    constructor (nodes: Nodes, root: Ino, modes: map<Ino, Mode>, ghost home: map<Ino, Path>)
      requires Rooted(nodes, root, home) && nodes.Keys <= modes.Keys
      ensures Valid() && this.nodes == nodes && this.root == root && this.modes == modes && this.home == home
    {
      this.nodes, this.root, this.modes, this.home := nodes, root, modes, home;
    }

    /** `os.chmod(c, 0o700, dir_fd)`, which follows a link to whatever is at its end. */
    method OpenUp(d: Ino, c: Component)
      requires Valid() && IsDirectory(nodes, d) && c in nodes[d].entries
      modifies this`modes
      ensures Valid()
      ensures var i := Follow(nodes, nodes[d].entries[c]);
        modes == if modes[d].x && i in nodes then old(modes)[i := RWX] else old(modes)
    {
      var i := Follow(nodes, nodes[d].entries[c]);
      if modes[d].x && i in nodes {
        modes := modes[i := RWX];
      }
    }

    /** The body of the pass: of what `fwalk` calls directories, links to directories are left alone. */
    method OpenUpSubdirectories(d: Ino)
      requires Valid() && d in home
      modifies this`modes
      ensures Valid() && Opened(old(modes), modes, if old(modes[d].x) then Subdirectories(nodes, d) else {})
    {
      var names := DirectoryNames(nodes, d);
      ghost var done: set<Component> := {};
      while names != {}
        invariant Valid()
        invariant done + names == DirectoryNames(nodes, d)
        invariant Opened(old(modes), modes, if old(modes[d].x) then Behind(nodes, d, done) else {})
        decreases names
      {
        var c :| c in names;
        OneMoreBehind(nodes, d, done, c);
        if modes[d].x && IsDirectory(nodes, nodes[d].entries[c]) {
          OpenedFurther(old(modes), modes, Behind(nodes, d, done), nodes[d].entries[c]);
          OpenUp(d, c);
        }
        names, done := names - {c}, done + {c};
      }
      assert Behind(nodes, d, done) == Subdirectories(nodes, d);
    }

    /** Which directories `fwalk` goes into next: the real ones, as far as they can be looked up and opened. */
    method GoInto(d: Ino) returns (more: seq<Ino>)
      requires Valid() && d in home
      ensures NoDup(more)
      ensures forall i :: i in more <==> modes[d].x && i in Subdirectories(nodes, d) && modes[i].r
    {
      more := [];
      var names := DirectoryNames(nodes, d);
      ghost var done: set<Component> := {};
      while names != {}
        invariant done + names == DirectoryNames(nodes, d) && done !! names
        invariant NoDup(more)
        invariant forall i :: i in more <==> modes[d].x && i in Behind(nodes, d, done) && modes[i].r
        decreases names
      {
        var c :| c in names;
        var i := nodes[d].entries[c];
        if modes[d].x && IsDirectory(nodes, i) && modes[i].r {
          if i in Behind(nodes, d, done) {
            var c' :| c' in done && c' in nodes[d].entries && nodes[d].entries[c'] == i;
            OneNameEach(nodes, root, home, d, c, c');
          }
          NoDupQueue(more, i);
          more := more + [i];
        }
        names, done := names - {c}, done + {c};
      }
      assert Behind(nodes, d, done) == Subdirectories(nodes, d);
    }

    /**
      The pass before the removal: every directory of the tree becomes readable and searchable before it
      is gone into, so none is missed, and no mode changes of anything else, at the end of a link or not.
     */
    method Unlock()
      requires Valid()
      modifies this`modes
      ensures Valid() && Opened(old(modes), modes, home.Keys)
    {
      modes := modes[root := RWX];
      var pending := [root];
      ghost var seen: set<Ino>, front := {}, {root};
      while pending != []
        invariant Valid() && Opened(old(modes), modes, seen + front)
        invariant Frontier(nodes, root, home, seen, front)
        invariant Stacks(pending, front)
        decreases home.Keys - seen
      {
        var d := pending[|pending| - 1];
        assert d in front;
        FrontierAdvances(nodes, root, home, seen, front, d);
        OpenUpSubdirectories(d);
        var more := GoInto(d);
        StackAdvances(pending, front, more, Subdirectories(nodes, d));
        pending := pending[..|pending| - 1] + more;
        seen, front := seen + {d}, front - {d} + Subdirectories(nodes, d);
      }
      assert front == {};
      FrontierEnds(nodes, root, home, seen);
    }

    /** One entry of a directory is removed, and all that is below it. */
    method RemoveEntry(d: Ino, c: Component, ghost start: Nodes, ghost bound: nat) returns (ok: bool)
      requires Housed(nodes, root, home) && nodes.Keys <= modes.Keys && Distinct(home) && d in home
      requires forall i <- home :: |home[i]| <= bound
      requires Grounded(start, root, home, d) && ShrunkBelow(home, d, start, nodes)
      requires Cleared(start, nodes, modes, home, d) && c in nodes[d].entries
      modifies this`nodes
      ensures Housed(nodes, root, home) && nodes.Keys <= modes.Keys && ShrunkBelow(home, d, start, nodes)
      ensures ok ==> Cleared(start, nodes, modes, home, d) && nodes[d].entries == old(nodes[d].entries) - {c}
      ensures !ok ==> !AllAccessible(start, modes, home, d)
      decreases bound - |home[d]|, 0
    {
      var i := nodes[d].entries[c];
      ghost var before := nodes;
      AccessibleUnder(start, nodes, modes, root, home, d, c);
      if IsDirectory(nodes, i) {
        GroundedUnder(start, nodes, modes, root, home, d, c, i);
        ok := Empty(i, bound);
        if !ok {
          return false;
        }
        assert nodes[i].entries == map[];    // rmdir takes no other
      }
      ghost var between := nodes;
      nodes := nodes[d := nodes[d].(entries := nodes[d].entries - {c})];
      ShrunkFurther(start, before, between, nodes, home, d, c);
      ShrunkHoused(start, nodes, root, home, d);
      ClearedFurther(start, before, nodes, modes, root, home, d, c);
      ok := true;
    }

    /**
      `shutil.rmtree` below a directory; false stands for the error that a refused call raises. It succeeds
      exactly if every directory there can be listed and, unless it is empty, be searched and written.
     */
    method Empty(d: Ino, ghost bound: nat) returns (ok: bool)
      requires Grounded(nodes, root, home, d) && nodes.Keys <= modes.Keys && Distinct(home)
      requires forall i <- home :: |home[i]| <= bound
      modifies this`nodes
      ensures Housed(nodes, root, home) && nodes.Keys <= modes.Keys
      ensures ShrunkBelow(home, d, old(nodes), nodes)
      ensures ok ==> nodes[d].entries == map[]
      ensures ok <==> AllAccessible(old(nodes), modes, home, d)
      decreases bound - |home[d]|, 1
    {
      assert Below(home, d, d);
      if !modes[d].r {
        return false;
      }
      ClearedAtFirst(nodes, modes, root, home, d);
      while nodes[d].entries != map[]
        invariant Housed(nodes, root, home) && nodes.Keys <= modes.Keys && ShrunkBelow(home, d, old(nodes), nodes)
        invariant Cleared(old(nodes), nodes, modes, home, d)
        invariant nodes[d].entries == old(nodes[d].entries) || (modes[d].w && modes[d].x)
        decreases |nodes[d].entries|
      {
        if !(modes[d].w && modes[d].x) {
          return false;
        }
        var c :| c in nodes[d].entries;
        ok := RemoveEntry(d, c, old(nodes), bound);
        if !ok {
          return false;
        }
      }
      ClearedAtLast(old(nodes), nodes, modes, home, d);
      ok := true;
    }

    /**
      Whatever bits were left on it, the tree ends up empty, and no inode that is not one of its
      directories has another mode or other contents than before.
     */
    method RemoveTree()
      requires Valid()
      modifies this`nodes, this`modes
      ensures IsDirectory(nodes, root) && nodes[root].entries == map[]
      ensures nodes.Keys == old(nodes.Keys) && modes.Keys == old(modes.Keys)
      ensures forall i <- nodes :: i !in home ==> nodes[i] == old(nodes[i])
      ensures forall i <- modes :: i !in home ==> modes[i] == old(modes[i])
    {
      Unlock();
      AtItsRoot(nodes, root, home);
      ghost var bound := LongestHome(home);
      var ok := Empty(root, bound);
      assert ok;
    }
  }
}
