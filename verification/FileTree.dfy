/**
  A file system as inodes, and what a session's tree looks like from its root. Paths are resolved as
  section 4.13 of the POSIX.1-2017 Base Definitions has it, one component at a time.
 */
module FileTree {
  import opened Common
  import opened Paths
  import opened Utf8

  type Ino = nat
  type Path = seq<Component>

  /** `up` is where ".." leads; `target` is where following the link ends up. */
  datatype Node =
    | Directory(entries: map<Component, Ino>, up: Ino)
    | Regular(content: seq<Byte>)
    | Symlink(target: Ino)
    | Special

  type Nodes = map<Ino, Node>

  predicate IsDirectory(nodes: Nodes, i: Ino) {
    i in nodes && nodes[i].Directory?
  }

  // ----- opening one component -----

  /** The inode a component leads to from a directory, if it is there. */
  function Child(nodes: Nodes, d: Ino, c: Component, nofollow: bool): Option<Ino> {
    if !IsDirectory(nodes, d) then None
    else if c == DOT || c == "" then Some(d)
    else if c == DOTDOT then Some(nodes[d].up)
    else if c !in nodes[d].entries then None
    else
      var i := nodes[d].entries[c];
      if !nofollow && i in nodes && nodes[i].Symlink? then Some(nodes[i].target) else Some(i)
  }

  /** What a session owns: entries of its directories are its own too. Links and ".." may lead anywhere. */
  predicate Closed(nodes: Nodes, mine: set<Ino>) {
    forall d {:trigger Owned(nodes, mine, d)} :: d in mine ==> Owned(nodes, mine, d)
  }

  predicate Owned(nodes: Nodes, mine: set<Ino>, d: Ino) {
    d in nodes && (nodes[d].Directory? ==> forall c <- nodes[d].entries :: nodes[d].entries[c] in mine)
  }

  lemma OneStepStaysInside(nodes: Nodes, mine: set<Ino>, d: Ino, c: Component)
    requires Closed(nodes, mine) && d in mine && Proper(c)
    ensures var i := Child(nodes, d, c, true); i.Some? ==> i.value in mine
  {
    assert Owned(nodes, mine, d);
  }

  /** Either half of the defence alone lets a walk out: the parent of the root, and a link followed. */
  lemma OneStepMayLeave(outside: Ino, root: Ino, link: Ino, c: Component)
    requires Proper(c) && outside != root && outside != link && root != link
    ensures exists nodes, mine: set<Ino> ::
      && Closed(nodes, mine) && root in mine && outside !in mine && IsDirectory(nodes, outside)
      && Child(nodes, root, DOTDOT, true) == Some(outside)
      && Child(nodes, root, c, false) == Some(outside)
  {
    var nodes := map[root := Directory(map[c := link], outside), link := Symlink(outside),
                     outside := Directory(map[], outside)];
    var mine := {root, link};
    assert Closed(nodes, mine);
    assert Child(nodes, root, c, false) == Some(outside);
  }

  // ----- the tree below a root -----

  /** Which inode a path names, links not followed. */
  function Lookup(nodes: Nodes, root: Ino, p: Path): Option<Ino> {
    if p == [] then Some(root)
    else
      var d := Lookup(nodes, root, p[..|p| - 1]);
      if d.Some? && IsDirectory(nodes, d.value) && p[|p| - 1] in nodes[d.value].entries
      then Some(nodes[d.value].entries[p[|p| - 1]])
      else None
  }

  lemma LookupNext(nodes: Nodes, root: Ino, p: Path, c: Component)
    ensures var d := Lookup(nodes, root, p);
      Lookup(nodes, root, p + [c]) ==
      if d.Some? && IsDirectory(nodes, d.value) && c in nodes[d.value].entries
      then Some(nodes[d.value].entries[c]) else None
  {
    assert (p + [c])[..|p + [c]| - 1] == p;
  }

  /** The same, read from the front. */
  lemma {:induction false} LookupThrough(nodes: Nodes, root: Ino, c: Component, rest: Path)
    ensures Lookup(nodes, root, [c] + rest) ==
      if IsDirectory(nodes, root) && c in nodes[root].entries then Lookup(nodes, nodes[root].entries[c], rest) else None
  {
    var p := [c] + rest;
    if rest == [] {
      assert p[..|p| - 1] == [];
    } else {
      assert p[..|p| - 1] == [c] + rest[..|rest| - 1];
      LookupThrough(nodes, root, c, rest[..|rest| - 1]);
    }
  }

  lemma LookupFirst(nodes: Nodes, root: Ino, p: Path)
    requires p != []
    ensures Lookup(nodes, root, p) ==
      if IsDirectory(nodes, root) && p[0] in nodes[root].entries then Lookup(nodes, nodes[root].entries[p[0]], p[1..])
      else None
  {
    assert [p[0]] + p[1..] == p;
    LookupThrough(nodes, root, p[0], p[1..]);
  }

  function Seen(nodes: Nodes, root: Ino, p: Path): Option<Node> {
    var i := Lookup(nodes, root, p);
    if i.Some? && i.value in nodes then Some(nodes[i.value]) else None
  }

  ghost predicate IsFile(n: Option<Node>) {
    n.Some? && !n.value.Directory?
  }

  ghost predicate IsFolder(n: Option<Node>) {
    n.Some? && n.value.Directory?
  }

  /** Everything in the tree that is not a directory, by its path. */
  ghost function Files(nodes: Nodes, root: Ino): imap<Path, Node> {
    imap p: Path | IsFile(Seen(nodes, root, p)) :: Seen(nodes, root, p).value
  }

  ghost function Folders(nodes: Nodes, root: Ino): iset<Path> {
    iset p: Path | IsFolder(Seen(nodes, root, p))
  }

  /** The entry is there, and if it is a directory this is where it lives. */
  ghost predicate AtHome(nodes: Nodes, home: map<Ino, Path>, d: Ino, c: Component) {
    d in home && IsDirectory(nodes, d) && c in nodes[d].entries ==>
      var i := nodes[d].entries[c];
      i in nodes && (nodes[i].Directory? ==> i in home && home[i] == home[d] + [c])
  }

  /** Every directory has one place, its home; files may have several names, and so several paths. */
  ghost predicate Housed(nodes: Nodes, root: Ino, home: map<Ino, Path>) {
    && root in home && home[root] == []
    && (forall d <- home :: IsDirectory(nodes, d))
    && forall d: Ino, c: Component :: AtHome(nodes, home, d, c)
  }

  lemma {:induction false} LookupHome(nodes: Nodes, root: Ino, home: map<Ino, Path>, p: Path)
    requires Housed(nodes, root, home)
    ensures var i := Lookup(nodes, root, p);
      i.Some? ==> i.value in nodes && (nodes[i.value].Directory? ==> i.value in home && home[i.value] == p)
  {
    if p != [] {
      LookupHome(nodes, root, home, p[..|p| - 1]);
      assert p == p[..|p| - 1] + [p[|p| - 1]];
      var d := Lookup(nodes, root, p[..|p| - 1]);
      assert d.Some? ==> AtHome(nodes, home, d.value, p[|p| - 1]);
    }
  }

  lemma {:induction false} FolderAbove(nodes: Nodes, root: Ino, p: Path, i: nat)
    requires p in Folders(nodes, root) && i <= |p|
    ensures p[..i] in Folders(nodes, root)
  {
    if i < |p| {
      FolderAbove(nodes, root, p[..|p| - 1], i);
      assert p[..|p| - 1][..i] == p[..i];
    } else {
      assert p[..i] == p;
    }
  }

  // ----- changing one entry -----

  function Entry(nodes: Nodes, d: Ino, c: Component): Option<Node> {
    if IsDirectory(nodes, d) && c in nodes[d].entries && nodes[d].entries[c] in nodes
    then Some(nodes[nodes[d].entries[c]]) else None
  }

  /**
    Between `nodes` and `after`, name `c` of directory `d` went from no directory to something with
    nothing under it, or to nothing; inodes may have been added, and all others are as they were.
   */
  ghost predicate Relinked(nodes: Nodes, after: Nodes, d: Ino, c: Component) {
    && IsDirectory(nodes, d) && IsDirectory(after, d)
    && (forall i <- nodes :: i != d ==> i in after && after[i] == nodes[i])
    && after[d].entries - {c} == nodes[d].entries - {c}
    && (c in nodes[d].entries ==> nodes[d].entries[c] in nodes && !IsDirectory(nodes, nodes[d].entries[c]))
    && (c in after[d].entries ==>
          var i := after[d].entries[c];
          i in after && (IsDirectory(after, i) ==> i !in nodes && after[i].entries == map[]))
  }

  lemma {:induction false} RelinkedLookup(nodes: Nodes, after: Nodes, root: Ino, home: map<Ino, Path>,
                                          at: Path, d: Ino, c: Component, p: Path)
    requires Housed(nodes, root, home) && Relinked(nodes, after, d, c) && Lookup(nodes, root, at) == Some(d)
    ensures Lookup(after, root, p) ==
      if p != at + [c] then Lookup(nodes, root, p)
      else if c in after[d].entries then Some(after[d].entries[c])
      else None
  {
    LookupHome(nodes, root, home, at);
    if p != [] {
      var q, last := p[..|p| - 1], p[|p| - 1];
      assert p == q + [last];
      RelinkedLookup(nodes, after, root, home, at, d, c, q);
      LookupHome(nodes, root, home, q);
      LookupNext(nodes, root, at, c);
      if last != c {
        assert last in after[d].entries <==> last in after[d].entries - {c};
        assert last in nodes[d].entries <==> last in nodes[d].entries - {c};
        assert last in nodes[d].entries ==> (nodes[d].entries - {c})[last] == (after[d].entries - {c})[last];
      }
    }
  }

  /** The map of homes after such a change: a new directory lives where it was linked. */
  function NewHome(home: map<Ino, Path>, after: Nodes, at: Path, d: Ino, c: Component): map<Ino, Path>
    requires IsDirectory(after, d)
  {
    if c in after[d].entries && IsDirectory(after, after[d].entries[c]) then home[after[d].entries[c] := at + [c]]
    else home
  }

  lemma RelinkedHoused(nodes: Nodes, after: Nodes, root: Ino, home: map<Ino, Path>, at: Path, d: Ino, c: Component)
    requires Housed(nodes, root, home) && Relinked(nodes, after, d, c) && Lookup(nodes, root, at) == Some(d)
    ensures Housed(after, root, NewHome(home, after, at, d, c))
  {
    LookupHome(nodes, root, home, at);
    var home' := NewHome(home, after, at, d, c);
    forall e: Ino, n: Component ensures AtHome(after, home', e, n) {
      if e in home' && n in after[e].entries && (e != d || n != c) {
        if e == d {
          assert n in after[d].entries - {c};
          assert (nodes[d].entries - {c})[n] == (after[d].entries - {c})[n];
        }
        assert AtHome(nodes, home, e, n);
      }
    }
  }

  lemma RelinkedSeen(nodes: Nodes, after: Nodes, root: Ino, home: map<Ino, Path>,
                     at: Path, d: Ino, c: Component, p: Path)
    requires Housed(nodes, root, home) && Relinked(nodes, after, d, c) && Lookup(nodes, root, at) == Some(d)
    ensures p == at + [c] ==>
      !IsFolder(Seen(nodes, root, p))
      && Seen(after, root, p) == Entry(after, d, c)
    ensures p != at + [c] ==>
      Seen(after, root, p) == Seen(nodes, root, p) || (IsFolder(Seen(after, root, p)) && IsFolder(Seen(nodes, root, p)))
  {
    RelinkedLookup(nodes, after, root, home, at, d, c, p);
    LookupHome(nodes, root, home, p);
    LookupNext(nodes, root, at, c);
  }

  lemma RelinkedFiles(nodes: Nodes, after: Nodes, root: Ino, home: map<Ino, Path>, at: Path, d: Ino, c: Component)
    requires Housed(nodes, root, home) && Relinked(nodes, after, d, c) && Lookup(nodes, root, at) == Some(d)
    ensures var now := Entry(after, d, c);
      Files(after, root) ==
        if IsFile(now) then Files(nodes, root)[at + [c] := now.value] else Files(nodes, root) - {at + [c]}
  {
    var now, files := Entry(after, d, c), Files(nodes, root);
    var expected := if IsFile(now) then files[at + [c] := now.value] else files - {at + [c]};
    forall p: Path ensures p in Files(after, root) <==> p in expected
    {
      RelinkedSeen(nodes, after, root, home, at, d, c, p);
    }
    forall p: Path | p in expected ensures Files(after, root)[p] == expected[p]
    {
      RelinkedSeen(nodes, after, root, home, at, d, c, p);
    }
  }

  lemma RelinkedFolders(nodes: Nodes, after: Nodes, root: Ino, home: map<Ino, Path>, at: Path, d: Ino, c: Component)
    requires Housed(nodes, root, home) && Relinked(nodes, after, d, c) && Lookup(nodes, root, at) == Some(d)
    ensures Folders(after, root) ==
      if IsFolder(Entry(after, d, c)) then Folders(nodes, root) + iset{at + [c]} else Folders(nodes, root)
  {
    var expected :=
      if IsFolder(Entry(after, d, c)) then Folders(nodes, root) + iset{at + [c]} else Folders(nodes, root);
    forall p: Path ensures p in Folders(after, root) <==> p in expected
    {
      RelinkedSeen(nodes, after, root, home, at, d, c, p);
    }
  }

  /** No other path leads to the inode this one leads to. */
  ghost predicate Alone(nodes: Nodes, root: Ino, p: Path) {
    forall q: Path :: q != p && Lookup(nodes, root, q).Some? ==> Lookup(nodes, root, q) != Lookup(nodes, root, p)
  }

  ghost predicate Unreached(nodes: Nodes, root: Ino, i: Ino) {
    forall q: Path :: Lookup(nodes, root, q) != Some(i)
  }

  /** Between two states, what path `p` stands for became `now`; nothing else did. */
  ghost predicate Changed(before: Nodes, after: Nodes, root: Ino, p: Path, now: Option<Node>) {
    && Files(after, root) == (if IsFile(now) then Files(before, root)[p := now.value] else Files(before, root) - {p})
    && Folders(after, root) == (if IsFolder(now) then Folders(before, root) + iset{p} else Folders(before, root))
    && (forall q: Path :: q != p ==> Lookup(after, root, q) == Lookup(before, root, q))
    && forall q: Path :: q != p && Alone(before, root, q) ==> Alone(after, root, q)
  }

  lemma RelinkedChanged(nodes: Nodes, after: Nodes, root: Ino, home: map<Ino, Path>, at: Path, d: Ino, c: Component)
    requires Housed(nodes, root, home) && Relinked(nodes, after, d, c) && Lookup(nodes, root, at) == Some(d)
    requires c in after[d].entries ==> Unreached(nodes, root, after[d].entries[c])
    ensures Changed(nodes, after, root, at + [c], Entry(after, d, c))
    ensures Housed(after, root, NewHome(home, after, at, d, c))
    ensures Lookup(after, root, at) == Some(d)
    ensures c in after[d].entries ==>
      Lookup(after, root, at + [c]) == Some(after[d].entries[c]) && Alone(after, root, at + [c])
    ensures c !in after[d].entries ==> Lookup(after, root, at + [c]) == None
  {
    RelinkedFiles(nodes, after, root, home, at, d, c);
    RelinkedFolders(nodes, after, root, home, at, d, c);
    RelinkedHoused(nodes, after, root, home, at, d, c);
    forall q: Path ensures q != at + [c] ==> Lookup(after, root, q) == Lookup(nodes, root, q) {
      RelinkedLookup(nodes, after, root, home, at, d, c, q);
    }
    RelinkedLookup(nodes, after, root, home, at, d, c, at + [c]);
  }

  /** A file went from one path to another, over whatever file was there; nothing else changed. */
  ghost predicate Moved(before: Nodes, after: Nodes, root: Ino, p: Path, p': Path) {
    && p in Files(before, root) && p' !in Folders(before, root)
    && Files(after, root) == (Files(before, root) - {p})[p' := Files(before, root)[p]]
    && Folders(after, root) == Folders(before, root)
    && forall q: Path :: q != p && q != p' && Alone(before, root, q) ==> Alone(after, root, q)
  }

  /** Unlinking a name, and putting its inode under another one, which was no directory. */
  lemma RenamedChanged(nodes: Nodes, mid: Nodes, after: Nodes, root: Ino, home: map<Ino, Path>,
                       at: Path, d: Ino, c: Component, c': Component)
    requires Housed(nodes, root, home) && Lookup(nodes, root, at) == Some(d) && Alone(nodes, root, at + [c])
    requires Relinked(nodes, mid, d, c) && c !in mid[d].entries && c in nodes[d].entries && c' != c
    requires Relinked(mid, after, d, c') && c' in after[d].entries && after[d].entries[c'] == nodes[d].entries[c]
    requires !IsDirectory(after, nodes[d].entries[c])
    ensures Moved(nodes, after, root, at + [c], at + [c'])
    ensures Housed(after, root, home)
  {
    LookupNext(nodes, root, at, c);
    LookupNext(nodes, root, at, c');
    RelinkedChanged(nodes, mid, root, home, at, d, c);
    RelinkedChanged(mid, after, root, home, at, d, c');
  }

  // ----- writing to a file -----

  lemma {:induction false} RewrittenLookup(nodes: Nodes, after: Nodes, root: Ino, i: Ino, p: Path)
    requires i in nodes && i in after && !nodes[i].Directory? && !after[i].Directory?
    requires after == nodes[i := after[i]]
    ensures Lookup(after, root, p) == Lookup(nodes, root, p)
  {
    if p != [] {
      RewrittenLookup(nodes, after, root, i, p[..|p| - 1]);
    }
  }

  lemma RewrittenHoused(nodes: Nodes, after: Nodes, root: Ino, home: map<Ino, Path>, i: Ino)
    requires i in nodes && i in after && !nodes[i].Directory? && !after[i].Directory?
    requires after == nodes[i := after[i]] && Housed(nodes, root, home)
    ensures Housed(after, root, home)
  {
    forall d: Ino, c: Component ensures AtHome(after, home, d, c) {
      assert AtHome(nodes, home, d, c);
    }
  }

  lemma RewrittenView(nodes: Nodes, after: Nodes, root: Ino, i: Ino, p: Path)
    requires i in nodes && i in after && !nodes[i].Directory? && !after[i].Directory?
    requires after == nodes[i := after[i]] && Lookup(nodes, root, p) == Some(i) && Alone(nodes, root, p)
    ensures Changed(nodes, after, root, p, Some(after[i]))
    ensures Lookup(after, root, p) == Some(i) && Alone(after, root, p)
  {
    forall q: Path ensures Lookup(after, root, q) == Lookup(nodes, root, q) {
      RewrittenLookup(nodes, after, root, i, q);
    }
    assert Lookup(nodes, root, p) == Some(i);
    forall q: Path ensures q != p ==> Seen(after, root, q) == Seen(nodes, root, q) {
    }
    assert Seen(after, root, p) == Some(after[i]);
  }
}
