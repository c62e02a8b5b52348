/**
  The system calls the service makes on a session's tree. Any of them may fail for no reason the tree
  shows; and unless the kernel is `quiet`, executed code may rearrange the tree before each of them.
 */
module Kernel {
  import opened Common
  import opened Paths
  import opened Utf8
  import opened FileTree

  type Fd = nat

  datatype Errno =
    | ENOENT | EEXIST | ELOOP | ENOTDIR | EISDIR | ENOTEMPTY | ENXIO | ENODEV | ENOSPC | EDQUOT | EOTHER

  /** `Reopen` opens a directory to undo a write there; `Abandon` is a wrapping cancelled after its thread started. */
  datatype Call = Open | Reopen | Mkdir | Create | Wrap | Abandon | Write | Close | Rename | Unlink | Stat

  /**
    How many calls have failed for no reason the tree shows. Apart are those that undoing a write consists
    of, and the cancelled wrappings that leave a descriptor with two owners.
   */
  datatype Faults = Faults(elsewhere: nat, undoing: nat, sharing: nat)

  function Plus(f: Faults, call: Call): Faults {
    if call == Reopen || call == Unlink then f.(undoing := f.undoing + 1)
    else if call == Abandon then f.(sharing := f.sharing + 1)
    else f.(elsewhere := f.elsewhere + 1)
  }

  predicate Since(f: Faults, g: Faults) {
    f.elsewhere <= g.elsewhere && f.undoing <= g.undoing && f.sharing <= g.sharing
  }

  /** The two ways of opening a directory: to go on from there, or to undo what was done there. */
  predicate Opening(call: Call) {
    call == Open || call == Reopen
  }

  datatype Result<+T> = Ok(value: T) | Err(errno: Errno)

  datatype Wrapping = Wrapped | NotWrapped(errno: Errno) | Cancelled(threadStarted: bool)

  // ----- the disk, and what a call makes of it -----

  /** `mine` are the inodes of the session, `next` an inode number not in use yet. */
  datatype Disk = Disk(nodes: Nodes, mine: set<Ino>, next: Ino)

  predicate Sane(disk: Disk, root: Ino) {
    && Closed(disk.nodes, disk.mine)
    && root in disk.mine && IsDirectory(disk.nodes, root)
    && forall i {:trigger Numbered(disk, i)} :: i in disk.nodes ==> Numbered(disk, i)
  }

  predicate Numbered(disk: Disk, i: Ino) {
    i < disk.next
  }

  /** What is not the session's is as it was at the start. */
  ghost predicate Kept(foreign: map<Ino, Node>, disk: Disk) {
    forall i {:trigger KeptAt(foreign, disk, i)} :: i in foreign ==> KeptAt(foreign, disk, i)
  }

  ghost predicate KeptAt(foreign: map<Ino, Node>, disk: Disk, i: Ino)
    requires i in foreign
  {
    i in disk.nodes && i !in disk.mine && disk.nodes[i] == foreign[i]
  }

  lemma KeptLater(foreign: map<Ino, Node>, before: Disk, after: Disk)
    requires Kept(foreign, before) && Later(before, after)
    ensures Kept(foreign, after)
  {
    forall i | i in foreign ensures KeptAt(foreign, after, i) {
      assert KeptAt(foreign, before, i);
    }
  }

  datatype Kind = DirectoryKind | RegularKind | SymlinkKind | SpecialKind

  function KindOf(node: Node): Kind {
    match node
    case Directory(_, _) => DirectoryKind
    case Regular(_) => RegularKind
    case Symlink(_) => SymlinkKind
    case Special => SpecialKind
  }

  /** The session keeps its inodes and may get new ones, an inode stays of its kind, and nothing else changes. */
  predicate Later(before: Disk, after: Disk) {
    && before.mine <= after.mine && before.next <= after.next
    && (forall i <- before.nodes :: i in after.nodes && KindOf(before.nodes[i]) == KindOf(after.nodes[i]))
    && forall i <- before.nodes :: i !in before.mine ==> i !in after.mine && after.nodes[i] == before.nodes[i]
  }

  predicate Within(disk: Disk, d: Ino) {
    d in disk.mine && IsDirectory(disk.nodes, d)
  }

  function WithEntries(nodes: Nodes, d: Ino, entries: map<Component, Ino>): Nodes
    requires IsDirectory(nodes, d)
  {
    nodes[d := nodes[d].(entries := entries)]
  }

  /** A new inode under a new name. */
  function NewEntry(disk: Disk, d: Ino, c: Component, node: Node): Disk
    requires Within(disk, d) && disk.next !in disk.nodes
  {
    var nodes := disk.nodes[disk.next := node];
    Disk(WithEntries(nodes, d, nodes[d].entries[c := disk.next]), disk.mine + {disk.next}, disk.next + 1)
  }

  function NoEntry(disk: Disk, d: Ino, c: Component): Disk
    requires Within(disk, d)
  {
    disk.(nodes := WithEntries(disk.nodes, d, disk.nodes[d].entries - {c}))
  }

  /** An inode of the session under another name. */
  function OldEntry(disk: Disk, d: Ino, c: Component, i: Ino): Disk
    requires Within(disk, d)
  {
    disk.(nodes := WithEntries(disk.nodes, d, disk.nodes[d].entries[c := i]))
  }

  lemma NewEntryLater(disk: Disk, root: Ino, d: Ino, c: Component, node: Node)
    requires Sane(disk, root) && Within(disk, d) && (node.Directory? ==> node.entries == map[])
    ensures disk.next !in disk.nodes
    ensures Sane(NewEntry(disk, d, c, node), root) && Later(disk, NewEntry(disk, d, c, node))
    ensures NewEntry(disk, d, c, node).nodes[d].entries == disk.nodes[d].entries[c := disk.next]
    ensures NewEntry(disk, d, c, node).nodes[disk.next] == node
  {
    assert disk.next !in disk.nodes by {
      assert disk.next in disk.nodes ==> Numbered(disk, disk.next);
    }
    var after := NewEntry(disk, d, c, node);
    forall e | e in after.mine ensures Owned(after.nodes, after.mine, e) {
      assert e in disk.mine ==> Owned(disk.nodes, disk.mine, e);
    }
    forall i | i in after.nodes ensures Numbered(after, i) {
      assert i in disk.nodes ==> Numbered(disk, i);
    }
  }

  lemma NewEntryChanged(disk: Disk, root: Ino, home: map<Ino, Path>, at: Path, d: Ino, c: Component, node: Node)
    requires Sane(disk, root) && Within(disk, d) && (node.Directory? ==> node.entries == map[])
    requires c !in disk.nodes[d].entries
    requires Housed(disk.nodes, root, home) && Lookup(disk.nodes, root, at) == Some(d)
    ensures disk.next !in disk.nodes
    ensures var after := NewEntry(disk, d, c, node).nodes;
      && IsDirectory(after, d)
      && Changed(disk.nodes, after, root, at + [c], Some(node)) && Housed(after, root, NewHome(home, after, at, d, c))
      && Lookup(after, root, at + [c]) == Some(disk.next) && Alone(after, root, at + [c])
      && at + [c] !in Files(disk.nodes, root) && at + [c] !in Folders(disk.nodes, root)
  {
    NewEntryLater(disk, root, d, c, node);
    LookupNext(disk.nodes, root, at, c);
    forall q: Path ensures Lookup(disk.nodes, root, q) != Some(disk.next) {
      LookupHome(disk.nodes, root, home, q);
    }
    RelinkedChanged(disk.nodes, NewEntry(disk, d, c, node).nodes, root, home, at, d, c);
  }

  lemma EntryTaken(nodes: Nodes, root: Ino, home: map<Ino, Path>, at: Path, d: Ino, c: Component)
    requires Housed(nodes, root, home) && Lookup(nodes, root, at) == Some(d)
    requires IsDirectory(nodes, d) && c in nodes[d].entries
    ensures at + [c] in Files(nodes, root) || at + [c] in Folders(nodes, root)
  {
    LookupNext(nodes, root, at, c);
    LookupHome(nodes, root, home, at + [c]);
  }

  lemma NoEntryLater(disk: Disk, root: Ino, d: Ino, c: Component)
    requires Sane(disk, root) && Within(disk, d)
    ensures Sane(NoEntry(disk, d, c), root) && Later(disk, NoEntry(disk, d, c))
    ensures NoEntry(disk, d, c).nodes[d].entries == disk.nodes[d].entries - {c}
  {
    var after := NoEntry(disk, d, c);
    forall e | e in after.mine ensures Owned(after.nodes, after.mine, e) {
      assert e in disk.mine ==> Owned(disk.nodes, disk.mine, e);
    }
    forall i | i in after.nodes ensures Numbered(after, i) {
      assert i in disk.nodes ==> Numbered(disk, i);
    }
  }

  lemma NoEntryChanged(disk: Disk, root: Ino, home: map<Ino, Path>, at: Path, d: Ino, c: Component)
    requires Sane(disk, root) && Within(disk, d) && IsFile(Entry(disk.nodes, d, c))
    requires Housed(disk.nodes, root, home) && Lookup(disk.nodes, root, at) == Some(d)
    ensures var after := NoEntry(disk, d, c).nodes;
      Changed(disk.nodes, after, root, at + [c], None) && Housed(after, root, home)
      && Relinked(disk.nodes, after, d, c)
  {
    NoEntryLater(disk, root, d, c);
    RelinkedChanged(disk.nodes, NoEntry(disk, d, c).nodes, root, home, at, d, c);
  }

  lemma OldEntryLater(disk: Disk, root: Ino, d: Ino, c: Component, i: Ino)
    requires Sane(disk, root) && Within(disk, d) && i in disk.mine
    ensures Sane(OldEntry(disk, d, c, i), root) && Later(disk, OldEntry(disk, d, c, i))
    ensures OldEntry(disk, d, c, i).nodes[d].entries == disk.nodes[d].entries[c := i]
  {
    var after := OldEntry(disk, d, c, i);
    forall e | e in after.mine ensures Owned(after.nodes, after.mine, e) {
      assert e in disk.mine ==> Owned(disk.nodes, disk.mine, e);
    }
    forall j | j in after.nodes ensures Numbered(after, j) {
      assert j in disk.nodes ==> Numbered(disk, j);
    }
  }

  function Renamed(disk: Disk, d: Ino, c: Component, c': Component): Disk
    requires Within(disk, d) && c in disk.nodes[d].entries
  {
    OldEntry(NoEntry(disk, d, c), d, c', disk.nodes[d].entries[c])
  }

  lemma RenamedLater(disk: Disk, root: Ino, d: Ino, c: Component, c': Component)
    requires Sane(disk, root) && Within(disk, d) && c in disk.nodes[d].entries
    ensures Sane(Renamed(disk, d, c, c'), root) && Later(disk, Renamed(disk, d, c, c'))
  {
    assert Owned(disk.nodes, disk.mine, d);
    NoEntryLater(disk, root, d, c);
    OldEntryLater(NoEntry(disk, d, c), root, d, c', disk.nodes[d].entries[c]);
  }

  lemma RenamedView(disk: Disk, root: Ino, home: map<Ino, Path>, at: Path, d: Ino, c: Component, c': Component)
    requires Sane(disk, root) && Within(disk, d) && IsFile(Entry(disk.nodes, d, c)) && c' != c
    requires !IsFolder(Entry(disk.nodes, d, c'))
    requires Housed(disk.nodes, root, home) && Lookup(disk.nodes, root, at) == Some(d)
      && Alone(disk.nodes, root, at + [c])
    ensures Moved(disk.nodes, Renamed(disk, d, c, c').nodes, root, at + [c], at + [c'])
    ensures Housed(Renamed(disk, d, c, c').nodes, root, home)
  {
    assert Owned(disk.nodes, disk.mine, d);
    assert c' in disk.nodes[d].entries ==> Owned(disk.nodes, disk.mine, disk.nodes[d].entries[c']);
    var mid, after := NoEntry(disk, d, c), Renamed(disk, d, c, c');
    NoEntryLater(disk, root, d, c);
    OldEntryLater(mid, root, d, c', disk.nodes[d].entries[c]);
    NoEntryChanged(disk, root, home, at, d, c);
    assert mid.nodes[d].entries - {c'} == after.nodes[d].entries - {c'};
    RenamedChanged(disk.nodes, mid.nodes, after.nodes, root, home, at, d, c, c');
  }

  /** More bytes at the end of a regular file. */
  function Extended(disk: Disk, i: Ino, bytes: seq<Byte>): Disk
    requires i in disk.nodes && disk.nodes[i].Regular?
  {
    disk.(nodes := disk.nodes[i := Regular(disk.nodes[i].content + bytes)])
  }

  lemma ExtendedLater(disk: Disk, root: Ino, i: Ino, bytes: seq<Byte>)
    requires Sane(disk, root) && i in disk.mine && i in disk.nodes && disk.nodes[i].Regular?
    ensures Sane(Extended(disk, i, bytes), root) && Later(disk, Extended(disk, i, bytes))
  {
    var after := Extended(disk, i, bytes);
    forall e | e in after.mine ensures Owned(after.nodes, after.mine, e) {
      assert e in disk.mine ==> Owned(disk.nodes, disk.mine, e);
    }
    forall j | j in after.nodes ensures Numbered(after, j) {
      assert j in disk.nodes ==> Numbered(disk, j);
    }
  }

  // ----- the descriptors -----

  /** A descriptor handed out is closed once when it is no longer open, and once more if it has a second owner. */
  ghost predicate Settled(open: set<Fd>, nextFd: Fd, closings: multiset<Fd>, twiceOwned: set<Fd>, fd: Fd) {
    && (fd in open || fd in twiceOwned ==> fd < nextFd)
    && closings[fd] == (if fd < nextFd && fd !in open then 1 else 0) + (if fd in twiceOwned then 1 else 0)
  }

  ghost predicate Balanced(open: set<Fd>, nextFd: Fd, closings: multiset<Fd>, twiceOwned: set<Fd>) {
    forall fd: Fd :: Settled(open, nextFd, closings, twiceOwned, fd)
  }

  lemma OpeningBalances(open: set<Fd>, nextFd: Fd, closings: multiset<Fd>, twiceOwned: set<Fd>)
    requires Balanced(open, nextFd, closings, twiceOwned)
    ensures Balanced(open + {nextFd}, nextFd + 1, closings, twiceOwned)
    ensures nextFd !in open && nextFd !in twiceOwned
  {
    var after := open + {nextFd};
    forall fd: Fd, next: Fd | next == nextFd + 1 ensures Settled(after, next, closings, twiceOwned, fd) {
      assert Settled(open, nextFd, closings, twiceOwned, fd);
    }
    assert Settled(open, nextFd, closings, twiceOwned, nextFd);
  }

  lemma ClosingBalances(open: set<Fd>, nextFd: Fd, closings: multiset<Fd>, twiceOwned: set<Fd>, fd: Fd)
    requires Balanced(open, nextFd, closings, twiceOwned) && fd in open
    ensures Balanced(open - {fd}, nextFd, closings + multiset{fd}, twiceOwned)
    ensures fd !in twiceOwned ==> Balanced(open, nextFd, closings + multiset{fd}, twiceOwned + {fd})
  {
    assert Settled(open, nextFd, closings, twiceOwned, fd);
    forall other: Fd ensures Settled(open - {fd}, nextFd, closings + multiset{fd}, twiceOwned, other) {
      assert Settled(open, nextFd, closings, twiceOwned, other);
    }
    if fd !in twiceOwned {
      forall other: Fd ensures Settled(open, nextFd, closings + multiset{fd}, twiceOwned + {fd}, other) {
        assert Settled(open, nextFd, closings, twiceOwned, other);
      }
    }
  }

  // ----- the calls -----

  class Kernel {
    const root: Ino
    const quiet: bool
    ghost const foreign: map<Ino, Node>    // what is not the session's, as it was at the start
    var disk: Disk
    var fds: map<Fd, Ino>
    var nextFd: Fd
    ghost var faults: Faults
    ghost var home: map<Ino, Path>
    ghost var closings: multiset<Fd>       // how often each descriptor has been, or is bound to be, closed
    ghost var twiceOwned: set<Fd>          // also owned by a file object that nobody is waiting for

    /** Among other things: nothing that is not the session's has changed. */
    ghost predicate Valid()
      reads this
    {
      && Sane(disk, root) && Kept(foreign, disk)
      && Balanced(fds.Keys, nextFd, closings, twiceOwned)
      && (quiet ==> Housed(disk.nodes, root, home))
    }

    /** A descriptor that is no longer open was closed once, or twice if it had a second owner. */
    lemma ClosedOnce(fd: Fd)
      requires Valid() && fd < nextFd && fd !in fds
      ensures closings[fd] == if fd in twiceOwned then 2 else 1
    {
      assert Settled(fds.Keys, nextFd, closings, twiceOwned, fd);
    }

    constructor (disk: Disk, root: Ino, quiet: bool, ghost home: map<Ino, Path>)
      requires Sane(disk, root) && (quiet ==> Housed(disk.nodes, root, home))
      ensures Valid() && this.disk == disk && this.root == root && this.quiet == quiet && fds == map[]
      ensures twiceOwned == {}
      ensures foreign == map i | i in disk.nodes && i !in disk.mine :: disk.nodes[i]
    {
      this.disk, this.root, this.quiet, this.home := disk, root, quiet, home;
      fds, nextFd, faults := map[], 0, Faults(0, 0, 0);
      closings, twiceOwned := multiset{}, {};
      foreign := map i | i in disk.nodes && i !in disk.mine :: disk.nodes[i];
    }

    /** An open descriptor of a directory that is the session's. */
    ghost predicate Inside(fd: Fd)
      reads this
    {
      fd in fds && Within(disk, fds[fd])
    }

    /** The descriptor is of the directory now at a path. */
    ghost predicate OpenAt(fd: Fd, at: Path)
      reads this
    {
      fd in fds && Lookup(disk.nodes, root, at) == Some(fds[fd])
    }

    ghost function Contents(): imap<Path, Node>
      reads this
    {
      Files(disk.nodes, root)
    }

    ghost function Directories(): iset<Path>
      reads this
    {
      Folders(disk.nodes, root)
    }

    /** How often the calls that undo a write have failed for no reason the tree shows. */
    ghost function Trouble(): nat
      reads this
    {
      faults.undoing
    }

    /** How often a cancelled wrapping has left a descriptor with two owners. */
    ghost function Sharing(): nat
      reads this
    {
      faults.sharing
    }

    /** Executed code at work: anything that leaves the session's inodes the session's. */
    method Others()
      requires Valid()
      modifies this`disk
      ensures Valid() && Later(old(disk), disk)
      ensures quiet ==> disk == old(disk)
    {
      if !quiet {
        var d: Disk := *;
        if Sane(d, root) && Later(disk, d) {
          KeptLater(foreign, disk, d);
          disk := d;
        }
      }
    }

    /** A descriptor not used before. */
    method Issue(i: Ino) returns (fd: Fd)
      requires Valid()
      modifies this`fds, this`nextFd
      ensures Valid() && fd !in old(fds) && fd !in twiceOwned && fds == old(fds)[fd := i]
    {
      OpeningBalances(fds.Keys, nextFd, closings, twiceOwned);
      fd := nextFd;
      fds, nextFd := fds[nextFd := i], nextFd + 1;
      assert fds.Keys == old(fds.Keys) + {fd};
    }

    /** A file object in another thread owns the descriptor too. */
    ghost method Share(fd: Fd)
      requires Valid() && fd in fds && fd !in twiceOwned
      modifies this`closings, this`twiceOwned
      ensures Valid() && twiceOwned == old(twiceOwned) + {fd}
    {
      ClosingBalances(fds.Keys, nextFd, closings, twiceOwned, fd);
      closings, twiceOwned := closings + multiset{fd}, twiceOwned + {fd};
    }

    /** A new inode under a name that nothing has yet. */
    method AddEntry(dirFd: Fd, c: Component, node: Node, ghost at: Path) returns (i: Option<Ino>)
      requires Valid() && Inside(dirFd) && (node.Directory? ==> node.entries == map[])
      requires quiet ==> OpenAt(dirFd, at)
      modifies this`disk, this`home
      ensures Valid() && Later(old(disk), disk)
      ensures i.None? ==> disk == old(disk)
      ensures i.Some? ==> i.value in disk.mine && i.value in disk.nodes && disk.nodes[i.value] == node
      ensures quiet && i.Some? ==> Changed(old(disk.nodes), disk.nodes, root, at + [c], Some(node))
      ensures quiet && i.Some? ==> Lookup(disk.nodes, root, at + [c]) == i && Alone(disk.nodes, root, at + [c])
      ensures quiet ==> (i.Some? <==> at + [c] !in old(Contents()) && at + [c] !in old(Directories()))
      ensures quiet ==> OpenAt(dirFd, at)
    {
      var d := fds[dirFd];
      if c in disk.nodes[d].entries {
        if quiet {
          EntryTaken(disk.nodes, root, home, at, d, c);
        }
        return None;
      }
      i := Some(disk.next);
      NewEntryLater(disk, root, d, c, node);
      if quiet {
        NewEntryChanged(disk, root, home, at, d, c, node);
        home := NewHome(home, NewEntry(disk, d, c, node).nodes, at, d, c);
      }
      KeptLater(foreign, disk, NewEntry(disk, d, c, node));
      disk := NewEntry(disk, d, c, node);
    }

    /** `os.open(work_directory, O_DIRECTORY | O_NOFOLLOW)` */
    method OpenRoot(ghost call: Call) returns (r: Result<Fd>)
      requires Valid() && Opening(call)
      modifies this`disk, this`fds, this`nextFd, this`faults
      ensures Valid() && Later(old(disk), disk)
      ensures quiet ==> disk == old(disk)
      ensures r.Ok? ==> r.value !in old(fds) && fds == old(fds)[r.value := root] && faults == old(faults)
      ensures r.Err? ==> fds == old(fds) && faults == Plus(old(faults), call)
    {
      Others();
      if * {
        var e: Errno := *;
        faults := Plus(faults, call);
        return Err(e);
      }
      var fd := Issue(root);
      r := Ok(fd);
    }

    /** `os.open(c, O_DIRECTORY | O_NOFOLLOW, dir_fd)` */
    method OpenDirectory(dirFd: Fd, c: Component, ghost call: Call) returns (r: Result<Fd>)
      requires Valid() && Inside(dirFd) && Opening(call)
      modifies this`disk, this`fds, this`nextFd, this`faults
      ensures Valid() && Later(old(disk), disk)
      ensures quiet ==> disk == old(disk)
      ensures r.Ok? ==>
        && r.value !in old(fds) && faults == old(faults) && Child(disk.nodes, old(fds[dirFd]), c, true).Some?
        && IsDirectory(disk.nodes, Child(disk.nodes, old(fds[dirFd]), c, true).value)
        && fds == old(fds)[r.value := Child(disk.nodes, old(fds[dirFd]), c, true).value]
      ensures r.Err? ==> fds == old(fds)
      ensures r.Err? ==> faults == Plus(old(faults), call) || faults == old(faults)
      ensures r.Err? && faults == old(faults) ==>
        var i := Child(disk.nodes, old(fds[dirFd]), c, true);
        if i.None? || i.value !in disk.nodes then r.errno == ENOENT
        else if disk.nodes[i.value].Symlink? then r.errno in {ELOOP, ENOTDIR}
        else r.errno == ENOTDIR && !disk.nodes[i.value].Directory?
    {
      Others();
      if * {
        var e: Errno := *;
        faults := Plus(faults, call);
        return Err(e);
      }
      var i := Child(disk.nodes, fds[dirFd], c, true);
      if i.None? || i.value !in disk.nodes {
        return Err(ENOENT);
      }
      match disk.nodes[i.value] {
        case Directory(_, _) =>
          var fd := Issue(i.value);
          r := Ok(fd);
        case Symlink(_) =>
          // Which of the two is up to the system.
          if * {
            r := Err(ELOOP);
          } else {
            r := Err(ENOTDIR);
          }
        case _ => r := Err(ENOTDIR);
      }
    }

    /** `os.close` of a directory, or of a file opened for reading: there is nothing left in it to fail. */
    method CloseFd(fd: Fd)
      requires Valid() && fd in fds
      modifies this`fds, this`closings
      ensures Valid() && fds == old(fds) - {fd}
    {
      ClosingBalances(fds.Keys, nextFd, closings, twiceOwned, fd);
      fds, closings := fds - {fd}, closings + multiset{fd};
      assert fds.Keys == old(fds.Keys) - {fd};
    }

    /** `os.mkdir(c, 0o700, dir_fd)` */
    method MakeDirectory(dirFd: Fd, c: Component, ghost at: Path) returns (r: Result<()>)
      requires Valid() && Inside(dirFd) && Proper(c)
      requires quiet ==> OpenAt(dirFd, at)
      modifies this`disk, this`faults, this`home
      ensures Valid() && Later(old(disk), disk)
      ensures quiet && r.Err? ==> disk == old(disk)
      ensures r.Ok? ==> faults == old(faults)
      ensures r.Err? ==> faults == Plus(old(faults), Mkdir) || (faults == old(faults) && r.errno == EEXIST)
      ensures quiet && r.Err? && faults == old(faults) ==> at + [c] in old(Contents()) || at + [c] in old(Directories())
      ensures quiet && r.Ok? ==>
        Changed(old(disk.nodes), disk.nodes, root, at + [c], Some(Directory(map[], fds[dirFd])))
        && at + [c] !in old(Contents())
      ensures quiet ==> OpenAt(dirFd, at)
    {
      Others();
      if * {
        var e: Errno := *;
        faults := Plus(faults, Mkdir);
        return Err(e);
      }
      var i := AddEntry(dirFd, c, Directory(map[], fds[dirFd]), at);
      r := if i.Some? then Ok(()) else Err(EEXIST);
    }

    /** `os.open(c, O_WRONLY | O_CREAT | O_EXCL | O_NOFOLLOW, 0o600, dir_fd)` */
    method CreateFile(dirFd: Fd, c: Component, ghost at: Path) returns (r: Result<Fd>)
      requires Valid() && Inside(dirFd) && Proper(c)
      requires quiet ==> OpenAt(dirFd, at)
      modifies this`disk, this`fds, this`nextFd, this`faults, this`home
      ensures Valid() && Later(old(disk), disk)
      ensures r.Err? ==> fds == old(fds) && (quiet ==> disk == old(disk))
      ensures r.Err? ==> faults == Plus(old(faults), Create) || (faults == old(faults) && r.errno == EEXIST)
      ensures r.Ok? ==> r.value !in old(fds) && faults == old(faults) && r.value in fds && r.value !in twiceOwned
      ensures r.Ok? ==> fds == old(fds)[r.value := fds[r.value]]
      ensures r.Ok? ==>
        && fds[r.value] in disk.mine && fds[r.value] in disk.nodes
        && disk.nodes[fds[r.value]] == Regular([])
      ensures quiet && r.Ok? ==> Changed(old(disk.nodes), disk.nodes, root, at + [c], Some(Regular([])))
      ensures quiet && r.Ok? ==> OpenAt(r.value, at + [c]) && Alone(disk.nodes, root, at + [c])
      ensures quiet && (r.Ok? || faults == old(faults)) ==>
        (r.Ok? <==> at + [c] !in old(Contents()) && at + [c] !in old(Directories()))
      ensures quiet ==> OpenAt(dirFd, at)
    {
      Others();
      if * {
        var e: Errno := *;
        faults := Plus(faults, Create);
        return Err(e);
      }
      var i := AddEntry(dirFd, c, Regular([]), at);
      if i.None? {
        return Err(EEXIST);
      }
      var fd := Issue(i.value);
      r := Ok(fd);
    }

    /** `os.fdopen`: the file object owns the descriptor from here on, if it can be made. */
    method WrapFile(fd: Fd) returns (r: Result<()>)
      requires Valid() && fd in fds
      modifies this`disk, this`faults
      ensures Valid() && Later(old(disk), disk)
      ensures quiet ==> disk == old(disk)
      ensures faults == if r.Ok? then old(faults) else Plus(old(faults), Wrap)
    {
      Others();
      if * {
        var e: Errno := *;
        faults := Plus(faults, Wrap);
        return Err(e);
      }
      r := Ok(());
    }

    /**
      `aiofiles.open`, which does the same in a worker thread. A task that is cancelled after the thread
      has started gets no file object, but there is one: it will close the descriptor when it is dropped.
     */
    method WrapInThread(fd: Fd) returns (r: Wrapping)
      requires Valid() && fd in fds && fd !in twiceOwned
      modifies this`disk, this`faults, this`closings, this`twiceOwned
      ensures Valid() && Later(old(disk), disk)
      ensures quiet ==> disk == old(disk)
      ensures faults ==
        if r.Wrapped? then old(faults)
        else Plus(old(faults), if r.Cancelled? && r.threadStarted then Abandon else Wrap)
      ensures twiceOwned == old(twiceOwned) + if r.Cancelled? && r.threadStarted then {fd} else {}
    {
      Others();
      if * {
        var e: Errno := *;
        faults := Plus(faults, Wrap);
        return NotWrapped(e);
      } else if * {
        var threadStarted: bool := *;
        faults := Plus(faults, if threadStarted then Abandon else Wrap);
        if threadStarted {
          Share(fd);
        }
        return Cancelled(threadStarted);
      }
      r := Wrapped;
    }

    /** `write` on a file open for writing. */
    method WriteTo(fd: Fd, bytes: seq<Byte>, ghost p: Path) returns (r: Result<()>)
      requires Valid() && fd in fds && fds[fd] in disk.mine && fds[fd] in disk.nodes && disk.nodes[fds[fd]].Regular?
      requires quiet ==> OpenAt(fd, p) && Alone(disk.nodes, root, p)
      modifies this`disk, this`faults
      ensures Valid() && Later(old(disk), disk)
      ensures fds[fd] in disk.mine && fds[fd] in disk.nodes && disk.nodes[fds[fd]].Regular?
      ensures r.Ok? ==> faults == old(faults)
      ensures r.Err? ==> faults == Plus(old(faults), Write) && (quiet ==> disk == old(disk))
      ensures quiet && r.Ok? ==> disk == Extended(old(disk), fds[fd], bytes)
      ensures quiet ==> OpenAt(fd, p) && Alone(disk.nodes, root, p)
      ensures quiet && r.Ok? ==> Changed(old(disk.nodes), disk.nodes, root, p, Some(disk.nodes[fds[fd]]))
    {
      Others();
      if * {
        var e: Errno := *;
        faults := Plus(faults, Write);
        return Err(e);
      }
      ghost var before := disk;
      ExtendedLater(disk, root, fds[fd], bytes);
      KeptLater(foreign, disk, Extended(disk, fds[fd], bytes));
      disk := Extended(disk, fds[fd], bytes);
      if quiet {
        RewrittenView(before.nodes, disk.nodes, root, fds[fd], p);
        RewrittenHoused(before.nodes, disk.nodes, root, home, fds[fd]);
      }
      r := Ok(());
    }

    /** `close` of a file written to, which may still find out that the bytes have no room. */
    method CloseWritten(fd: Fd) returns (r: Result<()>)
      requires Valid() && fd in fds
      modifies this`disk, this`fds, this`closings, this`faults
      ensures Valid() && Later(old(disk), disk) && fds == old(fds) - {fd}
      ensures quiet ==> disk == old(disk)
      ensures faults == if r.Ok? then old(faults) else Plus(old(faults), Close)
    {
      Others();
      ClosingBalances(fds.Keys, nextFd, closings, twiceOwned, fd);
      fds, closings := fds - {fd}, closings + multiset{fd};
      assert fds.Keys == old(fds.Keys) - {fd};
      if * {
        var e: Errno := *;
        faults := Plus(faults, Close);
        return Err(e);
      }
      r := Ok(());
    }

    /** `os.replace(c, c', src_dir_fd, dst_dir_fd)` within one directory. */
    method Replace(dirFd: Fd, c: Component, c': Component, ghost at: Path) returns (r: Result<()>)
      requires Valid() && Inside(dirFd) && Proper(c) && Proper(c')
      requires quiet ==>
        && OpenAt(dirFd, at) && Alone(disk.nodes, root, at + [c])
        && IsFile(Seen(disk.nodes, root, at + [c]))
      modifies this`disk, this`faults
      ensures Valid() && Later(old(disk), disk)
      ensures r.Ok? ==> faults == old(faults)
      ensures r.Err? ==> faults == Plus(old(faults), Call.Rename) || faults == old(faults)
      ensures quiet && r.Err? ==> disk == old(disk)
      ensures quiet && r.Err? && faults == old(faults) ==> r.errno == EISDIR && at + [c'] in old(Directories())
      ensures quiet && r.Ok? && c' != c ==> Moved(old(disk.nodes), disk.nodes, root, at + [c], at + [c'])
    {
      Others();
      if * {
        var e: Errno := *;
        faults := Plus(faults, Call.Rename);
        return Err(e);
      }
      if quiet {
        LookupNext(disk.nodes, root, at, c);
        LookupNext(disk.nodes, root, at, c');
      }
      var d := fds[dirFd];
      var from, to := Entry(disk.nodes, d, c), Entry(disk.nodes, d, c');
      if from.None? {
        return Err(ENOENT);
      } else if to.Some? && disk.nodes[d].entries[c] == disk.nodes[d].entries[c'] {
        return Ok(());
      } else if to.Some? && to.value.Directory? && !from.value.Directory? {
        return Err(EISDIR);
      } else if to.Some? && !to.value.Directory? && from.value.Directory? {
        return Err(ENOTDIR);
      } else if to.Some? && to.value.Directory? && to.value.entries != map[] {
        return Err(ENOTEMPTY);
      }
      MoveEntry(d, c, c', at);
      r := Ok(());
    }

    method MoveEntry(d: Ino, c: Component, c': Component, ghost at: Path)
      requires Valid() && Within(disk, d) && c in disk.nodes[d].entries && c' != c
      requires quiet ==> Lookup(disk.nodes, root, at) == Some(d) && Alone(disk.nodes, root, at + [c])
      requires quiet ==> IsFile(Entry(disk.nodes, d, c)) && !IsFolder(Entry(disk.nodes, d, c'))
      modifies this`disk
      ensures Valid() && Later(old(disk), disk)
      ensures quiet ==> Moved(old(disk.nodes), disk.nodes, root, at + [c], at + [c'])
    {
      RenamedLater(disk, root, d, c, c');
      if quiet {
        RenamedView(disk, root, home, at, d, c, c');
      }
      KeptLater(foreign, disk, Renamed(disk, d, c, c'));
      disk := Renamed(disk, d, c, c');
    }

    /** `os.unlink(c, dir_fd)` */
    method Unlink(dirFd: Fd, c: Component, ghost at: Path) returns (r: Result<()>)
      requires Valid() && Inside(dirFd) && Proper(c)
      requires quiet ==> OpenAt(dirFd, at)
      modifies this`disk, this`faults
      ensures Valid() && Later(old(disk), disk)
      ensures r.Ok? ==> faults == old(faults)
      ensures r.Err? ==> faults == Plus(old(faults), Call.Unlink) || faults == old(faults)
      ensures quiet && r.Err? ==> disk == old(disk)
      ensures quiet && r.Err? && faults == old(faults) ==>
        at + [c] !in old(Contents()) && r.errno == if at + [c] in old(Directories()) then EISDIR else ENOENT
      ensures quiet && r.Ok? ==>
        Changed(old(disk.nodes), disk.nodes, root, at + [c], None) && at + [c] in old(Contents())
    {
      Others();
      if * {
        var e: Errno := *;
        faults := Plus(faults, Call.Unlink);
        return Err(e);
      }
      r := DropFile(fds[dirFd], c, at);
    }

    /** What `unlink` comes to if it does not fail of itself. */
    method DropFile(d: Ino, c: Component, ghost at: Path) returns (r: Result<()>)
      requires Valid() && Within(disk, d)
      requires quiet ==> Lookup(disk.nodes, root, at) == Some(d)
      modifies this`disk
      ensures Valid() && Later(old(disk), disk)
      ensures r.Err? ==> disk == old(disk)
      ensures quiet && r.Err? ==>
        at + [c] !in old(Contents()) && r.errno == if at + [c] in old(Directories()) then EISDIR else ENOENT
      ensures quiet && r.Ok? ==>
        Changed(old(disk.nodes), disk.nodes, root, at + [c], None) && at + [c] in old(Contents())
    {
      if quiet {
        LookupNext(disk.nodes, root, at, c);
      }
      var node := Entry(disk.nodes, d, c);
      if node.None? {
        return Err(ENOENT);
      } else if node.value.Directory? {
        return Err(EISDIR);
      }
      DropEntry(d, c, at);
      r := Ok(());
    }

    method DropEntry(d: Ino, c: Component, ghost at: Path)
      requires Valid() && Within(disk, d)
      requires quiet ==> Lookup(disk.nodes, root, at) == Some(d) && IsFile(Entry(disk.nodes, d, c))
      modifies this`disk
      ensures Valid() && Later(old(disk), disk)
      ensures quiet ==> Changed(old(disk.nodes), disk.nodes, root, at + [c], None)
    {
      NoEntryLater(disk, root, d, c);
      if quiet {
        NoEntryChanged(disk, root, home, at, d, c);
      }
      KeptLater(foreign, disk, NoEntry(disk, d, c));
      disk := NoEntry(disk, d, c);
    }

    /** `os.stat(c, dir_fd, follow_symlinks=False)` */
    method Stat(dirFd: Fd, c: Component) returns (r: Result<Node>)
      requires Valid() && Inside(dirFd) && Proper(c)
      modifies this`disk, this`faults
      ensures Valid() && Later(old(disk), disk)
      ensures quiet ==> disk == old(disk)
      ensures r.Ok? ==> faults == old(faults) && Entry(disk.nodes, fds[dirFd], c) == Some(r.value)
      ensures r.Err? ==> faults == Plus(old(faults), Call.Stat) ||
                         (faults == old(faults) && r.errno == ENOENT && Entry(disk.nodes, fds[dirFd], c) == None)
    {
      Others();
      if * {
        var e: Errno := *;
        faults := Plus(faults, Call.Stat);
        return Err(e);
      }
      var node := Entry(disk.nodes, fds[dirFd], c);
      r := if node.Some? then Ok(node.value) else Err(ENOENT);
    }

    /** `os.open(c, O_RDONLY | O_NONBLOCK | O_NOFOLLOW, dir_fd)`: a directory may be opened too. */
    method OpenFile(dirFd: Fd, c: Component) returns (r: Result<Fd>)
      requires Valid() && Inside(dirFd) && Proper(c)
      modifies this`disk, this`fds, this`nextFd, this`faults
      ensures Valid() && Later(old(disk), disk)
      ensures quiet ==> disk == old(disk)
      ensures r.Ok? ==>
        && r.value !in old(fds) && faults == old(faults)
        && Child(disk.nodes, old(fds[dirFd]), c, true).Some?
        && fds == old(fds)[r.value := Child(disk.nodes, old(fds[dirFd]), c, true).value]
        && fds[r.value] in disk.nodes && !disk.nodes[fds[r.value]].Symlink?
      ensures r.Err? ==> fds == old(fds)
      ensures r.Err? ==> faults == Plus(old(faults), Open) || faults == old(faults)
      ensures r.Err? && faults == old(faults) ==>
        && r.errno in {ENOENT, ELOOP, ENXIO, ENODEV}
        && (Entry(disk.nodes, old(fds[dirFd]), c).Some? ==>
              || Entry(disk.nodes, old(fds[dirFd]), c).value.Symlink?
              || Entry(disk.nodes, old(fds[dirFd]), c).value.Special?)
    {
      Others();
      if * {
        var e: Errno := *;
        faults := Plus(faults, Open);
        return Err(e);
      }
      var i := Child(disk.nodes, fds[dirFd], c, true);
      if i.None? || i.value !in disk.nodes {
        return Err(ENOENT);
      }
      if disk.nodes[i.value].Symlink? {
        return Err(ELOOP);
      }
      if disk.nodes[i.value].Special? {
        // A socket, or a device without a driver.
        if * {
          return Err(ENXIO);
        } else if * {
          return Err(ENODEV);
        }
      }
      var fd := Issue(i.value);
      r := Ok(fd);
    }

    /** `os.fstat` */
    method Fstat(fd: Fd) returns (r: Result<Node>)
      requires Valid() && fd in fds && fds[fd] in disk.nodes
      modifies this`disk, this`faults
      ensures Valid() && Later(old(disk), disk)
      ensures quiet ==> disk == old(disk)
      ensures r.Ok? ==> faults == old(faults) && fds[fd] in disk.nodes && disk.nodes[fds[fd]] == r.value
      ensures r.Err? ==> faults == Plus(old(faults), Call.Stat)
    {
      Others();
      if * {
        var e: Errno := *;
        faults := Plus(faults, Call.Stat);
        return Err(e);
      }
      r := Ok(disk.nodes[fds[fd]]);
    }
  }
}
