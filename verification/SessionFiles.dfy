/**
  `Session` as the owner of a file tree, and `write_file_to_temp`: walking down to a directory,
  writing beside a name and then revealing, discarding what was not revealed.

  Every result is stated twice over. With executed code running alongside: the walk stays inside, no
  inode of anyone else changes, descriptors are given back. In a quiet tree: exactly what the files are.
 */
module SessionFiles {
  import opened Common
  import opened Paths
  import opened Utf8
  import opened FileTree
  import opened Kernel
  import opened Streams
  import opened Disposition

  datatype Error =
    | Invalid | NotFound | IsADirectory | LimitReached | EntityTooLarge
    | OsError(errno: Errno) | TaskCancelled | BodyBroken | NotEncodable

  datatype Outcome<+T> = Done(value: T) | Raised(error: Error)

  /** A written file waiting under a hidden name beside the one it is for. */
  datatype Staged = Staged(path: Path, temp: Component)

  /** What a walk may fail with. */
  predicate WalkError(e: Error) {
    e == NotFound || e.OsError?
  }

  /** Either of the two ways in which it is said that there is no such file. */
  predicate SaysNotFound(e: Error) {
    e == NotFound || e == OsError(ENOENT)
  }

  /** A walk that gets through: at most making directories has failed on the way. */
  predicate Passes(create: bool, before: Faults, after: Faults) {
    if create then before.undoing == after.undoing && before.sharing == after.sharing && Since(before, after)
    else before == after
  }

  function Parent(path: Path): Path
    requires path != []
  {
    path[..|path| - 1]
  }

  function TempPath(s: Staged): Path
    requires s.path != []
  {
    Parent(s.path) + [s.temp]
  }

  // ----- what a sequence of changes amounts to -----

  /** The directories on the way to a path. */
  ghost function Above(path: Path): iset<Path> {
    iset i: nat | i < |path| :: path[..i]
  }

  /** Files are as they were, and there may be some more directories. */
  ghost predicate OnlyGrew(before: Nodes, after: Nodes, root: Ino, extra: iset<Path>) {
    && Files(after, root) == Files(before, root)
    && Folders(before, root) <= Folders(after, root) <= Folders(before, root) + extra
    && forall q: Path :: q in Files(before, root) && Alone(before, root, q) ==> Alone(after, root, q)
  }

  lemma GrewMore(a: Nodes, b: Nodes, c: Nodes, root: Ino, path: Path, i: nat)
    requires i < |path| && OnlyGrew(a, b, root, Above(path)) && OnlyGrew(b, c, root, iset{path[..i]})
    ensures OnlyGrew(a, c, root, Above(path))
  {
    assert path[..i] in Above(path);
  }

  lemma NoParent(nodes: Nodes, root: Ino, path: Path, i: nat)
    requires i < |path|
    ensures path[..i] !in Folders(nodes, root) ==> Parent(path) !in Folders(nodes, root)
  {
    if Parent(path) in Folders(nodes, root) {
      FolderAbove(nodes, root, Parent(path), i);
      assert Parent(path)[..i] == path[..i];
    }
  }

  lemma ParentIsFolder(nodes: Nodes, root: Ino, s: Staged)
    requires s.path != [] && TempPath(s) in Files(nodes, root)
    ensures Parent(s.path) in Folders(nodes, root)
  {
    LookupNext(nodes, root, Parent(s.path), s.temp);
  }

  /** A file is where there would have to be a directory. */
  ghost predicate Blocked(nodes: Nodes, root: Ino, path: Path) {
    exists i: nat :: i < |path| && path[..i] in Files(nodes, root)
  }

  lemma BlockedThere(nodes: Nodes, root: Ino, path: Path, i: nat)
    requires i < |path|
    ensures path[..i] in Files(nodes, root) ==> Blocked(nodes, root, path)
  {
  }

  lemma NotBlocked(nodes: Nodes, root: Ino, path: Path)
    requires path != []
    ensures Parent(path) in Folders(nodes, root) ==> !Blocked(nodes, root, path)
  {
    if Parent(path) in Folders(nodes, root) {
      forall i: nat | i < |path| ensures path[..i] !in Files(nodes, root) {
        NoParent(nodes, root, path, i);
      }
    }
  }

  lemma NewFolderGrew(before: Nodes, after: Nodes, root: Ino, p: Path, node: Node, extra: iset<Path>)
    requires Changed(before, after, root, p, Some(node)) && node.Directory?
    requires p in extra && p !in Files(before, root)
    ensures OnlyGrew(before, after, root, extra)
  {
    assert Files(before, root) - {p} == Files(before, root);
  }

  lemma NothingChanged(nodes: Nodes, root: Ino, p: Path)
    requires Seen(nodes, root, p).Some?
    ensures Changed(nodes, nodes, root, p, Seen(nodes, root, p))
  {
    var now := Seen(nodes, root, p);
    assert IsFile(now) ==> Files(nodes, root)[p := now.value] == Files(nodes, root);
    assert IsFolder(now) ==> p !in Files(nodes, root) && Files(nodes, root) - {p} == Files(nodes, root);
    assert IsFolder(now) ==> Folders(nodes, root) + iset{p} == Folders(nodes, root);
  }

  lemma ChangedTwice(a: Nodes, b: Nodes, c: Nodes, root: Ino, p: Path, mid: Node, now: Option<Node>)
    requires Changed(a, b, root, p, Some(mid)) && Changed(b, c, root, p, now) && !mid.Directory?
    ensures Changed(a, c, root, p, now)
  {
  }

  lemma ChangedAndBack(a: Nodes, b: Nodes, c: Nodes, root: Ino, p: Path, mid: Node, extra: iset<Path>)
    requires Changed(a, b, root, p, Some(mid)) && Changed(b, c, root, p, None) && !mid.Directory?
    requires p !in Files(a, root)
    ensures OnlyGrew(a, c, root, extra)
  {
    assert Files(a, root)[p := mid] - {p} == Files(a, root);
  }

  /** The path a request's file name stands for; none if the name is refused. */
  function Target(subPath: string): Path {
    var n := NormalizeSubPath(subPath);
    if n.Accepted? then Split(n.path) else []
  }

  /** A file that has no other name is where there was nothing. */
  ghost predicate Appeared(before: Nodes, after: Nodes, root: Ino, p: Path, body: Bytes) {
    && p !in Files(before, root)
    && Changed(before, after, root, p, Some(Regular(body)))
    && Alone(after, root, p)
  }

  /** A body is in a new hidden file; there may be more directories on the way to it. */
  ghost predicate StagedIn(before: Nodes, after: Nodes, root: Ino, s: Staged, body: Bytes)
    requires s.path != []
  {
    && TempPath(s) !in Files(before, root)
    && Files(after, root) == Files(before, root)[TempPath(s) := Regular(body)]
    && Alone(after, root, TempPath(s))
    && Folders(before, root) <= Folders(after, root) <= Folders(before, root) + Above(s.path)
    && forall q: Path :: q in Files(before, root) && Alone(before, root, q) ==> Alone(after, root, q)
  }

  /** A failed attempt leaves no file, unless undoing it failed too. */
  ghost predicate NotStaged(before: Nodes, after: Nodes, root: Ino, path: Path, temp: Component, trouble: bool) {
    || OnlyGrew(before, after, root, Above(path))
    || (trouble && path != [] && exists body: Bytes :: StagedIn(before, after, root, Staged(path, temp), body))
  }

  /** What a copy that does not end well is reported as. */
  predicate CopyError(e: Error, content: Content, max: nat) {
    (e == EntityTooLarge && Capped(content, max) == TooLarge) || (e == BodyBroken && Capped(content, max) == Broken)
  }

  /** What staging is refused with when no call fails of itself, the first thing in the way counting. */
  ghost predicate StageRefusal(e: Error, nodes: Nodes, root: Ino, path: Path, content: Content, temp: Component,
                               max: nat) {
    if path == [] then e == Invalid
    else if Blocked(nodes, root, path) then SaysNotFound(e)
    else if TempPath(Staged(path, temp)) in Files(nodes, root) || TempPath(Staged(path, temp)) in Folders(nodes, root)
    then e == OsError(EEXIST)
    else if Capped(content, max) == TooLarge then e == LimitReached
    else e == BodyBroken && Capped(content, max) == Broken
  }

  /** What it takes to stage a body, as long as the calls themselves work. */
  ghost predicate Stageable(nodes: Nodes, root: Ino, path: Path, content: Content, temp: Component, max: nat) {
    && path != [] && !Blocked(nodes, root, path)
    && TempPath(Staged(path, temp)) !in Files(nodes, root)
    && TempPath(Staged(path, temp)) !in Folders(nodes, root)
    && Capped(content, max).Copied?
  }

  lemma GrewThenAppeared(a: Nodes, b: Nodes, c: Nodes, root: Ino, s: Staged, body: Bytes)
    requires s.path != [] && OnlyGrew(a, b, root, Above(s.path)) && Appeared(b, c, root, TempPath(s), body)
    ensures StagedIn(a, c, root, s, body)
  {
    assert Files(b, root) == Files(a, root);
  }

  lemma GrewThenNot(a: Nodes, b: Nodes, c: Nodes, root: Ino, path: Path, temp: Component, trouble: bool)
    requires path != [] && OnlyGrew(a, b, root, Above(path))
    requires OnlyGrew(b, c, root, iset{}) ||
             (trouble && exists body: Bytes :: Appeared(b, c, root, Parent(path) + [temp], body))
    ensures NotStaged(a, c, root, path, temp, trouble)
  {
    if !OnlyGrew(b, c, root, iset{}) {
      var body: Bytes :| Appeared(b, c, root, Parent(path) + [temp], body);
      GrewThenAppeared(a, b, c, root, Staged(path, temp), body);
    }
  }

  /** The hidden file is gone, if there was one, and everything else is as it was. */
  ghost predicate DiscardedIn(before: Nodes, after: Nodes, root: Ino, p: Path) {
    && Files(after, root) == Files(before, root) - {p}
    && Folders(after, root) == Folders(before, root)
    && forall q: Path :: q != p && Alone(before, root, q) ==> Alone(after, root, q)
  }

  /** The path names a file with this body, over whatever file was there. */
  ghost predicate WrittenIn(before: Nodes, after: Nodes, root: Ino, path: Path, body: Bytes) {
    && Files(after, root) == Files(before, root)[path := Regular(body)]
    && Folders(before, root) <= Folders(after, root) <= Folders(before, root) + Above(path)
  }

  lemma StagedThenMoved(a: Nodes, b: Nodes, c: Nodes, root: Ino, s: Staged, body: Bytes)
    requires s.path != [] && StagedIn(a, b, root, s, body) && Moved(b, c, root, TempPath(s), s.path)
    ensures WrittenIn(a, c, root, s.path, body)
  {
  }

  lemma StagedThenDiscarded(a: Nodes, b: Nodes, c: Nodes, root: Ino, s: Staged, body: Bytes)
    requires s.path != [] && StagedIn(a, b, root, s, body) && DiscardedIn(b, c, root, TempPath(s))
    ensures OnlyGrew(a, c, root, Above(s.path))
  {
  }

  // ----- file_helpers.py -----

  datatype Written = Stored | OverCap | Interrupted | Failed(errno: Errno)

  /** Never more than the cap is stored, and all of the body if the copy ends well. */
  method WriteContent(k: Kernel, fd: Fd, content: Content, max: nat, ghost p: Path)
    returns (r: Written, ghost stored: Bytes)
    requires k.Valid() && fd in k.fds && k.fds[fd] in k.disk.mine && k.fds[fd] in k.disk.nodes
    requires k.disk.nodes[k.fds[fd]].Regular? && (k.quiet ==> k.disk.nodes[k.fds[fd]] == Regular([]))
    requires k.quiet ==> k.OpenAt(fd, p) && Alone(k.disk.nodes, k.root, p)
    modifies k`disk, k`faults
    ensures k.Valid() && Later(old(k.disk), k.disk)
    ensures k.faults == if r.Failed? then Plus(old(k.faults), Write) else old(k.faults)
    ensures |stored| <= max && stored <= Body(Chunks(content))
    ensures r.Stored? ==> Capped(content, max) == Copied(stored) && stored == Body(Chunks(content))
    ensures r.OverCap? ==> Capped(content, max) == TooLarge
    ensures r.Interrupted? ==> Capped(content, max) == Broken
    ensures k.quiet ==> Changed(old(k.disk.nodes), k.disk.nodes, k.root, p, Some(Regular(stored)))
    ensures k.quiet ==> Alone(k.disk.nodes, k.root, p)
  {
    var reader := new Reader(content);
    var size := 0;
    stored := [];
    if k.quiet {
      NothingChanged(k.disk.nodes, k.root, p);
    }
    while !reader.AtEof()
      invariant k.Valid() && Later(old(k.disk), k.disk) && k.faults == old(k.faults)
      invariant k.fds[fd] in k.disk.mine && k.fds[fd] in k.disk.nodes && k.disk.nodes[k.fds[fd]].Regular?
      invariant size == |stored| <= max && stored + Body(reader.rest) == Body(Chunks(content))
      invariant EndsWell(reader.rest, reader.broken) == EndsWell(Chunks(content), Breaks(content))
      invariant k.quiet ==> k.OpenAt(fd, p) && Alone(k.disk.nodes, k.root, p)
      invariant k.quiet ==> Changed(old(k.disk.nodes), k.disk.nodes, k.root, p, Some(Regular(stored)))
      invariant k.quiet ==> k.disk.nodes[k.fds[fd]] == Regular(stored)
      decreases |reader.rest|
    {
      ghost var rest := reader.rest;
      var chunk, raised := reader.Read();
      if raised {
        return Interrupted, stored;
      }
      if chunk == [] {
        break;
      }
      assert stored + Body(rest) == stored + chunk + Body(reader.rest);
      size := size + |chunk|;
      if size > max {
        assert |Body(Chunks(content))| > max;
        return OverCap, stored;
      }
      ghost var before := k.disk.nodes;
      var w := k.WriteTo(fd, chunk, p);
      if w.Err? {
        return Failed(w.errno), stored;
      }
      if k.quiet {
        ChangedTwice(old(k.disk.nodes), before, k.disk.nodes, k.root, p,
                     Regular(stored), Some(Regular(stored + chunk)));
      }
      stored := stored + chunk;
    }
    assert stored == Body(Chunks(content));
    r := Stored;
  }

  /**
    The `async with` around the copy: the descriptor is closed however it ends, and only by this task
    unless the task was cancelled when a worker thread had already begun to wrap it.
   */
  method FillAndClose(k: Kernel, fd: Fd, content: Content, max: nat, ghost p: Path)
    returns (r: Outcome<()>, ghost stored: Bytes)
    requires k.Valid() && fd in k.fds && k.fds[fd] in k.disk.mine && k.fds[fd] in k.disk.nodes
    requires k.disk.nodes[k.fds[fd]].Regular? && (k.quiet ==> k.disk.nodes[k.fds[fd]] == Regular([]))
    requires k.quiet ==> k.OpenAt(fd, p) && Alone(k.disk.nodes, k.root, p)
    requires fd !in k.twiceOwned
    modifies k`disk, k`faults, k`fds, k`closings, k`twiceOwned
    ensures k.Valid() && Later(old(k.disk), k.disk) && k.fds == old(k.fds) - {fd}
    ensures k.Trouble() == old(k.Trouble()) && Since(old(k.faults), k.faults)
    ensures
      || (k.twiceOwned == old(k.twiceOwned) && k.Sharing() == old(k.Sharing()))
      || (k.twiceOwned == old(k.twiceOwned) + {fd} && k.Sharing() > old(k.Sharing()) && r == Raised(TaskCancelled))
    ensures r.Raised? && r.error == TaskCancelled ==> k.faults != old(k.faults)
    ensures r.Done? ==> Capped(content, max) == Copied(stored) && stored == Body(Chunks(content))
    ensures r.Raised? ==> r.error != Invalid
    ensures r.Raised? && k.faults == old(k.faults) ==>
      || (r.error == EntityTooLarge && Capped(content, max) == TooLarge)
      || (r.error == BodyBroken && Capped(content, max) == Broken)
    ensures k.quiet ==> Changed(old(k.disk.nodes), k.disk.nodes, k.root, p, Some(Regular(stored)))
    ensures k.quiet ==> Alone(k.disk.nodes, k.root, p)
  {
    stored := [];
    var wrapping := k.WrapInThread(fd);
    if !wrapping.Wrapped? {
      if k.quiet {
        NothingChanged(k.disk.nodes, k.root, p);
      }
      k.CloseFd(fd);
      return Raised(if wrapping.Cancelled? then TaskCancelled else OsError(wrapping.errno)), stored;
    }
    r, stored := CopyAndClose(k, fd, content, max, p);
  }

  /** The body of the `async with`, and its end. */
  method CopyAndClose(k: Kernel, fd: Fd, content: Content, max: nat, ghost p: Path)
    returns (r: Outcome<()>, ghost stored: Bytes)
    requires k.Valid() && fd in k.fds && k.fds[fd] in k.disk.mine && k.fds[fd] in k.disk.nodes
    requires k.disk.nodes[k.fds[fd]].Regular? && (k.quiet ==> k.disk.nodes[k.fds[fd]] == Regular([]))
    requires k.quiet ==> k.OpenAt(fd, p) && Alone(k.disk.nodes, k.root, p)
    modifies k`disk, k`faults, k`fds, k`closings
    ensures k.Valid() && Later(old(k.disk), k.disk) && k.fds == old(k.fds) - {fd}
    ensures k.Trouble() == old(k.Trouble()) && k.Sharing() == old(k.Sharing()) && Since(old(k.faults), k.faults)
    ensures r.Done? ==> Capped(content, max) == Copied(stored) && stored == Body(Chunks(content))
    ensures r.Raised? ==> r.error in {EntityTooLarge, BodyBroken} || r.error.OsError?
    ensures r.Raised? && k.faults == old(k.faults) ==>
      || (r.error == EntityTooLarge && Capped(content, max) == TooLarge)
      || (r.error == BodyBroken && Capped(content, max) == Broken)
    ensures k.quiet ==> Changed(old(k.disk.nodes), k.disk.nodes, k.root, p, Some(Regular(stored)))
    ensures k.quiet ==> Alone(k.disk.nodes, k.root, p)
  {
    var written;
    written, stored := WriteContent(k, fd, content, max, p);
    var closed := k.CloseWritten(fd);
    match written {
      case Stored => r := if closed.Ok? then Done(()) else Raised(OsError(closed.errno));
      case OverCap => r := Raised(EntityTooLarge);
      case Interrupted => r := Raised(BodyBroken);
      case Failed(e) => r := Raised(OsError(e));
    }
  }

  /** The `except` of `write_file_to_temp`: a file that is gone already is none to complain about. */
  method UndoTemp(k: Kernel, dirFd: Fd, temp: Component, error: Error,
                  ghost at: Path, ghost start: Nodes, ghost stored: Bytes)
    returns (raised: Error)
    requires k.Valid() && k.Inside(dirFd) && Proper(temp)
    requires k.quiet ==> k.OpenAt(dirFd, at) && Appeared(start, k.disk.nodes, k.root, at + [temp], stored)
    requires error != Invalid
    modifies k`disk, k`faults
    ensures k.Valid() && Later(old(k.disk), k.disk) && Since(old(k.faults), k.faults)
    ensures k.quiet ==>
      || (raised == error && OnlyGrew(start, k.disk.nodes, k.root, iset{}))
      || (k.Trouble() > old(k.Trouble())
          && exists body: Bytes :: Appeared(start, k.disk.nodes, k.root, at + [temp], body))
    ensures raised != Invalid
  {
    ghost var before := k.disk.nodes;
    var unlinked := k.Unlink(dirFd, temp, at);
    raised := if unlinked.Err? && unlinked.errno != ENOENT then OsError(unlinked.errno) else error;
    if k.quiet && unlinked.Ok? {
      ChangedAndBack(start, before, k.disk.nodes, k.root, at + [temp], Regular(stored), iset{});
    }
  }

  /**
    Either the whole body is in a new hidden file, or that file is gone again; the one exception is
    an unlink that fails for reasons of its own.
   */
  method WriteFileToTemp(k: Kernel, dirFd: Fd, content: Content, max: nat, temp: Component, ghost at: Path)
    returns (r: Outcome<()>)
    requires k.Valid() && k.Inside(dirFd) && Proper(temp)
    requires k.quiet ==> k.OpenAt(dirFd, at)
    modifies k
    ensures r.Done? || k.Sharing() == old(k.Sharing()) ==> k.twiceOwned == old(k.twiceOwned)
    ensures k.Valid() && Later(old(k.disk), k.disk) && k.fds == old(k.fds)
    ensures Since(old(k.faults), k.faults)
    ensures r.Done? ==> k.Trouble() == old(k.Trouble()) && Capped(content, max) == Copied(Body(Chunks(content)))
    ensures k.quiet && r.Done? ==>
      Appeared(old(k.disk.nodes), k.disk.nodes, k.root, at + [temp], Body(Chunks(content)))
    ensures k.quiet && r.Raised? ==>
      || OnlyGrew(old(k.disk.nodes), k.disk.nodes, k.root, iset{})
      || (k.Trouble() > old(k.Trouble())
          && exists body: Bytes :: Appeared(old(k.disk.nodes), k.disk.nodes, k.root, at + [temp], body))
    ensures r.Raised? ==> r.error != Invalid
    ensures k.quiet && k.faults == old(k.faults) ==>
      (r.Done? <==> at + [temp] !in old(k.Contents()) && at + [temp] !in old(k.Directories())
                    && Capped(content, max).Copied?)
    ensures k.quiet && r.Raised? && k.faults == old(k.faults) ==>
      if at + [temp] in old(k.Contents()) || at + [temp] in old(k.Directories()) then r.error == OsError(EEXIST)
      else CopyError(r.error, content, max)
  {
    var created := k.CreateFile(dirFd, temp, at);
    if created.Err? {
      return Raised(OsError(created.errno));
    }
    r := FillOrUndo(k, dirFd, created.value, content, max, temp, at, old(k.disk.nodes));
  }

  /** The `try` of `write_file_to_temp`, the hidden file having been made. */
  method FillOrUndo(k: Kernel, dirFd: Fd, fd: Fd, content: Content, max: nat, temp: Component,
                    ghost at: Path, ghost start: Nodes)
    returns (r: Outcome<()>)
    requires k.Valid() && k.Inside(dirFd) && Proper(temp) && fd in k.fds && fd != dirFd && fd !in k.twiceOwned
    requires k.fds[fd] in k.disk.mine && k.fds[fd] in k.disk.nodes && k.disk.nodes[k.fds[fd]] == Regular([])
    requires k.quiet ==> k.OpenAt(dirFd, at) && k.OpenAt(fd, at + [temp]) && Alone(k.disk.nodes, k.root, at + [temp])
    requires k.quiet ==> Changed(start, k.disk.nodes, k.root, at + [temp], Some(Regular([])))
    requires k.quiet ==> at + [temp] !in Files(start, k.root)
    modifies k
    ensures r.Done? || k.Sharing() == old(k.Sharing()) ==> k.twiceOwned == old(k.twiceOwned)
    ensures k.Valid() && Later(old(k.disk), k.disk) && k.fds == old(k.fds) - {fd}
    ensures Since(old(k.faults), k.faults)
    ensures r.Done? ==> k.Trouble() == old(k.Trouble()) && Capped(content, max) == Copied(Body(Chunks(content)))
    ensures k.quiet && r.Done? ==> Appeared(start, k.disk.nodes, k.root, at + [temp], Body(Chunks(content)))
    ensures k.quiet && r.Raised? ==>
      || OnlyGrew(start, k.disk.nodes, k.root, iset{})
      || (k.Trouble() > old(k.Trouble())
          && exists body: Bytes :: Appeared(start, k.disk.nodes, k.root, at + [temp], body))
    ensures r.Raised? ==> r.error != Invalid
    ensures r.Raised? && k.faults == old(k.faults) ==> !Capped(content, max).Copied?
    ensures k.quiet && r.Raised? && k.faults == old(k.faults) ==> CopyError(r.error, content, max)
  {
    ghost var p := at + [temp];
    ghost var empty, stored := k.disk.nodes, [];
    r, stored := FillAndClose(k, fd, content, max, p);
    if k.quiet {
      ChangedTwice(start, empty, k.disk.nodes, k.root, p, Regular([]), Some(Regular(stored)));
    }
    if r.Raised? {
      var raised := UndoTemp(k, dirFd, temp, r.error, at, start, stored);
      r := Raised(raised);
    }
  }

  /** A file object that owns a descriptor, under the header that names it. */
  datatype Payload = Payload(fd: Fd, disposition: string)

  /** The characters of a string as code points: no surrogate is among them. */
  function AsText(s: string): (t: Text)
    ensures |t| == |s| && forall i :: 0 <= i < |s| ==> t[i] == s[i] as int
  {
    seq(|s|, i requires 0 <= i < |s| => s[i] as int)
  }

  lemma StringsAreScalars(s: string)
    ensures Scalars(AsText(s))
  {
  }

  /** `read_file`: the descriptor is the payload's from here on, or closed. */
  method PreparePayload(k: Kernel, fd: Fd, path: Text, field: Option<string>) returns (r: Outcome<Payload>)
    requires k.Valid() && fd in k.fds
    modifies k`disk, k`fds, k`closings, k`faults
    ensures k.Valid() && Later(old(k.disk), k.disk) && Since(old(k.faults), k.faults)
    ensures k.quiet ==> k.disk == old(k.disk)
    ensures r.Done? ==>
      && k.fds == old(k.fds) && r.value.fd == fd
      && Some(r.value.disposition) == ContentDisposition(path, field)
    ensures r.Raised? ==> k.fds == old(k.fds) - {fd}
    ensures k.faults == old(k.faults) ==> (r.Done? <==> Scalars(path))
  {
    var wrapped := k.WrapFile(fd);
    if wrapped.Err? {
      k.CloseFd(fd);
      return Raised(OsError(wrapped.errno));
    }
    ParseOfPrint(path, field);
    var disposition := ContentDisposition(path, field);
    if disposition.None? {
      k.CloseFd(fd);
      return Raised(NotEncodable);
    }
    r := Done(Payload(fd, disposition.value));
  }

  // ----- sessions.py -----

  class Session {
    const k: Kernel
    const maxFileSize: nat

    constructor (k: Kernel, maxFileSize: nat)
      ensures this.k == k && this.maxFileSize == maxFileSize
    {
      this.k, this.maxFileSize := k, maxFileSize;
    }

    /** Makes a directory unless something has its name already. */
    method MakeDirectory(parent: Fd, part: Component, ghost at: Path) returns (r: Outcome<()>)
      requires k.Valid() && k.Inside(parent) && Proper(part)
      requires k.quiet ==> k.OpenAt(parent, at)
      modifies k`disk, k`faults, k`home
      ensures k.Valid() && k.Inside(parent)
      ensures Since(old(k.faults), k.faults) && k.Trouble() == old(k.Trouble())
      ensures k.Sharing() == old(k.Sharing())
      ensures r.Raised? ==> k.faults != old(k.faults) && WalkError(r.error)
      ensures k.quiet ==> k.OpenAt(parent, at)
      ensures k.quiet ==> OnlyGrew(old(k.disk.nodes), k.disk.nodes, k.root, iset{at + [part]})
      ensures k.quiet && k.faults == old(k.faults) ==> at + [part] in k.Contents() || at + [part] in k.Directories()
    {
      var made := k.MakeDirectory(parent, part, at);
      r := if made.Err? && made.errno != EEXIST then Raised(OsError(made.errno)) else Done(());
      if k.quiet && made.Ok? {
        NewFolderGrew(old(k.disk.nodes), k.disk.nodes, k.root, at + [part], Directory(map[], k.fds[parent]),
                      iset{at + [part]});
      }
    }

    /** One component of the walk, which `create` may have to make first. */
    method Enter(parent: Fd, part: Component, create: bool, ghost call: Call, ghost at: Path) returns (r: Outcome<Fd>)
      requires k.Valid() && Opening(call) && k.Inside(parent) && Proper(part)
      requires k.quiet ==> k.OpenAt(parent, at)
      modifies k`disk, k`fds, k`nextFd, k`closings, k`faults, k`home
      ensures k.Valid()
      ensures Since(old(k.faults), k.faults)
      ensures r.Done? ==> r.value !in old(k.fds) && k.Inside(r.value) && k.fds == old(k.fds)[r.value := k.fds[r.value]]
      ensures r.Done? ==> Passes(create, old(k.faults), k.faults)
      ensures r.Raised? ==> k.fds == old(k.fds) && WalkError(r.error)
      ensures k.Sharing() == old(k.Sharing()) && (call == Open ==> k.Trouble() == old(k.Trouble()))
      ensures r.Raised? && !create && call == Reopen ==> k.faults == old(k.faults) || k.Trouble() > old(k.Trouble())
      ensures k.quiet && r.Done? ==> k.OpenAt(r.value, at + [part])
      ensures k.quiet && !create ==> k.disk == old(k.disk)
      ensures k.quiet ==> OnlyGrew(old(k.disk.nodes), k.disk.nodes, k.root, iset{at + [part]})
      ensures k.quiet && r.Raised? && k.faults == old(k.faults) ==>
        if create then at + [part] in k.Contents() else at + [part] !in k.Directories()
      ensures r.Raised? && k.faults == old(k.faults) ==> SaysNotFound(r.error)
    {
      if create {
        var made := MakeDirectory(parent, part, at);
        if made.Raised? {
          return Raised(made.error);
        }
      }
      if k.quiet {
        LookupNext(k.disk.nodes, k.root, at, part);
      }
      var next := k.OpenDirectory(parent, part, call);
      if next.Err? {
        return Raised(if next.errno in {ELOOP, ENOTDIR} then NotFound else OsError(next.errno));
      }
      OneStepStaysInside(k.disk.nodes, k.disk.mine, k.fds[parent], part);
      r := Done(next.value);
    }

    /** One turn of the walk: the directory left behind is closed, whether or not the next one opens. */
    method Descend(parent: Fd, path: Path, i: nat, create: bool, ghost call: Call) returns (r: Outcome<Fd>)
      requires k.Valid() && Opening(call) && k.Inside(parent) && ProperPath(path) && i < |path| - 1
      requires k.quiet ==> k.OpenAt(parent, path[..i])
      modifies k`disk, k`fds, k`nextFd, k`closings, k`faults, k`home
      ensures k.Valid() && Since(old(k.faults), k.faults)
      ensures r.Done? ==> r.value !in old(k.fds) && k.Inside(r.value)
      ensures r.Done? ==> k.fds == (old(k.fds) - {parent})[r.value := k.fds[r.value]]
      ensures r.Done? ==> Passes(create, old(k.faults), k.faults)
      ensures r.Raised? ==> k.fds == old(k.fds) - {parent} && WalkError(r.error)
      ensures k.Sharing() == old(k.Sharing()) && (call == Open ==> k.Trouble() == old(k.Trouble()))
      ensures r.Raised? && !create && call == Reopen ==> k.faults == old(k.faults) || k.Trouble() > old(k.Trouble())
      ensures k.quiet && r.Done? ==> k.OpenAt(r.value, path[..i + 1])
      ensures k.quiet && !create ==> k.disk == old(k.disk)
      ensures k.quiet ==> OnlyGrew(old(k.disk.nodes), k.disk.nodes, k.root, iset{path[..i + 1]})
      ensures k.quiet && r.Raised? && k.faults == old(k.faults) ==>
        if create then path[..i + 1] in k.Contents() else Parent(path) !in k.Directories()
      ensures r.Raised? && k.faults == old(k.faults) ==> SaysNotFound(r.error)
    {
      assert path[..i + 1] == path[..i] + [path[i]];
      r := Enter(parent, path[i], create, call, path[..i]);
      k.CloseFd(parent);
      NoParent(k.disk.nodes, k.root, path, i + 1);
    }

    /**
      The walk: one descriptor is open at any time, always of a directory of the session, and at the
      end it is that of the directory holding the path.
     */
    method OpenParent(path: Path, create: bool, ghost call: Call) returns (r: Outcome<Fd>)
      requires k.Valid() && Opening(call) && ProperPath(path)
      modifies k`disk, k`fds, k`nextFd, k`closings, k`faults, k`home
      ensures k.Valid() && Since(old(k.faults), k.faults)
      ensures r.Done? ==> r.value !in old(k.fds) && k.Inside(r.value)
      ensures r.Done? ==> k.fds == old(k.fds)[r.value := k.fds[r.value]]
      ensures r.Done? ==> Passes(create, old(k.faults), k.faults)
      ensures r.Raised? ==> k.fds == old(k.fds) && WalkError(r.error)
      ensures k.Sharing() == old(k.Sharing()) && (call == Open ==> k.Trouble() == old(k.Trouble()))
      ensures r.Raised? && !create && call == Reopen ==> k.faults == old(k.faults) || k.Trouble() > old(k.Trouble())
      ensures k.quiet && r.Done? ==> k.OpenAt(r.value, Parent(path))
      ensures k.quiet && !create ==> k.disk == old(k.disk)
      ensures k.quiet ==> OnlyGrew(old(k.disk.nodes), k.disk.nodes, k.root, Above(path))
      ensures k.quiet && k.faults == old(k.faults) ==>
        (r.Done? <==> if create then !old(Blocked(k.disk.nodes, k.root, path)) else Parent(path) in k.Directories())
      ensures r.Raised? && k.faults == old(k.faults) ==> SaysNotFound(r.error)
    {
      var top := k.OpenRoot(call);
      if top.Err? {
        return Raised(OsError(top.errno));
      }
      r := WalkDown(top.value, path, create, call);
      NotBlocked(k.disk.nodes, k.root, path);
    }

    method WalkDown(top: Fd, path: Path, create: bool, ghost call: Call) returns (r: Outcome<Fd>)
      requires k.Valid() && Opening(call) && ProperPath(path) && k.Inside(top)
      requires k.quiet ==> k.OpenAt(top, [])
      modifies k`disk, k`fds, k`nextFd, k`closings, k`faults, k`home
      ensures k.Valid() && Since(old(k.faults), k.faults)
      ensures r.Done? ==> (r.value == top || r.value !in old(k.fds)) && k.Inside(r.value)
      ensures r.Done? ==> k.fds == (old(k.fds) - {top})[r.value := k.fds[r.value]]
      ensures r.Done? ==> Passes(create, old(k.faults), k.faults)
      ensures r.Raised? ==> k.fds == old(k.fds) - {top} && WalkError(r.error)
      ensures k.Sharing() == old(k.Sharing()) && (call == Open ==> k.Trouble() == old(k.Trouble()))
      ensures r.Raised? && !create && call == Reopen ==> k.faults == old(k.faults) || k.Trouble() > old(k.Trouble())
      ensures k.quiet && r.Done? ==> k.OpenAt(r.value, Parent(path))
      ensures k.quiet && !create ==> k.disk == old(k.disk)
      ensures k.quiet ==> OnlyGrew(old(k.disk.nodes), k.disk.nodes, k.root, Above(path))
      ensures k.quiet && r.Raised? && k.faults == old(k.faults) ==>
        if create then Blocked(k.disk.nodes, k.root, path) else Parent(path) !in k.Directories()
      ensures r.Raised? && k.faults == old(k.faults) ==> SaysNotFound(r.error)
    {
      var parent := top;
      var i := 0;
      ghost var start := k.disk.nodes;
      assert path[..0] == [];
      while i < |path| - 1
        invariant 0 <= i <= |path| - 1
        invariant k.Valid()
        invariant Passes(create, old(k.faults), k.faults)
        invariant k.Inside(parent) && (parent == top || parent !in old(k.fds))
        invariant k.fds == (old(k.fds) - {top})[parent := k.fds[parent]]
        invariant k.quiet ==> k.OpenAt(parent, path[..i])
        invariant k.quiet && !create ==> k.disk == old(k.disk)
        invariant k.quiet ==> OnlyGrew(start, k.disk.nodes, k.root, Above(path))
      {
        ghost var before := k.disk.nodes;
        var next := Descend(parent, path, i, create, call);
        if k.quiet {
          GrewMore(start, before, k.disk.nodes, k.root, path, i + 1);
        }
        BlockedThere(k.disk.nodes, k.root, path, i + 1);
        if next.Raised? {
          return Raised(next.error);
        }
        parent := next.value;
        i := i + 1;
      }
      assert path[..i] == Parent(path);
      r := Done(parent);
    }

    /** What `stage_file` makes of an error. */
    function StageError(e: Error): Error {
      if e == EntityTooLarge || e == OsError(ENOSPC) || e == OsError(EDQUOT) then LimitReached else e
    }

    /** `normalize_sub_path` as the methods call it. */
    method Normalise(subPath: string) returns (r: Outcome<Path>)
      ensures r == if NormalizeSubPath(subPath).Accepted? then Done(Target(subPath)) else Raised(Invalid)
      ensures r.Done? ==> ProperPath(r.value)
      ensures r.Raised? ==> Target(subPath) == []
    {
      var normalised := NormalizeSubPath(subPath);
      if !normalised.Accepted? {
        return Raised(Invalid);
      }
      NormalizedIsProper(subPath);
      r := Done(Split(normalised.path));
    }

    /** Writes a body beside the name it is for, without touching what is there. */
    method StageFile(subPath: string, content: Content, temp: Component) returns (r: Outcome<Path>)
      requires k.Valid() && Proper(temp)
      modifies k
      ensures r.Done? || k.Sharing() == old(k.Sharing()) ==> k.twiceOwned == old(k.twiceOwned)
      ensures k.Valid() && k.fds == old(k.fds)
      ensures Since(old(k.faults), k.faults)
      ensures r.Done? ==>
        && k.Trouble() == old(k.Trouble())
        && Capped(content, maxFileSize) == Copied(Body(Chunks(content)))
      ensures r.Done? ==> r.value == Target(subPath) && ProperPath(r.value)
      ensures k.quiet && r.Done? ==>
        StagedIn(old(k.disk.nodes), k.disk.nodes, k.root, Staged(r.value, temp), Body(Chunks(content)))
      ensures k.quiet && k.faults == old(k.faults) ==>
        (r.Done? <==> old(Stageable(k.disk.nodes, k.root, Target(subPath), content, temp, maxFileSize)))
      ensures k.quiet && r.Raised? ==>
        NotStaged(old(k.disk.nodes), k.disk.nodes, k.root, Target(subPath), temp, k.Trouble() > old(k.Trouble()))
      ensures r.Raised? ==> r.error !in {EntityTooLarge, OsError(ENOSPC), OsError(EDQUOT)}
      ensures k.quiet && r.Raised? && k.faults == old(k.faults) ==>
        StageRefusal(r.error, old(k.disk.nodes), k.root, Target(subPath), content, temp, maxFileSize)
    {
      var path := Normalise(subPath);
      if path.Raised? {
        return Raised(path.error);
      }
      r := StageAt(path.value, content, temp);
    }

    method StageAt(path: Path, content: Content, temp: Component) returns (r: Outcome<Path>)
      requires k.Valid() && Proper(temp) && ProperPath(path)
      modifies k
      ensures r.Done? || k.Sharing() == old(k.Sharing()) ==> k.twiceOwned == old(k.twiceOwned)
      ensures k.Valid() && k.fds == old(k.fds)
      ensures Since(old(k.faults), k.faults)
      ensures r.Done? ==>
        && k.Trouble() == old(k.Trouble())
        && Capped(content, maxFileSize) == Copied(Body(Chunks(content)))
      ensures r.Done? ==> r.value == path
      ensures k.quiet && r.Done? ==>
        StagedIn(old(k.disk.nodes), k.disk.nodes, k.root, Staged(path, temp), Body(Chunks(content)))
      ensures k.quiet && k.faults == old(k.faults) ==>
        (r.Done? <==> old(Stageable(k.disk.nodes, k.root, path, content, temp, maxFileSize)))
      ensures k.quiet && r.Raised? ==>
        NotStaged(old(k.disk.nodes), k.disk.nodes, k.root, path, temp, k.Trouble() > old(k.Trouble()))
      ensures r.Raised? ==> r.error !in {EntityTooLarge, OsError(ENOSPC), OsError(EDQUOT)}
      ensures k.quiet && r.Raised? && k.faults == old(k.faults) ==>
        StageRefusal(r.error, old(k.disk.nodes), k.root, path, content, temp, maxFileSize)
    {
      var parent := OpenParent(path, true, Open);
      if parent.Raised? {
        return Raised(StageError(parent.error));
      }
      r := StageBeside(parent.value, path, content, temp, old(k.disk.nodes));
    }

    /** The directory having been reached: the body is written, and the descriptor given back. */
    method StageBeside(parent: Fd, path: Path, content: Content, temp: Component, ghost start: Nodes)
      returns (r: Outcome<Path>)
      requires k.Valid() && k.Inside(parent) && Proper(temp) && ProperPath(path)
      requires k.quiet ==> k.OpenAt(parent, Parent(path)) && OnlyGrew(start, k.disk.nodes, k.root, Above(path))
      modifies k
      ensures r.Done? || k.Sharing() == old(k.Sharing()) ==> k.twiceOwned == old(k.twiceOwned)
      ensures k.Valid() && k.fds == old(k.fds) - {parent}
      ensures Since(old(k.faults), k.faults)
      ensures r.Done? ==>
        && k.Trouble() == old(k.Trouble())
        && Capped(content, maxFileSize) == Copied(Body(Chunks(content)))
      ensures r.Done? ==> r.value == path
      ensures k.quiet && r.Done? ==>
        StagedIn(start, k.disk.nodes, k.root, Staged(path, temp), Body(Chunks(content)))
      ensures k.quiet && k.faults == old(k.faults) && !Blocked(start, k.root, path) ==>
        (r.Done? <==> Stageable(start, k.root, path, content, temp, maxFileSize))
      ensures k.quiet && r.Raised? ==>
        NotStaged(start, k.disk.nodes, k.root, path, temp, k.Trouble() > old(k.Trouble()))
      ensures r.Raised? ==> r.error !in {EntityTooLarge, OsError(ENOSPC), OsError(EDQUOT)}
      ensures k.quiet && r.Raised? && k.faults == old(k.faults) && !Blocked(start, k.root, path) ==>
        StageRefusal(r.error, start, k.root, path, content, temp, maxFileSize)
    {
      ghost var mid := k.disk.nodes;
      var written := WriteFileToTemp(k, parent, content, maxFileSize, temp, Parent(path));
      k.CloseFd(parent);
      if k.quiet {
        if written.Done? {
          GrewThenAppeared(start, mid, k.disk.nodes, k.root, Staged(path, temp), Body(Chunks(content)));
        } else {
          GrewThenNot(start, mid, k.disk.nodes, k.root, path, temp, k.Trouble() > old(k.Trouble()));
        }
      }
      r := if written.Done? then Done(path) else Raised(StageError(written.error));
    }

    /** Reveals a staged file, and fails for a reason of the tree only if a directory has its name. */
    method CommitStagedFile(s: Staged) returns (r: Outcome<()>)
      requires k.Valid() && ProperPath(s.path) && Proper(s.temp) && s.temp !in s.path
      requires k.quiet ==> TempPath(s) in k.Contents() && Alone(k.disk.nodes, k.root, TempPath(s))
      modifies k`disk, k`fds, k`nextFd, k`closings, k`faults, k`home
      ensures k.Valid() && k.fds == old(k.fds)
      ensures Since(old(k.faults), k.faults) && k.Trouble() == old(k.Trouble())
      ensures r.Done? ==> k.faults == old(k.faults)
      ensures k.quiet ==> (r.Done? <==> k.faults == old(k.faults) && s.path !in old(k.Directories()))
      ensures k.quiet && r.Raised? ==> k.disk == old(k.disk)
      ensures k.quiet && r.Done? ==> Moved(old(k.disk.nodes), k.disk.nodes, k.root, TempPath(s), s.path)
      ensures k.quiet && r.Raised? && k.faults == old(k.faults) ==> r.error == OsError(EISDIR)
      ensures r.Raised? ==> WalkError(r.error)
    {
      assert s.path == Parent(s.path) + [s.path[|s.path| - 1]];
      if k.quiet {
        ParentIsFolder(k.disk.nodes, k.root, s);
      }
      var parent := OpenParent(s.path, false, Open);
      if parent.Raised? {
        return Raised(parent.error);
      }
      var renamed := k.Replace(parent.value, s.temp, s.path[|s.path| - 1], Parent(s.path));
      k.CloseFd(parent.value);
      if renamed.Err? {
        return Raised(OsError(renamed.errno));
      }
      r := Done(());
    }

    /** Drops a staged file; in a quiet tree only a call that fails of itself is in the way. */
    method DiscardStagedFile(s: Staged) returns (r: Outcome<()>)
      requires k.Valid() && ProperPath(s.path) && Proper(s.temp)
      requires k.quiet ==> TempPath(s) in k.Contents()
      modifies k`disk, k`fds, k`nextFd, k`closings, k`faults, k`home
      ensures k.Valid() && k.fds == old(k.fds)
      ensures Since(old(k.faults), k.faults)
      ensures k.quiet && r.Done? ==>
        || DiscardedIn(old(k.disk.nodes), k.disk.nodes, k.root, TempPath(s))
        || (k.disk == old(k.disk) && k.Trouble() > old(k.Trouble()))
      ensures k.quiet && r.Raised? ==> k.disk == old(k.disk) && k.Trouble() > old(k.Trouble())
    {
      if k.quiet {
        ParentIsFolder(k.disk.nodes, k.root, s);
      }
      var parent := OpenParent(s.path, false, Reopen);
      if parent.Raised? {
        return Raised(parent.error);
      }
      var unlinked := k.Unlink(parent.value, s.temp, Parent(s.path));
      k.CloseFd(parent.value);
      r := if unlinked.Err? && unlinked.errno != ENOENT then Raised(OsError(unlinked.errno)) else Done(());
    }

    /** The `except` of `write_file`: whatever is in the way of the discard is not reported. */
    method Abandon(s: Staged, ghost start: Nodes, ghost body: Bytes)
      requires k.Valid() && ProperPath(s.path) && Proper(s.temp)
      requires k.quiet ==> StagedIn(start, k.disk.nodes, k.root, s, body)
      modifies k`disk, k`fds, k`nextFd, k`closings, k`faults, k`home
      ensures k.Valid() && k.fds == old(k.fds) && Since(old(k.faults), k.faults)
      ensures k.quiet ==>
        NotStaged(start, k.disk.nodes, k.root, s.path, s.temp, k.Trouble() > old(k.Trouble()))
    {
      ghost var mid := k.disk.nodes;
      var discarded := DiscardStagedFile(s);
      if k.quiet && DiscardedIn(mid, k.disk.nodes, k.root, TempPath(s)) {
        StagedThenDiscarded(start, mid, k.disk.nodes, k.root, s, body);
      }
    }

    /**
      All or nothing: the path names the whole new body, or every file is what it was before. The one
      thing that may be left over is the hidden file, if a call made to remove it failed of itself.
     */
    method WriteFile(subPath: string, content: Content, temp: Component) returns (r: Outcome<()>)
      requires k.Valid() && Proper(temp) && temp !in Target(subPath)
      modifies k
      ensures r.Done? || k.Sharing() == old(k.Sharing()) ==> k.twiceOwned == old(k.twiceOwned)
      ensures k.Valid() && k.fds == old(k.fds)
      ensures k.quiet && k.faults == old(k.faults) ==>
        (r.Done? <==> old(Stageable(k.disk.nodes, k.root, Target(subPath), content, temp, maxFileSize))
                      && Target(subPath) !in old(k.Directories()))
      ensures k.quiet && r.Done? ==>
        WrittenIn(old(k.disk.nodes), k.disk.nodes, k.root, Target(subPath), Body(Chunks(content)))
      ensures k.quiet && r.Raised? ==>
        NotStaged(old(k.disk.nodes), k.disk.nodes, k.root, Target(subPath), temp, k.Trouble() > old(k.Trouble()))
      ensures r.Raised? ==> r.error !in {EntityTooLarge, OsError(ENOSPC), OsError(EDQUOT)}
      ensures k.quiet && r.Raised? && k.faults == old(k.faults) ==>
        || StageRefusal(r.error, old(k.disk.nodes), k.root, Target(subPath), content, temp, maxFileSize)
        || (Target(subPath) in old(k.Directories()) && r.error == OsError(EISDIR))
    {
      var staged := StageFile(subPath, content, temp);
      if staged.Raised? {
        return Raised(staged.error);
      }
      var s := Staged(staged.value, temp);
      ghost var mid := k.disk.nodes;
      var committed := CommitStagedFile(s);
      if committed.Done? {
        if k.quiet {
          StagedThenMoved(old(k.disk.nodes), mid, k.disk.nodes, k.root, s, Body(Chunks(content)));
        }
        return Done(());
      }
      Abandon(s, old(k.disk.nodes), Body(Chunks(content)));
      var e := committed.error;
      r := Raised(if e == OsError(ENOSPC) || e == OsError(EDQUOT) then LimitReached else e);
    }

    /** What is behind a name, if it can be opened at all; a descriptor is kept only of a regular file. */
    method OpenRegular(parent: Fd, c: Component) returns (r: Outcome<Fd>)
      requires k.Valid() && k.Inside(parent) && Proper(c)
      modifies k`disk, k`fds, k`nextFd, k`closings, k`faults, k`home
      ensures k.Valid() && Since(old(k.faults), k.faults)
      ensures k.quiet ==> k.disk == old(k.disk)
      ensures r.Raised? ==> k.fds == old(k.fds) && (WalkError(r.error) || r.error == IsADirectory)
      ensures r.Done? ==> r.value !in old(k.fds) && r.value in k.fds && k.fds == old(k.fds)[r.value := k.fds[r.value]]
      ensures r.Done? ==> k.fds[r.value] in k.disk.mine && k.fds[r.value] in k.disk.nodes
      ensures r.Done? ==> k.disk.nodes[k.fds[r.value]].Regular?
      ensures r.Done? && k.quiet ==> Child(k.disk.nodes, old(k.fds[parent]), c, true) == Some(k.fds[r.value])
      ensures k.quiet && k.faults == old(k.faults) ==>
        var node := Entry(k.disk.nodes, old(k.fds[parent]), c);
        && (r.Done? <==> node.Some? && node.value.Regular?)
        && (r == Raised(IsADirectory) <==> IsFolder(node))
      ensures r.Raised? && k.faults == old(k.faults) ==> SaysNotFound(r.error) || r.error == IsADirectory
    {
      var file := k.OpenFile(parent, c);
      if file.Err? {
        return Raised(if file.errno in {ELOOP, ENXIO, ENODEV, ENOTDIR} then NotFound else OsError(file.errno));
      }
      OneStepStaysInside(k.disk.nodes, k.disk.mine, k.fds[parent], c);
      var mode := k.Fstat(file.value);
      if mode.Err? || !mode.value.Regular? {
        k.CloseFd(file.value);
        return Raised(if mode.Err? then OsError(mode.errno)
                      else if mode.value.Directory? then IsADirectory else NotFound);
      }
      r := Done(file.value);
    }

    /** A payload around a descriptor of a regular file of the session; without one, nothing stays open. */
    method ReadFile(subPath: string, field: Option<string>) returns (r: Outcome<Payload>)
      requires k.Valid()
      modifies k`disk, k`fds, k`nextFd, k`closings, k`faults, k`home
      ensures k.Valid() && Since(old(k.faults), k.faults)
      ensures k.quiet ==> k.disk == old(k.disk)
      ensures r.Raised? ==> k.fds == old(k.fds)
      ensures r.Done? ==> r.value.fd !in old(k.fds) && r.value.fd in k.fds
      ensures r.Done? ==> k.fds == old(k.fds)[r.value.fd := k.fds[r.value.fd]]
      ensures r.Done? ==> k.fds[r.value.fd] in k.disk.mine && k.fds[r.value.fd] in k.disk.nodes
      ensures r.Done? ==> k.disk.nodes[k.fds[r.value.fd]].Regular?
      ensures r.Done? ==> Some(r.value.disposition) == ContentDisposition(AsText(Join(Target(subPath))), field)
      ensures k.quiet && r.Done? ==> Lookup(k.disk.nodes, k.root, Target(subPath)) == Some(k.fds[r.value.fd])
      ensures k.quiet && k.faults == old(k.faults) ==>
        (r.Done? <==> Target(subPath) in k.Contents() && k.Contents()[Target(subPath)].Regular?)
      ensures k.quiet && k.faults == old(k.faults) ==>
        (r == Raised(IsADirectory) <==> Target(subPath) != [] && Target(subPath) in k.Directories())
      ensures r.Raised? && k.faults == old(k.faults) ==>
        if Target(subPath) == [] then r.error == Invalid else SaysNotFound(r.error) || r.error == IsADirectory
    {
      var path := Normalise(subPath);
      if path.Raised? {
        return Raised(path.error);
      }
      var file := ReadAt(path.value);
      if file.Raised? {
        return Raised(file.error);
      }
      var text := AsText(Join(path.value));
      StringsAreScalars(Join(path.value));
      r := PreparePayload(k, file.value, text, field);
    }

    method ReadAt(path: Path) returns (r: Outcome<Fd>)
      requires k.Valid() && ProperPath(path)
      modifies k`disk, k`fds, k`nextFd, k`closings, k`faults, k`home
      ensures k.Valid() && Since(old(k.faults), k.faults)
      ensures k.quiet ==> k.disk == old(k.disk)
      ensures r.Raised? ==> k.fds == old(k.fds)
      ensures r.Done? ==> r.value !in old(k.fds) && r.value in k.fds && k.fds == old(k.fds)[r.value := k.fds[r.value]]
      ensures r.Done? ==> k.fds[r.value] in k.disk.mine && k.fds[r.value] in k.disk.nodes
      ensures r.Done? ==> k.disk.nodes[k.fds[r.value]].Regular?
      ensures k.quiet && r.Done? ==> Lookup(k.disk.nodes, k.root, path) == Some(k.fds[r.value])
      ensures k.quiet && k.faults == old(k.faults) ==>
        (r.Done? <==> path in k.Contents() && k.Contents()[path].Regular?)
      ensures k.quiet && k.faults == old(k.faults) ==> (r == Raised(IsADirectory) <==> path in k.Directories())
      ensures r.Raised? && k.faults == old(k.faults) ==> SaysNotFound(r.error) || r.error == IsADirectory
    {
      var parent := OpenParent(path, false, Open);
      if parent.Raised? {
        return Raised(parent.error);
      }
      var last := path[|path| - 1];
      assert path == Parent(path) + [last];
      if k.quiet {
        LookupNext(k.disk.nodes, k.root, Parent(path), last);
      }
      r := OpenRegular(parent.value, last);
      k.CloseFd(parent.value);
    }

    /** Unlinks whatever is not a directory, a symlink itself rather than what it leads to. */
    method DeleteFile(subPath: string) returns (r: Outcome<()>)
      requires k.Valid()
      modifies k`disk, k`fds, k`nextFd, k`closings, k`faults, k`home
      ensures k.Valid() && k.fds == old(k.fds)
      ensures k.quiet && r.Done? ==> DiscardedIn(old(k.disk.nodes), k.disk.nodes, k.root, Target(subPath))
      ensures k.quiet && r.Raised? ==> k.disk == old(k.disk)
      ensures k.quiet && k.faults == old(k.faults) ==> (r.Done? <==> Target(subPath) in old(k.Contents()))
      ensures k.quiet && r.Raised? && k.faults == old(k.faults) ==>
        if Target(subPath) == [] then r.error == Invalid
        else if Target(subPath) in old(k.Directories()) then r.error == IsADirectory else SaysNotFound(r.error)
    {
      var path := Normalise(subPath);
      if path.Raised? {
        return Raised(path.error);
      }
      r := DeleteAt(path.value);
    }

    method DeleteAt(path: Path) returns (r: Outcome<()>)
      requires k.Valid() && ProperPath(path)
      modifies k`disk, k`fds, k`nextFd, k`closings, k`faults, k`home
      ensures k.Valid() && k.fds == old(k.fds)
      ensures k.quiet && r.Done? ==> DiscardedIn(old(k.disk.nodes), k.disk.nodes, k.root, path)
      ensures k.quiet && r.Raised? ==> k.disk == old(k.disk)
      ensures k.quiet && k.faults == old(k.faults) ==> (r.Done? <==> path in old(k.Contents()))
      ensures k.quiet && r.Raised? && k.faults == old(k.faults) ==>
        if path in old(k.Directories()) then r.error == IsADirectory else SaysNotFound(r.error)
    {
      var parent := OpenParent(path, false, Open);
      if parent.Raised? {
        return Raised(parent.error);
      }
      assert path == Parent(path) + [path[|path| - 1]];
      if k.quiet {
        LookupNext(k.disk.nodes, k.root, Parent(path), path[|path| - 1]);
      }
      r := UnlinkFile(parent.value, path[|path| - 1], Parent(path));
      k.CloseFd(parent.value);
    }

    method UnlinkFile(parent: Fd, c: Component, ghost at: Path) returns (r: Outcome<()>)
      requires k.Valid() && k.Inside(parent) && Proper(c)
      requires k.quiet ==> k.OpenAt(parent, at)
      modifies k`disk, k`faults
      ensures k.Valid() && Since(old(k.faults), k.faults)
      ensures k.quiet && r.Done? ==> DiscardedIn(old(k.disk.nodes), k.disk.nodes, k.root, at + [c])
      ensures k.quiet && r.Raised? ==> k.disk == old(k.disk)
      ensures k.quiet && k.faults == old(k.faults) ==> (r.Done? <==> at + [c] in old(k.Contents()))
      ensures k.quiet && r.Raised? && k.faults == old(k.faults) ==>
        if at + [c] in old(k.Directories()) then r.error == IsADirectory else SaysNotFound(r.error)
    {
      var status := k.Stat(parent, c);
      if k.quiet {
        LookupNext(k.disk.nodes, k.root, at, c);
      }
      if status.Err? || status.value.Directory? {
        return Raised(if status.Err? then OsError(status.errno) else IsADirectory);
      }
      var unlinked := k.Unlink(parent, c, at);
      r := if unlinked.Ok? then Done(()) else Raised(OsError(unlinked.errno));
    }
  }
}
