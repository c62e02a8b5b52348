/**
  The staging block of `handle_execute`: every attachment is written beside its name first, all are
  revealed in order once the whole request is known to be good, and whatever was not revealed goes.
 */
module Uploads {
  import opened Common
  import opened Paths
  import opened Utf8
  import opened FileTree
  import opened Kernel
  import opened Streams
  import opened SessionFiles

  /** A part of the request body; None stands for a value that cannot be read or decoded. */
  datatype Part =
    | Language(value: Option<string>)
    | Code(value: Option<string>)
    | Attachment(filename: Option<string>, content: Content, temp: Component)
    | Unsupported
    | Malformed

  datatype Upload = Upload(path: Path, body: Bytes)

  // ----- what the request asks for -----

  /** The attachments among the first `n` parts. */
  function FirstUploads(parts: seq<Part>, n: nat): seq<Upload>
    requires n <= |parts|
  {
    if n == 0 then []
    else if parts[n - 1].Attachment? then FirstUploads(parts, n - 1) + [UploadOf(parts[n - 1])]
    else FirstUploads(parts, n - 1)
  }

  function UploadsOf(parts: seq<Part>): seq<Upload> {
    FirstUploads(parts, |parts|)
  }

  function UploadOf(part: Part): Upload
    requires part.Attachment?
  {
    Upload(TargetOf(part), Body(Chunks(part.content)))
  }

  function TargetOf(part: Part): Path {
    if part.Attachment? && part.filename.Some? then Target(part.filename.value) else []
  }

  /** Fields may be repeated; of the first `n` parts, the last one counts. */
  function LanguageOf(parts: seq<Part>, n: nat): Option<string>
    requires n <= |parts|
  {
    if n == 0 then None
    else if parts[n - 1].Language? then parts[n - 1].value
    else LanguageOf(parts, n - 1)
  }

  function CodeOf(parts: seq<Part>, n: nat): Option<string>
    requires n <= |parts|
  {
    if n == 0 then None
    else if parts[n - 1].Code? then parts[n - 1].value
    else CodeOf(parts, n - 1)
  }

  predicate Readable(part: Part) {
    match part
    case Language(value) => value.Some?
    case Code(value) => value.Some?
    case Attachment(filename, _, _) => filename.Some?
    case _ => false
  }

  predicate ValidLanguage(language: Option<string>, languages: set<string>) {
    language.Some? && language.value in languages
  }

  predicate ValidCode(code: Option<string>) {
    code.Some? && '\0' !in code.value
  }

  ghost predicate AllReadable(parts: seq<Part>) {
    forall i :: 0 <= i < |parts| ==> Readable(parts[i])
  }

  ghost predicate Acceptable(parts: seq<Part>, languages: set<string>) {
    AllReadable(parts) && ValidLanguage(LanguageOf(parts, |parts|), languages) && ValidCode(CodeOf(parts, |parts|))
  }

  /** In so many words: every part is of a known kind with a value, the language is known, the code has no NUL. */
  lemma AcceptableMeans(parts: seq<Part>, languages: set<string>)
    ensures var language, code := LanguageOf(parts, |parts|), CodeOf(parts, |parts|);
      Acceptable(parts, languages) <==>
        && (forall i :: 0 <= i < |parts| ==>
              || (parts[i].Language? && parts[i].value.Some?)
              || (parts[i].Code? && parts[i].value.Some?)
              || (parts[i].Attachment? && parts[i].filename.Some?))
        && language.Some? && language.value in languages
        && code.Some? && forall j :: 0 <= j < |code.value| ==> code.value[j] as int != 0
  {
  }

  /** The files once these uploads are in place, one after the other. */
  ghost function Applied(files: imap<Path, Node>, uploads: seq<Upload>): imap<Path, Node> {
    if uploads == [] then files
    else
      var last := uploads[|uploads| - 1];
      Applied(files, uploads[..|uploads| - 1])[last.path := Regular(last.body)]
  }

  /** The directories on the way to the attachments. */
  ghost function OnTheWay(parts: seq<Part>): iset<Path> {
    iset i: nat, n: nat | i < |parts| && n < |TargetOf(parts[i])| :: TargetOf(parts[i])[..n]
  }

  /** The random names are names, and none the request uses. */
  ghost predicate FreshNames(parts: seq<Part>) {
    forall i {:trigger Fresh(parts, i)} :: 0 <= i < |parts| && parts[i].Attachment? ==> Fresh(parts, i)
  }

  ghost predicate Fresh(parts: seq<Part>, i: nat)
    requires i < |parts| && parts[i].Attachment?
  {
    Proper(parts[i].temp) && Unused(parts, parts[i].temp)
  }

  ghost predicate Unused(parts: seq<Part>, name: Component) {
    forall j :: 0 <= j < |parts| ==> name !in TargetOf(parts[j])
  }

  /** A later upload to a path replaces an earlier one. */
  lemma {:induction false} LastUploadWins(files: imap<Path, Node>, uploads: seq<Upload>, i: nat)
    requires i < |uploads| && forall j :: i < j < |uploads| ==> uploads[j].path != uploads[i].path
    ensures uploads[i].path in Applied(files, uploads)
    ensures Applied(files, uploads)[uploads[i].path] == Regular(uploads[i].body)
  {
    if i < |uploads| - 1 {
      LastUploadWins(files, uploads[..|uploads| - 1], i);
    }
  }

  lemma {:induction false} OtherFilesStay(files: imap<Path, Node>, uploads: seq<Upload>, p: Path)
    requires forall j :: 0 <= j < |uploads| ==> uploads[j].path != p
    ensures p in Applied(files, uploads) <==> p in files
    ensures p in files ==> Applied(files, uploads)[p] == files[p]
  {
    if uploads != [] {
      OtherFilesStay(files, uploads[..|uploads| - 1], p);
    }
  }

  /** Of a field that is repeated, the last one counts. */
  lemma {:induction false} LastFieldCounts(parts: seq<Part>, n: nat, i: nat)
    requires i < n <= |parts|
    ensures parts[i].Language? && (forall j :: i < j < n ==> !parts[j].Language?) ==>
      LanguageOf(parts, n) == parts[i].value
    ensures parts[i].Code? && (forall j :: i < j < n ==> !parts[j].Code?) ==> CodeOf(parts, n) == parts[i].value
  {
    if i < n - 1 {
      LastFieldCounts(parts, n - 1, i);
    }
  }

  lemma {:induction false} NoFieldNoValue(parts: seq<Part>, n: nat)
    requires n <= |parts|
    ensures (forall j :: 0 <= j < n ==> !parts[j].Language?) ==> LanguageOf(parts, n) == None
    ensures (forall j :: 0 <= j < n ==> !parts[j].Code?) ==> CodeOf(parts, n) == None
  {
    if n > 0 {
      NoFieldNoValue(parts, n - 1);
    }
  }

  /** None of these parts is an attachment for the path. */
  ghost predicate NoneFor(parts: seq<Part>, m: nat, n: nat, p: Path)
    requires n <= |parts|
  {
    forall j :: m <= j < n && parts[j].Attachment? ==> TargetOf(parts[j]) != p
  }

  /** The first `n` parts leave the upload at its path. */
  ghost predicate Leaves(files: imap<Path, Node>, parts: seq<Part>, n: nat, u: Upload)
    requires n <= |parts|
  {
    var after := Applied(files, FirstUploads(parts, n));
    u.path in after && after[u.path] == Regular(u.body)
  }

  /** An attachment is what its path holds once its part is in place. */
  lemma AttachmentLands(files: imap<Path, Node>, parts: seq<Part>, i: nat, u: Upload)
    requires i < |parts| && parts[i].Attachment? && u == UploadOf(parts[i])
    ensures Leaves(files, parts, i + 1, u)
  {
    AppliedPart(files, parts, i + 1);
  }

  /** And stays so as long as no later part is for that path: of several attachments the last one wins. */
  lemma {:induction false} AttachmentStays(files: imap<Path, Node>, parts: seq<Part>, m: nat, n: nat, u: Upload)
    requires m <= n <= |parts| && Leaves(files, parts, m, u) && NoneFor(parts, m, n, u.path)
    ensures Leaves(files, parts, n, u)
    decreases n
  {
    if m < n {
      AttachmentStays(files, parts, m, n - 1, u);
      AppliedPart(files, parts, n);
    }
  }

  lemma AppliedPart(files: imap<Path, Node>, parts: seq<Part>, n: nat)
    requires 0 < n <= |parts|
    ensures var before, last := Applied(files, FirstUploads(parts, n - 1)), parts[n - 1];
      Applied(files, FirstUploads(parts, n)) ==
      if last.Attachment? then before[TargetOf(last) := Regular(Body(Chunks(last.content)))] else before
  {
    var uploads := FirstUploads(parts, n);
    if parts[n - 1].Attachment? {
      assert uploads[..|uploads| - 1] == FirstUploads(parts, n - 1);
    }
  }

  // ----- files waiting to be revealed -----

  ghost function Over(files: imap<Path, Node>, temps: map<Path, Node>): imap<Path, Node> {
    imap p: Path | p in files || p in temps :: if p in temps then temps[p] else files[p]
  }

  ghost predicate IsTemp(parts: seq<Part>, p: Path) {
    p != [] && exists i :: 0 <= i < |parts| && parts[i].Attachment? && parts[i].temp == p[|p| - 1]
  }

  /** What the walk to a staged file needs to know of it. */
  ghost predicate Walkable(s: Staged) {
    ProperPath(s.path) && Proper(s.temp) && s.temp !in s.path
  }

  /**
    The files are `files` and, under random names, `temps`; each staged file is one of these and has
    no other name.
   */
  ghost predicate Holding(nodes: Nodes, root: Ino, files: imap<Path, Node>, temps: map<Path, Node>,
                          staged: seq<Staged>, parts: seq<Part>) {
    && Files(nodes, root) == Over(files, temps)
    && (forall p <- temps :: p !in files && IsTemp(parts, p))
    && (forall j :: 0 <= j < |staged| ==>
          && staged[j].path != [] && !IsTemp(parts, staged[j].path)
          && TempPath(staged[j]) in temps && Alone(nodes, root, TempPath(staged[j])))
    && forall i, j :: 0 <= i < j < |staged| ==> TempPath(staged[i]) != TempPath(staged[j])
  }

  ghost function TempPaths(staged: seq<Staged>): set<Path>
    requires forall j :: 0 <= j < |staged| ==> staged[j].path != []
  {
    set j | 0 <= j < |staged| :: TempPath(staged[j])
  }

  lemma TargetsAreNoTemps(parts: seq<Part>, i: nat)
    requires FreshNames(parts) && i < |parts|
    ensures !IsTemp(parts, TargetOf(parts[i]))
  {
    forall j | 0 <= j < |parts| && parts[j].Attachment? ensures parts[j].temp !in TargetOf(parts[i]) {
      assert Fresh(parts, j);
    }
  }

  lemma OverChanges(files: imap<Path, Node>, temps: map<Path, Node>, p: Path, node: Node)
    ensures Over(files, temps)[p := node] == Over(files, temps[p := node])
    ensures p !in files ==> Over(files, temps) - {p} == Over(files, temps - {p})
    ensures p !in temps ==> Over(files, temps)[p := node] == Over(files[p := node], temps)
  {
  }

  lemma HoldingAnother(a: Nodes, b: Nodes, root: Ino, files: imap<Path, Node>, temps: map<Path, Node>,
                       staged: seq<Staged>, parts: seq<Part>, s: Staged, body: Bytes)
    requires Holding(a, root, files, temps, staged, parts) && s.path != [] && StagedIn(a, b, root, s, body)
    requires IsTemp(parts, TempPath(s))
    ensures Holding(b, root, files, temps[TempPath(s) := Regular(body)], staged, parts)
  {
    OverChanges(files, temps, TempPath(s), Regular(body));
    assert forall j :: 0 <= j < |staged| ==> TempPath(staged[j]) in Files(a, root);
  }

  lemma HoldingOneMore(a: Nodes, b: Nodes, root: Ino, files: imap<Path, Node>, temps: map<Path, Node>,
                       staged: seq<Staged>, parts: seq<Part>, s: Staged, body: Bytes)
    requires Holding(a, root, files, temps, staged, parts) && s.path != [] && StagedIn(a, b, root, s, body)
    requires IsTemp(parts, TempPath(s))
    requires !IsTemp(parts, s.path)
    ensures Holding(b, root, files, temps[TempPath(s) := Regular(body)], staged + [s], parts)
  {
    HoldingAnother(a, b, root, files, temps, staged, parts, s, body);
    assert forall j :: 0 <= j < |staged| ==> TempPath(staged[j]) in Files(a, root);
  }

  lemma HoldingGrew(a: Nodes, b: Nodes, root: Ino, files: imap<Path, Node>, temps: map<Path, Node>,
                    staged: seq<Staged>, parts: seq<Part>, extra: iset<Path>)
    requires Holding(a, root, files, temps, staged, parts) && OnlyGrew(a, b, root, extra)
    ensures Holding(b, root, files, temps, staged, parts)
  {
    assert forall j :: 0 <= j < |staged| ==> TempPath(staged[j]) in Files(a, root);
  }

  lemma HoldingCommitted(a: Nodes, b: Nodes, root: Ino, files: imap<Path, Node>, temps: map<Path, Node>,
                         staged: seq<Staged>, parts: seq<Part>)
    requires Holding(a, root, files, temps, staged, parts) && staged != []
    requires Moved(a, b, root, TempPath(staged[0]), staged[0].path)
    ensures Holding(b, root, files[staged[0].path := temps[TempPath(staged[0])]], temps - {TempPath(staged[0])},
                    staged[1..], parts)
  {
    OverMoves(files, temps, TempPath(staged[0]), staged[0].path);
  }

  lemma OverMoves(files: imap<Path, Node>, temps: map<Path, Node>, from: Path, to: Path)
    requires from in temps && from !in files && to !in temps
    ensures var over := Over(files, temps);
      from in over && (over - {from})[to := over[from]] == Over(files[to := temps[from]], temps - {from})
  {
    OverChanges(files, temps, from, temps[from]);
    OverChanges(files, temps - {from}, to, temps[from]);
  }

  lemma HoldingDiscarded(a: Nodes, b: Nodes, root: Ino, files: imap<Path, Node>, temps: map<Path, Node>,
                         staged: seq<Staged>, parts: seq<Part>)
    requires Holding(a, root, files, temps, staged, parts) && staged != []
    requires DiscardedIn(a, b, root, TempPath(staged[0]))
    ensures Holding(b, root, files, temps - {TempPath(staged[0])}, staged[1..], parts)
  {
  }

  // ----- the block -----

  datatype Stop = BadRequest | Failure(error: Error)

  ghost predicate FoldersGrew(before: Nodes, after: Nodes, root: Ino, extra: iset<Path>) {
    Folders(before, root) <= Folders(after, root) <= Folders(before, root) + extra
  }

  /** The staged files are the uploads, in the same order. */
  ghost predicate StagedAre(staged: seq<Staged>, uploads: seq<Upload>, temps: map<Path, Node>) {
    |staged| == |uploads| && forall j :: 0 <= j < |staged| ==>
      && staged[j].path == uploads[j].path && staged[j].path != []
      && TempPath(staged[j]) in temps && temps[TempPath(staged[j])] == Regular(uploads[j].body)
  }

  lemma StagedOneMore(staged: seq<Staged>, uploads: seq<Upload>, temps: map<Path, Node>, s: Staged, body: Bytes)
    requires StagedAre(staged, uploads, temps) && s.path != []
    requires forall j :: 0 <= j < |staged| ==> TempPath(staged[j]) != TempPath(s)
    ensures StagedAre(staged + [s], uploads + [Upload(s.path, body)], temps[TempPath(s) := Regular(body)])
  {
  }

  /** After `n` parts: what is staged, and what else has become of the tree. */
  ghost predicate Gathered(start: Nodes, nodes: Nodes, root: Ino, temps: map<Path, Node>,
                           staged: seq<Staged>, parts: seq<Part>, n: nat) {
    && n <= |parts|
    && Holding(nodes, root, Files(start, root), temps, staged, parts)
    && FoldersGrew(start, nodes, root, OnTheWay(parts))
    && temps.Keys == TempPaths(staged)
    && StagedAre(staged, FirstUploads(parts, n), temps)
    && NamedBy(staged, parts, n)
  }

  ghost predicate NamedBy(staged: seq<Staged>, parts: seq<Part>, n: nat) {
    forall j :: 0 <= j < |staged| ==> IsNameOf(parts, n, staged[j].temp)
  }

  lemma NamedByMore(staged: seq<Staged>, parts: seq<Part>, n: nat)
    requires NamedBy(staged, parts, n) && n < |parts|
    ensures NamedBy(staged, parts, n + 1)
    ensures forall s: Staged :: parts[n].Attachment? && s.temp == parts[n].temp ==> NamedBy(staged + [s], parts, n + 1)
  {
    forall j | 0 <= j < |staged| ensures IsNameOf(parts, n + 1, staged[j].temp) {
      assert IsNameOf(parts, n, staged[j].temp);
    }
    assert parts[n].Attachment? ==> IsNameOf(parts, n + 1, parts[n].temp);
  }

  /** A random name of one of the first `n` parts. */
  ghost predicate IsNameOf(parts: seq<Part>, n: nat, temp: Component) {
    exists i :: 0 <= i < n <= |parts| && parts[i].Attachment? && parts[i].temp == temp
  }

  lemma GatheredOne(start: Nodes, before: Nodes, after: Nodes, root: Ino,
                    temps: map<Path, Node>, temps': map<Path, Node>,
                    staged: seq<Staged>, parts: seq<Part>, n: nat, s: Staged)
    requires Gathered(start, before, root, temps, staged, parts, n) && n < |parts|
    requires parts[n].Attachment? && s == Staged(TargetOf(parts[n]), parts[n].temp) && s.path != []
    requires FoldersGrew(before, after, root, Above(TargetOf(parts[n])))
    requires temps' == temps[TempPath(s) := Regular(Body(Chunks(parts[n].content)))]
    requires Holding(after, root, Files(start, root), temps', staged + [s], parts)
    ensures Gathered(start, after, root, temps', staged + [s], parts, n + 1)
  {
    OnTheWayToOne(parts, n);
    forall j | 0 <= j < |staged| ensures TempPath(staged[j]) != TempPath(s) {
      assert (staged + [s])[j] == staged[j] && (staged + [s])[|staged|] == s;
    }
    StagedOneMore(staged, FirstUploads(parts, n), temps, s, Body(Chunks(parts[n].content)));
    NamedByMore(staged, parts, n);
    assert TempPaths(staged + [s]) == TempPaths(staged) + {TempPath(s)} by {
      TempPathsOneMore(staged, s);
    }
  }

  lemma OnTheWayToOne(parts: seq<Part>, n: nat)
    requires n < |parts|
    ensures Above(TargetOf(parts[n])) <= OnTheWay(parts)
  {
  }

  lemma TempPathsOneMore(staged: seq<Staged>, s: Staged)
    requires s.path != [] && forall j :: 0 <= j < |staged| ==> staged[j].path != []
    ensures TempPaths(staged + [s]) == TempPaths(staged) + {TempPath(s)}
  {
    assert forall j :: 0 <= j < |staged| ==> (staged + [s])[j] == staged[j];
    assert (staged + [s])[|staged|] == s;
  }

  lemma GatheredNone(start: Nodes, root: Ino, parts: seq<Part>)
    ensures Gathered(start, start, root, map[], [], parts, 0) && ReadSoFar(parts, 0, None, None, [])
  {
    assert Over(Files(start, root), map[]) == Files(start, root);
  }

  lemma GatheredOther(start: Nodes, nodes: Nodes, root: Ino, temps: map<Path, Node>,
                      staged: seq<Staged>, parts: seq<Part>, n: nat)
    requires Gathered(start, nodes, root, temps, staged, parts, n) && n < |parts| && !parts[n].Attachment?
    ensures Gathered(start, nodes, root, temps, staged, parts, n + 1)
  {
    NamedByMore(staged, parts, n);
  }

  /** Nothing in the tree, in the bodies or among the attachments themselves is in the way of any of them. */
  ghost predicate Placeable(nodes: Nodes, root: Ino, parts: seq<Part>, max: nat) {
    forall i {:trigger PlaceableAt(nodes, root, parts, max, i)} :: 0 <= i < |parts| && parts[i].Attachment? ==>
      PlaceableAt(nodes, root, parts, max, i)
  }

  ghost predicate PlaceableAt(nodes: Nodes, root: Ino, parts: seq<Part>, max: nat, i: nat)
    requires i < |parts| && parts[i].Attachment?
  {
    && Stageable(nodes, root, TargetOf(parts[i]), parts[i].content, parts[i].temp, max)
    && TargetOf(parts[i]) !in Folders(nodes, root) && TargetOf(parts[i]) !in OnTheWay(parts)
    && !IsNameOf(parts, i, parts[i].temp)
  }

  lemma NoTempOnTheWay(parts: seq<Part>, p: Path)
    requires FreshNames(parts) && p in OnTheWay(parts)
    ensures !IsTemp(parts, p)
  {
    var i: nat, n: nat :| i < |parts| && n < |TargetOf(parts[i])| && p == TargetOf(parts[i])[..n];
    forall j | 0 <= j < |parts| && parts[j].Attachment? ensures parts[j].temp !in TargetOf(parts[i]) {
      assert Fresh(parts, j);
    }
  }

  lemma StillUnblocked(start: Nodes, nodes: Nodes, root: Ino, temps: map<Path, Node>,
                       parts: seq<Part>, path: Path)
    requires Files(nodes, root) == Over(Files(start, root), temps) && !Blocked(start, root, path)
    requires forall p <- temps :: IsTemp(parts, p)
    requires FreshNames(parts) && Above(path) <= OnTheWay(parts)
    ensures !Blocked(nodes, root, path)
  {
    forall i: nat | i < |path| ensures path[..i] !in Files(nodes, root) {
      assert path[..i] in Above(path);
      NoTempOnTheWay(parts, path[..i]);
    }
  }

  lemma StillFree(staged: seq<Staged>, parts: seq<Part>, n: nat, s: Staged)
    requires n < |parts| && parts[n].Attachment? && s.temp == parts[n].temp && s.path != []
    requires NamedBy(staged, parts, n) && forall j :: 0 <= j < |staged| ==> staged[j].path != []
    requires !IsNameOf(parts, n, s.temp) && FreshNames(parts)
    ensures TempPath(s) !in TempPaths(staged) && TempPath(s) !in OnTheWay(parts)
  {
    forall j | 0 <= j < |staged| ensures TempPath(staged[j]) != TempPath(s) {
      assert IsNameOf(parts, n, staged[j].temp);
      assert TempPath(staged[j])[|TempPath(staged[j])| - 1] == staged[j].temp;
    }
    assert IsTemp(parts, TempPath(s));
    if TempPath(s) in OnTheWay(parts) {
      NoTempOnTheWay(parts, TempPath(s));
    }
  }

  /** What earlier attachments did is not in the way of the next one either. */
  lemma StillStageable(start: Nodes, nodes: Nodes, root: Ino, temps: map<Path, Node>,
                       staged: seq<Staged>, parts: seq<Part>, n: nat, max: nat)
    requires Gathered(start, nodes, root, temps, staged, parts, n) && n < |parts| && FreshNames(parts)
    requires parts[n].Attachment? && !IsNameOf(parts, n, parts[n].temp)
    requires Stageable(start, root, TargetOf(parts[n]), parts[n].content, parts[n].temp, max)
    ensures Stageable(nodes, root, TargetOf(parts[n]), parts[n].content, parts[n].temp, max)
  {
    OnTheWayToOne(parts, n);
    StillUnblocked(start, nodes, root, temps, parts, TargetOf(parts[n]));
    StillFree(staged, parts, n, Staged(TargetOf(parts[n]), parts[n].temp));
  }

  /** Nothing more is staged; what is and, if there was trouble, perhaps one more file is in the tree. */
  ghost predicate Stuck(start: Nodes, nodes: Nodes, root: Ino, temps: map<Path, Node>, staged: seq<Staged>,
                        parts: seq<Part>) {
    && Holding(nodes, root, Files(start, root), temps, staged, parts)
    && FoldersGrew(start, nodes, root, OnTheWay(parts))
  }

  /** Every hidden file is a staged one. */
  ghost predicate Tidy(temps: map<Path, Node>, staged: seq<Staged>) {
    (forall j :: 0 <= j < |staged| ==> staged[j].path != []) && temps.Keys == TempPaths(staged)
  }

  /** Staging the attachment that comes next. */
  method StageOne(session: Session, parts: seq<Part>, n: nat, staged: seq<Staged>,
                  ghost start: Nodes, ghost temps: map<Path, Node>)
    returns (r: Outcome<Path>, ghost temps': map<Path, Node>)
    requires session.k.Valid() && FreshNames(parts) && n < |parts| && parts[n].Attachment? && parts[n].filename.Some?
    requires session.k.quiet ==> Gathered(start, session.k.disk.nodes, session.k.root, temps, staged, parts, n)
    modifies session.k
    ensures session.k.Sharing() == old(session.k.Sharing()) ==> session.k.twiceOwned == old(session.k.twiceOwned)
    ensures session.k.Valid() && session.k.fds == old(session.k.fds)
    ensures Since(old(session.k.faults), session.k.faults)
    ensures r.Done? ==> session.k.Trouble() == old(session.k.Trouble())
    ensures r.Done? ==> session.k.twiceOwned == old(session.k.twiceOwned)
    ensures r.Done? ==> Walkable(Staged(r.value, parts[n].temp))
    ensures session.k.quiet && r.Done? ==>
      Gathered(start, session.k.disk.nodes, session.k.root, temps', staged + [Staged(r.value, parts[n].temp)],
               parts, n + 1)
    ensures session.k.quiet && r.Raised? ==> Stuck(start, session.k.disk.nodes, session.k.root, temps', staged, parts)
    ensures session.k.quiet && r.Raised? && session.k.Trouble() == old(session.k.Trouble()) ==> Tidy(temps', staged)
    ensures session.k.quiet && r.Raised? && session.k.faults == old(session.k.faults) ==>
      !Placeable(start, session.k.root, parts, session.maxFileSize)
  {
    assert Fresh(parts, n);
    var k, temp, path := session.k, parts[n].temp, TargetOf(parts[n]);
    ghost var before, files := k.disk.nodes, Files(start, k.root);
    r := session.StageFile(parts[n].filename.value, parts[n].content, temp);
    temps' := temps;
    TargetsAreNoTemps(parts, n);
    OnTheWayToOne(parts, n);
    if k.quiet {
      ghost var s := Staged(path, temp);
      if Placeable(start, k.root, parts, session.maxFileSize) {
        assert PlaceableAt(start, k.root, parts, session.maxFileSize, n);
        StillStageable(start, before, k.root, temps, staged, parts, n, session.maxFileSize);
      }
      if r.Done? {
        ghost var body := Body(Chunks(parts[n].content));
        temps' := temps[TempPath(s) := Regular(body)];
        HoldingOneMore(before, k.disk.nodes, k.root, files, temps, staged, parts, s, body);
        GatheredOne(start, before, k.disk.nodes, k.root, temps, temps', staged, parts, n, s);
      } else if OnlyGrew(before, k.disk.nodes, k.root, Above(path)) {
        HoldingGrew(before, k.disk.nodes, k.root, files, temps, staged, parts, Above(path));
      } else {
        ghost var body: Bytes :| StagedIn(before, k.disk.nodes, k.root, s, body);
        temps' := temps[TempPath(s) := Regular(body)];
        HoldingAnother(before, k.disk.nodes, k.root, files, temps, staged, parts, s, body);
      }
    }
  }

  /** After `n` parts: what was read of them, and that every attachment among them is staged. */
  ghost predicate ReadSoFar(parts: seq<Part>, n: nat, language: Option<string>, code: Option<string>,
                            staged: seq<Staged>) {
    && n <= |parts| && (forall i :: 0 <= i < n ==> Readable(parts[i]))
    && language == LanguageOf(parts, n) && code == CodeOf(parts, n) && |staged| == |FirstUploads(parts, n)|
    && forall j :: 0 <= j < |staged| ==> Walkable(staged[j])
  }

  lemma ReadOneMore(parts: seq<Part>, n: nat, language: Option<string>, code: Option<string>, staged: seq<Staged>)
    requires ReadSoFar(parts, n, language, code, staged) && n < |parts| && Readable(parts[n])
    ensures parts[n].Language? ==> ReadSoFar(parts, n + 1, parts[n].value, code, staged)
    ensures parts[n].Code? ==> ReadSoFar(parts, n + 1, language, parts[n].value, staged)
  {
    MoreUploads(parts, n);
  }

  lemma ReadAnother(parts: seq<Part>, n: nat, language: Option<string>, code: Option<string>, staged: seq<Staged>,
                    s: Staged)
    requires ReadSoFar(parts, n, language, code, staged) && n < |parts| && Readable(parts[n])
    requires parts[n].Attachment? && Walkable(s)
    ensures ReadSoFar(parts, n + 1, language, code, staged + [s])
  {
    MoreUploads(parts, n);
  }

  lemma MoreUploads(parts: seq<Part>, n: nat)
    requires n < |parts|
    ensures |FirstUploads(parts, n + 1)| == |FirstUploads(parts, n)| + if parts[n].Attachment? then 1 else 0
  {
  }

  /** What the loop over the parts keeps. */
  ghost predicate Carried(quiet: bool, start: Nodes, nodes: Nodes, root: Ino, temps: map<Path, Node>, parts: seq<Part>,
                          n: nat, language: Option<string>, code: Option<string>, staged: seq<Staged>) {
    && ReadSoFar(parts, n, language, code, staged)
    && (quiet ==> Gathered(start, nodes, root, temps, staged, parts, n))
  }

  lemma CarriedFromStart(quiet: bool, start: Nodes, root: Ino, parts: seq<Part>)
    ensures Carried(quiet, start, start, root, map[], parts, 0, None, None, [])
  {
    GatheredNone(start, root, parts);
  }

  /** One part, whatever it is. */
  method TakePart(session: Session, parts: seq<Part>, n: nat, language: Option<string>, code: Option<string>,
                  staged: seq<Staged>, ghost start: Nodes, ghost before: Faults, ghost temps: map<Path, Node>)
    returns (stop: Option<Stop>, language': Option<string>, code': Option<string>, staged': seq<Staged>,
             ghost temps': map<Path, Node>)
    requires session.k.Valid() && FreshNames(parts) && n < |parts|
    requires Since(before, session.k.faults) && session.k.Trouble() == before.undoing
    requires Carried(session.k.quiet, start, session.k.disk.nodes, session.k.root, temps, parts, n, language, code,
                     staged)
    modifies session.k
    ensures session.k.Sharing() == old(session.k.Sharing()) ==> session.k.twiceOwned == old(session.k.twiceOwned)
    ensures session.k.Valid() && session.k.fds == old(session.k.fds)
    ensures Since(old(session.k.faults), session.k.faults) && Since(before, session.k.faults)
    ensures stop.None? ==> session.k.Trouble() == before.undoing
    ensures stop.None? ==> session.k.twiceOwned == old(session.k.twiceOwned)
    ensures stop.None? ==>
      Carried(session.k.quiet, start, session.k.disk.nodes, session.k.root, temps', parts, n + 1,
              language', code', staged')
    ensures forall j :: 0 <= j < |staged'| ==> Walkable(staged'[j])
    ensures session.k.quiet && stop.Some? ==> Stuck(start, session.k.disk.nodes, session.k.root, temps', staged', parts)
    ensures session.k.quiet && stop.Some? && session.k.Trouble() == before.undoing ==> Tidy(temps', staged')
    ensures stop == Some(BadRequest) <==> !Readable(parts[n])
    ensures stop.Some? && stop.value.Failure? && session.k.quiet && session.k.faults == before ==>
      !Placeable(start, session.k.root, parts, session.maxFileSize)
  {
    var part := parts[n];
    stop, language', code', staged', temps' := None, language, code, staged, temps;
    if !Readable(part) {
      return Some(BadRequest), language, code, staged, temps;
    }
    ReadOneMore(parts, n, language, code, staged);
    if part.Attachment? {
      var one;
      one, temps' := StageOne(session, parts, n, staged, start, temps);
      if one.Raised? {
        return Some(Failure(one.error)), language, code, staged, temps';
      }
      ReadAnother(parts, n, language, code, staged, Staged(one.value, part.temp));
      staged' := staged + [Staged(one.value, part.temp)];
    } else {
      if session.k.quiet {
        GatheredOther(start, session.k.disk.nodes, session.k.root, temps, staged, parts, n);
      }
      if part.Language? {
        language' := part.value;
      } else {
        code' := part.value;
      }
    }
  }

  /** The loop over the parts, up to its end or to the first thing that stops it. */
  method StageAll(session: Session, parts: seq<Part>)
    returns (stop: Option<Stop>, language: Option<string>, code: Option<string>, staged: seq<Staged>,
             ghost temps: map<Path, Node>)
    requires session.k.Valid() && FreshNames(parts)
    modifies session.k
    ensures session.k.Sharing() == old(session.k.Sharing()) ==> session.k.twiceOwned == old(session.k.twiceOwned)
    ensures session.k.Valid() && session.k.fds == old(session.k.fds)
    ensures Since(old(session.k.faults), session.k.faults)
    ensures stop.None? ==> session.k.Trouble() == old(session.k.Trouble())
    ensures stop.None? ==> session.k.twiceOwned == old(session.k.twiceOwned)
    ensures stop.None? ==>
      Carried(session.k.quiet, old(session.k.disk.nodes), session.k.disk.nodes, session.k.root, temps, parts, |parts|,
              language, code, staged)
    ensures forall j :: 0 <= j < |staged| ==> Walkable(staged[j])
    ensures session.k.quiet && stop.Some? ==>
      Stuck(old(session.k.disk.nodes), session.k.disk.nodes, session.k.root, temps, staged, parts)
    ensures session.k.quiet && stop.Some? && session.k.Trouble() == old(session.k.Trouble()) ==> Tidy(temps, staged)
    ensures stop == Some(BadRequest) ==> !AllReadable(parts)
    ensures stop.Some? && stop.value.Failure? && session.k.quiet && session.k.faults == old(session.k.faults) ==>
      !Placeable(old(session.k.disk.nodes), session.k.root, parts, session.maxFileSize)
  {
    var k := session.k;
    ghost var start, before := k.disk.nodes, k.faults;
    stop, language, code, staged, temps := None, None, None, [], map[];
    var n := 0;
    CarriedFromStart(k.quiet, start, k.root, parts);
    while n < |parts|
      invariant 0 <= n <= |parts| && stop.None?
      invariant Since(before, k.faults) && k.Trouble() == before.undoing
      invariant k.Valid() && k.fds == old(k.fds) && k.twiceOwned == old(k.twiceOwned)
      invariant forall j :: 0 <= j < |staged| ==> Walkable(staged[j])
      invariant Carried(k.quiet, start, k.disk.nodes, k.root, temps, parts, n, language, code, staged)
    {
      stop, language, code, staged, temps := TakePart(session, parts, n, language, code, staged, start, before, temps);
      n := n + 1;
      if stop.Some? {
        break;
      }
    }
  }

  lemma AppliedOneMore(files: imap<Path, Node>, uploads: seq<Upload>, n: nat)
    requires n < |uploads|
    ensures Applied(files, uploads[..n + 1]) ==
      Applied(files, uploads[..n])[uploads[n].path := Regular(uploads[n].body)]
  {
    assert uploads[..n + 1][..n] == uploads[..n];
  }

  /** The first `done` uploads are in place; the others are waiting. */
  ghost predicate Revealing(nodes: Nodes, root: Ino, files: imap<Path, Node>, temps: map<Path, Node>,
                            waiting: seq<Staged>, parts: seq<Part>, uploads: seq<Upload>, done: nat) {
    && done <= |uploads|
    && Holding(nodes, root, Applied(files, uploads[..done]), temps, waiting, parts)
    && StagedAre(waiting, uploads[done..], temps)
    && temps.Keys == TempPaths(waiting)
  }

  lemma RevealingOne(a: Nodes, b: Nodes, root: Ino, files: imap<Path, Node>, temps: map<Path, Node>,
                     waiting: seq<Staged>, parts: seq<Part>, uploads: seq<Upload>, done: nat)
    requires Revealing(a, root, files, temps, waiting, parts, uploads, done) && waiting != []
    requires Moved(a, b, root, TempPath(waiting[0]), waiting[0].path)
    ensures Revealing(b, root, files, temps - {TempPath(waiting[0])}, waiting[1..], parts, uploads, done + 1)
  {
    HoldingCommitted(a, b, root, Applied(files, uploads[..done]), temps, waiting, parts);
    AppliedOneMore(files, uploads, done);
    TempPathsWithoutFirst(waiting);
    StagedAreRest(waiting, uploads[done..], temps);
    assert uploads[done..][1..] == uploads[done + 1..];
  }

  lemma StagedAreRest(staged: seq<Staged>, uploads: seq<Upload>, temps: map<Path, Node>)
    requires staged != [] && StagedAre(staged, uploads, temps)
    requires forall i, j :: 0 <= i < j < |staged| ==> TempPath(staged[i]) != TempPath(staged[j])
    ensures StagedAre(staged[1..], uploads[1..], temps - {TempPath(staged[0])})
  {
  }

  lemma TempPathsWithoutFirst(staged: seq<Staged>)
    requires staged != [] && forall j :: 0 <= j < |staged| ==> staged[j].path != []
    requires forall i, j :: 0 <= i < j < |staged| ==> TempPath(staged[i]) != TempPath(staged[j])
    ensures TempPaths(staged[1..]) == TempPaths(staged) - {TempPath(staged[0])}
  {
    forall j | 0 <= j < |staged| ensures j > 0 ==> TempPath(staged[j]) in TempPaths(staged[1..]) {
      assert j > 0 ==> staged[1..][j - 1] == staged[j];
    }
  }

  method CommitOne(session: Session, waiting: seq<Staged>, ghost parts: seq<Part>, ghost uploads: seq<Upload>,
                   ghost files: imap<Path, Node>, ghost temps: map<Path, Node>, ghost done: nat)
    returns (r: Outcome<()>)
    requires session.k.Valid() && waiting != [] && Walkable(waiting[0])
    requires session.k.quiet ==>
      Revealing(session.k.disk.nodes, session.k.root, files, temps, waiting, parts, uploads, done)
    modifies session.k`disk, session.k`fds, session.k`nextFd, session.k`closings, session.k`faults, session.k`home
    ensures session.k.Valid() && session.k.fds == old(session.k.fds)
    ensures Since(old(session.k.faults), session.k.faults) && (r.Done? ==> session.k.faults == old(session.k.faults))
    ensures session.k.quiet && r.Done? ==>
      Revealing(session.k.disk.nodes, session.k.root, files, temps - {TempPath(waiting[0])}, waiting[1..],
                parts, uploads, done + 1)
    ensures session.k.quiet && r.Raised? ==>
      Revealing(session.k.disk.nodes, session.k.root, files, temps, waiting, parts, uploads, done)
    ensures session.k.quiet && r.Raised? ==>
      session.k.faults != old(session.k.faults) || waiting[0].path in session.k.Directories()
    ensures session.k.quiet ==> session.k.Directories() == old(session.k.Directories())
  {
    var k := session.k;
    ghost var before := k.disk.nodes;
    r := session.CommitStagedFile(waiting[0]);
    if k.quiet && r.Done? {
      RevealingOne(before, k.disk.nodes, k.root, files, temps, waiting, parts, uploads, done);
    }
  }

  lemma GatheredIsRevealing(start: Nodes, nodes: Nodes, root: Ino, temps: map<Path, Node>,
                            staged: seq<Staged>, parts: seq<Part>)
    requires Gathered(start, nodes, root, temps, staged, parts, |parts|)
    ensures Revealing(nodes, root, Files(start, root), temps, staged, parts, UploadsOf(parts), 0)
    ensures Tidy(temps, staged) && FoldersGrew(start, nodes, root, OnTheWay(parts))
  {
    assert UploadsOf(parts)[0..] == UploadsOf(parts);
    assert UploadsOf(parts)[..0] == [];
  }

  /** The loop that reveals the staged files in order, up to the first that cannot be. */
  method CommitAll(session: Session, staged: seq<Staged>, ghost parts: seq<Part>, ghost uploads: seq<Upload>,
                   ghost files: imap<Path, Node>, ghost temps: map<Path, Node>)
    returns (stop: Option<Stop>, waiting: seq<Staged>, ghost temps': map<Path, Node>, ghost done: nat)
    requires session.k.Valid() && forall j :: 0 <= j < |staged| ==> Walkable(staged[j])
    requires session.k.quiet ==>
      Revealing(session.k.disk.nodes, session.k.root, files, temps, staged, parts, uploads, 0)
    modifies session.k`disk, session.k`fds, session.k`nextFd, session.k`closings, session.k`faults, session.k`home
    ensures session.k.Valid() && session.k.fds == old(session.k.fds)
    ensures Since(old(session.k.faults), session.k.faults)
    ensures done <= |staged| && waiting == staged[done..] && (stop.None? <==> waiting == [])
    ensures session.k.quiet ==>
      Revealing(session.k.disk.nodes, session.k.root, files, temps', waiting, parts, uploads, done)
    ensures session.k.quiet ==> session.k.Directories() == old(session.k.Directories())
    ensures session.k.quiet && stop.Some? ==>
      session.k.faults != old(session.k.faults) || waiting[0].path in session.k.Directories()
    ensures stop.Some? ==> stop.value.Failure?
  {
    var k := session.k;
    stop, waiting, temps', done := None, staged, temps, 0;
    while waiting != []
      invariant k.Valid() && k.fds == old(k.fds) && k.faults == old(k.faults)
      invariant done <= |staged| && waiting == staged[done..]
      invariant k.quiet ==> Revealing(k.disk.nodes, k.root, files, temps', waiting, parts, uploads, done)
      invariant k.quiet ==> k.Directories() == old(k.Directories())
      decreases |waiting|
    {
      assert waiting[0] == staged[done];
      var committed := CommitOne(session, waiting, parts, uploads, files, temps', done);
      if committed.Raised? {
        return Some(Failure(committed.error)), waiting, temps', done;
      }
      temps' := temps' - {TempPath(waiting[0])};
      waiting, done := waiting[1..], done + 1;
    }
  }

  method DiscardOne(session: Session, rest: seq<Staged>, ghost parts: seq<Part>,
                    ghost files: imap<Path, Node>, ghost temps: map<Path, Node>)
    returns (ghost lost: map<Path, Node>)
    requires session.k.Valid() && rest != [] && Walkable(rest[0])
    requires session.k.quiet ==> Holding(session.k.disk.nodes, session.k.root, files, temps, rest, parts)
    modifies session.k`disk, session.k`fds, session.k`nextFd, session.k`closings, session.k`faults, session.k`home
    ensures session.k.Valid() && session.k.fds == old(session.k.fds)
    ensures Since(old(session.k.faults), session.k.faults)
    ensures session.k.quiet ==> Holding(session.k.disk.nodes, session.k.root, files, lost, rest[1..], parts)
    ensures session.k.quiet ==> session.k.Directories() == old(session.k.Directories())
    ensures session.k.quiet && temps.Keys == TempPaths(rest) && session.k.Trouble() == old(session.k.Trouble()) ==>
      lost.Keys == TempPaths(rest[1..])
  {
    var k := session.k;
    lost := temps;
    ghost var before := k.disk.nodes;
    var discarded := session.DiscardStagedFile(rest[0]);
    if k.quiet {
      TempPathsWithoutFirst(rest);
      if discarded.Done? && DiscardedIn(before, k.disk.nodes, k.root, TempPath(rest[0])) {
        HoldingDiscarded(before, k.disk.nodes, k.root, files, temps, rest, parts);
        lost := temps - {TempPath(rest[0])};
      }
    }
  }

  /** The `finally`: whatever is still waiting goes, and what cannot be removed stops nothing else. */
  method DiscardAll(session: Session, staged: seq<Staged>, ghost parts: seq<Part>,
                    ghost files: imap<Path, Node>, ghost temps: map<Path, Node>)
    returns (ghost lost: map<Path, Node>)
    requires session.k.Valid() && forall j :: 0 <= j < |staged| ==> Walkable(staged[j])
    requires session.k.quiet ==> Holding(session.k.disk.nodes, session.k.root, files, temps, staged, parts)
    modifies session.k`disk, session.k`fds, session.k`nextFd, session.k`closings, session.k`faults, session.k`home
    ensures session.k.Valid() && session.k.fds == old(session.k.fds)
    ensures Since(old(session.k.faults), session.k.faults)
    ensures session.k.quiet ==> Holding(session.k.disk.nodes, session.k.root, files, lost, [], parts)
    ensures session.k.quiet ==> session.k.Directories() == old(session.k.Directories())
    ensures session.k.quiet && temps.Keys == TempPaths(staged) && session.k.Trouble() == old(session.k.Trouble()) ==>
      lost.Keys == {}
  {
    var k := session.k;
    lost := temps;
    var rest := staged;
    while rest != []
      invariant forall j :: 0 <= j < |rest| ==> Walkable(rest[j])
      invariant k.Valid() && k.fds == old(k.fds) && Since(old(k.faults), k.faults)
      invariant k.quiet ==> Holding(k.disk.nodes, k.root, files, lost, rest, parts)
      invariant k.quiet ==> k.Directories() == old(k.Directories())
      invariant k.quiet && temps.Keys == TempPaths(staged) && k.Trouble() == old(k.Trouble()) ==>
        lost.Keys == TempPaths(rest)
      decreases |rest|
    {
      ghost var trouble := k.Trouble();
      lost := DiscardOne(session, rest, parts, files, lost);
      assert old(k.Trouble()) <= trouble <= k.Trouble();
      rest := rest[1..];
    }
    assert TempPaths(rest) == {};
  }

  datatype Prepared = Ready(language: string, code: string) | Refused(stop: Stop)

  /** Every upload is for the target of some attachment. */
  lemma {:induction false} UploadIsTarget(parts: seq<Part>, n: nat, j: nat)
    requires n <= |parts| && j < |FirstUploads(parts, n)|
    ensures exists i :: 0 <= i < n && parts[i].Attachment? && FirstUploads(parts, n)[j].path == TargetOf(parts[i])
  {
    if j < |FirstUploads(parts, n - 1)| {
      UploadIsTarget(parts, n - 1, j);
    } else {
      assert parts[n - 1].Attachment?;
    }
  }

  /** Nothing placeable is a directory once the others are staged. */
  lemma DirectoryInTheWay(start: Nodes, nodes: Nodes, root: Ino, parts: seq<Part>, max: nat, j: nat)
    requires FoldersGrew(start, nodes, root, OnTheWay(parts)) && j < |UploadsOf(parts)|
    ensures UploadsOf(parts)[j].path in Folders(nodes, root) ==> !Placeable(start, root, parts, max)
  {
    UploadIsTarget(parts, |parts|, j);
    var i :| 0 <= i < |parts| && parts[i].Attachment? && FirstUploads(parts, |parts|)[j].path == TargetOf(parts[i]);
    assert Placeable(start, root, parts, max) ==> PlaceableAt(start, root, parts, max, i);
  }

  /** The first `done` uploads are in place, and what is waiting, or could not be undone, is hidden. */
  ghost predicate Partly(start: Nodes, nodes: Nodes, root: Ino, temps: map<Path, Node>, waiting: seq<Staged>,
                         parts: seq<Part>, done: nat) {
    && done <= |UploadsOf(parts)|
    && Holding(nodes, root, Applied(Files(start, root), UploadsOf(parts)[..done]), temps, waiting, parts)
    && FoldersGrew(start, nodes, root, OnTheWay(parts))
  }

  lemma StuckIsPartly(start: Nodes, nodes: Nodes, root: Ino, temps: map<Path, Node>, staged: seq<Staged>,
                      parts: seq<Part>)
    requires Stuck(start, nodes, root, temps, staged, parts)
    ensures Partly(start, nodes, root, temps, staged, parts, 0)
  {
    assert UploadsOf(parts)[..0] == [];
  }

  lemma RevealingIsPartly(start: Nodes, before: Nodes, nodes: Nodes, root: Ino, temps: map<Path, Node>,
                          waiting: seq<Staged>, parts: seq<Part>, done: nat)
    requires Revealing(nodes, root, Files(start, root), temps, waiting, parts, UploadsOf(parts), done)
    requires FoldersGrew(start, before, root, OnTheWay(parts)) && Folders(nodes, root) == Folders(before, root)
    ensures Partly(start, nodes, root, temps, waiting, parts, done) && Tidy(temps, waiting)
  {
  }

  /** What comes after the parts: both validators, and if they pass the loop that reveals. */
  method CommitIfValid(session: Session, parts: seq<Part>, languages: set<string>, language: Option<string>,
                       code: Option<string>, staged: seq<Staged>, ghost start: Nodes, ghost temps: map<Path, Node>)
    returns (stop: Option<Stop>, waiting: seq<Staged>, ghost temps': map<Path, Node>, ghost done: nat)
    requires session.k.Valid()
    requires Carried(session.k.quiet, start, session.k.disk.nodes, session.k.root, temps, parts, |parts|,
                     language, code, staged)
    modifies session.k`disk, session.k`fds, session.k`nextFd, session.k`closings, session.k`faults, session.k`home
    ensures session.k.Valid() && session.k.fds == old(session.k.fds)
    ensures Since(old(session.k.faults), session.k.faults) && forall j :: 0 <= j < |waiting| ==> Walkable(waiting[j])
    ensures done <= |UploadsOf(parts)| && (done > 0 || stop.None? ==> Acceptable(parts, languages))
    ensures stop.None? ==> done == |UploadsOf(parts)|
    ensures language == LanguageOf(parts, |parts|) && code == CodeOf(parts, |parts|)
    ensures session.k.quiet ==>
      Partly(start, session.k.disk.nodes, session.k.root, temps', waiting, parts, done) && Tidy(temps', waiting)
    ensures session.k.quiet && session.k.faults == old(session.k.faults) && stop.Some? ==>
      !Acceptable(parts, languages) || !Placeable(start, session.k.root, parts, session.maxFileSize)
    ensures stop == Some(BadRequest) <==> !ValidLanguage(language, languages) || !ValidCode(code)
    ensures stop.Some? && stop.value.Failure? && session.k.quiet && session.k.faults == old(session.k.faults) ==>
      !Placeable(start, session.k.root, parts, session.maxFileSize)
  {
    var k := session.k;
    ghost var before := k.disk.nodes;
    if k.quiet {
      GatheredIsRevealing(start, before, k.root, temps, staged, parts);
    }
    stop, waiting, temps', done := Some(BadRequest), staged, temps, 0;
    if ValidLanguage(language, languages) && ValidCode(code) {
      stop, waiting, temps', done := CommitAll(session, staged, parts, UploadsOf(parts), Files(start, k.root), temps);
    }
    if k.quiet {
      RevealingIsPartly(start, before, k.disk.nodes, k.root, temps', waiting, parts, done);
      if done < |UploadsOf(parts)| {
        DirectoryInTheWay(start, k.disk.nodes, k.root, parts, session.maxFileSize, done);
      }
    }
  }

  /** The block up to its `finally`. */
  method StageAndCommit(session: Session, parts: seq<Part>, languages: set<string>)
    returns (stop: Option<Stop>, language: Option<string>, code: Option<string>, waiting: seq<Staged>,
             ghost temps: map<Path, Node>, ghost done: nat)
    requires session.k.Valid() && FreshNames(parts)
    modifies session.k
    ensures session.k.Sharing() == old(session.k.Sharing()) ==> session.k.twiceOwned == old(session.k.twiceOwned)
    ensures session.k.Valid() && session.k.fds == old(session.k.fds)
    ensures Since(old(session.k.faults), session.k.faults) && forall j :: 0 <= j < |waiting| ==> Walkable(waiting[j])
    ensures done <= |UploadsOf(parts)| && (done > 0 || stop.None? ==> Acceptable(parts, languages))
    ensures stop.None? ==>
      && done == |UploadsOf(parts)| && language == LanguageOf(parts, |parts|)
      && code == CodeOf(parts, |parts|)
    ensures session.k.quiet ==>
      Partly(old(session.k.disk.nodes), session.k.disk.nodes, session.k.root, temps, waiting, parts, done)
    ensures session.k.quiet && session.k.Trouble() == old(session.k.Trouble()) ==> Tidy(temps, waiting)
    ensures session.k.quiet && session.k.faults == old(session.k.faults) && stop.Some? ==>
      !Acceptable(parts, languages)
      || !Placeable(old(session.k.disk.nodes), session.k.root, parts, session.maxFileSize)
    ensures stop == Some(BadRequest) ==> !Acceptable(parts, languages)
    ensures stop.Some? && stop.value.Failure? && session.k.quiet && session.k.faults == old(session.k.faults) ==>
      !Placeable(old(session.k.disk.nodes), session.k.root, parts, session.maxFileSize)
  {
    var k := session.k;
    ghost var start := k.disk.nodes;
    done := 0;
    stop, language, code, waiting, temps := StageAll(session, parts);
    if stop.Some? {
      if k.quiet {
        StuckIsPartly(start, k.disk.nodes, k.root, temps, waiting, parts);
      }
      return;
    }
    stop, waiting, temps, done := CommitIfValid(session, parts, languages, language, code, waiting, start, temps);
  }

  /** The block with its `finally`. */
  method StageAndDiscard(session: Session, parts: seq<Part>, languages: set<string>)
    returns (r: Prepared, ghost done: nat, ghost lost: map<Path, Node>)
    requires session.k.Valid() && FreshNames(parts)
    modifies session.k
    ensures session.k.Sharing() == old(session.k.Sharing()) ==> session.k.twiceOwned == old(session.k.twiceOwned)
    ensures session.k.Valid() && session.k.fds == old(session.k.fds)
    ensures done <= |UploadsOf(parts)| && (done > 0 || r.Ready? ==> Acceptable(parts, languages))
    ensures r.Ready? ==> done == |UploadsOf(parts)|
    ensures r.Ready? ==> Some(r.language) == LanguageOf(parts, |parts|) && Some(r.code) == CodeOf(parts, |parts|)
    ensures session.k.quiet ==>
      Holding(session.k.disk.nodes, session.k.root, Applied(old(session.k.Contents()), UploadsOf(parts)[..done]),
              lost, [], parts)
    ensures session.k.quiet && session.k.Trouble() == old(session.k.Trouble()) ==> lost.Keys == {}
    ensures session.k.quiet ==>
      FoldersGrew(old(session.k.disk.nodes), session.k.disk.nodes, session.k.root, OnTheWay(parts))
    ensures session.k.quiet && session.k.faults == old(session.k.faults)
      && old(Placeable(session.k.disk.nodes, session.k.root, parts, session.maxFileSize))
      ==> if Acceptable(parts, languages) then r.Ready? else r == Refused(BadRequest)
    ensures r == Refused(BadRequest) ==> !Acceptable(parts, languages)
  {
    ghost var files := session.k.Contents();
    var stop, language, code, staged;
    ghost var temps;
    stop, language, code, staged, temps, done := StageAndCommit(session, parts, languages);
    lost := DiscardAll(session, staged, parts, Applied(files, UploadsOf(parts)[..done]), temps);
    r := if stop.None? then Ready(language.value, code.value) else Refused(stop.value);
  }

  /**
    However the block ends, the files are the old ones with the first `done` uploads applied in order;
    none is unless the whole request was acceptable, all are if it goes on to run the code. Random
    names are left over only if a call made to remove them failed of itself, and a descriptor is closed
    twice only if the task was cancelled while a thread wrapped it.
   */
  method StageAttachments(session: Session, parts: seq<Part>, languages: set<string>)
    returns (r: Prepared, ghost done: nat, ghost lost: map<Path, Node>)
    requires session.k.Valid() && FreshNames(parts)
    modifies session.k
    ensures session.k.Sharing() == old(session.k.Sharing()) ==> session.k.twiceOwned == old(session.k.twiceOwned)
    ensures session.k.Valid() && session.k.fds == old(session.k.fds)
    ensures done <= |UploadsOf(parts)| && (done > 0 || r.Ready? ==> Acceptable(parts, languages))
    ensures r.Ready? ==> done == |UploadsOf(parts)|
    ensures r.Ready? ==> Some(r.language) == LanguageOf(parts, |parts|) && Some(r.code) == CodeOf(parts, |parts|)
    ensures session.k.quiet ==>
      session.k.Contents() == Over(Applied(old(session.k.Contents()), UploadsOf(parts)[..done]), lost)
    ensures session.k.quiet ==> forall p <- lost ::
      IsTemp(parts, p) && p !in Applied(old(session.k.Contents()), UploadsOf(parts)[..done])
    ensures session.k.quiet && session.k.Trouble() == old(session.k.Trouble()) ==> lost == map[]
    ensures session.k.quiet ==>
      FoldersGrew(old(session.k.disk.nodes), session.k.disk.nodes, session.k.root, OnTheWay(parts))
    ensures session.k.quiet && session.k.faults == old(session.k.faults)
      && old(Placeable(session.k.disk.nodes, session.k.root, parts, session.maxFileSize))
      ==> if Acceptable(parts, languages) then r.Ready? else r == Refused(BadRequest)
    ensures r == Refused(BadRequest) ==> !Acceptable(parts, languages)
    ensures r.Ready? ==> r.language in languages && '\0' !in r.code
  {
    r, done, lost := StageAndDiscard(session, parts, languages);
  }
}
