/**
  The session lifecycle as a transition system: request tasks, the idle sweeper with its deletion
  task, and the worker threads that remove directories, interleaved wherever the service suspends.
  One action is at most one await-free block; lock timeouts, slot timeouts and task cancellation
  are actions of their own, and so is every step a body or a removal thread takes on the files.
 */
module Protocol {
  import opened Common
  import opened ManagerModel

  // ----- files of a session, as its bodies see them -----

  type Tree = map<string, seq<int>>

  /** What a locked body can do to the files. Executed code may leave any tree behind. */
  datatype Change = Put(path: string, content: seq<int>) | Remove(path: string) | Rewrite(to: Tree)

  /** One step of a body: a change, or an observation of the whole tree as it is at that moment. */
  datatype Event = Did(change: Change) | Saw(tree: Tree)

  /** One passage of a request through `locked`, in the order the lock was granted. */
  datatype Turn = Turn(task: Tid, events: seq<Event>)

  function Changed(tree: Tree, c: Change): Tree {
    match c
    case Put(p, content) => tree[p := content]
    case Remove(p) => tree - {p}
    case Rewrite(to) => to
  }

  /** One body run alone from `tree`: `None` if it saw anything else than it sees running alone. */
  function RunEvents(tree: Tree, events: seq<Event>): Option<Tree> {
    if events == [] then Some(tree)
    else match RunEvents(tree, events[..|events| - 1])
      case None => None
      case Some(now) =>
        match events[|events| - 1]
        case Did(c) => Some(Changed(now, c))
        case Saw(o) => if o == now then Some(now) else None
  }

  /** The serial execution: every turn runs to its end before the next one starts. */
  function RunTurns(tree: Tree, turns: seq<Turn>): Option<Tree> {
    if turns == [] then Some(tree)
    else match RunTurns(tree, turns[..|turns| - 1])
      case None => None
      case Some(now) => RunEvents(now, turns[|turns| - 1].events)
  }

  // ----- state -----

  datatype Kind = CreateSession | Ephemeral | Execute | FileAccess | DeleteSession

  predicate MakesSession(k: Kind) { k.CreateSession? || k.Ephemeral? }

  predicate Executes(k: Kind) { k.Ephemeral? || k.Execute? }

  /** Answered: the handler produced its response. Errored: a create that failed or was undone. */
  datatype Outcome = Answered | Errored | DeleteTimedOut | WasCancelled

  /**
    Where a task is. `cleanup` tells the `delete` that undoes a session from the handler's own use
    of `locked`; `turn` is the position of the body in the session's grant order.
   */
  datatype Pc =
    | Start
    | Quota                    // create, in _apply_quota
    | Undo                     // create, removing the directory after a failure
    | Seed                     // handle_create_session, storing the seed files
    | Call(cleanup: bool)      // about to enter locked
    | Wait(cleanup: bool)      // queued for the session lock
    | Body(turn: nat)          // inside locked
    | WaitSlot(turn: nat)      // inside locked, queued for an execution slot
    | Run(turn: nat)           // inside locked, holding an execution slot
    | Deleting                 // inside locked, in _delete
    | Done(outcome: Outcome)

  predicate InLock(pc: Pc) { pc.Body? || pc.WaitSlot? || pc.Run? || pc.Deleting? }

  /** `behind`: when the task last had to queue for a lock, the sweeper held it or was queued. */
  datatype Task = Task(kind: Kind, sid: Option<Sid>, pc: Pc, cancelled: bool, behind: bool)

  datatype Deletion = Pending | Removing | Finished

  /** `due`: the sessions this pass locked and found idle for too long. */
  datatype Sweep =
    | Idle
    | Pass(start: int, todo: seq<Sid>, due: set<Sid>)
    | Trying(start: int, todo: seq<Sid>, due: set<Sid>, s: Sid)
    | Shielding(start: int, todo: seq<Sid>, due: set<Sid>, s: Sid, del: Deletion, cancelled: bool)
    | Stopped

  datatype Thread = Busy | Ended(removed: bool)

  datatype Config = Config(maxSessions: nat, maxSlots: nat, inactivity: int, quota: bool)

  /**
    `threads` has an entry for every removal ever started; `maker` and `published` say who made a
    session and whether its id was given to a client; `base` is the tree a session was seeded with
    and `hist` its turns.
   */
  datatype State = State(
    cfg: Config,
    m: Manager,
    tasks: map<Tid, Task>,
    sweep: Sweep,
    threads: map<Sid, Thread>,
    now: int,
    maker: map<Sid, Tid>,
    published: set<Sid>,
    inSlot: set<Tid>,
    base: map<Sid, Tree>,
    tree: map<Sid, Tree>,
    hist: map<Sid, seq<Turn>>)

  ghost predicate Init(st: State) {
    && st.cfg.maxSessions >= 1 && st.cfg.maxSlots >= 1 && st.cfg.inactivity >= 1
    && st == State(st.cfg, Fresh(st.cfg.maxSlots), map[], Idle, map[], st.now,
                   map[], {}, {}, map[], map[], map[])
  }

  // ----- actions -----

  datatype CreateMove = QuotaOk | QuotaFail | UndoEnd | SeedPut(change: Change) | SeedOk | SeedFail

  datatype LockMove = CallLock | Grant | LockTimeout

  datatype BodyMove = Do(change: Change) | Look | CallSlot | GrantSlot

  datatype ExitMove = BodyEnd | SlotTimeout | RunEnd | DeleteEnd

  datatype SweepMove = Begin(order: seq<Sid>) | Try | Grant | Timeout | Delete | Deleted | Resume | End | Cancelled

  datatype Action =
    | Arrive(t: Tid, kind: Kind, target: Sid)
    | Create(t: Tid, s: Sid, mkdtempOk: bool)
    | Creating(t: Tid, create: CreateMove)
    | Locking(t: Tid, lock: LockMove)
    | Inside(t: Tid, body: BodyMove)
    | Exiting(t: Tid, exit: ExitMove)
    | Cancel(t: Tid)
    | ThreadErase(s: Sid, path: string)
    | ThreadEnd(s: Sid, removed: bool)
    | Tick(d: nat)
    | Sweeps(sweep: SweepMove)

  predicate At(st: State, t: Tid, pc: Pc) { t in st.tasks && st.tasks[t].pc == pc }

  /** The removal of the session's directory, which `t` awaits, is over. */
  predicate ThreadOver(st: State, s: Sid) {
    s in st.threads && st.threads[s].Ended?
  }

  predicate CreatingEnabled(pc: Pc, c: CreateMove, over: bool) {
    match c
    case QuotaOk => pc.Quota?
    case QuotaFail => pc.Quota?
    case UndoEnd => pc.Undo? && over
    case _ => pc.Seed?
  }

  predicate LockingEnabled(pc: Pc, l: LockMove, turn: bool) {
    match l
    case CallLock => pc.Call?
    case Grant => pc.Wait? && turn
    case LockTimeout => pc.Wait?
  }

  predicate InsideEnabled(task: Task, b: BodyMove, turn: bool) {
    match b
    case Do(_) => task.pc.Body? || task.pc.Run?
    case Look => task.pc.Body? || task.pc.Run?
    case CallSlot => task.pc.Body? && Executes(task.kind)
    case GrantSlot => task.pc.WaitSlot? && turn
  }

  predicate ExitingEnabled(pc: Pc, e: ExitMove, over: bool) {
    match e
    case BodyEnd => pc.Body?
    case SlotTimeout => pc.WaitSlot?
    case RunEnd => pc.Run?
    case DeleteEnd => pc.Deleting? && over
  }

  /** A session lock is free and `t` is the waiter whose turn it is. */
  predicate LockTurn(st: State, s: Sid, a: Agent) {
    s in st.m.all && CanGrant(st.m, s, a)
  }

  predicate SlotTurn(m: Manager, t: Tid) {
    m.slots > 0 && m.slotWaiters != [] && m.slotWaiters[0] == t
  }

  ghost predicate SweepingEnabled(st: State, w: SweepMove) {
    match w
    case Begin(order) => st.sweep.Idle? && forall s :: s in order <==> s in st.m.registered
    case Try => st.sweep.Pass? && st.sweep.todo != []
    case Grant => st.sweep.Trying? && LockTurn(st, st.sweep.s, Sweeper)
    case Timeout => st.sweep.Trying?
    case Delete => st.sweep.Shielding? && st.sweep.del.Pending?
    case Deleted => st.sweep.Shielding? && st.sweep.del.Removing? && ThreadOver(st, st.sweep.s)
    case Resume => st.sweep.Shielding? && st.sweep.del.Finished?
    case End => st.sweep.Pass? && st.sweep.todo == []
    case Cancelled => st.sweep.Idle? || st.sweep.Trying? || st.sweep.Shielding?
  }

  /** The bounded xfs_quota calls end before a new session counts as idle. */
  ghost predicate TickEnabled(st: State, d: nat) {
    forall t <- st.tasks :: At(st, t, Quota) && st.tasks[t].sid.Some? && st.tasks[t].sid.value in st.m.all ==>
      st.now + d - st.m.all[st.tasks[t].sid.value].lastUsed <= st.cfg.inactivity
  }

  /** secrets.token_urlsafe and mkdtemp: nobody has this id yet. */
  ghost predicate Unheard(st: State, s: Sid) {
    s !in st.m.all && forall u <- st.tasks :: st.tasks[u].sid != Some(s)
  }

  function SidOf(st: State, t: Tid): Sid
    requires t in st.tasks
  {
    if st.tasks[t].sid.Some? then st.tasks[t].sid.value else 0
  }

  ghost predicate Enabled(st: State, a: Action) {
    match a
    case Arrive(t, _, target) =>
      // A client can only name a session whose id it was given, or one that does not exist.
      t !in st.tasks && (target in st.m.all ==> target in st.published)
    case Create(t, s, _) => At(st, t, Start) && Unheard(st, s)
    case Creating(t, c) => t in st.tasks && CreatingEnabled(st.tasks[t].pc, c, ThreadOver(st, SidOf(st, t)))
    case Locking(t, l) => t in st.tasks && LockingEnabled(st.tasks[t].pc, l, LockTurn(st, SidOf(st, t), Request(t)))
    case Inside(t, b) => t in st.tasks && InsideEnabled(st.tasks[t], b, SlotTurn(st.m, t))
    case Exiting(t, e) => t in st.tasks && ExitingEnabled(st.tasks[t].pc, e, ThreadOver(st, SidOf(st, t)))
    case Cancel(t) => t in st.tasks && !st.tasks[t].pc.Start? && !st.tasks[t].pc.Call? && !st.tasks[t].pc.Done?
    case ThreadErase(s, _) => s in st.threads && st.threads[s].Busy?
    case ThreadEnd(s, _) => s in st.threads && st.threads[s].Busy?
    case Tick(d) => TickEnabled(st, d)
    case Sweeps(w) => SweepingEnabled(st, w)
  }

  // ----- effects -----

  function Goto(st: State, t: Tid, pc: Pc): State
    requires t in st.tasks
  {
    st.(tasks := st.tasks[t := st.tasks[t].(pc := pc)])
  }

  /** A handler leaves its main part: the ephemeral one goes on to delete the session it made. */
  function Leave(st: State, t: Tid, outcome: Outcome): State
    requires t in st.tasks
  {
    Goto(st, t, if st.tasks[t].kind.Ephemeral? then Call(true) else Done(outcome))
  }

  /** How a handler ends once the session it undoes is gone. */
  function Undone(kind: Kind): Outcome {
    if kind.CreateSession? then Errored else Answered
  }

  /** What `locked` does when `self.get` finds nothing: the `delete` in a `finally` shrugs it off. */
  function NotFound(st: State, t: Tid, cleanup: bool): State
    requires t in st.tasks
  {
    if cleanup then Goto(st, t, Done(Undone(st.tasks[t].kind))) else Leave(st, t, Answered)
  }

  function StartRemoval(st: State, s: Sid): State {
    st.(threads := st.threads[s := Busy])
  }

  /** The rest of `locked` once its lock is held: the second look at the registry, then the body. */
  function Enter(st: State, t: Tid, s: Sid, cleanup: bool): State
    requires t in st.tasks && s in st.m.all && s in st.hist
  {
    if s !in st.m.registered then NotFound(st.(m := Released(st.m, s)), t, cleanup)
    else
      var st1 := st.(m := Touched(st.m, s, st.now));
      if cleanup || st.tasks[t].kind.DeleteSession? then Goto(StartRemoval(st1, s), t, Deleting)
      else Goto(st1.(hist := st.hist[s := st.hist[s] + [Turn(t, [])]]), t, Body(|st.hist[s]|))
  }

  function DoCall(st: State, t: Tid, s: Sid, cleanup: bool): State
    requires t in st.tasks && (s in st.m.registered ==> s in st.m.all && s in st.hist)
  {
    if s !in st.m.registered then NotFound(st, t, cleanup)
    else if LockFree(st.m, s) then Enter(st.(m := Held(st.m, s, Request(t))), t, s, cleanup)
    else
      var lock := st.m.all[s];
      var behind := lock.holder == Some(Sweeper) || Sweeper in lock.waiters;
      st.(m := Queued(st.m, s, Request(t)),
          tasks := st.tasks[t := st.tasks[t].(pc := Wait(cleanup), behind := behind)])
  }

  function DoCreate(st: State, t: Tid, s: Sid, mkdtempOk: bool): State
    requires t in st.tasks
  {
    if |st.m.registered| >= st.cfg.maxSessions || !mkdtempOk || (st.cfg.quota && !CanAllocate(st.m)) then
      Goto(st, t, Done(Errored))
    else
      var task := st.tasks[t];
      st.(m := ManagerModel.Created(st.m, s, st.cfg.quota, st.now),
          tasks := st.tasks[t := task.(sid := Some(s), pc :=
            if st.cfg.quota then Quota else if task.kind.Ephemeral? then Call(false) else Seed)],
          maker := st.maker[s := t],
          base := st.base[s := map[]], tree := st.tree[s := map[]], hist := st.hist[s := []])
  }

  function DoEvent(st: State, t: Tid, s: Sid, e: Event): State
    requires t in st.tasks && (st.tasks[t].pc.Body? || st.tasks[t].pc.Run?)
    requires s in st.hist && s in st.tree && st.tasks[t].pc.turn < |st.hist[s]|
  {
    var i := st.tasks[t].pc.turn;
    var turn := st.hist[s][i];
    st.(hist := st.hist[s := st.hist[s][i := turn.(events := turn.events + [e])]],
        tree := if e.Did? then st.tree[s := Changed(st.tree[s], e.change)] else st.tree)
  }

  function ReleaseLock(st: State, s: Sid): State
    requires s in st.m.all
  {
    st.(m := Released(st.m, s))
  }

  function Marked(st: State, t: Tid): State
    requires t in st.tasks
  {
    st.(tasks := st.tasks[t := st.tasks[t].(cancelled := true)])
  }

  /** `CancelledError` is raised in `t` where it is suspended; its `finally` blocks run. */
  function DoCancel(st: State, t: Tid, s: Sid): State
    requires t in st.tasks && s in st.m.all
  {
    match st.tasks[t].pc
    case Quota => Goto(StartRemoval(st.(m := CreateUndone(st.m, s)), s), t, Undo)
    case Wait(cleanup) =>
      var st1 := st.(m := Unqueued(st.m, s, Request(t)));
      if cleanup then Goto(st1, t, Done(WasCancelled)) else Leave(st1, t, WasCancelled)
    case Body(_) => Leave(ReleaseLock(st, s), t, WasCancelled)
    case WaitSlot(_) => Leave(ReleaseLock(st.(m := SlotUnqueued(st.m, t)), s), t, WasCancelled)
    case Run(_) => Leave(ReleaseLock(st.(m := SlotReleased(st.m), inSlot := st.inSlot - {t}), s), t, WasCancelled)
    // The worker thread goes on; the id is held back and the session popped all the same.
    case Deleting => Goto(ReleaseLock(st.(m := Retired(st.m, s, false)), s), t, Done(WasCancelled))
    case _ => Goto(st, t, Done(WasCancelled))
  }

  /** The sweeper has just been given the lock of `s`. */
  function SweepCheck(st: State, s: Sid, start: int, todo: seq<Sid>, due: set<Sid>): State
    requires s in st.m.all
  {
    if s !in st.m.registered || start - st.m.all[s].lastUsed <= st.cfg.inactivity then
      ReleaseLock(st, s).(sweep := Pass(start, todo, due))
    else
      st.(sweep := Shielding(start, todo, due + {s}, s, Pending, false))
  }

  function DoSweepTry(st: State): State
    requires st.sweep.Pass? && st.sweep.todo != [] && st.sweep.todo[0] in st.m.all
  {
    var s, rest := st.sweep.todo[0], st.sweep.todo[1..];
    if LockFree(st.m, s) then
      SweepCheck(st.(m := Held(st.m, s, Sweeper)), s, st.sweep.start, rest, st.sweep.due)
    else
      st.(m := Queued(st.m, s, Sweeper), sweep := Trying(st.sweep.start, rest, st.sweep.due, s))
  }

  /** A first cancellation waits for the deletion task, a second one reaches that task itself. */
  function SweepCancelled(w: Sweep): Sweep {
    match w
    case Shielding(_, _, _, _, del, cancelled) =>
      if !cancelled || del.Finished? then w.(cancelled := true) else w.(del := Finished)
    case _ => Stopped
  }

  function DoSweepCancel(st: State): State
    requires st.sweep.Trying? || st.sweep.Shielding? ==> st.sweep.s in st.m.all
  {
    var m := match st.sweep
      case Trying(_, _, _, s) => Unqueued(st.m, s, Sweeper)
      case Shielding(_, _, _, s, Removing, true) => Retired(st.m, s, false)
      case _ => st.m;
    st.(m := m, sweep := SweepCancelled(st.sweep))
  }

  /** Every table has an entry for every session. */
  ghost predicate KeysAgree(st: State) {
    st.base.Keys == st.tree.Keys == st.hist.Keys == st.maker.Keys == st.m.all.Keys
  }

  /** What every action needs to find in the state; part of the invariant. */
  ghost predicate WellFormed(st: State) {
    && st.m.registered <= st.m.all.Keys
    && st.threads.Keys <= st.m.all.Keys && st.published <= st.m.all.Keys
    && KeysAgree(st)
    && (forall t <- st.tasks :: TaskShape(st, st.tasks[t]))
    && (st.sweep.Pass? || st.sweep.Trying? || st.sweep.Shielding? ==>
          (forall s <- st.sweep.todo :: s in st.m.all) && st.sweep.due <= st.m.all.Keys)
    && (st.sweep.Trying? || st.sweep.Shielding? ==> st.sweep.s in st.m.all)
  }

  ghost predicate TaskShape(st: State, task: Task)
    requires st.hist.Keys == st.m.all.Keys
  {
    match task.pc
    case Start => task.sid.None? && MakesSession(task.kind)
    case Done(_) => true
    case Call(cleanup) => task.sid.Some? && (cleanup ==> task.sid.value in st.m.all)
    case pc =>
      && task.sid.Some? && task.sid.value in st.m.all
      && (pc.Body? || pc.Run? ==> pc.turn < |st.hist[task.sid.value]|)
  }

  function CreatingNext(st: State, t: Tid, s: Sid, c: CreateMove): State
    requires t in st.tasks && s in st.m.all && s in st.base && s in st.tree
  {
    match c
    case QuotaOk => Goto(st, t, if st.tasks[t].kind.Ephemeral? then Call(false) else Seed)
    case QuotaFail => Goto(StartRemoval(st.(m := CreateUndone(st.m, s)), s), t, Undo)
    case UndoEnd => Goto(st, t, Done(Errored))
    case SeedPut(ch) =>
      st.(base := st.base[s := Changed(st.base[s], ch)], tree := st.tree[s := Changed(st.tree[s], ch)])
    case SeedOk => Goto(st, t, Done(Answered)).(published := st.published + {s})
    case SeedFail => Goto(st, t, Call(true))
  }

  function LockingNext(st: State, t: Tid, s: Sid, l: LockMove): State
    requires t in st.tasks && (s in st.m.registered ==> s in st.m.all && s in st.hist)
    requires LockingEnabled(st.tasks[t].pc, l, LockTurn(st, s, Request(t)))
    requires !l.CallLock? ==> s in st.m.all && s in st.hist
  {
    var cleanup := st.tasks[t].pc.cleanup;
    match l
    case CallLock => DoCall(st, t, s, cleanup)
    case Grant => Enter(st.(m := Granted(st.m, s, Request(t))), t, s, cleanup)
    case LockTimeout =>
      var st1 := st.(m := Unqueued(st.m, s, Request(t)));
      if cleanup then Goto(st1, t, Done(DeleteTimedOut)) else Leave(st1, t, Answered)
  }

  function InsideNext(st: State, t: Tid, s: Sid, b: BodyMove): State
    requires t in st.tasks && s in st.m.all && s in st.hist && s in st.tree
    requires InsideEnabled(st.tasks[t], b, SlotTurn(st.m, t))
    requires b.Do? || b.Look? ==> st.tasks[t].pc.turn < |st.hist[s]|
  {
    match b
    case Do(c) => DoEvent(st, t, s, Did(c))
    case Look => DoEvent(st, t, s, Saw(st.tree[s]))
    case CallSlot =>
      if SlotFree(st.m) then
        Goto(st.(m := SlotTaken(st.m), inSlot := st.inSlot + {t}), t, Run(st.tasks[t].pc.turn))
      else Goto(st.(m := SlotQueued(st.m, t)), t, WaitSlot(st.tasks[t].pc.turn))
    case GrantSlot => Goto(st.(m := SlotGranted(st.m), inSlot := st.inSlot + {t}), t, Run(st.tasks[t].pc.turn))
  }

  function ExitingNext(st: State, t: Tid, s: Sid, e: ExitMove): State
    requires t in st.tasks && s in st.m.all
    requires e.DeleteEnd? ==> ThreadOver(st, s)
  {
    match e
    case BodyEnd => Leave(ReleaseLock(st, s), t, Answered)
    case SlotTimeout => Leave(ReleaseLock(st.(m := SlotUnqueued(st.m, t)), s), t, Answered)
    case RunEnd => Leave(ReleaseLock(st.(m := SlotReleased(st.m), inSlot := st.inSlot - {t}), s), t, Answered)
    case DeleteEnd =>
      Goto(ReleaseLock(st.(m := Retired(st.m, s, st.threads[s].removed)), s), t, Done(Undone(st.tasks[t].kind)))
  }

  /** The steps of the sweeper and of its deletion task. */
  ghost function SweepingNext(st: State, w: SweepMove): State
    requires st.sweep.Pass? ==> forall s <- st.sweep.todo :: s in st.m.all
    requires st.sweep.Trying? || st.sweep.Shielding? ==> st.sweep.s in st.m.all
    requires SweepingEnabled(st, w)
  {
    var p := st.sweep;
    match w
    case Begin(order) => st.(sweep := Pass(st.now, order, {}))
    case Try => DoSweepTry(st)
    case Grant => SweepCheck(st.(m := Granted(st.m, p.s, Sweeper)), p.s, p.start, p.todo, p.due)
    case Timeout => st.(m := Unqueued(st.m, p.s, Sweeper), sweep := Pass(p.start, p.todo, p.due))
    case Delete => StartRemoval(st, p.s).(sweep := p.(del := Removing))
    case Deleted => st.(m := Retired(st.m, p.s, st.threads[p.s].removed), sweep := p.(del := Finished))
    case Resume => ReleaseLock(st, p.s).(sweep := if p.cancelled then Stopped else Pass(p.start, p.todo, p.due))
    case End => st.(sweep := Idle)
    case Cancelled => DoSweepCancel(st)
  }

  function DoArrive(st: State, t: Tid, kind: Kind, target: Sid): State {
    st.(tasks := st.tasks[t := if MakesSession(kind) then Task(kind, None, Start, false, false)
                               else Task(kind, Some(target), Call(false), false, false)])
  }

  ghost function Next(st: State, a: Action): State
    requires WellFormed(st) && Enabled(st, a)
  {
    match a
    case Arrive(t, kind, target) => DoArrive(st, t, kind, target)
    case Create(t, s, mkdtempOk) => DoCreate(st, t, s, mkdtempOk)
    case Creating(t, c) => CreatingNext(st, t, SidOf(st, t), c)
    case Locking(t, l) => LockingNext(st, t, SidOf(st, t), l)
    case Inside(t, b) => InsideNext(st, t, SidOf(st, t), b)
    case Exiting(t, e) => ExitingNext(st, t, SidOf(st, t), e)
    case Cancel(t) => DoCancel(Marked(st, t), t, SidOf(st, t))
    case ThreadErase(s, p) => st.(tree := st.tree[s := st.tree[s] - {p}])
    case ThreadEnd(s, removed) => st.(threads := st.threads[s := Ended(removed)])
    case Tick(d) => st.(now := st.now + d)
    case Sweeps(w) => SweepingNext(st, w)
  }
}
