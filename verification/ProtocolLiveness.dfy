/**
  Freedom from deadlock and full return of resources: without any further arrival, timeout or
  cancellation, every reachable state can run down to one where nothing is left to do, and there
  every lock is free and every execution slot is back.
 */
module ProtocolLiveness {
  import opened Common
  import opened ManagerModel
  import opened Protocol
  import opened ProtocolInvariant
  import opened ProtocolSteps
  import opened ProtocolSafety

  // ----- a measure of the work left -----

  function Rank(pc: Pc): nat {
    match pc
    case Start => 24
    case Quota => 22
    case Seed => 20
    case Call(cleanup) => if cleanup then 8 else 18
    case Wait(cleanup) => if cleanup then 6 else 16
    case Body(_) => 14
    case WaitSlot(_) => 12
    case Run(_) => 10
    case Deleting => 4
    case Undo => 2
    case Done(_) => 0
  }

  function SweepRank(w: Sweep): nat {
    match w
    case Idle => 0
    case Stopped => 0
    case Pass(_, todo, _) => 1 + 6 * |todo|
    case Trying(_, todo, _, _) => 6 + 6 * |todo|
    case Shielding(_, todo, _, _, del, _) =>
      (if del.Pending? then 5 else if del.Removing? then 3 else 2) + 6 * |todo|
  }

  ghost function TasksLeft(tasks: map<Tid, Task>): nat {
    if tasks == map[] then 0
    else
      var t :| t in tasks;
      Rank(tasks[t].pc) + TasksLeft(tasks - {t})
  }

  ghost function BusyThreads(threads: map<Sid, Thread>): set<Sid> {
    set s | s in threads && threads[s].Busy?
  }

  ghost function ThreadsLeft(threads: map<Sid, Thread>): nat {
    |BusyThreads(threads)|
  }

  ghost function WorkLeft(st: State): nat {
    TasksLeft(st.tasks) + ThreadsLeft(st.threads) + SweepRank(st.sweep)
  }

  lemma {:induction false} TasksLeftAt(tasks: map<Tid, Task>, t: Tid)
    requires t in tasks
    ensures TasksLeft(tasks) == Rank(tasks[t].pc) + TasksLeft(tasks - {t})
    decreases |tasks|
  {
    var u :| u in tasks && TasksLeft(tasks) == Rank(tasks[u].pc) + TasksLeft(tasks - {u});
    if u != t {
      TasksLeftAt(tasks - {u}, t);
      TasksLeftAt(tasks - {t}, u);
      assert tasks - {u} - {t} == tasks - {t} - {u};
    }
  }

  lemma TaskMoved(tasks: map<Tid, Task>, tasks': map<Tid, Task>, t: Tid)
    requires t in tasks && Same(tasks, tasks', t)
    ensures TasksLeft(tasks') - TasksLeft(tasks) == Rank(tasks'[t].pc) - Rank(tasks[t].pc)
  {
    TasksLeftAt(tasks, t);
    TasksLeftAt(tasks', t);
    assert tasks - {t} == tasks' - {t};
  }

  lemma ThreadStarted(threads: map<Sid, Thread>, s: Sid)
    ensures ThreadsLeft(threads[s := Busy]) <= ThreadsLeft(threads) + 1
  {
    assert BusyThreads(threads[s := Busy]) == BusyThreads(threads) + {s};
  }

  lemma ThreadFinished(threads: map<Sid, Thread>, s: Sid, removed: bool)
    requires s in threads && threads[s].Busy?
    ensures ThreadsLeft(threads[s := Ended(removed)]) < ThreadsLeft(threads)
  {
    assert BusyThreads(threads[s := Ended(removed)]) == BusyThreads(threads) - {s};
  }

  /** One task comes nearer to its end, starting at most one removal for it. */
  lemma TaskDescends(st: State, n: State, t: Tid, s: Sid)
    requires t in st.tasks && Same(st.tasks, n.tasks, t) && n.sweep == st.sweep
    requires || (n.threads == st.threads && Rank(n.tasks[t].pc) < Rank(st.tasks[t].pc))
             || (n.threads == st.threads[s := Busy] && Rank(n.tasks[t].pc) + 1 < Rank(st.tasks[t].pc))
    ensures WorkLeft(n) < WorkLeft(st)
  {
    TaskMoved(st.tasks, n.tasks, t);
    ThreadStarted(st.threads, s);
  }

  // ----- steps that bring the end nearer -----

  /** A step that needs no client, no timeout, no failure and no cancellation. */
  predicate Cooperative(a: Action) {
    match a
    case Create(_, _, _) => true
    case Creating(_, c) => c.QuotaOk? || c.UndoEnd? || c.SeedOk?
    case Locking(_, l) => l.CallLock? || l.Grant?
    case Inside(_, b) => b.GrantSlot?
    case Exiting(_, e) => e.BodyEnd? || e.RunEnd? || e.DeleteEnd?
    case ThreadEnd(_, _) => true
    case Sweeps(w) => w.Try? || w.Grant? || w.Delete? || w.Deleted? || w.Resume? || w.End?
    case _ => false
  }

  /** Nothing is under way: no task, no pass of the sweeper, no removal. */
  ghost predicate Quiescent(st: State) {
    && (forall t <- st.tasks :: st.tasks[t].pc.Done?)
    && (st.sweep.Idle? || st.sweep.Stopped?)
    && (forall s <- st.threads :: st.threads[s].Ended?)
  }

  /** `a` is a cooperative step that leaves less work. */
  ghost predicate Advances(st: State, a: Action) {
    WellFormed(st) && Cooperative(a) && Enabled(st, a) && WorkLeft(Next(st, a)) < WorkLeft(st)
  }

  lemma {:induction false} Bounded(xs: set<nat>) returns (b: nat)
    ensures forall x <- xs :: x < b
  {
    b := 0;
    var left := xs;
    while left != {}
      invariant left <= xs && forall x <- xs :: x in left || x < b
    {
      var x :| x in left;
      left := left - {x};
      b := if x < b then b else x + 1;
    }
  }

  /** There is always an id nobody has heard of. */
  lemma FreshId(st: State) returns (s: Sid)
    ensures Unheard(st, s)
  {
    var named := set u | u in st.tasks && st.tasks[u].sid.Some? :: st.tasks[u].sid.value;
    s := Bounded(st.m.all.Keys + named);
    forall u <- st.tasks
      ensures st.tasks[u].sid != Some(s)
    {
      if st.tasks[u].sid.Some? { assert st.tasks[u].sid.value in named; }
    }
  }

  // ----- every step that is not a new cause to go on brings the end nearer -----

  /**
    All steps but these: a request arrives, the sweeper's timer fires or its task is cancelled, time passes,
    and the steps on files that a body, a create or a removal takes at its own discretion.
   */
  predicate Lessens(a: Action) {
    match a
    case Arrive(_, _, _) => false
    case Creating(_, c) => !c.SeedPut?
    case Inside(_, b) => !b.Do? && !b.Look?
    case ThreadErase(_, _) => false
    case Tick(_) => false
    case Sweeps(w) => !w.Begin? && !w.Cancelled?
    case _ => true
  }

  lemma CreateDescends(st: State, t: Tid, s: Sid, ok: bool)
    requires At(st, t, Start)
    ensures WorkLeft(DoCreate(st, t, s, ok)) < WorkLeft(st)
  {
    TaskDescends(st, DoCreate(st, t, s, ok), t, s);
  }

  lemma CreatingDescends(st: State, t: Tid, s: Sid, c: CreateMove)
    requires KeysAgree(st) && t in st.tasks && s in st.m.all
    requires CreatingEnabled(st.tasks[t].pc, c, true) && !c.SeedPut?
    ensures WorkLeft(CreatingNext(st, t, s, c)) < WorkLeft(st)
  {
    TaskDescends(st, CreatingNext(st, t, s, c), t, s);
  }

  lemma EnterDescends(st1: State, t: Tid, s: Sid, cleanup: bool)
    requires t in st1.tasks && s in st1.m.all && s in st1.hist
    requires st1.tasks[t].pc == Wait(cleanup) || st1.tasks[t].pc == Call(cleanup)
    ensures WorkLeft(Enter(st1, t, s, cleanup)) < WorkLeft(st1)
  {
    if s !in st1.m.registered { GoneDescends(st1, t, s, cleanup); }
    else if cleanup || st1.tasks[t].kind.DeleteSession? { DeleteDescends(st1, t, s, cleanup); }
    else { TaskDescends(st1, Enter(st1, t, s, cleanup), t, s); }
  }

  lemma GoneDescends(st1: State, t: Tid, s: Sid, cleanup: bool)
    requires t in st1.tasks && s in st1.m.all && s in st1.hist && s !in st1.m.registered
    requires st1.tasks[t].pc == Wait(cleanup) || st1.tasks[t].pc == Call(cleanup)
    ensures WorkLeft(Enter(st1, t, s, cleanup)) < WorkLeft(st1)
  {
    TaskDescends(st1, Enter(st1, t, s, cleanup), t, s);
  }

  lemma DeleteDescends(st1: State, t: Tid, s: Sid, cleanup: bool)
    requires t in st1.tasks && s in st1.m.registered && s in st1.m.all && s in st1.hist
    requires st1.tasks[t].pc == Wait(cleanup) || st1.tasks[t].pc == Call(cleanup)
    requires cleanup || st1.tasks[t].kind.DeleteSession?
    ensures WorkLeft(Enter(st1, t, s, cleanup)) < WorkLeft(st1)
  {
    TaskDescends(st1, Enter(st1, t, s, cleanup), t, s);
  }

  /** The end of a main part, whatever was given back before. */
  lemma LeaveNears(st: State, st1: State, t: Tid, o: Outcome)
    requires t in st.tasks && st1.tasks == st.tasks && st1.threads == st.threads && st1.sweep == st.sweep
    requires Rank(st.tasks[t].pc) > 8
    ensures Nears(st, Leave(st1, t, o), t)
  {
  }

  /** The task is nearer to its end and starts no removal. */
  ghost predicate Nears(st: State, n: State, t: Tid)
    requires t in st.tasks
  {
    && Same(st.tasks, n.tasks, t) && n.sweep == st.sweep && n.threads == st.threads
    && Rank(n.tasks[t].pc) < Rank(st.tasks[t].pc)
  }

  lemma GotoNears(st: State, st1: State, t: Tid, pc: Pc)
    requires t in st.tasks && st1.tasks == st.tasks && st1.threads == st.threads && st1.sweep == st.sweep
    requires Rank(pc) < Rank(st.tasks[t].pc)
    ensures Nears(st, Goto(st1, t, pc), t)
  {
  }

  lemma NotFoundNears(st: State, t: Tid, cleanup: bool)
    requires t in st.tasks && st.tasks[t].pc == Call(cleanup)
    ensures Nears(st, NotFound(st, t, cleanup), t)
  {
    if cleanup { GotoNears(st, st, t, Done(Undone(st.tasks[t].kind))); } else { LeaveNears(st, st, t, Answered); }
  }

  lemma QueuedNears(st: State, t: Tid, s: Sid, cleanup: bool)
    requires t in st.tasks && st.tasks[t].pc == Call(cleanup) && s in st.m.registered && s in st.m.all && s in st.hist
    requires !LockFree(st.m, s)
    ensures Nears(st, DoCall(st, t, s, cleanup), t)
  {
  }

  lemma CallDescends(st: State, t: Tid, s: Sid, cleanup: bool)
    requires t in st.tasks && st.tasks[t].pc == Call(cleanup)
    requires s in st.m.registered ==> s in st.m.all && s in st.hist
    ensures WorkLeft(DoCall(st, t, s, cleanup)) < WorkLeft(st)
  {
    if s in st.m.registered && LockFree(st.m, s) {
      EnterDescends(st.(m := Held(st.m, s, Request(t))), t, s, cleanup);
    } else {
      if s !in st.m.registered { NotFoundNears(st, t, cleanup); } else { QueuedNears(st, t, s, cleanup); }
      TaskDescends(st, DoCall(st, t, s, cleanup), t, s);
    }
  }

  lemma TimeoutDescends(st: State, t: Tid, s: Sid)
    requires t in st.tasks && st.tasks[t].pc.Wait? && s in st.m.all && s in st.hist
    ensures WorkLeft(LockingNext(st, t, s, LockTimeout)) < WorkLeft(st)
  {
    var st1 := st.(m := Unqueued(st.m, s, Request(t)));
    if st.tasks[t].pc.cleanup { GotoNears(st, st1, t, Done(DeleteTimedOut)); }
    else { LeaveNears(st, st1, t, Answered); }
    TaskDescends(st, LockingNext(st, t, s, LockTimeout), t, s);
  }

  lemma LockingDescends(st: State, t: Tid, s: Sid, l: LockMove)
    requires t in st.tasks && (s in st.m.registered ==> s in st.m.all && s in st.hist)
    requires LockingEnabled(st.tasks[t].pc, l, LockTurn(st, s, Request(t)))
    requires !l.CallLock? ==> s in st.m.all && s in st.hist
    ensures WorkLeft(LockingNext(st, t, s, l)) < WorkLeft(st)
  {
    match l
    case CallLock => CallDescends(st, t, s, st.tasks[t].pc.cleanup);
    case Grant => EnterDescends(st.(m := Granted(st.m, s, Request(t))), t, s, st.tasks[t].pc.cleanup);
    case LockTimeout => TimeoutDescends(st, t, s);
  }

  lemma InsideDescends(st: State, t: Tid, s: Sid, b: BodyMove)
    requires KeysAgree(st) && t in st.tasks && s in st.m.all
    requires InsideEnabled(st.tasks[t], b, SlotTurn(st.m, t)) && !b.Do? && !b.Look?
    ensures WorkLeft(InsideNext(st, t, s, b)) < WorkLeft(st)
  {
    TaskDescends(st, InsideNext(st, t, s, b), t, s);
  }

  lemma ExitDescends(st: State, t: Tid, s: Sid, e: ExitMove)
    requires t in st.tasks && s in st.m.all && (e.DeleteEnd? ==> ThreadOver(st, s))
    requires ExitingEnabled(st.tasks[t].pc, e, true)
    ensures WorkLeft(ExitingNext(st, t, s, e)) < WorkLeft(st)
  {
    TaskDescends(st, ExitingNext(st, t, s, e), t, s);
  }

  lemma CancelDescends(st: State, t: Tid, s: Sid)
    requires t in st.tasks && s in st.m.all
    requires var pc := st.tasks[t].pc; !pc.Start? && !pc.Call? && !pc.Done?
    ensures WorkLeft(DoCancel(Marked(st, t), t, s)) < WorkLeft(st)
  {
    var marked := Marked(st, t);
    if st.tasks[t].pc.Quota? {
      UndoDescends(st, marked, t, s);
    } else {
      if InLock(st.tasks[t].pc) { CancelledBodyNears(marked, t, s); }
      else { CancelledNears(marked, t, s); }
      TaskDescends(st, DoCancel(marked, t, s), t, s);
    }
  }

  lemma UndoDescends(st: State, marked: State, t: Tid, s: Sid)
    requires t in st.tasks && s in st.m.all && st.tasks[t].pc.Quota? && marked == Marked(st, t)
    ensures WorkLeft(DoCancel(marked, t, s)) < WorkLeft(st)
  {
    TaskDescends(st, DoCancel(marked, t, s), t, s);
  }

  lemma CancelledNears(st: State, t: Tid, s: Sid)
    requires t in st.tasks && s in st.m.all && (st.tasks[t].pc.Undo? || st.tasks[t].pc.Seed? || st.tasks[t].pc.Wait?)
    ensures Nears(st, DoCancel(st, t, s), t)
  {
    var pc := st.tasks[t].pc;
    var st1 := if pc.Wait? then st.(m := Unqueued(st.m, s, Request(t))) else st;
    if pc.Wait? && !pc.cleanup { LeaveNears(st, st1, t, WasCancelled); }
    else { GotoNears(st, st1, t, Done(WasCancelled)); }
  }

  lemma CancelledBodyNears(st: State, t: Tid, s: Sid)
    requires t in st.tasks && s in st.m.all && InLock(st.tasks[t].pc)
    ensures Nears(st, DoCancel(st, t, s), t)
  {
    match st.tasks[t].pc
    case Body(_) => LeaveNears(st, ReleaseLock(st, s), t, WasCancelled);
    case WaitSlot(_) => LeaveNears(st, ReleaseLock(st.(m := SlotUnqueued(st.m, t)), s), t, WasCancelled);
    case Run(_) =>
      LeaveNears(st, ReleaseLock(st.(m := SlotReleased(st.m), inSlot := st.inSlot - {t}), s), t, WasCancelled);
    case Deleting => GotoNears(st, ReleaseLock(st.(m := Retired(st.m, s, false)), s), t, Done(WasCancelled));
  }

  lemma ThreadDescends(st: State, s: Sid, removed: bool)
    requires s in st.threads && st.threads[s].Busy?
    ensures WorkLeft(st.(threads := st.threads[s := Ended(removed)])) < WorkLeft(st)
  {
    ThreadFinished(st.threads, s, removed);
  }

  lemma SweepDescends(st: State, w: SweepMove)
    requires WellFormed(st) && SweepingEnabled(st, w) && !w.Begin? && !w.Cancelled?
    ensures WorkLeft(SweepingNext(st, w)) < WorkLeft(st)
  {
    if w.Try? || w.Grant? { SweepLocksDescend(st, w); }
    else if w.Delete? { ThreadStarted(st.threads, st.sweep.s); }
  }

  lemma SweepCheckDescends(st1: State, s: Sid, start: int, todo: seq<Sid>, due: set<Sid>)
    requires s in st1.m.all
    ensures WorkLeft(Protocol.SweepCheck(st1, s, start, todo, due)) <=
      TasksLeft(st1.tasks) + ThreadsLeft(st1.threads) + 5 + 6 * |todo|
  {
  }

  lemma SweepLocksDescend(st: State, w: SweepMove)
    requires WellFormed(st) && SweepingEnabled(st, w) && (w.Try? || w.Grant?)
    ensures WorkLeft(SweepingNext(st, w)) < WorkLeft(st)
  {
    var p := st.sweep;
    if w.Grant? {
      SweepCheckDescends(st.(m := Granted(st.m, p.s, Sweeper)), p.s, p.start, p.todo, p.due);
    } else if LockFree(st.m, p.todo[0]) {
      SweepCheckDescends(st.(m := Held(st.m, p.todo[0], Sweeper)), p.todo[0], p.start, p.todo[1..], p.due);
    }
  }

  /** Whichever of these steps is taken, less work is left. */
  lemma StepLessens(st: State, a: Action)
    requires WellFormed(st) && Enabled(st, a) && Lessens(a)
    ensures WorkLeft(Next(st, a)) < WorkLeft(st)
  {
    match a
    case Create(t, s, ok) => CreateDescends(st, t, s, ok);
    case ThreadEnd(s, removed) => ThreadDescends(st, s, removed);
    case Sweeps(w) => SweepDescends(st, w);
    case _ => TaskStepLessens(st, a);
  }

  lemma TaskStepLessens(st: State, a: Action)
    requires WellFormed(st) && Enabled(st, a) && Lessens(a)
    requires a.Creating? || a.Locking? || a.Inside? || a.Exiting? || a.Cancel?
    ensures WorkLeft(Next(st, a)) < WorkLeft(st)
  {
    var t, s := a.t, SidOf(st, a.t);
    match a
    case Creating(_, c) => CreatingDescends(st, t, s, c);
    case Locking(_, l) => LockingDescends(st, t, s, l);
    case Inside(_, b) => InsideDescends(st, t, s, b);
    case Exiting(_, e) => ExitDescends(st, t, s, e);
    case Cancel(_) => CancelDescends(st, t, s);
  }

  /**
    No endless run, whatever the event loop picks: a stretch of such steps is never longer than the work
    that was left at its beginning.
   */
  lemma {:induction false} StretchIsShort(ss: seq<State>, acts: seq<Action>, i: nat, j: nat)
    requires IsRun(ss, acts) && i <= j <= |acts|
    requires forall k {:trigger acts[k]} :: i <= k < j ==> Lessens(acts[k])
    ensures j - i + WorkLeft(ss[j]) <= WorkLeft(ss[i])
    decreases j - i
  {
    if i < j {
      StretchIsShort(ss, acts, i, j - 1);
      RunStep(ss, acts, j - 1);
      StepLessens(ss[j - 1], acts[j - 1]);
    }
  }

  // ----- and there is always such a step -----

  lemma CooperativeAdvances(st: State, a: Action)
    requires WellFormed(st) && Cooperative(a) && Enabled(st, a)
    ensures Advances(st, a)
  {
    StepLessens(st, a);
  }

  lemma CreateAdvances(st: State, t: Tid) returns (a: Action)
    requires WellFormed(st) && At(st, t, Start)
    ensures Advances(st, a)
  {
    var s := FreshId(st);
    a := Create(t, s, true);
    CooperativeAdvances(st, a);
  }

  /** A task that can go on by itself. */
  ghost predicate CanGoOn(pc: Pc) { pc.Start? || pc.Quota? || pc.Seed? || pc.Call? || pc.Body? || pc.Run? }

  lemma TaskGoesOn(st: State, t: Tid) returns (a: Action)
    requires WellFormed(st) && Tasks(st) && t in st.tasks && CanGoOn(st.tasks[t].pc)
    ensures Advances(st, a)
  {
    match st.tasks[t].pc
    case Start => a := CreateAdvances(st, t);
    case Quota => a := Creating(t, QuotaOk); CooperativeAdvances(st, a);
    case Seed => a := Creating(t, SeedOk); CooperativeAdvances(st, a);
    case Call(_) => a := Locking(t, CallLock); CooperativeAdvances(st, a);
    case Body(_) => a := Exiting(t, BodyEnd); CooperativeAdvances(st, a);
    case Run(_) => a := Exiting(t, RunEnd); CooperativeAdvances(st, a);
  }

  /** With no removal running, whoever awaits one goes on. */
  lemma RemoverGoesOn(st: State, t: Tid) returns (a: Action)
    requires Inv(st) && t in st.tasks && (st.tasks[t].pc.Undo? || st.tasks[t].pc.Deleting?)
    requires forall s <- st.threads :: st.threads[s].Ended?
    ensures Advances(st, a)
  {
    assert TaskInv(st, t);
    if st.tasks[t].pc.Undo? {
      a := Creating(t, UndoEnd);
      CooperativeAdvances(st, a);
    } else {
      a := Exiting(t, DeleteEnd);
      CooperativeAdvances(st, a);
    }
  }

  /** With nobody running, the first in the slot queue gets a slot: slots are conserved. */
  lemma SlotWaiterGoesOn(st: State, t: Tid) returns (a: Action)
    requires Inv(st) && t in st.tasks && st.tasks[t].pc.WaitSlot?
    requires forall u <- st.tasks :: !st.tasks[u].pc.Run?
    ensures Advances(st, a)
  {
    assert t in st.m.slotWaiters;
    assert st.inSlot == {};
    var first := st.m.slotWaiters[0];
    assert first in st.m.slotWaiters;
    a := Inside(first, GrantSlot);
    CooperativeAdvances(st, a);
  }

  lemma SweepGoesOn(st: State) returns (a: Action)
    requires Inv(st) && (st.sweep.Pass? || st.sweep.Shielding?)
    requires forall s <- st.threads :: st.threads[s].Ended?
    ensures Advances(st, a)
  {
    var w := if st.sweep.Pass? then if st.sweep.todo == [] then End else Try
             else if st.sweep.del.Pending? then Delete
             else if st.sweep.del.Removing? then Deleted else Resume;
    a := Sweeps(w);
    CooperativeAdvances(st, a);
  }

  /** With nobody inside, the first in the queue of a session lock gets it. */
  lemma LockWaiterGoesOn(st: State, s: Sid) returns (a: Action)
    requires WellFormed(st) && s in st.m.all && LockInv(st, s) && st.m.all[s].waiters != []
    requires forall t <- st.tasks :: st.tasks[t].pc.Wait? || st.tasks[t].pc.Done?
    requires !st.sweep.Shielding?
    ensures Advances(st, a)
  {
    var first := st.m.all[s].waiters[0];
    assert WaiterInv(st, s, first);
    match first
    case Request(t) => a := Locking(t, LockMove.Grant); CooperativeAdvances(st, a);
    case Sweeper => a := Sweeps(SweepMove.Grant); CooperativeAdvances(st, a);
  }

  /**
    No deadlock: as long as anything is under way, some cooperative step is enabled and leaves less
    work. The cases are the order in which tasks wait for each other: for nothing, for a removal,
    for a slot, for the sweeper's deletion, for a session lock.
   */
  lemma Progress(st: State) returns (a: Action)
    requires Inv(st) && !Quiescent(st)
    ensures Advances(st, a)
  {
    if t :| t in st.tasks && CanGoOn(st.tasks[t].pc) { a := TaskGoesOn(st, t); }
    else if s :| s in st.threads && st.threads[s].Busy? {
      a := ThreadEnd(s, true);
      CooperativeAdvances(st, a);
    }
    else if t :| t in st.tasks && (st.tasks[t].pc.Undo? || st.tasks[t].pc.Deleting?) { a := RemoverGoesOn(st, t); }
    else if t :| t in st.tasks && st.tasks[t].pc.WaitSlot? { a := SlotWaiterGoesOn(st, t); }
    else if st.sweep.Pass? || st.sweep.Shielding? { a := SweepGoesOn(st); }
    else { a := SomeWaiterGoesOn(st); }
  }

  /** With nothing else under way, whoever is left queues for a session lock. */
  lemma SomeWaiterGoesOn(st: State) returns (a: Action)
    requires Inv(st) && !Quiescent(st)
    requires forall t <- st.tasks :: st.tasks[t].pc.Wait? || st.tasks[t].pc.Done?
    requires !st.sweep.Pass? && !st.sweep.Shielding? && forall s <- st.threads :: st.threads[s].Ended?
    ensures Advances(st, a)
  {
    var s := SomeQueue(st);
    a := LockWaiterGoesOn(st, s);
  }

  lemma SomeQueue(st: State) returns (s: Sid)
    requires WellFormed(st) && Tasks(st) && Sweeping(st) && !Quiescent(st)
    requires forall t <- st.tasks :: st.tasks[t].pc.Wait? || st.tasks[t].pc.Done?
    requires !st.sweep.Pass? && !st.sweep.Shielding? && forall s <- st.threads :: st.threads[s].Ended?
    ensures s in st.m.all && st.m.all[s].waiters != []
  {
    if t :| t in st.tasks && st.tasks[t].pc.Wait? {
      WaiterQueues(st, t);
      s := st.tasks[t].sid.value;
    } else {
      s := st.sweep.s;
    }
  }

  lemma WaiterQueues(st: State, t: Tid)
    requires KeysAgree(st) && t in st.tasks && TaskInv(st, t) && st.tasks[t].pc.Wait?
    ensures st.tasks[t].sid.Some? && st.tasks[t].sid.value in st.m.all && st.m.all[st.tasks[t].sid.value].waiters != []
  {
  }

  lemma QuiescentLock(st: State, s: Sid)
    requires s in st.m.all && LockInv(st, s) && Quiescent(st)
    ensures LockFree(st.m, s)
  {
    SomeMember(st.m.all[s].waiters);
  }

  /** With nothing under way every lock is free, nobody queues, and all slots are back. */
  lemma QuiescentReturnsAll(st: State)
    requires Locks(st) && Slots(st) && Quiescent(st)
    ensures forall s <- st.m.all :: LockFree(st.m, s)
    ensures st.m.slots == st.cfg.maxSlots && st.m.slotWaiters == []
  {
    forall s <- st.m.all
      ensures LockFree(st.m, s)
    {
      QuiescentLock(st, s);
    }
    assert st.inSlot == {};
    SomeMember(st.m.slotWaiters);
  }

  lemma RunReturnsAll(ss: seq<State>, acts: seq<Action>)
    requires IsRun(ss, acts) && Quiescent(ss[|acts|])
    ensures forall s <- ss[|acts|].m.all :: LockFree(ss[|acts|].m, s)
    ensures ss[|acts|].m.slots == ss[|acts|].cfg.maxSlots
  {
    RunInv(ss, acts, |acts|);
    QuiescentReturnsAll(ss[|acts|]);
  }

  /** No run is stuck with something under way. */
  lemma RunProgress(ss: seq<State>, acts: seq<Action>) returns (a: Action)
    requires IsRun(ss, acts) && !Quiescent(ss[|acts|])
    ensures Advances(ss[|acts|], a) && IsRun(ss + [Next(ss[|acts|], a)], acts + [a])
  {
    RunInv(ss, acts, |acts|);
    a := Progress(ss[|acts|]);
    RunExtends(ss, acts, a);
  }

  /** And where no such step is left, nothing is under way. */
  lemma ExhaustedIsQuiescent(st: State)
    requires Inv(st) && forall a :: Cooperative(a) ==> !Enabled(st, a)
    ensures Quiescent(st)
  {
    if !Quiescent(st) {
      var a := Progress(st);
      assert false;
    }
  }

  /**
    Every run can be continued, by cooperative steps only, to a state where nothing is under way;
    there every lock is free and the semaphore is at its initial count.
   */
  lemma {:induction false} RunsDrain(ss: seq<State>, acts: seq<Action>) returns (ss': seq<State>, acts': seq<Action>)
    requires IsRun(ss, acts)
    ensures IsRun(ss', acts') && ss <= ss' && acts <= acts'
    ensures forall i :: |acts| <= i < |acts'| ==> Cooperative(acts'[i])
    ensures Quiescent(ss'[|acts'|])
    ensures forall s <- ss'[|acts'|].m.all :: LockFree(ss'[|acts'|].m, s)
    ensures ss'[|acts'|].m.slots == ss'[|acts'|].cfg.maxSlots
    decreases WorkLeft(ss[|acts|])
  {
    var st := ss[|acts|];
    if Quiescent(st) {
      ss', acts' := ss, acts;
      RunReturnsAll(ss, acts);
    } else {
      var a := RunProgress(ss, acts);
      ss', acts' := RunsDrain(ss + [Next(st, a)], acts + [a]);
    }
  }
}
