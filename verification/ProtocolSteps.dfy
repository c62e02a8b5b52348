/** Every action of the session protocol keeps the invariant. */
module ProtocolSteps {
  import opened Common
  import opened ManagerModel
  import opened Protocol
  import opened ProtocolInvariant

  // ----- effects shared by several actions -----

  lemma QuietInv(st: State, n: State, t: Tid, s: Sid)
    requires Inv(st) && QuietStep(st, n, t, s)
    ensures Sound(st, n)
  {
    SlotsKept(st, n, t);
    BoundsKept(st, n);
    MovedInv(st, n, t, s);
  }

  /** Facts about the lock of `s` that the moves of `t` need, besides its own invariant. */
  lemma LockFacts(st: State, t: Tid, s: Sid)
    requires Inv(st) && t in st.tasks && st.tasks[t].sid == Some(s) && s in st.m.all
    ensures Ready(st, t, s) && SerialAt(st, s) && LockInv(st, s) && MakerInv(st, s)
    ensures st.m.all[s].holder == None && s in st.m.registered ==> s !in st.threads
    ensures var task := st.tasks[t];
      !task.kind.Ephemeral? && (task.pc.Body? || task.pc.WaitSlot? || task.pc.Run? || task.pc == Wait(false)) ==>
        st.maker[s] != t
  {
    ReadyOf(st, t, s);
  }

  lemma EnterLocal(st: State, st1: State, t: Tid, s: Sid, cleanup: bool, n: State)
    requires Inv(st) && t in st.tasks && st.tasks[t].sid == Some(s) && s in st.m.all
    requires LockComes(st, st1, t, s, cleanup)
    requires n == Enter(st1, t, s, cleanup)
    ensures QuietStep(st, n, t, s)
  {
    LockFacts(st, t, s);
    EnterStep(st, st1, t, s, cleanup);
  }

  lemma EnterInv(st: State, st1: State, t: Tid, s: Sid, cleanup: bool)
    requires Inv(st) && t in st.tasks && st.tasks[t].sid == Some(s) && s in st.m.all
    requires LockComes(st, st1, t, s, cleanup)
    ensures Sound(st, Enter(st1, t, s, cleanup))
  {
    EnterLocal(st, st1, t, s, cleanup, Enter(st1, t, s, cleanup));
    QuietInv(st, Enter(st1, t, s, cleanup), t, s);
  }

  lemma UnqueueInv(st: State, t: Tid, s: Sid, o: Outcome, n: State)
    requires Inv(st) && t in st.tasks && st.tasks[t].sid == Some(s) && s in st.m.all && st.tasks[t].pc.Wait?
    requires o.WasCancelled? ==> st.tasks[t].cancelled
    requires var st1 := st.(m := Unqueued(st.m, s, Request(t)));
      n == if st.tasks[t].pc.cleanup then Goto(st1, t, Done(o)) else Leave(st1, t, o)
    requires st.tasks[t].pc.cleanup ==> o.DeleteTimedOut? || o.WasCancelled?
    ensures Sound(st, n)
  {
    UnqueueLocal(st, t, s, o, n);
    QuietInv(st, n, t, s);
  }

  lemma UnqueueLocal(st: State, t: Tid, s: Sid, o: Outcome, n: State)
    requires Inv(st) && t in st.tasks && st.tasks[t].sid == Some(s) && s in st.m.all && st.tasks[t].pc.Wait?
    requires o.WasCancelled? ==> st.tasks[t].cancelled
    requires var st1 := st.(m := Unqueued(st.m, s, Request(t)));
      n == if st.tasks[t].pc.cleanup then Goto(st1, t, Done(o)) else Leave(st1, t, o)
    requires st.tasks[t].pc.cleanup ==> o.DeleteTimedOut? || o.WasCancelled?
    ensures QuietStep(st, n, t, s)
  {
    LockFacts(st, t, s);
    UnqueueStep(st, t, s, o, n);
  }

  /** The body of `t` ends: it gives back its lock, and its slot or its place in the slot queue. */
  lemma LeaveInv(st: State, t: Tid, s: Sid, o: Outcome, m1: Manager, inSlot1: set<Tid>)
    requires Inv(st) && t in st.tasks && st.tasks[t].sid == Some(s) && s in st.m.all
    requires o.WasCancelled? ==> st.tasks[t].cancelled
    requires || (st.tasks[t].pc.Body? && m1 == st.m && inSlot1 == st.inSlot)
             || (st.tasks[t].pc.WaitSlot? && m1 == SlotUnqueued(st.m, t) && inSlot1 == st.inSlot)
             || (st.tasks[t].pc.Run? && m1 == SlotReleased(st.m) && inSlot1 == st.inSlot - {t})
    ensures Sound(st, Leave(ReleaseLock(st.(m := m1, inSlot := inSlot1), s), t, o))
  {
    var n := Leave(ReleaseLock(st.(m := m1, inSlot := inSlot1), s), t, o);
    LockFacts(st, t, s);
    ExitStep(st, t, s, m1, inSlot1, o, n);
    LeaveSame(st, n, t, s, o, m1, inSlot1);
    MovedInv(st, n, t, s);
  }

  lemma LeaveSame(st: State, n: State, t: Tid, s: Sid, o: Outcome, m1: Manager, inSlot1: set<Tid>)
    requires Bounds(st) && Slots(st) && t in st.tasks && s in st.m.all
    requires || (st.tasks[t].pc.Body? && m1 == st.m && inSlot1 == st.inSlot)
             || (st.tasks[t].pc.WaitSlot? && m1 == SlotUnqueued(st.m, t) && inSlot1 == st.inSlot)
             || (st.tasks[t].pc.Run? && m1 == SlotReleased(st.m) && inSlot1 == st.inSlot - {t})
    requires n == Leave(ReleaseLock(st.(m := m1, inSlot := inSlot1), s), t, o)
    ensures Bounds(n) && Slots(n) && st.m.held <= n.m.held
  {
    BoundsKept(st, n);
    if st.tasks[t].pc.Body? { SlotsKept(st, n, t); } else { SlotsLeft(st, n, t); }
  }

  lemma RetireSame(st: State, n: State, t: Tid, s: Sid, removed: bool, o: Outcome)
    requires Bounds(st) && Slots(st) && s in st.m.registered && t in st.tasks && st.tasks[t].pc.Deleting?
    requires n == Goto(ReleaseLock(st.(m := Retired(st.m, s, removed)), s), t, Done(o))
    ensures Bounds(n) && Slots(n) && st.m.held <= n.m.held
  {
    SlotsKept(st, n, t);
    BoundsRetired(st, n, s, Retired(st.m, s, removed));
  }

  lemma RetireInv(st: State, t: Tid, s: Sid, removed: bool, o: Outcome)
    requires Inv(st) && t in st.tasks && st.tasks[t].sid == Some(s) && s in st.m.all && st.tasks[t].pc.Deleting?
    ensures Sound(st, Goto(ReleaseLock(st.(m := Retired(st.m, s, removed)), s), t, Done(o)))
  {
    var n := Goto(ReleaseLock(st.(m := Retired(st.m, s, removed)), s), t, Done(o));
    LockFacts(st, t, s);
    RetireSame(st, n, t, s, removed, o);
    RetireStep(st, t, s, removed, o);
    MovedInv(st, n, t, s);
  }

  lemma UndoInv(st: State, t: Tid, s: Sid)
    requires Inv(st) && t in st.tasks && st.tasks[t].sid == Some(s) && s in st.m.all && st.tasks[t].pc.Quota?
    ensures Sound(st, Goto(StartRemoval(st.(m := CreateUndone(st.m, s)), s), t, Undo))
  {
    var n := Goto(StartRemoval(st.(m := CreateUndone(st.m, s)), s), t, Undo);
    LockFacts(st, t, s);
    QuotaFailStep(st, t, s);
    UndoSame(st, n, t, s);
    MovedInv(st, n, t, s);
  }

  lemma UndoSame(st: State, n: State, t: Tid, s: Sid)
    requires Bounds(st) && Slots(st) && s in st.m.registered && t in st.tasks && st.tasks[t].pc.Quota?
    requires n == Goto(StartRemoval(st.(m := CreateUndone(st.m, s)), s), t, Undo)
    ensures Bounds(n) && Slots(n) && st.m.held <= n.m.held
  {
    SlotsKept(st, n, t);
    BoundsRetired(st, n, s, CreateUndone(st.m, s));
  }

  lemma EventInv(st: State, t: Tid, s: Sid, e: Event)
    requires Inv(st) && t in st.tasks && st.tasks[t].sid == Some(s) && s in st.m.all
    requires st.tasks[t].pc.Body? || st.tasks[t].pc.Run?
    requires e.Saw? ==> e.tree == st.tree[s]
    ensures Sound(st, DoEvent(st, t, s, e))
  {
    LockFacts(st, t, s);
    EventStep(st, t, s, e);
    QuietInv(st, DoEvent(st, t, s, e), t, s);
  }

  lemma MarkInv(st: State, t: Tid, s: Sid)
    requires Inv(st) && t in st.tasks && st.tasks[t].sid == Some(s) && s in st.m.all && !st.tasks[t].pc.Done?
    requires !st.tasks[t].pc.Start?
    ensures Sound(st, Marked(st, t))
  {
    LockFacts(st, t, s);
    MarkStep(st, t, s);
    QuietInv(st, Marked(st, t), t, s);
  }

  lemma SlotCallInv(st: State, t: Tid, s: Sid, m1: Manager, inSlot1: set<Tid>, pc: Pc)
    requires Inv(st) && t in st.tasks && st.tasks[t].sid == Some(s) && s in st.m.all && Executes(st.tasks[t].kind)
    requires SlotCalled(st, t, m1, inSlot1, pc)
    ensures Sound(st, Goto(st.(m := m1, inSlot := inSlot1), t, pc))
  {
    var n := Goto(st.(m := m1, inSlot := inSlot1), t, pc);
    LockFacts(st, t, s);
    SlotStep(st, t, s, m1, inSlot1, pc, n);
    SlotSame(st, n, t, m1, inSlot1, pc);
    MovedInv(st, n, t, s);
  }

  lemma SlotSame(st: State, n: State, t: Tid, m1: Manager, inSlot1: set<Tid>, pc: Pc)
    requires Bounds(st) && Slots(st) && t in st.tasks && SlotCalled(st, t, m1, inSlot1, pc)
    requires n == Goto(st.(m := m1, inSlot := inSlot1), t, pc)
    ensures Bounds(n) && Slots(n) && st.m.held <= n.m.held
  {
    BoundsKept(st, n);
    SlotsEntered(st, n, t);
  }

  ghost predicate SlotCalled(st: State, t: Tid, m1: Manager, inSlot1: set<Tid>, pc: Pc) {
    t in st.tasks
    && (|| (st.tasks[t].pc.Body? && SlotFree(st.m) && m1 == SlotTaken(st.m) && inSlot1 == st.inSlot + {t}
            && pc == Run(st.tasks[t].pc.turn))
        || (st.tasks[t].pc.Body? && m1 == SlotQueued(st.m, t) && inSlot1 == st.inSlot
            && pc == WaitSlot(st.tasks[t].pc.turn))
        || (st.tasks[t].pc.WaitSlot? && SlotTurn(st.m, t) && m1 == SlotGranted(st.m) && inSlot1 == st.inSlot + {t}
            && pc == Run(st.tasks[t].pc.turn)))
  }

  lemma SlotMoveIs(st: State, t: Tid, s: Sid, b: BodyMove) returns (m1: Manager, inSlot1: set<Tid>, pc: Pc)
    requires KeysAgree(st) && t in st.tasks && s in st.m.all && (b.CallSlot? || b.GrantSlot?)
    requires InsideEnabled(st.tasks[t], b, SlotTurn(st.m, t))
    ensures SlotCalled(st, t, m1, inSlot1, pc)
    ensures InsideNext(st, t, s, b) == Goto(st.(m := m1, inSlot := inSlot1), t, pc)
  {
    var n := InsideNext(st, t, s, b);
    m1, inSlot1, pc := n.m, n.inSlot, n.tasks[t].pc;
    assert st.(m := m1, inSlot := st.inSlot) == st.(m := m1);
  }

  // ----- the actions of a task -----

  lemma QuotaOkInv(st: State, t: Tid, s: Sid, n: State)
    requires Inv(st) && t in st.tasks && st.tasks[t].sid == Some(s) && s in st.m.all && st.tasks[t].pc.Quota?
    requires n == Goto(st, t, if st.tasks[t].kind.Ephemeral? then Call(false) else Seed)
    ensures Sound(st, n)
  {
    LockFacts(st, t, s);
    QuotaOkStep(st, t, s, n);
    QuietInv(st, n, t, s);
  }

  lemma EndInv(st: State, t: Tid, s: Sid, o: Outcome)
    requires Inv(st) && t in st.tasks && st.tasks[t].sid == Some(s) && s in st.m.all
    requires st.tasks[t].pc.Undo? || (st.tasks[t].pc.Seed? && o.WasCancelled? && st.tasks[t].cancelled)
    ensures Sound(st, Goto(st, t, Done(o)))
  {
    LockFacts(st, t, s);
    DoneStep(st, t, s, o);
    QuietInv(st, Goto(st, t, Done(o)), t, s);
  }

  lemma SeedFailInv(st: State, t: Tid, s: Sid)
    requires Inv(st) && t in st.tasks && st.tasks[t].sid == Some(s) && s in st.m.all && st.tasks[t].pc.Seed?
    ensures Sound(st, Goto(st, t, Call(true)))
  {
    LockFacts(st, t, s);
    SeedFailStep(st, t, s);
    QuietInv(st, Goto(st, t, Call(true)), t, s);
  }

  lemma SeedPutInv(st: State, t: Tid, s: Sid, c: Change)
    requires Inv(st) && t in st.tasks && st.tasks[t].sid == Some(s) && s in st.m.all && st.tasks[t].pc.Seed?
    ensures Sound(st, st.(base := st.base[s := Changed(st.base[s], c)], tree := st.tree[s := Changed(st.tree[s], c)]))
  {
    LockFacts(st, t, s);
    SeedPutStep(st, t, s, c);
    QuietInv(st, st.(base := st.base[s := Changed(st.base[s], c)], tree := st.tree[s := Changed(st.tree[s], c)]), t, s);
  }

  lemma CancelledLeaves(st: State, t: Tid, s: Sid, m1: Manager, inSlot1: set<Tid>)
    requires t in st.tasks && s in st.m.all
    requires || (st.tasks[t].pc.Body? && m1 == st.m && inSlot1 == st.inSlot)
             || (st.tasks[t].pc.WaitSlot? && m1 == SlotUnqueued(st.m, t) && inSlot1 == st.inSlot)
             || (st.tasks[t].pc.Run? && m1 == SlotReleased(st.m) && inSlot1 == st.inSlot - {t})
    ensures DoCancel(st, t, s) == Leave(ReleaseLock(st.(m := m1, inSlot := inSlot1), s), t, WasCancelled)
  {
    assert st.(m := m1, inSlot := st.inSlot) == st.(m := m1) && st.(m := st.m) == st;
  }

  lemma CancelBodyInv(st: State, t: Tid, s: Sid)
    requires Inv(st) && t in st.tasks && st.tasks[t].sid == Some(s) && s in st.m.all && st.tasks[t].cancelled
    requires st.tasks[t].pc.Body? || st.tasks[t].pc.WaitSlot? || st.tasks[t].pc.Run?
    ensures Sound(st, DoCancel(st, t, s))
  {
    var pc := st.tasks[t].pc;
    var m1 := if pc.Body? then st.m else if pc.WaitSlot? then SlotUnqueued(st.m, t) else SlotReleased(st.m);
    var inSlot1 := if pc.Run? then st.inSlot - {t} else st.inSlot;
    CancelledLeaves(st, t, s, m1, inSlot1);
    LeaveInv(st, t, s, WasCancelled, m1, inSlot1);
  }

  lemma CancelInv(st: State, t: Tid, s: Sid)
    requires Inv(st) && t in st.tasks && st.tasks[t].sid == Some(s) && s in st.m.all && st.tasks[t].cancelled
    requires var pc := st.tasks[t].pc; !pc.Start? && !pc.Call? && !pc.Done?
    ensures Sound(st, DoCancel(st, t, s))
  {
    var pc := st.tasks[t].pc;
    if pc.Body? || pc.WaitSlot? || pc.Run? { CancelBodyInv(st, t, s); }
    else if pc.Deleting? { RetireInv(st, t, s, false, WasCancelled); }
    else if pc.Quota? { UndoInv(st, t, s); }
    else if pc.Wait? { UnqueueInv(st, t, s, WasCancelled, DoCancel(st, t, s)); }
    else { EndInv(st, t, s, WasCancelled); }
  }

  /** A client learns the id: from now on anybody may name the session. */
  lemma PublishInv(st: State, t: Tid, s: Sid)
    requires Inv(st) && t in st.tasks && st.tasks[t].sid == Some(s) && s in st.m.all && st.tasks[t].pc.Seed?
    ensures Sound(st, Goto(st, t, Done(Answered)).(published := st.published + {s}))
  {
    var n := Goto(st, t, Done(Answered)).(published := st.published + {s});
    PublishTasks(st, n, t, s);
    PublishMakers(st, n, t, s);
    PublishLocks(st, n, t, s);
    PublishRest(st, n, t, s);
  }

  lemma PublishTasks(st: State, n: State, t: Tid, s: Sid)
    requires WellFormed(st) && Tasks(st) && Makers(st)
    requires t in st.tasks && st.tasks[t].sid == Some(s) && s in st.m.all && st.tasks[t].pc.Seed?
    requires n == Goto(st, t, Done(Answered)).(published := st.published + {s})
    ensures WellFormed(n) && Tasks(n)
  {
    forall u <- n.tasks
      ensures TaskInv(n, u)
    {
      if u != t { PublishTask(st, n, t, s, u); }
    }
  }

  lemma PublishTask(st: State, n: State, t: Tid, s: Sid, u: Tid)
    requires KeysAgree(st) && KeysAgree(n) && t in st.tasks && s in st.m.all && TaskInv(st, t) && MakerInv(st, s)
    requires st.tasks[t].sid == Some(s) && st.tasks[t].pc.Seed?
    requires n == Goto(st, t, Done(Answered)).(published := st.published + {s})
    requires u != t && u in st.tasks && TaskInv(st, u)
    ensures TaskInv(n, u)
  {
  }

  lemma PublishMakers(st: State, n: State, t: Tid, s: Sid)
    requires WellFormed(st) && WellFormed(n) && Tasks(st) && Makers(st)
    requires t in st.tasks && st.tasks[t].sid == Some(s) && s in st.m.all && st.tasks[t].pc.Seed?
    requires n == Goto(st, t, Done(Answered)).(published := st.published + {s})
    ensures Makers(n)
  {
    assert MakerInv(st, s) && TaskInv(st, t);
    forall r <- n.m.all
      ensures MakerInv(n, r)
    {
      assert MakerInv(st, r);
    }
  }

  lemma PublishLocks(st: State, n: State, t: Tid, s: Sid)
    requires WellFormed(st) && Locks(st) && Removals(st)
    requires t in st.tasks && st.tasks[t].sid == Some(s) && s in st.m.all && st.tasks[t].pc.Seed?
    requires n == Goto(st, t, Done(Answered)).(published := st.published + {s})
    ensures Locks(n) && Removals(n)
  {
  }

  lemma PublishRest(st: State, n: State, t: Tid, s: Sid)
    requires WellFormed(st) && WellFormed(n) && Slots(st) && Serial(st) && Sweeping(st)
    requires t in st.tasks && st.tasks[t].sid == Some(s) && s in st.m.all && st.tasks[t].pc.Seed?
    requires n == Goto(st, t, Done(Answered)).(published := st.published + {s})
    ensures Slots(n) && Serial(n) && Sweeping(n)
  {
  }

  // ----- time and removal threads -----

  /** Time passes, or a removal thread works on files nobody else can reach any more. */
  ghost predicate Background(st: State, n: State) {
    && n == st.(now := n.now, threads := n.threads, tree := n.tree)
    && n.now >= st.now && n.threads.Keys == st.threads.Keys && n.tree.Keys == st.tree.Keys
    && (forall s <- st.tree :: s !in st.threads ==> n.tree[s] == st.tree[s])
    && (forall s <- st.threads :: n.threads[s] == st.threads[s] || (st.threads[s].Busy? && n.threads[s].Ended?))
    && (n.now != st.now ==> TickEnabled(st, n.now - st.now))
  }

  lemma BackgroundTask(st: State, n: State, t: Tid)
    requires KeysAgree(st) && KeysAgree(n) && Background(st, n) && t in st.tasks && TaskInv(st, t)
    ensures TaskInv(n, t)
  {
  }

  lemma BackgroundMaker(st: State, n: State, s: Sid)
    requires KeysAgree(st) && KeysAgree(n) && Background(st, n) && s in st.m.all && MakerInv(st, s)
    ensures MakerInv(n, s)
  {
  }

  lemma BackgroundLocks(st: State, n: State)
    requires WellFormed(st) && Background(st, n) && Locks(st) && Removals(st)
    ensures WellFormed(n) && Locks(n) && Removals(n)
  {
  }

  lemma BackgroundRest(st: State, n: State)
    requires WellFormed(st) && WellFormed(n) && Background(st, n) && Slots(st) && Serial(st) && Sweeping(st)
    ensures Slots(n) && Serial(n) && Sweeping(n)
  {
  }

  lemma BackgroundInv(st: State, n: State)
    requires Inv(st) && Background(st, n)
    ensures Sound(st, n)
  {
    BackgroundLocks(st, n);
    BackgroundRest(st, n);
    forall t <- n.tasks
      ensures TaskInv(n, t)
    {
      BackgroundTask(st, n, t);
    }
    forall s <- n.m.all
      ensures MakerInv(n, s)
    {
      BackgroundMaker(st, n, s);
    }
  }

  // ----- the sweeper -----

  lemma SweepOnlyInv(st: State, n: State)
    requires Inv(st) && n == st.(sweep := n.sweep) && WellFormed(n) && Sweeping(n)
    requires !st.sweep.Trying? && !st.sweep.Shielding? && !n.sweep.Trying? && !n.sweep.Shielding?
    ensures Sound(st, n)
  {
    forall t <- n.tasks
      ensures TaskInv(n, t)
    {
      SweepOnlyTask(st, n, t);
    }
    SweepOnlyRest(st, n);
  }

  /** Between two passes, or when one begins or ends. */
  lemma SweepRestInv(st: State, n: State)
    requires Inv(st) && (st.sweep.Idle? || st.sweep.Pass?) && n == st.(sweep := n.sweep)
    requires || n.sweep.Idle? || n.sweep.Stopped?
             || (n.sweep.Pass? && n.sweep.start == st.now && n.sweep.due == {}
                 && forall s :: s in n.sweep.todo ==> s in st.m.registered)
    ensures Sound(st, n)
  {
    SweepOnlyShape(st, n);
    SweepOnlyInv(st, n);
  }

  lemma SweepOnlyShape(st: State, n: State)
    requires WellFormed(st) && n == st.(sweep := n.sweep)
    requires || n.sweep.Idle? || n.sweep.Stopped?
             || (n.sweep.Pass? && n.sweep.due == {} && forall s :: s in n.sweep.todo ==> s in st.m.registered)
    ensures WellFormed(n)
  {
  }

  lemma SweepOnlyTask(st: State, n: State, t: Tid)
    requires KeysAgree(st) && KeysAgree(n) && n == st.(sweep := n.sweep) && t in st.tasks && TaskInv(st, t)
    ensures TaskInv(n, t)
  {
  }

  lemma SweepOnlyRest(st: State, n: State)
    requires WellFormed(st) && WellFormed(n) && n == st.(sweep := n.sweep)
    requires !st.sweep.Trying? && !st.sweep.Shielding?
    requires Locks(st) && Removals(st) && Makers(st) && Serial(st) && Slots(st)
    ensures Locks(n) && Removals(n) && Makers(n) && Serial(n) && Slots(n)
  {
  }

  /** The lock of `s` has come to the sweeper, which is in the middle of a pass. */
  ghost predicate SweepLockComes(st: State, st1: State, s: Sid)
    requires s in st.m.all
  {
    || (st.sweep.Trying? && st.sweep.s == s && CanGrant(st.m, s, Sweeper) && st1 == st.(m := Granted(st.m, s, Sweeper)))
    || (st.sweep.Pass? && LockFree(st.m, s) && st1 == st.(m := Held(st.m, s, Sweeper)))
  }

  /** What the sweeper finds with the lock: the queue behind it is `w`. */
  ghost predicate SweepCame(st: State, st1: State, s: Sid, w: seq<Agent>)
    requires s in st.m.all
  {
    && st1 == st.(m := st.m.(all := st.m.all[s := st.m.all[s].(holder := Some(Sweeper), waiters := w)]))
    && st.m.all[s].holder == None && (s in st.m.registered ==> s !in st.threads)
    && NoDup(w) && (forall a <- w :: WaiterInv(st, s, a) && a != Sweeper)
    && (forall a <- st.m.all[s].waiters :: a != Sweeper ==> a in w)
    && (st.sweep.Trying? || (st.sweep.Pass? && st.m.all[s].waiters == w))
  }

  lemma SweepLockCame(st: State, st1: State, s: Sid)
    requires SweepLocal(st, s) && SweepLockComes(st, st1, s)
    ensures s in st1.m.all && SweepCame(st, st1, s, st1.m.all[s].waiters)
  {
    NoDupQueue(st.m.all[s].waiters, Sweeper);
  }

  lemma SweepSkipStep(st: State, st1: State, s: Sid, todo: seq<Sid>)
    requires SweepLocal(st, s) && s in st1.m.all && SweepCame(st, st1, s, st1.m.all[s].waiters)
    requires st.sweep.Trying? ==> !LockFree(st.m, s)
    ensures SweepStep(st, ReleaseLock(st1, s).(sweep := Pass(st.sweep.start, todo, st.sweep.due)), s)
  {
    SweepSkipLocal(st, st1, s, todo);
  }

  lemma SweepSkipLocal(st: State, st1: State, s: Sid, todo: seq<Sid>)
    requires SweepLocal(st, s) && s in st1.m.all && SweepCame(st, st1, s, st1.m.all[s].waiters)
    ensures SweepLocal(ReleaseLock(st1, s).(sweep := Pass(st.sweep.start, todo, st.sweep.due)), s)
  {
  }

  lemma SweepStartStep(st: State, st1: State, s: Sid, todo: seq<Sid>)
    requires SweepLocal(st, s) && s in st1.m.all && SweepCame(st, st1, s, st1.m.all[s].waiters)
    requires s in st.m.registered && st.sweep.start - st.m.all[s].lastUsed > st.cfg.inactivity
    ensures SweepStep(st, st1.(sweep := Shielding(st.sweep.start, todo, st.sweep.due + {s}, s, Pending, false)), s)
  {
  }

  lemma SweepQueueStep(st: State, s: Sid, todo: seq<Sid>)
    requires SweepLocal(st, s) && st.sweep.Pass? && !LockFree(st.m, s)
    ensures var n := st.(m := Queued(st.m, s, Sweeper), sweep := Trying(st.sweep.start, todo, st.sweep.due, s));
      SweepStep(st, n, s) && SameIds(st.m, n.m)
  {
    NoDupQueue(st.m.all[s].waiters, Sweeper);
  }

  lemma SweepUnqueueStep(st: State, s: Sid, w: Sweep)
    requires SweepLocal(st, s) && st.sweep.Trying?
    requires w == Stopped || w == Pass(st.sweep.start, st.sweep.todo, st.sweep.due)
    ensures var n := st.(m := Unqueued(st.m, s, Sweeper), sweep := w);
      SweepStep(st, n, s) && SameIds(st.m, n.m)
  {
    SweepUnqueueLocal(st, s, w);
  }

  lemma SweepUnqueueLocal(st: State, s: Sid, w: Sweep)
    requires SweepLocal(st, s) && st.sweep.Trying?
    requires w == Stopped || w == Pass(st.sweep.start, st.sweep.todo, st.sweep.due)
    ensures SweepLocal(st.(m := Unqueued(st.m, s, Sweeper), sweep := w), s)
  {
  }

  lemma SweepDeleteStep(st: State, s: Sid)
    requires SweepLocal(st, s) && st.sweep.Shielding? && st.sweep.del.Pending?
    ensures SweepStep(st, StartRemoval(st, s).(sweep := st.sweep.(del := Removing)), s)
  {
  }

  lemma SweepDeletedStep(st: State, s: Sid, removed: bool)
    requires SweepLocal(st, s) && st.sweep.Shielding? && st.sweep.del.Removing?
    ensures SweepStep(st, st.(m := Retired(st.m, s, removed), sweep := st.sweep.(del := Finished)), s)
  {
  }

  lemma SweepResumeStep(st: State, s: Sid)
    requires SweepLocal(st, s) && st.sweep.Shielding? && st.sweep.del.Finished?
    ensures var w := st.sweep;
      var n := ReleaseLock(st, s).(sweep := if w.cancelled then Stopped else Pass(w.start, w.todo, w.due));
      SweepStep(st, n, s) && SameIds(st.m, n.m)
  {
    SweepResumeLocal(st, s);
  }

  lemma SweepResumeLocal(st: State, s: Sid)
    requires SweepLocal(st, s) && st.sweep.Shielding? && st.sweep.del.Finished?
    ensures var w := st.sweep;
      SweepLocal(ReleaseLock(st, s).(sweep := if w.cancelled then Stopped else Pass(w.start, w.todo, w.due)), s)
  {
  }

  lemma SweepCancelledStep(st: State, s: Sid, w: Sweep)
    requires SweepLocal(st, s) && st.sweep.Shielding?
    requires w == st.sweep.(cancelled := true)
          || (st.sweep.del.Pending? && st.sweep.cancelled && w == st.sweep.(del := Finished))
    ensures SweepStep(st, st.(sweep := w), s)
  {
  }

  lemma SweepLocalOf(st: State, s: Sid)
    requires Inv(st) && s in st.m.all && (st.sweep.Trying? || st.sweep.Shielding? ==> st.sweep.s == s)
    ensures SweepLocal(st, s)
  {
  }

  /** A step of the sweeper that at most changes the lock of `s` and starts its removal. */
  lemma SweepStepInv(st: State, n: State, s: Sid)
    requires Inv(st) && SweepStep(st, n, s) && SameIds(st.m, n.m)
    requires n.sweep.Pass? || n.sweep.Trying? || n.sweep.Shielding? ==>
          (forall r <- n.sweep.todo :: r in st.m.all) && n.sweep.due <= st.m.all.Keys
    ensures Sound(st, n)
  {
    SweepShape(st, n, s);
    BoundsKept(st, n);
    SweptInv(st, n, s);
  }

  lemma SweepShape(st: State, n: State, s: Sid)
    requires WellFormed(st) && SweepStep(st, n, s) && n.m.all.Keys == st.m.all.Keys
    requires n.sweep.Pass? || n.sweep.Trying? || n.sweep.Shielding? ==>
          (forall r <- n.sweep.todo :: r in st.m.all) && n.sweep.due <= st.m.all.Keys
    ensures WellFormed(n)
  {
  }

  lemma SweepDeletedInv(st: State, removed: bool, n: State)
    requires Inv(st) && st.sweep.Shielding? && st.sweep.del.Removing?
    requires n == st.(m := Retired(st.m, st.sweep.s, removed), sweep := st.sweep.(del := Finished))
    ensures Sound(st, n)
  {
    var s := st.sweep.s;
    SweepLocalOf(st, s);
    SweepDeletedStep(st, s, removed);
    SweepShape(st, n, s);
    assert Bounds(n) by { BoundsRetired(st, n, s, Retired(st.m, s, removed)); }
    SweptInv(st, n, s);
  }

  /** As much as the following needs of the invariant, without the rest of it. */
  lemma SweepFoundStep(st: State, st1: State, s: Sid, todo: seq<Sid>, n: State)
    requires SweepLocal(st, s) && SweepLockComes(st, st1, s)
    requires n == SweepCheck(st1, s, st.sweep.start, todo, st.sweep.due)
    ensures SweepStep(st, n, s)
  {
    SweepLockCame(st, st1, s);
    if s !in st.m.registered || st.sweep.start - st.m.all[s].lastUsed <= st.cfg.inactivity {
      SweepSkipStep(st, st1, s, todo);
    } else {
      SweepStartStep(st, st1, s, todo);
    }
  }

  lemma SweepFoundShape(st1: State, s: Sid, start: int, todo: seq<Sid>, due: set<Sid>, n: State)
    requires s in st1.m.all && n == SweepCheck(st1, s, start, todo, due)
    ensures n.m == Released(st1.m, s) || n.m == st1.m
    ensures n.sweep == Pass(start, todo, due) || n.sweep == Shielding(start, todo, due + {s}, s, Pending, false)
  {
    if s !in st1.m.registered || start - st1.m.all[s].lastUsed <= st1.cfg.inactivity {
      assert n == ReleaseLock(st1, s).(sweep := Pass(start, todo, due));
    } else {
      assert n == st1.(sweep := Shielding(start, todo, due + {s}, s, Pending, false));
    }
  }

  lemma SweepFoundIds(m: Manager, m1: Manager, s: Sid)
    requires s in m.all && s in m1.all && m1 == m.(all := m.all[s := m1.all[s]])
    requires m1.all[s].projectId == m.all[s].projectId
    ensures SameIds(m, m1) && SameIds(m, Released(m1, s))
  {
  }

  lemma SweepCheckInv(st: State, st1: State, s: Sid, todo: seq<Sid>, n: State)
    requires Inv(st) && s in st.m.all && SweepLockComes(st, st1, s) && forall r <- todo :: r in st.m.all
    requires n == SweepCheck(st1, s, st.sweep.start, todo, st.sweep.due)
    ensures Sound(st, n)
  {
    SweepLocalOf(st, s);
    SweepFoundStep(st, st1, s, todo, n);
    SweepFoundShape(st1, s, st.sweep.start, todo, st.sweep.due, n);
    SweepFoundIds(st.m, st1.m, s);
    SweepStepInv(st, n, s);
  }

  // ----- every action -----

  lemma CallInv(st: State, t: Tid)
    requires Inv(st) && t in st.tasks && st.tasks[t].pc.Call?
    ensures Sound(st, DoCall(st, t, st.tasks[t].sid.value, st.tasks[t].pc.cleanup))
  {
    var s, cleanup := st.tasks[t].sid.value, st.tasks[t].pc.cleanup;
    if s !in st.m.all {
      assert TaskInv(st, t);
      AloneInv(st, NotFound(st, t, cleanup), t);
    } else {
      CallKnownInv(st, t, s, cleanup);
    }
  }

  lemma CallKnownInv(st: State, t: Tid, s: Sid, cleanup: bool)
    requires Inv(st) && t in st.tasks && st.tasks[t].pc == Call(cleanup) && st.tasks[t].sid == Some(s) && s in st.m.all
    ensures Sound(st, DoCall(st, t, s, cleanup))
  {
    if s !in st.m.registered {
      CallGoneInv(st, t, s, cleanup);
    } else if LockFree(st.m, s) {
      EnterInv(st, st.(m := Held(st.m, s, Request(t))), t, s, cleanup);
    } else {
      QueueInv(st, t, s, cleanup);
    }
  }

  lemma CallGoneInv(st: State, t: Tid, s: Sid, cleanup: bool)
    requires Inv(st) && t in st.tasks && st.tasks[t].pc == Call(cleanup) && st.tasks[t].sid == Some(s) && s in st.m.all
    requires s !in st.m.registered
    ensures Sound(st, NotFound(st, t, cleanup))
  {
    LockFacts(st, t, s);
    CallGoneStep(st, t, s);
    QuietInv(st, NotFound(st, t, cleanup), t, s);
  }

  lemma QueueInv(st: State, t: Tid, s: Sid, cleanup: bool)
    requires Inv(st) && t in st.tasks && st.tasks[t].sid == Some(s) && s in st.m.registered
    requires st.tasks[t].pc == Call(cleanup) && !LockFree(st.m, s)
    ensures Sound(st, DoCall(st, t, s, cleanup))
  {
    var behind := st.m.all[s].holder == Some(Sweeper) || Sweeper in st.m.all[s].waiters;
    var n := st.(m := Queued(st.m, s, Request(t)),
                 tasks := st.tasks[t := st.tasks[t].(pc := Wait(cleanup), behind := behind)]);
    LockFacts(st, t, s);
    QueueFacts(st, t, s);
    QueueStep(st, t, s, behind, n);
    QuietInv(st, n, t, s);
  }

  lemma CreateInv(st: State, t: Tid, s: Sid, ok: bool)
    requires Inv(st) && At(st, t, Start) && Unheard(st, s)
    ensures Sound(st, DoCreate(st, t, s, ok))
  {
    if |st.m.registered| >= st.cfg.maxSessions || !ok || (st.cfg.quota && !CanAllocate(st.m)) {
      AloneInv(st, Goto(st, t, Done(Errored)), t);
    } else {
      CreateMakes(st, t, s);
      MakesInv(st, DoCreate(st, t, s, ok), t, s);
    }
  }

  lemma ArriveInv(st: State, t: Tid, kind: Kind, target: Sid, n: State)
    requires Inv(st) && t !in st.tasks && (target in st.m.all ==> target in st.published)
    requires n == DoArrive(st, t, kind, target)
    ensures Sound(st, n)
  {
    AloneInv(st, n, t);
  }

  lemma CreatingInv(st: State, t: Tid, s: Sid, c: CreateMove)
    requires Inv(st) && t in st.tasks && st.tasks[t].sid == Some(s) && s in st.m.all
    requires CreatingEnabled(st.tasks[t].pc, c, ThreadOver(st, s))
    ensures Sound(st, CreatingNext(st, t, s, c))
  {
    match c
    case QuotaOk => QuotaOkInv(st, t, s, CreatingNext(st, t, s, c));
    case QuotaFail => UndoInv(st, t, s);
    case UndoEnd => EndInv(st, t, s, Errored);
    case SeedPut(ch) => SeedPutInv(st, t, s, ch);
    case SeedOk => PublishInv(st, t, s);
    case SeedFail => SeedFailInv(st, t, s);
  }

  lemma LockingInv(st: State, t: Tid, s: Sid, l: LockMove)
    requires Inv(st) && t in st.tasks && st.tasks[t].sid == Some(s)
    requires LockingEnabled(st.tasks[t].pc, l, LockTurn(st, s, Request(t)))
    requires s in st.m.all || l.CallLock?
    ensures Sound(st, LockingNext(st, t, s, l))
  {
    match l
    case CallLock => CallInv(st, t);
    case Grant => EnterInv(st, st.(m := Granted(st.m, s, Request(t))), t, s, st.tasks[t].pc.cleanup);
    case LockTimeout =>
      UnqueueInv(st, t, s, if st.tasks[t].pc.cleanup then DeleteTimedOut else Answered, LockingNext(st, t, s, l));
  }

  lemma InsideInv(st: State, t: Tid, s: Sid, b: BodyMove)
    requires Inv(st) && t in st.tasks && st.tasks[t].sid == Some(s) && s in st.m.all
    requires InsideEnabled(st.tasks[t], b, SlotTurn(st.m, t))
    ensures Sound(st, InsideNext(st, t, s, b))
  {
    if b.Do? || b.Look? { EventInv(st, t, s, if b.Do? then Did(b.change) else Saw(st.tree[s])); }
    else {
      var m1, inSlot1, pc := SlotMoveIs(st, t, s, b);
      SlotCallInv(st, t, s, m1, inSlot1, pc);
    }
  }

  lemma ExitingInv(st: State, t: Tid, s: Sid, e: ExitMove)
    requires Inv(st) && t in st.tasks && st.tasks[t].sid == Some(s) && s in st.m.all
    requires ExitingEnabled(st.tasks[t].pc, e, ThreadOver(st, s))
    ensures Sound(st, ExitingNext(st, t, s, e))
  {
    match e
    case BodyEnd => LeaveInv(st, t, s, Answered, st.m, st.inSlot);
    case SlotTimeout => LeaveInv(st, t, s, Answered, SlotUnqueued(st.m, t), st.inSlot);
    case RunEnd => LeaveInv(st, t, s, Answered, SlotReleased(st.m), st.inSlot - {t});
    case DeleteEnd => RetireInv(st, t, s, st.threads[s].removed, Undone(st.tasks[t].kind));
  }

  lemma CancelledInv(st: State, t: Tid, s: Sid)
    requires Inv(st) && t in st.tasks && st.tasks[t].sid == Some(s) && s in st.m.all && Enabled(st, Cancel(t))
    ensures Sound(st, DoCancel(Marked(st, t), t, s))
  {
    MarkInv(st, t, s);
    CancelInv(Marked(st, t), t, s);
    MarkedGrows(st, t, DoCancel(Marked(st, t), t, s));
  }

  lemma MarkedGrows(st: State, t: Tid, n: State)
    requires t in st.tasks && Grows(Marked(st, t), n)
    ensures Grows(st, n)
  {
  }

  lemma SweepQueueInv(st: State, s: Sid, todo: seq<Sid>, n: State)
    requires Inv(st) && st.sweep.Pass? && s in st.m.all && !LockFree(st.m, s) && forall r <- todo :: r in st.m.all
    requires n == st.(m := Queued(st.m, s, Sweeper), sweep := Trying(st.sweep.start, todo, st.sweep.due, s))
    ensures Sound(st, n)
  {
    SweepLocalOf(st, s);
    SweepQueueStep(st, s, todo);
    SweepStepInv(st, n, s);
  }

  lemma SweepTryInv(st: State, n: State)
    requires Inv(st) && st.sweep.Pass? && st.sweep.todo != [] && n == DoSweepTry(st)
    ensures Sound(st, n)
  {
    var s, rest := st.sweep.todo[0], st.sweep.todo[1..];
    if LockFree(st.m, s) { SweepCheckInv(st, st.(m := Held(st.m, s, Sweeper)), s, rest, n); }
    else { SweepQueueInv(st, s, rest, n); }
  }

  lemma SweepLockStepInv(st: State, n: State)
    requires Inv(st) && st.sweep.Trying?
    requires n == st.(m := Unqueued(st.m, st.sweep.s, Sweeper), sweep := n.sweep)
    requires n.sweep == Stopped || n.sweep == Pass(st.sweep.start, st.sweep.todo, st.sweep.due)
    ensures Sound(st, n)
  {
    SweepLocalOf(st, st.sweep.s);
    SweepUnqueueStep(st, st.sweep.s, n.sweep);
    SweepStepInv(st, n, st.sweep.s);
  }

  lemma SweepDeleteInv(st: State, n: State)
    requires Inv(st) && st.sweep.Shielding? && st.sweep.del.Pending?
    requires n == StartRemoval(st, st.sweep.s).(sweep := st.sweep.(del := Removing))
    ensures Sound(st, n)
  {
    SweepLocalOf(st, st.sweep.s);
    SweepDeleteStep(st, st.sweep.s);
    SweepStepInv(st, n, st.sweep.s);
  }

  lemma SweepResumeInv(st: State, n: State)
    requires Inv(st) && st.sweep.Shielding? && st.sweep.del.Finished?
    requires var w := st.sweep;
      n == ReleaseLock(st, w.s).(sweep := if w.cancelled then Stopped else Pass(w.start, w.todo, w.due))
    ensures Sound(st, n)
  {
    SweepLocalOf(st, st.sweep.s);
    SweepResumeStep(st, st.sweep.s);
    SweepStepInv(st, n, st.sweep.s);
  }

  lemma SweepCancelledInv(st: State, n: State)
    requires Inv(st) && st.sweep.Shielding? && n == st.(sweep := n.sweep)
    requires n.sweep == st.sweep.(cancelled := true)
          || (st.sweep.del.Pending? && st.sweep.cancelled && n.sweep == st.sweep.(del := Finished))
    ensures Sound(st, n)
  {
    SweepLocalOf(st, st.sweep.s);
    SweepCancelledStep(st, st.sweep.s, n.sweep);
    SweepStepInv(st, n, st.sweep.s);
  }

  lemma SweepCancelInv(st: State, n: State)
    requires Inv(st) && (st.sweep.Idle? || st.sweep.Trying? || st.sweep.Shielding?) && n == DoSweepCancel(st)
    ensures Sound(st, n)
  {
    var w := st.sweep;
    if w.Idle? { SweepRestInv(st, n); }
    else if w.Trying? { SweepLockStepInv(st, n); }
    else { SweepCancelShieldedInv(st, n); }
  }

  lemma SweepCancelShielded(st: State, n: State)
    requires st.sweep.Shielding? && st.sweep.s in st.m.all && n == DoSweepCancel(st)
    ensures if st.sweep.cancelled && st.sweep.del.Removing? then
        n == st.(m := Retired(st.m, st.sweep.s, false), sweep := st.sweep.(del := Finished))
      else
        n == st.(sweep := n.sweep) &&
        (n.sweep == st.sweep.(cancelled := true)
         || (st.sweep.del.Pending? && st.sweep.cancelled && n.sweep == st.sweep.(del := Finished)))
  {
  }

  lemma SweepCancelShieldedInv(st: State, n: State)
    requires Inv(st) && st.sweep.Shielding? && n == DoSweepCancel(st)
    ensures Sound(st, n)
  {
    SweepCancelShielded(st, n);
    if st.sweep.cancelled && st.sweep.del.Removing? { SweepDeletedInv(st, false, n); }
    else { SweepCancelledInv(st, n); }
  }

  lemma SweepingInv(st: State, w: SweepMove, n: State)
    requires Inv(st) && SweepingEnabled(st, w) && n == SweepingNext(st, w)
    ensures Sound(st, n)
  {
    if w.Begin? || w.End? { SweepRestInv(st, n); }
    else if w.Try? { SweepTryInv(st, n); }
    else if w.Delete? { SweepDeleteInv(st, n); }
    else if w.Resume? { SweepResumeInv(st, n); }
    else if w.Cancelled? { SweepCancelInv(st, n); }
    else { SweepingRest(st, w, n); }
  }

  lemma SweepingRest(st: State, w: SweepMove, n: State)
    requires Inv(st) && SweepingEnabled(st, w) && (w.Grant? || w.Timeout? || w.Deleted?) && n == SweepingNext(st, w)
    ensures Sound(st, n)
  {
    if w.Grant? { SweepCheckInv(st, st.(m := Granted(st.m, st.sweep.s, Sweeper)), st.sweep.s, st.sweep.todo, n); }
    else if w.Timeout? { SweepLockStepInv(st, n); }
    else { SweepDeletedInv(st, st.threads[st.sweep.s].removed, n); }
  }

  /** The steps of a task are about a session that exists, but for a call of `locked`. */
  lemma TaskHasSession(st: State, t: Tid)
    requires WellFormed(st) && Tasks(st) && t in st.tasks && !st.tasks[t].pc.Start? && !st.tasks[t].pc.Done?
    ensures st.tasks[t].sid == Some(SidOf(st, t)) && (SidOf(st, t) in st.m.all || st.tasks[t].pc.Call?)
  {
    assert TaskInv(st, t);
  }

  lemma TaskStepInv(st: State, a: Action, t: Tid, s: Sid)
    requires Inv(st) && Enabled(st, a) && (a.Creating? || a.Locking? || a.Inside? || a.Exiting? || a.Cancel?)
    requires t == a.t && t in st.tasks && st.tasks[t].sid == Some(s) && s == SidOf(st, t)
    requires s in st.m.all || st.tasks[t].pc.Call?
    ensures Sound(st, Next(st, a))
  {
    if a.Creating? { CreatingInv(st, t, s, a.create); }
    else if a.Locking? { LockingInv(st, t, s, a.lock); }
    else if a.Inside? { InsideInv(st, t, s, a.body); }
    else if a.Exiting? { ExitingInv(st, t, s, a.exit); }
    else { CancelledInv(st, t, s); }
  }

  lemma BackgroundStep(st: State, a: Action)
    requires WellFormed(st) && Enabled(st, a) && (a.Tick? || a.ThreadErase? || a.ThreadEnd?)
    ensures Background(st, Next(st, a))
  {
    if a.Tick? { assert Next(st, a).now - st.now == a.d; }
  }

  lemma BackgroundStepInv(st: State, a: Action)
    requires Inv(st) && Enabled(st, a) && (a.Tick? || a.ThreadErase? || a.ThreadEnd?)
    ensures Sound(st, Next(st, a))
  {
    BackgroundStep(st, a);
    BackgroundInv(st, Next(st, a));
  }

  /** The invariant is inductive. */
  lemma StepInv(st: State, a: Action)
    requires Inv(st) && Enabled(st, a)
    ensures Sound(st, Next(st, a))
  {
    if a.Arrive? { ArriveInv(st, a.t, a.kind, a.target, Next(st, a)); }
    else if a.Create? { CreateInv(st, a.t, a.s, a.mkdtempOk); }
    else if a.Tick? || a.ThreadErase? || a.ThreadEnd? { BackgroundStepInv(st, a); }
    else if a.Sweeps? { SweepingInv(st, a.sweep, Next(st, a)); }
    else {
      TaskHasSession(st, a.t);
      TaskStepInv(st, a, a.t, SidOf(st, a.t));
    }
  }
}
