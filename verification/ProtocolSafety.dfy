/** What the invariant means for every run of the session protocol. */
module ProtocolSafety {
  import opened Common
  import opened ManagerModel
  import opened Protocol
  import opened ProtocolInvariant
  import opened ProtocolSteps

  /** A run: any interleaving of enabled actions from a freshly started service. */
  ghost predicate IsRun(ss: seq<State>, acts: seq<Action>) {
    && |ss| == |acts| + 1 && Init(ss[0])
    && forall i {:trigger StepAt(ss, acts, i)} :: 0 <= i < |acts| ==> StepAt(ss, acts, i)
  }

  ghost predicate StepAt(ss: seq<State>, acts: seq<Action>, i: nat)
    requires |ss| == |acts| + 1 && i < |acts|
  {
    StepsTo(ss[i], acts[i], ss[i + 1])
  }

  lemma RunStep(ss: seq<State>, acts: seq<Action>, i: nat)
    requires IsRun(ss, acts) && i < |acts|
    ensures StepsTo(ss[i], acts[i], ss[i + 1])
  {
    assert StepAt(ss, acts, i);
  }

  ghost predicate StepsTo(st: State, a: Action, n: State) {
    WellFormed(st) && Enabled(st, a) && n == Next(st, a)
  }

  lemma StepsToSound(st: State, a: Action, n: State)
    requires Inv(st) && StepsTo(st, a, n)
    ensures Sound(st, n)
  {
    StepInv(st, a);
  }

  lemma RunSound(ss: seq<State>, acts: seq<Action>, i: nat)
    requires IsRun(ss, acts) && i < |acts| && Inv(ss[i])
    ensures Sound(ss[i], ss[i + 1])
  {
    RunStep(ss, acts, i);
    StepsToSound(ss[i], acts[i], ss[i + 1]);
  }

  lemma RunStarts(ss: seq<State>, acts: seq<Action>)
    requires IsRun(ss, acts)
    ensures Inv(ss[0])
  {
    InitInv(ss[0]);
  }

  /** Every state of a run meets the invariant. */
  lemma RunInv(ss: seq<State>, acts: seq<Action>, i: nat)
    requires IsRun(ss, acts) && i < |ss|
    ensures Inv(ss[i])
  {
    RunStarts(ss, acts);
    for j := 0 to i
      invariant Inv(ss[j])
    {
      RunSound(ss, acts, j);
    }
  }

  lemma OneStepMore(ss: seq<State>, acts: seq<Action>, a: Action, n: State)
    requires IsRun(ss, acts) && StepsTo(ss[|acts|], a, n)
    ensures IsRun(ss + [n], acts + [a])
  {
    var ss', acts' := ss + [n], acts + [a];
    forall i | 0 <= i < |acts'|
      ensures StepAt(ss', acts', i)
    {
      if i < |acts| { assert StepAt(ss, acts, i); } else { assert ss'[i] == ss[i] && ss'[i + 1] == n; }
    }
  }

  /** No reachable state is stuck for want of well-formedness: every enabled action extends a run. */
  lemma RunExtends(ss: seq<State>, acts: seq<Action>, a: Action)
    requires IsRun(ss, acts) && Enabled(ss[|acts|], a)
    ensures WellFormed(ss[|acts|]) && IsRun(ss + [Next(ss[|acts|], a)], acts + [a])
  {
    RunInv(ss, acts, |acts|);
    OneStepMore(ss, acts, a, Next(ss[|acts|], a));
  }

  /**
    No use after retirement. Whoever is inside `locked` holds the lock of a session that is still
    registered; its directory is being removed only by that very task, so no body ever works in a
    directory whose removal has started, and nobody else is inside with it.
   */
  lemma NoUseAfterRetirement(ss: seq<State>, acts: seq<Action>, i: nat, t: Tid)
    requires IsRun(ss, acts) && i < |ss| && t in ss[i].tasks && InLock(ss[i].tasks[t].pc)
    ensures AloneInside(ss[i], t)
  {
    RunInv(ss, acts, i);
    InsideAlone(ss[i], t);
  }

  ghost predicate AloneInside(st: State, t: Tid)
    requires t in st.tasks
  {
    var task := st.tasks[t];
    && task.sid.Some? && task.sid.value in st.m.registered && task.sid.value in st.m.all
    && st.m.all[task.sid.value].holder == Some(Request(t))
    && (task.sid.value in st.threads <==> task.pc.Deleting?)
    && (forall u <- st.tasks :: u != t && InLock(st.tasks[u].pc) ==> st.tasks[u].sid != task.sid)
    && (st.sweep.Shielding? ==> st.sweep.s != task.sid.value)
  }

  lemma InsideAlone(st: State, t: Tid)
    requires WellFormed(st) && Tasks(st) && Sweeping(st) && t in st.tasks && InLock(st.tasks[t].pc)
    ensures AloneInside(st, t)
  {
    InsideHolds(st, t);
    forall u <- st.tasks | u != t && InLock(st.tasks[u].pc)
      ensures st.tasks[u].sid != st.tasks[t].sid
    {
      InsideHolds(st, u);
    }
  }

  lemma InsideHolds(st: State, t: Tid)
    requires KeysAgree(st) && t in st.tasks && InLock(st.tasks[t].pc) && TaskInv(st, t)
    ensures var task := st.tasks[t];
      && task.sid.Some? && task.sid.value in st.m.registered && task.sid.value in st.m.all
      && st.m.all[task.sid.value].holder == Some(Request(t))
      && (task.sid.value in st.threads <==> task.pc.Deleting?)
  {
  }

  /**
    Serialisability. In every reachable state, and for every session ever made, what its bodies did and saw
    is what they do and see when they run one after another in the order they were granted the lock; and
    until somebody starts to remove the files, these are what that serial execution leaves.
   */
  lemma SerialInGrantOrder(ss: seq<State>, acts: seq<Action>, i: nat, s: Sid)
    requires IsRun(ss, acts) && i < |ss| && s in ss[i].m.all
    ensures s in ss[i].base && s in ss[i].hist && s in ss[i].tree
    ensures RunTurns(ss[i].base[s], ss[i].hist[s]).Some?
    ensures s !in ss[i].threads ==> RunTurns(ss[i].base[s], ss[i].hist[s]) == Some(ss[i].tree[s])
  {
    RunInv(ss, acts, i);
    assert SerialAt(ss[i], s);
  }

  /** What each body starts from is what the bodies before it left, and it saw nothing else since. */
  lemma {:induction false} TurnsRunAlone(tree: Tree, turns: seq<Turn>, k: nat)
    requires RunTurns(tree, turns).Some? && k < |turns|
    ensures RunTurns(tree, turns[..k]).Some?
    ensures RunEvents(RunTurns(tree, turns[..k]).value, turns[k].events) == RunTurns(tree, turns[..k + 1])
    ensures RunTurns(tree, turns[..k + 1]).Some?
  {
    if k + 1 < |turns| {
      var init := turns[..|turns| - 1];
      TurnsRunAlone(tree, init, k);
      assert init[..k] == turns[..k] && init[..k + 1] == turns[..k + 1];
    } else {
      assert turns[..k + 1] == turns && turns[..k] == turns[..|turns| - 1];
    }
  }

  /** An observation is of the tree the same body's own earlier changes made of what it started from. */
  lemma {:induction false} SawOwnTree(start: Tree, events: seq<Event>, j: nat)
    requires RunEvents(start, events).Some? && j < |events| && events[j].Saw?
    ensures RunEvents(start, events[..j]) == Some(events[j].tree)
  {
    if j + 1 < |events| {
      var init := events[..|events| - 1];
      SawOwnTree(start, init, j);
      assert init[..j] == events[..j];
    } else {
      assert events[..j] == events[..|events| - 1];
    }
  }

  /** The ids handed out are all accounted for, and two registered sessions never share one. */
  lemma ProjectIdsConserved(ss: seq<State>, acts: seq<Action>, i: nat)
    requires IsRun(ss, acts) && i < |ss|
    ensures IdsConserved(ss[i].m)
    ensures forall s1 <- ss[i].m.registered, s2 <- ss[i].m.registered ::
      s1 != s2 && ss[i].m.all[s1].projectId.Some? ==> ss[i].m.all[s1].projectId != ss[i].m.all[s2].projectId
  {
    RunInv(ss, acts, i);
    forall s1 <- ss[i].m.registered, s2 <- ss[i].m.registered | s1 != s2
      ensures ss[i].m.all[s1].projectId.Some? ==> ss[i].m.all[s1].projectId != ss[i].m.all[s2].projectId
    {
      ProjectIdsUnshared(ss[i].m, s1, s2);
    }
  }

  /** The configured limits hold at every step. */
  lemma LimitsHold(ss: seq<State>, acts: seq<Action>, i: nat)
    requires IsRun(ss, acts) && i < |ss|
    ensures |ss[i].m.registered| <= ss[i].cfg.maxSessions
    ensures forall r: set<Tid> :: (forall t <- r :: t in ss[i].tasks && ss[i].tasks[t].pc.Run?) ==>
      |r| <= ss[i].cfg.maxSlots
  {
    RunInv(ss, acts, i);
    forall r: set<Tid> | forall t <- r :: t in ss[i].tasks && ss[i].tasks[t].pc.Run?
      ensures |r| <= ss[i].cfg.maxSlots
    {
      assert r <= ss[i].inSlot;
      SubsetSize(r, ss[i].inSlot);
    }
  }

  lemma {:induction false} SubsetSize(a: set<Tid>, b: set<Tid>)
    requires a <= b
    ensures |a| <= |b|
  {
    if a != {} {
      var x :| x in a;
      SubsetSize(a - {x}, b - {x});
    }
  }

  /**
    Session accounting. A handler that made a session and ended has unregistered it, unless it gave
    the id to its client, was cancelled, or its delete timed out queueing behind the sweeper.
   */
  lemma MakersLeaveNothing(ss: seq<State>, acts: seq<Action>, i: nat, s: Sid)
    requires IsRun(ss, acts) && i < |ss| && s in ss[i].m.registered
    requires s in ss[i].maker && ss[i].maker[s] in ss[i].tasks && ss[i].tasks[ss[i].maker[s]].pc.Done?
    ensures var mk := ss[i].tasks[ss[i].maker[s]];
      || (mk.kind.CreateSession? && mk.pc.outcome.Answered? && s in ss[i].published)
      || mk.cancelled
      || (mk.pc.outcome.DeleteTimedOut? && mk.behind)
  {
    RunInv(ss, acts, i);
    assert MakerInv(ss[i], s);
  }

  /** An unpublished session is known to its maker only. */
  lemma UnpublishedIsPrivate(ss: seq<State>, acts: seq<Action>, i: nat, s: Sid, t: Tid)
    requires IsRun(ss, acts) && i < |ss| && s in ss[i].m.all && s !in ss[i].published
    requires t in ss[i].tasks && ss[i].tasks[t].sid == Some(s)
    ensures s in ss[i].maker && t == ss[i].maker[s] && MakesSession(ss[i].tasks[t].kind)
  {
    RunInv(ss, acts, i);
    assert MakerInv(ss[i], s);
  }

  /**
    Sweep soundness. While the sweeper deletes a session it holds its lock, and nobody entered the
    session within the timeout before the pass began.
   */
  lemma SweepSound(ss: seq<State>, acts: seq<Action>, i: nat)
    requires IsRun(ss, acts) && i < |ss| && ss[i].sweep.Shielding?
    ensures var st := ss[i];
      && st.sweep.s in st.m.all && st.m.all[st.sweep.s].holder == Some(Sweeper)
      && st.sweep.start - st.m.all[st.sweep.s].lastUsed > st.cfg.inactivity
      && (!st.sweep.del.Finished? ==> st.sweep.s in st.m.registered)
      && (st.sweep.del.Finished? && !st.sweep.cancelled ==> st.sweep.s !in st.m.registered)
  {
    RunInv(ss, acts, i);
    ShieldedIsIdle(ss[i]);
  }

  lemma ShieldedIsIdle(st: State)
    requires WellFormed(st) && Sweeping(st) && st.sweep.Shielding?
    ensures st.sweep.s in st.m.all && st.m.all[st.sweep.s].holder == Some(Sweeper)
    ensures st.sweep.start - st.m.all[st.sweep.s].lastUsed > st.cfg.inactivity
    ensures !st.sweep.del.Finished? ==> st.sweep.s in st.m.registered
    ensures st.sweep.del.Finished? && !st.sweep.cancelled ==> st.sweep.s !in st.m.registered
  {
  }

  // ----- what never comes back -----

  lemma GrowsOn(a: State, b: State, c: State)
    requires Grows(a, b) && Grows(b, c)
    ensures Grows(a, c)
  {
  }

  lemma RunGrows(ss: seq<State>, acts: seq<Action>, i: nat, j: nat)
    requires IsRun(ss, acts) && i <= j < |ss|
    ensures Grows(ss[i], ss[j])
  {
    for k := i to j
      invariant Grows(ss[i], ss[k])
    {
      RunGrowsStep(ss, acts, i, k);
    }
  }

  lemma RunGrowsStep(ss: seq<State>, acts: seq<Action>, i: nat, k: nat)
    requires IsRun(ss, acts) && i <= k < |acts| && Grows(ss[i], ss[k])
    ensures Grows(ss[i], ss[k + 1])
  {
    RunInv(ss, acts, k);
    RunSound(ss, acts, k);
    GrowsOn(ss[i], ss[k], ss[k + 1]);
  }

  /**
    An id held back is never handed out again, a session once unregistered stays so, and the
    removal of a directory is started at most once.
   */
  lemma NothingComesBack(ss: seq<State>, acts: seq<Action>, i: nat, j: nat)
    requires IsRun(ss, acts) && i <= j < |ss|
    ensures forall p <- ss[i].m.held :: p in ss[j].m.held && p !in ss[j].m.owner && p !in ss[j].m.freeIds
    ensures forall s <- ss[i].m.all :: s !in ss[i].m.registered ==> s !in ss[j].m.registered
    ensures forall s <- ss[i].threads :: s in ss[j].threads
              && (ss[j].threads[s] == ss[i].threads[s] || (ss[i].threads[s].Busy? && ss[j].threads[s].Ended?))
  {
    RunGrows(ss, acts, i, j);
    assert Bounds(ss[j]) by { RunInv(ss, acts, j); }
  }

  /** With this step task `t` is done with deleting its session, or cancelled at it. */
  ghost predicate RequestEndsDeletion(st: State, a: Action, s: Sid) {
    && (a.Exiting? || a.Cancel?) && a.t in st.tasks
    && st.tasks[a.t].pc.Deleting? && st.tasks[a.t].sid == Some(s)
  }

  /** With this step the sweeper's deletion of a session is over, or reached by a second cancellation. */
  ghost predicate SweepEndsDeletion(st: State, a: Action, s: Sid) {
    && st.sweep.Shielding? && st.sweep.del.Removing? && st.sweep.s == s
    && (a == Sweeps(Deleted) || (a == Sweeps(SweepMove.Cancelled) && st.sweep.cancelled))
  }

  /** A `_delete` ends, whoever runs it. */
  ghost predicate EndsDeletion(st: State, a: Action, s: Sid) {
    RequestEndsDeletion(st, a, s) || SweepEndsDeletion(st, a, s)
  }

  /** The tree is gone, and the deletion is there to hear of it. */
  ghost predicate HearsOfRemoval(st: State, a: Action, s: Sid) {
    (a.Exiting? || a == Sweeps(Deleted)) && s in st.threads && st.threads[s] == Ended(true)
  }

  /**
    A deletion settles the fate of its project id: the id is free again exactly if the tree was
    removed and the deletion was there to hear of it, and is held back otherwise. Either way the
    session is gone from the registry.
   */
  lemma DeletionSettlesId(st: State, a: Action, n: State, s: Sid)
    requires Inv(st) && StepsTo(st, a, n) && EndsDeletion(st, a, s)
    ensures s in st.m.registered && s in st.m.all && IdSettled(st.m, n.m, s, HearsOfRemoval(st, a, s))
  {
    if RequestEndsDeletion(st, a, s) { RequestSettlesId(st, a, n, s); } else { SweepSettlesId(st, a, n, s); }
  }

  lemma RequestSettlesId(st: State, a: Action, n: State, s: Sid)
    requires StepsTo(st, a, n) && RequestEndsDeletion(st, a, s) && Bounds(st) && Tasks(st)
    ensures s in st.m.registered && s in st.m.all && IdSettled(st.m, n.m, s, HearsOfRemoval(st, a, s))
  {
    assert TaskInv(st, a.t);
    RequestIsRetired(st, a, n, s);
    DeletionSettles(st.m, s, a.Exiting? && st.threads[s].removed);
  }

  lemma RequestIsRetired(st: State, a: Action, n: State, s: Sid)
    requires StepsTo(st, a, n) && RequestEndsDeletion(st, a, s) && s in st.m.all
    ensures n.m == Released(Retired(st.m, s, a.Exiting? && st.threads[s].removed), s)
  {
  }

  lemma SweepSettlesId(st: State, a: Action, n: State, s: Sid)
    requires StepsTo(st, a, n) && SweepEndsDeletion(st, a, s) && Bounds(st) && Sweeping(st)
    ensures s in st.m.registered && s in st.m.all && IdSettled(st.m, n.m, s, HearsOfRemoval(st, a, s))
  {
    SweptIsRetired(st, a.sweep, n);
    DeletionSettles(st.m, s, a == Sweeps(Deleted) && st.threads[s].removed);
  }

  lemma SweptIsRetired(st: State, w: SweepMove, n: State)
    requires st.sweep.Shielding? && st.sweep.del.Removing? && st.sweep.s in st.m.all
    requires SweepingEnabled(st, w) && n == SweepingNext(st, w)
    requires w == Deleted || (w == SweepMove.Cancelled && st.sweep.cancelled)
    ensures n.m == Retired(st.m, st.sweep.s, w == Deleted && st.threads[st.sweep.s].removed)
  {
    if w.Cancelled? { SweepCancelShielded(st, n); }
  }

  /**
    The id of a session whose deletion failed or was cancelled, by a request or by the sweeper, is never
    handed out again: nobody owns it and it is not free, then or ever after.
   */
  lemma UnconfirmedIdNeverReturns(ss: seq<State>, acts: seq<Action>, i: nat, j: nat, s: Sid, p: int)
    requires IsRun(ss, acts) && i < j < |ss| && EndsDeletion(ss[i], acts[i], s) && !HearsOfRemoval(ss[i], acts[i], s)
    requires s in ss[i].m.all && ss[i].m.all[s].projectId == Some(p)
    ensures p in ss[j].m.held && p !in ss[j].m.owner && p !in ss[j].m.freeIds
    ensures forall r <- ss[j].m.registered :: r in ss[j].m.all && ss[j].m.all[r].projectId != Some(p)
  {
    UnconfirmedIsHeld(ss, acts, i, s, p);
    NothingComesBack(ss, acts, i + 1, j);
    BoundsInRun(ss, acts, j);
    HeldIsUnowned(ss[j].m, p);
  }

  lemma UnconfirmedIsHeld(ss: seq<State>, acts: seq<Action>, i: nat, s: Sid, p: int)
    requires IsRun(ss, acts) && i < |acts| && EndsDeletion(ss[i], acts[i], s) && !HearsOfRemoval(ss[i], acts[i], s)
    requires s in ss[i].m.all && ss[i].m.all[s].projectId == Some(p)
    ensures p in ss[i + 1].m.held
  {
    RunInv(ss, acts, i);
    RunStep(ss, acts, i);
    DeletionSettlesId(ss[i], acts[i], ss[i + 1], s);
  }

  lemma BoundsInRun(ss: seq<State>, acts: seq<Action>, i: nat)
    requires IsRun(ss, acts) && i < |ss|
    ensures Bounds(ss[i])
  {
    RunInv(ss, acts, i);
  }

  lemma HeldIsUnowned(m: Manager, p: int)
    requires IdsConserved(m) && p in m.held
    ensures forall r <- m.registered :: r in m.all && m.all[r].projectId != Some(p)
  {
  }

  /** The session is unregistered and its id, if any, is free or held back but no longer owned. */
  ghost predicate IdSettled(m: Manager, n: Manager, s: Sid, free: bool)
    requires s in m.all
  {
    && s !in n.registered
    && (m.all[s].projectId.Some? ==>
          var p := m.all[s].projectId.value;
          p !in n.owner && (p in n.freeIds <==> free) && (p in n.held <==> !free))
  }

  lemma DeletionSettles(m: Manager, s: Sid, removed: bool)
    requires IdsConserved(m) && s in m.registered
    ensures IdSettled(m, Retired(m, s, removed), s, removed)
    ensures IdSettled(m, Released(Retired(m, s, removed), s), s, removed)
  {
    if m.all[s].projectId.Some? { assert m.all[s].projectId.value in m.owner; }
  }

  // ----- what the steps of a task leave alone -----

  /** The sweeper is where it was, and the same ids are free. */
  predicate Untouched(st: State, n: State) {
    n.sweep == st.sweep && n.m.freeIds == st.m.freeIds
  }

  lemma EnterLeaves(st: State, t: Tid, s: Sid, cleanup: bool)
    requires t in st.tasks && s in st.m.all && s in st.hist
    ensures Untouched(st, Enter(st, t, s, cleanup))
  {
  }

  lemma LockingLeaves(st: State, t: Tid, s: Sid, l: LockMove)
    requires t in st.tasks && (s in st.m.registered ==> s in st.m.all && s in st.hist)
    requires LockingEnabled(st.tasks[t].pc, l, LockTurn(st, s, Request(t)))
    requires !l.CallLock? ==> s in st.m.all && s in st.hist
    ensures Untouched(st, LockingNext(st, t, s, l))
  {
    var cleanup := st.tasks[t].pc.cleanup;
    if l.CallLock? && s in st.m.registered && LockFree(st.m, s) {
      EnterLeaves(st.(m := Held(st.m, s, Request(t))), t, s, cleanup);
    } else if l.Grant? {
      EnterLeaves(st.(m := Granted(st.m, s, Request(t))), t, s, cleanup);
    }
  }

  lemma InsideLeaves(st: State, t: Tid, s: Sid, b: BodyMove)
    requires KeysAgree(st) && t in st.tasks && s in st.m.all && InsideEnabled(st.tasks[t], b, SlotTurn(st.m, t))
    requires b.Do? || b.Look? ==> st.tasks[t].pc.turn < |st.hist[s]|
    ensures Untouched(st, InsideNext(st, t, s, b))
  {
  }

  lemma ExitingLeaves(st: State, t: Tid, s: Sid, e: ExitMove)
    requires t in st.tasks && s in st.m.all && (e.DeleteEnd? ==> ThreadOver(st, s))
    ensures ExitingNext(st, t, s, e).sweep == st.sweep
    ensures !e.DeleteEnd? || !st.threads[s].removed ==> Untouched(st, ExitingNext(st, t, s, e))
  {
  }

  lemma CreatingLeaves(st: State, t: Tid, s: Sid, c: CreateMove)
    requires KeysAgree(st) && t in st.tasks && s in st.m.all
    ensures CreatingNext(st, t, s, c).sweep == st.sweep
    ensures !c.QuotaFail? ==> Untouched(st, CreatingNext(st, t, s, c))
  {
  }

  lemma LeavingLeaves(st: State, t: Tid, s: Sid, o: Outcome)
    requires t in st.tasks && s in st.m.all
    ensures Untouched(st, Leave(ReleaseLock(st, s), t, o))
  {
  }

  lemma CancelledBodyLeaves(st: State, t: Tid, s: Sid)
    requires t in st.tasks && s in st.m.all && InLock(st.tasks[t].pc)
    ensures Untouched(st, DoCancel(st, t, s))
  {
    match st.tasks[t].pc
    case Body(_) => LeavingLeaves(st, t, s, WasCancelled);
    case WaitSlot(_) => LeavingLeaves(st.(m := SlotUnqueued(st.m, t)), t, s, WasCancelled);
    case Run(_) =>
      LeavingLeaves(st.(m := SlotReleased(st.m), inSlot := st.inSlot - {t}), t, s, WasCancelled);
    case Deleting =>
  }

  lemma CancelLeaves(st: State, t: Tid, s: Sid)
    requires t in st.tasks && s in st.m.all
    ensures DoCancel(st, t, s).sweep == st.sweep
    ensures !st.tasks[t].pc.Quota? ==> Untouched(st, DoCancel(st, t, s))
  {
    if InLock(st.tasks[t].pc) { CancelledBodyLeaves(st, t, s); }
  }

  lemma OthersLeave(st: State, a: Action, n: State)
    requires StepsTo(st, a, n) && !a.Sweeps?
    ensures n.sweep == st.sweep
    ensures !a.Create? && (forall s :: !Frees(st, a, s)) ==> n.m.freeIds == st.m.freeIds
  {
    if a.Locking? { LockingLeaves(st, a.t, SidOf(st, a.t), a.lock); }
    else if a.Inside? { InsideLeaves(st, a.t, SidOf(st, a.t), a.body); }
    else if a.Exiting? {
      ExitingLeaves(st, a.t, SidOf(st, a.t), a.exit);
      assert a.exit.DeleteEnd? && st.threads[SidOf(st, a.t)].removed ==> Frees(st, a, SidOf(st, a.t));
    }
    else if a.Creating? {
      CreatingLeaves(st, a.t, SidOf(st, a.t), a.create);
      assert a.create.QuotaFail? ==> Frees(st, a, SidOf(st, a.t));
    }
    else if a.Cancel? {
      CancelLeaves(Marked(st, a.t), a.t, SidOf(st, a.t));
      assert st.tasks[a.t].pc.Quota? ==> Frees(st, a, SidOf(st, a.t));
    }
  }

  // ----- when a project id becomes free -----

  /** With this step a create that has failed, or was cancelled, gives up its session. */
  ghost predicate UndoesCreate(st: State, a: Action, s: Sid) {
    && (a.Cancel? || (a.Creating? && a.create.QuotaFail?)) && a.t in st.tasks
    && st.tasks[a.t].pc.Quota? && st.tasks[a.t].sid == Some(s)
  }

  ghost predicate Frees(st: State, a: Action, s: Sid) {
    UndoesCreate(st, a, s) || (EndsDeletion(st, a, s) && HearsOfRemoval(st, a, s))
  }

  lemma FreeIdsAfter(m: Manager, s: Sid)
    requires s in m.all
    ensures Retired(m, s, false).freeIds == m.freeIds && Retired(m, s, true) == CreateUndone(m, s)
    ensures forall p :: p in CreateUndone(m, s).freeIds <==> p in m.freeIds || m.all[s].projectId == Some(p)
  {
  }

  lemma CreateIsUndone(st: State, a: Action, n: State, s: Sid)
    requires StepsTo(st, a, n) && UndoesCreate(st, a, s) && Tasks(st)
    ensures s in st.m.registered && s in st.m.all && n.m == CreateUndone(st.m, s)
  {
    assert TaskInv(st, a.t);
  }

  lemma FreeingFrees(st: State, a: Action, n: State, s: Sid)
    requires StepsTo(st, a, n) && Frees(st, a, s) && Tasks(st) && Sweeping(st)
    ensures s in st.m.registered && s in st.m.all
    ensures forall p :: p in n.m.freeIds <==> p in st.m.freeIds || st.m.all[s].projectId == Some(p)
  {
    if UndoesCreate(st, a, s) {
      CreateIsUndone(st, a, n, s);
    } else if SweepEndsDeletion(st, a, s) {
      SweptIsRetired(st, a.sweep, n);
    } else {
      assert TaskInv(st, a.t);
      RequestIsRetired(st, a, n, s);
    }
    FreeIdsAfter(st.m, s);
  }

  lemma SweepFreesNothing(st: State, w: SweepMove, n: State)
    requires st.sweep.Trying? || st.sweep.Shielding? ==> st.sweep.s in st.m.all
    requires st.sweep.Pass? ==> forall s <- st.sweep.todo :: s in st.m.all
    requires SweepingEnabled(st, w) && n == SweepingNext(st, w)
    requires w == Deleted ==> !st.threads[st.sweep.s].removed
    ensures n.m.freeIds == st.m.freeIds
  {
    if w.Try? {
      TryFreesNothing(st, n);
    } else if w.Grant? {
      FoundFreesNothing(st, st.(m := Granted(st.m, st.sweep.s, Sweeper)), st.sweep.s, st.sweep.start,
                        st.sweep.todo, st.sweep.due);
    } else if w.Cancelled? {
      CancelledFreesNothing(st, n);
    } else if w.Deleted? {
      FreeIdsAfter(st.m, st.sweep.s);
    }
  }

  lemma FoundFreesNothing(st: State, st1: State, s: Sid, start: int, todo: seq<Sid>, due: set<Sid>)
    requires s in st1.m.all && st1.m.freeIds == st.m.freeIds
    ensures SweepCheck(st1, s, start, todo, due).m.freeIds == st.m.freeIds
  {
    SweepFoundShape(st1, s, start, todo, due, SweepCheck(st1, s, start, todo, due));
  }

  lemma TryFreesNothing(st: State, n: State)
    requires st.sweep.Pass? && st.sweep.todo != [] && st.sweep.todo[0] in st.m.all && n == DoSweepTry(st)
    ensures n.m.freeIds == st.m.freeIds
  {
    var s := st.sweep.todo[0];
    if LockFree(st.m, s) {
      FoundFreesNothing(st, st.(m := Held(st.m, s, Sweeper)), s, st.sweep.start, st.sweep.todo[1..], st.sweep.due);
    }
  }

  lemma CancelledFreesNothing(st: State, n: State)
    requires st.sweep.Trying? || st.sweep.Shielding? ==> st.sweep.s in st.m.all
    requires n == DoSweepCancel(st)
    ensures n.m.freeIds == st.m.freeIds
  {
    if st.sweep.Shielding? {
      FreeIdsAfter(st.m, st.sweep.s);
    }
  }

  lemma CreateFreesNothing(st: State, t: Tid, s: Sid, ok: bool)
    requires t in st.tasks
    ensures forall p <- DoCreate(st, t, s, ok).m.freeIds :: p in st.m.freeIds
  {
  }

  lemma OthersFreeNothing(st: State, a: Action, n: State)
    requires StepsTo(st, a, n) && forall s :: !Frees(st, a, s)
    ensures forall p <- n.m.freeIds :: p in st.m.freeIds
  {
    if a.Sweeps? {
      assert !Frees(st, a, if st.sweep.Shielding? then st.sweep.s else 0);
      SweepFreesNothing(st, a.sweep, n);
    } else if a.Create? {
      CreateFreesNothing(st, a.t, a.s, a.mkdtempOk);
    } else if a.Locking? || a.Inside? || a.Creating? || a.Exiting? || a.Cancel? {
      assert !Frees(st, a, SidOf(st, a.t));
      OthersLeave(st, a, n);
    }
  }

  /** A step makes an id free exactly if it undoes the create, or ends the deletion, of the session that has it. */
  lemma FreedExactly(st: State, a: Action, n: State, p: int)
    requires Inv(st) && StepsTo(st, a, n)
    ensures p in n.m.freeIds && p !in st.m.freeIds <==>
      exists s :: Frees(st, a, s) && s in st.m.all && st.m.all[s].projectId == Some(p)
  {
    if s :| Frees(st, a, s) && s in st.m.all && st.m.all[s].projectId == Some(p) {
      FreeingFrees(st, a, n, s);
    } else if s :| Frees(st, a, s) {
      FreeingFrees(st, a, n, s);
    } else {
      OthersFreeNothing(st, a, n);
    }
  }

  // ----- the sweeper finishes what it starts -----

  predicate InPass(w: Sweep) { w.Pass? || w.Trying? || w.Shielding? }

  /** A session found idle stays on the pass's account until the pass ends. */
  predicate StillDue(end: bool, n: State, s: Sid) {
    if end then n.sweep.Idle? && s !in n.m.registered
    else n.sweep.Stopped? || (InPass(n.sweep) && s in n.sweep.due)
  }

  lemma DueKept(st: State, w: SweepMove, n: State, s: Sid)
    requires st.sweep.Trying? || st.sweep.Shielding? ==> st.sweep.s in st.m.all
    requires st.sweep.Pass? ==> forall s <- st.sweep.todo :: s in st.m.all
    requires Sweeping(st) && SweepingEnabled(st, w) && n == SweepingNext(st, w)
    requires InPass(st.sweep) && s in st.sweep.due
    ensures StillDue(w.End?, n, s)
  {
    if w.Cancelled? { assert n.sweep == SweepCancelled(st.sweep); }
    else if w.Try? { TryKeepsDue(st, n, s); }
    else if w.Grant? {
      SweepFoundShape(st.(m := Granted(st.m, st.sweep.s, Sweeper)), st.sweep.s, st.sweep.start, st.sweep.todo,
                      st.sweep.due, n);
    }
  }

  lemma TryKeepsDue(st: State, n: State, s: Sid)
    requires st.sweep.Pass? && st.sweep.todo != [] && st.sweep.todo[0] in st.m.all && n == DoSweepTry(st)
    requires s in st.sweep.due
    ensures InPass(n.sweep) && s in n.sweep.due
  {
    var r := st.sweep.todo[0];
    if LockFree(st.m, r) {
      SweepFoundShape(st.(m := Held(st.m, r, Sweeper)), r, st.sweep.start, st.sweep.todo[1..], st.sweep.due, n);
    }
  }

  lemma StepKeepsDue(st: State, a: Action, n: State, s: Sid)
    requires StepsTo(st, a, n) && Sweeping(st) && InPass(st.sweep) && s in st.sweep.due
    ensures StillDue(a == Sweeps(End), n, s)
  {
    if a.Sweeps? { DueKept(st, a.sweep, n, s); } else { OthersLeave(st, a, n); }
  }

  lemma RunKeepsDue(ss: seq<State>, acts: seq<Action>, k: nat, s: Sid)
    requires IsRun(ss, acts) && k < |acts| && InPass(ss[k].sweep) && s in ss[k].sweep.due
    ensures StillDue(acts[k] == Sweeps(End), ss[k + 1], s)
  {
    RunInv(ss, acts, k);
    RunStep(ss, acts, k);
    StepKeepsDue(ss[k], acts[k], ss[k + 1], s);
  }

  lemma ShieldedIsDue(ss: seq<State>, acts: seq<Action>, i: nat)
    requires IsRun(ss, acts) && i < |ss| && ss[i].sweep.Shielding?
    ensures ss[i].sweep.s in ss[i].sweep.due
  {
    RunInv(ss, acts, i);
  }

  /**
    Sweep completeness. A session the sweeper locked and found idle for too long is unregistered
    when its pass ends, provided the pass was not cancelled.
   */
  lemma SweepComplete(ss: seq<State>, acts: seq<Action>, i: nat, j: nat)
    requires IsRun(ss, acts) && i <= j < |acts| && ss[i].sweep.Shielding?
    requires forall k :: i <= k <= j ==> !ss[k].sweep.Stopped?
    requires forall k :: i <= k < j ==> acts[k] != Sweeps(End)
    requires acts[j] == Sweeps(End)
    ensures ss[i].sweep.s !in ss[j + 1].m.registered
  {
    var s := ss[i].sweep.s;
    ShieldedIsDue(ss, acts, i);
    for k := i to j
      invariant InPass(ss[k].sweep) && s in ss[k].sweep.due
    {
      RunKeepsDue(ss, acts, k, s);
    }
    RunKeepsDue(ss, acts, j, s);
  }

  /** With this step the sweeper obtains the lock of a registered session that is idle for too long. */
  ghost predicate ObtainsIdle(st: State, a: Action, s: Sid) {
    && s in st.m.registered && s in st.m.all
    && (|| (a == Sweeps(Try) && st.sweep.Pass? && st.sweep.todo != [] && st.sweep.todo[0] == s && LockFree(st.m, s))
        || (a == Sweeps(SweepMove.Grant) && st.sweep.Trying? && st.sweep.s == s))
    && st.sweep.start - st.m.all[s].lastUsed > st.cfg.inactivity
  }

  lemma ObtainedIsDeleted(st: State, w: SweepMove, n: State, s: Sid)
    requires st.sweep.Pass? ==> forall s <- st.sweep.todo :: s in st.m.all
    requires st.sweep.Trying? || st.sweep.Shielding? ==> st.sweep.s in st.m.all
    requires SweepingEnabled(st, w) && n == SweepingNext(st, w) && ObtainsIdle(st, Sweeps(w), s)
    ensures n.sweep.Shielding? && n.sweep.s == s
  {
  }

  /**
    And so every session of the snapshot whose lock the sweeper obtains, and which then meets the age
    test, is unregistered when the pass ends uncancelled.
   */
  lemma SweepDeletesIdle(ss: seq<State>, acts: seq<Action>, i: nat, j: nat, s: Sid)
    requires IsRun(ss, acts) && i < j < |acts| && ObtainsIdle(ss[i], acts[i], s)
    requires forall k :: i <= k <= j ==> !ss[k].sweep.Stopped?
    requires forall k :: i <= k < j ==> acts[k] != Sweeps(End)
    requires acts[j] == Sweeps(End)
    ensures s !in ss[j + 1].m.registered
  {
    RunStep(ss, acts, i);
    ObtainedIsDeleted(ss[i], acts[i].sweep, ss[i + 1], s);
    SweepComplete(ss, acts, i + 1, j);
  }
}
