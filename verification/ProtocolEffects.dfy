/** What a step of the session protocol does to the locks, the stamps and the files of the sessions there are. */
module ProtocolEffects {
  import opened Common
  import opened ManagerModel
  import opened Protocol
  import opened ProtocolInvariant
  import opened ProtocolSteps
  import opened ProtocolSafety

  // ----- locks and stamps -----

  /** With this step a task comes to be inside `locked`, at session `s`. */
  ghost predicate Enters(st: State, n: State, t: Tid, s: Sid) {
    && t in st.tasks && !InLock(st.tasks[t].pc)
    && t in n.tasks && n.tasks[t].sid == Some(s) && InLock(n.tasks[t].pc)
  }

  ghost predicate NobodyEnters(st: State, n: State) {
    forall t <- n.tasks :: InLock(n.tasks[t].pc) ==> t in st.tasks && InLock(st.tasks[t].pc)
  }

  /** The queue without the one at place `k`, the others in their order. */
  function WithoutPlace<T>(q: seq<T>, k: nat): seq<T>
    requires k < |q|
  {
    q[..k] + q[k + 1..]
  }

  /** Whoever comes is last, anybody may leave, and the others keep their order. */
  ghost predicate WaitersMove<T(!new)>(q: seq<T>, r: seq<T>) {
    r == q || (exists a :: r == q + [a]) || exists k: nat :: k < |q| && r == WithoutPlace(q, k)
  }

  /**
    What can happen to a lock: whoever gets it was first in its queue, or came when nobody had it or
    queued for it; whoever queues is last; and anybody may leave the queue.
   */
  ghost predicate QueueMoves(o: Session, l: Session) {
    && l.projectId == o.projectId
    && (l.holder.Some? && l.holder != o.holder ==>
          o.holder.None? && if o.waiters == [] then l.waiters == []
                            else l.holder.value == o.waiters[0] && l.waiters == o.waiters[1..])
    && WaitersMove(o.waiters, l.waiters)
  }

  /** `l` becomes of session `s`; who enters there, if anybody, is `who`. */
  ghost predicate Does(st: State, n: State, s: Sid, l: Session, who: Option<Tid>) {
    && s in st.m.all && n.m.all == st.m.all[s := l] && QueueMoves(st.m.all[s], l)
    && match who
       case None => NobodyEnters(st, n) && l.lastUsed == st.m.all[s].lastUsed
       case Some(t) =>
         && Enters(st, n, t, s) && l.lastUsed == st.now
         && forall u <- n.tasks :: u != t && InLock(n.tasks[u].pc) ==> u in st.tasks && InLock(st.tasks[u].pc)
  }

  /** No session changes, and nobody enters one. */
  ghost predicate DoesNothing(st: State, n: State) {
    NobodyEnters(st, n) && n.m.all == st.m.all
  }

  /** A session is added, free and just used; it has a project id exactly if there are quotas. */
  ghost predicate Adds(st: State, n: State, s: Sid) {
    && NobodyEnters(st, n) && s !in st.m.all && s in n.m.all && n.m.all == st.m.all[s := n.m.all[s]]
    && n.m.all[s].holder.None? && n.m.all[s].waiters == [] && n.m.all[s].lastUsed == st.now
    && (n.m.all[s].projectId.Some? <==> st.cfg.quota)
  }

  /** The marks of tasks mean what they say: nobody becomes cancelled, and `behind` is as it is found on queueing. */
  ghost predicate Honest(st: State, n: State) {
    WaitersMove(st.m.slotWaiters, n.m.slotWaiters) && forall t <- n.tasks :: HonestAt(st, n.tasks[t], t)
  }

  /** It is the task's turn for an execution slot: one is left, and it is first in the queue, or nobody queues. */
  ghost predicate FirstForSlot(st: State, t: Tid) {
    && t in st.tasks && st.m.slots > 0
    && if st.tasks[t].pc.WaitSlot? then st.m.slotWaiters != [] && st.m.slotWaiters[0] == t else st.m.slotWaiters == []
  }

  ghost predicate HonestAt(st: State, task: Task, t: Tid) {
    && (task.cancelled ==> t in st.tasks && st.tasks[t].cancelled)
    && (task.pc.Run? ==> (t in st.tasks && st.tasks[t].pc.Run?) || FirstForSlot(st, t))
    && if task.pc.Wait? && !(t in st.tasks && st.tasks[t].pc.Wait?) then
         && task.sid.Some? && task.sid.value in st.m.all
         && var lock := st.m.all[task.sid.value];
         && (task.behind <==> lock.holder == Some(Sweeper) || Sweeper in lock.waiters)
       else task.behind ==> t in st.tasks && st.tasks[t].behind
  }

  /** A body is being started: a request has come to be inside, and is not there to delete. */
  ghost predicate Opens(st: State, n: State, t: Tid, s: Sid) {
    Enters(st, n, t, s) && n.tasks[t].pc.Body?
  }

  /** No files change, and a turn is added, at the end, exactly for a body being started. */
  ghost predicate FilesAt(st: State, n: State, s: Sid) {
    && s in st.tree && s in n.tree && n.tree[s] == st.tree[s]
    && s in st.base && s in n.base && n.base[s] == st.base[s]
    && s in st.hist && s in n.hist
    && (n.hist[s] == st.hist[s] || exists t :: Opens(st, n, t, s))
    && forall t: Tid :: Opens(st, n, t, s) ==> n.hist[s] == st.hist[s] + [Turn(t, [])]
  }

  ghost predicate Files(st: State, n: State) {
    forall s <- st.m.all :: FilesAt(st, n, s)
  }

  lemma SameFiles(st: State, n: State)
    requires KeysAgree(st) && NobodyEnters(st, n) && n.tree == st.tree && n.base == st.base && n.hist == st.hist
    ensures Files(st, n)
  {
  }

  ghost predicate Acts(st: State, n: State) {
    || DoesNothing(st, n)
    || (exists s :: Adds(st, n, s))
    || exists s, l, who :: Does(st, n, s, l, who)
  }

  ghost predicate Fully(st: State, n: State) {
    Acts(st, n) && Honest(st, n) && Files(st, n)
  }

  /** The steps on files: those of a body, of a create that stores its seed files, and of a removal. */
  predicate OnFiles(a: Action) {
    || (a.Inside? && (a.body.Do? || a.body.Look?))
    || (a.Creating? && a.create.SeedPut?)
    || a.ThreadErase?
  }

  lemma {:induction false} WithoutAbsent<T(!new)>(q: seq<T>, a: T)
    requires a !in q
    ensures Without(q, a) == q
  {
    if q != [] {
      WithoutAbsent(q[1..], a);
      assert [q[0]] + q[1..] == q;
    }
  }

  lemma {:induction false} WithoutPresent<T(!new)>(q: seq<T>, a: T) returns (k: nat)
    requires NoDup(q) && a in q
    ensures k < |q| && q[k] == a && Without(q, a) == WithoutPlace(q, k)
  {
    if q[0] == a {
      k := 0;
      WithoutAbsent(q[1..], a);
      assert WithoutPlace(q, 0) == q[1..];
    } else {
      var rest := WithoutPresent(q[1..], a);
      k := rest + 1;
      assert WithoutPlace(q, k) == [q[0]] + WithoutPlace(q[1..], rest);
    }
  }

  /** Whoever stops waiting leaves the others in their order. */
  lemma WithoutMoves<T(!new)>(q: seq<T>, a: T)
    requires NoDup(q)
    ensures WaitersMove(q, Without(q, a))
  {
    if a in q { var k := WithoutPresent(q, a); } else { WithoutAbsent(q, a); }
  }

  lemma UnqueuedMoves(o: Session, a: Agent)
    requires NoDup(o.waiters)
    ensures QueueMoves(o, o.(waiters := Without(o.waiters, a)))
  {
    WithoutMoves(o.waiters, a);
  }

  lemma GrantedMoves(o: Session, a: Agent, now: int)
    requires o.holder.None? && (o.waiters == [] || o.waiters[0] == a)
    ensures var w := if o.waiters == [] then [] else o.waiters[1..];
      && QueueMoves(o, o.(holder := Some(a), waiters := w))
      && QueueMoves(o, o.(holder := Some(a), waiters := w, lastUsed := now))
      && QueueMoves(o, o.(holder := None, waiters := w))
  {
    if o.waiters != [] {
      assert o.waiters[1..] == WithoutPlace(o.waiters, 0);
    }
  }

  /** Whoever is given a lock: first in the queue, or there when it was free. */
  ghost predicate Given(st: State, st1: State, s: Sid, a: Agent)
    requires s in st.m.all
  {
    || (CanGrant(st.m, s, a) && st1 == st.(m := Granted(st.m, s, a)))
    || (LockFree(st.m, s) && st1 == st.(m := Held(st.m, s, a)))
  }

  function Behind(o: Session): seq<Agent> {
    if o.waiters == [] then [] else o.waiters[1..]
  }

  lemma GivenIs(st: State, st1: State, s: Sid, a: Agent)
    requires s in st.m.all && Given(st, st1, s, a)
    ensures var o := st.m.all[s];
      st1 == st.(m := st.m.(all := st.m.all[s := o.(holder := Some(a), waiters := Behind(o))]))
      && o.holder.None? && (o.waiters == [] || o.waiters[0] == a)
  {
  }

  /** Only `t` goes anywhere, and it does not come to be inside. */
  ghost predicate Outside(st: State, n: State, t: Tid) {
    && KeysAgree(st) && t in st.tasks && t in n.tasks && n.tasks == st.tasks[t := n.tasks[t]]
    && n.tasks[t].cancelled == st.tasks[t].cancelled && n.tasks[t].behind == st.tasks[t].behind
    && (InLock(n.tasks[t].pc) ==> InLock(st.tasks[t].pc)) && (n.tasks[t].pc.Wait? ==> st.tasks[t].pc.Wait?)
    && (n.tasks[t].pc.Run? ==> st.tasks[t].pc.Run? || FirstForSlot(st, t))
    && WaitersMove(st.m.slotWaiters, n.m.slotWaiters)
    && n.tree == st.tree && n.base == st.base && n.hist == st.hist
  }

  lemma OutsideDoes(st: State, n: State, t: Tid, s: Sid, l: Session)
    requires Outside(st, n, t) && s in st.m.all && n.m.all == st.m.all[s := l]
    requires QueueMoves(st.m.all[s], l) && l.lastUsed == st.m.all[s].lastUsed
    ensures Fully(st, n)
  {
    assert Does(st, n, s, l, None);
    SameFiles(st, n);
  }

  lemma OutsideDoesNothing(st: State, n: State, t: Tid)
    requires Outside(st, n, t) && n.m.all == st.m.all
    ensures Fully(st, n)
  {
    SameFiles(st, n);
  }

  lemma NotFoundIsOutside(st: State, t: Tid, cleanup: bool)
    requires KeysAgree(st) && t in st.tasks
    ensures Outside(st, NotFound(st, t, cleanup), t) && NotFound(st, t, cleanup).m == st.m
  {
  }

  lemma LeaveIsOutside(st: State, t: Tid, o: Outcome)
    requires KeysAgree(st) && t in st.tasks
    ensures Outside(st, Leave(st, t, o), t) && Leave(st, t, o).m == st.m
  {
  }

  lemma GoneDoes(st: State, st1: State, t: Tid, s: Sid, n: State)
    requires s in st.m.all && Given(st, st1, s, Request(t)) && Outside(st, n, t)
    requires n.m == Released(st1.m, s)
    ensures Fully(st, n)
  {
    var o := st.m.all[s];
    GivenIs(st, st1, s, Request(t));
    GrantedMoves(o, Request(t), st.now);
    var l := o.(holder := None, waiters := Behind(o));
    assert QueueMoves(o, l);
    assert st1.m.all[s] == o.(holder := Some(Request(t)), waiters := Behind(o));
    assert Released(st1.m, s).all == st1.m.all[s := l];
    assert n.m.all == st.m.all[s := l];
    OutsideDoes(st, n, t, s, l);
  }

  lemma InsideDoes(st: State, st1: State, t: Tid, s: Sid, n: State)
    requires KeysAgree(st) && t in st.tasks && st.tasks[t].sid == Some(s) && s in st.m.all && !InLock(st.tasks[t].pc)
    requires Given(st, st1, s, Request(t))
    requires t in n.tasks && n.tasks == st.tasks[t := st.tasks[t].(pc := n.tasks[t].pc)]
    requires n.m == Touched(st1.m, s, st.now) && n.tree == st.tree && n.base == st.base
    requires n.tasks[t].pc.Deleting? || n.tasks[t].pc.Body?
    requires n.hist == if n.tasks[t].pc.Body? then st.hist[s := st.hist[s] + [Turn(t, [])]] else st.hist
    ensures Fully(st, n)
  {
    var o := st.m.all[s];
    var l := o.(holder := Some(Request(t)), waiters := Behind(o), lastUsed := st.now);
    GivenIs(st, st1, s, Request(t));
    GrantedMoves(o, Request(t), st.now);
    assert n.m.all == st.m.all[s := l];
    assert n.tasks[t].sid == Some(s) && InLock(n.tasks[t].pc);
    assert Does(st, n, s, l, Some(t));
    OnlyWhoEnters(st, n, s, l, Some(t));
    InsideFiles(st, n, t, s);
    InsideHonest(st, n, t);
  }

  lemma InsideHonest(st: State, n: State, t: Tid)
    requires t in st.tasks && t in n.tasks && n.tasks == st.tasks[t := st.tasks[t].(pc := n.tasks[t].pc)]
    requires n.tasks[t].pc.Deleting? || n.tasks[t].pc.Body?
    requires n.m.slotWaiters == st.m.slotWaiters
    ensures Honest(st, n)
  {
  }

  lemma InsideFiles(st: State, n: State, t: Tid, s: Sid)
    requires KeysAgree(st) && s in st.m.all && n.tree == st.tree && n.base == st.base && Enters(st, n, t, s)
    requires n.hist == if n.tasks[t].pc.Body? then st.hist[s := st.hist[s] + [Turn(t, [])]] else st.hist
    requires forall u: Tid, r: Sid :: Enters(st, n, u, r) ==> u == t && r == s
    ensures Files(st, n)
  {
    forall r <- st.m.all ensures FilesAt(st, n, r) {
      assert r == s && n.tasks[t].pc.Body? ==> Opens(st, n, t, s);
    }
  }

  lemma NobodyIsNobody(st: State, n: State)
    requires NobodyEnters(st, n)
    ensures forall t: Tid, s: Sid :: !Enters(st, n, t, s)
  {
  }

  lemma OnlyWhoEnters(st: State, n: State, r: Sid, l: Session, who: Option<Tid>)
    requires Does(st, n, r, l, who)
    ensures forall t: Tid, s: Sid :: Enters(st, n, t, s) ==> who == Some(t) && s == r
    ensures who.Some? ==> Enters(st, n, who.value, r)
  {
    if who.None? { NobodyIsNobody(st, n); }
  }

  lemma EnterDoes(st: State, st1: State, t: Tid, s: Sid, cleanup: bool, n: State)
    requires KeysAgree(st) && t in st.tasks && st.tasks[t].sid == Some(s) && s in st.m.all
    requires !InLock(st.tasks[t].pc) && Given(st, st1, s, Request(t)) && n == Enter(st1, t, s, cleanup)
    ensures Fully(st, n)
  {
    GivenIs(st, st1, s, Request(t));
    if s !in st.m.registered {
      NotFoundIsOutside(st1.(m := Released(st1.m, s)), t, cleanup);
      GoneDoes(st, st1, t, s, n);
    } else {
      EnterIs(st1, t, s, cleanup);
      InsideDoes(st, st1, t, s, n);
    }
  }

  lemma EnterIs(st: State, t: Tid, s: Sid, cleanup: bool)
    requires t in st.tasks && s in st.m.all && s in st.hist && s in st.m.registered
    ensures var n := Enter(st, t, s, cleanup);
      && t in n.tasks && n.tasks == st.tasks[t := st.tasks[t].(pc := n.tasks[t].pc)]
      && n.m == Touched(st.m, s, st.now) && n.tree == st.tree && n.base == st.base
      && (n.tasks[t].pc.Deleting? || n.tasks[t].pc.Body?)
      && n.hist == if n.tasks[t].pc.Body? then st.hist[s := st.hist[s] + [Turn(t, [])]] else st.hist
  {
    var st1 := st.(m := Touched(st.m, s, st.now));
    var removing := StartRemoval(st1, s);
    assert removing.tasks == st.tasks && removing.m == st1.m && removing.hist == st.hist;
  }

  lemma QueueDoes(st: State, t: Tid, s: Sid, cleanup: bool)
    requires KeysAgree(st) && t in st.tasks && st.tasks[t].sid == Some(s) && st.tasks[t].pc == Call(cleanup)
    requires s in st.m.registered && s in st.m.all && !LockFree(st.m, s)
    ensures Fully(st, DoCall(st, t, s, cleanup))
  {
    var o, n := st.m.all[s], DoCall(st, t, s, cleanup);
    assert n.m.all[s].waiters == o.waiters + [Request(t)];
    assert Does(st, n, s, n.m.all[s], None);
    SameFiles(st, n);
  }

  lemma QueueStepDoes(st: State, t: Tid, s: Sid, cleanup: bool, n: State)
    requires KeysAgree(st) && t in st.tasks && st.tasks[t].sid == Some(s) && st.tasks[t].pc == Call(cleanup)
    requires (s in st.m.registered ==> s in st.m.all) && n == DoCall(st, t, s, cleanup)
    ensures Fully(st, n)
  {
    if s !in st.m.registered {
      NotFoundIsOutside(st, t, cleanup);
      OutsideDoesNothing(st, n, t);
    } else if LockFree(st.m, s) {
      EnterDoes(st, st.(m := Held(st.m, s, Request(t))), t, s, cleanup, n);
    } else {
      QueueDoes(st, t, s, cleanup);
    }
  }

  lemma TimeoutDoes(st: State, t: Tid, s: Sid, st1: State, n: State)
    requires s in st.m.all && NoDup(st.m.all[s].waiters) && Outside(st, n, t)
    requires st1 == st.(m := Unqueued(st.m, s, Request(t))) && n.m == st1.m
    ensures Fully(st, n)
  {
    var o := st.m.all[s];
    UnqueuedMoves(o, Request(t));
    OutsideDoes(st, n, t, s, o.(waiters := Without(o.waiters, Request(t))));
  }

  lemma LockingDoes(st: State, t: Tid, s: Sid, l: LockMove, n: State)
    requires KeysAgree(st) && t in st.tasks && st.tasks[t].sid == Some(s) && (s in st.m.registered ==> s in st.m.all)
    requires LockingEnabled(st.tasks[t].pc, l, LockTurn(st, s, Request(t)))
    requires !l.CallLock? ==> s in st.m.all && NoDup(st.m.all[s].waiters)
    requires n == LockingNext(st, t, s, l)
    ensures Fully(st, n)
  {
    var cleanup := st.tasks[t].pc.cleanup;
    match l
    case CallLock => QueueStepDoes(st, t, s, cleanup, n);
    case Grant => EnterDoes(st, st.(m := Granted(st.m, s, Request(t))), t, s, cleanup, n);
    case LockTimeout => LockTimeoutDoes(st, t, s, n);
  }

  lemma LockTimeoutDoes(st: State, t: Tid, s: Sid, n: State)
    requires KeysAgree(st) && t in st.tasks && st.tasks[t].pc.Wait?
    requires s in st.m.all && NoDup(st.m.all[s].waiters) && n == LockingNext(st, t, s, LockTimeout)
    ensures Fully(st, n)
  {
    var st1 := st.(m := Unqueued(st.m, s, Request(t)));
    if !st.tasks[t].pc.cleanup { LeaveIsOutside(st1, t, Answered); }
    TimeoutDoes(st, t, s, st1, n);
  }

  lemma SlotStepDoes(st: State, t: Tid, s: Sid, b: BodyMove, n: State)
    requires KeysAgree(st) && t in st.tasks && s in st.m.all && InsideEnabled(st.tasks[t], b, SlotTurn(st.m, t))
    requires (b.CallSlot? || b.GrantSlot?) && n == InsideNext(st, t, s, b)
    ensures Fully(st, n)
  {
    SlotStepIsOutside(st, t, s, b, n);
    OutsideDoesNothing(st, n, t);
  }

  lemma SlotStepIsOutside(st: State, t: Tid, s: Sid, b: BodyMove, n: State)
    requires KeysAgree(st) && t in st.tasks && s in st.m.all && InsideEnabled(st.tasks[t], b, SlotTurn(st.m, t))
    requires (b.CallSlot? || b.GrantSlot?) && n == InsideNext(st, t, s, b)
    ensures Outside(st, n, t) && n.m.all == st.m.all
  {
    var q := st.m.slotWaiters;
    assert q != [] ==> q[1..] == WithoutPlace(q, 0);
  }

  lemma CreatingDoes(st: State, t: Tid, s: Sid, c: CreateMove, n: State)
    requires KeysAgree(st) && t in st.tasks && s in st.m.all && !c.SeedPut? && n == CreatingNext(st, t, s, c)
    ensures Fully(st, n)
  {
    CreatingIsOutside(st, t, s, c, n);
    OutsideDoesNothing(st, n, t);
  }

  lemma CreatingIsOutside(st: State, t: Tid, s: Sid, c: CreateMove, n: State)
    requires KeysAgree(st) && t in st.tasks && s in st.m.all && !c.SeedPut? && n == CreatingNext(st, t, s, c)
    ensures Outside(st, n, t) && n.m.all == st.m.all
  {
  }

  /** The lock of `s` is given back, and what else happened concerns no session there is. */
  lemma ReleaseDoes(st: State, m1: Manager, t: Tid, s: Sid, n: State)
    requires s in st.m.all && Outside(st, n, t) && m1.all == st.m.all && n.m == Released(m1, s)
    ensures Fully(st, n)
  {
    var o := st.m.all[s];
    assert QueueMoves(o, o.(holder := None));
    OutsideDoes(st, n, t, s, o.(holder := None));
  }

  lemma LeaveDoes(st: State, m1: Manager, inSlot1: set<Tid>, t: Tid, s: Sid, o: Outcome, n: State)
    requires WaitersMove(st.m.slotWaiters, m1.slotWaiters)
    requires KeysAgree(st) && t in st.tasks && s in st.m.all && m1.all == st.m.all
    requires n == Leave(ReleaseLock(st.(m := m1, inSlot := inSlot1), s), t, o)
    ensures Fully(st, n)
  {
    LeaveIsOutside(ReleaseLock(st.(m := m1, inSlot := inSlot1), s), t, o);
    ReleaseDoes(st, m1, t, s, n);
  }

  lemma RetireDoes(st: State, t: Tid, s: Sid, removed: bool, o: Outcome, n: State)
    requires KeysAgree(st) && t in st.tasks && s in st.m.all
    requires n == Goto(ReleaseLock(st.(m := Retired(st.m, s, removed)), s), t, Done(o))
    ensures Fully(st, n)
  {
    ReleaseDoes(st, Retired(st.m, s, removed), t, s, n);
  }

  lemma ExitingDoes(st: State, t: Tid, s: Sid, e: ExitMove, n: State)
    requires NoDup(st.m.slotWaiters)
    requires KeysAgree(st) && t in st.tasks && s in st.m.all && (e.DeleteEnd? ==> ThreadOver(st, s))
    requires n == ExitingNext(st, t, s, e)
    ensures Fully(st, n)
  {
    match e
    case BodyEnd =>
      assert st.(m := st.m, inSlot := st.inSlot) == st;
      LeaveDoes(st, st.m, st.inSlot, t, s, Answered, n);
    case SlotTimeout =>
      var m1 := SlotUnqueued(st.m, t);
      WithoutMoves(st.m.slotWaiters, t);
      assert st.(m := m1, inSlot := st.inSlot) == st.(m := m1);
      LeaveDoes(st, m1, st.inSlot, t, s, Answered, n);
    case RunEnd => LeaveDoes(st, SlotReleased(st.m), st.inSlot - {t}, t, s, Answered, n);
    case DeleteEnd => RetireDoes(st, t, s, st.threads[s].removed, Undone(st.tasks[t].kind), n);
  }

  lemma CancelInsideDoes(st: State, t: Tid, s: Sid, n: State)
    requires NoDup(st.m.slotWaiters)
    requires KeysAgree(st) && t in st.tasks && s in st.m.all && InLock(st.tasks[t].pc) && n == DoCancel(st, t, s)
    ensures Fully(st, n)
  {
    var pc := st.tasks[t].pc;
    if pc.Deleting? {
      RetireDoes(st, t, s, false, WasCancelled, n);
    } else {
      var m1 := if pc.Body? then st.m else if pc.WaitSlot? then SlotUnqueued(st.m, t) else SlotReleased(st.m);
      var inSlot1 := if pc.Run? then st.inSlot - {t} else st.inSlot;
      WithoutMoves(st.m.slotWaiters, t);
      CancelledLeaves(st, t, s, m1, inSlot1);
      LeaveDoes(st, m1, inSlot1, t, s, WasCancelled, n);
    }
  }

  lemma CancelWaitDoes(st: State, t: Tid, s: Sid, n: State)
    requires KeysAgree(st) && t in st.tasks && s in st.m.all && NoDup(st.m.all[s].waiters) && st.tasks[t].pc.Wait?
    requires n == DoCancel(st, t, s)
    ensures Fully(st, n)
  {
    var st1 := st.(m := Unqueued(st.m, s, Request(t)));
    if !st.tasks[t].pc.cleanup { LeaveIsOutside(st1, t, WasCancelled); }
    TimeoutDoes(st, t, s, st1, n);
  }

  lemma CancelDoes(st: State, t: Tid, s: Sid, n: State)
    requires NoDup(st.m.slotWaiters)
    requires KeysAgree(st) && t in st.tasks && s in st.m.all && NoDup(st.m.all[s].waiters) && n == DoCancel(st, t, s)
    requires var pc := st.tasks[t].pc; !pc.Start? && !pc.Call? && !pc.Done?
    ensures Fully(st, n)
  {
    if InLock(st.tasks[t].pc) { CancelInsideDoes(st, t, s, n); }
    else if st.tasks[t].pc.Wait? { CancelWaitDoes(st, t, s, n); }
    else { CancelElsewhereDoes(st, t, s, n); }
  }

  lemma CancelElsewhereDoes(st: State, t: Tid, s: Sid, n: State)
    requires KeysAgree(st) && t in st.tasks && s in st.m.all && n == DoCancel(st, t, s)
    requires st.tasks[t].pc.Quota? || st.tasks[t].pc.Undo? || st.tasks[t].pc.Seed?
    ensures Fully(st, n)
  {
    OutsideDoesNothing(st, n, t);
  }

  /** The mark on a cancelled task is no place. */
  lemma MarkedActs(st: State, t: Tid, n: State)
    requires t in st.tasks && Fully(Marked(st, t), n)
    ensures Acts(st, n) && Files(st, n)
    ensures forall u <- n.tasks :: u != t ==> HonestAt(st, n.tasks[u], u)
    ensures t in n.tasks ==> HonestAt(st, n.tasks[t].(cancelled := false), t)
  {
    MarkedDoes(st, t, n);
    MarkedFiles(st, t, n);
    MarkedHonest(st, t, n);
  }

  lemma MarkedDoes(st: State, t: Tid, n: State)
    requires t in st.tasks && Acts(Marked(st, t), n)
    ensures Acts(st, n)
  {
    var marked := Marked(st, t);
    if s, l, who :| Does(marked, n, s, l, who) {
      assert Does(st, n, s, l, who);
    } else if s :| Adds(marked, n, s) {
      assert Adds(st, n, s);
    }
  }

  lemma MarkedHonest(st: State, t: Tid, n: State)
    requires t in st.tasks && Honest(Marked(st, t), n)
    ensures forall u <- n.tasks :: u != t ==> HonestAt(st, n.tasks[u], u)
    ensures t in n.tasks ==> HonestAt(st, n.tasks[t].(cancelled := false), t)
  {
    forall u <- n.tasks ensures HonestAt(Marked(st, t), n.tasks[u], u) {
    }
  }

  lemma MarkedFiles(st: State, t: Tid, n: State)
    requires t in st.tasks && Files(Marked(st, t), n)
    ensures Files(st, n)
  {
    var marked := Marked(st, t);
    forall u: Tid, s: Sid ensures Opens(st, n, u, s) <==> Opens(marked, n, u, s) {
    }
    forall s <- st.m.all ensures FilesAt(st, n, s) {
      assert FilesAt(marked, n, s);
      if u :| Opens(marked, n, u, s) {
        assert Opens(st, n, u, s);
      }
    }
  }

  lemma SweeperDoes(st: State, n: State, s: Sid, l: Session)
    requires n.m.slotWaiters == st.m.slotWaiters
    requires KeysAgree(st) && n.tree == st.tree && n.base == st.base && n.hist == st.hist
    requires n.tasks == st.tasks && s in st.m.all && n.m.all == st.m.all[s := l]
    requires QueueMoves(st.m.all[s], l) && l.lastUsed == st.m.all[s].lastUsed
    ensures Fully(st, n)
  {
    assert Does(st, n, s, l, None);
    SameFiles(st, n);
  }

  lemma SweepFoundDoes(st: State, st1: State, s: Sid, start: int, todo: seq<Sid>, due: set<Sid>, n: State)
    requires KeysAgree(st)
    requires s in st.m.all && s in st1.m.all && Given(st, st1, s, Sweeper)
    requires n == Protocol.SweepCheck(st1, s, start, todo, due)
    ensures Fully(st, n)
  {
    GivenIs(st, st1, s, Sweeper);
    SweepFoundShape(st1, s, start, todo, due, n);
    SweepLockDoes(st, st1, s, n);
  }

  lemma SweepLockDoes(st: State, st1: State, s: Sid, n: State)
    requires KeysAgree(st) && n.tree == st.tree && n.base == st.base && n.hist == st.hist
    requires s in st.m.all && s in st1.m.all && Given(st, st1, s, Sweeper)
    requires n.tasks == st.tasks && (n.m == st1.m || n.m == Released(st1.m, s))
    ensures Fully(st, n)
  {
    var o := st.m.all[s];
    GivenIs(st, st1, s, Sweeper);
    GrantedMoves(o, Sweeper, st.now);
    var held, free := o.(holder := Some(Sweeper), waiters := Behind(o)), o.(holder := None, waiters := Behind(o));
    assert st1.m.all[s] == held;
    if n.m == st1.m {
      SweeperDoes(st, n, s, held);
    } else {
      assert Released(st1.m, s).all == st1.m.all[s := free];
      assert n.m.all == st.m.all[s := free];
      SweeperDoes(st, n, s, free);
    }
  }

  lemma SweepTryDoes(st: State, n: State)
    requires KeysAgree(st)
    requires st.sweep.Pass? && st.sweep.todo != [] && st.sweep.todo[0] in st.m.all && n == DoSweepTry(st)
    ensures Fully(st, n)
  {
    var s, rest := st.sweep.todo[0], st.sweep.todo[1..];
    var o := st.m.all[s];
    if LockFree(st.m, s) {
      SweepFoundDoes(st, st.(m := Held(st.m, s, Sweeper)), s, st.sweep.start, rest, st.sweep.due, n);
    } else {
      assert QueueMoves(o, o.(waiters := o.waiters + [Sweeper]));
      SweeperDoes(st, n, s, o.(waiters := o.waiters + [Sweeper]));
    }
  }

  lemma SweepUnqueueDoes(st: State, n: State, s: Sid)
    requires KeysAgree(st) && n.tree == st.tree && n.base == st.base && n.hist == st.hist
    requires s in st.m.all && NoDup(st.m.all[s].waiters) && n.tasks == st.tasks && n.m == Unqueued(st.m, s, Sweeper)
    ensures Fully(st, n)
  {
    UnqueuedMoves(st.m.all[s], Sweeper);
    SweeperDoes(st, n, s, st.m.all[s].(waiters := Without(st.m.all[s].waiters, Sweeper)));
  }

  lemma SweepCancelDoes(st: State, n: State)
    requires KeysAgree(st)
    requires st.sweep.Trying? || st.sweep.Shielding? ==> st.sweep.s in st.m.all
    requires st.sweep.Trying? ==> NoDup(st.m.all[st.sweep.s].waiters)
    requires n == DoSweepCancel(st)
    ensures Fully(st, n)
  {
    if st.sweep.Trying? { SweepUnqueueDoes(st, n, st.sweep.s); }
    else if st.sweep.Shielding? { SweepCancelShielded(st, n); }
  }

  lemma SweepingDoes(st: State, w: SweepMove, n: State)
    requires WellFormed(st) && SweepingEnabled(st, w) && n == SweepingNext(st, w)
    requires st.sweep.Trying? ==> NoDup(st.m.all[st.sweep.s].waiters)
    ensures Fully(st, n)
  {
    var p := st.sweep;
    if w.Try? { SweepTryDoes(st, n); }
    else if w.Grant? {
      SweepFoundDoes(st, st.(m := Granted(st.m, p.s, Sweeper)), p.s, p.start, p.todo, p.due, n);
    }
    else if w.Timeout? { SweepUnqueueDoes(st, n, p.s); }
    else if w.Resume? { SweepResumeDoes(st, n); }
    else if w.Cancelled? { SweepCancelDoes(st, n); }
    else { SweepElsewhereDoes(st, w, n); }
  }

  lemma SweepElsewhereDoes(st: State, w: SweepMove, n: State)
    requires WellFormed(st) && SweepingEnabled(st, w) && n == SweepingNext(st, w)
    requires w.Begin? || w.Delete? || w.Deleted? || w.End?
    ensures Fully(st, n)
  {
    assert n.tasks == st.tasks && n.m.all == st.m.all && n.m.slotWaiters == st.m.slotWaiters;
    SameFiles(st, n);
  }

  lemma SweepResumeDoes(st: State, n: State)
    requires KeysAgree(st) && n.tree == st.tree && n.base == st.base && n.hist == st.hist
    requires st.sweep.Shielding? && st.sweep.s in st.m.all && n.tasks == st.tasks && n.m == Released(st.m, st.sweep.s)
    ensures Fully(st, n)
  {
    var o := st.m.all[st.sweep.s];
    assert QueueMoves(o, o.(holder := None));
    SweeperDoes(st, n, st.sweep.s, o.(holder := None));
  }

  lemma ArriveDoes(st: State, t: Tid, kind: Kind, target: Sid, n: State)
    requires KeysAgree(st)
    requires t !in st.tasks && n == DoArrive(st, t, kind, target)
    ensures Fully(st, n)
  {
    assert !InLock(n.tasks[t].pc);
  }

  lemma CreateDoes(st: State, t: Tid, s: Sid, ok: bool, n: State)
    requires KeysAgree(st)
    requires At(st, t, Start) && Unheard(st, s) && n == DoCreate(st, t, s, ok)
    ensures Fully(st, n)
  {
    if |st.m.registered| >= st.cfg.maxSessions || !ok || (st.cfg.quota && !CanAllocate(st.m)) {
      OutsideDoesNothing(st, n, t);
    } else {
      MadeIs(st, t, s, n);
      MadeFiles(st, n, s);
    }
  }

  lemma MadeIs(st: State, t: Tid, s: Sid, n: State)
    requires At(st, t, Start) && Unheard(st, s) && n == DoCreate(st, t, s, true)
    requires |st.m.registered| < st.cfg.maxSessions && (st.cfg.quota ==> CanAllocate(st.m))
    ensures Adds(st, n, s) && Honest(st, n)
    ensures n.tree == st.tree[s := map[]] && n.base == st.base[s := map[]] && n.hist == st.hist[s := []]
  {
  }

  lemma MadeFiles(st: State, n: State, s: Sid)
    requires KeysAgree(st) && NobodyEnters(st, n) && s !in st.m.all
    requires n.tree == st.tree[s := map[]] && n.base == st.base[s := map[]] && n.hist == st.hist[s := []]
    ensures Files(st, n)
  {
    NobodyIsNobody(st, n);
  }

  lemma TaskStepDoes(st: State, a: Action, t: Tid, s: Sid, n: State)
    requires NoDup(st.m.slotWaiters)
    requires StepsTo(st, a, n) && (a.Creating? || a.Locking? || a.Inside? || a.Exiting?) && !OnFiles(a)
    requires t == a.t && st.tasks[t].sid == Some(s) && (s in st.m.all ==> NoDup(st.m.all[s].waiters))
    ensures Fully(st, n)
  {
    match a
    case Creating(_, c) => CreatingDoes(st, t, s, c, n);
    case Locking(_, l) => LockingDoes(st, t, s, l, n);
    case Inside(_, b) => SlotStepDoes(st, t, s, b, n);
    case Exiting(_, e) => ExitingDoes(st, t, s, e, n);
  }

  lemma BackgroundDoes(st: State, a: Action, n: State)
    requires StepsTo(st, a, n) && (a.ThreadEnd? || a.Tick?)
    ensures Fully(st, n)
  {
    assert n.tasks == st.tasks && n.m == st.m && n.tree == st.tree && n.base == st.base && n.hist == st.hist;
    SameFiles(st, n);
  }

  lemma TaskActs(st: State, a: Action, n: State)
    requires StepsTo(st, a, n) && Locks(st) && Slots(st)
    requires (a.Creating? || a.Locking? || a.Inside? || a.Exiting?) && !OnFiles(a)
    ensures Fully(st, n)
  {
    var s := SidOf(st, a.t);
    assert s in st.m.all ==> LockInv(st, s);
    TaskStepDoes(st, a, a.t, s, n);
  }

  lemma CancelActs(st: State, t: Tid, n: State)
    requires StepsTo(st, Cancel(t), n) && Locks(st) && Slots(st)
    ensures Fully(Marked(st, t), n)
  {
    var s := SidOf(st, t);
    assert LockInv(st, s);
    CancelDoes(Marked(st, t), t, s, n);
  }

  /** A step on files leaves everything else as it is. */
  lemma FileStepActs(st: State, a: Action, n: State)
    requires StepsTo(st, a, n) && OnFiles(a)
    ensures n.tasks == st.tasks && n.m == st.m
    ensures Acts(st, n) && Honest(st, n)
  {
    FileStepIs(st, a, n);
  }

  lemma FileStepIs(st: State, a: Action, n: State)
    requires StepsTo(st, a, n) && OnFiles(a)
    ensures n.tasks == st.tasks && n.m == st.m
  {
    if a.Inside? { assert st.tasks[a.t].pc.Body? || st.tasks[a.t].pc.Run?; }
  }

  /** Every step but a cancellation and those on files acts on at most one session in one of these ways. */
  lemma PlainStepActs(st: State, a: Action, n: State)
    requires StepsTo(st, a, n) && Locks(st) && Slots(st) && !a.Cancel? && !OnFiles(a)
    ensures Fully(st, n)
  {
    if a.Arrive? { ArriveDoes(st, a.t, a.kind, a.target, n); }
    else if a.Create? { CreateDoes(st, a.t, a.s, a.mkdtempOk, n); }
    else if a.ThreadEnd? || a.Tick? { BackgroundDoes(st, a, n); }
    else if a.Sweeps? {
      assert st.sweep.Trying? ==> LockInv(st, st.sweep.s);
      SweepingDoes(st, a.sweep, n);
    } else {
      TaskActs(st, a, n);
    }
  }

  lemma StepActs(st: State, a: Action, n: State)
    requires StepsTo(st, a, n) && Locks(st) && Slots(st)
    ensures Acts(st, n)
  {
    if a.Cancel? {
      CancelActs(st, a.t, n);
      MarkedActs(st, a.t, n);
    }
    else if OnFiles(a) { FileStepActs(st, a, n); }
    else { PlainStepActs(st, a, n); }
  }

  // ----- files -----

  /** The files and turns of all other sessions, and the contents all sessions were made with, stay. */
  ghost predicate FilesElsewhere(st: State, n: State, s: Sid) {
    && (forall r <- st.tree :: r in n.tree && (r != s ==> n.tree[r] == st.tree[r]))
    && (forall r <- st.hist :: r in n.hist && (r != s ==> n.hist[r] == st.hist[r]))
    && forall r <- st.base :: r in n.base && (r != s ==> n.base[r] == st.base[r])
  }

  lemma EventIs(st: State, t: Tid, s: Sid, e: Event, n: State)
    requires KeysAgree(st) && t in st.tasks && s in st.m.all && (st.tasks[t].pc.Body? || st.tasks[t].pc.Run?)
    requires st.hist[s] != [] && st.tasks[t].pc.turn == |st.hist[s]| - 1 && st.hist[s][|st.hist[s]| - 1].task == t
    requires n == DoEvent(st, t, s, e)
    ensures FilesElsewhere(st, n, s) && n.base == st.base && Records(st.hist[s], n.hist[s], t, e)
    ensures n.tree == if e.Did? then st.tree[s := Changed(st.tree[s], e.change)] else st.tree
  {
  }

  /** A change by a body is made to the files as they are, and recorded at the end of the body's own turn. */
  lemma BodyChanges(st: State, t: Tid, c: Change, n: State)
    requires WellFormed(st) && Tasks(st) && StepsTo(st, Inside(t, Do(c)), n)
    ensures var s := SidOf(st, t);
      && s in st.tree && s in st.hist && s in st.base && st.hist[s] != [] && FilesElsewhere(st, n, s)
      && n.tree[s] == (match c
                       case Put(p, content) => st.tree[s][p := content]
                       case Remove(p) => st.tree[s] - {p}
                       case Rewrite(to) => to)
      && n.base == st.base && Records(st.hist[s], n.hist[s], t, Did(c))
  {
    BodyIsLast(st, t);
    EventIs(st, t, SidOf(st, t), Did(c), n);
  }

  /** What a body sees is the files as they are. */
  lemma BodyLooks(st: State, t: Tid, n: State)
    requires WellFormed(st) && Tasks(st) && StepsTo(st, Inside(t, BodyMove.Look), n)
    ensures var s := SidOf(st, t);
      && s in st.tree && s in st.hist && s in st.base && st.hist[s] != [] && FilesElsewhere(st, n, s)
      && n.tree == st.tree && n.base == st.base && Records(st.hist[s], n.hist[s], t, Saw(st.tree[s]))
  {
    BodyIsLast(st, t);
    EventIs(st, t, SidOf(st, t), Saw(st.tree[SidOf(st, t)]), n);
  }

  /** The last turn is the task's, and has one more event. */
  ghost predicate Records(before: seq<Turn>, after: seq<Turn>, t: Tid, e: Event)
    requires before != []
  {
    var last := before[|before| - 1];
    last.task == t && after == before[..|before| - 1] + [Turn(t, last.events + [e])]
  }

  lemma BodyIsLast(st: State, t: Tid)
    requires WellFormed(st) && Tasks(st) && t in st.tasks && (st.tasks[t].pc.Body? || st.tasks[t].pc.Run?)
    ensures var s := SidOf(st, t);
      && st.tasks[t].sid == Some(s) && s in st.m.all && s in st.hist && st.hist[s] != []
      && st.tasks[t].pc.turn == |st.hist[s]| - 1 && st.hist[s][|st.hist[s]| - 1].task == t
  {
    assert TaskInv(st, t);
  }

  /** Seed files are what the session is made with. */
  lemma SeedChanges(st: State, t: Tid, c: Change, n: State)
    requires WellFormed(st) && Tasks(st) && Serial(st) && StepsTo(st, Creating(t, SeedPut(c)), n)
    ensures var s := SidOf(st, t);
      && s in st.tree && s in st.base && FilesElsewhere(st, n, s) && n.hist == st.hist
      && n.tree[s] == (match c
                       case Put(p, content) => st.tree[s][p := content]
                       case Remove(p) => st.tree[s] - {p}
                       case Rewrite(to) => to)
      && (s !in st.threads ==> n.base[s] == n.tree[s])
  {
    var s := SidOf(st, t);
    SeedIsFirst(st, t);
    SeedIs(st, s, c, n);
  }

  lemma SeedIsFirst(st: State, t: Tid)
    requires WellFormed(st) && Tasks(st) && Serial(st) && t in st.tasks && st.tasks[t].pc.Seed?
    ensures var s := SidOf(st, t);
      s in st.m.all && s in st.hist && s in st.base && s in st.tree && st.hist[s] == []
      && (s !in st.threads ==> st.base[s] == st.tree[s])
  {
    assert TaskInv(st, t);
    assert SerialAt(st, SidOf(st, t));
  }

  lemma SeedIs(st: State, s: Sid, c: Change, n: State)
    requires KeysAgree(st) && s in st.m.all
    requires n == st.(base := st.base[s := Changed(st.base[s], c)], tree := st.tree[s := Changed(st.tree[s], c)])
    ensures FilesElsewhere(st, n, s) && n.hist == st.hist
    ensures n.tree[s] == Changed(st.tree[s], c) && n.base[s] == Changed(st.base[s], c)
  {
  }

  /** A removal only takes files away. */
  lemma RemovalErases(st: State, s: Sid, p: string, n: State)
    requires StepsTo(st, ThreadErase(s, p), n)
    ensures s in st.tree && s in st.threads && FilesElsewhere(st, n, s)
    ensures n.hist == st.hist && n.base == st.base && n.tree[s] == st.tree[s] - {p}
  {
  }

  /** No other step touches files; each starts at most one turn, at the end, for whoever comes to be inside. */
  lemma OthersKeepFiles(st: State, a: Action, n: State, s: Sid)
    requires StepsTo(st, a, n) && Locks(st) && Slots(st) && !OnFiles(a) && s in st.m.all
    ensures s in st.tree && s in n.tree && n.tree[s] == st.tree[s]
    ensures s in st.base && s in n.base && n.base[s] == st.base[s]
    ensures s in st.hist && s in n.hist
    ensures if t :| Opens(st, n, t, s) then n.hist[s] == st.hist[s] + [Turn(t, [])] else n.hist[s] == st.hist[s]
  {
    if a.Cancel? {
      CancelActs(st, a.t, n);
      MarkedActs(st, a.t, n);
    } else {
      PlainStepActs(st, a, n);
    }
    assert FilesAt(st, n, s);
  }

  // ----- marks -----

  /** Only a cancellation marks a task as cancelled. */
  lemma OnlyCancelMarks(st: State, a: Action, n: State, t: Tid)
    requires StepsTo(st, a, n) && Locks(st) && Slots(st) && t in n.tasks && n.tasks[t].cancelled
    ensures a == Cancel(t) || (t in st.tasks && st.tasks[t].cancelled)
  {
    StepMarks(st, a, n, t);
  }

  /** A task that comes to queue knows whether the sweeper has the lock or queues for it; otherwise the mark stays. */
  lemma BehindIsTheSweeper(st: State, a: Action, n: State, t: Tid)
    requires StepsTo(st, a, n) && Locks(st) && Slots(st) && t in n.tasks
    ensures if n.tasks[t].pc.Wait? && !(t in st.tasks && st.tasks[t].pc.Wait?) then
        && n.tasks[t].sid.Some? && n.tasks[t].sid.value in st.m.all
        && var lock := st.m.all[n.tasks[t].sid.value];
        && (n.tasks[t].behind <==> lock.holder == Some(Sweeper) || Sweeper in lock.waiters)
      else n.tasks[t].behind ==> t in st.tasks && st.tasks[t].behind
  {
    StepMarks(st, a, n, t);
  }

  lemma StepMarks(st: State, a: Action, n: State, t: Tid)
    requires StepsTo(st, a, n) && Locks(st) && Slots(st) && t in n.tasks
    ensures HonestAt(st, n.tasks[t].(cancelled := n.tasks[t].cancelled && a != Cancel(t)), t)
  {
    if a.Cancel? {
      CancelActs(st, a.t, n);
      MarkedActs(st, a.t, n);
    }
    else if OnFiles(a) { FileStepActs(st, a, n); }
    else { PlainStepActs(st, a, n); }
  }

  // ----- slots -----

  /** Whoever comes to have an execution slot was first in the queue for one, or came when nobody queued. */
  lemma SlotsInTurn(st: State, a: Action, n: State, t: Tid)
    requires StepsTo(st, a, n) && Locks(st) && Slots(st)
    requires t in n.tasks && n.tasks[t].pc.Run? && !(t in st.tasks && st.tasks[t].pc.Run?)
    ensures t in st.tasks && st.m.slots > 0
    ensures if st.tasks[t].pc.WaitSlot? then st.m.slotWaiters != [] && st.m.slotWaiters[0] == t
            else st.m.slotWaiters == []
  {
    StepMarks(st, a, n, t);
  }

  /** In the queue for slots too, whoever comes is last and the others keep their order. */
  lemma SlotQueueMoves(st: State, a: Action, n: State)
    requires StepsTo(st, a, n) && Locks(st) && Slots(st)
    ensures WaitersMove(st.m.slotWaiters, n.m.slotWaiters)
  {
    if a.Cancel? { CancelActs(st, a.t, n); }
    else if OnFiles(a) { FileStepActs(st, a, n); }
    else { PlainStepActs(st, a, n); }
  }
}
