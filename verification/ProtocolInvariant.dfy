/**
  The inductive invariant of the session protocol, one predicate per concern, and the proof that
  every action keeps it.
 */
module ProtocolInvariant {
  import opened Common
  import opened ManagerModel
  import opened Protocol

  ghost predicate Inv(st: State) {
    && WellFormed(st)
    && Bounds(st)
    && Tasks(st)
    && Locks(st)
    && Removals(st)
    && Slots(st)
    && Makers(st)
    && Serial(st)
    && Sweeping(st)
  }

  /** The limits, and the conservation of project ids. */
  ghost predicate Bounds(st: State) {
    && st.cfg.maxSlots >= 1 && st.cfg.inactivity >= 1
    && IdsConserved(st.m) && |st.m.registered| <= st.cfg.maxSessions
  }

  /** Every task is where its program counter says, with what it needs there. */
  ghost predicate Tasks(st: State)
    requires WellFormed(st)
  {
    forall t <- st.tasks :: TaskInv(st, t)
  }

  /** Every holder and waiter of a lock knows about it. */
  ghost predicate Locks(st: State) {
    forall s <- st.m.all :: LockInv(st, s)
  }

  /** A registered session is only ever being removed by the holder of its lock. */
  ghost predicate Removals(st: State) {
    forall s <- st.threads :: s in st.m.registered ==> RemoverInside(st, s)
  }

  /** Who made a session, who may know of it, and that nobody leaves one behind. */
  ghost predicate Makers(st: State)
    requires WellFormed(st)
  {
    forall s <- st.m.all :: MakerInv(st, s)
  }

  /** Every session's turns are serial, and the files nobody started to remove are what they leave. */
  ghost predicate Serial(st: State)
    requires WellFormed(st)
  {
    forall s <- st.m.all :: SerialAt(st, s)
  }

  /** A body inside `locked`: it holds its lock, over a session nobody has retired, and the last turn is its own. */
  ghost predicate BodyInv(st: State, t: Tid, s: Sid, turn: nat)
    requires s in st.m.all && s in st.hist
  {
    && s in st.m.registered && s !in st.threads
    && st.m.all[s].holder == Some(Request(t))
    && turn == |st.hist[s]| - 1 && st.hist[s][turn].task == t
  }

  /** A session only its maker knows of. */
  ghost predicate Private(st: State, t: Tid, s: Sid) {
    s !in st.published && s in st.maker && st.maker[s] == t
  }

  ghost predicate TaskInv(st: State, t: Tid)
    requires KeysAgree(st) && t in st.tasks
  {
    var task := st.tasks[t];
    task.pc.Start? || task.pc.Done? || (
      && task.sid.Some?
      && (task.kind.Ephemeral? ==> Private(st, t, task.sid.value))
      && if task.pc.Call? then CallInv(st, t, task, task.sid.value)
         else task.sid.value in st.m.all && InSessionInv(st, t, task, task.sid.value, task.pc))
  }

  ghost predicate CallInv(st: State, t: Tid, task: Task, s: Sid)
    requires task.pc.Call?
  {
    if task.pc.cleanup then Private(st, t, s) else !task.kind.CreateSession?
  }

  ghost predicate InSessionInv(st: State, t: Tid, task: Task, s: Sid, pc: Pc)
    requires s in st.m.all && s in st.hist
  {
    && (pc.Quota? ==> Private(st, t, s) && s in st.m.registered && s !in st.threads && LockFree(st.m, s)
                      && st.hist[s] == [] && st.now - st.m.all[s].lastUsed <= st.cfg.inactivity)
    && (pc.Undo? ==> s !in st.m.registered && s in st.threads)
    && (pc.Seed? ==> Private(st, t, s) && st.hist[s] == [] && task.kind.CreateSession?)
    && (pc.Wait? ==> Request(t) in st.m.all[s].waiters && (s !in st.published ==> task.behind)
                     && if pc.cleanup then Private(st, t, s) else !task.kind.CreateSession?)
    && (pc.Body? ==> BodyInv(st, t, s, pc.turn) && !task.kind.CreateSession? && !task.kind.DeleteSession?)
    && (pc.WaitSlot? ==> BodyInv(st, t, s, pc.turn) && Executes(task.kind))
    && (pc.Run? ==> BodyInv(st, t, s, pc.turn) && Executes(task.kind))
    && (pc.Deleting? ==> s in st.m.registered && s in st.threads && st.m.all[s].holder == Some(Request(t))
                         && (task.kind.DeleteSession? || Private(st, t, s)))
  }

  ghost predicate HolderInv(st: State, s: Sid, a: Agent) {
    match a
    case Request(t) => t in st.tasks && st.tasks[t].sid == Some(s) && InLock(st.tasks[t].pc)
    case Sweeper => st.sweep.Shielding? && st.sweep.s == s
  }

  ghost predicate WaiterInv(st: State, s: Sid, a: Agent) {
    match a
    case Request(t) => t in st.tasks && st.tasks[t].sid == Some(s) && st.tasks[t].pc.Wait?
    case Sweeper => st.sweep.Trying? && st.sweep.s == s
  }

  ghost predicate LockInv(st: State, s: Sid)
    requires s in st.m.all
  {
    && NoDup(st.m.all[s].waiters)
    && (st.m.all[s].holder.Some? ==> HolderInv(st, s, st.m.all[s].holder.value))
    && (forall a <- st.m.all[s].waiters :: WaiterInv(st, s, a))
  }

  /** The one who holds the lock of `s` is the one removing its directory. */
  ghost predicate RemoverInside(st: State, s: Sid) {
    && s in st.m.all
    && match st.m.all[s].holder
       case Some(Request(t)) => t in st.tasks && st.tasks[t].pc.Deleting?
       case Some(Sweeper) => st.sweep.Shielding? && st.sweep.del.Removing?
       case None => false
  }

  /** Slots are conserved: taken and free ones always add up to the limit. */
  ghost predicate Slots(st: State) {
    && st.m.slots >= 0 && st.m.slots + |st.inSlot| == st.cfg.maxSlots
    && (forall t :: t in st.inSlot <==> t in st.tasks && st.tasks[t].pc.Run?)
    && NoDup(st.m.slotWaiters)
    && (forall t :: t in st.m.slotWaiters <==> t in st.tasks && st.tasks[t].pc.WaitSlot?)
  }

  ghost predicate MakerInv(st: State, s: Sid)
    requires s in st.maker
  {
    && st.maker[s] in st.tasks
    && var mk := st.tasks[st.maker[s]];
    && mk.sid == Some(s) && MakesSession(mk.kind)
    && (s in st.published ==> mk.kind.CreateSession? && mk.pc == Done(Answered))
    && (s !in st.published ==> forall t <- st.tasks :: st.tasks[t].sid == Some(s) ==> t == st.maker[s])
    && (s !in st.published && mk.pc.Done? && s in st.m.registered ==>
          if mk.pc.outcome.WasCancelled? then mk.cancelled else mk.pc.outcome.DeleteTimedOut? && mk.behind)
  }

  ghost predicate Sweeping(st: State)
    requires st.sweep.Trying? || st.sweep.Shielding? ==> st.sweep.s in st.m.all
  {
    match st.sweep
    case Idle => true
    case Stopped => true
    case Pass(start, _, due) => start <= st.now && due !! st.m.registered
    case Trying(start, _, due, s) => start <= st.now && due !! st.m.registered && Sweeper in st.m.all[s].waiters
    case Shielding(start, _, due, s, del, cancelled) =>
      && start <= st.now && s in due && (due - {s}) !! st.m.registered
      && st.m.all[s].holder == Some(Sweeper)
      && start - st.m.all[s].lastUsed > st.cfg.inactivity
      && match del
         case Pending => s in st.m.registered && s !in st.threads
         case Removing => s in st.m.registered && s in st.threads
         case Finished => cancelled || s !in st.m.registered
  }

  lemma InitInv(st: State)
    requires Init(st)
    ensures Inv(st)
  {
  }

  /** Time goes on, held ids stay held, a retired session stays retired, and no removal ever starts twice. */
  ghost predicate Grows(st: State, n: State) {
    && st.now <= n.now && n.cfg == st.cfg && st.m.held <= n.m.held
    && (forall s <- st.m.all :: s in n.m.all)
    && (forall s <- n.m.registered :: s in st.m.all ==> s in st.m.registered)
    && (forall s <- st.threads :: s in n.threads
          && (n.threads[s] == st.threads[s] || (st.threads[s].Busy? && n.threads[s].Ended?)))
  }

  /** What is shown of every step. */
  ghost predicate Sound(st: State, n: State) { Inv(n) && Grows(st, n) }

  // ----- one task moves, at one session -----

  /** The two tables differ at most at `k`. */
  ghost predicate Same<V(!new)>(m: map<nat, V>, n: map<nat, V>, k: nat) {
    m.Keys == n.Keys && forall j <- m :: j != k ==> m[j] == n[j]
  }

  /** From `st` to `n` only task `t` and its session `s` change. */
  ghost predicate Moves(st: State, n: State, t: Tid, s: Sid) {
    && t in st.tasks && t in n.tasks && st.tasks[t].sid == n.tasks[t].sid == Some(s) && !st.tasks[t].pc.Done?
    && st.tasks[t].kind == n.tasks[t].kind && (st.tasks[t].cancelled ==> n.tasks[t].cancelled)
    && Same(st.tasks, n.tasks, t)
    && s in st.m.all && s in n.m.all && Same(st.m.all, n.m.all, s)
    && n.m.registered <= st.m.registered && (forall r <- st.m.registered :: r != s ==> r in n.m.registered)
    && st.threads.Keys <= n.threads.Keys <= st.threads.Keys + {s}
    && (forall r <- st.threads :: n.threads[r] == st.threads[r])
    && s in st.hist && s in n.hist && Same(st.hist, n.hist, s) && |st.hist[s]| <= |n.hist[s]|
    && Same(st.tree, n.tree, s) && Same(st.base, n.base, s)
    && n.maker == st.maker && n.published == st.published
    && n.sweep == st.sweep && n.now == st.now && n.cfg == st.cfg
  }

  /** Another task can only queue for `s`, or has yet to look it up, while `t` moves there. */
  ghost predicate OthersSafe(st: State, n: State, t: Tid, s: Sid)
    requires s in st.m.all && s in n.m.all && s in st.hist && s in n.hist
  {
    && (forall a :: a != Request(t) && a in st.m.all[s].waiters ==> a in n.m.all[s].waiters)
    && (st.m.all[s].holder == None || st.m.all[s].holder == Some(Request(t)) ||
         (n.m.all[s] == st.m.all[s].(waiters := n.m.all[s].waiters) && n.hist[s] == st.hist[s]
          && n.m.registered == st.m.registered && n.threads == st.threads))
  }

  /** The lock goes from `o` to `l` while `t` comes to `pc`: nobody but `t` gains or loses a place. */
  ghost predicate LockMoved(o: Session, l: Session, t: Tid, pc: Pc) {
    && NoDup(l.waiters)
    && (forall a <- l.waiters :: a in o.waiters || a == Request(t))
    && (Request(t) in l.waiters ==> pc.Wait?)
    && (|| l.holder == None
        || (l.holder == Some(Request(t)) && InLock(pc))
        || (l.holder == o.holder && o.holder != Some(Request(t))))
  }

  ghost predicate RemovalMoved(st: State, n: State, t: Tid, s: Sid)
    requires s in st.m.all && s in n.m.all && t in n.tasks
  {
    s in n.threads && s in n.m.registered ==>
      || (n.m.all[s].holder == Some(Request(t)) && n.tasks[t].pc.Deleting?)
      || (s in st.threads && s in st.m.registered && n.m.all[s].holder == st.m.all[s].holder
          && n.m.all[s].holder != Some(Request(t)))
  }

  /** A maker that ends here has not left its session behind, unless it was cancelled or timed out. */
  ghost predicate MakerMoved(n: State, t: Tid, s: Sid)
    requires t in n.tasks && s in n.maker
  {
    n.maker[s] == t && s !in n.published && n.tasks[t].pc.Done? && s in n.m.registered ==>
      if n.tasks[t].pc.outcome.WasCancelled? then n.tasks[t].cancelled
      else n.tasks[t].pc.outcome.DeleteTimedOut? && n.tasks[t].behind
  }

  /** What the bodies of `s` did and saw is serial, and the files are what it leaves until they are removed. */
  ghost predicate SerialAt(st: State, s: Sid)
    requires s in st.m.all && KeysAgree(st)
  {
    var left := RunTurns(st.base[s], st.hist[s]);
    left.Some? && (s !in st.threads ==> left == Some(st.tree[s]))
  }

  /** The files of `s` and its turns are as before, or still those of the serial execution. */
  ghost predicate SerialKept(st: State, n: State, s: Sid)
    requires s in st.m.all && s in n.m.all && KeysAgree(st) && KeysAgree(n)
  {
    (n.hist == st.hist && n.tree == st.tree && n.base == st.base) || SerialAt(n, s)
  }

  lemma ShapeMoved(st: State, n: State, t: Tid, s: Sid)
    requires WellFormed(st) && Moves(st, n, t, s)
    requires n.hist.Keys == n.m.all.Keys && TaskShape(n, n.tasks[t])
    ensures WellFormed(n)
  {
  }

  lemma ElsewhereMoved(st: State, n: State, t: Tid, s: Sid, u: Tid)
    requires KeysAgree(st) && KeysAgree(n) && Moves(st, n, t, s)
    requires u in st.tasks && u != t && st.tasks[u].sid != Some(s) && TaskInv(st, u)
    ensures TaskInv(n, u)
  {
  }

  lemma AlongsideMoved(st: State, n: State, t: Tid, s: Sid, u: Tid)
    requires KeysAgree(st) && KeysAgree(n) && Moves(st, n, t, s) && OthersSafe(st, n, t, s)
    requires u in st.tasks && u != t && st.tasks[u].sid == Some(s) && TaskInv(st, u) && MakerInv(st, s)
    ensures TaskInv(n, u)
  {
    assert !Private(st, u, s);
  }

  lemma TasksMoved(st: State, n: State, t: Tid, s: Sid)
    requires WellFormed(st) && WellFormed(n) && Moves(st, n, t, s) && OthersSafe(st, n, t, s)
    requires Tasks(st) && Makers(st)
    requires TaskInv(n, t)
    ensures Tasks(n)
  {
    forall u <- n.tasks
      ensures TaskInv(n, u)
    {
      if u != t {
        if st.tasks[u].sid == Some(s) { AlongsideMoved(st, n, t, s, u); } else { ElsewhereMoved(st, n, t, s, u); }
      }
    }
  }

  lemma LocksMoved(st: State, n: State, t: Tid, s: Sid)
    requires Moves(st, n, t, s) && Locks(st)
    requires LockMoved(st.m.all[s], n.m.all[s], t, n.tasks[t].pc)
    ensures Locks(n)
  {
  }

  lemma RemovalsMoved(st: State, n: State, t: Tid, s: Sid)
    requires Moves(st, n, t, s) && Locks(st) && Removals(st) && RemovalMoved(st, n, t, s)
    ensures Removals(n)
  {
  }

  lemma MakerKept(st: State, n: State, t: Tid, s: Sid, r: Sid)
    requires KeysAgree(st) && KeysAgree(n) && Moves(st, n, t, s) && MakerMoved(n, t, s)
    requires r in st.m.all && MakerInv(st, r)
    ensures MakerInv(n, r)
  {
  }

  lemma MakersMoved(st: State, n: State, t: Tid, s: Sid)
    requires WellFormed(st) && WellFormed(n) && Moves(st, n, t, s) && Makers(st) && MakerMoved(n, t, s)
    ensures Makers(n)
  {
    forall r <- n.m.all
      ensures MakerInv(n, r)
    {
      MakerKept(st, n, t, s, r);
    }
  }

  lemma SerialMoved(st: State, n: State, t: Tid, s: Sid)
    requires WellFormed(st) && WellFormed(n) && Moves(st, n, t, s) && Serial(st) && SerialKept(st, n, s)
    ensures Serial(n)
  {
  }

  lemma SweepingMoved(st: State, n: State, t: Tid, s: Sid)
    requires WellFormed(st) && WellFormed(n) && Moves(st, n, t, s) && OthersSafe(st, n, t, s) && Sweeping(st)
    ensures Sweeping(n)
  {
  }

  /** The part of a move that leaves everything else alone. */
  ghost predicate Frame(st: State, n: State, t: Tid, s: Sid)
    requires KeysAgree(st)
  {
    && Moves(st, n, t, s) && OthersSafe(st, n, t, s)
    && KeysAgree(n) && SerialKept(st, n, s)
  }

  /** A local step: what a move has to show, about one task and one session only. */
  ghost predicate LocalStep(st: State, n: State, t: Tid, s: Sid)
    requires KeysAgree(st)
  {
    && Frame(st, n, t, s)
    && TaskShape(n, n.tasks[t]) && TaskInv(n, t)
    && LockMoved(st.m.all[s], n.m.all[s], t, n.tasks[t].pc)
    && RemovalMoved(st, n, t, s) && MakerMoved(n, t, s)
  }

  lemma MovedTables(st: State, n: State, t: Tid, s: Sid)
    requires WellFormed(st) && WellFormed(n) && LocalStep(st, n, t, s)
    requires Locks(st) && Removals(st) && Serial(st) && Sweeping(st)
    ensures Locks(n) && Removals(n) && Serial(n) && Sweeping(n)
  {
    LocksMoved(st, n, t, s);
    RemovalsMoved(st, n, t, s);
    SerialMoved(st, n, t, s);
    SweepingMoved(st, n, t, s);
  }

  lemma MovedTasks(st: State, n: State, t: Tid, s: Sid)
    requires WellFormed(st) && LocalStep(st, n, t, s) && Tasks(st) && Makers(st)
    ensures WellFormed(n) && Tasks(n) && Makers(n)
  {
    ShapeMoved(st, n, t, s);
    TasksMoved(st, n, t, s);
    MakersMoved(st, n, t, s);
  }

  lemma MovedGrows(st: State, n: State, t: Tid, s: Sid)
    requires Moves(st, n, t, s) && st.m.held <= n.m.held
    ensures Grows(st, n)
  {
  }

  lemma MovedInv(st: State, n: State, t: Tid, s: Sid)
    requires Inv(st) && LocalStep(st, n, t, s)
    requires Bounds(n) && Slots(n) && st.m.held <= n.m.held
    ensures Sound(st, n)
  {
    MovedTasks(st, n, t, s);
    MovedTables(st, n, t, s);
    MovedGrows(st, n, t, s);
  }

  // ----- the moves there are -----

  ghost predicate Ready(st: State, t: Tid, s: Sid) {
    && KeysAgree(st) && t in st.tasks && st.tasks[t].sid == Some(s) && s in st.m.all && TaskInv(st, t)
    && NoDup(st.m.all[s].waiters) && Placed(st, t, s)
  }

  /** `t` holds or awaits the lock of `s` only where it says so. */
  ghost predicate Placed(st: State, t: Tid, s: Sid)
    requires t in st.tasks && s in st.m.all
  {
    && (Request(t) in st.m.all[s].waiters ==> st.tasks[t].pc.Wait?)
    && (st.m.all[s].holder == Some(Request(t)) ==> InLock(st.tasks[t].pc))
  }

  lemma ReadyOf(st: State, t: Tid, s: Sid)
    requires Inv(st) && t in st.tasks && st.tasks[t].sid == Some(s) && s in st.m.all
    ensures Ready(st, t, s) && SerialAt(st, s)
    ensures st.m.all[s].holder == None && s in st.m.registered ==> s !in st.threads
  {
    assert LockInv(st, s);
  }

  /** Project ids and slots are not concerned. */
  ghost predicate Quiet(st: State, n: State) {
    && SameIds(st.m, n.m) && n.m.slots == st.m.slots && n.m.slotWaiters == st.m.slotWaiters && n.inSlot == st.inSlot
  }

  /** A local step that takes, gives back or awaits no slot. */
  ghost predicate QuietStep(st: State, n: State, t: Tid, s: Sid)
    requires KeysAgree(st)
  {
    && LocalStep(st, n, t, s) && Quiet(st, n)
    && n.tasks[t].pc.Run? == st.tasks[t].pc.Run? && n.tasks[t].pc.WaitSlot? == st.tasks[t].pc.WaitSlot?
  }

  /** From `st` to `n` only the place of `t`, the lock of `s` and the slots change. */
  ghost predicate Plain(st: State, n: State, t: Tid, s: Sid)
    requires t in st.tasks && s in st.m.all
  {
    && t in n.tasks && s in n.m.all
    && n == st.(m := n.m, tasks := st.tasks[t := n.tasks[t]], inSlot := n.inSlot)
    && n.m == st.m.(all := st.m.all[s := n.m.all[s]], slots := n.m.slots, slotWaiters := n.m.slotWaiters)
    && PlainTask(st.tasks[t], n.tasks[t], s) && PlainLock(st.m.all[s], n.m.all[s], t)
  }

  ghost predicate PlainTask(o: Task, p: Task, s: Sid) {
    o.sid == p.sid == Some(s) && !o.pc.Done? && o.kind == p.kind && (o.cancelled ==> p.cancelled)
  }

  ghost predicate PlainLock(o: Session, l: Session, t: Tid) {
    && l.projectId == o.projectId
    && (forall a <- o.waiters :: a != Request(t) ==> a in l.waiters)
    && (o.holder == None || o.holder == Some(Request(t)) || l == o.(waiters := l.waiters))
  }

  lemma PlainFrame(st: State, n: State, t: Tid, s: Sid)
    requires KeysAgree(st) && t in st.tasks && s in st.m.all && Plain(st, n, t, s)
    ensures Frame(st, n, t, s) && SameIds(st.m, n.m)
  {
  }

  lemma PlainLocal(st: State, n: State, t: Tid, s: Sid)
    requires KeysAgree(st) && KeysAgree(n) && t in st.tasks && s in st.m.all && Plain(st, n, t, s)
    requires TaskShape(n, n.tasks[t]) && TaskInv(n, t)
    requires LockMoved(st.m.all[s], n.m.all[s], t, n.tasks[t].pc)
    requires RemovalMoved(st, n, t, s) && MakerMoved(n, t, s)
    ensures LocalStep(st, n, t, s) && SameIds(st.m, n.m)
  {
    PlainFrame(st, n, t, s);
  }

  /** A task that has left its main part is done, or goes on to delete the session only it knows of. */
  lemma LeftTask(st: State, n: State, t: Tid, s: Sid)
    requires KeysAgree(st) && KeysAgree(n) && t in st.tasks && t in n.tasks && s in n.m.all
    requires n.tasks[t].sid == st.tasks[t].sid == Some(s) && n.tasks[t].kind == st.tasks[t].kind
    requires n.tasks[t].pc.Done? || (n.tasks[t].pc == Call(true) && st.tasks[t].kind.Ephemeral?)
    requires n.maker == st.maker && n.published == st.published
    requires TaskInv(st, t) && !st.tasks[t].pc.Start? && !st.tasks[t].pc.Done?
    ensures TaskShape(n, n.tasks[t]) && TaskInv(n, t)
  {
  }

  lemma QuotaOkTask(st: State, t: Tid, s: Sid, n: State)
    requires KeysAgree(st) && KeysAgree(n) && t in st.tasks && st.tasks[t].sid == Some(s) && s in st.m.all
    requires st.tasks[t].pc.Quota? && MakesSession(st.tasks[t].kind) && TaskInv(st, t)
    requires n == Goto(st, t, if st.tasks[t].kind.Ephemeral? then Call(false) else Seed)
    ensures TaskShape(n, n.tasks[t]) && TaskInv(n, t)
  {
  }

  lemma QuotaOkStep(st: State, t: Tid, s: Sid, n: State)
    requires Ready(st, t, s) && st.tasks[t].pc.Quota? && MakesSession(st.tasks[t].kind)
    requires n == Goto(st, t, if st.tasks[t].kind.Ephemeral? then Call(false) else Seed)
    ensures QuietStep(st, n, t, s)
  {
    QuotaOkTask(st, t, s, n);
    PlainLocal(st, n, t, s);
  }

  lemma QuotaFailStep(st: State, t: Tid, s: Sid)
    requires Ready(st, t, s) && st.tasks[t].pc.Quota?
    ensures LocalStep(st, Goto(StartRemoval(st.(m := CreateUndone(st.m, s)), s), t, Undo), t, s)
  {
  }

  lemma DoneStep(st: State, t: Tid, s: Sid, o: Outcome)
    requires Ready(st, t, s)
    requires st.tasks[t].pc.Undo? || (st.tasks[t].pc.Seed? && o.WasCancelled? && st.tasks[t].cancelled)
    ensures QuietStep(st, Goto(st, t, Done(o)), t, s)
  {
    PlainLocal(st, Goto(st, t, Done(o)), t, s);
  }

  lemma SeedFailStep(st: State, t: Tid, s: Sid)
    requires Ready(st, t, s) && st.tasks[t].pc.Seed?
    ensures QuietStep(st, Goto(st, t, Call(true)), t, s)
  {
    PlainLocal(st, Goto(st, t, Call(true)), t, s);
  }

  lemma SeedPutMoves(st: State, t: Tid, s: Sid, c: Change, n: State)
    requires KeysAgree(st) && t in st.tasks && st.tasks[t].sid == Some(s) && s in st.m.all && !st.tasks[t].pc.Done?
    requires n == st.(base := st.base[s := Changed(st.base[s], c)], tree := st.tree[s := Changed(st.tree[s], c)])
    ensures Moves(st, n, t, s) && KeysAgree(n)
  {
  }

  lemma SeedPutFrame(st: State, t: Tid, s: Sid, c: Change, n: State)
    requires KeysAgree(st) && t in st.tasks && st.tasks[t].sid == Some(s) && s in st.m.all && !st.tasks[t].pc.Done?
    requires SerialAt(st, s) && st.hist[s] == []
    requires n == st.(base := st.base[s := Changed(st.base[s], c)], tree := st.tree[s := Changed(st.tree[s], c)])
    ensures Frame(st, n, t, s)
  {
    SeedPutMoves(st, t, s, c, n);
  }

  lemma SeedPutStep(st: State, t: Tid, s: Sid, c: Change)
    requires Ready(st, t, s) && SerialAt(st, s) && st.tasks[t].pc.Seed?
    ensures var n := st.(base := st.base[s := Changed(st.base[s], c)], tree := st.tree[s := Changed(st.tree[s], c)]);
      QuietStep(st, n, t, s)
  {
    SeedPutFrame(st, t, s, c,
      st.(base := st.base[s := Changed(st.base[s], c)], tree := st.tree[s := Changed(st.tree[s], c)]));
  }

  /** The lock has come to `t`: it was free when called, or it is this waiter's turn. */
  ghost predicate LockComes(st: State, st1: State, t: Tid, s: Sid, cleanup: bool)
    requires t in st.tasks && s in st.m.all
  {
    || (st.tasks[t].pc == Wait(cleanup) && CanGrant(st.m, s, Request(t))
        && st1 == st.(m := Granted(st.m, s, Request(t))))
    || (st.tasks[t].pc == Call(cleanup) && LockFree(st.m, s) && st1 == st.(m := Held(st.m, s, Request(t))))
  }

  /** What `t` finds with the lock: the queue behind it is `w`. */
  ghost predicate Came(st: State, st1: State, t: Tid, s: Sid, w: seq<Agent>)
    requires s in st.m.all
  {
    && st1 == st.(m := st.m.(all := st.m.all[s := st.m.all[s].(holder := Some(Request(t)), waiters := w)]))
    && st.m.all[s].holder == None
    && NoDup(w) && (forall a <- w :: a in st.m.all[s].waiters && a != Request(t))
    && (forall a <- st.m.all[s].waiters :: a != Request(t) ==> a in w)
  }

  lemma LockCame(st: State, st1: State, t: Tid, s: Sid, cleanup: bool)
    requires Ready(st, t, s) && LockComes(st, st1, t, s, cleanup)
    ensures s in st1.m.all && Came(st, st1, t, s, st1.m.all[s].waiters)
  {
    NoDupQueue(st.m.all[s].waiters, Request(t));
  }

  lemma EnterGonePlain(st: State, st1: State, t: Tid, s: Sid, cleanup: bool, w: seq<Agent>, n: State)
    requires t in st.tasks && st.tasks[t].sid == Some(s) && s in st.m.all && !st.tasks[t].pc.Done?
    requires Came(st, st1, t, s, w)
    requires n == NotFound(st1.(m := Released(st1.m, s)), t, cleanup)
    ensures Plain(st, n, t, s) && n.m.all[s] == st.m.all[s].(waiters := w)
    ensures n.m.slots == st.m.slots && n.m.slotWaiters == st.m.slotWaiters && n.inSlot == st.inSlot
  {
  }

  lemma EnterGoneStep(st: State, st1: State, t: Tid, s: Sid, cleanup: bool, w: seq<Agent>, n: State)
    requires Ready(st, t, s) && (st.tasks[t].pc == Wait(cleanup) || st.tasks[t].pc == Call(cleanup))
    requires Came(st, st1, t, s, w) && s !in st.m.registered
    requires n == NotFound(st1.(m := Released(st1.m, s)), t, cleanup)
    ensures QuietStep(st, n, t, s)
  {
    EnterGonePlain(st, st1, t, s, cleanup, w, n);
    LeftTask(st, n, t, s);
    PlainLocal(st, n, t, s);
  }

  lemma EnterDeleteFrame(st: State, st1: State, t: Tid, s: Sid, w: seq<Agent>, n: State)
    requires KeysAgree(st) && t in st.tasks && st.tasks[t].sid == Some(s) && s in st.m.all && !st.tasks[t].pc.Done?
    requires Came(st, st1, t, s, w) && s !in st.threads
    requires n == Goto(StartRemoval(st1.(m := Touched(st1.m, s, st.now)), s), t, Deleting)
    ensures Frame(st, n, t, s)
  {
  }

  lemma EnterDeleteStep(st: State, st1: State, t: Tid, s: Sid, cleanup: bool, w: seq<Agent>)
    requires Ready(st, t, s) && (st.tasks[t].pc == Wait(cleanup) || st.tasks[t].pc == Call(cleanup))
    requires Came(st, st1, t, s, w) && s in st.m.registered && s !in st.threads
    requires cleanup || st.tasks[t].kind.DeleteSession?
    ensures var n := Goto(StartRemoval(st1.(m := Touched(st1.m, s, st.now)), s), t, Deleting);
      QuietStep(st, n, t, s)
  {
    EnterDeleteFrame(st, st1, t, s, w, Goto(StartRemoval(st1.(m := Touched(st1.m, s, st.now)), s), t, Deleting));
  }

  lemma EnterBodyMoves(st: State, st1: State, t: Tid, s: Sid, w: seq<Agent>, n: State)
    requires KeysAgree(st) && t in st.tasks && st.tasks[t].sid == Some(s) && s in st.m.all && !st.tasks[t].pc.Done?
    requires Came(st, st1, t, s, w)
    requires n == Goto(st1.(m := Touched(st1.m, s, st.now), hist := st.hist[s := st.hist[s] + [Turn(t, [])]]),
                      t, Body(|st.hist[s]|))
    ensures Moves(st, n, t, s) && KeysAgree(n)
  {
  }

  lemma EnterBodyFrame(st: State, st1: State, t: Tid, s: Sid, w: seq<Agent>, n: State)
    requires KeysAgree(st) && t in st.tasks && st.tasks[t].sid == Some(s) && s in st.m.all && !st.tasks[t].pc.Done?
    requires Came(st, st1, t, s, w) && SerialAt(st, s)
    requires n == Goto(st1.(m := Touched(st1.m, s, st.now), hist := st.hist[s := st.hist[s] + [Turn(t, [])]]),
                      t, Body(|st.hist[s]|))
    ensures Frame(st, n, t, s)
  {
    EnterBodyMoves(st, st1, t, s, w, n);
    TurnStarts(st.base[s], st.hist[s], t);
  }

  lemma EnterBodyStep(st: State, st1: State, t: Tid, s: Sid, w: seq<Agent>)
    requires Ready(st, t, s) && (st.tasks[t].pc == Wait(false) || st.tasks[t].pc == Call(false))
    requires Came(st, st1, t, s, w) && s in st.m.registered && s !in st.threads && SerialAt(st, s)
    requires !st.tasks[t].kind.DeleteSession?
    ensures var n := Goto(st1.(m := Touched(st1.m, s, st.now), hist := st.hist[s := st.hist[s] + [Turn(t, [])]]),
                          t, Body(|st.hist[s]|));
      QuietStep(st, n, t, s)
  {
    EnterBodyFrame(st, st1, t, s, w,
      Goto(st1.(m := Touched(st1.m, s, st.now), hist := st.hist[s := st.hist[s] + [Turn(t, [])]]),
           t, Body(|st.hist[s]|)));
    TurnStarts(st.base[s], st.hist[s], t);
  }

  lemma TurnStarts(tree: Tree, turns: seq<Turn>, t: Tid)
    ensures RunTurns(tree, turns + [Turn(t, [])]) == RunTurns(tree, turns)
  {
    assert (turns + [Turn(t, [])])[..|turns|] == turns;
  }

  lemma EnterStep(st: State, st1: State, t: Tid, s: Sid, cleanup: bool)
    requires Ready(st, t, s) && SerialAt(st, s) && LockComes(st, st1, t, s, cleanup)
    requires s in st.m.registered ==> s !in st.threads
    ensures QuietStep(st, Enter(st1, t, s, cleanup), t, s)
  {
    LockCame(st, st1, t, s, cleanup);
    var w := st1.m.all[s].waiters;
    if s !in st.m.registered { EnterGoneStep(st, st1, t, s, cleanup, w, Enter(st1, t, s, cleanup)); }
    else if cleanup || st.tasks[t].kind.DeleteSession? { EnterDeleteStep(st, st1, t, s, cleanup, w); }
    else { EnterBodyStep(st, st1, t, s, w); }
  }

  lemma QueueFacts(st: State, t: Tid, s: Sid)
    requires Ready(st, t, s) && st.tasks[t].pc.Call? && !LockFree(st.m, s) && LockInv(st, s) && MakerInv(st, s)
    ensures Request(t) !in st.m.all[s].waiters && NoDup(st.m.all[s].waiters + [Request(t)])
    ensures s !in st.published ==> st.m.all[s].holder == Some(Sweeper) || Sweeper in st.m.all[s].waiters
  {
    var lock := st.m.all[s];
    NoDupQueue(lock.waiters, Request(t));
    if lock.waiters != [] { assert WaiterInv(st, s, lock.waiters[0]); }
  }

  lemma QueueTask(st: State, t: Tid, s: Sid, behind: bool, n: State)
    requires KeysAgree(st) && KeysAgree(n) && t in st.tasks && s in st.m.all && TaskInv(st, t)
    requires st.tasks[t].sid == Some(s) && st.tasks[t].pc.Call? && (s !in st.published ==> behind)
    requires n == st.(m := Queued(st.m, s, Request(t)),
                      tasks := st.tasks[t := st.tasks[t].(pc := Wait(st.tasks[t].pc.cleanup), behind := behind)])
    ensures TaskShape(n, n.tasks[t]) && TaskInv(n, t)
  {
  }

  lemma QueueStep(st: State, t: Tid, s: Sid, behind: bool, n: State)
    requires Ready(st, t, s) && st.tasks[t].pc.Call? && s in st.m.registered
    requires s !in st.published ==> behind
    requires NoDup(st.m.all[s].waiters + [Request(t)])
    requires n == st.(m := Queued(st.m, s, Request(t)),
                      tasks := st.tasks[t := st.tasks[t].(pc := Wait(st.tasks[t].pc.cleanup), behind := behind)])
    ensures QuietStep(st, n, t, s)
  {
    QueueTask(st, t, s, behind, n);
    PlainLocal(st, n, t, s);
  }

  /** `t` stops waiting for the lock, by timeout or cancellation. */
  lemma UnqueuePlain(st: State, t: Tid, s: Sid, o: Outcome, n: State)
    requires t in st.tasks && st.tasks[t].sid == Some(s) && s in st.m.all && st.tasks[t].pc.Wait?
    requires n == (var st1 := st.(m := Unqueued(st.m, s, Request(t)));
      if st.tasks[t].pc.cleanup then Goto(st1, t, Done(o)) else Leave(st1, t, o))
    ensures Plain(st, n, t, s)
    ensures n.m.all[s] == st.m.all[s].(waiters := Without(st.m.all[s].waiters, Request(t)))
    ensures n.m.slots == st.m.slots && n.m.slotWaiters == st.m.slotWaiters && n.inSlot == st.inSlot
  {
  }

  lemma UnqueueStep(st: State, t: Tid, s: Sid, o: Outcome, n: State)
    requires Ready(st, t, s) && st.tasks[t].pc.Wait?
    requires o.WasCancelled? ==> st.tasks[t].cancelled
    requires var st1 := st.(m := Unqueued(st.m, s, Request(t)));
      n == if st.tasks[t].pc.cleanup then Goto(st1, t, Done(o)) else Leave(st1, t, o)
    requires if st.tasks[t].pc.cleanup then o.DeleteTimedOut? || o.WasCancelled?
             else s in st.maker && (st.maker[s] == t ==> st.tasks[t].kind.Ephemeral?)
    ensures QuietStep(st, n, t, s)
  {
    UnqueuePlain(st, t, s, o, n);
    LeftTask(st, n, t, s);
    PlainLocal(st, n, t, s);
  }

  /** A task looks its session up and does not find it. */
  lemma CallGoneStep(st: State, t: Tid, s: Sid)
    requires Ready(st, t, s) && st.tasks[t].pc.Call? && s !in st.m.registered
    ensures var n := NotFound(st, t, st.tasks[t].pc.cleanup);
      QuietStep(st, n, t, s)
  {
    var n := NotFound(st, t, st.tasks[t].pc.cleanup);
    LeftTask(st, n, t, s);
    PlainLocal(st, n, t, s);
  }

  lemma MarkStep(st: State, t: Tid, s: Sid)
    requires Ready(st, t, s) && !st.tasks[t].pc.Done? && st.tasks[t].pc != Start
    ensures QuietStep(st, Marked(st, t), t, s)
  {
    PlainLocal(st, Marked(st, t), t, s);
  }

  /** The body of `t` is over, however it ended, and the lock released. */
  lemma ExitPlain(st: State, t: Tid, s: Sid, m1: Manager, inSlot1: set<Tid>, o: Outcome, n: State)
    requires t in st.tasks && st.tasks[t].sid == Some(s) && s in st.m.all && !st.tasks[t].pc.Done?
    requires m1 == st.m.(slots := m1.slots, slotWaiters := m1.slotWaiters)
    requires st.m.all[s].holder == Some(Request(t))
    requires n == Leave(ReleaseLock(st.(m := m1, inSlot := inSlot1), s), t, o)
    ensures Plain(st, n, t, s) && n.m.all[s] == st.m.all[s].(holder := None)
  {
  }

  lemma ExitStep(st: State, t: Tid, s: Sid, m1: Manager, inSlot1: set<Tid>, o: Outcome, n: State)
    requires Ready(st, t, s) && (st.tasks[t].pc.Body? || st.tasks[t].pc.WaitSlot? || st.tasks[t].pc.Run?)
    requires m1 == st.m.(slots := m1.slots, slotWaiters := m1.slotWaiters)
    requires o.WasCancelled? ==> st.tasks[t].cancelled
    requires s in st.maker && (st.maker[s] == t ==> st.tasks[t].kind.Ephemeral?)
    requires n == Leave(ReleaseLock(st.(m := m1, inSlot := inSlot1), s), t, o)
    ensures LocalStep(st, n, t, s)
  {
    ExitPlain(st, t, s, m1, inSlot1, o, n);
    LeftTask(st, n, t, s);
    PlainLocal(st, n, t, s);
  }

  lemma RetireStep(st: State, t: Tid, s: Sid, removed: bool, o: Outcome)
    requires Ready(st, t, s) && st.tasks[t].pc.Deleting?
    ensures LocalStep(st, Goto(ReleaseLock(st.(m := Retired(st.m, s, removed)), s), t, Done(o)), t, s)
  {
  }

  lemma EventMoves(st: State, t: Tid, s: Sid, e: Event, n: State)
    requires KeysAgree(st) && t in st.tasks && st.tasks[t].sid == Some(s) && s in st.m.all
    requires (st.tasks[t].pc.Body? || st.tasks[t].pc.Run?) && st.tasks[t].pc.turn < |st.hist[s]|
    requires n == DoEvent(st, t, s, e)
    ensures Moves(st, n, t, s) && KeysAgree(n)
  {
  }

  lemma EventFrame(st: State, t: Tid, s: Sid, e: Event, n: State)
    requires KeysAgree(st) && t in st.tasks && st.tasks[t].sid == Some(s) && s in st.m.all && SerialAt(st, s)
    requires (st.tasks[t].pc.Body? || st.tasks[t].pc.Run?) && BodyInv(st, t, s, st.tasks[t].pc.turn)
    requires e.Saw? ==> e.tree == st.tree[s]
    requires n == DoEvent(st, t, s, e)
    ensures Frame(st, n, t, s)
  {
    EventMoves(st, t, s, e, n);
    EventRuns(st.base[s], st.hist[s], e);
  }

  lemma EventStep(st: State, t: Tid, s: Sid, e: Event)
    requires Ready(st, t, s) && SerialAt(st, s) && (st.tasks[t].pc.Body? || st.tasks[t].pc.Run?)
    requires e.Saw? ==> e.tree == st.tree[s]
    ensures QuietStep(st, DoEvent(st, t, s, e), t, s)
  {
    EventFrame(st, t, s, e, DoEvent(st, t, s, e));
    EventRuns(st.base[s], st.hist[s], e);
  }

  /** One more event of the last turn: the serial execution goes one step further. */
  lemma EventRuns(tree: Tree, turns: seq<Turn>, e: Event)
    requires turns != [] && RunTurns(tree, turns).Some?
    requires e.Saw? ==> e.tree == RunTurns(tree, turns).value
    ensures var last := turns[|turns| - 1];
      RunTurns(tree, turns[|turns| - 1 := last.(events := last.events + [e])])
        == Some(if e.Did? then Changed(RunTurns(tree, turns).value, e.change) else RunTurns(tree, turns).value)
  {
    var last := turns[|turns| - 1];
    var turns' := turns[|turns| - 1 := last.(events := last.events + [e])];
    assert turns'[..|turns'| - 1] == turns[..|turns| - 1];
    assert (last.events + [e])[..|last.events|] == last.events;
  }

  lemma SlotTask(st: State, t: Tid, s: Sid, m1: Manager, inSlot1: set<Tid>, pc: Pc, n: State)
    requires KeysAgree(st) && KeysAgree(n) && t in st.tasks && s in st.m.all
    requires st.tasks[t].sid == Some(s) && (st.tasks[t].pc.Body? || st.tasks[t].pc.WaitSlot?)
    requires Executes(st.tasks[t].kind)
    requires m1 == st.m.(slots := m1.slots, slotWaiters := m1.slotWaiters)
    requires (pc.Run? || pc.WaitSlot?) && pc.turn == st.tasks[t].pc.turn
    requires n == Goto(st.(m := m1, inSlot := inSlot1), t, pc)
    requires TaskInv(st, t)
    ensures TaskShape(n, n.tasks[t]) && TaskInv(n, t)
  {
  }

  lemma SlotStep(st: State, t: Tid, s: Sid, m1: Manager, inSlot1: set<Tid>, pc: Pc, n: State)
    requires Ready(st, t, s) && (st.tasks[t].pc.Body? || st.tasks[t].pc.WaitSlot?) && Executes(st.tasks[t].kind)
    requires m1 == st.m.(slots := m1.slots, slotWaiters := m1.slotWaiters)
    requires (pc.Run? || pc.WaitSlot?) && pc.turn == st.tasks[t].pc.turn
    requires n == Goto(st.(m := m1, inSlot := inSlot1), t, pc)
    ensures LocalStep(st, n, t, s)
  {
    SlotTask(st, t, s, m1, inSlot1, pc, n);
    PlainLocal(st, n, t, s);
  }

  // ----- slots and project ids -----

  lemma SlotsKept(st: State, n: State, t: Tid)
    requires Slots(st) && t in st.tasks && Same(st.tasks, n.tasks, t) && n.cfg == st.cfg
    requires n.m.slots == st.m.slots && n.m.slotWaiters == st.m.slotWaiters && n.inSlot == st.inSlot
    requires n.tasks[t].pc.Run? == st.tasks[t].pc.Run? && n.tasks[t].pc.WaitSlot? == st.tasks[t].pc.WaitSlot?
    ensures Slots(n)
  {
  }

  lemma SlotsLeft(st: State, n: State, t: Tid)
    requires Slots(st) && t in st.tasks && Same(st.tasks, n.tasks, t) && n.cfg == st.cfg
    requires !n.tasks[t].pc.Run? && !n.tasks[t].pc.WaitSlot?
    requires || (st.tasks[t].pc.Run? && n.m.slots == st.m.slots + 1 && n.inSlot == st.inSlot - {t}
                 && n.m.slotWaiters == st.m.slotWaiters)
             || (st.tasks[t].pc.WaitSlot? && n.m.slots == st.m.slots && n.inSlot == st.inSlot
                 && n.m.slotWaiters == Without(st.m.slotWaiters, t))
    ensures Slots(n)
  {
    if st.tasks[t].pc.Run? { assert |st.inSlot - {t}| == |st.inSlot| - 1; }
  }

  lemma SlotsEntered(st: State, n: State, t: Tid)
    requires Slots(st) && t in st.tasks && Same(st.tasks, n.tasks, t) && n.cfg == st.cfg
    requires || (st.tasks[t].pc.Body? && n.tasks[t].pc.Run? && SlotFree(st.m)
                 && n.m.slots == st.m.slots - 1 && n.inSlot == st.inSlot + {t} && n.m.slotWaiters == st.m.slotWaiters)
             || (st.tasks[t].pc.Body? && n.tasks[t].pc.WaitSlot?
                 && n.m.slots == st.m.slots && n.inSlot == st.inSlot && n.m.slotWaiters == st.m.slotWaiters + [t])
             || (st.tasks[t].pc.WaitSlot? && n.tasks[t].pc.Run? && st.m.slots > 0 && st.m.slotWaiters != []
                 && st.m.slotWaiters[0] == t && n.m.slotWaiters == st.m.slotWaiters[1..]
                 && n.m.slots == st.m.slots - 1 && n.inSlot == st.inSlot + {t})
    ensures Slots(n)
  {
    NoDupQueue(st.m.slotWaiters, t);
    assert t !in st.inSlot && |st.inSlot + {t}| == |st.inSlot| + 1;
  }

  lemma BoundsKept(st: State, n: State)
    requires Bounds(st) && SameIds(st.m, n.m) && n.cfg == st.cfg
    ensures Bounds(n)
  {
    SameIdsConserve(st.m, n.m);
  }

  lemma IdsRetired(m: Manager, s: Sid, m1: Manager)
    requires IdsConserved(m) && s in m.registered
    requires m1 == CreateUndone(m, s) || m1 == Retired(m, s, true) || m1 == Retired(m, s, false)
    ensures IdsConserved(m1) && m1.registered == m.registered - {s} && m.held <= m1.held
  {
    ReleasedConserves(m, s);
  }

  lemma BoundsRetired(st: State, n: State, s: Sid, m1: Manager)
    requires Bounds(st) && s in st.m.registered && n.cfg == st.cfg
    requires m1 == CreateUndone(st.m, s) || m1 == Retired(st.m, s, true) || m1 == Retired(st.m, s, false)
    requires SameIds(m1, n.m)
    ensures Bounds(n) && st.m.held <= n.m.held
  {
    IdsRetired(st.m, s, m1);
    BoundsKept(st.(m := m1), n);
  }

  // ----- one task appears, or moves away from no session -----

  /** Only task `t` changes; it made no session and nobody but its clients knows the one it names. */
  ghost predicate Alone(st: State, n: State, t: Tid) {
    && t in n.tasks && n == st.(tasks := st.tasks[t := n.tasks[t]])
    && (t in st.tasks ==>
          (st.tasks[t].pc.Start? || st.tasks[t].pc.Call?)
          && (st.tasks[t].sid.None? || st.tasks[t].sid.value !in st.m.all))
    && (n.tasks[t].sid.Some? && n.tasks[t].sid.value in st.m.all ==> n.tasks[t].sid.value in st.published)
    && var pc := n.tasks[t].pc;
    && (|| (pc == Start && n.tasks[t].sid.None? && MakesSession(n.tasks[t].kind))
        || (pc == Call(false) && n.tasks[t].sid.Some? && !MakesSession(n.tasks[t].kind))
        || pc.Done?)
  }

  lemma AloneInv(st: State, n: State, t: Tid)
    requires Inv(st) && Alone(st, n, t)
    ensures Sound(st, n)
  {
    AloneTasks(st, n, t);
    AloneLocks(st, n, t);
    AloneRemovals(st, n, t);
    AloneMakers(st, n, t);
    assert Slots(n);
  }

  lemma AloneTasks(st: State, n: State, t: Tid)
    requires WellFormed(st) && Tasks(st) && Alone(st, n, t)
    ensures WellFormed(n) && Tasks(n)
  {
  }

  lemma AloneLock(st: State, n: State, t: Tid, s: Sid)
    requires Alone(st, n, t) && s in st.m.all && LockInv(st, s)
    requires s in st.maker && MakerInv(st, s)
    ensures LockInv(n, s)
  {
  }

  lemma AloneLocks(st: State, n: State, t: Tid)
    requires WellFormed(st) && Locks(st) && Makers(st) && Alone(st, n, t)
    ensures Locks(n)
  {
    forall s <- n.m.all
      ensures LockInv(n, s)
    {
      AloneLock(st, n, t, s);
    }
  }

  lemma AloneRemovals(st: State, n: State, t: Tid)
    requires WellFormed(st) && Locks(st) && Removals(st) && Alone(st, n, t)
    ensures Removals(n)
  {
  }

  lemma AloneMakers(st: State, n: State, t: Tid)
    requires WellFormed(st) && Makers(st) && WellFormed(n) && Alone(st, n, t)
    ensures Makers(n)
  {
    forall s <- n.m.all
      ensures MakerInv(n, s)
    {
      assert MakerInv(st, s);
    }
  }

  // ----- a session is made -----

  /** `t` has just reserved the new session `s`, which nobody had heard of. */
  ghost predicate Makes(st: State, n: State, t: Tid, s: Sid) {
    && At(st, t, Start) && Unheard(st, s)
    && MakesTask(st, n, t, s)
    && s in n.m.all && n.m.all == st.m.all[s := n.m.all[s]] && LockFree(n.m, s) && n.m.all[s].lastUsed == st.now
    && n.m.registered == st.m.registered + {s}
    && n.m.slots == st.m.slots && n.m.slotWaiters == st.m.slotWaiters && n.inSlot == st.inSlot
    && n.maker == st.maker[s := t] && n.published == st.published
    && n.base == st.base[s := map[]] && n.tree == st.tree[s := map[]] && n.hist == st.hist[s := []]
    && n.threads == st.threads && n.sweep == st.sweep && n.now == st.now && n.cfg == st.cfg
  }

  ghost predicate MakesTask(st: State, n: State, t: Tid, s: Sid)
    requires t in st.tasks
  {
    && t in n.tasks && n.tasks == st.tasks[t := n.tasks[t]]
    && n.tasks[t].sid == Some(s) && n.tasks[t].kind == st.tasks[t].kind
    && n.tasks[t].pc == if st.cfg.quota then Quota else if st.tasks[t].kind.Ephemeral? then Call(false) else Seed
  }

  lemma CreateMakes(st: State, t: Tid, s: Sid)
    requires At(st, t, Start) && Unheard(st, s)
    requires |st.m.registered| < st.cfg.maxSessions && (st.cfg.quota ==> CanAllocate(st.m))
    requires IdsConserved(st.m)
    ensures Makes(st, DoCreate(st, t, s, true), t, s)
    ensures var n := DoCreate(st, t, s, true);
      n.m.held == st.m.held && IdsConserved(n.m) && |n.m.registered| <= st.cfg.maxSessions
  {
    CreatedConserves(st.m, s, st.cfg.quota, st.now);
  }

  lemma MakesInv(st: State, n: State, t: Tid, s: Sid)
    requires Inv(st) && Makes(st, n, t, s)
    requires Bounds(n) && st.m.held <= n.m.held
    ensures Sound(st, n)
  {
    MakesShape(st, n, t, s);
    MakesTasks(st, n, t, s);
    MakesMakers(st, n, t, s);
    MakesLocks(st, n, t, s);
    MakesRemovals(st, n, t, s);
    MakesSerial(st, n, t, s);
    MakesRest(st, n, t, s);
    assert Grows(st, n) by { MakesGrows(st, n, t, s); }
  }

  lemma MakesGrows(st: State, n: State, t: Tid, s: Sid)
    requires Makes(st, n, t, s) && st.m.held <= n.m.held
    ensures Grows(st, n)
  {
  }

  lemma MakesShape(st: State, n: State, t: Tid, s: Sid)
    requires WellFormed(st) && Makes(st, n, t, s)
    ensures WellFormed(n)
  {
  }

  lemma MakesTasks(st: State, n: State, t: Tid, s: Sid)
    requires WellFormed(st) && WellFormed(n) && Tasks(st) && Makes(st, n, t, s) && st.cfg.inactivity >= 1
    ensures Tasks(n)
  {
    forall u <- n.tasks
      ensures TaskInv(n, u)
    {
      if u != t { MakesOther(st, n, t, s, u); }
    }
  }

  lemma MakesOther(st: State, n: State, t: Tid, s: Sid, u: Tid)
    requires KeysAgree(st) && KeysAgree(n) && Makes(st, n, t, s)
    requires u != t && u in st.tasks && TaskInv(st, u)
    ensures TaskInv(n, u)
  {
  }

  lemma MakesMaker(st: State, n: State, t: Tid, s: Sid, r: Sid)
    requires KeysAgree(st) && KeysAgree(n) && st.published <= st.m.all.Keys && Makes(st, n, t, s) && r in n.m.all
    requires TaskShape(st, st.tasks[t])
    requires r != s ==> MakerInv(st, r)
    ensures MakerInv(n, r)
  {
  }

  lemma MakesMakers(st: State, n: State, t: Tid, s: Sid)
    requires WellFormed(st) && WellFormed(n) && Makes(st, n, t, s) && Makers(st)
    ensures Makers(n)
  {
    forall r <- n.m.all
      ensures MakerInv(n, r)
    {
      MakesMaker(st, n, t, s, r);
    }
  }

  lemma MakesLocks(st: State, n: State, t: Tid, s: Sid)
    requires WellFormed(st) && Locks(st) && Makes(st, n, t, s)
    ensures Locks(n)
  {
  }

  lemma MakesRemovals(st: State, n: State, t: Tid, s: Sid)
    requires WellFormed(st) && Locks(st) && Removals(st) && Makes(st, n, t, s)
    ensures Removals(n)
  {
  }

  lemma MakesSerial(st: State, n: State, t: Tid, s: Sid)
    requires WellFormed(st) && WellFormed(n) && Serial(st) && Makes(st, n, t, s)
    ensures Serial(n)
  {
  }

  lemma MakesRest(st: State, n: State, t: Tid, s: Sid)
    requires WellFormed(st) && WellFormed(n) && Slots(st) && Sweeping(st) && Makes(st, n, t, s)
    ensures Slots(n) && Sweeping(n)
  {
  }

  // ----- the sweeper moves, at one session -----

  /** From `st` to `n` only the sweeper and session `s` change. */
  ghost predicate SweepMoves(st: State, n: State, s: Sid) {
    && n == st.(m := n.m, sweep := n.sweep, threads := n.threads)
    && s in st.m.all && s in n.m.all && Same(st.m.all, n.m.all, s)
    && n.m.registered <= st.m.registered && (forall r <- st.m.registered :: r != s ==> r in n.m.registered)
    && st.threads.Keys <= n.threads.Keys <= st.threads.Keys + {s}
    && (forall r <- st.threads :: n.threads[r] == st.threads[r])
    && n.m.slots == st.m.slots && n.m.slotWaiters == st.m.slotWaiters
    && (st.sweep.Trying? || st.sweep.Shielding? ==> st.sweep.s == s)
  }

  /** No task has a hold on `s` that the sweeper's step would break. */
  ghost predicate TasksSafe(st: State, n: State, s: Sid)
    requires s in st.m.all && s in n.m.all
  {
    || (n.m.all[s] == st.m.all[s] && n.m.registered == st.m.registered && n.threads == st.threads)
    || (&& (!LockFree(st.m, s) || st.now - st.m.all[s].lastUsed > st.cfg.inactivity)
        && (forall a :: a != Sweeper && a in st.m.all[s].waiters ==> a in n.m.all[s].waiters)
        && (|| st.m.all[s].holder == None || st.m.all[s].holder == Some(Sweeper)
            || (n.m.all[s] == st.m.all[s].(waiters := n.m.all[s].waiters)
                && n.m.registered == st.m.registered && n.threads == st.threads)))
  }

  lemma SweptTask(st: State, n: State, s: Sid, u: Tid)
    requires KeysAgree(st) && KeysAgree(n) && SweepMoves(st, n, s) && TasksSafe(st, n, s)
    requires u in st.tasks && TaskInv(st, u)
    ensures TaskInv(n, u)
  {
  }

  lemma SweptSessions(st: State, n: State, s: Sid)
    requires KeysAgree(st) && KeysAgree(n) && SweepMoves(st, n, s)
    requires Locks(st) && Removals(st) && LockInv(n, s)
    requires s in n.threads && s in n.m.registered ==> RemoverInside(n, s)
    ensures Locks(n) && Removals(n)
  {
  }

  lemma SweptMaker(st: State, n: State, s: Sid, r: Sid)
    requires KeysAgree(st) && KeysAgree(n) && SweepMoves(st, n, s) && r in st.m.all && MakerInv(st, r)
    ensures MakerInv(n, r)
  {
  }

  /** The invariant as far as it concerns the sweeper and session `s`. */
  ghost predicate SweepLocal(st: State, s: Sid) {
    && KeysAgree(st) && s in st.m.all
    && (st.sweep.Trying? || st.sweep.Shielding? ==> st.sweep.s == s)
    && Sweeping(st) && LockInv(st, s)
    && (s in st.threads && s in st.m.registered ==> RemoverInside(st, s))
  }

  ghost predicate SweepStep(st: State, n: State, s: Sid) {
    SweepMoves(st, n, s) && TasksSafe(st, n, s) && SweepLocal(n, s)
  }

  lemma SweptTasks(st: State, n: State, s: Sid)
    requires WellFormed(st) && WellFormed(n) && SweepMoves(st, n, s) && TasksSafe(st, n, s)
    requires Tasks(st) && Makers(st)
    ensures Tasks(n) && Makers(n)
  {
    forall u <- n.tasks
      ensures TaskInv(n, u)
    {
      SweptTask(st, n, s, u);
    }
    forall r <- n.m.all
      ensures MakerInv(n, r)
    {
      SweptMaker(st, n, s, r);
    }
  }

  lemma SweptGrows(st: State, n: State, s: Sid)
    requires SweepMoves(st, n, s) && st.m.held <= n.m.held
    ensures Grows(st, n)
  {
  }

  lemma SweptInv(st: State, n: State, s: Sid)
    requires Inv(st) && SweepStep(st, n, s) && WellFormed(n) && Bounds(n)
    requires st.m.held <= n.m.held
    ensures Sound(st, n)
  {
    SweptTasks(st, n, s);
    SweptSessions(st, n, s);
    SweptSerial(st, n, s);
    SweptGrows(st, n, s);
  }

  lemma SweptSerial(st: State, n: State, s: Sid)
    requires WellFormed(st) && WellFormed(n) && SweepMoves(st, n, s) && Serial(st) && Slots(st)
    ensures Serial(n) && Slots(n)
  {
  }
}
