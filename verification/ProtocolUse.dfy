/** Over whole runs: when sessions are used, in which order they are waited for, and what a sweep comes to. */
module ProtocolUse {
  import opened Common
  import opened ManagerModel
  import opened Protocol
  import opened ProtocolInvariant
  import opened ProtocolSteps
  import opened ProtocolSafety
  import opened ProtocolEffects

  // ----- the stamp of a session is when it was last used -----

  /** With this step the session is made, or a task comes to be inside `locked` with it. */
  ghost predicate Uses(st: State, n: State, s: Sid) {
    (s !in st.m.all && s in n.m.all) || exists t: Tid :: Enters(st, n, t, s)
  }

  /** A step stamps a session with the time if it uses it, and leaves its stamp alone if not. */
  lemma StepStamps(st: State, a: Action, n: State, s: Sid)
    requires StepsTo(st, a, n) && Locks(st) && Slots(st) && s in n.m.all
    ensures if Uses(st, n, s) then n.m.all[s].lastUsed == st.now
            else s in st.m.all && n.m.all[s].lastUsed == st.m.all[s].lastUsed
  {
    StepActs(st, a, n);
    ActsStamp(st, n, s);
  }

  lemma ActsStamp(st: State, n: State, s: Sid)
    requires Acts(st, n) && s in n.m.all
    ensures if Uses(st, n, s) then n.m.all[s].lastUsed == st.now
            else s in st.m.all && n.m.all[s].lastUsed == st.m.all[s].lastUsed
  {
    if r, l, who :| Does(st, n, r, l, who) {
      OnlyWhoEnters(st, n, r, l, who);
    } else {
      NobodyIsNobody(st, n);
    }
  }

  lemma RunStamps(ss: seq<State>, acts: seq<Action>, i: nat, s: Sid)
    requires IsRun(ss, acts) && i < |acts| && s in ss[i + 1].m.all
    ensures if Uses(ss[i], ss[i + 1], s) then ss[i + 1].m.all[s].lastUsed == ss[i].now
            else s in ss[i].m.all && ss[i + 1].m.all[s].lastUsed == ss[i].m.all[s].lastUsed
  {
    RunInv(ss, acts, i);
    RunStep(ss, acts, i);
    StepStamps(ss[i], acts[i], ss[i + 1], s);
  }

  /** The stamp of a session is the time of the last step that used it. */
  lemma {:induction false} StampIsLastUse(ss: seq<State>, acts: seq<Action>, i: nat, s: Sid) returns (k: nat)
    requires IsRun(ss, acts) && i < |ss| && s in ss[i].m.all
    ensures k < i && Uses(ss[k], ss[k + 1], s) && ss[i].m.all[s].lastUsed == ss[k].now
    ensures forall j :: k < j < i ==> !Uses(ss[j], ss[j + 1], s)
  {
    if i == 0 {
      assert false;
    }
    RunStamps(ss, acts, i - 1, s);
    assert ss[i - 1 + 1] == ss[i];
    if Uses(ss[i - 1], ss[i], s) {
      k := i - 1;
    } else {
      k := StampIsLastUse(ss, acts, i - 1, s);
    }
  }

  // ----- a pass of the sweeper -----

  predicate Begins(a: Action) {
    a.Sweeps? && a.sweep.Begin?
  }

  /** How one step takes a pass further: only a try takes a session off the list, and only the first one. */
  ghost predicate PassGoesOn(w: Sweep, a: Action, w': Sweep) {
    && InPass(w) && InPass(w') && w'.start == w.start
    && w'.todo == if a == Sweeps(Try) && w.todo != [] then w.todo[1..] else w.todo
  }

  lemma SweepGoesOn(st: State, w: SweepMove, n: State)
    requires st.sweep.Trying? || st.sweep.Shielding? ==> st.sweep.s in st.m.all
    requires st.sweep.Pass? ==> forall s <- st.sweep.todo :: s in st.m.all
    requires SweepingEnabled(st, w) && n == SweepingNext(st, w) && InPass(n.sweep)
    ensures if w.Begin? then st.sweep.Idle? && n.sweep.start == st.now && n.sweep.todo == w.order
            else PassGoesOn(st.sweep, Sweeps(w), n.sweep)
  {
    if w.Cancelled? { assert n.sweep == SweepCancelled(st.sweep); }
    else if w.Try? { TryGoesOn(st, n); }
    else if w.Grant? {
      SweepFoundShape(st.(m := Granted(st.m, st.sweep.s, Sweeper)), st.sweep.s, st.sweep.start, st.sweep.todo,
                      st.sweep.due, n);
    }
  }

  lemma TryGoesOn(st: State, n: State)
    requires st.sweep.Pass? && st.sweep.todo != [] && st.sweep.todo[0] in st.m.all && n == DoSweepTry(st)
    ensures InPass(n.sweep) && n.sweep.start == st.sweep.start && n.sweep.todo == st.sweep.todo[1..]
    ensures !LockFree(st.m, st.sweep.todo[0]) ==> n.sweep.Trying? && n.sweep.s == st.sweep.todo[0]
  {
    var s := st.sweep.todo[0];
    if LockFree(st.m, s) {
      SweepFoundShape(st.(m := Held(st.m, s, Sweeper)), s, st.sweep.start, st.sweep.todo[1..], st.sweep.due, n);
    }
  }

  lemma StepGoesOn(st: State, a: Action, n: State)
    requires StepsTo(st, a, n) && InPass(n.sweep)
    ensures if Begins(a) then st.sweep.Idle? && n.sweep.start == st.now && n.sweep.todo == a.sweep.order
            else PassGoesOn(st.sweep, a, n.sweep)
  {
    if a.Sweeps? { SweepGoesOn(st, a.sweep, n); } else { OthersLeave(st, a, n); }
  }

  lemma RunGoesOn(ss: seq<State>, acts: seq<Action>, i: nat)
    requires IsRun(ss, acts) && i < |acts| && InPass(ss[i + 1].sweep)
    ensures if Begins(acts[i]) then
        ss[i].sweep.Idle? && ss[i + 1].sweep.start == ss[i].now && ss[i + 1].sweep.todo == acts[i].sweep.order
      else PassGoesOn(ss[i].sweep, acts[i], ss[i + 1].sweep)
  {
    RunStep(ss, acts, i);
    StepGoesOn(ss[i], acts[i], ss[i + 1]);
  }

  /** A pass has begun, and its start is when it did. */
  lemma {:induction false} PassHasBegun(ss: seq<State>, acts: seq<Action>, i: nat) returns (b: nat)
    requires IsRun(ss, acts) && i < |ss| && InPass(ss[i].sweep)
    ensures b < i && Begins(acts[b]) && ss[i].sweep.start == ss[b].now
    ensures forall k :: b < k <= i ==> InPass(ss[k].sweep)
  {
    if i == 0 {
      assert false;
    }
    assert ss[i - 1 + 1] == ss[i];
    RunGoesOn(ss, acts, i - 1);
    if Begins(acts[i - 1]) {
      b := i - 1;
    } else {
      b := PassHasBegun(ss, acts, i - 1);
    }
  }

  /**
    Sweep soundness, over what happened. While the sweeper deletes a session, the pass began longer than the
    timeout after every step that used the session: the one that made it, and all by which a request entered.
   */
  lemma SweptWasIdle(ss: seq<State>, acts: seq<Action>, i: nat) returns (b: nat)
    requires IsRun(ss, acts) && i < |ss| && ss[i].sweep.Shielding?
    ensures b < i && Begins(acts[b]) && forall k :: b < k <= i ==> InPass(ss[k].sweep)
    ensures forall k :: 0 <= k < i && Uses(ss[k], ss[k + 1], ss[i].sweep.s) ==>
      ss[b].now - ss[k].now > ss[i].cfg.inactivity
  {
    b := PassHasBegun(ss, acts, i);
    SweepSound(ss, acts, i);
    var s := ss[i].sweep.s;
    var last := StampIsLastUse(ss, acts, i, s);
    forall k | 0 <= k < i && Uses(ss[k], ss[k + 1], s) ensures ss[b].now - ss[k].now > ss[i].cfg.inactivity {
      assert k <= last;
      RunGrows(ss, acts, k, last);
    }
  }

  // ----- and all of the list is dealt with -----

  /** From the beginning of a pass to its end, without a cancellation that stops it. */
  ghost predicate WholePass(ss: seq<State>, acts: seq<Action>, i: nat, j: nat) {
    && IsRun(ss, acts) && i < j < |acts| && Begins(acts[i]) && acts[j] == Sweeps(End)
    && (forall k :: i <= k <= j ==> !ss[k].sweep.Stopped?)
    && forall k :: i <= k < j ==> acts[k] != Sweeps(End)
  }

  ghost predicate Tries(st: State, a: Action, s: Sid) {
    a == Sweeps(Try) && st.sweep.Pass? && st.sweep.todo != [] && st.sweep.todo[0] == s
  }

  /** In a pass that is neither stopped nor at its end, the next state is in the pass too. */
  lemma StaysInPass(st: State, a: Action, n: State)
    requires StepsTo(st, a, n) && InPass(st.sweep) && a != Sweeps(End) && !n.sweep.Stopped?
    ensures InPass(n.sweep) && PassGoesOn(st.sweep, a, n.sweep)
  {
    if a.Sweeps? { SweepStaysInPass(st, a.sweep, n); } else { OthersLeave(st, a, n); }
    StepGoesOn(st, a, n);
  }

  lemma SweepStaysInPass(st: State, w: SweepMove, n: State)
    requires st.sweep.Trying? || st.sweep.Shielding? ==> st.sweep.s in st.m.all
    requires st.sweep.Pass? ==> forall s <- st.sweep.todo :: s in st.m.all
    requires SweepingEnabled(st, w) && n == SweepingNext(st, w)
    requires InPass(st.sweep) && !w.End? && !n.sweep.Stopped?
    ensures InPass(n.sweep)
  {
    if w.Cancelled? { assert n.sweep == SweepCancelled(st.sweep); }
    else if w.Try? { TryGoesOn(st, n); }
    else if w.Grant? {
      SweepFoundShape(st.(m := Granted(st.m, st.sweep.s, Sweeper)), st.sweep.s, st.sweep.start, st.sweep.todo,
                      st.sweep.due, n);
    }
  }

  lemma PassStep(ss: seq<State>, acts: seq<Action>, i: nat, j: nat, k: nat)
    requires WholePass(ss, acts, i, j) && i < k < j && InPass(ss[k].sweep)
    ensures InPass(ss[k + 1].sweep) && PassGoesOn(ss[k].sweep, acts[k], ss[k + 1].sweep)
    ensures StepsTo(ss[k], acts[k], ss[k + 1])
  {
    RunStep(ss, acts, k);
    StaysInPass(ss[k], acts[k], ss[k + 1]);
  }

  lemma PassStarts(ss: seq<State>, acts: seq<Action>, i: nat, j: nat)
    requires WholePass(ss, acts, i, j)
    ensures StepsTo(ss[i], acts[i], ss[i + 1]) && ss[i + 1].sweep == Pass(ss[i].now, acts[i].sweep.order, {})
    ensures forall s :: s in acts[i].sweep.order <==> s in ss[i].m.registered
  {
    RunStep(ss, acts, i);
  }

  /** Every session registered when a pass begins is tried before it ends. */
  lemma EveryoneIsTried(ss: seq<State>, acts: seq<Action>, i: nat, j: nat, s: Sid) returns (k: nat)
    requires WholePass(ss, acts, i, j) && s in ss[i].m.registered
    ensures i < k < j && Tries(ss[k], acts[k], s)
  {
    PassStarts(ss, acts, i, j);
    k := ListedIsTried(ss, acts, i, j, s, i + 1);
  }

  lemma {:induction false} ListedIsTried(ss: seq<State>, acts: seq<Action>, i: nat, j: nat, s: Sid, m: nat)
    returns (k: nat)
    requires WholePass(ss, acts, i, j) && i < m <= j && InPass(ss[m].sweep) && s in ss[m].sweep.todo
    ensures m <= k < j && Tries(ss[k], acts[k], s)
    decreases j - m
  {
    EndIsEmpty(ss, acts, i, j);
    PassStep(ss, acts, i, j, m);
    if s in ss[m + 1].sweep.todo {
      k := ListedIsTried(ss, acts, i, j, s, m + 1);
    } else {
      k := m;
      TryIsEnabled(ss[m], ss[m + 1]);
    }
  }

  lemma TryIsEnabled(st: State, n: State)
    requires StepsTo(st, Sweeps(Try), n)
    ensures st.sweep.Pass? && st.sweep.todo != []
  {
  }

  lemma EndIsEmpty(ss: seq<State>, acts: seq<Action>, i: nat, j: nat)
    requires WholePass(ss, acts, i, j)
    ensures ss[j].sweep.Pass? && ss[j].sweep.todo == []
  {
    RunStep(ss, acts, j);
  }

  /** With this step the sweeper obtains a lock. */
  ghost predicate Obtains(st: State, a: Action, s: Sid) {
    && s in st.m.all
    && (|| (Tries(st, a, s) && LockFree(st.m, s))
        || (a == Sweeps(SweepMove.Grant) && st.sweep.Trying? && st.sweep.s == s))
  }

  /** It does, and finds the session gone, or not idle for longer than the timeout. */
  ghost predicate Spares(st: State, a: Action, s: Sid) {
    Obtains(st, a, s) && (s !in st.m.registered || st.sweep.start - st.m.all[s].lastUsed <= st.cfg.inactivity)
  }

  /** With this step the sweeper stops waiting for a lock that others have, or are before it to get. */
  ghost predicate GivesUp(st: State, a: Action, s: Sid) {
    a == Sweeps(SweepMove.Timeout) && st.sweep.Trying? && st.sweep.s == s
  }

  lemma WaitsOn(st: State, a: Action, n: State)
    requires StepsTo(st, a, n) && st.sweep.Trying? && !n.sweep.Stopped?
    ensures n.sweep == st.sweep || a == Sweeps(SweepMove.Grant) || a == Sweeps(SweepMove.Timeout)
  {
    if !a.Sweeps? { OthersLeave(st, a, n); }
  }

  /** A try ends with the lock, or with the sweeper giving it up, before the pass is over. */
  lemma TryComesOut(ss: seq<State>, acts: seq<Action>, i: nat, j: nat, s: Sid, k: nat) returns (l: nat)
    requires WholePass(ss, acts, i, j) && i < k < j && Tries(ss[k], acts[k], s)
    ensures k <= l < j && (Obtains(ss[l], acts[l], s) || GivesUp(ss[l], acts[l], s))
    ensures l > k ==> s in ss[k].m.all && !LockFree(ss[k].m, s)
  {
    RunStep(ss, acts, k);
    if LockFree(ss[k].m, s) {
      return k;
    }
    TryGoesOn(ss[k], ss[k + 1]);
    l := WaitComesOut(ss, acts, i, j, s, k + 1);
  }

  lemma {:induction false} WaitComesOut(ss: seq<State>, acts: seq<Action>, i: nat, j: nat, s: Sid, m: nat)
    returns (l: nat)
    requires WholePass(ss, acts, i, j) && i < m <= j && ss[m].sweep.Trying? && ss[m].sweep.s == s
    ensures m <= l < j && (Obtains(ss[l], acts[l], s) || GivesUp(ss[l], acts[l], s))
    decreases j - m
  {
    EndIsEmpty(ss, acts, i, j);
    RunStep(ss, acts, m);
    if acts[m] == Sweeps(SweepMove.Grant) || acts[m] == Sweeps(SweepMove.Timeout) {
      l := m;
    } else {
      WaitsOn(ss[m], acts[m], ss[m + 1]);
      l := WaitComesOut(ss, acts, i, j, s, m + 1);
    }
  }

  /**
    What a whole pass does about a session registered at its beginning. It is unregistered at the end; or
    the sweeper found its lock taken and gave up; or it had the lock, and found the session gone already or
    used within the timeout before the pass began.
   */
  lemma PassDealsWith(ss: seq<State>, acts: seq<Action>, i: nat, j: nat, s: Sid)
    requires WholePass(ss, acts, i, j) && s in ss[i].m.registered
    ensures || s !in ss[j + 1].m.registered
            || (exists k, l :: i < k < l < j && FoundTaken(ss, acts, k, l, s))
            || exists l :: i < l < j && Spares(ss[l], acts[l], s)
  {
    var k := EveryoneIsTried(ss, acts, i, j, s);
    var l := TryComesOut(ss, acts, i, j, s, k);
    if !Obtains(ss[l], acts[l], s) {
      assert FoundTaken(ss, acts, k, l, s);
    } else if !Spares(ss[l], acts[l], s) {
      ObtainedIsGone(ss, acts, i, j, s, l);
    }
  }

  /** At step `k` the sweeper finds the lock taken, and at step `l` gives it up. */
  ghost predicate FoundTaken(ss: seq<State>, acts: seq<Action>, k: nat, l: nat, s: Sid)
    requires k < |ss| && k < |acts| && l < |ss| && l < |acts|
  {
    Tries(ss[k], acts[k], s) && s in ss[k].m.all && !LockFree(ss[k].m, s) && GivesUp(ss[l], acts[l], s)
  }

  lemma ObtainedIsGone(ss: seq<State>, acts: seq<Action>, i: nat, j: nat, s: Sid, l: nat)
    requires WholePass(ss, acts, i, j) && i < l < j && Obtains(ss[l], acts[l], s) && !Spares(ss[l], acts[l], s)
    ensures s !in ss[j + 1].m.registered
  {
    RunStep(ss, acts, l);
    SweepDeletesIdle(ss, acts, l, j, s);
  }

  // ----- a cancelled sweeper stops -----

  /** The sweeper has been cancelled: it is through, or only waits for its deletion to end. */
  predicate Stopping(w: Sweep) {
    w.Stopped? || (w.Shielding? && w.cancelled)
  }

  lemma StepStopping(st: State, a: Action, n: State)
    requires StepsTo(st, a, n) && (Stopping(st.sweep) || a == Sweeps(SweepMove.Cancelled))
    ensures Stopping(n.sweep) && (n.sweep.Shielding? ==> st.sweep.Shielding? && n.sweep.s == st.sweep.s)
  {
    if a.Sweeps? {
      if a.sweep.Cancelled? { assert n.sweep == SweepCancelled(st.sweep); }
    } else {
      OthersLeave(st, a, n);
    }
  }

  /** After a cancellation the sweeper begins nothing any more; at most the deletion it was at goes on. */
  lemma CancelledSweepStops(ss: seq<State>, acts: seq<Action>, i: nat, j: nat)
    requires IsRun(ss, acts) && i < j < |ss| && acts[i] == Sweeps(SweepMove.Cancelled)
    ensures Stopping(ss[j].sweep)
    ensures ss[j].sweep.Shielding? ==> ss[i].sweep.Shielding? && ss[j].sweep.s == ss[i].sweep.s
  {
    for k := i to j
      invariant k > i ==> Stopping(ss[k].sweep)
      invariant k > i && ss[k].sweep.Shielding? ==> ss[i].sweep.Shielding? && ss[k].sweep.s == ss[i].sweep.s
    {
      RunStep(ss, acts, k);
      StepStopping(ss[k], acts[k], ss[k + 1]);
    }
  }

  // ----- first come, first served -----

  ghost predicate Before<T(!new)>(q: seq<T>, a: T, b: T) {
    exists i, j :: 0 <= i < j < |q| && q[i] == a && q[j] == b
  }

  lemma QueueKeepsOrder<T(!new)>(q: seq<T>, r: seq<T>, a: T, b: T)
    requires WaitersMove(q, r) && NoDup(q) && Before(q, a, b) && a in r && b in r
    ensures Before(r, a, b)
  {
    if k: nat :| k < |q| && r == WithoutPlace(q, k) {
      WithoutPlaceKeepsOrder(q, k, a, b);
    } else {
      var i, j :| 0 <= i < j < |q| && q[i] == a && q[j] == b;
      assert r[i] == a && r[j] == b;
    }
  }

  lemma WithoutPlaceKeepsOrder<T(!new)>(q: seq<T>, k: nat, a: T, b: T)
    requires NoDup(q) && k < |q| && Before(q, a, b) && a in WithoutPlace(q, k) && b in WithoutPlace(q, k)
    ensures Before(WithoutPlace(q, k), a, b)
  {
    var i, j :| 0 <= i < j < |q| && q[i] == a && q[j] == b;
    LeftQueue(q, k);
    var i', j' := if k < i then i - 1 else i, if k < j then j - 1 else j;
    assert WithoutPlace(q, k)[i'] == a && WithoutPlace(q, k)[j'] == b;
  }

  lemma LeftQueue<T(!new)>(q: seq<T>, k: nat)
    requires NoDup(q) && k < |q|
    ensures q[k] !in WithoutPlace(q, k)
  {
  }

  lemma StepQueues(st: State, a: Action, n: State, s: Sid)
    requires StepsTo(st, a, n) && Locks(st) && Slots(st) && s in st.m.all
    ensures s in n.m.all && QueueMoves(st.m.all[s], n.m.all[s])
  {
    StepActs(st, a, n);
    ActsQueue(st, n, s);
  }

  lemma ActsQueue(st: State, n: State, s: Sid)
    requires Acts(st, n) && s in st.m.all
    ensures s in n.m.all && QueueMoves(st.m.all[s], n.m.all[s])
  {
  }

  lemma RunQueues(ss: seq<State>, acts: seq<Action>, i: nat, s: Sid)
    requires IsRun(ss, acts) && i < |acts| && s in ss[i].m.all
    ensures s in ss[i + 1].m.all && QueueMoves(ss[i].m.all[s], ss[i + 1].m.all[s]) && NoDup(ss[i].m.all[s].waiters)
  {
    RunInv(ss, acts, i);
    RunStep(ss, acts, i);
    StepQueues(ss[i], acts[i], ss[i + 1], s);
    assert LockInv(ss[i], s);
  }

  /** As long as both wait for a lock, whoever came first stays first, and the other does not get it. */
  lemma FirstComeFirstServed(ss: seq<State>, acts: seq<Action>, i: nat, j: nat, s: Sid, a: Agent, b: Agent)
    requires IsRun(ss, acts) && i <= j < |ss| && s in ss[i].m.all && Before(ss[i].m.all[s].waiters, a, b)
    requires forall k :: i <= k <= j ==> s in ss[k].m.all ==> a in ss[k].m.all[s].waiters && b in ss[k].m.all[s].waiters
    ensures s in ss[j].m.all && Before(ss[j].m.all[s].waiters, a, b)
    ensures j + 1 < |ss| && s in ss[j + 1].m.all && ss[j + 1].m.all[s].holder == Some(b) ==>
      ss[j].m.all[s].holder == Some(b)
  {
    for k := i to j
      invariant s in ss[k].m.all && Before(ss[k].m.all[s].waiters, a, b)
    {
      RunQueues(ss, acts, k, s);
      QueueKeepsOrder(ss[k].m.all[s].waiters, ss[k + 1].m.all[s].waiters, a, b);
    }
    if j + 1 < |ss| {
      RunQueues(ss, acts, j, s);
      assert forall q: seq<Agent> :: NoDup(q) && Before(q, a, b) ==> q[0] != b;
    }
  }

  lemma RunSlots(ss: seq<State>, acts: seq<Action>, i: nat)
    requires IsRun(ss, acts) && i < |acts|
    ensures WaitersMove(ss[i].m.slotWaiters, ss[i + 1].m.slotWaiters) && NoDup(ss[i].m.slotWaiters)
  {
    RunInv(ss, acts, i);
    RunStep(ss, acts, i);
    SlotQueueMoves(ss[i], acts[i], ss[i + 1]);
  }

  /** The same of execution slots: with one before it in the queue, a request gets none. */
  lemma SlotsFirstComeFirstServed(ss: seq<State>, acts: seq<Action>, i: nat, j: nat, a: Tid, b: Tid)
    requires IsRun(ss, acts) && i <= j < |ss| && Before(ss[i].m.slotWaiters, a, b)
    requires forall k :: i <= k <= j ==> a in ss[k].m.slotWaiters && b in ss[k].m.slotWaiters
    ensures Before(ss[j].m.slotWaiters, a, b)
    ensures j + 1 < |ss| && b in ss[j + 1].tasks ==> !ss[j + 1].tasks[b].pc.Run?
  {
    for k := i to j
      invariant Before(ss[k].m.slotWaiters, a, b)
    {
      RunSlots(ss, acts, k);
      QueueKeepsOrder(ss[k].m.slotWaiters, ss[k + 1].m.slotWaiters, a, b);
    }
    if j + 1 < |ss| && b in ss[j + 1].tasks && ss[j + 1].tasks[b].pc.Run? {
      NotFirst(ss, acts, j, a, b);
    }
  }

  lemma NotFirst(ss: seq<State>, acts: seq<Action>, j: nat, a: Tid, b: Tid)
    requires IsRun(ss, acts) && j < |acts| && Before(ss[j].m.slotWaiters, a, b)
    ensures b in ss[j + 1].tasks ==> !ss[j + 1].tasks[b].pc.Run?
  {
    RunInv(ss, acts, j);
    RunStep(ss, acts, j);
    assert b in ss[j].m.slotWaiters;
    if b in ss[j + 1].tasks && ss[j + 1].tasks[b].pc.Run? {
      SlotsInTurn(ss[j], acts[j], ss[j + 1], b);
      assert false;
    }
  }

  // ----- marks -----

  lemma RunMarks(ss: seq<State>, acts: seq<Action>, i: nat, t: Tid)
    requires IsRun(ss, acts) && i < |acts| && t in ss[i + 1].tasks && ss[i + 1].tasks[t].cancelled
    ensures acts[i] == Cancel(t) || (t in ss[i].tasks && ss[i].tasks[t].cancelled)
  {
    RunInv(ss, acts, i);
    RunStep(ss, acts, i);
    OnlyCancelMarks(ss[i], acts[i], ss[i + 1], t);
  }

  lemma StartsUnmarked(ss: seq<State>, acts: seq<Action>)
    requires IsRun(ss, acts)
    ensures ss[0].tasks == map[]
  {
  }

  /** A task marked as cancelled has been cancelled. */
  lemma {:induction false} MarkedWasCancelled(ss: seq<State>, acts: seq<Action>, i: nat, t: Tid) returns (k: nat)
    requires IsRun(ss, acts) && i < |ss| && t in ss[i].tasks && ss[i].tasks[t].cancelled
    ensures k < i && acts[k] == Cancel(t)
  {
    StartsUnmarked(ss, acts);
    k := i - 1;
    assert ss[k + 1] == ss[i];
    RunMarks(ss, acts, k, t);
    if acts[k] != Cancel(t) {
      k := MarkedWasCancelled(ss, acts, k, t);
    }
  }
}
