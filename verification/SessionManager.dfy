/**
  `SessionManager` and `Session` in the form the service has them: objects whose fields the
  await-free blocks assign. Every block is proved to have the effect `ManagerModel` gives it, which
  is the effect `Protocol` interleaves. Suspension points are where one method ends and another
  begins; the event loop decides which is called next.
 */
module SessionManager {
  import opened Common
  import M = ManagerModel

  type Sid = M.Sid
  type Tid = M.Tid
  type Agent = M.Agent

  class Session {
    const id: Sid
    const projectId: Option<int>
    var lastUsed: int
    var holder: Option<Agent>     // asyncio.Lock: who has it
    var waiters: seq<Agent>       // asyncio.Lock: who queues for it, first come first served

    ghost function Value(): M.Session
      reads this
    {
      M.Session(projectId, lastUsed, holder, waiters)
    }

    constructor (id: Sid, projectId: Option<int>, now: int)
      ensures this.id == id && Value() == M.Session(projectId, now, None, [])
    {
      this.id, this.projectId, lastUsed := id, projectId, now;
      holder, waiters := None, [];
    }
  }

  /** How a call of `create` comes out before its first await. */
  datatype Reservation = Reserved(session: Session) | LimitReached | IdsExhausted

  /** How a call of `locked` comes out before its first await. */
  datatype LockCall = NotFound | Acquired(session: Session) | MustWait(session: Session)

  class SessionManager {
    const maxSessions: nat
    const quota: bool
    const inactivity: int
    var sessions: map<Sid, Session>
    var freeProjectIds: seq<int>
    var nextProjectId: int
    var slots: int                // asyncio.Semaphore: slots left
    var slotWaiters: seq<Tid>     // asyncio.Semaphore: who queues for one
    ghost var all: map<Sid, Session>
    ghost var held: set<int>
    ghost var owner: map<int, Sid>

    /** The limit and the project ids are as they should be, and every object is filed. */
    ghost predicate Valid()
      reads this, all.Values
    {
      Filed() && M.IdsConserved(Model()) && |Model().registered| <= maxSessions
    }

    /** Every object is filed under its own id, and a registered one is the one ever made for it. */
    ghost predicate Filed()
      reads this, all.Values
    {
      && (forall s <- all :: all[s].id == s)
      && (forall s <- sessions :: s in all && sessions[s] == all[s])
    }

    ghost function Model(): M.Manager
      reads this, all.Values
    {
      M.Manager(sessions.Keys, map s | s in all :: all[s].Value(), freeProjectIds, nextProjectId,
                slots, slotWaiters, held, owner)
    }

    ghost predicate Knows(session: Session)
      reads this
    {
      session.id in all && all[session.id] == session
    }

    constructor (maxSessions: nat, maxSlots: nat, inactivity: int, quota: bool)
      ensures Valid() && Model() == M.Fresh(maxSlots)
      ensures this.maxSessions == maxSessions && this.quota == quota && this.inactivity == inactivity
      ensures sessions == map[] && freeProjectIds == [] && nextProjectId == 1000
      ensures slots == maxSlots && slotWaiters == []
    {
      this.maxSessions, this.quota, this.inactivity := maxSessions, quota, inactivity;
      sessions, freeProjectIds, nextProjectId := map[], [], M.PROJECT_ID_BASE;
      slots, slotWaiters := maxSlots, [];
      all, held, owner := map[], {}, map[];
    }

    // ----- project ids -----

    method AllocateProjectId(ghost s: Sid) returns (r: Option<int>)
      requires Filed()
      modifies this`freeProjectIds, this`nextProjectId, this`owner
      ensures Filed()
      ensures r.Some? <==> M.CanAllocate(old(Model()))
      ensures r.Some? ==> r.value == M.NextProjectId(old(Model())) && Model() == M.Allocated(old(Model()), s)
      ensures r.None? ==> Model() == old(Model())
      ensures old(freeProjectIds) != [] ==>
        && r == Some(old(freeProjectIds)[|old(freeProjectIds)| - 1])
        && freeProjectIds == old(freeProjectIds)[..|old(freeProjectIds)| - 1] && nextProjectId == old(nextProjectId)
      ensures old(freeProjectIds) == [] ==>
        if old(nextProjectId) > 0x7fff_ffff then r == None
        else r == Some(old(nextProjectId)) && nextProjectId == old(nextProjectId) + 1
    {
      if freeProjectIds != [] {
        r := Some(freeProjectIds[|freeProjectIds| - 1]);
        freeProjectIds := freeProjectIds[..|freeProjectIds| - 1];
      } else if nextProjectId > M.PROJECT_ID_MAX {
        return None;
      } else {
        r := Some(nextProjectId);
        nextProjectId := nextProjectId + 1;
      }
      owner := owner[r.value := s];
    }

    method ReleaseProjectId(p: Option<int>)
      requires Filed()
      modifies this`freeProjectIds, this`owner
      ensures Filed() && Model() == M.ReleaseProjectId(old(Model()), p)
      ensures freeProjectIds == if p.Some? then old(freeProjectIds) + [p.value] else old(freeProjectIds)
    {
      if p.Some? {
        freeProjectIds := freeProjectIds + [p.value];
        owner := owner - {p.value};
      }
    }

    // ----- create and delete -----

    method Create(id: Sid, now: int) returns (r: Reservation)
      requires Valid() && id !in all
      modifies this
      ensures Valid()
      ensures r.LimitReached? <==> old(|sessions|) >= maxSessions
      ensures r.IdsExhausted? <==> old(|sessions|) < maxSessions && quota && !M.CanAllocate(old(Model()))
      ensures if r.Reserved? then fresh(r.session) && r.session.id == id && Knows(r.session)
                                  && Model() == M.Created(old(Model()), id, quota, now)
              else Model() == old(Model())
      ensures r.Reserved? ==>
        && sessions == old(sessions)[id := r.session] && r.session.lastUsed == now
        && r.session.holder == None && r.session.waiters == [] && (r.session.projectId.Some? <==> quota)
      ensures !r.Reserved? ==> sessions == old(sessions)
    {
      if |sessions| >= maxSessions {
        return LimitReached;
      }
      var p: Option<int> := None;
      if quota {
        p := AllocateProjectId(id);
        if p.None? {
          return IdsExhausted;
        }
      }
      M.CreatedConserves(old(Model()), id, quota, now);
      var session := Register(id, p, now);
      r := Reserved(session);
    }

    /** The last lines of `create` before its first await: from here on the session counts. */
    method Register(id: Sid, p: Option<int>, now: int) returns (session: Session)
      requires Filed() && id !in all
      modifies this`sessions, this`all
      ensures Filed() && fresh(session) && session.id == id && Knows(session)
      ensures Model() == old(Model()).(registered := old(Model()).registered + {id},
                                       all := old(Model()).all[id := M.Session(p, now, None, [])])
      ensures sessions == old(sessions)[id := session] && session.projectId == p && session.lastUsed == now
    {
      session := new Session(id, p, now);
      sessions := sessions[id := session];
      all := all[id := session];
    }

    /** The `except` of `create`, up to the removal of the directory. */
    method CreateFailed(session: Session)
      requires Valid() && Knows(session) && session.id in sessions
      modifies this
      ensures Valid() && Model() == M.CreateUndone(old(Model()), session.id)
      ensures sessions == old(sessions) - {session.id}
      ensures freeProjectIds ==
        if session.projectId.Some? then old(freeProjectIds) + [session.projectId.value] else old(freeProjectIds)
    {
      M.ReleasedConserves(Model(), session.id);
      PopAndRelease(session);
    }

    method PopAndRelease(session: Session)
      requires Filed() && Knows(session)
      modifies this
      ensures Filed() && Model() == M.CreateUndone(old(Model()), session.id)
      ensures sessions == old(sessions) - {session.id}
      ensures freeProjectIds ==
        if session.projectId.Some? then old(freeProjectIds) + [session.projectId.value] else old(freeProjectIds)
    {
      sessions := sessions - {session.id};
      ReleaseProjectId(session.projectId);
    }

    /**
      `_delete` from the moment the worker thread is heard of, or the wait for it cancelled. Whoever deletes
      a session holds its lock, and it is registered (`ProtocolSafety.NoUseAfterRetirement` and `SweepSound`).
     */
    method RemovalOver(session: Session, removed: bool)
      requires Valid() && Knows(session) && session.id in sessions
      modifies this
      ensures Valid() && Model() == M.Retired(old(Model()), session.id, removed)
      ensures sessions == old(sessions) - {session.id}
      ensures freeProjectIds ==
        if removed && session.projectId.Some? then old(freeProjectIds) + [session.projectId.value]
        else old(freeProjectIds)
    {
      M.ReleasedConserves(Model(), session.id);
      Retire(session, removed);
    }

    method Retire(session: Session, removed: bool)
      requires Filed() && Knows(session)
      modifies this
      ensures Filed() && Model() == M.Retired(old(Model()), session.id, removed)
      ensures sessions == old(sessions) - {session.id}
      ensures freeProjectIds ==
        if removed && session.projectId.Some? then old(freeProjectIds) + [session.projectId.value]
        else old(freeProjectIds)
    {
      if removed {
        ReleaseProjectId(session.projectId);
      } else if session.projectId.Some? {
        held := held + {session.projectId.value};
        owner := owner - {session.projectId.value};
      }
      sessions := sessions - {session.id};
    }

    // ----- locked -----

    /** What a block makes of the model if it assigns to nothing but the lock and the stamp of one session. */
    twostate lemma OnlyLock(session: Session)
      requires old(Valid()) && unchanged(this) && Knows(session)
      requires forall s <- all :: s != session.id ==> unchanged(all[s])
      ensures Valid() && Model() == old(Model()).(all := old(Model()).all[session.id := session.Value()])
    {
      assert Model() == old(Model()).(all := old(Model()).all[session.id := session.Value()]);
      M.SameIdsConserve(old(Model()), Model());
    }

    /** `self.get` and `session.lock.acquire()` up to where it suspends. */
    method CallLocked(id: Sid, a: Agent) returns (r: LockCall)
      requires Valid()
      modifies if id in sessions then {sessions[id]} else {}
      ensures Valid()
      ensures r.NotFound? <==> id !in old(Model()).registered
      ensures r.NotFound? ==> Model() == old(Model())
      ensures !r.NotFound? ==> Knows(r.session) && r.session.id == id && id in old(Model()).all
      ensures !r.NotFound? ==> (r.Acquired? <==> M.LockFree(old(Model()), id))
      ensures !r.NotFound? ==>
        Model() == if r.Acquired? then M.Held(old(Model()), id, a) else M.Queued(old(Model()), id, a)
      ensures r.Acquired? ==> r.session.holder == Some(a) && r.session.waiters == []
      ensures r.MustWait? ==>
        && r.session.holder == old(r.session.holder) && r.session.waiters == old(r.session.waiters) + [a]
        && (old(r.session.holder).Some? || old(r.session.waiters) != [])
    {
      if id !in sessions {
        return NotFound;
      }
      var session := sessions[id];
      if session.holder.None? && session.waiters == [] {
        session.holder := Some(a);
        r := Acquired(session);
      } else {
        session.waiters := session.waiters + [a];
        r := MustWait(session);
      }
      OnlyLock(session);
    }

    /** `acquire()` resumes: the lock was released and `a` is first in its queue. */
    method Granted(session: Session, a: Agent)
      requires Valid() && Knows(session) && session.holder.None? && session.waiters != [] && session.waiters[0] == a
      modifies session
      ensures Valid() && Model() == M.Granted(old(Model()), session.id, a)
      ensures session.holder == Some(a) && session.waiters == old(session.waiters)[1..]
    {
      session.holder := Some(a);
      session.waiters := session.waiters[1..];
      OnlyLock(session);
    }

    /** The second look at the registry: by identity, since the id alone would not tell. */
    method Recheck(session: Session, now: int) returns (ok: bool)
      requires Valid() && Knows(session)
      modifies session
      ensures Valid() && (ok <==> session.id in old(Model()).registered)
      ensures Model() == if ok then M.Touched(old(Model()), session.id, now) else M.Released(old(Model()), session.id)
      ensures if ok then session.lastUsed == now && session.holder == old(session.holder)
              else session.lastUsed == old(session.lastUsed) && session.holder == None
    {
      ok := session.id in sessions && sessions[session.id] == session;
      if ok {
        session.lastUsed := now;
      } else {
        session.holder := None;
      }
      OnlyLock(session);
    }

    method Release(session: Session)
      requires Valid() && Knows(session)
      modifies session
      ensures Valid() && Model() == M.Released(old(Model()), session.id)
      ensures session.holder == None && session.waiters == old(session.waiters)
    {
      session.holder := None;
      OnlyLock(session);
    }

    /** The wait for the lock timed out or was cancelled. */
    method StopWaiting(session: Session, a: Agent)
      requires Valid() && Knows(session)
      modifies session
      ensures Valid() && Model() == M.Unqueued(old(Model()), session.id, a)
      ensures session.holder == old(session.holder) && a !in session.waiters
    {
      session.waiters := Without(session.waiters, a);
      OnlyLock(session);
    }

    /** What the sweeper does once it has a lock: nothing, and let go, or delete the session. */
    method SweepCheck(session: Session, start: int) returns (due: bool)
      requires Valid() && Knows(session)
      modifies session
      ensures Valid()
      ensures due <==> session.id in old(Model()).registered && start - old(session.lastUsed) > inactivity
      ensures Model() == if due then old(Model()) else M.Released(old(Model()), session.id)
      ensures session.holder == if due then old(session.holder) else None
    {
      due := session.id in sessions && sessions[session.id] == session && start - session.lastUsed > inactivity;
      if !due {
        session.holder := None;
      }
      OnlyLock(session);
    }

    // ----- execution slots -----

    twostate lemma OnlySlots()
      requires old(Valid()) && sessions == old(sessions) && all == old(all) && owner == old(owner) && held == old(held)
      requires freeProjectIds == old(freeProjectIds) && nextProjectId == old(nextProjectId)
      requires forall s <- all :: unchanged(all[s])
      ensures Valid() && Model() == old(Model()).(slots := slots, slotWaiters := slotWaiters)
    {
      assert Model() == old(Model()).(slots := slots, slotWaiters := slotWaiters);
      M.SameIdsConserve(old(Model()), Model());
    }

    method CallSlot(t: Tid) returns (taken: bool)
      requires Valid()
      modifies this`slots, this`slotWaiters
      ensures Valid() && (taken <==> M.SlotFree(old(Model())))
      ensures Model() == if taken then M.SlotTaken(old(Model())) else M.SlotQueued(old(Model()), t)
      ensures if old(slots) > 0 && old(slotWaiters) == [] then taken && slots == old(slots) - 1 && slotWaiters == []
              else !taken && slots == old(slots) && slotWaiters == old(slotWaiters) + [t]
    {
      taken := slots > 0 && slotWaiters == [];
      if taken {
        slots := slots - 1;
      } else {
        slotWaiters := slotWaiters + [t];
      }
      OnlySlots();
    }

    method SlotGranted()
      requires Valid() && slots > 0 && slotWaiters != []
      modifies this`slots, this`slotWaiters
      ensures Valid() && Model() == M.SlotGranted(old(Model()))
      ensures slots == old(slots) - 1 && slotWaiters == old(slotWaiters)[1..]
    {
      slots := slots - 1;
      slotWaiters := slotWaiters[1..];
      OnlySlots();
    }

    method SlotTimedOut(t: Tid)
      requires Valid()
      modifies this`slotWaiters
      ensures Valid() && Model() == M.SlotUnqueued(old(Model()), t)
      ensures slots == old(slots) && t !in slotWaiters
    {
      slotWaiters := Without(slotWaiters, t);
      OnlySlots();
    }

    method ReleaseSlot()
      requires Valid()
      modifies this`slots
      ensures Valid() && Model() == M.SlotReleased(old(Model()))
      ensures slots == old(slots) + 1 && slotWaiters == old(slotWaiters)
    {
      slots := slots + 1;
      OnlySlots();
    }
  }
}
