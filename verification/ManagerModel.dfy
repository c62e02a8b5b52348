/**
  The session manager's state as a value, and the effect on it of every await-free block of
  `SessionManager`. `SessionManager.dfy` holds the imperative form, proved to have these effects;
  `Protocol.dfy` interleaves them.
 */
module ManagerModel {
  import opened Common

  /** A session is named by its id: ids are fresh, so an id and the object made for it coincide. */
  type Sid = nat

  /** A request task. */
  type Tid = nat

  /** Whoever can hold or queue for a session lock. */
  datatype Agent = Request(t: Tid) | Sweeper

  datatype Session = Session(projectId: Option<int>, lastUsed: int, holder: Option<Agent>, waiters: seq<Agent>)

  /**
    `all` keeps every session object ever made, because a task queued on a lock still holds the
    object after it was popped from the registry. `held` and `owner` account for project ids: the
    ids withheld for good, and the registered session each handed-out id belongs to.
   */
  datatype Manager = Manager(
    registered: set<Sid>,
    all: map<Sid, Session>,
    freeIds: seq<int>,
    nextId: int,
    slots: int,
    slotWaiters: seq<Tid>,
    held: set<int>,
    owner: map<int, Sid>)

  const PROJECT_ID_BASE: int := 1000
  const PROJECT_ID_MAX: int := 0x7fff_ffff

  function Fresh(slots: nat): Manager {
    Manager({}, map[], [], PROJECT_ID_BASE, slots, [], {}, map[])
  }

  // ----- project ids -----

  predicate CanAllocate(m: Manager) {
    m.freeIds != [] || m.nextId <= PROJECT_ID_MAX
  }

  /** The id `_allocate_project_id` hands out: the most recently freed one, else a new one. */
  function NextProjectId(m: Manager): int {
    if m.freeIds != [] then m.freeIds[|m.freeIds| - 1] else m.nextId
  }

  function Allocated(m: Manager, s: Sid): Manager {
    var m' := m.(owner := m.owner[NextProjectId(m) := s]);
    if m.freeIds != [] then m'.(freeIds := m.freeIds[..|m.freeIds| - 1])
    else m'.(nextId := m.nextId + 1)
  }

  function ReleaseProjectId(m: Manager, p: Option<int>): Manager {
    if p.None? then m
    else m.(freeIds := m.freeIds + [p.value], owner := m.owner - {p.value})
  }

  function HoldProjectId(m: Manager, p: Option<int>): Manager {
    if p.None? then m
    else m.(held := m.held + {p.value}, owner := m.owner - {p.value})
  }

  // ----- registry -----

  function Created(m: Manager, s: Sid, quota: bool, now: int): Manager {
    var p := if quota then Some(NextProjectId(m)) else None;
    var m1 := if quota then Allocated(m, s) else m;
    m1.(registered := m1.registered + {s}, all := m1.all[s := Session(p, now, None, [])])
  }

  /** The failure path of `create`: the id is free again before the directory is removed. */
  function CreateUndone(m: Manager, s: Sid): Manager
    requires s in m.all
  {
    ReleaseProjectId(m, m.all[s].projectId).(registered := m.registered - {s})
  }

  /** The tail of `_delete`: the id is reusable only if the tree is known to be gone. */
  function Retired(m: Manager, s: Sid, removed: bool): Manager
    requires s in m.all
  {
    var p := m.all[s].projectId;
    (if removed then ReleaseProjectId(m, p) else HoldProjectId(m, p)).(registered := m.registered - {s})
  }

  // ----- session locks -----

  predicate LockFree(m: Manager, s: Sid)
    requires s in m.all
  {
    m.all[s].holder.None? && m.all[s].waiters == []
  }

  /** The lock is free and `a` is the waiter whose turn it is. */
  predicate CanGrant(m: Manager, s: Sid, a: Agent)
    requires s in m.all
  {
    m.all[s].holder.None? && m.all[s].waiters != [] && m.all[s].waiters[0] == a
  }

  function Held(m: Manager, s: Sid, a: Agent): Manager
    requires s in m.all
  {
    m.(all := m.all[s := m.all[s].(holder := Some(a))])
  }

  function Queued(m: Manager, s: Sid, a: Agent): Manager
    requires s in m.all
  {
    m.(all := m.all[s := m.all[s].(waiters := m.all[s].waiters + [a])])
  }

  function Granted(m: Manager, s: Sid, a: Agent): Manager
    requires s in m.all && m.all[s].waiters != []
  {
    m.(all := m.all[s := m.all[s].(holder := Some(a), waiters := m.all[s].waiters[1..])])
  }

  /** `a` stops waiting, by timeout or cancellation. */
  function Unqueued(m: Manager, s: Sid, a: Agent): Manager
    requires s in m.all
  {
    m.(all := m.all[s := m.all[s].(waiters := Without(m.all[s].waiters, a))])
  }

  function Released(m: Manager, s: Sid): Manager
    requires s in m.all
  {
    m.(all := m.all[s := m.all[s].(holder := None)])
  }

  function Touched(m: Manager, s: Sid, now: int): Manager
    requires s in m.all
  {
    m.(all := m.all[s := m.all[s].(lastUsed := now)])
  }

  // ----- execution slots -----

  predicate SlotFree(m: Manager) {
    m.slots > 0 && m.slotWaiters == []
  }

  function SlotTaken(m: Manager): Manager {
    m.(slots := m.slots - 1)
  }

  function SlotQueued(m: Manager, t: Tid): Manager {
    m.(slotWaiters := m.slotWaiters + [t])
  }

  function SlotGranted(m: Manager): Manager
    requires m.slotWaiters != []
  {
    m.(slots := m.slots - 1, slotWaiters := m.slotWaiters[1..])
  }

  function SlotUnqueued(m: Manager, t: Tid): Manager {
    m.(slotWaiters := Without(m.slotWaiters, t))
  }

  function SlotReleased(m: Manager): Manager {
    m.(slots := m.slots + 1)
  }

  // ----- what every block keeps -----

  /**
    Conservation of project ids: the ids handed out so far are the disjoint, duplicate-free union
    of those owned by registered sessions, those on the free list and those held back.
   */
  ghost predicate IdsConserved(m: Manager) {
    && PROJECT_ID_BASE <= m.nextId <= PROJECT_ID_MAX + 1
    && NoDup(m.freeIds)
    && (forall i <- m.freeIds :: PROJECT_ID_BASE <= i < m.nextId && i !in m.held && i !in m.owner)
    && (forall i <- m.held :: PROJECT_ID_BASE <= i < m.nextId && i !in m.owner)
    && (forall i <- m.owner :: PROJECT_ID_BASE <= i < m.nextId)
    && (forall i :: PROJECT_ID_BASE <= i < m.nextId ==> i in m.freeIds || i in m.held || i in m.owner)
    && m.registered <= m.all.Keys
    && (forall i <- m.owner :: m.owner[i] in m.registered && m.all[m.owner[i]].projectId == Some(i))
    && (forall s <- m.registered :: m.all[s].projectId.Some? ==>
          m.all[s].projectId.value in m.owner && m.owner[m.all[s].projectId.value] == s)
  }

  /** Two registered sessions never share a project id. */
  lemma ProjectIdsUnshared(m: Manager, s1: Sid, s2: Sid)
    requires IdsConserved(m)
    requires s1 in m.registered && s2 in m.registered && s1 != s2
    ensures m.all[s1].projectId.Some? ==> m.all[s1].projectId != m.all[s2].projectId
  {
    if m.all[s1].projectId.Some? && m.all[s2].projectId.Some? {
      assert m.owner[m.all[s1].projectId.value] == s1;
      assert m.owner[m.all[s2].projectId.value] == s2;
    }
  }

  lemma CreatedConserves(m: Manager, s: Sid, quota: bool, now: int)
    requires IdsConserved(m) && s !in m.all
    requires quota ==> CanAllocate(m)
    ensures IdsConserved(Created(m, s, quota, now))
    ensures quota ==> NextProjectId(m) !in m.held && NextProjectId(m) !in m.owner
    ensures var p := Created(m, s, quota, now).all[s].projectId;
      (p.Some? <==> quota) && (p.Some? ==> p.value !in m.held && p.value !in m.owner)
  {
    NoDupQueue(m.freeIds, 0);
    var m' := Created(m, s, quota, now);
    forall i <- m'.freeIds
      ensures PROJECT_ID_BASE <= i < m'.nextId && i !in m'.held && i !in m'.owner
    {
      assert i in m.freeIds;
    }
    forall r <- m'.registered | m'.all[r].projectId.Some?
      ensures m'.all[r].projectId.value in m'.owner && m'.owner[m'.all[r].projectId.value] == r
    {
      if r != s { assert r in m.registered; }
    }
  }

  lemma ReleasedConserves(m: Manager, s: Sid)
    requires IdsConserved(m) && s in m.registered
    ensures IdsConserved(CreateUndone(m, s))
    ensures IdsConserved(Retired(m, s, true)) && Retired(m, s, true) == CreateUndone(m, s)
    ensures IdsConserved(Retired(m, s, false))
  {
    if m.all[s].projectId.Some? {
      var p := m.all[s].projectId.value;
      assert m.owner[p] == s;
      NoDupQueue(m.freeIds, p);
      forall r <- m.registered | r != s && m.all[r].projectId.Some?
        ensures m.all[r].projectId.value != p
      {
        ProjectIdsUnshared(m, r, s);
      }
    }
  }

  /** Nothing but locks, times and slots of existing sessions changed. */
  ghost predicate SameIds(m: Manager, m': Manager) {
    && m'.registered == m.registered && m'.freeIds == m.freeIds && m'.nextId == m.nextId
    && m'.held == m.held && m'.owner == m.owner && m'.all.Keys == m.all.Keys
    && forall s <- m.all :: m'.all[s].projectId == m.all[s].projectId
  }

  lemma SameIdsConserve(m: Manager, m': Manager)
    requires IdsConserved(m) && SameIds(m, m')
    ensures IdsConserved(m')
  {
  }
}
