/**
 The connection registry of backend/api/websocket_manager.py. Every section that holds the lock
 is one step. A socket is named by a string and two sockets are the same when their names are.
 */
module Registry {
  import opened Options

  /** A connection id is a uuid, hence a number. */
  type Id = nat

  const MAX_PER_USER := 5
  const MAX_TOTAL := 500
  const PING_LIMIT := 40

  datatype Conn = Conn(socket: string, userId: string, connectedAt: int, lastPingOk: int, topics: set<string>)

  /** A user without connections may have an empty set of ids or none at all. */
  datatype Manager = Manager(conns: map<Id, Conn>, byUser: map<string, set<Id>>)

  const EMPTY := Manager(map[], map[])

  function IdsOf(m: Manager, userId: string): set<Id> {
    if userId in m.byUser then m.byUser[userId] else {}
  }

  /** Both indexes tell the same story and the caps hold. */
  ghost predicate Consistent(m: Manager) {
    && (forall u, id :: id in IdsOf(m, u) <==> id in m.conns && m.conns[id].userId == u)
    && (forall u :: |IdsOf(m, u)| <= MAX_PER_USER)
    && |m.conns| <= MAX_TOTAL
  }

  // ---------------------------------------------------------------- operations

  /** `_evict`: an unknown id is ignored, and a user's last connection takes the user's set with it. */
  function Evict(m: Manager, id: Id): Manager {
    if id !in m.conns then m
    else
      var u := m.conns[id].userId;
      var rest := IdsOf(m, u) - {id};
      Manager(m.conns - {id}, if rest == {} then m.byUser - {u} else m.byUser[u := rest])
  }

  /** A connection of the user that no other connection of the user is older than. */
  predicate IsOldest(m: Manager, userId: string, id: Id) {
    && id in IdsOf(m, userId) && id in m.conns
    && forall other | other in IdsOf(m, userId) && other in m.conns ::
         m.conns[id].connectedAt <= m.conns[other].connectedAt
  }

  /** One connection attempt, with the id drawn for it and the clock. */
  datatype Attempt = Attempt(socket: string, userId: string, topics: set<string>, now: int, id: Id)

  function NewConn(a: Attempt): Conn {
    Conn(a.socket, a.userId, a.now, a.now, a.topics)
  }

  /** The outcome of connecting when `victim` is the connection that makes room at the cap. */
  function ConnectEvicting(m: Manager, a: Attempt, victim: Option<Id>): (Manager, Option<Id>) {
    var looked := if a.userId in m.byUser then m else m.(byUser := m.byUser[a.userId := {}]);
    Admit(if victim.Some? then Evict(looked, victim.value) else looked, NewConn(a), a.id)
  }

  /** The victim that connecting needs: none below the cap, an oldest connection at it. */
  predicate RightVictim(m: Manager, userId: string, victim: Option<Id>) {
    if |IdsOf(m, userId)| >= MAX_PER_USER then victim.Some? && IsOldest(m, userId, victim.value) else victim.None?
  }

  // ---------------------------------------------------------------- consistency

  /** Consistency at one user and one id. */
  lemma Member(m: Manager, u: string, id: Id)
    requires Consistent(m)
    ensures id in IdsOf(m, u) <==> id in m.conns && m.conns[id].userId == u
    ensures |IdsOf(m, u)| <= MAX_PER_USER && |m.conns| <= MAX_TOTAL
  {
  }

  lemma EvictMember(m: Manager, id: Id, u: string, i: Id)
    requires Consistent(m) && id in m.conns
    ensures var r := Evict(m, id);
            && IdsOf(r, u) == IdsOf(m, u) - {id}
            && (i in IdsOf(r, u) <==> i in r.conns && r.conns[i].userId == u)
            && |IdsOf(r, u)| <= MAX_PER_USER
  {
    Member(m, u, i);
    Member(m, u, id);
    hide Consistent;
    var r, owner := Evict(m, id), m.conns[id].userId;
    assert u != owner ==> IdsOf(r, u) == IdsOf(m, u);
    assert IdsOf(r, owner) == IdsOf(m, owner) - {id};
  }

  lemma ConsistentIf(m: Manager)
    requires forall u, id :: Agrees(m, u, id)
    requires |m.conns| <= MAX_TOTAL
    ensures Consistent(m)
  {
    forall u, id
      ensures (id in IdsOf(m, u) <==> id in m.conns && m.conns[id].userId == u) && |IdsOf(m, u)| <= MAX_PER_USER
    {
      assert Agrees(m, u, id);
    }
    forall u
      ensures |IdsOf(m, u)| <= MAX_PER_USER
    {
      assert Agrees(m, u, 0);
    }
  }

  predicate Agrees(m: Manager, u: string, id: Id) {
    (id in IdsOf(m, u) <==> id in m.conns && m.conns[id].userId == u) && |IdsOf(m, u)| <= MAX_PER_USER
  }

  lemma EvictConsistent(m: Manager, id: Id)
    requires Consistent(m)
    ensures Consistent(Evict(m, id)) && Evict(m, id).conns == m.conns - {id}
    ensures id in m.conns ==> |Evict(m, id).conns| == |m.conns| - 1
  {
    hide Consistent, IdsOf;
    if id in m.conns {
      var r := Evict(m, id);
      assert r.conns.Keys == m.conns.Keys - {id};
      Member(m, m.conns[id].userId, id);
      hide Evict;
      forall u, i
        ensures Agrees(r, u, i)
      {
        EvictMember(m, id, u, i);
      }
      ConsistentIf(r);
    }
  }

  lemma LookupConsistent(m: Manager, userId: string)
    requires Consistent(m) && userId !in m.byUser
    ensures Consistent(m.(byUser := m.byUser[userId := {}]))
    ensures IdsOf(m.(byUser := m.byUser[userId := {}]), userId) == IdsOf(m, userId)
  {
    var r := m.(byUser := m.byUser[userId := {}]);
    assert forall u :: IdsOf(r, u) == IdsOf(m, u);
    hide IdsOf;
  }

  /** The last part of connecting, once there is room for the user. */
  function Admit(room: Manager, c: Conn, id: Id): (Manager, Option<Id>) {
    if |room.conns| >= MAX_TOTAL then (room, None)
    else (Manager(room.conns[id := c], room.byUser[c.userId := IdsOf(room, c.userId) + {id}]), Some(id))
  }

  lemma AdmitConsistent(room: Manager, c: Conn, id: Id)
    requires Consistent(room) && id !in room.conns && |IdsOf(room, c.userId)| < MAX_PER_USER
    ensures var (r, accepted) := Admit(room, c, id);
            && Consistent(r)
            && (accepted.None? <==> |room.conns| == MAX_TOTAL)
            && (accepted.None? ==> r == room)
            && (accepted.Some? ==> accepted == Some(id) && r.conns == room.conns[id := c])
  {
    if |room.conns| < MAX_TOTAL {
      AddConsistent(room, c, id, Admit(room, c, id).0);
    }
  }

  lemma AddMember(room: Manager, c: Conn, id: Id, r: Manager, u: string, i: Id)
    requires Consistent(room) && id !in room.conns && |IdsOf(room, c.userId)| < MAX_PER_USER
    requires r == Manager(room.conns[id := c], room.byUser[c.userId := IdsOf(room, c.userId) + {id}])
    ensures i in IdsOf(r, u) <==> i in r.conns && r.conns[i].userId == u
    ensures |IdsOf(r, u)| <= MAX_PER_USER
  {
    Member(room, u, i);
    Member(room, u, id);
    hide Consistent;
  }

  lemma AddConsistent(room: Manager, c: Conn, id: Id, r: Manager)
    requires Consistent(room) && id !in room.conns && |IdsOf(room, c.userId)| < MAX_PER_USER && |room.conns| < MAX_TOTAL
    requires r == Manager(room.conns[id := c], room.byUser[c.userId := IdsOf(room, c.userId) + {id}])
    ensures Consistent(r)
  {
    hide Consistent, IdsOf;
    assert r.conns.Keys == room.conns.Keys + {id};
    forall u, i
      ensures Agrees(r, u, i)
    {
      AddMember(room, c, id, r, u, i);
    }
    ConsistentIf(r);
  }

  /**
   Connecting keeps the registry consistent. Below the cap the only refusal is a full registry,
   and nothing is lost.
   */
  lemma ConnectBelowCap(m: Manager, a: Attempt)
    requires Consistent(m) && a.id !in m.conns && |IdsOf(m, a.userId)| < MAX_PER_USER
    ensures var (r, accepted) := ConnectEvicting(m, a, None);
            && Consistent(r)
            && (accepted.None? <==> |m.conns| == MAX_TOTAL)
            && (accepted.None? ==> r.conns == m.conns)
            && (accepted.Some? ==> r.conns == m.conns[a.id := NewConn(a)])
  {
    if a.userId !in m.byUser {
      LookupConsistent(m, a.userId);
    }
    hide Consistent, IdsOf;
    AdmitConsistent(if a.userId in m.byUser then m else m.(byUser := m.byUser[a.userId := {}]), NewConn(a), a.id);
  }

  /** At the cap the user is always accepted, at the price of an oldest connection of the same user. */
  lemma ConnectAtCap(m: Manager, a: Attempt, victim: Id)
    requires Consistent(m) && a.id !in m.conns && |IdsOf(m, a.userId)| >= MAX_PER_USER && IsOldest(m, a.userId, victim)
    ensures var (r, accepted) := ConnectEvicting(m, a, Some(victim));
            Consistent(r) && accepted == Some(a.id) && r.conns == (m.conns - {victim})[a.id := NewConn(a)]
  {
    EvictConsistent(m, victim);
    EvictMember(m, victim, a.userId, victim);
    Member(m, a.userId, victim);
    hide Consistent, Evict;
    AdmitConsistent(Evict(m, victim), NewConn(a), a.id);
  }

  // ---------------------------------------------------------------- who survives

  /** Connecting, for any choice of an oldest connection at the cap. */
  ghost function Connect(m: Manager, a: Attempt): (Manager, Option<Id>)
    requires Consistent(m)
  {
    ConnectEvicting(m, a, Victim(m, a.userId))
  }

  ghost function Victim(m: Manager, userId: string): (v: Option<Id>)
    requires Consistent(m)
    ensures RightVictim(m, userId, v)
  {
    if |IdsOf(m, userId)| >= MAX_PER_USER then
      UserHasOldest(m, userId);
      var id :| IsOldest(m, userId, id);
      Some(id)
    else None
  }

  lemma UserHasOldest(m: Manager, userId: string)
    requires Consistent(m) && IdsOf(m, userId) != {}
    ensures exists id :: IsOldest(m, userId, id)
  {
    OldestExists(m, IdsOf(m, userId));
    var id :| id in IdsOf(m, userId)
              && forall other | other in IdsOf(m, userId) :: m.conns[id].connectedAt <= m.conns[other].connectedAt;
    assert IsOldest(m, userId, id);
  }

  lemma {:induction false} OldestExists(m: Manager, ids: set<Id>)
    requires ids != {} && forall id | id in ids :: id in m.conns
    ensures exists id :: id in ids
                         && forall other | other in ids :: m.conns[id].connectedAt <= m.conns[other].connectedAt
    decreases |ids|
  {
    var x :| x in ids;
    if ids == {x} {
      assert forall other | other in ids :: m.conns[x].connectedAt <= m.conns[other].connectedAt;
    } else {
      OldestExists(m, ids - {x});
      var y :| y in ids - {x}
               && forall other | other in ids - {x} :: m.conns[y].connectedAt <= m.conns[other].connectedAt;
      var z := if m.conns[x].connectedAt <= m.conns[y].connectedAt then x else y;
      assert forall other | other in ids :: m.conns[z].connectedAt <= m.conns[other].connectedAt;
    }
  }

  /** The ids a user keeps out of all those ever accepted: the latest five. */
  function Latest(accepted: seq<Id>): seq<Id> {
    if |accepted| <= MAX_PER_USER then accepted else accepted[|accepted| - MAX_PER_USER..]
  }

  /** The user's connections are the latest accepted ones, in the order of their connection times. */
  ghost predicate KeepsLatest(m: Manager, u: string, accepted: seq<Id>, clock: int) {
    var kept := Latest(accepted);
    && (forall id :: id in IdsOf(m, u) <==> id in kept)
    && (forall i | 0 <= i < |kept| :: kept[i] in m.conns && m.conns[kept[i]].connectedAt <= clock)
    && (forall i, j | 0 <= i < j < |kept| :: m.conns[kept[i]].connectedAt < m.conns[kept[j]].connectedAt)
  }

  lemma {:induction false} SetSize(ids: seq<Id>, held: set<Id>)
    requires forall i, j | 0 <= i < j < |ids| :: ids[i] != ids[j]
    requires forall id :: id in held <==> id in ids
    ensures |held| == |ids|
  {
    if ids != [] {
      var n := |ids| - 1;
      assert ids == ids[..n] + [ids[n]];
      SetSize(ids[..n], held - {ids[n]});
    } else {
      assert held == {};
    }
  }

  lemma KeptSize(m: Manager, u: string, accepted: seq<Id>, clock: int)
    requires KeepsLatest(m, u, accepted, clock)
    ensures |IdsOf(m, u)| == |Latest(accepted)|
  {
    var kept := Latest(accepted);
    forall i, j | 0 <= i < j < |kept|
      ensures kept[i] != kept[j]
    {
      assert m.conns[kept[i]].connectedAt < m.conns[kept[j]].connectedAt;
    }
    SetSize(kept, IdsOf(m, u));
  }

  lemma ConnectChanges(m: Manager, a: Attempt, victim: Option<Id>)
    requires Consistent(m) && a.id !in m.conns && RightVictim(m, a.userId, victim)
    ensures var (r, accepted) := ConnectEvicting(m, a, victim);
            var room := if victim.Some? then m.conns - {victim.value} else m.conns;
            Consistent(r) && r.conns == if accepted.Some? then room[a.id := NewConn(a)] else m.conns
  {
    if victim.Some? {
      ConnectAtCap(m, a, victim.value);
    } else {
      ConnectBelowCap(m, a);
    }
  }

  lemma VictimOf(m: Manager, a: Attempt)
    requires Consistent(m) && a.id !in m.conns
    ensures var (r, id) := Connect(m, a);
            var victim := Victim(m, a.userId);
            && Consistent(r) && (victim.Some? <==> |IdsOf(m, a.userId)| >= MAX_PER_USER)
            && (victim.Some? ==> IsOldest(m, a.userId, victim.value) && id.Some?)
            && r.conns == if id.None? then m.conns
                          else (m.conns - if victim.Some? then {victim.value} else {})[a.id := NewConn(a)]
  {
    var victim := Victim(m, a.userId);
    ConnectChanges(m, a, victim);
    if victim.Some? {
      ConnectAtCap(m, a, victim.value);
    }
    hide Consistent, ConnectEvicting, Evict, IsOldest;
  }

  /** An attempt of somebody else leaves a user's connections alone. */
  lemma OthersKeep(m: Manager, a: Attempt, u: string, accepted: seq<Id>, clock: int)
    requires Consistent(m) && a.id !in m.conns && a.userId != u && clock < a.now && KeepsLatest(m, u, accepted, clock)
    ensures Consistent(Connect(m, a).0) && KeepsLatest(Connect(m, a).0, u, accepted, a.now)
  {
    hide Consistent, Latest;
    VictimOf(m, a);
    var victim := Victim(m, a.userId);
    var r := Connect(m, a).0;
    hide Connect, Victim;
    forall id
      ensures id in IdsOf(r, u) <==> id in IdsOf(m, u)
      ensures id in IdsOf(m, u) ==> id in m.conns && id in r.conns && r.conns[id] == m.conns[id]
    {
      Member(r, u, id);
      Member(m, u, id);
      if victim.Some? {
        Member(m, a.userId, victim.value);
      }
    }
    SameConnectionsKeep(m, r, u, accepted, clock, a.now);
  }

  lemma SameConnectionsKeep(m: Manager, r: Manager, u: string, accepted: seq<Id>, clock: int, now: int)
    requires KeepsLatest(m, u, accepted, clock) && clock < now
    requires forall id :: id in IdsOf(r, u) <==> id in IdsOf(m, u)
    requires forall id | id in IdsOf(m, u) :: id in m.conns && id in r.conns && r.conns[id] == m.conns[id]
    ensures KeepsLatest(r, u, accepted, now)
  {
    hide Latest, IdsOf;
    var kept := Latest(accepted);
    forall i | 0 <= i < |kept|
      ensures kept[i] in r.conns && r.conns[kept[i]] == m.conns[kept[i]]
    {
      assert kept[i] in IdsOf(m, u);
    }
  }

  /** An accepted attempt adds itself and, at the cap, costs exactly the earliest survivor. */
  lemma OwnerKeeps(m: Manager, a: Attempt, accepted: seq<Id>, clock: int)
    requires Consistent(m) && a.id !in m.conns && clock < a.now && KeepsLatest(m, a.userId, accepted, clock)
    ensures var (r, id) := Connect(m, a);
            Consistent(r) && KeepsLatest(r, a.userId, if id.Some? then accepted + [a.id] else accepted, a.now)
  {
    hide Consistent, KeepsLatest, IdsOf, Latest;
    var u := a.userId;
    VictimOf(m, a);
    var victim := Victim(m, u);
    var (r, id) := Connect(m, a);
    hide Connect, Victim;
    KeptSize(m, u, accepted, clock);
    forall x
      ensures x in IdsOf(m, u) <==> x in m.conns && m.conns[x].userId == u
      ensures x in IdsOf(r, u) <==> x in r.conns && r.conns[x].userId == u
    {
      Member(r, u, x);
      Member(m, u, x);
    }
    if id.None? {
      SameConnectionsKeep(m, r, u, accepted, clock, a.now);
    } else {
      AppendKeeps(m, r, a, accepted, clock, victim);
    }
  }

  lemma AppendKeeps(m: Manager, r: Manager, a: Attempt, accepted: seq<Id>, clock: int, victim: Option<Id>)
    requires KeepsLatest(m, a.userId, accepted, clock) && clock < a.now && a.id !in m.conns
    requires victim.Some? <==> |Latest(accepted)| >= MAX_PER_USER
    requires victim.Some? ==> IsOldest(m, a.userId, victim.value)
    requires r.conns == (m.conns - if victim.Some? then {victim.value} else {})[a.id := NewConn(a)]
    requires forall x :: x in IdsOf(m, a.userId) <==> x in m.conns && m.conns[x].userId == a.userId
    requires forall x :: x in IdsOf(r, a.userId) <==> x in r.conns && r.conns[x].userId == a.userId
    ensures KeepsLatest(r, a.userId, accepted + [a.id], a.now)
  {
    var kept := Latest(accepted);
    var rest := if victim.Some? then kept[1..] else kept;
    assert Latest(accepted + [a.id]) == rest + [a.id];
    if victim.Some? {
      EarliestIsVictim(m, a.userId, accepted, clock, victim.value);
    }
    KeepsHolds(m, a.userId, accepted, clock);
    hide KeepsLatest, IsOldest, IdsOf, Latest;
    forall x
      ensures x in rest <==> x in IdsOf(m, a.userId) && (victim.Some? ==> x != victim.value)
      ensures x in rest ==> x in r.conns && x in m.conns && r.conns[x] == m.conns[x]
      ensures x in IdsOf(r, a.userId) <==> x == a.id || x in rest
    {
    }
    AppendRest(m, r, a, accepted, clock, rest);
  }

  lemma AppendRest(m: Manager, r: Manager, a: Attempt, accepted: seq<Id>, clock: int, rest: seq<Id>)
    requires KeepsLatest(m, a.userId, accepted, clock) && clock < a.now && a.id !in m.conns
    requires Latest(accepted + [a.id]) == rest + [a.id]
    requires rest == Latest(accepted) || (Latest(accepted) != [] && rest == Latest(accepted)[1..])
    requires forall x | x in rest :: x in r.conns && x in m.conns && r.conns[x] == m.conns[x]
    requires a.id in r.conns && r.conns[a.id] == NewConn(a)
    requires forall x :: x in IdsOf(r, a.userId) <==> x == a.id || x in rest
    ensures KeepsLatest(r, a.userId, accepted + [a.id], a.now)
  {
    hide IdsOf, Latest;
  }

  lemma EarliestIsVictim(m: Manager, u: string, accepted: seq<Id>, clock: int, victim: Id)
    requires KeepsLatest(m, u, accepted, clock) && IsOldest(m, u, victim)
    ensures Latest(accepted) != [] && victim == Latest(accepted)[0]
    ensures forall x :: x in Latest(accepted)[1..] <==> x in Latest(accepted) && x != victim
  {
    var kept := Latest(accepted);
    var i :| 0 <= i < |kept| && kept[i] == victim;
    if i > 0 {
      assert m.conns[kept[0]].connectedAt < m.conns[kept[i]].connectedAt;
      assert kept[0] in IdsOf(m, u);
    }
    assert kept == [kept[0]] + kept[1..];
    forall j | 0 < j < |kept|
      ensures kept[j] != kept[0]
    {
      assert m.conns[kept[0]].connectedAt < m.conns[kept[j]].connectedAt;
    }
  }

  /** With strictly increasing times there is one oldest connection, so every way of connecting is the same. */
  lemma ConnectDetermined(m: Manager, a: Attempt, accepted: seq<Id>, clock: int, victim: Option<Id>)
    requires Consistent(m) && KeepsLatest(m, a.userId, accepted, clock) && RightVictim(m, a.userId, victim)
    ensures Connect(m, a) == ConnectEvicting(m, a, victim)
  {
    hide Consistent, KeepsLatest, IsOldest, ConnectEvicting;
    var chosen := Victim(m, a.userId);
    if victim.Some? {
      EarliestIsVictim(m, a.userId, accepted, clock, victim.value);
      EarliestIsVictim(m, a.userId, accepted, clock, chosen.value);
    }
  }

  lemma OrderlyStep(m: Manager, a: Attempt)
    requires Consistent(m) && a.id !in m.conns
    ensures Consistent(Connect(m, a).0)
  {
    VictimOf(m, a);
  }

  /** A run of connection attempts only, with strictly increasing clock and fresh ids. */
  ghost predicate Orderly(m: Manager, attempts: seq<Attempt>, clock: int)
    requires Consistent(m)
    decreases |attempts|
  {
    attempts == []
    || (attempts[0].id !in m.conns && clock < attempts[0].now
        && (OrderlyStep(m, attempts[0]); Orderly(Connect(m, attempts[0]).0, attempts[1..], attempts[0].now)))
  }

  ghost function ConnectAll(m: Manager, attempts: seq<Attempt>, clock: int): Manager
    requires Consistent(m) && Orderly(m, attempts, clock)
    decreases |attempts|
  {
    if attempts == [] then m
    else
      OrderlyStep(m, attempts[0]);
      ConnectAll(Connect(m, attempts[0]).0, attempts[1..], attempts[0].now)
  }

  /** The ids accepted for a user, in order. */
  ghost function Accepted(m: Manager, attempts: seq<Attempt>, clock: int, u: string): seq<Id>
    requires Consistent(m) && Orderly(m, attempts, clock)
    decreases |attempts|
  {
    if attempts == [] then []
    else
      OrderlyStep(m, attempts[0]);
      var (r, id) := Connect(m, attempts[0]);
      (if attempts[0].userId == u && id.Some? then [attempts[0].id] else [])
      + Accepted(r, attempts[1..], attempts[0].now, u)
  }

  /** The user's connections are exactly the latest accepted ones. */
  ghost predicate HoldsLatest(m: Manager, u: string, accepted: seq<Id>) {
    forall id :: id in IdsOf(m, u) <==> id in Latest(accepted)
  }

  lemma AttemptKeeps(m: Manager, a: Attempt, u: string, accepted: seq<Id>, clock: int)
    requires Consistent(m) && a.id !in m.conns && clock < a.now && KeepsLatest(m, u, accepted, clock)
    ensures var (r, id) := Connect(m, a);
            Consistent(r)
            && KeepsLatest(r, u, accepted + (if a.userId == u && id.Some? then [a.id] else []), a.now)
  {
    hide Consistent, KeepsLatest, Connect;
    assert accepted + [] == accepted;
    if a.userId == u {
      OwnerKeeps(m, a, accepted, clock);
    } else {
      OthersKeep(m, a, u, accepted, clock);
    }
  }

  lemma KeepsHolds(m: Manager, u: string, accepted: seq<Id>, clock: int)
    requires KeepsLatest(m, u, accepted, clock)
    ensures HoldsLatest(m, u, accepted)
  {
    hide IdsOf, Latest;
  }

  /**
   With strictly increasing connection times and nothing but connections, a user's connections
   are always exactly that user's latest five accepted ones, whatever the others do.
   */
  lemma {:induction false} LatestFiveSurvive(m: Manager, attempts: seq<Attempt>, clock: int, u: string, before: seq<Id>)
    requires Consistent(m) && Orderly(m, attempts, clock) && KeepsLatest(m, u, before, clock)
    ensures Consistent(ConnectAll(m, attempts, clock))
    ensures HoldsLatest(ConnectAll(m, attempts, clock), u, before + Accepted(m, attempts, clock, u))
    decreases |attempts|
  {
    hide KeepsLatest, Consistent, Connect, HoldsLatest, Latest, IdsOf;
    if attempts == [] {
      assert before + Accepted(m, attempts, clock, u) == before;
      KeepsHolds(m, u, before, clock);
    } else {
      var a, others := attempts[0], attempts[1..];
      OrderlyStep(m, a);
      var (r, id) := Connect(m, a);
      var mine := if a.userId == u && id.Some? then [a.id] else [];
      var later := Accepted(r, others, a.now, u);
      assert Accepted(m, attempts, clock, u) == mine + later;
      assert ConnectAll(m, attempts, clock) == ConnectAll(r, others, a.now);
      hide Orderly, ConnectAll, Accepted;
      AttemptKeeps(m, a, u, before, clock);
      LatestFiveSurvive(r, others, a.now, u, before + mine);
      assert before + mine + later == before + (mine + later);
    }
  }

  /** In particular from an empty registry. */
  lemma LatestFiveFromEmpty(attempts: seq<Attempt>, clock: int, u: string)
    requires Consistent(EMPTY) && Orderly(EMPTY, attempts, clock)
    ensures Consistent(ConnectAll(EMPTY, attempts, clock))
    ensures var accepted := Accepted(EMPTY, attempts, clock, u);
            forall id :: id in IdsOf(ConnectAll(EMPTY, attempts, clock), u)
                         <==> id in (if |accepted| <= 5 then accepted else accepted[|accepted| - 5..])
  {
    hide Orderly, ConnectAll, Accepted, Consistent;
    assert KeepsLatest(EMPTY, u, [], clock);
    LatestFiveSurvive(EMPTY, attempts, clock, u, []);
    assert [] + Accepted(EMPTY, attempts, clock, u) == Accepted(EMPTY, attempts, clock, u);
  }

  // ---------------------------------------------------------------- ping rounds

  /** The connections whose last good ping is too long ago. */
  function Stale(conns: map<Id, Conn>, now: int): set<Id> {
    set id | id in conns && now - conns[id].lastPingOk > PING_LIMIT
  }

  /** The registry without these connections, and without the users who lose their last one. */
  function Remaining(m: Manager, ids: set<Id>): Manager {
    Manager(m.conns - ids,
            map u | u in m.byUser && (m.byUser[u] == {} || m.byUser[u] - ids != {}) :: m.byUser[u] - ids)
  }

  /** Evicting one more connection from what remains. */
  lemma RemainingStep(m: Manager, done: set<Id>, id: Id)
    requires Consistent(m) && id in m.conns && id !in done
    ensures Evict(Remaining(m, done), id) == Remaining(m, done + {id})
  {
    var u := m.conns[id].userId;
    Member(m, u, id);
    forall other | other in m.byUser && other != u
      ensures id !in m.byUser[other]
    {
      Member(m, other, id);
    }
    hide Consistent;
    var r, all := Remaining(m, done), Remaining(m, done + {id});
    assert u in m.byUser && id in m.byUser[u] - done && IdsOf(r, u) == m.byUser[u] - done;
    forall other | other in m.byUser
      ensures m.byUser[other] - (done + {id})
              == if other == u then m.byUser[other] - done - {id} else m.byUser[other] - done
    {
    }
    MinusTwice(m.conns, done, id);
    assert Evict(r, id).byUser == all.byUser;
  }

  lemma RemainingAll(m: Manager)
    ensures Remaining(m, {}) == m
  {
    assert m.conns - {} == m.conns;
    assert forall u | u in m.byUser :: m.byUser[u] - {} == m.byUser[u];
  }

  lemma RemainingConsistent(m: Manager, ids: set<Id>)
    requires Consistent(m) && ids <= m.conns.Keys
    ensures Consistent(Remaining(m, ids))
  {
    var r := Remaining(m, ids);
    assert r.conns.Keys == m.conns.Keys - ids;
    Member(m, "", 0);
    hide Consistent;
    forall u, i
      ensures Agrees(r, u, i)
    {
      Member(m, u, i);
      assert IdsOf(r, u) == IdsOf(m, u) - ids;
    }
    ConsistentIf(r);
  }

  // ---------------------------------------------------------------- any run of locked sections

  /**
   What one locked section does. A disconnect is an eviction of the connection it finds, if any; a
   round stands for the sections of a ping round that nothing interrupts.
   */
  datatype Op =
    | DoConnect(a: Attempt, victim: Option<Id>)
    | DoEvict(id: Id)
    | DoPong(id: Id, at: int)
    | DoRound(now: int)

  function Pong(m: Manager, id: Id, at: int): Manager {
    if id in m.conns then m.(conns := m.conns[id := m.conns[id].(lastPingOk := at)]) else m
  }

  function Step(m: Manager, op: Op): Manager {
    match op
    case DoConnect(a, victim) => ConnectEvicting(m, a, victim).0
    case DoEvict(id) => Evict(m, id)
    case DoPong(id, at) => Pong(m, id, at)
    case DoRound(now) => Remaining(m, Stale(m.conns, now))
  }

  /** A connection draws a fresh id and makes room as the code does. */
  predicate Allowed(m: Manager, op: Op) {
    op.DoConnect? ==> op.a.id !in m.conns && RightVictim(m, op.a.userId, op.victim)
  }

  predicate AllowedRun(m: Manager, ops: seq<Op>)
    decreases |ops|
  {
    ops == [] || (Allowed(m, ops[0]) && AllowedRun(Step(m, ops[0]), ops[1..]))
  }

  function Run(m: Manager, ops: seq<Op>): Manager
    decreases |ops|
  {
    if ops == [] then m else Run(Step(m, ops[0]), ops[1..])
  }

  lemma PongConsistent(m: Manager, id: Id, at: int)
    requires Consistent(m)
    ensures Consistent(Pong(m, id, at)) && Pong(m, id, at).conns.Keys == m.conns.Keys
  {
    var r := Pong(m, id, at);
    assert r.conns.Keys == m.conns.Keys;
    hide Consistent;
    forall u, i
      ensures Agrees(r, u, i)
    {
      Member(m, u, i);
    }
    ConsistentIf(r);
  }

  /** What one locked section can do to the connections, and that it keeps the registry consistent. */
  lemma StepConsistent(m: Manager, op: Op)
    requires Consistent(m) && Allowed(m, op)
    ensures Consistent(Step(m, op))
    ensures forall id | id in Step(m, op).conns && id !in m.conns :: op.DoConnect? && id == op.a.id
    ensures forall id | id in m.conns && id !in Step(m, op).conns ::
              || (op.DoEvict? && id == op.id)
              || (op.DoConnect? && op.victim == Some(id))
              || (op.DoRound? && op.now - m.conns[id].lastPingOk > 40)
    ensures forall id | id in m.conns && op.DoRound? && op.now - m.conns[id].lastPingOk > 40 :: id !in Step(m, op).conns
    ensures forall id | id in m.conns && id in Step(m, op).conns ::
              Step(m, op).conns[id] == if op == DoPong(id, Step(m, op).conns[id].lastPingOk)
                                       then m.conns[id].(lastPingOk := op.at) else m.conns[id]
  {
    hide Consistent, ConnectEvicting, RightVictim, Evict;
    match op
    case DoConnect(a, victim) => ConnectChanges(m, a, victim);
    case DoEvict(id) => EvictConsistent(m, id);
    case DoPong(id, at) => PongConsistent(m, id, at);
    case DoRound(now) => RemainingConsistent(m, Stale(m.conns, now));
  }

  /** The same but for the time of the last good ping. */
  predicate SameConnection(a: Conn, b: Conn) {
    b == a.(lastPingOk := b.lastPingOk)
  }

  /** Over every run of locked sections in any order the two indexes agree and the caps hold. */
  lemma {:induction false} RunConsistent(m: Manager, ops: seq<Op>)
    requires Consistent(m) && AllowedRun(m, ops)
    ensures Consistent(Run(m, ops))
    decreases |ops|
  {
    if ops != [] {
      StepConsistent(m, ops[0]);
      hide Consistent, Step;
      RunConsistent(Step(m, ops[0]), ops[1..]);
    }
  }

  lemma ConsistentFromEmpty(ops: seq<Op>)
    requires AllowedRun(EMPTY, ops)
    ensures var r := Run(EMPTY, ops);
            && (forall u, id :: id in IdsOf(r, u) <==> id in r.conns && r.conns[id].userId == u)
            && (forall u :: |IdsOf(r, u)| <= 5) && |r.conns| <= 500
  {
    assert Consistent(EMPTY);
    RunConsistent(EMPTY, ops);
  }

  /** No connection of the run draws this id. */
  predicate NotDrawn(ops: seq<Op>, id: Id) {
    forall i | 0 <= i < |ops| :: ops[i].DoConnect? ==> ops[i].a.id != id
  }

  lemma {:induction false} GoneStaysGone(m: Manager, ops: seq<Op>, id: Id)
    requires Consistent(m) && AllowedRun(m, ops) && NotDrawn(ops, id) && id !in m.conns
    ensures id !in Run(m, ops).conns
    decreases |ops|
  {
    if ops != [] {
      StepConsistent(m, ops[0]);
      hide Consistent, Step;
      GoneStaysGone(Step(m, ops[0]), ops[1..], id);
    }
  }

  /**
   A ping round with anything between its evictions: once each stale connection has been evicted
   in a section of its own, none of them is left, since ids are not drawn again.
   */
  lemma {:induction false} RoundClears(m: Manager, ops: seq<Op>, id: Id)
    requires Consistent(m) && AllowedRun(m, ops) && NotDrawn(ops, id) && DoEvict(id) in ops
    ensures id !in Run(m, ops).conns
    decreases |ops|
  {
    StepConsistent(m, ops[0]);
    if ops[0] == DoEvict(id) {
      assert id !in Step(m, ops[0]).conns;
      hide Consistent, Step;
      GoneStaysGone(Step(m, ops[0]), ops[1..], id);
    } else {
      hide Consistent, Step;
      RoundClears(Step(m, ops[0]), ops[1..], id);
    }
  }

  /**
   A connection that nobody evicts by name or to make room outlives every ping round up to 40 after
   a time since which all its pings are good, and keeps all but its ping time.
   */
  lemma {:induction false} NotEvictedStays(m: Manager, ops: seq<Op>, id: Id, since: int)
    requires Consistent(m) && AllowedRun(m, ops) && id in m.conns && since <= m.conns[id].lastPingOk
    requires LeftAlone(ops, id, since)
    requires forall i | 0 <= i < |ops| :: ops[i].DoRound? ==> ops[i].now <= since + 40
    ensures id in Run(m, ops).conns && SameConnection(m.conns[id], Run(m, ops).conns[id])
    decreases |ops|
  {
    if ops != [] {
      StepConsistent(m, ops[0]);
      hide Consistent, Step;
      NotEvictedStays(Step(m, ops[0]), ops[1..], id, since);
    }
  }

  /** Nobody evicts the connection by name or to make room, and its pongs come at `since` or later. */
  predicate LeftAlone(ops: seq<Op>, id: Id, since: int) {
    forall i | 0 <= i < |ops| ::
      && ops[i] != DoEvict(id)
      && (ops[i].DoConnect? ==> ops[i].victim != Some(id))
      && (ops[i].DoPong? && ops[i].id == id ==> since <= ops[i].at)
  }

  predicate NoPong(ops: seq<Op>, id: Id) {
    forall i | 0 <= i < |ops| :: ops[i].DoPong? ==> ops[i].id != id
  }

  /** A connection without a further pong does not outlive a round more than 40 after its last one. */
  lemma {:induction false} SilentGoes(m: Manager, ops: seq<Op>, id: Id, last: int, i: nat)
    requires Consistent(m) && AllowedRun(m, ops) && id in m.conns && m.conns[id].lastPingOk == last
    requires NoPong(ops, id) && NotDrawn(ops, id) && i < |ops| && ops[i].DoRound? && ops[i].now > last + 40
    ensures id !in Run(m, ops).conns
    decreases |ops|
  {
    StepConsistent(m, ops[0]);
    assert ops[0].DoPong? ==> ops[0].id != id;
    var r := Step(m, ops[0]);
    hide Consistent, Step;
    if id in r.conns {
      SilentGoes(r, ops[1..], id, last, i - 1);
    } else {
      GoneStaysGone(r, ops[1..], id);
    }
  }

  /** The section accepts the connection at `t` or notes its pong at `t`. */
  predicate Heard(m: Manager, op: Op, id: Id, t: int) {
    || (op.DoConnect? && op.a.now == t && ConnectEvicting(m, op.a, op.victim).1 == Some(id))
    || (op == DoPong(id, t) && id in m.conns)
  }

  lemma HeardIsNoted(m: Manager, op: Op, id: Id, t: int)
    requires Consistent(m) && Allowed(m, op) && Heard(m, op, id, t)
    ensures Consistent(Step(m, op)) && id in Step(m, op).conns && Step(m, op).conns[id].lastPingOk == t
    ensures op.DoConnect? ==> Step(m, op).conns[id] == Conn(op.a.socket, op.a.userId, t, t, op.a.topics)
  {
    StepConsistent(m, op);
    if op.DoConnect? {
      ConnectChanges(m, op.a, op.victim);
      AcceptedId(m, op.a, op.victim);
    }
    hide Consistent, ConnectEvicting;
  }

  lemma AcceptedId(m: Manager, a: Attempt, victim: Option<Id>)
    ensures ConnectEvicting(m, a, victim).1 in {None, Some(a.id)}
  {
    hide Evict;
  }

  /**
   A connection accepted or ponged at `t` outlives every ping round up to t + 40; without a later
   pong it outlives none after that.
   */
  lemma FortySeconds(m: Manager, op: Op, ops: seq<Op>, id: Id, t: int)
    requires Consistent(m) && Allowed(m, op) && AllowedRun(Step(m, op), ops) && Heard(m, op, id, t)
    ensures LeftAlone(ops, id, t) && (forall i | 0 <= i < |ops| :: ops[i].DoRound? ==> ops[i].now <= t + 40) ==>
              id in Run(Step(m, op), ops).conns
    ensures NoPong(ops, id) && NotDrawn(ops, id)
            && (exists i :: 0 <= i < |ops| && ops[i].DoRound? && ops[i].now > t + 40) ==>
              id !in Run(Step(m, op), ops).conns
  {
    HeardIsNoted(m, op, id, t);
    var r := Step(m, op);
    hide Consistent, Step, Heard, Allowed;
    if LeftAlone(ops, id, t) && (forall i | 0 <= i < |ops| :: ops[i].DoRound? ==> ops[i].now <= t + 40) {
      NotEvictedStays(r, ops, id, t);
    }
    if NoPong(ops, id) && NotDrawn(ops, id) && exists i :: 0 <= i < |ops| && ops[i].DoRound? && ops[i].now > t + 40 {
      var i :| 0 <= i < |ops| && ops[i].DoRound? && ops[i].now > t + 40;
      SilentGoes(r, ops, id, t, i);
    }
  }

  // ---------------------------------------------------------------- the manager itself

  class WebSocketManager {
    var conns: map<Id, Conn>
    var byUser: map<string, set<Id>>

    ghost function Value(): Manager
      reads this
    {
      Manager(conns, byUser)
    }

    ghost predicate Valid()
      reads this
    {
      Consistent(Value())
    }

    constructor ()
      ensures Valid() && Value() == EMPTY
    {
      conns, byUser := map[], map[];
    }

    method EvictConn(id: Id)
      modifies this
      ensures Value() == Evict(old(Value()), id)
    {
      if id !in conns {
        return;
      }
      var u := conns[id].userId;
      conns := conns - {id};
      var rest := (if u in byUser then byUser[u] else {}) - {id};
      byUser := byUser[u := rest];
      if rest == {} {
        byUser := byUser - {u};
      }
    }

    /** `a.id` is the uuid drawn for the connection. */
    method ConnectSocket(a: Attempt) returns (id: Option<Id>)
      requires Valid() && a.id !in conns
      modifies this
      ensures Valid()
      ensures exists victim :: RightVictim(old(Value()), a.userId, victim)
                && (Value(), id) == ConnectEvicting(old(Value()), a, victim)
      ensures |IdsOf(old(Value()), a.userId)| >= 5 ==> id == Some(a.id)
      ensures id.None? <==> |IdsOf(old(Value()), a.userId)| < 5 && |old(conns)| == 500
      ensures id.Some? ==>
                id.value in conns && conns[id.value] == Conn(a.socket, a.userId, a.now, a.now, a.topics)
    {
      ghost var before := Value();
      var ids := if a.userId in byUser then byUser[a.userId] else {};
      if a.userId !in byUser {
        byUser := byUser[a.userId := {}];
      }
      ghost var victim: Option<Id> := None;
      if |ids| >= MAX_PER_USER {
        UserHasOldest(before, a.userId);
        var oldest :| oldest in ids && IsOldest(Manager(conns, byUser), a.userId, oldest);
        victim := Some(oldest);
        ConnectAtCap(before, a, oldest);
        EvictConn(oldest);
      } else {
        ConnectBelowCap(before, a);
      }
      hide Evict, Consistent, IsOldest;
      assert RightVictim(before, a.userId, victim);
      if |conns| >= MAX_TOTAL {
        assert (Value(), None) == ConnectEvicting(before, a, victim);
        return None;
      }
      conns := conns[a.id := Conn(a.socket, a.userId, a.now, a.now, a.topics)];
      byUser := byUser[a.userId := (if a.userId in byUser then byUser[a.userId] else {}) + {a.id}];
      assert (Value(), Some(a.id)) == ConnectEvicting(before, a, victim);
      return Some(a.id);
    }

    /** Removes one connection of the socket, if it has any. */
    method Disconnect(socket: string)
      requires Valid()
      modifies this
      ensures Valid()
      ensures if exists id :: id in old(conns) && old(conns)[id].socket == socket
              then exists id :: id in old(conns) && old(conns)[id].socket == socket
                                && Value() == Evict(old(Value()), id)
              else Value() == old(Value())
    {
      if id :| id in conns && conns[id].socket == socket {
        EvictConsistent(Value(), id);
        EvictConn(id);
      }
    }

    method HandleBroken(id: Id)
      requires Valid()
      modifies this
      ensures Valid() && Value() == Evict(old(Value()), id)
    {
      EvictConsistent(Value(), id);
      EvictConn(id);
    }

    /** The section that notes a pong. */
    method NotePong(id: Id, at: int)
      requires Valid()
      modifies this
      ensures Valid() && Value() == Pong(old(Value()), id, at)
    {
      PongConsistent(Value(), id, at);
      if id in conns {
        conns := conns[id := conns[id].(lastPingOk := at)];
      }
    }

    /**
     The eviction part of a round of the ping loop that nothing interrupts: exactly the stale
     connections go. Each eviction is a locked section of its own; RoundClears and NotEvictedStays
     say what holds when other sections come in between.
     */
    method EvictStale(now: int)
      requires Valid()
      modifies this
      ensures Valid()
      ensures Value() == Remaining(old(Value()), Stale(old(conns), now))
      ensures forall id | id in old(conns) :: id in conns <==> now - old(conns)[id].lastPingOk <= 40
      ensures forall id | id in conns :: id in old(conns) && conns[id] == old(conns)[id]
    {
      hide Evict, Consistent, Remaining;
      ghost var before := Value();
      var stale := Stale(conns, now);
      var todo := stale;
      RemainingAll(before);
      assert stale - todo == {};
      while todo != {}
        invariant Valid() && todo <= stale
        invariant Value() == Remaining(before, stale - todo)
        decreases todo
      {
        var id :| id in todo;
        EvictConsistent(Value(), id);
        EvictConn(id);
        OneLess(stale, todo, id);
        RemainingStep(before, stale - todo, id);
        todo := todo - {id};
      }
      assert stale - {} == stale;
      assert Remaining(before, stale).conns == before.conns - stale by { RemainingConns(before, stale); }
    }
  }

  lemma RemainingConns(m: Manager, ids: set<Id>)
    ensures Remaining(m, ids).conns == m.conns - ids
  {
  }

  lemma OneLess<T>(all: set<T>, todo: set<T>, x: T)
    requires x in todo && todo <= all
    ensures all - (todo - {x}) == (all - todo) + {x}
  {
  }

  lemma MinusTwice<K, V>(m: map<K, V>, done: set<K>, x: K)
    ensures (m - done) - {x} == m - (done + {x})
  {
  }
}
