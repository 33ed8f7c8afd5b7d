/**
  What becomes of a join. A join obtains the room first and adds its client later; meanwhile the
  room may leave the table, before or after the client is in it. An object that has left the table
  never returns, so this module can say exactly when a join has left its client in the registered
  room, and shows a join that adds its client to a room nobody can find any more.
 */
module JoinOutcome {
  import opened Basics
  import opened LockStep
  import opened LockDiscipline
  import opened Progress
  import opened Continuations
  import opened RoomRegistry
  import opened Cleanup
  import opened Scripts
  import opened LostJoin

  // ---- out of the table for good ----------------------------------------------------------

  /** Only new objects enter the table. */
  lemma StaysOut(s: State, t: ConnId, a: Action, id: RoomId, o: Obj)
    requires Possible(s, t, a) && o in s.objs && Lookup(s.rooms, id) != Some(o)
    ensures o in ObjsAfter(s, t, a) && Lookup(RoomsAfter(s, t, a), id) != Some(o)
  {
  }

  lemma {:induction false} OutForGood(run: seq<Move>, states: seq<State>, id: RoomId, o: Obj, m: nat, n: nat)
    requires Trace(run, states) && m <= n < |states| && o in states[m].objs && Lookup(states[m].rooms, id) != Some(o)
    ensures o in states[n].objs && Lookup(states[n].rooms, id) != Some(o)
    decreases n
  {
    if m < n {
      var c := n - 1;
      OutForGood(run, states, id, o, m, c);
      assert Moves(states[c], run[c], states[n]);
      StaysOut(states[c], run[c].t, run[c].a, id, o);
    }
  }

  lemma TraceSound(run: seq<Move>, states: seq<State>, m: nat)
    requires Trace(run, states) && m < |states|
    ensures ValidRun(run[..m]) && After(run[..m]) == states[m]
    ensures Disciplined(states[m]) && Registered(states[m]) && Counts(states[m])
  {
    assert forall i :: 0 <= i < m ==> run[..m][i] == run[i];
    TraceIsRun(run[..m], states[..m + 1]);
    RunDisciplined(run[..m]);
    KeysAreIds(run[..m]);
    RunCounts(run[..m]);
  }

  /** A registered object is still the registered one exactly when its id was not deleted since. */
  lemma {:induction false} StillRegisteredIff(run: seq<Move>, states: seq<State>, id: RoomId, o: Obj, m: nat, n: nat)
    requires Trace(run, states) && m <= n < |states| && Lookup(states[m].rooms, id) == Some(o)
    ensures Lookup(states[n].rooms, id) == Some(o) <==> NeverDeleted(states, id, m, n)
    decreases n
  {
    if NeverDeleted(states, id, m, n) {
      KeepsObject(run, states, id, m, n);
    } else {
      var i, j :| m <= i <= j <= n && j == i + 1 && id in states[i].rooms && id !in states[j].rooms;
      DeletedForGood(run, states, id, o, m, j, n);
    }
  }

  lemma DeletedForGood(run: seq<Move>, states: seq<State>, id: RoomId, o: Obj, m: nat, i: nat, n: nat)
    requires Trace(run, states) && m <= i <= n < |states| && Lookup(states[m].rooms, id) == Some(o) && id !in states[i].rooms
    ensures Lookup(states[n].rooms, id) != Some(o)
  {
    TraceSound(run, states, m);
    assert IsRoom(states[m].objs, o, id);
    ObjsStay(run, states, o, m, i);
    OutForGood(run, states, id, o, i, n);
  }

  lemma {:induction false} ObjsStay(run: seq<Move>, states: seq<State>, o: Obj, m: nat, n: nat)
    requires Trace(run, states) && m <= n < |states| && o in states[m].objs
    ensures o in states[n].objs
    decreases n
  {
    if m < n {
      var c := n - 1;
      ObjsStay(run, states, o, m, c);
      assert Moves(states[c], run[c], states[n]);
      ObjsPersist(states[c], run[c].t, run[c].a, o);
    }
  }

  /**
    Main result: whatever a call of getOrCreateRoom returns was registered at some moment inside the
    call, and at any later moment it still is exactly when the id was not deleted in between.
   */
  lemma ResultStillRegisteredIff(run: seq<Move>, states: seq<State>, t: ConnId, id: RoomId, o: Obj, a: nat, b: nat, n: nat)
      returns (m: nat)
    requires Trace(run, states) && Call(states, t, id, o, a, b) && b <= n < |states|
    ensures a <= m <= b && Lookup(states[m].rooms, id) == Some(o)
    ensures Lookup(states[n].rooms, id) == Some(o) <==> NeverDeleted(states, id, m, n)
  {
    m := RegisteredDuringCall(run, states, t, id, o, a, b);
    StillRegisteredIff(run, states, id, o, m, n);
  }

  // ---- a whole join -----------------------------------------------------------------------

  /** The registered room `id` lists connection `j` as `u`. */
  predicate SitsIn(s: State, id: RoomId, u: UserId, j: ConnId) {
    id in s.rooms && u in ClientsOf(s, s.rooms[id]) && ClientsOf(s, s.rooms[id])[u] == j
  }

  /**
    A join of `j`: it enters getOrCreateRoom(id) at moment `a`, is about to return with `o` at `b`,
    and then is on its way into addClient up to moment `e`, when it adds its client.
   */
  ghost predicate Join(run: seq<Move>, states: seq<State>, j: ConnId, id: RoomId, o: Obj, a: nat, b: nat, e: nat) {
    && Trace(run, states) && Call(states, j, id, o, a, b) && b < e < |run|
    && (forall i :: b < i <= e ==> Joining(states[i], j, o))
    && run[e] == Move(j, Body(Nothing))
  }

  /** Rooms registered after `o` do not list the joining connection: it is busy joining `o`. */
  ghost predicate OnlyInOld(s: State, j: ConnId, id: RoomId, o: Obj) {
    id in s.rooms && s.rooms[id] != o ==>
      forall u :: u in ClientsOf(s, s.rooms[id]) ==> ClientsOf(s, s.rooms[id])[u] != j
  }

  lemma StepOnlyInOld(s: State, t: ConnId, a: Action, j: ConnId, id: RoomId, o: Obj)
    requires Possible(s, t, a) && OnlyInOld(s, j, id, o) && (Calling(s, j, id) || Joining(s, j, o))
    ensures OnlyInOld(Step(s, t, a), j, id, o)
  {
    var s' := Step(s, t, a);
    if id in s'.rooms && s'.rooms[id] != o {
      if id in s.rooms {
        SameOrNew(s, t, a, id);
        forall u | u in ClientsOf(s', s'.rooms[id])
          ensures ClientsOf(s', s'.rooms[id])[u] != j
        {
          OldOrOwnEntry(s, t, a, s'.rooms[id], u);
        }
      } else {
        NewRoomIsEmpty(s, t, a, id);
      }
    }
  }

  lemma OldOrOwnEntry(s: State, t: ConnId, a: Action, o: Obj, u: UserId)
    requires Possible(s, t, a) && u in ClientsOf(Step(s, t, a), o)
    ensures || (u in ClientsOf(s, o) && ClientsOf(Step(s, t, a), o)[u] == ClientsOf(s, o)[u])
            || (a.Body? && s.threads[t].task == Add(o) && ClientsOf(Step(s, t, a), o)[u] == t)
  {
    NewEntries(s, t, a, o, u);
  }

  lemma SameOrNew(s: State, t: ConnId, a: Action, id: RoomId)
    requires Possible(s, t, a) && id in s.rooms && id in RoomsAfter(s, t, a)
    ensures RoomsAfter(s, t, a)[id] == s.rooms[id]
  {
  }

  lemma {:induction false} JoinOnlyInOld(run: seq<Move>, states: seq<State>, j: ConnId, id: RoomId, o: Obj, a: nat, b: nat, e: nat,
                                         m: nat, n: nat)
    requires Join(run, states, j, id, o, a, b, e) && a <= m <= b && m <= n <= e + 1 && Lookup(states[m].rooms, id) == Some(o)
    ensures OnlyInOld(states[n], j, id, o)
    decreases n
  {
    if m < n {
      var c := n - 1;
      JoinOnlyInOld(run, states, j, id, o, a, b, e, m, c);
      assert Moves(states[c], run[c], states[n]);
      assert Calling(states[c], j, id) || Joining(states[c], j, o);
      StepOnlyInOld(states[c], run[c].t, run[c].a, j, id, o);
    }
  }

  lemma AddsItself(s: State, j: ConnId, o: Obj)
    requires Possible(s, j, Body(Nothing)) && Joining(s, j, o) && s.threads[j].me.Some? && o in s.objs
    ensures var u, s' := s.threads[j].me.value, Step(s, j, Body(Nothing));
            u in ClientsOf(s', o) && ClientsOf(s', o)[u] == j
  {
  }

  /**
    Main result: a join leaves its client in the registered room exactly when the id was not deleted
    between the moment inside getOrCreateRoom at which its room was the registered one and the moment
    it added the client. It always adds the client to the room it obtained.
   */
  lemma JoinLandsIff(run: seq<Move>, states: seq<State>, j: ConnId, id: RoomId, o: Obj, a: nat, b: nat, e: nat)
      returns (m: nat, u: UserId)
    requires Join(run, states, j, id, o, a, b, e)
    ensures a <= m <= b && Lookup(states[m].rooms, id) == Some(o)
    ensures j in states[e].threads && states[e].threads[j].me == Some(u)
    ensures u in ClientsOf(states[e + 1], o) && ClientsOf(states[e + 1], o)[u] == j
    ensures SitsIn(states[e + 1], id, u, j) <==> NeverDeleted(states, id, m, e + 1)
  {
    m := ResultStillRegisteredIff(run, states, j, id, o, a, b, e + 1);
    u := AddsAtEnd(run, states, j, id, o, a, b, e);
    JoinOnlyInOld(run, states, j, id, o, a, b, e, m, e + 1);
  }

  lemma AddsAtEnd(run: seq<Move>, states: seq<State>, j: ConnId, id: RoomId, o: Obj, a: nat, b: nat, e: nat) returns (u: UserId)
    requires Join(run, states, j, id, o, a, b, e)
    ensures j in states[e].threads && states[e].threads[j].me == Some(u)
    ensures u in ClientsOf(states[e + 1], o) && ClientsOf(states[e + 1], o)[u] == j
  {
    TraceSound(run, states, e);
    assert Joining(states[e], j, o) && Moves(states[e], run[e], states[e + 1]);
    assert CountHolds(states[e], states[e].threads[j]) && Refers(states[e].objs, states[e].threads[j]);
    u := states[e].threads[j].me.value;
    AddsItself(states[e], j, o);
  }

  // ---- inevitable losses ------------------------------------------------------------------

  /** Thread `t` has counted no clients in the registered room `o` and has yet to delete it. */
  ghost predicate WillDelete(s: State, t: ConnId, id: RoomId, o: Obj) {
    && Disciplined(s) && Registered(s) && id in s.rooms && s.rooms[id] == o && t in s.threads
    && (JustCounted(s, t, id, o) || (s.threads[t].task == EmptyDelete(id, 0) && s.threads[t].phase == In))
  }

  lemma StepWillDelete(s: State, t: ConnId, id: RoomId, o: Obj, u: ConnId, a: Action)
    requires WillDelete(s, t, id, o) && Possible(s, u, a) && (u == t ==> !a.Body?)
    ensures WillDelete(Step(s, u, a), t, id, o)
  {
    StepDisciplined(s, u, a);
    StepRegistered(s, u, a);
    if u != t {
      TableStable(s, u, a, t);
    }
  }

  lemma {:induction false} OutFrom(s: State, id: RoomId, o: Obj, run: seq<Move>)
    requires o in s.objs && Lookup(s.rooms, id) != Some(o) && ValidFrom(s, run)
    ensures Lookup(ExecFrom(s, run).rooms, id) != Some(o)
    decreases |run|
  {
    if run != [] {
      StaysOut(s, run[0].t, run[0].a, id, o);
      OutFrom(Step(s, run[0].t, run[0].a), id, o, run[1..]);
    }
  }

  lemma {:induction false} DeletionIsForGood(s: State, t: ConnId, id: RoomId, o: Obj, run: seq<Move>, i: nat)
    requires WillDelete(s, t, id, o) && ValidFrom(s, run) && i < |run| && run[i].t == t && run[i].a.Body?
    ensures Lookup(ExecFrom(s, run).rooms, id) != Some(o)
    decreases |run|
  {
    var s' := Step(s, run[0].t, run[0].a);
    if run[0].t == t && run[0].a.Body? {
      DeletesNow(s, t, id, o, run[0].a);
      OutFrom(s', id, o, run[1..]);
    } else {
      StepWillDelete(s, t, id, o, run[0].t, run[0].a);
      DeletionIsForGood(s', t, id, o, run[1..], i - 1);
    }
  }

  lemma DeletesNow(s: State, t: ConnId, id: RoomId, o: Obj, a: Action)
    requires WillDelete(s, t, id, o) && Possible(s, t, a) && a.Body?
    ensures o in ObjsAfter(s, t, a) && Lookup(RoomsAfter(s, t, a), id) != Some(o)
  {
    assert IsRoom(s.objs, o, id);
  }

  /** Connection `j`, known as `u`, is on its way into addClient of `o` and has not added anything yet. */
  predicate OnTheWay(s: State, j: ConnId, u: UserId, o: Obj) {
    Joining(s, j, o) && s.threads[j].phase != Out && s.threads[j].me == Some(u) && o in s.objs
  }

  lemma StaysOnTheWay(s: State, j: ConnId, u: UserId, o: Obj, x: ConnId, a: Action)
    requires OnTheWay(s, j, u, o) && Possible(s, x, a) && (x == j ==> !a.Body?)
    ensures OnTheWay(Step(s, x, a), j, u, o)
  {
    ObjsPersist(s, x, a, o);
  }

  lemma {:induction false} AddsEventually(s: State, j: ConnId, u: UserId, o: Obj, run: seq<Move>, k: nat)
    requires OnTheWay(s, j, u, o) && ValidFrom(s, run) && k < |run| && run[k].t == j && run[k].a.Body?
    requires forall x :: 0 <= x < k && run[x].t == j ==> !run[x].a.Body?
    ensures ValidFrom(s, run[..k + 1])
    ensures var s' := ExecFrom(s, run[..k + 1]); u in ClientsOf(s', o) && ClientsOf(s', o)[u] == j
    decreases k
  {
    var m := run[0];
    if k == 0 {
      assert m.a == Body(Nothing);
      AddsItself(s, j, o);
      assert ValidFrom(Step(s, m.t, m.a), []);
      Prepend(s, m, []);
      assert run[..1] == [m] + [];
    } else {
      StaysOnTheWay(s, j, u, o, m.t, m.a);
      assert forall x :: 0 <= x < k - 1 ==> run[1..][x] == run[x + 1];
      AddsEventually(Step(s, m.t, m.a), j, u, o, run[1..], k - 1);
      Prepend(s, m, run[1..][..k]);
      assert run[..k + 1] == [m] + run[1..][..k];
    }
  }

  /** While `t` is inside the room's lock a joining thread still waits outside. */
  lemma StillOutside(s: State, t: ConnId, id: RoomId, o: Obj, j: ConnId) returns (u: UserId)
    requires Disciplined(s) && Registered(s) && Counts(s) && JustCounted(s, t, id, o) && Joining(s, j, o)
    ensures OnTheWay(s, j, u, o) && WillDelete(s, t, id, o)
  {
    assert CountHolds(s, s.threads[t]) && CountHolds(s, s.threads[j]) && Refers(s.objs, s.threads[j]);
    WritersAlone(s, t, RoomMu(o));
    assert Writes(s.threads[t], RoomMu(o));
    u := s.threads[j].me.value;
  }

  /**
    Main result: from the moment at which removeEmptyRoom has counted zero while somebody is joining
    the room, that join is lost. In every continuation in which the one thread gets to its deletion
    and the other to its addClient, in whatever order, the client ends up in a room object that is
    not registered, then or ever again.
   */
  lemma JoinIsLost(s: State, t: ConnId, id: RoomId, o: Obj, j: ConnId, run: seq<Move>, i: nat, k: nat) returns (u: UserId)
    requires Disciplined(s) && Registered(s) && Counts(s) && JustCounted(s, t, id, o) && Joining(s, j, o)
    requires ValidFrom(s, run) && i < |run| && run[i].t == t && run[i].a.Body?
    requires k < |run| && run[k].t == j && run[k].a.Body? && forall x :: 0 <= x < k && run[x].t == j ==> !run[x].a.Body?
    ensures s.threads[j].me == Some(u) && ValidFrom(s, run[..k + 1])
    ensures var added := ExecFrom(s, run[..k + 1]); u in ClientsOf(added, o) && ClientsOf(added, o)[u] == j
    ensures Lookup(ExecFrom(s, run).rooms, id) != Some(o)
  {
    u := StillOutside(s, t, id, o, j);
    AddsEventually(s, j, u, o, run, k);
    DeletionIsForGood(s, t, id, o, run, i);
  }

  // ---- a join after the deletion ------------------------------------------------------------

  /** The room a connection has joined is not in the table: nobody will find it there. */
  predicate Orphaned(s: State, j: ConnId, id: RoomId, o: Obj) {
    && j in s.threads && s.threads[j].task.Idle? && s.threads[j].me.Some?
    && o in s.objs && s.objs[o].id == id && id !in s.rooms
    && s.threads[j].me.value in ClientsOf(s, o) && ClientsOf(s, o)[s.threads[j].me.value] == j
  }

  lemma OutOfRoom(th: Thread, id: RoomId, user: UserId, t: ConnId)
    requires th == Ready(EmptyCount(id, 0, 0), user).(phase := Out)
    ensures Target(th.task) == Some(Hold(RoomMu(0), Write)) && ReleaseThread(th) == Ready(EmptyDelete(id, 0), user).(phase := In)
    ensures RW(Some(t), {}) == Granted(RW(None, {}), Write, t)
  {
  }

  lemma DeleteBody(s: State, t: ConnId, id: RoomId, user: UserId)
    requires t in s.threads && s.threads[t] == Ready(EmptyDelete(id, 0), user).(phase := In)
    requires s.rooms == map[id := 0] && s.objs == map[0 := Room(id, map[])]
    ensures Possible(s, t, Body(Nothing)) && DropsNobody(s, t, Body(Nothing)) && RoomsAfter(s, t, Body(Nothing)) == map[]
    ensures BodyThread(s, s.threads[t], Nothing) == Ready(EmptyDelete(id, 0), user).(phase := Out)
    ensures ObjsAfter(s, t, Body(Nothing)) == s.objs
  {
  }

  lemma OutOfTable(th: Thread, id: RoomId, user: UserId, t: ConnId)
    requires th == Ready(EmptyDelete(id, 0), user).(phase := Out)
    ensures Target(th.task) == Some(Hold(RoomsMu, Write)) && ReleaseThread(th) == Ready(Idle, user)
    ensures RW(Some(t), {}) == Granted(RW(None, {}), Write, t)
  {
  }

  /** Both locks of removeEmptyRoom are given back. */
  lemma AllFreeAgain(s: State, locks: map<Lock, RW>, x: RW, y: RW)
    requires AllFree(s) && locks == s.locks[RoomsMu := x][RoomMu(0) := y][RoomMu(0) := RW(None, {})][RoomsMu := RW(None, {})]
    ensures forall l :: l in locks ==> locks[l] == RW(None, {})
  {
  }

  /** removeEmptyRoom from start to end, undisturbed, on a room without clients. */
  lemma RemovesRoom(s: State, t: ConnId, id: RoomId, user: UserId) returns (s': State)
    requires Reachable(s) && AllFree(s) && t in s.threads && s.threads[t] == Ready(EmptyLook(id), user)
    requires s.rooms == map[id := 0] && s.objs == map[0 := Room(id, map[])]
    ensures Reachable(s') && AllFree(s') && s'.threads == s.threads[t := Ready(Idle, user)]
    ensures s'.rooms == map[] && s'.objs == s.objs
  {
    var s1 := CountsZero(s, t, id, user);
    OutOfRoom(s1.threads[t], id, user, t);
    var s2 := LeaveHeld(s1, t, Hold(RoomMu(0), Write));
    DeleteBody(s2, t, id, user);
    var s3 := BodyMove(s2, t, Nothing);
    OutOfTable(s3.threads[t], id, user, t);
    s' := LeaveHeld(s3, t, Hold(RoomsMu, Write));
    AllFreeAgain(s, s'.locks, RW(Some(t), {}), RW(Some(t), {}));
    LastWins(s.threads, t, s1.threads[t], s2.threads[t]);
    LastWins(s.threads, t, s2.threads[t], s3.threads[t]);
    LastWins(s.threads, t, s3.threads[t], s'.threads[t]);
  }

  lemma AddBody(s: State, j: ConnId, id: RoomId, user: UserId)
    requires j in s.threads && s.threads[j] == Ready(Add(0), user) && s.objs == map[0 := Room(id, map[])]
    ensures var inside := Inside(s, j, Hold(RoomMu(0), Write));
            && Possible(inside, j, Body(Nothing)) && RoomsAfter(inside, j, Body(Nothing)) == s.rooms
            && ObjsAfter(inside, j, Body(Nothing)) == map[0 := Room(id, map[user := j])]
            && BodyThread(inside, inside.threads[j], Nothing) == Ready(Add(0), user).(phase := Out)
  {
  }

  lemma AddsClient(s: State, j: ConnId, id: RoomId, user: UserId) returns (s': State)
    requires Reachable(s) && AllFree(s) && j in s.threads && s.threads[j] == Ready(Add(0), user)
    requires s.objs == map[0 := Room(id, map[])]
    ensures Reachable(s') && s'.threads == s.threads[j := Ready(Idle, user)]
    ensures s'.rooms == s.rooms && s'.objs == map[0 := Room(id, map[user := j])]
  {
    AddBody(s, j, id, user);
    s' := Section(s, j, Hold(RoomMu(0), Write), Nothing, Ready(Add(0), user).(phase := Out));
  }

  /**
    Main result: a join can be lost though no room with a member is ever deleted and removeEmptyRoom
    runs undisturbed: the room is gone before the client gets in.
   */
  lemma JoinCanComeTooLate()
    ensures exists s, j, id, o :: Reachable(s) && Orphaned(s, j, id, o)
  {
    var s := AnnLeavesBobJoins();
    var s1 := RemovesRoom(s, 1, "lobby", "ann");
    assert s1.threads[2] == Ready(Add(0), "bob");
    var s2 := AddsClient(s1, 2, "lobby", "bob");
    assert Orphaned(s2, 2, "lobby", 0);
  }
}
