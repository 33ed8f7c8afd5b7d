/**
  What removeEmptyRoom does not do. Its source comment promises an atomic check and removal, but
  r.mu is released between counting the clients and deleting the room, and addClient does not
  take roomsMu. This module proves exactly when a member can be dropped that way, and that it
  does happen in a run of two connections.
 */
module LostJoin {
  import opened Basics
  import opened LockStep
  import opened LockDiscipline
  import opened Progress
  import opened Continuations
  import opened RoomRegistry
  import opened Scripts

  // ---- what the counting thread knows -------------------------------------------------------

  /** While a thread is in the nested section of removeEmptyRoom, it has the registered room and its true count. */
  ghost predicate CountHolds(s: State, th: Thread) {
    match th.task
    case EmptyCount(id, o, n) =>
      id in s.rooms && s.rooms[id] == o && (th.phase == Out ==> n == |ClientsOf(s, o)|)
    case Look(_, why, _) => why.ToJoin? ==> th.me.Some?
    case Make(_, why, _) => why.ToJoin? ==> th.me.Some?
    case Add(_) => th.me.Some?
    case _ => true
  }

  ghost predicate Counts(s: State) {
    forall t :: t in s.threads ==> CountHolds(s, s.threads[t])
  }

  lemma BodyCountHolds(s: State, t: ConnId, pick: Pick)
    requires Possible(s, t, Body(pick)) && CountHolds(s, s.threads[t])
    ensures CountHolds(Step(s, t, Body(pick)), BodyThread(s, s.threads[t], pick))
  {
    var th := s.threads[t];
    if th.task.EmptyCount? {
      assert ObjsAfter(s, t, Body(pick)) == s.objs && RoomsAfter(s, t, Body(pick)) == s.rooms;
    } else if th.task.EmptyLook? {
      assert RoomsAfter(s, t, Body(pick)) == s.rooms;
    }
  }

  lemma ReleaseCountHolds(s: State, th: Thread)
    requires CountHolds(s, th) && Shaped(th) && th.phase == Out
    ensures CountHolds(s, ReleaseThread(th))
  {
  }

  lemma OwnCountHolds(s: State, t: ConnId, a: Action)
    requires Disciplined(s) && Possible(s, t, a) && !a.WriterTakes? && (t in s.threads ==> CountHolds(s, s.threads[t]))
    ensures CountHolds(Step(s, t, a), ThreadAfter(s, t, a))
  {
    var s' := Step(s, t, a);
    match a
    case Body(pick) => BodyCountHolds(s, t, pick);
    case Release =>
      ReleaseCountHolds(s, s.threads[t]);
      SameShared(s, s', ReleaseThread(s.threads[t]));
    case _ => QuietCountHolds(s, t, a);
  }

  lemma SameShared(s: State, s': State, th: Thread)
    requires s'.rooms == s.rooms && s'.objs == s.objs && CountHolds(s, th)
    ensures CountHolds(s', th)
  {
  }

  lemma QuietCountHolds(s: State, t: ConnId, a: Action)
    requires Possible(s, t, a) && (a.Spawn? || a.Start? || a.Acquire? || a.Free?)
    requires t in s.threads ==> CountHolds(s, s.threads[t]) && Shaped(s.threads[t])
    ensures CountHolds(Step(s, t, a), ThreadAfter(s, t, a))
  {
    match a
    case Spawn =>
    case Start(op) => SameShared(s, Step(s, t, a), StartThread(s.threads[t], op));
    case Acquire => SameShared(s, Step(s, t, a), ThreadAfter(s, t, a));
    case Free(pick) => SameShared(s, Step(s, t, a), FreeThread(s.threads[t], pick));
    case _ =>
  }

  lemma StepCounts(s: State, t: ConnId, a: Action)
    requires Disciplined(s) && Counts(s) && Possible(s, t, a)
    ensures Counts(Step(s, t, a))
  {
    var s' := Step(s, t, a);
    forall t' | t' in s'.threads
      ensures CountHolds(s', s'.threads[t'])
    {
      if t' == t && !a.WriterTakes? {
        OwnCountHolds(s, t, a);
      } else {
        OtherCountHolds(s, t, a, t');
      }
    }
  }

  lemma OtherCountHolds(s: State, t: ConnId, a: Action, t': ConnId)
    requires Disciplined(s) && Counts(s) && Possible(s, t, a) && t' in s.threads && (t' != t || a.WriterTakes?)
    ensures CountHolds(Step(s, t, a), s.threads[t'])
  {
    var th := s.threads[t'];
    assert CountHolds(s, th);
    if th.task.EmptyCount? {
      if a.WriterTakes? {
        assert Step(s, t, a).objs == s.objs;
      } else {
        TableStable(s, t, a, t');
        if th.phase == Out {
          RoomStable(s, t, a, t', th.task.o);
        }
      }
    }
  }

  lemma {:induction false} RunCounts(run: seq<Move>)
    requires ValidRun(run)
    ensures Counts(After(run))
  {
    if run != [] {
      var n := |run| - 1;
      RunCounts(run[..n]);
      RunDisciplined(run[..n]);
      StepCounts(After(run[..n]), run[n].t, run[n].a);
    }
  }

  /** The count a removal goes by was the registered room's true one when the thread let go of r.mu. */
  lemma CountWasTrue(run: seq<Move>, t: ConnId, id: RoomId, n: nat)
    requires ValidRun(run) && t in After(run).threads && Possible(After(run), t, Release)
    requires ReleaseThread(After(run).threads[t]).task == EmptyDelete(id, n)
    ensures id in After(run).rooms && n == |ClientsOf(After(run), After(run).rooms[id])|
  {
    RunCounts(run);
    assert CountHolds(After(run), After(run).threads[t]);
  }

  // ---- the gap ------------------------------------------------------------------------------

  /** Thread `t` has counted no clients in the registered room `o` and is about to release r.mu. */
  predicate JustCounted(s: State, t: ConnId, id: RoomId, o: Obj) {
    t in s.threads && s.threads[t].task == EmptyCount(id, o, 0) && s.threads[t].phase == Out
  }

  /** Thread `t` is about to delete a room that has members. */
  predicate DropsMember(s: State, t: ConnId, id: RoomId) {
    && t in s.threads && s.threads[t].task == EmptyDelete(id, 0) && s.threads[t].phase == In
    && id in s.rooms && ClientsOf(s, s.rooms[id]) != map[]
  }

  /** No access of `t` itself: the deletion has not happened yet. */
  predicate Waits(run: seq<Move>, t: ConnId) {
    forall i :: 0 <= i < |run| && run[i].t == t ==> !run[i].a.Body?
  }

  /** Some continuation brings `t` to delete a room with members on the strength of this count. */
  ghost predicate CanDropMember(s: State, t: ConnId, id: RoomId) {
    exists run: seq<Move> :: ValidFrom(s, run) && Waits(run, t) && DropsMember(ExecFrom(s, run), t, id)
  }

  /** Thread `j` holds the room from getOrCreateRoom and has yet to get into addClient. */
  predicate Joining(s: State, j: ConnId, o: Obj) {
    j in s.threads && s.threads[j].task == Add(o)
  }

  // ---- nobody joining: nothing can be lost --------------------------------------------------

  ghost predicate StillEmpty(s: State, t: ConnId, id: RoomId, o: Obj) {
    && Disciplined(s) && Registered(s)
    && (JustCounted(s, t, id, o) || (t in s.threads && s.threads[t].task == EmptyDelete(id, 0) && s.threads[t].phase == In))
    && id in s.rooms && s.rooms[id] == o && ClientsOf(s, o) == map[]
    && (forall j :: !Joining(s, j, o))
  }

  /** Only a thread that comes out of getOrCreateRoom, inside roomsMu, starts to join. */
  lemma StartsJoiningInside(s: State, u: ConnId, a: Action, o: Obj)
    requires Possible(s, u, a) && !a.WriterTakes? && ThreadAfter(s, u, a).task == Add(o)
    ensures u in s.threads && (s.threads[u].task == Add(o)
                               || ((s.threads[u].task.Look? || s.threads[u].task.Make?) && s.threads[u].phase == Out))
  {
  }

  /** While `t` is inside roomsMu nobody else obtains the room any more. */
  lemma OthersDoNotStart(s: State, t: ConnId, id: RoomId, o: Obj, u: ConnId, a: Action)
    requires StillEmpty(s, t, id, o) && Possible(s, u, a) && !a.WriterTakes? && u != t
    ensures ThreadAfter(s, u, a).task != Add(o)
  {
    WritersAlone(s, t, RoomsMu);
    assert Writes(s.threads[t], RoomsMu) && !Joining(s, u, o);
    if ThreadAfter(s, u, a).task == Add(o) {
      StartsJoiningInside(s, u, a, o);
      assert false;
    }
  }

  lemma ItselfDoesNotStart(s: State, t: ConnId, id: RoomId, o: Obj, a: Action)
    requires StillEmpty(s, t, id, o) && Possible(s, t, a) && !a.WriterTakes? && !a.Body?
    ensures ThreadAfter(s, t, a).task != Add(o)
  {
    if ThreadAfter(s, t, a).task == Add(o) {
      StartsJoiningInside(s, t, a, o);
      assert false;
    }
  }

  /** So nobody starts to join while `t` has yet to delete the room. */
  lemma NobodyStartsJoining(s: State, t: ConnId, id: RoomId, o: Obj, u: ConnId, a: Action)
    requires StillEmpty(s, t, id, o) && Possible(s, u, a) && (u == t ==> !a.Body?)
    ensures forall j :: !Joining(Step(s, u, a), j, o)
  {
    if !a.WriterTakes? {
      if u == t {
        ItselfDoesNotStart(s, t, id, o, a);
      } else {
        OthersDoNotStart(s, t, id, o, u, a);
      }
    }
    forall j
      ensures !Joining(Step(s, u, a), j, o)
    {
      assert !Joining(s, j, o);
    }
  }

  lemma NobodyAdds(s: State, t: ConnId, id: RoomId, o: Obj, u: ConnId, a: Action)
    requires StillEmpty(s, t, id, o) && Possible(s, u, a)
    ensures ClientsOf(Step(s, u, a), o) == map[]
  {
    assert !Joining(s, u, o);
    assert IsRoom(s.objs, o, id);
    assert o in ObjsAfter(s, u, a) && ObjsAfter(s, u, a)[o].clients == map[];
  }

  lemma StepStillEmpty(s: State, t: ConnId, id: RoomId, o: Obj, u: ConnId, a: Action)
    requires StillEmpty(s, t, id, o) && Possible(s, u, a) && (u == t ==> !a.Body?)
    ensures StillEmpty(Step(s, u, a), t, id, o)
  {
    StepDisciplined(s, u, a);
    StepRegistered(s, u, a);
    NobodyStartsJoining(s, t, id, o, u, a);
    NobodyAdds(s, t, id, o, u, a);
    if u != t {
      TableStable(s, u, a, t);
    }
  }

  lemma {:induction false} StaysEmpty(s: State, t: ConnId, id: RoomId, o: Obj, run: seq<Move>)
    requires StillEmpty(s, t, id, o) && ValidFrom(s, run) && Waits(run, t)
    ensures StillEmpty(ExecFrom(s, run), t, id, o)
    decreases |run|
  {
    if run != [] {
      assert run[0].t == t ==> !run[0].a.Body?;
      StepStillEmpty(s, t, id, o, run[0].t, run[0].a);
      assert forall i :: 0 <= i < |run| - 1 ==> run[1..][i] == run[i + 1];
      StaysEmpty(Step(s, run[0].t, run[0].a), t, id, o, run[1..]);
    }
  }

  /** At moment `m` of the run `t` let go of r.mu with a count of zero while somebody was on the way into addClient. */
  ghost predicate GapAt(run: seq<Move>, m: nat, t: ConnId, id: RoomId, o: Obj) {
    && m < |run| && run[m] == Move(t, Release) && ValidRun(run[..m])
    && JustCounted(After(run[..m]), t, id, o) && exists j :: Joining(After(run[..m]), j, o)
  }

  lemma GapStays(run: seq<Move>, m: nat, t: ConnId, id: RoomId, o: Obj)
    requires run != [] && GapAt(run[..|run| - 1], m, t, id, o)
    ensures GapAt(run, m, t, id, o)
  {
    assert run[..|run| - 1][..m] == run[..m];
  }

  /** The thread about to delete got there by letting go of r.mu. */
  lemma CameFromCounting(s: State, u: ConnId, a: Action, t: ConnId, id: RoomId)
    requires Disciplined(s) && Possible(s, u, a)
    requires t in Step(s, u, a).threads && Step(s, u, a).threads[t].task == EmptyDelete(id, 0) && Step(s, u, a).threads[t].phase == In
    ensures t in s.threads && (t == u ==> !a.Body?)
    ensures || (s.threads[t] == Step(s, u, a).threads[t])
            || (u == t && a == Release && s.threads[t].task.EmptyCount? && s.threads[t].task.id == id && s.threads[t].task.n == 0
                && s.threads[t].phase == Out)
  {
  }

  /** A thread about to delete a room has a gap behind it, or the room is empty and nobody is on the way in. */
  lemma {:induction false} GapOrStillEmpty(run: seq<Move>, t: ConnId, id: RoomId)
    requires ValidRun(run) && t in After(run).threads && id in After(run).rooms
    requires After(run).threads[t].task == EmptyDelete(id, 0) && After(run).threads[t].phase == In
    ensures var o := After(run).rooms[id]; (exists m :: GapAt(run, m, t, id, o)) || StillEmpty(After(run), t, id, o)
  {
    var n := |run| - 1;
    var p, s, u, a := After(run[..n]), After(run), run[n].t, run[n].a;
    RunDisciplined(run[..n]);
    KeysAreIds(run[..n]);
    CameFromCounting(p, u, a, t, id);
    if p.threads[t] == s.threads[t] {
      if u != t {
        TableStable(p, u, a, t);
      }
      GapOrStillEmpty(run[..n], t, id);
      if m :| GapAt(run[..n], m, t, id, p.rooms[id]) {
        GapStays(run, m, t, id, p.rooms[id]);
      } else {
        StepStillEmpty(p, t, id, p.rooms[id], u, a);
      }
    } else {
      CountedInRun(run[..n], t, id);
      if exists j :: Joining(p, j, p.rooms[id]) {
        assert GapAt(run, n, t, id, p.rooms[id]);
      } else {
        StepStillEmpty(p, t, id, p.rooms[id], u, a);
      }
    }
  }

  /** A thread that has counted zero inside roomsMu counted the registered room. */
  lemma CountedInRun(run: seq<Move>, t: ConnId, id: RoomId)
    requires ValidRun(run) && t in After(run).threads && After(run).threads[t].phase == Out
    requires After(run).threads[t].task.EmptyCount? && After(run).threads[t].task.id == id && After(run).threads[t].task.n == 0
    ensures id in After(run).rooms && JustCounted(After(run), t, id, After(run).rooms[id])
    ensures ClientsOf(After(run), After(run).rooms[id]) == map[]
  {
    RunCounts(run);
    assert CountHolds(After(run), After(run).threads[t]);
    assert |ClientsOf(After(run), After(run).rooms[id])| == 0;
  }

  /**
    Main result: whenever in any run a room with a member leaves the table, the thread that deletes
    it had let go of r.mu with a count of zero while another connection held the very same room on
    its way into addClient. JoinOutcome.dfy has the joins that come after the deletion.
   */
  lemma LostOnlyInTheGap(run: seq<Move>, t: ConnId, a: Action, id: RoomId)
    requires ValidRun(run) && Possible(After(run), t, a) && id in After(run).rooms
    requires ClientsOf(After(run), After(run).rooms[id]) != map[] && id !in RoomsAfter(After(run), t, a)
    ensures exists m :: GapAt(run, m, t, id, After(run).rooms[id])
  {
    GapOrStillEmpty(run, t, id);
  }

  // ---- somebody joining: the member is lost ---------------------------------------------------

  /** `t` waits to delete room `id`, whose object is `o`. */
  predicate Deleting(s: State, t: ConnId, id: RoomId, o: Obj) {
    && t in s.threads && s.threads[t].task == EmptyDelete(id, 0) && s.threads[t].phase == In
    && id in s.rooms && s.rooms[id] == o && o in s.objs
  }

  lemma AddLands(s: State, t: ConnId, id: RoomId, o: Obj, j: ConnId)
    requires Deleting(s, t, id, o) && Joining(s, j, o) && s.threads[j].phase == In && s.threads[j].me.Some?
    ensures Possible(s, j, Body(Nothing)) && DropsMember(Step(s, j, Body(Nothing)), t, id)
  {
    var s' := Step(s, j, Body(Nothing));
    assert s'.rooms == s.rooms && s'.threads[t] == s.threads[t];
    assert s.threads[j].me.value in ObjsAfter(s, j, Body(Nothing))[o].clients;
  }

  /** From a free room lock the joining thread needs three steps. */
  lemma AddRuns(s: State, t: ConnId, id: RoomId, o: Obj, j: ConnId) returns (run: seq<Move>)
    requires Deleting(s, t, id, o) && Joining(s, j, o) && s.threads[j].phase == Ask && s.threads[j].me.Some?
    requires LockOf(s, RoomMu(o)).writer == None && LockOf(s, RoomMu(o)).readers == {}
    ensures ValidFrom(s, run) && DropsMember(ExecFrom(s, run), t, id) && forall i :: 0 <= i < |run| ==> run[i].t == j
  {
    var s1 := Step(s, j, Acquire);
    assert s1.threads == s.threads[j := s.threads[j].(phase := Wait)];
    assert LockOf(s1, RoomMu(o)).readers == {};
    var s2 := Step(s1, j, Acquire);
    assert s2.threads == s1.threads[j := s1.threads[j].(phase := In)];
    AddLands(s2, t, id, o, j);
    var m, b := Move(j, Acquire), Move(j, Body(Nothing));
    assert ValidFrom(Step(s2, j, b.a), []);
    Prepend(s2, b, []);
    Prepend(s1, m, [b] + []);
    Prepend(s, m, [m] + ([b] + []));
    run := [m] + ([m] + ([b] + []));
  }

  /** Leaving r.mu with a count of zero frees the lock for the joining thread. */
  lemma LeavesRoomOpen(s: State, t: ConnId, id: RoomId, o: Obj, j: ConnId) returns (s': State)
    requires Disciplined(s) && Registered(s) && Counts(s) && JustCounted(s, t, id, o) && Joining(s, j, o)
    ensures Possible(s, t, Release) && s' == Step(s, t, Release) && Deleting(s', t, id, o) && Joining(s', j, o)
    ensures s'.threads[j].phase == Ask && s'.threads[j].me.Some? && LockOf(s', RoomMu(o)) == RW(None, {})
  {
    assert CountHolds(s, s.threads[t]) && CountHolds(s, s.threads[j]) && Refers(s.objs, s.threads[j]);
    WritersAlone(s, t, RoomMu(o));
    assert s.threads[j].phase == Ask;
    assert LockOf(s, RoomMu(o)).readers == {} by {
      assert Writes(s.threads[t], RoomMu(o));
    }
    s' := Step(s, t, Release);
    assert s'.threads == s.threads[t := ReleaseThread(s.threads[t])];
  }

  lemma WaitsLonger(m: Move, run: seq<Move>, t: ConnId)
    requires m.t == t ==> !m.a.Body?
    requires Waits(run, t)
    ensures Waits([m] + run, t)
  {
  }

  lemma LosesMember(s: State, t: ConnId, id: RoomId, o: Obj, j: ConnId) returns (run: seq<Move>)
    requires Disciplined(s) && Registered(s) && Counts(s) && JustCounted(s, t, id, o) && Joining(s, j, o)
    ensures ValidFrom(s, run) && Waits(run, t) && DropsMember(ExecFrom(s, run), t, id)
  {
    var s1 := LeavesRoomOpen(s, t, id, o, j);
    var rest := AddRuns(s1, t, id, o, j);
    Prepend(s, Move(t, Release), rest);
    WaitsLonger(Move(t, Release), rest, t);
    run := [Move(t, Release)] + rest;
  }

  /**
    Main result: after counting zero, removeEmptyRoom can drop a member exactly when some other
    connection has the room in hand and is on its way into addClient.
   */
  lemma DropsMemberIff(s: State, t: ConnId, id: RoomId, o: Obj)
    requires Disciplined(s) && Registered(s) && Counts(s) && JustCounted(s, t, id, o)
    ensures CanDropMember(s, t, id) <==> exists j :: Joining(s, j, o)
  {
    assert CountHolds(s, s.threads[t]);
    if j :| Joining(s, j, o) {
      var run := LosesMember(s, t, id, o, j);
    } else {
      assert |ClientsOf(s, o)| == 0;
      assert StillEmpty(s, t, id, o);
      forall run: seq<Move> | ValidFrom(s, run) && Waits(run, t)
        ensures !DropsMember(ExecFrom(s, run), t, id)
      {
        StaysEmpty(s, t, id, o, run);
      }
    }
  }

  // ---- it does happen -------------------------------------------------------------------------

  /** getOrCreateRoom's second look creates the room in an empty table, for a leave. */
  lemma Makes(s: State, t: ConnId, id: RoomId, user: UserId) returns (s': State)
    requires Reachable(s) && AllFree(s) && t in s.threads && s.threads[t] == Ready(Make(id, ToLeave, None), user)
    requires s.rooms == map[] && s.objs == map[]
    ensures Reachable(s') && AllFree(s') && s'.rooms == map[id := 0] && s'.objs == map[0 := Room(id, map[])]
    ensures s'.threads == s.threads[t := Ready(Remove(0, id), user)]
  {
    s' := Section(s, t, Hold(RoomsMu, Write), Fresh(0), Ready(Make(id, ToLeave, Some(0)), user).(phase := Out));
  }

  lemma RemovesNobody(s: State, t: ConnId, id: RoomId, user: UserId)
    requires t in s.threads && s.threads[t] == Ready(Remove(0, id), user) && s.objs == map[0 := Room(id, map[])]
    ensures var inside := Inside(s, t, Hold(RoomMu(0), Write));
            && Possible(inside, t, Body(Nothing)) && ObjsAfter(inside, t, Body(Nothing)) == s.objs
            && BodyThread(inside, inside.threads[t], Nothing) == Ready(Remove(0, id), user).(phase := Out)
  {
    var none: map<UserId, ConnId> := map[];
    assert none - {user} == none;
  }

  /** removeClient on a room without clients. */
  lemma Removes(s: State, t: ConnId, id: RoomId, user: UserId) returns (s': State)
    requires Reachable(s) && AllFree(s) && t in s.threads && s.threads[t] == Ready(Remove(0, id), user)
    requires s.objs == map[0 := Room(id, map[])]
    ensures Reachable(s') && AllFree(s') && s'.rooms == s.rooms && s'.objs == s.objs
    ensures s'.threads == s.threads[t := Ready(EmptyLook(id), user)]
  {
    RemovesNobody(s, t, id, user);
    s' := Section(s, t, Hold(RoomMu(0), Write), Nothing, Ready(Remove(0, id), user).(phase := Out));
  }

  lemma LookBody(s: State, t: ConnId, id: RoomId, user: UserId)
    requires t in s.threads && s.threads[t] == Ready(EmptyLook(id), user) && s.rooms == map[id := 0]
    ensures var inside := Inside(s, t, Hold(RoomsMu, Write));
            && Possible(inside, t, Body(Nothing)) && RoomsAfter(inside, t, Body(Nothing)) == s.rooms
            && ObjsAfter(inside, t, Body(Nothing)) == s.objs
            && BodyThread(inside, inside.threads[t], Nothing) == Ready(EmptyCount(id, 0, 0), user)
            && inside.locks == s.locks[RoomsMu := RW(Some(t), {})]
  {
  }

  lemma LooksUnderLock(s: State, t: ConnId, id: RoomId, user: UserId) returns (s': State)
    requires Reachable(s) && AllFree(s) && t in s.threads && s.threads[t] == Ready(EmptyLook(id), user)
    requires s.rooms == map[id := 0]
    ensures Reachable(s') && s'.threads == s.threads[t := Ready(EmptyCount(id, 0, 0), user)]
    ensures s'.rooms == s.rooms && s'.objs == s.objs && s'.locks == s.locks[RoomsMu := RW(Some(t), {})]
    ensures LockOf(s', RoomMu(0)) == RW(None, {})
  {
    LookBody(s, t, id, user);
    var s1 := Enter(s, t, Hold(RoomsMu, Write));
    OnlyDeletionsDrop(s1, t, Body(Nothing));
    s' := BodyMove(s1, t, Nothing);
    LastWins(s.threads, t, s1.threads[t], s'.threads[t]);
  }

  lemma CountsInside(s: State, t: ConnId, id: RoomId, user: UserId) returns (s': State)
    requires Reachable(s) && t in s.threads && s.threads[t] == Ready(EmptyCount(id, 0, 0), user).(phase := In)
    requires s.objs == map[0 := Room(id, map[])]
    ensures Reachable(s') && s'.threads == s.threads[t := Ready(EmptyCount(id, 0, 0), user).(phase := Out)]
    ensures s'.rooms == s.rooms && s'.objs == s.objs && s'.locks == s.locks
  {
    assert |ClientsOf(s, 0)| == 0;
    OnlyDeletionsDrop(s, t, Body(Nothing));
    s' := BodyMove(s, t, Nothing);
  }

  /** removeEmptyRoom up to the release of r.mu. */
  lemma CountsZero(s: State, t: ConnId, id: RoomId, user: UserId) returns (s': State)
    requires Reachable(s) && AllFree(s) && t in s.threads && s.threads[t] == Ready(EmptyLook(id), user)
    requires s.rooms == map[id := 0] && s.objs == map[0 := Room(id, map[])]
    ensures Reachable(s') && s'.threads == s.threads[t := Ready(EmptyCount(id, 0, 0), user).(phase := Out)]
    ensures s'.rooms == s.rooms && s'.objs == s.objs
    ensures s'.locks == s.locks[RoomsMu := RW(Some(t), {})][RoomMu(0) := RW(Some(t), {})]
  {
    var s1 := LooksUnderLock(s, t, id, user);
    s' := EntersAndCounts(s1, t, id, user);
    LastWins(s.threads, t, s1.threads[t], s'.threads[t]);
  }

  lemma EntersAndCounts(s: State, t: ConnId, id: RoomId, user: UserId) returns (s': State)
    requires Reachable(s) && t in s.threads && s.threads[t] == Ready(EmptyCount(id, 0, 0), user)
    requires s.objs == map[0 := Room(id, map[])] && LockOf(s, RoomMu(0)) == RW(None, {})
    ensures Reachable(s') && s'.threads == s.threads[t := Ready(EmptyCount(id, 0, 0), user).(phase := Out)]
    ensures s'.rooms == s.rooms && s'.objs == s.objs && s'.locks == s.locks[RoomMu(0) := RW(Some(t), {})]
  {
    var s1 := EntersRoom(s, t, id, user);
    s' := CountsInside(s1, t, id, user);
    LastWins(s.threads, t, s1.threads[t], s'.threads[t]);
  }

  lemma EntersRoom(s: State, t: ConnId, id: RoomId, user: UserId) returns (s': State)
    requires Reachable(s) && t in s.threads && s.threads[t] == Ready(EmptyCount(id, 0, 0), user)
    requires LockOf(s, RoomMu(0)) == RW(None, {})
    ensures Reachable(s') && s'.threads == s.threads[t := Ready(EmptyCount(id, 0, 0), user).(phase := In)]
    ensures s'.rooms == s.rooms && s'.objs == s.objs && s'.locks == s.locks[RoomMu(0) := RW(Some(t), {})]
  {
    InsideRoom(s, t, id, user);
    s' := Enter(s, t, Hold(RoomMu(0), Write));
  }

  lemma InsideRoom(s: State, t: ConnId, id: RoomId, user: UserId)
    requires t in s.threads && s.threads[t] == Ready(EmptyCount(id, 0, 0), user) && LockOf(s, RoomMu(0)) == RW(None, {})
    ensures var hold := Hold(RoomMu(0), Write);
            && AsksFree(s, t, hold)
            && Inside(s, t, hold).threads == s.threads[t := Ready(EmptyCount(id, 0, 0), user).(phase := In)]
            && Inside(s, t, hold).locks == s.locks[RoomMu(0) := RW(Some(t), {})]
            && Inside(s, t, hold).rooms == s.rooms && Inside(s, t, hold).objs == s.objs
  {
  }

  /** The leaving connection creates the room, and the joining one obtains it before the leaving one removes it. */
  lemma LeaverAndJoinerMeet(s: State, t: ConnId, j: ConnId, u: UserId, v: UserId, id: RoomId) returns (s': State)
    requires Reachable(s) && AllFree(s) && t != j && s.rooms == map[] && s.objs == map[]
    requires s.threads == map[t := Ready(Idle, u), j := Ready(Idle, v)]
    ensures Reachable(s') && AllFree(s') && s'.rooms == map[id := 0] && s'.objs == map[0 := Room(id, map[])]
    ensures s'.threads == map[t := Ready(EmptyLook(id), u), j := Ready(Add(0), v)]
  {
    var s1 := LeaverMakesRoom(s, t, u, id);
    BothMove(t, j, Ready(Idle, u), Ready(Idle, v), Ready(EmptyLook(id), u), Ready(Add(0), v));
    s' := JoinerObtains(s1, j, v, id);
  }

  lemma BothMove(t: ConnId, j: ConnId, x: Thread, y: Thread, x': Thread, y': Thread)
    requires t != j
    ensures map[t := x, j := y][t := x'] == map[t := x', j := y]
    ensures map[t := x', j := y][j := y'] == map[t := x', j := y']
  {
  }

  lemma LeaverMakesRoom(s: State, t: ConnId, u: UserId, id: RoomId) returns (s': State)
    requires Reachable(s) && AllFree(s) && s.rooms == map[] && s.objs == map[]
    requires t in s.threads && s.threads[t] == Ready(Idle, u)
    ensures Reachable(s') && AllFree(s') && s'.rooms == map[id := 0] && s'.objs == map[0 := Room(id, map[])]
    ensures s'.threads == s.threads[t := Ready(EmptyLook(id), u)]
  {
    var s1 := Begin(s, t, DoLeave(id));
    var s2 := Looks(s1, t, id, ToLeave, u);
    assert s2.threads[t] == Ready(Make(id, ToLeave, None), u);
    var s3 := Makes(s2, t, id, u);
    s' := Removes(s3, t, id, u);
    LastWins(s.threads, t, s1.threads[t], s2.threads[t]);
    LastWins(s.threads, t, s2.threads[t], s3.threads[t]);
    LastWins(s.threads, t, s3.threads[t], s'.threads[t]);
  }

  lemma JoinerObtains(s: State, j: ConnId, v: UserId, id: RoomId) returns (s': State)
    requires Reachable(s) && AllFree(s) && j in s.threads && s.threads[j] == Ready(Idle, v) && s.rooms == map[id := 0]
    ensures Reachable(s') && AllFree(s') && s'.rooms == s.rooms && s'.objs == s.objs
    ensures s'.threads == s.threads[j := Ready(Add(0), v)]
  {
    var s1 := Begin(s, j, DoJoin(id));
    assert s1.threads[j] == Ready(Look(id, ToJoin, None), v);
    s' := Looks(s1, j, id, ToJoin, v);
    LastWins(s.threads, j, s1.threads[j], Ready(Add(0), v));
  }

  lemma AnnLeavesBobJoins() returns (s: State)
    ensures Reachable(s) && AllFree(s) && s.rooms == map["lobby" := 0] && s.objs == map[0 := Room("lobby", map[])]
    ensures s.threads == map[1 := Ready(EmptyLook("lobby"), "ann"), 2 := Ready(Add(0), "bob")]
  {
    assert Orderly([]) && After([]) == INITIAL;
    var s1 := Login(INITIAL, 1, "ann");
    var s2 := Login(s1, 2, "bob");
    assert s2.threads == map[1 := Ready(Idle, "ann"), 2 := Ready(Idle, "bob")];
    s := LeaverAndJoinerMeet(s2, 1, 2, "ann", "bob", "lobby");
  }

  /** Main result: two connections and one room suffice; the situation of DropsMemberIff is reachable. */
  lemma JoinCanBeLost()
    ensures exists s, t, id, o, j :: Reachable(s) && JustCounted(s, t, id, o) && Joining(s, j, o) && CanDropMember(s, t, id)
  {
    var s := AnnLeavesBobJoins();
    var s' := CountsZero(s, 1, "lobby", "ann");
    assert JustCounted(s', 1, "lobby", 0) && Joining(s', 2, 0);
    ReachableCanDrop(s', 1, "lobby", 0, 2);
  }

  lemma ReachableCanDrop(s: State, t: ConnId, id: RoomId, o: Obj, j: ConnId)
    requires Reachable(s) && JustCounted(s, t, id, o) && Joining(s, j, o)
    ensures CanDropMember(s, t, id)
  {
    var run: seq<Move> :| Orderly(run) && After(run) == s;
    RunDisciplined(run);
    KeysAreIds(run);
    RunCounts(run);
    DropsMemberIff(s, t, id, o);
  }
}
