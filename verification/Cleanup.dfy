/**
  The disconnect cleanup at lock granularity. While no connection switches identity, a
  connection whose cleanup has finished is referred to by no registered room and no online
  entry, in every later state, even if rooms were deleted and re-created during its sweep.
 */
module Cleanup {
  import opened Basics
  import opened LockStep
  import opened LockDiscipline
  import opened Progress
  import opened RoomRegistry

  // ---- names ----------------------------------------------------------------------------

  /** A login that names the user this connection already is. */
  predicate KeepsName(s: State, t: ConnId, a: Action) {
    a.Start? && a.op.DoAuth? && t in s.threads ==> s.threads[t].me == None || s.threads[t].me == Some(a.op.user)
  }

  /** No identity switch: all logins of one connection name the same user. */
  ghost predicate NoSwitch(run: seq<Move>)
    requires ValidRun(run)
  {
    run == [] ||
    (var n := |run| - 1; NoSwitch(run[..n]) && KeepsName(After(run[..n]), run[n].t, run[n].a))
  }

  predicate IsNamed(threads: map<ConnId, Thread>, t: ConnId, user: UserId) {
    t in threads && threads[t].me == Some(user)
  }

  /** Wherever a connection is filed, it is filed under its own name. */
  ghost predicate FiledByName(threads: map<ConnId, Thread>, objs: map<Obj, Room>, online: map<UserId, ConnId>) {
    && (forall o, u :: o in objs && u in objs[o].clients ==> IsNamed(threads, objs[o].clients[u], u))
    && (forall u :: u in online ==> IsNamed(threads, online[u], u))
  }

  /** What a thread's task says about its name and about whether its connection has ended. */
  predicate Coherent(th: Thread) {
    && (th.ending && !th.task.Done? ==> th.me.Some?)
    && match th.task
       case Look(_, why, _) => th.ending == why.ToSweep?
       case Make(_, why, found) => th.ending == why.ToSweep? && (th.phase == Out ==> found.Some?)
       case Remove(_, _) => true
       case EmptyLook(_) => true
       case EmptyCount(_, _, _) => true
       case EmptyDelete(_, _) => true
       case Scan(_) => th.ending
       case ScanRead(_, _, _) => th.ending
       case SweepNext => th.ending
       case Unregister => th.ending
       case Done => th.ending
       case Register(u, _) => !th.ending && th.me == Some(u)
       case _ => !th.ending
  }

  ghost predicate Named(s: State) {
    FiledByName(s.threads, s.objs, s.online) && forall t :: t in s.threads ==> Coherent(s.threads[t])
  }

  lemma ThreadCoherent(s: State, t: ConnId, a: Action)
    requires Possible(s, t, a) && !a.WriterTakes? && (t in s.threads ==> Coherent(s.threads[t]) && Shaped(s.threads[t]))
    ensures Coherent(ThreadAfter(s, t, a))
  {
    match a
    case Start(op) => StartCoherent(s.threads[t], op);
    case Body(pick) => BodyCoherent(s, s.threads[t], pick);
    case Release => ReleaseCoherent(s.threads[t]);
    case _ =>
  }

  lemma StartCoherent(th: Thread, op: Op)
    requires StartPossible(th, op) && Coherent(th)
    ensures Coherent(StartThread(th, op))
  {
  }

  lemma BodyCoherent(s: State, th: Thread, pick: Pick)
    requires BodyPossible(s, th, pick) && Coherent(th)
    ensures Coherent(BodyThread(s, th, pick))
  {
  }

  lemma ReleaseCoherent(th: Thread)
    requires Coherent(th) && Shaped(th) && th.phase == Out
    ensures Coherent(ReleaseThread(th))
  {
  }

  /** A step leaves every name alone, but for a first login. */
  lemma NamesPersist(s: State, t: ConnId, a: Action, t': ConnId, user: UserId)
    requires Possible(s, t, a) && KeepsName(s, t, a) && IsNamed(s.threads, t', user)
    ensures IsNamed(Step(s, t, a).threads, t', user)
  {
    if t' == t && a.Body? {
      assert BodyThread(s, s.threads[t], a.pick).me == s.threads[t].me;
    }
  }

  lemma StepNamed(s: State, t: ConnId, a: Action)
    requires AllShaped(s) && Named(s) && Possible(s, t, a) && KeepsName(s, t, a)
    ensures Named(Step(s, t, a))
  {
    var s' := Step(s, t, a);
    StepFiled(s, t, a);
    forall t' | t' in s'.threads
      ensures Coherent(s'.threads[t'])
    {
      if t' == t && !a.WriterTakes? {
        ThreadCoherent(s, t, a);
      }
    }
  }

  /** New entries of a step are the stepping thread's own, under its own name. */
  lemma NewEntries(s: State, t: ConnId, a: Action, o: Obj, u: UserId)
    requires Possible(s, t, a) && o in ObjsAfter(s, t, a) && u in ObjsAfter(s, t, a)[o].clients
    ensures || (o in s.objs && u in s.objs[o].clients && ObjsAfter(s, t, a)[o].clients[u] == s.objs[o].clients[u])
            || (a.Body? && s.threads[t].task == Add(o) && s.threads[t].me == Some(u) && ObjsAfter(s, t, a)[o].clients[u] == t)
  {
  }

  lemma StepFiled(s: State, t: ConnId, a: Action)
    requires Named(s) && Possible(s, t, a) && KeepsName(s, t, a)
    ensures FiledByName(Step(s, t, a).threads, ObjsAfter(s, t, a), OnlineAfter(s, t, a))
  {
    var threads: map<ConnId, Thread> := Step(s, t, a).threads;
    var objs: map<Obj, Room> := ObjsAfter(s, t, a);
    var online: map<UserId, ConnId> := OnlineAfter(s, t, a);
    forall o: Obj, u: UserId | o in objs && u in objs[o].clients
      ensures IsNamed(threads, objs[o].clients[u], u)
    {
      NewEntries(s, t, a, o, u);
      assert IsNamed(s.threads, objs[o].clients[u], u);
      NamesPersist(s, t, a, objs[o].clients[u], u);
    }
    forall u: UserId | u in online
      ensures IsNamed(threads, online[u], u)
    {
      assert IsNamed(s.threads, online[u], u);
      NamesPersist(s, t, a, online[u], u);
    }
  }

  // ---- the sweep --------------------------------------------------------------------------

  /** The registered room `id` lists connection `t`. */
  predicate Leads(s: State, id: RoomId, t: ConnId) {
    && id in s.rooms && t in s.threads && s.threads[t].me.Some?
    && var u := s.threads[t].me.value;
       u in ClientsOf(s, s.rooms[id]) && ClientsOf(s, s.rooms[id])[u] == t
  }

  ghost predicate OnlyIn(s: State, t: ConnId, ids: set<RoomId>) {
    forall id :: Leads(s, id, t) ==> id in ids
  }

  ghost predicate Offline(s: State, t: ConnId) {
    forall u :: u in s.online ==> s.online[u] != t
  }

  /** How far the cleanup of a connection has got. */
  ghost predicate Swept(s: State, t: ConnId)
    requires t in s.threads
  {
    var th := s.threads[t];
    match th.task
    case Scan(visited) =>
      && (forall id :: id in visited && Leads(s, id, t) ==> id in th.mine)
      && (th.phase == Out ==> OnlyIn(s, t, th.mine))
    case ScanRead(visited, id0, o) =>
      && (forall id :: id in visited && Leads(s, id, t) ==> id in th.mine)
      && id0 in s.rooms && s.rooms[id0] == o
      && (th.phase == Out && Leads(s, id0, t) ==> id0 in th.mine)
    case SweepNext => OnlyIn(s, t, th.mine)
    case Look(id0, _, found) =>
      OnlyIn(s, t, th.mine + {id0}) && (th.phase == Out && Leads(s, id0, t) ==> found == Some(s.rooms[id0]))
    case Make(id0, _, found) =>
      OnlyIn(s, t, th.mine + {id0}) && (th.phase == Out && Leads(s, id0, t) ==> found == Some(s.rooms[id0]))
    case Remove(o, id0) =>
      && OnlyIn(s, t, th.mine + {id0})
      && (Leads(s, id0, t) ==> s.rooms[id0] == o)
      && (th.phase == Out ==> !Leads(s, id0, t))
    case EmptyLook(_) => OnlyIn(s, t, th.mine)
    case EmptyCount(_, _, _) => OnlyIn(s, t, th.mine)
    case EmptyDelete(_, _) => OnlyIn(s, t, th.mine)
    case Unregister => OnlyIn(s, t, {}) && (th.phase == Out ==> Offline(s, t))
    case Done => OnlyIn(s, t, {}) && Offline(s, t)
    case _ => true
  }

  ghost predicate AllSwept(s: State) {
    forall t :: t in s.threads && s.threads[t].ending ==> Swept(s, t)
  }

  /** Everything the sweep relies on. */
  ghost predicate Safe(s: State) {
    Disciplined(s) && Registered(s) && Named(s) && AllSwept(s)
  }

  /** A room that a step registers has no clients yet. */
  lemma NewRoomIsEmpty(s: State, t: ConnId, a: Action, id: RoomId)
    requires Possible(s, t, a) && id !in s.rooms && id in RoomsAfter(s, t, a)
    ensures ClientsOf(Step(s, t, a), RoomsAfter(s, t, a)[id]) == map[]
  {
  }

  /** Other threads may take a connection out of a room or drop the room, but never lead to it anew. */
  lemma LeadsOnlyFade(s: State, t: ConnId, a: Action, t': ConnId, id: RoomId)
    requires Possible(s, t, a) && Registered(s) && t' in s.threads && t' != t
    requires Leads(Step(s, t, a), id, t')
    ensures Leads(s, id, t') && Step(s, t, a).rooms[id] == s.rooms[id]
  {
    var o := RoomsAfter(s, t, a)[id];
    if id in s.rooms {
      assert o == s.rooms[id] && o in s.objs;
      NewEntries(s, t, a, o, s.threads[t'].me.value);
    } else {
      NewRoomIsEmpty(s, t, a, id);
    }
  }

  lemma OthersKeepSwept(s: State, t: ConnId, a: Action, t': ConnId)
    requires Safe(s) && Possible(s, t, a) && t' in s.threads && s.threads[t'].ending && (t' != t || a.WriterTakes?)
    ensures Swept(Step(s, t, a), t')
  {
    var s' := Step(s, t, a);
    forall id | Leads(s', id, t')
      ensures Leads(s, id, t') && s'.rooms[id] == s.rooms[id]
    {
      if a.WriterTakes? {
        assert s'.rooms == s.rooms && s'.objs == s.objs && s'.threads == s.threads;
      } else {
        LeadsOnlyFade(s, t, a, t', id);
      }
    }
    assert Offline(s, t') ==> Offline(s', t');
    if s.threads[t'].task.ScanRead? && !a.WriterTakes? {
      TableStable(s, t, a, t');
    }
  }

  /** A thread's own step leads nothing new to it, unless it is joining. */
  lemma OwnLeadsFade(s: State, t: ConnId, a: Action, id: RoomId)
    requires Possible(s, t, a) && Registered(s) && t in s.threads && !a.Start? && !s.threads[t].task.Add?
    requires Leads(Step(s, t, a), id, t)
    ensures Leads(s, id, t) && RoomsAfter(s, t, a)[id] == s.rooms[id]
  {
    if id in s.rooms {
      var o := RoomsAfter(s, t, a)[id];
      var u := Step(s, t, a).threads[t].me.value;
      assert o == s.rooms[id] && s.threads[t].me == Some(u);
      NewEntries(s, t, a, o, u);
    } else {
      NewRoomIsEmpty(s, t, a, id);
    }
  }

  lemma StartSwept(s: State, t: ConnId, op: Op)
    requires Safe(s) && Possible(s, t, Start(op)) && StartThread(s.threads[t], op).ending
    ensures Swept(Step(s, t, Start(op)), t)
  {
    var s' := Step(s, t, Start(op));
    if s.threads[t].me == None {
      assert s'.threads[t].me == None;
      forall u | u in s'.online
        ensures s'.online[u] != t
      {
        assert IsNamed(s.threads, s.online[u], u);
      }
    }
  }

  lemma AcquireSwept(s: State, t: ConnId)
    requires Safe(s) && Possible(s, t, Acquire) && s.threads[t].ending
    ensures Swept(Step(s, t, Acquire), t)
  {
    var s' := Step(s, t, Acquire);
    assert forall id :: Leads(s', id, t) <==> Leads(s, id, t);
    assert Swept(s, t);
  }

  lemma FreeSwept(s: State, t: ConnId, pick: Pick)
    requires Safe(s) && Possible(s, t, Free(pick)) && s.threads[t].ending
    ensures Swept(Step(s, t, Free(pick)), t)
  {
    var s' := Step(s, t, Free(pick));
    assert Swept(s, t);
    forall id | Leads(s', id, t)
      ensures Leads(s, id, t)
    {
      OwnLeadsFade(s, t, Free(pick), id);
    }
  }

  lemma ReleaseLeadsFade(s: State, t: ConnId, id: RoomId)
    requires Safe(s) && Possible(s, t, Release) && s.threads[t].ending && Leads(Step(s, t, Release), id, t)
    ensures Leads(s, id, t)
  {
    OwnLeadsFade(s, t, Release, id);
  }

  lemma ScanReleaseSwept(s: State, t: ConnId)
    requires Safe(s) && Possible(s, t, Release) && s.threads[t].ending
    requires s.threads[t].task.Scan? || s.threads[t].task.ScanRead?
    ensures Swept(Step(s, t, Release), t)
  {
    var s' := Step(s, t, Release);
    assert Swept(s, t);
    forall id | Leads(s', id, t)
      ensures Leads(s, id, t)
    {
      ReleaseLeadsFade(s, t, id);
    }
  }

  /** getOrCreateRoom returns to the sweep, or goes on to its second look. */
  lemma CallReleaseSwept(s: State, t: ConnId)
    requires Safe(s) && Possible(s, t, Release) && s.threads[t].ending
    requires s.threads[t].task.Look? || s.threads[t].task.Make?
    ensures Swept(Step(s, t, Release), t)
  {
    var s', th := Step(s, t, Release), s.threads[t];
    assert Swept(s, t) && Coherent(th);
    assert s'.threads[t] == ReleaseThread(th);
    forall id | Leads(s', id, t)
      ensures Leads(s, id, t)
    {
      ReleaseLeadsFade(s, t, id);
    }
  }

  lemma ReleaseSwept(s: State, t: ConnId)
    requires Safe(s) && Possible(s, t, Release) && s.threads[t].ending
    requires !s.threads[t].task.Scan? && !s.threads[t].task.ScanRead?
    requires !s.threads[t].task.Look? && !s.threads[t].task.Make?
    ensures Swept(Step(s, t, Release), t)
  {
    var s', th := Step(s, t, Release), s.threads[t];
    assert Swept(s, t) && Coherent(th);
    assert s'.online == s.online && s'.threads[t] == ReleaseThread(th);
    forall id | Leads(s', id, t)
      ensures Leads(s, id, t)
    {
      ReleaseLeadsFade(s, t, id);
    }
  }

  lemma ScanSwept(s: State, t: ConnId, pick: Pick)
    requires Safe(s) && Possible(s, t, Body(pick)) && s.threads[t].ending
    requires s.threads[t].task.Scan? || s.threads[t].task.ScanRead?
    ensures Swept(Step(s, t, Body(pick)), t)
  {
    var s' := Step(s, t, Body(pick));
    assert Swept(s, t) && Coherent(s.threads[t]);
    assert s'.rooms == s.rooms;
    forall id | Leads(s', id, t)
      ensures Leads(s, id, t)
    {
      OwnLeadsFade(s, t, Body(pick), id);
    }
  }

  lemma BodySwept(s: State, t: ConnId, pick: Pick)
    requires Safe(s) && Possible(s, t, Body(pick)) && s.threads[t].ending
    requires !s.threads[t].task.Scan? && !s.threads[t].task.ScanRead? && !s.threads[t].task.Unregister?
    ensures Swept(Step(s, t, Body(pick)), t)
  {
    var s', th := Step(s, t, Body(pick)), s.threads[t];
    assert Swept(s, t) && Coherent(th);
    forall id | Leads(s', id, t)
      ensures Leads(s, id, t) && s'.rooms[id] == s.rooms[id]
    {
      OwnLeadsFade(s, t, Body(pick), id);
    }
    if th.task.Remove? {
      RemoveTakesOut(s, t);
    }
  }

  lemma RemoveTakesOut(s: State, t: ConnId)
    requires Safe(s) && Possible(s, t, Body(Nothing)) && s.threads[t].ending && s.threads[t].task.Remove?
    ensures !Leads(Step(s, t, Body(Nothing)), s.threads[t].task.id, t)
  {
    var s', th := Step(s, t, Body(Nothing)), s.threads[t];
    assert Swept(s, t) && Coherent(th);
    assert th.me.value !in ClientsOf(s', th.task.o);
    if Leads(s', th.task.id, t) {
      OwnLeadsFade(s, t, Body(Nothing), th.task.id);
      assert false;
    }
  }

  lemma UnregisterSwept(s: State, t: ConnId, pick: Pick)
    requires Safe(s) && Possible(s, t, Body(pick)) && s.threads[t].ending && s.threads[t].task.Unregister?
    ensures Swept(Step(s, t, Body(pick)), t)
  {
    var s', th := Step(s, t, Body(pick)), s.threads[t];
    assert Swept(s, t) && Coherent(th);
    forall id | Leads(s', id, t)
      ensures false
    {
      OwnLeadsFade(s, t, Body(pick), id);
    }
    forall u | u in s'.online
      ensures s'.online[u] != t
    {
      assert IsNamed(s.threads, s.online[u], u);
    }
  }

  lemma OwnStepSwept(s: State, t: ConnId, a: Action)
    requires Safe(s) && Possible(s, t, a) && !a.WriterTakes? && ThreadAfter(s, t, a).ending
    ensures Swept(Step(s, t, a), t)
  {
    match a
    case Start(op) => StartSwept(s, t, op);
    case Acquire => AcquireSwept(s, t);
    case Release =>
      if s.threads[t].task.Scan? || s.threads[t].task.ScanRead? {
        ScanReleaseSwept(s, t);
      } else if s.threads[t].task.Look? || s.threads[t].task.Make? {
        CallReleaseSwept(s, t);
      } else {
        ReleaseSwept(s, t);
      }
    case Free(pick) => FreeSwept(s, t, pick);
    case Body(pick) =>
      if s.threads[t].task.Scan? || s.threads[t].task.ScanRead? {
        ScanSwept(s, t, pick);
      } else if s.threads[t].task.Unregister? {
        UnregisterSwept(s, t, pick);
      } else {
        BodySwept(s, t, pick);
      }
    case _ =>
  }

  lemma StepSafe(s: State, t: ConnId, a: Action)
    requires Safe(s) && Possible(s, t, a) && KeepsName(s, t, a)
    ensures Safe(Step(s, t, a))
  {
    var s' := Step(s, t, a);
    StepDisciplined(s, t, a);
    StepRegistered(s, t, a);
    StepNamed(s, t, a);
    forall t' | t' in s'.threads && s'.threads[t'].ending
      ensures Swept(s', t')
    {
      if t' == t && !a.WriterTakes? {
        OwnStepSwept(s, t, a);
      } else {
        OthersKeepSwept(s, t, a, t');
      }
    }
  }

  lemma {:induction false} RunSafe(run: seq<Move>)
    requires ValidRun(run) && NoSwitch(run)
    ensures Safe(After(run))
  {
    if run == [] {
      RunDisciplined(run);
    } else {
      var n := |run| - 1;
      RunSafe(run[..n]);
      StepSafe(After(run[..n]), run[n].t, run[n].a);
    }
  }

  lemma FiledLeads(s: State, t: ConnId, id: RoomId, u: UserId)
    requires Named(s) && id in s.rooms && u in ClientsOf(s, s.rooms[id]) && ClientsOf(s, s.rooms[id])[u] == t
    ensures Leads(s, id, t)
  {
    assert IsNamed(s.threads, t, u);
  }

  /** No registered room and no online entry refers to the connection. */
  ghost predicate NothingLeadsTo(s: State, t: ConnId) {
    && (forall id, u :: id in s.rooms && u in ClientsOf(s, s.rooms[id]) ==> ClientsOf(s, s.rooms[id])[u] != t)
    && (forall u :: u in s.online ==> s.online[u] != t)
  }

  lemma DoneIsUnreachable(s: State, t: ConnId)
    requires Safe(s) && t in s.threads && s.threads[t].task.Done?
    ensures NothingLeadsTo(s, t)
  {
    assert Swept(s, t);
    forall id: RoomId, u: UserId | id in s.rooms && u in ClientsOf(s, s.rooms[id])
      ensures ClientsOf(s, s.rooms[id])[u] != t
    {
      if ClientsOf(s, s.rooms[id])[u] == t {
        FiledLeads(s, t, id, u);
      }
    }
  }

  /**
    Main result: in every state in which a connection's cleanup has finished, hence in every later
    one too, no registered room and no online entry refers to that connection.
   */
  lemma UnreachableAfterCleanup(run: seq<Move>, t: ConnId)
    requires ValidRun(run) && NoSwitch(run)
    requires t in After(run).threads && After(run).threads[t].task.Done?
    ensures NothingLeadsTo(After(run), t)
  {
    RunSafe(run);
    DoneIsUnreachable(After(run), t);
  }

  /** Once done, a connection stays done. */
  lemma DoneForever(s: State, t: ConnId, a: Action, t': ConnId)
    requires Possible(s, t, a) && Disciplined(s) && t' in s.threads && s.threads[t'].task.Done?
    ensures t' in Step(s, t, a).threads && Step(s, t, a).threads[t'] == s.threads[t']
  {
    assert Target(s.threads[t'].task) == None && s.threads[t'].phase == Ask;
  }
}
