/**
  The room table at lock granularity: keys and objects agree, and concurrent calls of
  getOrCreateRoom agree on the object, whatever the other threads do to the rooms meanwhile.
 */
module RoomRegistry {
  import opened Basics
  import opened LockStep

  // ---- keys and objects -------------------------------------------------------------------

  predicate IsRoom(objs: map<Obj, Room>, o: Obj, id: RoomId) {
    o in objs && objs[o].id == id
  }

  ghost predicate TableSound(rooms: map<RoomId, Obj>, objs: map<Obj, Room>) {
    forall id :: id in rooms ==> IsRoom(objs, rooms[id], id)
  }

  /** The object a thread works on is the kind of object its program says. */
  predicate Refers(objs: map<Obj, Room>, th: Thread) {
    match th.task
    case Look(id, _, found) => found.Some? ==> IsRoom(objs, found.value, id)
    case Make(id, _, found) => found.Some? ==> IsRoom(objs, found.value, id)
    case Remove(o, id) => IsRoom(objs, o, id)
    case EmptyCount(id, o, _) => IsRoom(objs, o, id)
    case ScanRead(_, id, o) => IsRoom(objs, o, id)
    case Add(o) => o in objs
    case Cast(o, _) => o in objs
    case _ => true
  }

  ghost predicate Registered(s: State) {
    TableSound(s.rooms, s.objs) && forall t :: t in s.threads ==> Refers(s.objs, s.threads[t])
  }

  /** Objects are never freed and never change their id. */
  lemma ObjsPersist(s: State, t: ConnId, a: Action, o: Obj)
    requires Possible(s, t, a) && o in s.objs
    ensures o in ObjsAfter(s, t, a) && ObjsAfter(s, t, a)[o].id == s.objs[o].id
  {
  }

  lemma StepRefers(s: State, t: ConnId, a: Action)
    requires Registered(s) && Possible(s, t, a) && !a.WriterTakes?
    ensures Refers(ObjsAfter(s, t, a), ThreadAfter(s, t, a))
  {
    match a
    case Body(pick) => BodyRefers(s, t, pick);
    case Release => ReleaseRefers(s.objs, s.threads[t]);
    case _ =>
  }

  lemma BodyRefers(s: State, t: ConnId, pick: Pick)
    requires Registered(s) && Possible(s, t, Body(pick))
    ensures Refers(ObjsAfter(s, t, Body(pick)), BodyThread(s, s.threads[t], pick))
  {
  }

  lemma ReleaseRefers(objs: map<Obj, Room>, th: Thread)
    requires Refers(objs, th)
    ensures Refers(objs, ReleaseThread(th))
  {
  }

  lemma StepRegistered(s: State, t: ConnId, a: Action)
    requires Registered(s) && Possible(s, t, a)
    ensures Registered(Step(s, t, a))
  {
    var s' := Step(s, t, a);
    forall t' | t' in s'.threads
      ensures Refers(s'.objs, s'.threads[t'])
    {
      if t' == t && !a.WriterTakes? {
        StepRefers(s, t, a);
      } else {
        RefersPersists(s, t, a, s.threads[t']);
      }
    }
    forall id | id in s'.rooms
      ensures IsRoom(s'.objs, s'.rooms[id], id)
    {
      if id in s.rooms {
        ObjsPersist(s, t, a, s.rooms[id]);
      }
    }
  }

  lemma RefersPersists(s: State, t: ConnId, a: Action, th: Thread)
    requires Possible(s, t, a) && Refers(s.objs, th)
    ensures Refers(ObjsAfter(s, t, a), th)
  {
    forall o | o in s.objs
      ensures o in ObjsAfter(s, t, a) && ObjsAfter(s, t, a)[o].id == s.objs[o].id
    {
      ObjsPersist(s, t, a, o);
    }
  }

  /** Main result: every key is its object's own id, so distinct ids never share an object. */
  lemma {:induction false} KeysAreIds(run: seq<Move>)
    requires ValidRun(run)
    ensures Registered(After(run))
    ensures forall id :: id in After(run).rooms ==> IsRoom(After(run).objs, After(run).rooms[id], id)
    ensures forall i, j :: i in After(run).rooms && j in After(run).rooms && i != j ==> After(run).rooms[i] != After(run).rooms[j]
  {
    if run != [] {
      var n := |run| - 1;
      KeysAreIds(run[..n]);
      StepRegistered(After(run[..n]), run[n].t, run[n].a);
    }
  }

  // ---- agreement between calls --------------------------------------------------------------

  ghost predicate Moves(s: State, m: Move, s': State) {
    Possible(s, m.t, m.a) && s' == Step(s, m.t, m.a)
  }

  /** The states a run passes through, one more than it has moves. */
  ghost predicate Trace(run: seq<Move>, states: seq<State>) {
    && |states| == |run| + 1 && states[0] == INITIAL
    && forall i {:trigger run[i]} :: 0 <= i < |run| ==> Moves(states[i], run[i], states[i + 1])
  }

  /** Traces and runs are the same thing. */
  lemma {:induction false} EveryRunHasATrace(run: seq<Move>) returns (states: seq<State>)
    requires ValidRun(run)
    ensures Trace(run, states) && states[|run|] == After(run)
  {
    if run == [] {
      states := [INITIAL];
    } else {
      var n := |run| - 1;
      var pre := EveryRunHasATrace(run[..n]);
      states := pre + [After(run)];
      forall i | 0 <= i < |run|
        ensures Moves(states[i], run[i], states[i + 1])
      {
        if i < n {
          assert run[..n][i] == run[i];
        }
      }
    }
  }

  lemma {:induction false} TraceIsRun(run: seq<Move>, states: seq<State>)
    requires Trace(run, states)
    ensures ValidRun(run) && After(run) == states[|run|]
  {
    if run != [] {
      var n := |run| - 1;
      assert forall i :: 0 <= i < n ==> run[..n][i] == run[i];
      TraceIsRun(run[..n], states[..n + 1]);
      assert Moves(states[n], run[n], states[n + 1]);
    }
  }

  /** The thread is inside getOrCreateRoom(id), with what it has found so far. */
  predicate Calling(s: State, t: ConnId, id: RoomId) {
    t in s.threads && (s.threads[t].task.Look? || s.threads[t].task.Make?) && s.threads[t].task.id == id
  }

  predicate HasFound(s: State, t: ConnId, id: RoomId, found: Option<Obj>) {
    Calling(s, t, id) && s.threads[t].task.found == found
  }

  /** Thread `t` enters getOrCreateRoom(id) at moment `a` and at moment `b` is about to return `o`. */
  ghost predicate Call(states: seq<State>, t: ConnId, id: RoomId, o: Obj, a: nat, b: nat) {
    && a <= b < |states|
    && (forall i :: a <= i <= b ==> Calling(states[i], t, id))
    && HasFound(states[a], t, id, None)
    && HasFound(states[b], t, id, Some(o))
  }

  ghost predicate NeverDeleted(states: seq<State>, id: RoomId, lo: nat, hi: nat) {
    hi < |states| && forall i, j :: lo <= i <= j <= hi && j == i + 1 && id in states[i].rooms ==> id in states[j].rooms
  }

  /** A call obtains its result only by reading or writing the table. */
  lemma CallStep(s: State, m: Move, s': State, t: ConnId, id: RoomId, o: Obj)
    requires Moves(s, m, s') && Calling(s, t, id) && HasFound(s', t, id, Some(o))
    ensures HasFound(s, t, id, Some(o)) || Lookup(s.rooms, id) == Some(o) || Lookup(s'.rooms, id) == Some(o)
  {
  }

  lemma ObjectStep(s: State, m: Move, s': State, id: RoomId)
    requires Moves(s, m, s') && id in s.rooms && id in s'.rooms
    ensures s'.rooms[id] == s.rooms[id]
  {
  }

  /** Main result: the object a call returns was the registered one at some moment inside the call. */
  lemma {:induction false} RegisteredDuringCall(run: seq<Move>, states: seq<State>, t: ConnId, id: RoomId, o: Obj,
                                                a: nat, b: nat) returns (m: nat)
    requires Trace(run, states) && Call(states, t, id, o, a, b)
    ensures a <= m <= b && Lookup(states[m].rooms, id) == Some(o)
    decreases b
  {
    var c := b - 1;
    CallStep(states[c], run[c], states[b], t, id, o);
    if Lookup(states[c].rooms, id) == Some(o) {
      m := c;
    } else if Lookup(states[b].rooms, id) == Some(o) {
      m := b;
    } else {
      m := RegisteredDuringCall(run, states, t, id, o, a, c);
    }
  }

  /** A registered id keeps its object until it is deleted. */
  lemma {:induction false} KeepsObject(run: seq<Move>, states: seq<State>, id: RoomId, m: nat, n: nat)
    requires Trace(run, states) && m <= n && NeverDeleted(states, id, m, n) && id in states[m].rooms
    ensures id in states[n].rooms && states[n].rooms[id] == states[m].rooms[id]
    decreases n
  {
    if m < n {
      var c := n - 1;
      KeepsObject(run, states, id, m, c);
      assert id in states[n].rooms;
      ObjectStep(states[c], run[c], states[n], id);
    }
  }

  /** Main result: calls between which the id is not deleted return the same object, whoever makes them. */
  lemma CallsAgree(run: seq<Move>, states: seq<State>, id: RoomId,
                   t1: ConnId, o1: Obj, a1: nat, b1: nat, t2: ConnId, o2: Obj, a2: nat, b2: nat)
    requires Trace(run, states) && Call(states, t1, id, o1, a1, b1) && Call(states, t2, id, o2, a2, b2)
    requires NeverDeleted(states, id, if a1 < a2 then a1 else a2, if b1 < b2 then b2 else b1)
    ensures o1 == o2
  {
    var m1 := RegisteredDuringCall(run, states, t1, id, o1, a1, b1);
    var m2 := RegisteredDuringCall(run, states, t2, id, o2, a2, b2);
    if m1 <= m2 {
      KeepsObject(run, states, id, m1, m2);
    } else {
      KeepsObject(run, states, id, m2, m1);
    }
  }
}
