/**
  A rank for every operation under way: each of its own steps lowers it, and nothing another thread
  does can raise it. Quiescence.dfy concludes from this that operations end.
 */
module Progress {
  import opened Basics
  import opened LockStep
  import opened LockDiscipline

  /** Nobody else writes the room table while a thread is inside roomsMu. */
  lemma TableStable(s: State, t: ConnId, a: Action, holder: ConnId)
    requires Disciplined(s) && Possible(s, t, a) && holder in s.threads && holder != t
    requires Reads(s.threads[holder], RoomsMu) || Writes(s.threads[holder], RoomsMu)
    ensures RoomsAfter(s, t, a) == s.rooms
  {
    if t in s.threads {
      WritersAlone(s, t, RoomsMu);
    }
  }

  /** Nobody else writes a room's clients while a thread is inside its lock. */
  lemma RoomStable(s: State, t: ConnId, a: Action, holder: ConnId, o: Obj)
    requires Disciplined(s) && Possible(s, t, a) && holder in s.threads && holder != t
    requires Reads(s.threads[holder], RoomMu(o)) || Writes(s.threads[holder], RoomMu(o))
    ensures ClientsOf(Step(s, t, a), o) == ClientsOf(s, o)
  {
    if t in s.threads {
      WritersAlone(s, t, RoomMu(o));
    }
    assert ClientsOf(Step(s, t, a), o) == if o in ObjsAfter(s, t, a) then ObjsAfter(s, t, a)[o].clients else map[];
  }

  /** How much of its operation a thread has left, most significant part first. */
  datatype Rank = Rank(stage: nat, rooms: nat, task: nat, loop: nat, phase: nat)

  predicate Below(x: Rank, y: Rank) {
    if x.stage != y.stage then x.stage < y.stage
    else if x.rooms != y.rooms then x.rooms < y.rooms
    else if x.task != y.task then x.task < y.task
    else if x.loop != y.loop then x.loop < y.loop
    else x.phase < y.phase
  }

  function Stage(th: Thread): nat {
    match th.task
    case Scan(_) => if th.phase == Ask then 2 else 1
    case ScanRead(_, _, _) => 1
    case _ => 0
  }

  function TaskOrder(th: Thread): nat {
    match th.task
    case Look(_, _, _) => 12
    case Make(_, _, _) => 11
    case Remove(_, _) => 10
    case EmptyLook(_) => 9
    case EmptyCount(_, _, _) => 8
    case EmptyDelete(_, _) => 7
    case Add(_) => 6
    case Cast(_, _) => if th.phase == Ask then 6 else 5
    case Register(_, _) => 6
    case PushFind(_, _, _) => 5
    case Push(_, _) => 4
    case Find(_, _) => 4
    case Deliver(_) => 3
    case SweepNext => 2
    case Unregister => 1
    case Peek(_) => 1
    case _ => 0
  }

  function ClientKeys(objs: map<Obj, Room>, o: Obj): set<UserId> {
    if o in objs then objs[o].clients.Keys else {}
  }

  function LoopLeft(rooms: map<RoomId, Obj>, objs: map<Obj, Room>, th: Thread): nat {
    match th.task
    case Scan(visited) => if th.phase == Ask then 0 else 2 * |rooms.Keys - visited|
    case ScanRead(visited, id, _) => 2 * |rooms.Keys - (visited + {id})| + 1
    case Cast(o, visited) => if th.phase == Ask then 0 else |ClientKeys(objs, o) - visited|
    case Push(_, left) => left
    case _ => 0
  }

  function PhaseLeft(p: Phase): nat {
    match p
    case Ask => 3
    case Wait => 2
    case In => 1
    case Out => 0
  }

  function RankOf(rooms: map<RoomId, Obj>, objs: map<Obj, Room>, th: Thread): Rank {
    Rank(Stage(th), if Stage(th) == 0 then |th.mine| else 0, TaskOrder(th), LoopLeft(rooms, objs, th), PhaseLeft(th.phase))
  }

  predicate Loops(t: Task) {
    t.Scan? || t.ScanRead? || t.Cast?
  }

  lemma OneFewer<T>(all: set<T>, visited: set<T>, x: T)
    requires x in all && x !in visited
    ensures |all - (visited + {x})| + 1 == |all - visited|
  {
    assert all - visited == (all - (visited + {x})) + {x};
  }

  /** Getting further through a critical section. */
  lemma PhaseDescends(rooms: map<RoomId, Obj>, objs: map<Obj, Room>, th: Thread, p: Phase)
    requires PhaseLeft(p) < PhaseLeft(th.phase)
    ensures Below(RankOf(rooms, objs, th.(phase := p)), RankOf(rooms, objs, th))
  {
    var th' := th.(phase := p);
    if th.phase == Ask && th.task.Scan? {
      assert Stage(th') < Stage(th);
    } else if th.phase == Ask && th.task.Cast? {
      assert Stage(th') == Stage(th) && TaskOrder(th') < TaskOrder(th);
    } else {
      assert Stage(th') == Stage(th) && TaskOrder(th') == TaskOrder(th);
      assert LoopLeft(rooms, objs, th') == LoopLeft(rooms, objs, th);
    }
  }

  /** Going on to a later kind of task, outside the collecting loop. */
  lemma TaskDescends(th: Thread, th': Thread, rooms: map<RoomId, Obj>, objs: map<Obj, Room>,
                     rooms': map<RoomId, Obj>, objs': map<Obj, Room>)
    requires Stage(th) == Stage(th') == 0 && th'.mine == th.mine && TaskOrder(th') < TaskOrder(th)
    ensures Below(RankOf(rooms', objs', th'), RankOf(rooms, objs, th))
  {
  }

  /** Going into one more room leaves one room fewer to collect. */
  lemma ScanVisits(rooms: map<RoomId, Obj>, objs: map<Obj, Room>, th: Thread, id: RoomId, o: Obj)
    requires th.task.Scan? && th.phase == In && id in rooms && id !in th.task.visited
    ensures Below(RankOf(rooms, objs, th.(task := ScanRead(th.task.visited, id, o), phase := Ask)), RankOf(rooms, objs, th))
  {
    OneFewer(rooms.Keys, th.task.visited, id);
  }

  lemma ScanDescends(s: State, th: Thread, pick: Pick)
    requires BodyPossible(s, th, pick) && th.task.Scan?
    ensures Below(RankOf(s.rooms, s.objs, BodyThread(s, th, pick)), RankOf(s.rooms, s.objs, th))
  {
    if pick.InRoom? {
      ScanVisits(s.rooms, s.objs, th, pick.id, s.rooms[pick.id]);
    } else {
      PhaseDescends(s.rooms, s.objs, th, Out);
    }
  }

  /** One more client visited leaves one client fewer to visit. */
  lemma CastVisits(rooms: map<RoomId, Obj>, objs: map<Obj, Room>, th: Thread, u: UserId)
    requires th.task.Cast? && th.phase == In && u in ClientKeys(objs, th.task.o) && u !in th.task.visited
    ensures Below(RankOf(rooms, objs, th.(task := Cast(th.task.o, th.task.visited + {u}))), RankOf(rooms, objs, th))
  {
    OneFewer(ClientKeys(objs, th.task.o), th.task.visited, u);
  }

  lemma CastDescends(s: State, th: Thread, pick: Pick)
    requires BodyPossible(s, th, pick) && th.task.Cast?
    ensures Below(RankOf(s.rooms, s.objs, BodyThread(s, th, pick)), RankOf(s.rooms, s.objs, th))
  {
    if pick.User? {
      CastVisits(s.rooms, s.objs, th, pick.user);
    } else {
      PhaseDescends(s.rooms, s.objs, th, Out);
    }
  }

  lemma ScanReadDescends(s: State, th: Thread, pick: Pick)
    requires BodyPossible(s, th, pick) && th.task.ScanRead?
    ensures Below(RankOf(s.rooms, s.objs, BodyThread(s, th, pick)), RankOf(s.rooms, s.objs, th))
  {
  }

  /** A body outside the loops ends its critical section, or enters the nested one. */
  lemma PlainBodyThread(s: State, th: Thread, pick: Pick)
    requires BodyPossible(s, th, pick) && Shaped(th) && !Loops(th.task)
    ensures var th' := BodyThread(s, th, pick);
            && Stage(th') == Stage(th) == 0 && th'.mine == th.mine
            && (TaskOrder(th') < TaskOrder(th)
                || (TaskOrder(th') == TaskOrder(th) && th'.phase == Out && Loopless(th.task) && Loopless(th'.task)))
  {
  }

  predicate Loopless(t: Task) {
    !Loops(t) && !t.Push?
  }

  lemma SamePlace(th: Thread, th': Thread, rooms: map<RoomId, Obj>, objs: map<Obj, Room>,
                  rooms': map<RoomId, Obj>, objs': map<Obj, Room>)
    requires Stage(th) == Stage(th') == 0 && th'.mine == th.mine && TaskOrder(th') == TaskOrder(th)
    requires Loopless(th.task) && Loopless(th'.task) && PhaseLeft(th'.phase) < PhaseLeft(th.phase)
    ensures Below(RankOf(rooms', objs', th'), RankOf(rooms, objs, th))
  {
  }

  lemma PlainBodyDescends(s: State, th: Thread, pick: Pick, rooms: map<RoomId, Obj>, objs: map<Obj, Room>)
    requires BodyPossible(s, th, pick) && Shaped(th) && !Loops(th.task)
    ensures Below(RankOf(rooms, objs, BodyThread(s, th, pick)), RankOf(s.rooms, s.objs, th))
  {
    var th' := BodyThread(s, th, pick);
    PlainBodyThread(s, th, pick);
    if TaskOrder(th') < TaskOrder(th) {
      TaskDescends(th, th', s.rooms, s.objs, rooms, objs);
    } else {
      SamePlace(th, th', s.rooms, s.objs, rooms, objs);
    }
  }

  /** Leaving a room of the collecting loop, or the loop itself. */
  lemma ScanReleaseDescends(th: Thread, rooms: map<RoomId, Obj>, objs: map<Obj, Room>)
    requires th.phase == Out && (th.task.Scan? || th.task.ScanRead?)
    ensures Below(RankOf(rooms, objs, ReleaseThread(th)), RankOf(rooms, objs, th))
  {
    if th.task.ScanRead? {
      ScanReadReleases(th, rooms, objs);
    } else {
      assert Stage(ReleaseThread(th)) == 0 && Stage(th) == 1;
    }
  }

  lemma ScanReadReleases(th: Thread, rooms: map<RoomId, Obj>, objs: map<Obj, Room>)
    requires th.phase == Out && th.task.ScanRead?
    ensures Below(RankOf(rooms, objs, th.(task := Scan(th.task.visited + {th.task.id}), phase := In)), RankOf(rooms, objs, th))
  {
  }

  /** Leaving any other critical section goes on to a later kind of task. */
  lemma ReleaseDescends(th: Thread, rooms: map<RoomId, Obj>, objs: map<Obj, Room>)
    requires Shaped(th) && th.phase == Out && !th.task.Scan? && !th.task.ScanRead?
    ensures Below(RankOf(rooms, objs, ReleaseThread(th)), RankOf(rooms, objs, th))
  {
    ReleaseGoesOn(th);
    TaskDescends(th, ReleaseThread(th), rooms, objs, rooms, objs);
  }

  lemma ReleaseGoesOn(th: Thread)
    requires Shaped(th) && th.phase == Out && !th.task.Scan? && !th.task.ScanRead?
    ensures var th' := ReleaseThread(th);
            Stage(th) == Stage(th') == 0 && th'.mine == th.mine && TaskOrder(th') < TaskOrder(th)
  {
  }

  lemma FreeDescends(th: Thread, pick: Pick, rooms: map<RoomId, Obj>, objs: map<Obj, Room>)
    requires Shaped(th) && FreePossible(th, pick)
    ensures Below(RankOf(rooms, objs, FreeThread(th, pick)), RankOf(rooms, objs, th))
  {
  }

  lemma AcquireDescends(s: State, t: ConnId)
    requires t in s.threads && AcquirePossible(s, s.threads[t])
    ensures Below(RankOf(s.rooms, s.objs, ThreadAfter(s, t, Acquire)), RankOf(s.rooms, s.objs, s.threads[t]))
  {
    PhaseDescends(s.rooms, s.objs, s.threads[t], ThreadAfter(s, t, Acquire).phase);
  }

  /** Main result: every step of an operation brings it closer to its end. */
  lemma OwnStepDescends(s: State, t: ConnId, a: Action)
    requires Disciplined(s) && Possible(s, t, a) && OwnStep(a)
    ensures Below(RankOf(RoomsAfter(s, t, a), ObjsAfter(s, t, a), ThreadAfter(s, t, a)),
                  RankOf(s.rooms, s.objs, s.threads[t]))
  {
    var th := s.threads[t];
    match a
    case Acquire => AcquireDescends(s, t);
    case Body(pick) =>
      if th.task.Scan? {
        ScanDescends(s, th, pick);
      } else if th.task.Cast? {
        CastDescends(s, th, pick);
      } else if th.task.ScanRead? {
        ScanReadDescends(s, th, pick);
      } else {
        PlainBodyDescends(s, th, pick, RoomsAfter(s, t, a), ObjsAfter(s, t, a));
      }
    case Release =>
      if th.task.Scan? || th.task.ScanRead? {
        ScanReleaseDescends(th, s.rooms, s.objs);
      } else {
        ReleaseDescends(th, s.rooms, s.objs);
      }
    case Free(pick) => FreeDescends(th, pick, s.rooms, s.objs);
    case _ =>
  }

  /** The rank looks at the shared tables only while the thread is inside their locks. */
  lemma RankLooksInside(th: Thread, rooms: map<RoomId, Obj>, objs: map<Obj, Room>,
                        rooms': map<RoomId, Obj>, objs': map<Obj, Room>)
    requires (th.task.Scan? && th.phase != Ask) || th.task.ScanRead? ==> rooms'.Keys == rooms.Keys
    requires th.task.Cast? && th.phase != Ask ==> ClientKeys(objs', th.task.o) == ClientKeys(objs, th.task.o)
    ensures RankOf(rooms', objs', th) == RankOf(rooms, objs, th)
  {
  }

  lemma ClientsStable(s: State, t: ConnId, a: Action, holder: ConnId, o: Obj)
    requires Disciplined(s) && Possible(s, t, a) && holder in s.threads && holder != t
    requires Reads(s.threads[holder], RoomMu(o)) || Writes(s.threads[holder], RoomMu(o))
    ensures ClientKeys(ObjsAfter(s, t, a), o) == ClientKeys(s.objs, o)
  {
    RoomStable(s, t, a, holder, o);
    assert ClientKeys(ObjsAfter(s, t, a), o) == ClientsOf(Step(s, t, a), o).Keys;
  }

  /** Main result: no step of another thread sets an operation back. */
  lemma OthersKeepRank(s: State, t: ConnId, a: Action, other: ConnId)
    requires Disciplined(s) && Possible(s, t, a) && other in s.threads && other != t
    ensures RankOf(RoomsAfter(s, t, a), ObjsAfter(s, t, a), s.threads[other]) == RankOf(s.rooms, s.objs, s.threads[other])
  {
    var th := s.threads[other];
    if (th.task.Scan? && th.phase != Ask) || th.task.ScanRead? {
      TableStable(s, t, a, other);
    }
    if th.task.Cast? && th.phase != Ask {
      ClientsStable(s, t, a, other, th.task.o);
    }
    RankLooksInside(th, s.rooms, s.objs, RoomsAfter(s, t, a), ObjsAfter(s, t, a));
  }
}
