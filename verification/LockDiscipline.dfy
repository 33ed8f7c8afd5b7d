/**
  The locking discipline: what the locks say is what the threads are doing, writers exclude
  everyone else, and no interleaving of any number of threads deadlocks.
 */
module LockDiscipline {
  import opened Basics
  import opened LockStep

  /** The thread has announced itself as a writer of `l`, whether or not it is in already. */
  predicate Claims(th: Thread, l: Lock) {
    || Base(th.task) == Some(Hold(l, Write))
    || (Target(th.task) == Some(Hold(l, Write)) && th.phase != Ask)
  }

  /** The thread is inside `l` as a reader. */
  predicate Reads(th: Thread, l: Lock) {
    || Base(th.task) == Some(Hold(l, Read))
    || (Target(th.task) == Some(Hold(l, Read)) && (th.phase == In || th.phase == Out))
  }

  /** The thread is inside `l` as its writer. */
  predicate Writes(th: Thread, l: Lock) {
    || Base(th.task) == Some(Hold(l, Write))
    || (Target(th.task) == Some(Hold(l, Write)) && (th.phase == In || th.phase == Out))
  }

  predicate Shaped(th: Thread) {
    && (Target(th.task) == None ==> th.phase == Ask)
    && (th.phase == Wait ==> Target(th.task).Some? && Target(th.task).value.mode == Write)
    && (th.task.EmptyDelete? ==> th.phase == In || th.phase == Out)
    && (th.task.Peek? ==> th.task.lock == RoomsMu || th.task.lock == OnlineMu)
  }

  ghost predicate AllShaped(s: State) {
    forall t :: t in s.threads ==> Shaped(s.threads[t])
  }

  ghost predicate WriterMirrors(s: State) {
    forall l, t :: LockOf(s, l).writer == Some(t) <==> t in s.threads && Claims(s.threads[t], l)
  }

  ghost predicate ReadersMirror(s: State) {
    forall l, t :: t in LockOf(s, l).readers <==> t in s.threads && Reads(s.threads[t], l)
  }

  ghost predicate WritersExclude(s: State) {
    forall l, t :: t in s.threads && Writes(s.threads[t], l) ==> LockOf(s, l).readers == {}
  }

  /** The locks mirror the threads. */
  ghost predicate LocksMirror(s: State) {
    WriterMirrors(s) && ReadersMirror(s) && WritersExclude(s)
  }

  ghost predicate Disciplined(s: State) {
    AllShaped(s) && LocksMirror(s)
  }

  /** What a step that touches no lock leaves as it was. */
  ghost predicate SameHolds(a: Thread, b: Thread) {
    forall l :: (Claims(a, l) <==> Claims(b, l)) && (Reads(a, l) <==> Reads(b, l)) && (Writes(a, l) <==> Writes(b, l))
  }

  lemma StartHolds(th: Thread, op: Op)
    requires StartPossible(th, op) && Shaped(th)
    ensures Shaped(StartThread(th, op)) && SameHolds(th, StartThread(th, op))
  {
  }

  lemma BodyHolds(s: State, th: Thread, pick: Pick)
    requires BodyPossible(s, th, pick) && Shaped(th)
    ensures Shaped(BodyThread(s, th, pick)) && SameHolds(th, BodyThread(s, th, pick))
  {
  }

  lemma FreeHolds(th: Thread, pick: Pick)
    requires FreePossible(th, pick) && Shaped(th)
    ensures Shaped(FreeThread(th, pick)) && SameHolds(th, FreeThread(th, pick))
  {
  }

  lemma QuietStep(s: State, t: ConnId, a: Action)
    requires Possible(s, t, a) && (a.Start? || a.Body? || a.Free?) && Shaped(s.threads[t])
    ensures Shaped(ThreadAfter(s, t, a)) && SameHolds(s.threads[t], ThreadAfter(s, t, a))
  {
    match a
    case Start(op) => StartHolds(s.threads[t], op);
    case Body(pick) => BodyHolds(s, s.threads[t], pick);
    case Free(pick) => FreeHolds(s.threads[t], pick);
  }

  lemma QuietKeepsDiscipline(s: State, t: ConnId, th: Thread)
    requires Disciplined(s) && t in s.threads && Shaped(th) && SameHolds(s.threads[t], th)
    ensures Disciplined(s.(threads := s.threads[t := th]))
  {
    var s' := s.(threads := s.threads[t := th]);
    assert forall l :: LockOf(s', l) == LockOf(s, l);
  }

  /** Taking a lock adds exactly the hold asked for: a reader is in, a writer is announced. */
  ghost predicate Gains(a: Thread, b: Thread, l0: Lock, mode: Mode) {
    forall l ::
      && (Claims(b, l) <==> Claims(a, l) || (l == l0 && mode == Write))
      && (Reads(b, l) <==> Reads(a, l) || (l == l0 && mode == Read))
      && (Writes(b, l) <==> Writes(a, l))
  }

  ghost function Entered(s: State, t: ConnId, l0: Lock, mode: Mode, th': Thread): State {
    s.(threads := s.threads[t := th'], locks := s.locks[l0 := Granted(LockOf(s, l0), mode, t)])
  }

  lemma EnteredWriter(s: State, t: ConnId, l0: Lock, mode: Mode, th': Thread)
    requires WriterMirrors(s) && t in s.threads && Gains(s.threads[t], th', l0, mode) && LockOf(s, l0).writer == None
    ensures WriterMirrors(Entered(s, t, l0, mode, th'))
  {
    var s' := Entered(s, t, l0, mode, th');
    forall l, t'
      ensures LockOf(s', l).writer == Some(t') <==> t' in s'.threads && Claims(s'.threads[t'], l)
    {
      assert LockOf(s', l).writer == if l == l0 && mode == Write then Some(t) else LockOf(s, l).writer;
      assert LockOf(s, l).writer == Some(t') <==> t' in s.threads && Claims(s.threads[t'], l);
    }
  }

  lemma EnteredReaders(s: State, t: ConnId, l0: Lock, mode: Mode, th': Thread)
    requires ReadersMirror(s) && t in s.threads && Gains(s.threads[t], th', l0, mode)
    ensures ReadersMirror(Entered(s, t, l0, mode, th'))
  {
    var s' := Entered(s, t, l0, mode, th');
    forall l, t'
      ensures t' in LockOf(s', l).readers <==> t' in s'.threads && Reads(s'.threads[t'], l)
    {
      assert LockOf(s', l).readers == LockOf(s, l).readers + if l == l0 && mode == Read then {t} else {};
      assert t' in LockOf(s, l).readers <==> t' in s.threads && Reads(s.threads[t'], l);
    }
  }

  lemma EntersMirror(s: State, t: ConnId, l0: Lock, mode: Mode, th': Thread)
    requires Disciplined(s) && t in s.threads && Shaped(th') && Gains(s.threads[t], th', l0, mode)
    requires LockOf(s, l0).writer == None
    ensures Disciplined(Entered(s, t, l0, mode, th'))
  {
    var s' := Entered(s, t, l0, mode, th');
    EnteredWriter(s, t, l0, mode, th');
    EnteredReaders(s, t, l0, mode, th');
    forall l, t' | t' in s'.threads && Writes(s'.threads[t'], l)
      ensures LockOf(s', l).readers == {}
    {
      assert Writes(s.threads[t'], l);
      assert LockOf(s, l).writer == Some(t') by {
        assert Claims(s.threads[t'], l);
      }
    }
  }

  /** Entering as a reader, or announcing a write: nobody else has announced one. */
  lemma Enters(s: State, t: ConnId)
    requires Disciplined(s) && Possible(s, t, Acquire) && s.threads[t].phase == Ask
    ensures Disciplined(Step(s, t, Acquire))
  {
    var hold := Target(s.threads[t].task).value;
    EntersMirror(s, t, hold.lock, hold.mode, ThreadAfter(s, t, Acquire));
    assert Step(s, t, Acquire) == Entered(s, t, hold.lock, hold.mode, ThreadAfter(s, t, Acquire));
  }

  /** Entering as the announced writer: the readers are gone. */
  lemma WriterEnters(s: State, t: ConnId)
    requires Disciplined(s) && Possible(s, t, Acquire) && s.threads[t].phase == Wait
    ensures Disciplined(Step(s, t, Acquire))
  {
    var s' := Step(s, t, Acquire);
    assert forall l :: LockOf(s', l) == LockOf(s, l);
  }

  /** Releasing gives up exactly the target lock. */
  ghost predicate GivesUp(a: Thread, b: Thread, l0: Lock) {
    forall l ::
      && (Claims(b, l) <==> l != l0 && Claims(a, l))
      && (Reads(b, l) <==> l != l0 && Reads(a, l))
      && (Writes(b, l) <==> l != l0 && Writes(a, l))
  }

  lemma ReleaseGivesUp(th: Thread)
    requires Shaped(th) && th.phase == Out
    ensures Target(th.task).Some? && Shaped(ReleaseThread(th))
    ensures GivesUp(th, ReleaseThread(th), Target(th.task).value.lock)
  {
  }

  lemma Leaves(s: State, t: ConnId)
    requires Disciplined(s) && Possible(s, t, Release)
    ensures Disciplined(Step(s, t, Release))
  {
    ReleaseGivesUp(s.threads[t]);
    var hold := Target(s.threads[t].task).value;
    LeavesMirror(s, t, hold.lock, hold.mode, ReleaseThread(s.threads[t]));
    var s' := s.(threads := s.threads[t := ReleaseThread(s.threads[t])],
                 locks := s.locks[hold.lock := Returned(LockOf(s, hold.lock), hold.mode, t)]);
    assert Step(s, t, Release) == s';
  }

  lemma LeavesMirror(s: State, t: ConnId, l0: Lock, mode: Mode, th': Thread)
    requires Disciplined(s) && t in s.threads && Shaped(th') && GivesUp(s.threads[t], th', l0)
    requires mode == Write ==> Writes(s.threads[t], l0) && !Reads(s.threads[t], l0)
    requires mode == Read ==> Reads(s.threads[t], l0) && !Claims(s.threads[t], l0)
    ensures Disciplined(s.(threads := s.threads[t := th'], locks := s.locks[l0 := Returned(LockOf(s, l0), mode, t)]))
  {
    var s' := s.(threads := s.threads[t := th'], locks := s.locks[l0 := Returned(LockOf(s, l0), mode, t)]);
    assert forall l :: l != l0 ==> LockOf(s', l) == LockOf(s, l);
    WritersAlone(s, t, l0);
    assert LockOf(s', l0) == Returned(LockOf(s, l0), mode, t);
    assert forall t' :: t' in s.threads && Writes(s.threads[t'], l0) ==> Claims(s.threads[t'], l0);
  }

  /** A writer shares its lock with nobody. */
  lemma WritersAlone(s: State, t: ConnId, l: Lock)
    requires Disciplined(s) && t in s.threads
    ensures Writes(s.threads[t], l) ==>
              forall t' :: t' in s.threads && t' != t ==> !Claims(s.threads[t'], l) && !Reads(s.threads[t'], l)
  {
    if Writes(s.threads[t], l) {
      assert LockOf(s, l).writer == Some(t);
      forall t' | t' in s.threads && t' != t
        ensures !Claims(s.threads[t'], l) && !Reads(s.threads[t'], l)
      {
        assert LockOf(s, l).writer == Some(t') <==> Claims(s.threads[t'], l);
        assert t' !in LockOf(s, l).readers;
      }
    }
  }

  lemma SpawnKeepsDiscipline(s: State, t: ConnId)
    requires Disciplined(s) && Possible(s, t, Spawn)
    ensures Disciplined(Step(s, t, Spawn))
  {
    var s', th := Step(s, t, Spawn), ThreadAfter(s, t, Spawn);
    assert forall l :: LockOf(s', l) == LockOf(s, l);
    assert forall l :: !Claims(th, l) && !Reads(th, l) && !Writes(th, l);
  }

  lemma SameLocks(s: State, s': State)
    requires Disciplined(s) && s'.threads == s.threads && s'.locks == s.locks
    ensures Disciplined(s')
  {
    assert forall l :: LockOf(s', l) == LockOf(s, l);
  }

  lemma QuietDisciplined(s: State, t: ConnId, a: Action)
    requires Disciplined(s) && Possible(s, t, a) && (a.Start? || a.Body? || a.Free?)
    ensures Disciplined(Step(s, t, a))
  {
    QuietStep(s, t, a);
    QuietKeepsDiscipline(s, t, ThreadAfter(s, t, a));
    SameLocks(s.(threads := s.threads[t := ThreadAfter(s, t, a)]), Step(s, t, a));
  }

  lemma StepDisciplined(s: State, t: ConnId, a: Action)
    requires Disciplined(s) && Possible(s, t, a)
    ensures Disciplined(Step(s, t, a))
  {
    match a
    case Spawn => SpawnKeepsDiscipline(s, t);
    case Acquire =>
      if s.threads[t].phase == Wait {
        WriterEnters(s, t);
      } else {
        Enters(s, t);
      }
    case Release => Leaves(s, t);
    case WriterTakes => SameLocks(s, Step(s, t, a));
    case _ => QuietDisciplined(s, t, a);
  }

  lemma {:induction false} RunDisciplined(run: seq<Move>)
    requires ValidRun(run)
    ensures Disciplined(After(run))
  {
    if run == [] {
      assert forall l :: LockOf(INITIAL, l) == RW(None, {});
    } else {
      var n := |run| - 1;
      RunDisciplined(run[..n]);
      StepDisciplined(After(run[..n]), run[n].t, run[n].a);
    }
  }

  // ---- deadlock freedom ---------------------------------------------------------------------

  /** In the middle of an operation. */
  predicate Busy(th: Thread) {
    !th.task.Idle? && !th.task.Done?
  }

  /** A step of the operation itself, not the arrival of a new frame. */
  predicate OwnStep(a: Action) {
    a.Acquire? || a.Body? || a.Release? || a.Free?
  }

  ghost predicate CanMove(s: State, t: ConnId) {
    exists a :: OwnStep(a) && Possible(s, t, a)
  }

  /** `b` keeps `t` out of the lock it asks for. */
  predicate Blocks(s: State, b: ConnId, t: ConnId) {
    && b in s.threads && t in s.threads && b != t && Target(s.threads[t].task).Some?
    && var l := Target(s.threads[t].task).value.lock;
       Claims(s.threads[b], l) || Reads(s.threads[b], l)
  }

  /** Following at most `n` links of who waits for whom from `t` leads to a thread that can move. */
  ghost predicate Resolves(s: State, t: ConnId, n: nat)
    decreases n
  {
    CanMove(s, t) || (n > 0 && exists b :: Blocks(s, b, t) && Resolves(s, b, n - 1))
  }

  lemma {:induction false} ResolvesLonger(s: State, t: ConnId, n: nat)
    requires Resolves(s, t, n)
    ensures Resolves(s, t, n + 1)
    decreases n
  {
    if !CanMove(s, t) {
      var b :| Blocks(s, b, t) && Resolves(s, b, n - 1);
      ResolvesLonger(s, b, n - 1);
    }
  }

  /** Some address is not in use. */
  lemma FreshAddress(objs: map<Obj, Room>) returns (o: Obj)
    ensures o !in objs
  {
    o := Above(objs.Keys);
  }

  /** Inside a critical section, or between two, a thread never waits. */
  lemma InsideCanMove(s: State, t: ConnId)
    requires t in s.threads && Shaped(s.threads[t]) && Busy(s.threads[t])
    requires s.threads[t].phase == In || s.threads[t].phase == Out || Target(s.threads[t].task) == None
    ensures CanMove(s, t)
  {
    var th := s.threads[t];
    if th.phase == Out {
      assert Possible(s, t, Release);
    } else if th.phase == In {
      var pick := BodyChoice(s, th);
      assert Possible(s, t, Body(pick));
    } else {
      var pick := if th.task.SweepNext? && th.mine != {} then (var id :| id in th.mine; InRoom(id)) else Nothing;
      assert Possible(s, t, Free(pick));
    }
  }

  lemma BodyChoice(s: State, th: Thread) returns (pick: Pick)
    requires th.phase == In
    ensures BodyPossible(s, th, pick)
  {
    pick := Nothing;
    match th.task
    case Make(id, _, _) =>
      if id !in s.rooms {
        var o := FreshAddress(s.objs);
        pick := Fresh(o);
      }
    case Cast(o, visited) =>
      if !(ClientsOf(s, o).Keys <= visited) {
        var u :| u in ClientsOf(s, o) && u !in visited;
        pick := User(u);
      }
    case Scan(visited) =>
      if !(s.rooms.Keys <= visited) {
        var id :| id in s.rooms && id !in visited;
        pick := InRoom(id);
      }
    case _ =>
  }

  predicate IsLeaf(l: Lock) {
    l != RoomsMu
  }

  /** Nobody inside a room lock or the online lock asks for anything else. */
  lemma LeafHolderCanMove(s: State, t: ConnId, l: Lock)
    requires Disciplined(s) && t in s.threads && IsLeaf(l)
    requires Reads(s.threads[t], l) || Writes(s.threads[t], l)
    ensures CanMove(s, t)
  {
    InsideCanMove(s, t);
  }

  lemma WriterWaits(s: State, t: ConnId, n: nat)
    requires Disciplined(s) && t in s.threads && s.threads[t].phase == Wait
    requires forall r :: r in LockOf(s, Target(s.threads[t].task).value.lock).readers ==> Resolves(s, r, n)
    ensures Resolves(s, t, n + 1)
  {
    var l := Target(s.threads[t].task).value.lock;
    if r :| r in LockOf(s, l).readers {
      assert Reads(s.threads[r], l);
      assert Blocks(s, r, t);
    } else {
      assert Possible(s, t, Acquire);
    }
  }

  lemma Asks(s: State, t: ConnId, n: nat)
    requires Disciplined(s) && t in s.threads && s.threads[t].phase == Ask && Target(s.threads[t].task).Some?
    requires var w := LockOf(s, Target(s.threads[t].task).value.lock).writer; w.Some? ==> Resolves(s, w.value, n)
    ensures Resolves(s, t, n + 1)
  {
    var l := Target(s.threads[t].task).value.lock;
    var w := LockOf(s, l).writer;
    if w == None {
      assert Possible(s, t, Acquire);
    } else {
      assert Claims(s.threads[w.value], l);
      assert Blocks(s, w.value, t);
    }
  }

  lemma LeafClaimResolves(s: State, t: ConnId, l: Lock)
    requires Disciplined(s) && t in s.threads && IsLeaf(l) && Claims(s.threads[t], l)
    ensures Resolves(s, t, 1)
  {
    if s.threads[t].phase == Wait {
      forall r | r in LockOf(s, l).readers
        ensures Resolves(s, r, 0)
      {
        LeafHolderCanMove(s, r, l);
      }
      WriterWaits(s, t, 0);
    } else {
      LeafHolderCanMove(s, t, l);
    }
  }

  lemma LeafResolves(s: State, t: ConnId)
    requires Disciplined(s) && t in s.threads
    requires Target(s.threads[t].task).Some? && IsLeaf(Target(s.threads[t].task).value.lock)
    ensures Resolves(s, t, 2)
  {
    var th := s.threads[t];
    var l := Target(th.task).value.lock;
    match th.phase
    case Ask =>
      var w := LockOf(s, l).writer;
      if w.Some? {
        LeafClaimResolves(s, w.value, l);
      }
      Asks(s, t, 1);
    case Wait =>
      LeafClaimResolves(s, t, l);
      ResolvesLonger(s, t, 1);
    case _ => InsideCanMove(s, t);
  }

  /** A thread inside roomsMu moves on, or waits for a room lock only. */
  lemma TableHolderResolves(s: State, t: ConnId)
    requires Disciplined(s) && t in s.threads
    requires Reads(s.threads[t], RoomsMu) || Writes(s.threads[t], RoomsMu)
    ensures Resolves(s, t, 2)
  {
    if Base(s.threads[t].task).Some? {
      LeafResolves(s, t);
    } else {
      InsideCanMove(s, t);
    }
  }

  lemma TableClaimResolves(s: State, t: ConnId)
    requires Disciplined(s) && t in s.threads && Claims(s.threads[t], RoomsMu)
    ensures Resolves(s, t, 3)
  {
    if Writes(s.threads[t], RoomsMu) {
      TableHolderResolves(s, t);
      ResolvesLonger(s, t, 2);
    } else {
      forall r | r in LockOf(s, RoomsMu).readers
        ensures Resolves(s, r, 2)
      {
        TableHolderResolves(s, r);
      }
      WriterWaits(s, t, 2);
    }
  }

  /**
    Main result: from every thread in the middle of an operation at most four waits lead to one
    that can take its next step. In particular no reachable state is a deadlock.
   */
  lemma EveryWaitResolves(s: State, t: ConnId)
    requires Disciplined(s) && t in s.threads && Busy(s.threads[t])
    ensures Resolves(s, t, 4)
  {
    var th := s.threads[t];
    if Target(th.task) == None {
      InsideCanMove(s, t);
    } else if IsLeaf(Target(th.task).value.lock) {
      LeafResolves(s, t);
      ResolvesLonger(s, t, 2);
      ResolvesLonger(s, t, 3);
    } else if th.phase == Ask {
      var w := LockOf(s, RoomsMu).writer;
      if w.Some? {
        TableClaimResolves(s, w.value);
      }
      Asks(s, t, 3);
    } else if th.phase == Wait {
      TableClaimResolves(s, t);
      ResolvesLonger(s, t, 3);
    } else {
      InsideCanMove(s, t);
    }
  }

  /** Main result: a reachable state with an operation under way has an operation that can step. */
  lemma DeadlockFree(run: seq<Move>, t: ConnId)
    requires ValidRun(run) && t in After(run).threads && Busy(After(run).threads[t])
    ensures exists t', a :: t' in After(run).threads && Busy(After(run).threads[t']) && OwnStep(a) && Possible(After(run), t', a)
  {
    var s := After(run);
    RunDisciplined(run);
    EveryWaitResolves(s, t);
    var t' := ChainEnd(s, t, 4);
    var a :| OwnStep(a) && Possible(s, t', a);
    assert Busy(s.threads[t']);
  }

  lemma {:induction false} ChainEnd(s: State, t: ConnId, n: nat) returns (t': ConnId)
    requires Resolves(s, t, n)
    ensures CanMove(s, t')
    decreases n
  {
    if CanMove(s, t) {
      t' := t;
    } else {
      var b :| Blocks(s, b, t) && Resolves(s, b, n - 1);
      t' := ChainEnd(s, b, n - 1);
    }
  }
}
