/**
  Building runs by hand: states that some run reaches in which nobody switches identity and no room
  is deleted with a member in it, extended by whole critical sections that nobody disputes.
 */
module Scripts {
  import opened Basics
  import opened Channels
  import opened LockStep
  import opened Cleanup

  /** The step deletes no room that has a member. */
  predicate DropsNobody(s: State, t: ConnId, a: Action)
    requires Possible(s, t, a)
  {
    forall id :: id in s.rooms && id !in RoomsAfter(s, t, a) ==> ClientsOf(s, s.rooms[id]) == map[]
  }

  ghost predicate NobodyDropped(run: seq<Move>)
    requires ValidRun(run)
  {
    run == [] ||
    (var n := |run| - 1; NobodyDropped(run[..n]) && DropsNobody(After(run[..n]), run[n].t, run[n].a))
  }

  ghost predicate Orderly(run: seq<Move>) {
    ValidRun(run) && NoSwitch(run) && NobodyDropped(run)
  }

  ghost predicate Reachable(s: State) {
    exists run: seq<Move> :: Orderly(run) && After(run) == s
  }

  lemma OnlyDeletionsDrop(s: State, t: ConnId, a: Action)
    requires Possible(s, t, a) && (a.Body? ==> !s.threads[t].task.EmptyDelete?)
    ensures DropsNobody(s, t, a)
  {
  }

  lemma Extend(s: State, t: ConnId, a: Action)
    requires Reachable(s) && Possible(s, t, a) && KeepsName(s, t, a) && DropsNobody(s, t, a)
    ensures Reachable(Step(s, t, a))
  {
    var run: seq<Move> :| Orderly(run) && After(run) == s;
    var longer := run + [Move(t, a)];
    assert longer[..|run|] == run;
    assert Orderly(longer) && After(longer) == Step(s, t, a);
  }

  lemma AcquireMove(s: State, t: ConnId) returns (s': State)
    requires Reachable(s) && Possible(s, t, Acquire)
    ensures Reachable(s')
    ensures s' == s.(threads := s.threads[t := ThreadAfter(s, t, Acquire)], locks := LocksAfter(s, t, Acquire))
  {
    OnlyDeletionsDrop(s, t, Acquire);
    Extend(s, t, Acquire);
    s' := Step(s, t, Acquire);
  }

  lemma BodyMove(s: State, t: ConnId, pick: Pick) returns (s': State)
    requires Reachable(s) && Possible(s, t, Body(pick)) && DropsNobody(s, t, Body(pick))
    ensures Reachable(s')
    ensures s' == s.(threads := s.threads[t := BodyThread(s, s.threads[t], pick)],
                     rooms := RoomsAfter(s, t, Body(pick)), objs := ObjsAfter(s, t, Body(pick)),
                     online := OnlineAfter(s, t, Body(pick)), chans := ChansAfter(s, t, Body(pick)))
  {
    Extend(s, t, Body(pick));
    s' := Step(s, t, Body(pick));
  }

  lemma ReleaseMove(s: State, t: ConnId) returns (s': State)
    requires Reachable(s) && Possible(s, t, Release)
    ensures Reachable(s')
    ensures s' == s.(threads := s.threads[t := ReleaseThread(s.threads[t])], locks := LocksAfter(s, t, Release))
  {
    OnlyDeletionsDrop(s, t, Release);
    Extend(s, t, Release);
    s' := Step(s, t, Release);
  }

  ghost predicate AllFree(s: State) {
    forall l :: l in s.locks ==> s.locks[l] == RW(None, {})
  }

  /** The lock a thread asks for is free and will be taken. */
  predicate AsksFree(s: State, t: ConnId, hold: Hold) {
    && t in s.threads && s.threads[t].phase == Ask && Target(s.threads[t].task) == Some(hold)
    && LockOf(s, hold.lock) == RW(None, {})
  }

  /** The state as the body of a critical section that nobody disputes finds it. */
  function Inside(s: State, t: ConnId, hold: Hold): State
    requires t in s.threads
  {
    s.(threads := s.threads[t := s.threads[t].(phase := In)], locks := s.locks[hold.lock := Granted(RW(None, {}), hold.mode, t)])
  }

  lemma Enter(s: State, t: ConnId, hold: Hold) returns (s': State)
    requires Reachable(s) && AsksFree(s, t, hold)
    ensures Reachable(s') && s' == Inside(s, t, hold)
  {
    s' := Announce(s, t, hold);
    if hold.mode == Write {
      s' := WriterIn(s', t, hold.lock);
      LastWins(s.threads, t, s.threads[t].(phase := Wait), s.threads[t].(phase := In));
    }
  }

  /** A reader is in at once; a writer has announced itself. */
  lemma Announce(s: State, t: ConnId, hold: Hold) returns (s': State)
    requires Reachable(s) && AsksFree(s, t, hold)
    ensures Reachable(s')
    ensures var p := if hold.mode == Write then Wait else In;
            s' == Inside(s, t, hold).(threads := s.threads[t := s.threads[t].(phase := p)])
  {
    s' := AcquireMove(s, t);
  }

  lemma WriterIn(s: State, t: ConnId, l: Lock) returns (s': State)
    requires Reachable(s) && t in s.threads && s.threads[t].phase == Wait && Target(s.threads[t].task) == Some(Hold(l, Write))
    requires LockOf(s, l).readers == {}
    ensures Reachable(s') && s' == s.(threads := s.threads[t := s.threads[t].(phase := In)])
  {
    s' := AcquireMove(s, t);
  }

  lemma LeaveHeld(s: State, t: ConnId, hold: Hold) returns (s': State)
    requires Reachable(s) && t in s.threads && s.threads[t].phase == Out && Target(s.threads[t].task) == Some(hold)
    requires LockOf(s, hold.lock) == Granted(RW(None, {}), hold.mode, t)
    ensures Reachable(s')
    ensures s' == s.(threads := s.threads[t := ReleaseThread(s.threads[t])], locks := s.locks[hold.lock := RW(None, {})])
  {
    s' := ReleaseMove(s, t);
  }

  lemma Begin(s: State, t: ConnId, op: Op) returns (s': State)
    requires Reachable(s) && t in s.threads && StartPossible(s.threads[t], op) && !op.DoReply? && KeepsName(s, t, Start(op))
    ensures Reachable(s') && s' == s.(threads := s.threads[t := StartThread(s.threads[t], op)])
  {
    OnlyDeletionsDrop(s, t, Start(op));
    Extend(s, t, Start(op));
    s' := Step(s, t, Start(op));
  }

  function Ready(task: Task, user: UserId): Thread {
    Thread(task, Ask, Some(user), 0, {}, false)
  }

  lemma LastWins<K, V>(m: map<K, V>, k: K, x: V, y: V)
    ensures m[k := x][k := y] == m[k := y]
  {
  }

  /** Leaving what nobody else asked for frees every lock again. */
  lemma Exit(s: State, t: ConnId, hold: Hold, s2: State, out: Thread) returns (s': State)
    requires AllFree(s) && t in s.threads && Reachable(s2)
    requires s2.locks == Inside(s, t, hold).locks && s2.threads == s.threads[t := out]
    requires out.phase == Out && Target(out.task) == Some(hold)
    ensures Reachable(s') && AllFree(s') && s'.threads == s.threads[t := ReleaseThread(out)]
    ensures s'.rooms == s2.rooms && s'.objs == s2.objs && s'.online == s2.online && s'.chans == s2.chans
  {
    assert LockOf(s2, hold.lock) == Granted(RW(None, {}), hold.mode, t);
    s' := LeaveHeld(s2, t, hold);
  }

  /** A whole critical section, undisturbed: its body has taken effect and the lock is free again. */
  lemma Section(s: State, t: ConnId, hold: Hold, pick: Pick, out: Thread) returns (s': State)
    requires Reachable(s) && AllFree(s) && AsksFree(s, t, hold) && !s.threads[t].task.EmptyDelete?
    requires Possible(Inside(s, t, hold), t, Body(pick))
    requires out == BodyThread(Inside(s, t, hold), s.threads[t].(phase := In), pick)
    requires out.phase == Out && Target(out.task) == Some(hold)
    ensures Reachable(s') && AllFree(s') && s'.threads == s.threads[t := ReleaseThread(out)]
    ensures s'.rooms == RoomsAfter(Inside(s, t, hold), t, Body(pick)) && s'.objs == ObjsAfter(Inside(s, t, hold), t, Body(pick))
    ensures s'.online == OnlineAfter(Inside(s, t, hold), t, Body(pick)) && s'.chans == ChansAfter(Inside(s, t, hold), t, Body(pick))
  {
    var s1 := Enter(s, t, hold);
    OnlyDeletionsDrop(s1, t, Body(pick));
    var s2 := BodyMove(s1, t, pick);
    LastWins(s.threads, t, s.threads[t].(phase := In), out);
    s' := Exit(s, t, hold, s2, out);
  }

  lemma Registers(s: State, t: ConnId, user: UserId) returns (s': State)
    requires Reachable(s) && AllFree(s) && t in s.threads && s.threads[t] == Ready(Register(user, 0), user)
    ensures Reachable(s') && AllFree(s') && s'.threads == s.threads[t := Ready(Idle, user)]
    ensures s'.rooms == s.rooms && s'.objs == s.objs && s'.online == s.online[user := t] && s'.chans == s.chans
  {
    RegisterBody(s, t, user);
    s' := Section(s, t, Hold(OnlineMu, Write), Nothing, Ready(Register(user, 0), user).(phase := Out));
  }

  lemma RegisterBody(s: State, t: ConnId, user: UserId)
    requires t in s.threads && s.threads[t] == Ready(Register(user, 0), user)
    ensures var inside := Inside(s, t, Hold(OnlineMu, Write));
            && Possible(inside, t, Body(Nothing)) && RoomsAfter(inside, t, Body(Nothing)) == s.rooms
            && ObjsAfter(inside, t, Body(Nothing)) == s.objs && ChansAfter(inside, t, Body(Nothing)) == s.chans
            && OnlineAfter(inside, t, Body(Nothing)) == s.online[user := t]
            && BodyThread(inside, inside.threads[t], Nothing) == Ready(Register(user, 0), user).(phase := Out)
  {
  }

  lemma Spawns(s: State, t: ConnId) returns (s': State)
    requires Reachable(s) && t !in s.threads && t !in s.chans
    ensures Reachable(s')
    ensures s' == s.(threads := s.threads[t := Thread(Idle, Ask, None, 0, {}, false)], chans := s.chans[t := Open()])
  {
    OnlyDeletionsDrop(s, t, Spawn);
    Extend(s, t, Spawn);
    s' := Step(s, t, Spawn);
  }

  /** A new connection logs in by itself. */
  lemma Login(s: State, t: ConnId, user: UserId) returns (s': State)
    requires Reachable(s) && AllFree(s) && t !in s.threads && t !in s.chans
    ensures Reachable(s') && AllFree(s') && s'.threads == s.threads[t := Ready(Idle, user)]
    ensures s'.rooms == s.rooms && s'.objs == s.objs && s'.online == s.online[user := t] && s'.chans.Keys == s.chans.Keys + {t}
  {
    var s1 := Spawns(s, t);
    var s2 := Begin(s1, t, DoAuth(user, 0));
    assert s2.threads[t] == Ready(Register(user, 0), user);
    s' := Registers(s2, t, user);
    LastWins(s.threads, t, s1.threads[t], s2.threads[t]);
    LastWins(s.threads, t, s2.threads[t], Ready(Idle, user));
  }

  /** getOrCreateRoom's first look, undisturbed. */
  lemma Looks(s: State, t: ConnId, id: RoomId, why: Purpose, user: UserId) returns (s': State)
    requires Reachable(s) && AllFree(s) && t in s.threads && s.threads[t] == Ready(Look(id, why, None), user)
    ensures Reachable(s') && AllFree(s') && s'.rooms == s.rooms && s'.objs == s.objs
    ensures var found := Ready(Look(id, why, Lookup(s.rooms, id)), user).(phase := Out);
            s'.threads == s.threads[t := ReleaseThread(found)]
  {
    var found := Ready(Look(id, why, Lookup(s.rooms, id)), user).(phase := Out);
    s' := Section(s, t, Hold(RoomsMu, Read), Nothing, found);
  }
}
