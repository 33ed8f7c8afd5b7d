/**
  A send on a closed channel. It panics: the sending handler returns, giving up the room lock a
  broadcast held, and its own channel is closed too. Its cleanup is skipped, so the tables still lead
  to it. This module adds that step to the lock-level machine and says who stays reachable after it.
 */
module Crash {
  import opened Basics
  import opened LockStep
  import opened LockDiscipline
  import opened Continuations
  import opened Cleanup
  import opened Scripts
  import opened ClosedChannel

  /** Thread `t` is about to send to `d`, whose handler has returned. */
  predicate SendsToClosed(s: State, t: ConnId, a: Action, d: ConnId) {
    Possible(s, t, a) && OffersTo(s, t, a, d) && d in s.threads && s.threads[d].task.Done? && t in s.threads
  }

  /** The handler is over, without its cleanup. */
  function Gone(th: Thread): Thread {
    th.(task := Done, phase := Ask, ending := true)
  }

  /** The panic: deferred unlocks run, the tables stay as they are, and no frame goes out. */
  function Crashed(s: State, t: ConnId): State
    requires t in s.threads
  {
    var th := s.threads[t];
    s.(threads := s.threads[t := Gone(th)],
       locks := if th.task.Cast? then s.locks[RoomMu(th.task.o) := Returned(LockOf(s, RoomMu(th.task.o)), Read, t)] else s.locks)
  }

  /** The locks stay in order: whoever waited for the crashed broadcast can go on. */
  lemma CrashKeepsDiscipline(s: State, t: ConnId, a: Action, d: ConnId)
    requires Disciplined(s) && SendsToClosed(s, t, a, d)
    ensures Disciplined(Crashed(s, t))
  {
    var th := s.threads[t];
    assert Shaped(th) && !th.task.Idle?;
    if th.task.Cast? {
      CastGivesUp(th);
      LeavesMirror(s, t, RoomMu(th.task.o), Read, Gone(th));
    } else {
      HoldsNothing(th);
      QuietKeepsDiscipline(s, t, Gone(th));
    }
  }

  lemma CastGivesUp(th: Thread)
    requires th.task.Cast? && th.phase == In
    ensures Shaped(Gone(th)) && GivesUp(th, Gone(th), RoomMu(th.task.o))
  {
  }

  lemma HoldsNothing(th: Thread)
    requires th.task.Deliver? || th.task.Push?
    ensures Shaped(Gone(th)) && SameHolds(th, Gone(th))
  {
  }

  // ---- who stays reachable ----------------------------------------------------------------

  /** The step files another connection under `u` in the online table, or takes `u` off it. */
  predicate ReplacesOnline(s: State, t: ConnId, a: Action, u: UserId) {
    a.Body? && t in s.threads
    && ((s.threads[t].task.Register? && s.threads[t].task.user == u)
        || (s.threads[t].task.Unregister? && s.threads[t].me == Some(u)))
  }

  /** The same for one room. */
  predicate ReplacesMember(s: State, t: ConnId, a: Action, o: Obj, u: UserId) {
    a.Body? && t in s.threads && s.threads[t].me == Some(u)
    && (s.threads[t].task == Add(o) || (s.threads[t].task.Remove? && s.threads[t].task.o == o))
  }

  /** A connection whose handler is over stays online exactly until another connection of its user logs in or leaves. */
  lemma OnlineStaysIff(s: State, t: ConnId, a: Action, u: UserId, d: ConnId)
    requires Possible(s, t, a) && d in s.threads && s.threads[d].task.Done? && u in s.online && s.online[u] == d
    ensures u in OnlineAfter(s, t, a) && OnlineAfter(s, t, a)[u] == d <==> !ReplacesOnline(s, t, a, u)
  {
  }

  /** And it stays in a room exactly until another connection of its user joins or leaves that room. */
  lemma MemberStaysIff(s: State, t: ConnId, a: Action, o: Obj, u: UserId, d: ConnId)
    requires Possible(s, t, a) && d in s.threads && s.threads[d].task.Done? && Lists(s, o, u, d)
    ensures Lists(Step(s, t, a), o, u, d) <==> !ReplacesMember(s, t, a, o, u)
  {
  }

  /** Nobody in the run logs in as `u`, or ends a connection of `u`. */
  ghost predicate NobodyReplaces(s: State, run: seq<Move>, u: UserId)
    requires ValidFrom(s, run)
    decreases |run|
  {
    run == [] || (!ReplacesOnline(s, run[0].t, run[0].a, u) && NobodyReplaces(Step(s, run[0].t, run[0].a), run[1..], u))
  }

  /** Main result: in any continuation without another connection of its user, a crashed connection stays online for ever. */
  lemma {:induction false} CrashedStaysOnline(s: State, run: seq<Move>, u: UserId, d: ConnId)
    requires Disciplined(s) && ValidFrom(s, run) && NobodyReplaces(s, run, u)
    requires d in s.threads && s.threads[d].task.Done? && u in s.online && s.online[u] == d
    ensures var s' := ExecFrom(s, run); u in s'.online && s'.online[u] == d && d in s'.threads && s'.threads[d].task.Done?
    decreases |run|
  {
    if run != [] {
      OnlineStaysIff(s, run[0].t, run[0].a, u, d);
      DoneForever(s, run[0].t, run[0].a, d);
      StepDisciplined(s, run[0].t, run[0].a);
      CrashedStaysOnline(Step(s, run[0].t, run[0].a), run[1..], u, d);
    }
  }

  // ---- the next sender --------------------------------------------------------------------

  lemma StartsFinding(s: State, x: ConnId, u: UserId) returns (s': State)
    requires Disciplined(s) && x in s.threads && s.threads[x].task.Idle? && s.threads[x].me.Some?
    ensures Possible(s, x, Start(DoPrivate(u))) && s' == Step(s, x, Start(DoPrivate(u))) && Disciplined(s')
    ensures x in s'.threads && s'.threads[x].task == Find(u, None) && s'.threads[x].phase == Ask
    ensures s'.online == s.online && s'.locks == s.locks
  {
    s' := Step(s, x, Start(DoPrivate(u)));
    StepDisciplined(s, x, Start(DoPrivate(u)));
  }

  lemma EntersOnline(s: State, x: ConnId, u: UserId) returns (s': State)
    requires Disciplined(s) && x in s.threads && s.threads[x].task == Find(u, None) && s.threads[x].phase == Ask
    requires LockOf(s, OnlineMu).writer == None
    ensures Possible(s, x, Acquire) && s' == Step(s, x, Acquire) && Disciplined(s')
    ensures x in s'.threads && s'.threads[x].task == Find(u, None) && s'.threads[x].phase == In && s'.online == s.online
  {
    s' := Step(s, x, Acquire);
    StepDisciplined(s, x, Acquire);
  }

  lemma FindsClosed(s: State, x: ConnId, u: UserId, d: ConnId) returns (s': State)
    requires Disciplined(s) && x in s.threads && s.threads[x].task == Find(u, None) && s.threads[x].phase == In
    requires u in s.online && s.online[u] == d
    ensures Possible(s, x, Body(Nothing)) && s' == Step(s, x, Body(Nothing)) && Disciplined(s')
    ensures x in s'.threads && Holds(s', s'.threads[x], d)
  {
    s' := Step(s, x, Body(Nothing));
    StepDisciplined(s, x, Body(Nothing));
  }

  /** Main result: whoever sends a private message to the user of a crashed connection comes to send to its closed channel. */
  lemma NextSenderOffers(s: State, x: ConnId, u: UserId, d: ConnId)
    requires Disciplined(s) && u in s.online && s.online[u] == d && LockOf(s, OnlineMu).writer == None
    requires x in s.threads && s.threads[x].task.Idle? && s.threads[x].me.Some?
    ensures CanBeOffered(s, d)
  {
    var s1 := StartsFinding(s, x, u);
    assert LockOf(s1, OnlineMu) == LockOf(s, OnlineMu);
    var s2 := EntersOnline(s1, x, u);
    var s3 := FindsClosed(s2, x, u, d);
    var run := HolderOffers(s3, x, d);
    OfferedBefore(s2, Move(x, Body(Nothing)), d);
    OfferedBefore(s1, Move(x, Acquire), d);
    OfferedBefore(s, Move(x, Start(DoPrivate(u))), d);
  }

  lemma OfferedBefore(s: State, m: Move, d: ConnId)
    requires Possible(s, m.t, m.a) && CanBeOffered(Step(s, m.t, m.a), d)
    ensures CanBeOffered(s, d)
  {
    var run: seq<Move> :| ValidFrom(Step(s, m.t, m.a), run) && Offers(Step(s, m.t, m.a), run, d);
    OffersLater(s, m, run, d);
  }

  // ---- it does happen -------------------------------------------------------------------------

  lemma ThreeLogIn() returns (s: State)
    ensures Reachable(s) && AllFree(s) && s.rooms == map[]
    ensures s.threads == map[1 := Ready(Idle, "ann"), 2 := Ready(Idle, "bob"), 3 := Ready(Idle, "cat")]
    ensures "ann" in s.online && s.online["ann"] == 1 && "bob" in s.online && s.online["bob"] == 2
  {
    assert Orderly([]) && After([]) == INITIAL;
    var s1 := Login(INITIAL, 1, "ann");
    var s2 := Login(s1, 2, "bob");
    s := Login(s2, 3, "cat");
  }

  lemma SenderOutlives() returns (s: State)
    ensures Reachable(s) && AllFree(s) && "ann" in s.online && s.online["ann"] == 1
    ensures s.threads == map[1 := Sending(Deliver(2), "ann"), 2 := Leaving(Done, "bob"), 3 := Ready(Idle, "cat")]
  {
    var s1 := ThreeLogIn();
    var s2 := SenderLooksUp(s1);
    BobIsGone(Sending(Deliver(2), "ann"), Ready(Idle, "bob"), Ready(Idle, "cat"), Leaving(Done, "bob"));
    s := CleansUp(s2, 2, "bob");
  }

  lemma BobIsGone(ann: Thread, bob: Thread, cat: Thread, gone: Thread)
    ensures map[1 := ann, 2 := bob, 3 := cat][2 := gone] == map[1 := ann, 2 := gone, 3 := cat]
  {
  }

  lemma SenderLooksUp(s: State) returns (s': State)
    requires Reachable(s) && AllFree(s) && s.rooms == map[] && "bob" in s.online && s.online["bob"] == 2
    requires s.threads == map[1 := Ready(Idle, "ann"), 2 := Ready(Idle, "bob"), 3 := Ready(Idle, "cat")]
    ensures Reachable(s') && AllFree(s') && s'.rooms == map[] && s'.online == s.online
    ensures s'.threads == map[1 := Sending(Deliver(2), "ann"), 2 := Ready(Idle, "bob"), 3 := Ready(Idle, "cat")]
  {
    s' := LooksUp(s, 1, "ann", "bob", 2);
  }

  /**
    Main result: with three connections, a sender crashes on the closed channel of its recipient, and
    then can be offered a frame itself, its own channel being closed now.
   */
  lemma CrashesSpread()
    ensures exists s, t, a, d :: Reachable(s) && SendsToClosed(s, t, a, d) && CanBeOffered(Crashed(s, t), t)
  {
    var s := SenderOutlives();
    ReachableDisciplined(s);
    DeliveryOffers(s, 1, 2);
    assert SendsToClosed(s, 1, Free(Nothing), 2);
    CrashKeepsDiscipline(s, 1, Free(Nothing), 2);
    var s' := Crashed(s, 1);
    assert s'.threads[3] == Ready(Idle, "cat") && LockOf(s', OnlineMu).writer == None;
    NextSenderOffers(s', 3, "ann", 1);
  }

  lemma ReachableDisciplined(s: State)
    requires Reachable(s)
    ensures Disciplined(s)
  {
    var run: seq<Move> :| Orderly(run) && After(run) == s;
    RunDisciplined(run);
  }
}
