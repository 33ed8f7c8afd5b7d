/**
  What still reaches a connection after its cleanup. The tables no longer lead to it, but an
  operation that looked it up before may hold on to its channel, which is closed soon after. This
  module says exactly when a frame can still be offered to it, and that it can happen.
 */
module ClosedChannel {
  import opened Basics
  import opened LockStep
  import opened LockDiscipline
  import opened Continuations
  import opened Quiescence
  import opened Cleanup
  import opened Scripts

  predicate OffersTo(s: State, t: ConnId, a: Action, d: ConnId)
    requires Possible(s, t, a)
  {
    Offering(s, t, a).Some? && Offering(s, t, a).value.0 == d
  }

  /** Somewhere along the run a frame is offered to `d`. */
  ghost predicate Offers(s: State, run: seq<Move>, d: ConnId)
    requires ValidFrom(s, run)
    decreases |run|
  {
    run != [] && (OffersTo(s, run[0].t, run[0].a, d) || Offers(Step(s, run[0].t, run[0].a), run[1..], d))
  }

  ghost predicate CanBeOffered(s: State, d: ConnId) {
    exists run: seq<Move> :: ValidFrom(s, run) && Offers(s, run, d)
  }

  // ---- who holds on to a connection -------------------------------------------------------

  /** Room `o` lists connection `d` as `u`. */
  predicate Lists(s: State, o: Obj, u: UserId, d: ConnId) {
    u in ClientsOf(s, o) && ClientsOf(s, o)[u] == d
  }

  /** The thread has announced itself as the room's writer and will replace or remove the entry of `u`. */
  predicate Dooms(th: Thread, o: Obj, u: UserId) {
    (th.phase == Wait || th.phase == In) && th.me == Some(u) && (th.task == Add(o) || (th.task.Remove? && th.task.o == o))
  }

  ghost predicate Doomed(s: State, o: Obj, u: UserId) {
    exists w :: w in s.threads && Dooms(s.threads[w], o, u)
  }

  /** A broadcast to `o` that has not begun will find `d`: listed, and not about to be taken out first. */
  ghost predicate WillFind(s: State, o: Obj, visited: set<UserId>, d: ConnId) {
    exists u :: Lists(s, o, u, d) && u !in visited && !Doomed(s, o, u)
  }

  /** A broadcast to `o` that is under way has yet to visit `d`. */
  ghost predicate WillVisit(s: State, o: Obj, visited: set<UserId>, d: ConnId) {
    exists u :: Lists(s, o, u, d) && u !in visited
  }

  /** The thread has `d` in hand, or a room that will lead it there. */
  ghost predicate Holds(s: State, th: Thread, d: ConnId) {
    match th.task
    case Deliver(x) => x == d
    case Push(x, left) => x == d && left > 0
    case Find(_, target) => th.phase == Out && target == Some(d)
    case PushFind(_, target, n) => th.phase == Out && target == Some(d) && n > 0
    case Cast(o, visited) =>
      (th.phase == In && WillVisit(s, o, visited, d)) || (th.phase == Ask && WillFind(s, o, visited, d))
    case Look(_, why, found) => th.phase == Out && why.ToSend? && found.Some? && WillFind(s, found.value, {}, d)
    case Make(_, why, found) => th.phase == Out && why.ToSend? && found.Some? && WillFind(s, found.value, {}, d)
    case _ => false
  }

  ghost predicate Held(s: State, d: ConnId) {
    exists t :: t in s.threads && Holds(s, s.threads[t], d)
  }

  // ---- nobody holds it: nothing is offered ever again ----------------------------------------

  ghost predicate Gone(s: State, d: ConnId) {
    d in s.threads && s.threads[d].task.Done? && Disciplined(s) && NothingLeadsTo(s, d) && !Held(s, d)
  }

  lemma OfferNeedsHold(s: State, t: ConnId, a: Action, d: ConnId)
    requires Possible(s, t, a) && d in s.threads && s.threads[d].task.Done? && OffersTo(s, t, a, d)
    ensures Held(s, d)
  {
    if a.Body? {
      assert Lists(s, s.threads[t].task.o, a.pick.user, d);
    }
    assert Holds(s, s.threads[t], d);
  }

  /** Nobody but `d` itself files `d` anywhere. */
  lemma ListsFade(s: State, t: ConnId, a: Action, d: ConnId, o: Obj, u: UserId)
    requires Possible(s, t, a) && d in s.threads && s.threads[d].task.Done? && Lists(Step(s, t, a), o, u, d)
    ensures Lists(s, o, u, d)
  {
    NewEntries(s, t, a, o, u);
  }

  lemma StepLeadsNowhere(s: State, t: ConnId, a: Action, d: ConnId)
    requires Possible(s, t, a) && d in s.threads && s.threads[d].task.Done? && NothingLeadsTo(s, d)
    ensures NothingLeadsTo(Step(s, t, a), d)
  {
    var s' := Step(s, t, a);
    forall id: RoomId, u: UserId | id in s'.rooms && u in ClientsOf(s', s'.rooms[id])
      ensures ClientsOf(s', s'.rooms[id])[u] != d
    {
      if id !in s.rooms {
        NewRoomIsEmpty(s, t, a, id);
      } else if ClientsOf(s', s'.rooms[id])[u] == d {
        RegisteredStays(s, t, a, id);
        ListsFade(s, t, a, d, s'.rooms[id], u);
      }
    }
  }

  lemma RegisteredStays(s: State, t: ConnId, a: Action, id: RoomId)
    requires Possible(s, t, a) && id in s.rooms && id in RoomsAfter(s, t, a)
    ensures RoomsAfter(s, t, a)[id] == s.rooms[id]
  {
  }

  /** A writer that will take the entry out does so before anything else happens to it. */
  lemma DoomStays(s: State, t: ConnId, a: Action, d: ConnId, o: Obj, u: UserId)
    requires Possible(s, t, a) && d in s.threads && s.threads[d].task.Done? && Doomed(s, o, u)
    requires Lists(Step(s, t, a), o, u, d)
    ensures Doomed(Step(s, t, a), o, u)
  {
    var w :| w in s.threads && Dooms(s.threads[w], o, u);
    ListsFade(s, t, a, d, o, u);
    assert Dooms(Step(s, t, a).threads[w], o, u);
  }

  lemma FindFades(s: State, t: ConnId, a: Action, d: ConnId, o: Obj, visited: set<UserId>)
    requires Possible(s, t, a) && d in s.threads && s.threads[d].task.Done? && WillFind(Step(s, t, a), o, visited, d)
    ensures WillFind(s, o, visited, d)
  {
    var u :| Lists(Step(s, t, a), o, u, d) && u !in visited && !Doomed(Step(s, t, a), o, u);
    ListsFade(s, t, a, d, o, u);
    if Doomed(s, o, u) {
      DoomStays(s, t, a, d, o, u);
    }
  }

  lemma VisitFades(s: State, t: ConnId, a: Action, d: ConnId, o: Obj, visited: set<UserId>)
    requires Possible(s, t, a) && d in s.threads && s.threads[d].task.Done? && WillVisit(Step(s, t, a), o, visited, d)
    ensures WillVisit(s, o, visited, d)
  {
    var u :| Lists(Step(s, t, a), o, u, d) && u !in visited;
    ListsFade(s, t, a, d, o, u);
  }

  /** A thread that does not move comes to hold nothing new. */
  lemma HoldFades(s: State, t: ConnId, a: Action, d: ConnId, th: Thread)
    requires Possible(s, t, a) && d in s.threads && s.threads[d].task.Done? && Holds(Step(s, t, a), th, d)
    ensures Holds(s, th, d)
  {
    match th.task
    case Cast(o, visited) =>
      if th.phase == In {
        VisitFades(s, t, a, d, o, visited);
      } else {
        FindFades(s, t, a, d, o, visited);
      }
    case Look(_, _, found) => FindFades(s, t, a, d, found.value, {});
    case Make(_, _, found) => FindFades(s, t, a, d, found.value, {});
    case _ =>
  }

  lemma BodyHoldFades(s: State, t: ConnId, pick: Pick, d: ConnId)
    requires Possible(s, t, Body(pick)) && d in s.threads && s.threads[d].task.Done? && NothingLeadsTo(s, d)
    requires Holds(Step(s, t, Body(pick)), BodyThread(s, s.threads[t], pick), d)
    ensures Holds(s, s.threads[t], d)
  {
    var th, s' := s.threads[t], Step(s, t, Body(pick));
    match th.task
    case Look(id, _, _) => FoundRoomIsClear(s, t, Body(pick), d, id);
    case Make(id, _, _) =>
      if id in s.rooms {
        FoundRoomIsClear(s, t, Body(pick), d, id);
      } else {
        NewRoomIsEmpty(s, t, Body(pick), id);
      }
    case Cast(o, visited) =>
      if pick.User? {
        VisitFades(s, t, Body(pick), d, o, visited + {pick.user});
      }
    case _ =>
  }

  lemma FoundRoomIsClear(s: State, t: ConnId, a: Action, d: ConnId, id: RoomId)
    requires Possible(s, t, a) && d in s.threads && s.threads[d].task.Done? && NothingLeadsTo(s, d) && id in s.rooms
    ensures !WillFind(Step(s, t, a), s.rooms[id], {}, d)
  {
    if WillFind(Step(s, t, a), s.rooms[id], {}, d) {
      FindFades(s, t, a, d, s.rooms[id], {});
      assert false;
    }
  }

  lemma DoomHoldsLock(s: State, o: Obj, u: UserId)
    requires Disciplined(s) && Doomed(s, o, u)
    ensures LockOf(s, RoomMu(o)).writer.Some?
  {
    var w :| w in s.threads && Dooms(s.threads[w], o, u);
    assert Claims(s.threads[w], RoomMu(o));
  }

  /** A reader gets into a room only when no writer has announced itself. */
  lemma EnteringFindsNoDoom(s: State, t: ConnId, o: Obj, u: UserId)
    requires Disciplined(s) && Possible(s, t, Acquire) && s.threads[t].task.Cast? && s.threads[t].task.o == o
    ensures !Doomed(s, o, u)
  {
    assert Shaped(s.threads[t]);
    if Doomed(s, o, u) {
      DoomHoldsLock(s, o, u);
      assert false;
    }
  }

  lemma AcquireHoldFades(s: State, t: ConnId, d: ConnId)
    requires Disciplined(s) && Possible(s, t, Acquire) && d in s.threads && s.threads[d].task.Done?
    requires Holds(Step(s, t, Acquire), ThreadAfter(s, t, Acquire), d)
    ensures Holds(s, s.threads[t], d)
  {
    var th := s.threads[t];
    if th.task.Cast? {
      VisitFades(s, t, Acquire, d, th.task.o, th.task.visited);
      var u :| Lists(s, th.task.o, u, d) && u !in th.task.visited;
      EnteringFindsNoDoom(s, t, th.task.o, u);
    }
  }

  lemma ReleaseHoldFades(s: State, t: ConnId, d: ConnId)
    requires Possible(s, t, Release) && d in s.threads && s.threads[d].task.Done?
    requires Holds(Step(s, t, Release), ReleaseThread(s.threads[t]), d)
    ensures Holds(s, s.threads[t], d)
  {
    var th := s.threads[t];
    match th.task
    case Look(_, _, found) =>
      if found.Some? {
        FindFades(s, t, Release, d, found.value, {});
      }
    case Make(_, _, found) =>
      if found.Some? {
        FindFades(s, t, Release, d, found.value, {});
      }
    case _ =>
  }

  lemma OwnHoldFades(s: State, t: ConnId, a: Action, d: ConnId)
    requires Gone(s, d) && Possible(s, t, a) && !a.WriterTakes?
    ensures !Holds(Step(s, t, a), ThreadAfter(s, t, a), d)
  {
    if Holds(Step(s, t, a), ThreadAfter(s, t, a), d) {
      match a
      case Acquire => AcquireHoldFades(s, t, d);
      case Body(pick) => BodyHoldFades(s, t, pick, d);
      case Release => ReleaseHoldFades(s, t, d);
      case _ =>
    }
  }

  lemma StepGone(s: State, t: ConnId, a: Action, d: ConnId)
    requires Gone(s, d) && Possible(s, t, a)
    ensures Gone(Step(s, t, a), d) && !OffersTo(s, t, a, d)
  {
    var s' := Step(s, t, a);
    StepDisciplined(s, t, a);
    DoneForever(s, t, a, d);
    StepLeadsNowhere(s, t, a, d);
    if OffersTo(s, t, a, d) {
      OfferNeedsHold(s, t, a, d);
    }
    forall x | x in s'.threads
      ensures !Holds(s', s'.threads[x], d)
    {
      if x == t && !a.WriterTakes? {
        OwnHoldFades(s, t, a, d);
      } else if Holds(s', s'.threads[x], d) {
        HoldFades(s, t, a, d, s.threads[x]);
      }
    }
  }

  lemma {:induction false} GoneForever(s: State, d: ConnId, run: seq<Move>)
    requires Gone(s, d) && ValidFrom(s, run)
    ensures !Offers(s, run, d)
    decreases |run|
  {
    if run != [] {
      StepGone(s, run[0].t, run[0].a, d);
      GoneForever(Step(s, run[0].t, run[0].a), d, run[1..]);
    }
  }

  // ---- somebody holds it: it can be offered a frame -------------------------------------------

  lemma OffersLater(s: State, m: Move, run: seq<Move>, d: ConnId)
    requires Possible(s, m.t, m.a) && ValidFrom(Step(s, m.t, m.a), run) && Offers(Step(s, m.t, m.a), run, d)
    ensures ValidFrom(s, [m] + run) && Offers(s, [m] + run, d)
  {
    Prepend(s, m, run);
    assert ([m] + run)[1..] == run;
  }

  lemma OffersNow(s: State, m: Move, d: ConnId)
    requires Possible(s, m.t, m.a) && OffersTo(s, m.t, m.a, d)
    ensures ValidFrom(s, [m]) && Offers(s, [m], d)
  {
    assert ValidFrom(Step(s, m.t, m.a), []);
    Prepend(s, m, []);
    assert [m] + [] == [m];
  }

  /** While a broadcast waits behind a writer that leaves `u` alone, no step of another thread takes `u` away. */
  lemma WaitingKeepsEntry(s: State, t: ConnId, m: Move, o: Obj, u: UserId, d: ConnId)
    requires Disciplined(s) && t in s.threads && m.t != t && OwnStep(m.a) && Possible(s, m.t, m.a)
    requires Lists(s, o, u, d) && !Doomed(s, o, u) && LockOf(s, RoomMu(o)).writer.Some?
    ensures Lists(Step(s, m.t, m.a), o, u, d) && !Doomed(Step(s, m.t, m.a), o, u)
  {
    var s' := Step(s, m.t, m.a);
    assert !Dooms(s.threads[m.t], o, u);
    EntryStays(s, m.t, m.a, o, u, d);
    forall x | x in s'.threads
      ensures !Dooms(s'.threads[x], o, u)
    {
      assert !Dooms(s.threads[x], o, u);
      if x == m.t {
        NoNewDoom(s, m.t, m.a, o, u);
      }
    }
  }

  lemma EntryStays(s: State, t: ConnId, a: Action, o: Obj, u: UserId, d: ConnId)
    requires Possible(s, t, a) && OwnStep(a) && Lists(s, o, u, d) && !Dooms(s.threads[t], o, u)
    ensures Lists(Step(s, t, a), o, u, d)
  {
  }

  lemma NoNewDoom(s: State, t: ConnId, a: Action, o: Obj, u: UserId)
    requires Possible(s, t, a) && OwnStep(a) && !Dooms(s.threads[t], o, u) && LockOf(s, RoomMu(o)).writer.Some?
    ensures !Dooms(ThreadAfter(s, t, a), o, u)
  {
  }

  /** The next own step of a holder that is neither sending nor waiting: it goes on holding. */
  lemma HolderReleases(s: State, t: ConnId, d: ConnId)
    requires Disciplined(s) && t in s.threads && s.threads[t].phase == Out && Holds(s, s.threads[t], d)
    ensures Possible(s, t, Release) && Holds(Step(s, t, Release), Step(s, t, Release).threads[t], d)
  {
    var th, s' := s.threads[t], Step(s, t, Release);
    if th.task.Look? || th.task.Make? {
      var o := th.task.found.value;
      var u :| Lists(s, o, u, d) && !Doomed(s, o, u);
      NoDoomAfterRelease(s, t, o, u);
      assert Lists(s', o, u, d);
    }
  }

  lemma NoDoomAfterRelease(s: State, t: ConnId, o: Obj, u: UserId)
    requires Possible(s, t, Release) && !Doomed(s, o, u) && Shaped(s.threads[t])
    ensures !Doomed(Step(s, t, Release), o, u)
  {
    var s' := Step(s, t, Release);
    forall x | x in s'.threads
      ensures !Dooms(s'.threads[x], o, u)
    {
      assert !Dooms(s.threads[x], o, u);
    }
  }

  lemma CasterEnters(s: State, t: ConnId, d: ConnId)
    requires Disciplined(s) && t in s.threads && s.threads[t].task.Cast? && s.threads[t].phase == Ask
    requires Holds(s, s.threads[t], d) && LockOf(s, RoomMu(s.threads[t].task.o)).writer == None
    ensures Possible(s, t, Acquire) && Holds(Step(s, t, Acquire), Step(s, t, Acquire).threads[t], d)
  {
    var th := s.threads[t];
    var u :| Lists(s, th.task.o, u, d) && u !in th.task.visited;
    assert Lists(Step(s, t, Acquire), th.task.o, u, d);
  }

  /** A holder waiting for its room still holds after whatever step brings the writer nearer to its end. */
  lemma CasterWaits(s: State, t: ConnId, d: ConnId, m: Move)
    requires Disciplined(s) && t in s.threads && s.threads[t].task.Cast? && s.threads[t].phase == Ask
    requires Holds(s, s.threads[t], d) && LockOf(s, RoomMu(s.threads[t].task.o)).writer.Some?
    requires OwnStep(m.a) && Possible(s, m.t, m.a)
    ensures m.t != t && t in Step(s, m.t, m.a).threads && Holds(Step(s, m.t, m.a), Step(s, m.t, m.a).threads[t], d)
  {
    var th := s.threads[t];
    var u :| Lists(s, th.task.o, u, d) && u !in th.task.visited && !Doomed(s, th.task.o, u);
    WaitingKeepsEntry(s, t, m, th.task.o, u, d);
  }

  /** A step after which the same thread still holds `d`, for a thread that does not send at once. */
  lemma HoldGoesOn(s: State, t: ConnId, d: ConnId) returns (m: Move)
    requires Disciplined(s) && t in s.threads && Holds(s, s.threads[t], d)
    requires s.threads[t].phase == Out || (s.threads[t].task.Cast? && s.threads[t].phase == Ask)
    ensures OwnStep(m.a) && Possible(s, m.t, m.a)
    ensures t in Step(s, m.t, m.a).threads && Holds(Step(s, m.t, m.a), Step(s, m.t, m.a).threads[t], d)
  {
    if s.threads[t].phase == Out {
      HolderReleases(s, t, d);
      m := Move(t, Release);
    } else if LockOf(s, RoomMu(s.threads[t].task.o)).writer == None {
      CasterEnters(s, t, d);
      m := Move(t, Acquire);
    } else {
      m := SomebodyCanStep(s, t);
      CasterWaits(s, t, d, m);
    }
  }

  /** A thread that is about to send. */
  lemma SendsAtOnce(s: State, t: ConnId, d: ConnId) returns (m: Move)
    requires t in s.threads && Shaped(s.threads[t]) && Holds(s, s.threads[t], d)
    requires s.threads[t].phase != Out && !(s.threads[t].task.Cast? && s.threads[t].phase == Ask)
    ensures OwnStep(m.a) && Possible(s, m.t, m.a) && OffersTo(s, m.t, m.a, d)
  {
    var th := s.threads[t];
    if th.task.Cast? {
      var u :| Lists(s, th.task.o, u, d) && u !in th.task.visited;
      m := Move(t, Body(User(u)));
    } else {
      m := Move(t, Free(Nothing));
    }
  }

  /** Whoever holds a connection can go on to offer it a frame, with no new frame arriving meanwhile. */
  lemma {:induction false} HolderOffers(s: State, t: ConnId, d: ConnId) returns (run: seq<Move>)
    requires Disciplined(s) && t in s.threads && Holds(s, s.threads[t], d)
    ensures ValidFrom(s, run) && Offers(s, run, d) && AllOwn(run)
    decreases Total(Ranks(s)).stage, Total(Ranks(s)).rooms, Total(Ranks(s)).task, Total(Ranks(s)).loop, Total(Ranks(s)).phase
  {
    if s.threads[t].phase == Out || (s.threads[t].task.Cast? && s.threads[t].phase == Ask) {
      var m := HoldGoesOn(s, t, d);
      StepDisciplined(s, m.t, m.a);
      ServerDescends(s, m.t, m.a);
      var rest := HolderOffers(Step(s, m.t, m.a), t, d);
      OffersLater(s, m, rest, d);
      OwnFirst(m, rest);
      run := [m] + rest;
    } else {
      var m := SendsAtOnce(s, t, d);
      OffersNow(s, m, d);
      run := [m];
    }
  }

  /**
    Main result: in every run without an identity switch, a connection whose cleanup has finished
    can still be offered a frame exactly when some operation has its channel in hand, or a room that
    still lists it and that no announced writer will strike it from first.
   */
  lemma StillOfferedIff(run: seq<Move>, d: ConnId)
    requires ValidRun(run) && NoSwitch(run) && d in After(run).threads && After(run).threads[d].task.Done?
    ensures CanBeOffered(After(run), d) <==> Held(After(run), d)
  {
    var s := After(run);
    RunSafe(run);
    if Held(s, d) {
      var t :| t in s.threads && Holds(s, s.threads[t], d);
      var more := HolderOffers(s, t, d);
    } else {
      DoneIsUnreachable(s, d);
      forall more: seq<Move> | ValidFrom(s, more)
        ensures !Offers(s, more, d)
      {
        GoneForever(s, d, more);
      }
    }
  }

  // ---- it does happen -------------------------------------------------------------------------

  lemma FreeMove(s: State, t: ConnId, pick: Pick) returns (s': State)
    requires Reachable(s) && Possible(s, t, Free(pick)) && !s.threads[t].task.Deliver? && !s.threads[t].task.Push?
    ensures Reachable(s') && s' == s.(threads := s.threads[t := FreeThread(s.threads[t], pick)])
  {
    OnlyDeletionsDrop(s, t, Free(pick));
    Extend(s, t, Free(pick));
    s' := Step(s, t, Free(pick));
  }

  function Sending(task: Task, user: UserId): Thread {
    Thread(task, Ask, Some(user), 1, {}, false)
  }

  function Leaving(task: Task, user: UserId): Thread {
    Thread(task, Ask, Some(user), 0, {}, true)
  }

  lemma FindBody(s: State, t: ConnId, user: UserId, to: UserId, d: ConnId)
    requires t in s.threads && s.threads[t] == Sending(Find(to, None), user) && to in s.online && s.online[to] == d
    ensures var inside := Inside(s, t, Hold(OnlineMu, Read));
            && Possible(inside, t, Body(Nothing)) && RoomsAfter(inside, t, Body(Nothing)) == s.rooms
            && OnlineAfter(inside, t, Body(Nothing)) == s.online
            && BodyThread(inside, inside.threads[t], Nothing) == Sending(Find(to, Some(d)), user).(phase := Out)
  {
  }

  lemma FindsOnline(s: State, t: ConnId, user: UserId, to: UserId, d: ConnId) returns (s': State)
    requires Reachable(s) && AllFree(s) && t in s.threads && s.threads[t] == Sending(Find(to, None), user)
    requires to in s.online && s.online[to] == d
    ensures Reachable(s') && AllFree(s') && s'.threads == s.threads[t := Sending(Deliver(d), user)]
    ensures s'.rooms == s.rooms && s'.online == s.online
  {
    FindBody(s, t, user, to, d);
    s' := Section(s, t, Hold(OnlineMu, Read), Nothing, Sending(Find(to, Some(d)), user).(phase := Out));
  }

  /** The collecting loop over no rooms at all. */
  lemma ScansNothing(s: State, t: ConnId, user: UserId) returns (s': State)
    requires Reachable(s) && AllFree(s) && t in s.threads && s.threads[t] == Leaving(Scan({}), user) && s.rooms == map[]
    ensures Reachable(s') && AllFree(s') && s'.threads == s.threads[t := Leaving(SweepNext, user)] && s'.online == s.online
  {
    ScanBody(s, t, user);
    s' := Section(s, t, Hold(RoomsMu, Read), Nothing, Leaving(Scan({}), user).(phase := Out));
  }

  lemma ScanBody(s: State, t: ConnId, user: UserId)
    requires t in s.threads && s.threads[t] == Leaving(Scan({}), user) && s.rooms == map[]
    ensures var inside := Inside(s, t, Hold(RoomsMu, Read));
            && Possible(inside, t, Body(Nothing)) && OnlineAfter(inside, t, Body(Nothing)) == s.online
            && BodyThread(inside, inside.threads[t], Nothing) == Leaving(Scan({}), user).(phase := Out)
  {
  }

  lemma Unregisters(s: State, t: ConnId, user: UserId) returns (s': State)
    requires Reachable(s) && AllFree(s) && t in s.threads && s.threads[t] == Leaving(Unregister, user)
    ensures Reachable(s') && AllFree(s') && s'.threads == s.threads[t := Leaving(Done, user)]
    ensures s'.online == s.online - {user}
  {
    UnregisterBody(s, t, user);
    s' := Section(s, t, Hold(OnlineMu, Write), Nothing, Leaving(Unregister, user).(phase := Out));
  }

  lemma UnregisterBody(s: State, t: ConnId, user: UserId)
    requires t in s.threads && s.threads[t] == Leaving(Unregister, user)
    ensures var inside := Inside(s, t, Hold(OnlineMu, Write));
            && Possible(inside, t, Body(Nothing)) && OnlineAfter(inside, t, Body(Nothing)) == s.online - {user}
            && BodyThread(inside, inside.threads[t], Nothing) == Leaving(Unregister, user).(phase := Out)
  {
  }

  /** The whole cleanup of a connection that is in no room. */
  lemma CleansUp(s: State, t: ConnId, user: UserId) returns (s': State)
    requires Reachable(s) && AllFree(s) && t in s.threads && s.threads[t] == Ready(Idle, user) && s.rooms == map[]
    ensures Reachable(s') && AllFree(s') && s'.threads == s.threads[t := Leaving(Done, user)]
    ensures s'.online == s.online - {user}
  {
    var s1 := Begin(s, t, HangUp);
    var s2 := ScansNothing(s1, t, user);
    var s3 := FreeMove(s2, t, Nothing);
    assert s3.threads[t] == Leaving(Unregister, user);
    s' := Unregisters(s3, t, user);
    LastWins(s.threads, t, s1.threads[t], s2.threads[t]);
    LastWins(s.threads, t, s2.threads[t], s3.threads[t]);
    LastWins(s.threads, t, s3.threads[t], Leaving(Done, user));
  }

  lemma TwoLogIn() returns (s: State)
    ensures Reachable(s) && AllFree(s) && s.threads == map[1 := Ready(Idle, "ann"), 2 := Ready(Idle, "bob")]
    ensures "bob" in s.online && s.online["bob"] == 2 && s.rooms == map[]
  {
    assert Orderly([]) && After([]) == INITIAL;
    var s1 := Login(INITIAL, 1, "ann");
    s := Login(s1, 2, "bob");
  }

  lemma LooksUp(s: State, t: ConnId, user: UserId, to: UserId, d: ConnId) returns (s': State)
    requires Reachable(s) && AllFree(s) && t in s.threads && s.threads[t] == Ready(Idle, user)
    requires to in s.online && s.online[to] == d
    ensures Reachable(s') && AllFree(s') && s'.threads == s.threads[t := Sending(Deliver(d), user)]
    ensures s'.rooms == s.rooms && s'.online == s.online
  {
    var s1 := Begin(s, t, DoPrivate(to));
    assert s1.threads[t] == Sending(Find(to, None), user);
    s' := FindsOnline(s1, t, user, to, d);
    LastWins(s.threads, t, s1.threads[t], Sending(Deliver(d), user));
  }

  /** The sender looks its recipient up, and only then the recipient leaves. */
  lemma SenderOutlivesRecipient(s: State) returns (s': State)
    requires Reachable(s) && AllFree(s) && s.threads == map[1 := Ready(Idle, "ann"), 2 := Ready(Idle, "bob")]
    requires "bob" in s.online && s.online["bob"] == 2 && s.rooms == map[]
    ensures Reachable(s') && s'.threads == map[1 := Sending(Deliver(2), "ann"), 2 := Leaving(Done, "bob")]
  {
    var s1 := LooksUp(s, 1, "ann", "bob", 2);
    s' := CleansUp(s1, 2, "bob");
  }

  lemma DeliveryOffers(s: State, t: ConnId, d: ConnId)
    requires t in s.threads && s.threads[t].task == Deliver(d)
    ensures Possible(s, t, Free(Nothing)) && OffersTo(s, t, Free(Nothing), d)
  {
  }

  /** Main result: a private message looked up in time is sent to a connection whose cleanup has finished. */
  lemma FinishedConnectionIsOffered()
    ensures exists s, t, d :: Reachable(s) && d in s.threads && s.threads[d].task.Done?
                              && Possible(s, t, Free(Nothing)) && OffersTo(s, t, Free(Nothing), d)
  {
    var s := TwoLogIn();
    var s' := SenderOutlivesRecipient(s);
    DeliveryOffers(s', 1, 2);
  }
}
