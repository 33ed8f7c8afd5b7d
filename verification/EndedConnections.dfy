/**
  Connections after their disconnect, at handler-step granularity: while nobody switches identity
  nothing is offered to them any more, and with identity switches exactly those are that a room or
  the online table still leads to.
 */
module EndedConnections {
  import opened Basics
  import opened MessageStore
  import opened GatewayModel
  import opened Membership
  import opened Delivery

  // ---- no identity switch -----------------------------------------------------------------

  /** A login that names the user this connection already is. */
  predicate KeepsName(cfg: Config, s: State, e: Event)
    requires Possible(cfg, s, e)
  {
    e.Auth? && DecisionOn(cfg, s, e).LoggedIn? && s.sessions[e.c].me.Some? ==>
      s.sessions[e.c].me.value.user == DecisionOn(cfg, s, e).user
  }

  /** All logins of one connection name the same user. */
  ghost predicate NoSwitch(cfg: Config, roles: map<UserId, Role>, evs: seq<Event>)
    requires ValidRun(cfg, roles, evs)
  {
    evs == [] ||
    (var n := |evs| - 1; NoSwitch(cfg, roles, evs[..n]) && KeepsName(cfg, After(cfg, roles, evs[..n]), evs[n]))
  }

  /** The connection is open and known as `user`. */
  predicate Live(sessions: map<ConnId, Session>, c: ConnId, user: UserId) {
    c in sessions && sessions[c].me == Some(Client(user, c)) && !sessions[c].ended
  }

  /** Every entry leads to an open connection, filed under the name it has. */
  ghost predicate EntriesLive(rooms: map<RoomId, Members>, online: map<UserId, Client>, sessions: map<ConnId, Session>) {
    && (forall r, u :: r in rooms && u in rooms[r] ==> Live(sessions, rooms[r][u].conn, u))
    && (forall u :: u in online ==> Live(sessions, online[u].conn, u))
  }

  lemma StaysLive(cfg: Config, s: State, e: Event, c: ConnId, user: UserId)
    requires Possible(cfg, s, e) && KeepsName(cfg, s, e) && Live(s.sessions, c, user)
    ensures Live(SessionsAfter(cfg, s, e), c, user) || e == Disconnect(c)
  {
  }

  lemma StepRoomsLive(cfg: Config, s: State, e: Event, r: RoomId, u: UserId)
    requires Possible(cfg, s, e) && KeepsName(cfg, s, e) && WellFormed(s) && EntriesLive(s.rooms, s.online, s.sessions)
    requires r in RoomsAfter(cfg, s, e) && u in RoomsAfter(cfg, s, e)[r]
    ensures Live(SessionsAfter(cfg, s, e), RoomsAfter(cfg, s, e)[r][u].conn, u)
  {
    var c := RoomsAfter(cfg, s, e)[r][u].conn;
    StepLookup(cfg, s, e, r, u);
    assert Lookup(RoomsAfter(cfg, s, e), r, u) == Some(RoomsAfter(cfg, s, e)[r][u]);
    assert Live(s.sessions, c, u);
    StaysLive(cfg, s, e, c, u);
  }

  lemma StepOnlineLive(cfg: Config, s: State, e: Event, u: UserId)
    requires Possible(cfg, s, e) && KeepsName(cfg, s, e) && EntriesLive(s.rooms, s.online, s.sessions)
    requires u in OnlineAfter(cfg, s, e)
    ensures Live(SessionsAfter(cfg, s, e), OnlineAfter(cfg, s, e)[u].conn, u)
  {
    if u in s.online && OnlineAfter(cfg, s, e)[u] == s.online[u] {
      StaysLive(cfg, s, e, s.online[u].conn, u);
    }
  }

  lemma {:induction false} RunEntriesLive(cfg: Config, roles: map<UserId, Role>, evs: seq<Event>)
    requires ValidRun(cfg, roles, evs) && NoSwitch(cfg, roles, evs)
    ensures var s := After(cfg, roles, evs); EntriesLive(s.rooms, s.online, s.sessions)
  {
    if evs != [] {
      var n := |evs| - 1;
      var s, e := After(cfg, roles, evs[..n]), evs[n];
      RunEntriesLive(cfg, roles, evs[..n]);
      RunWellFormed(cfg, roles, evs[..n]);
      forall r: RoomId, u: UserId | r in RoomsAfter(cfg, s, e) && u in RoomsAfter(cfg, s, e)[r]
        ensures Live(SessionsAfter(cfg, s, e), RoomsAfter(cfg, s, e)[r][u].conn, u)
      {
        StepRoomsLive(cfg, s, e, r, u);
      }
      forall u: UserId | u in OnlineAfter(cfg, s, e)
        ensures Live(SessionsAfter(cfg, s, e), OnlineAfter(cfg, s, e)[u].conn, u)
      {
        StepOnlineLive(cfg, s, e, u);
      }
    }
  }

  predicate Ended(s: State, c: ConnId) {
    c in s.sessions && s.sessions[c].ended
  }

  /** A step offers nothing to an ended connection that nothing leads to. */
  lemma UnreachableGetsNothing(cfg: Config, s: State, e: Event, c: ConnId)
    requires Possible(cfg, s, e) && Ended(s, c) && !Reachable(s, c)
    ensures NewFrames(cfg, s, e, c) == []
  {
    if e.Send? && s.sessions[e.c].me.Some? {
      var members := MembersOf(s.rooms, e.room);
      assert (set u | u in members.Keys && u in members && members[u].conn == c) == {};
    }
  }

  /** Main result: without an identity switch no step of any run offers an ended connection anything. */
  lemma EndedIsNeverOffered(cfg: Config, roles: map<UserId, Role>, evs: seq<Event>, e: Event, c: ConnId)
    requires ValidRun(cfg, roles, evs) && NoSwitch(cfg, roles, evs)
    requires Possible(cfg, After(cfg, roles, evs), e) && Ended(After(cfg, roles, evs), c)
    ensures !Reachable(After(cfg, roles, evs), c) && NewFrames(cfg, After(cfg, roles, evs), e, c) == []
  {
    RunEntriesLive(cfg, roles, evs);
    UnreachableGetsNothing(cfg, After(cfg, roles, evs), e, c);
  }

  // ---- with identity switches -------------------------------------------------------------

  /** The events can follow, and one of them offers `c` a frame. */
  ghost predicate Offers(cfg: Config, s: State, evs: seq<Event>, c: ConnId)
    decreases |evs|
  {
    evs != [] && Possible(cfg, s, evs[0])
    && (NewFrames(cfg, s, evs[0], c) != [] || Offers(cfg, Step(cfg, s, evs[0]), evs[1..], c))
  }

  ghost predicate CanBeOffered(cfg: Config, s: State, c: ConnId) {
    exists evs: seq<Event> :: Offers(cfg, s, evs, c)
  }

  lemma {:induction false} UnreachableForEver(cfg: Config, s: State, evs: seq<Event>, c: ConnId)
    requires WellFormed(s) && Ended(s, c) && !Reachable(s, c)
    ensures !Offers(cfg, s, evs, c)
    decreases |evs|
  {
    if evs != [] && Possible(cfg, s, evs[0]) {
      UnreachableGetsNothing(cfg, s, evs[0], c);
      StaysUnreachable(cfg, s, evs[0], c);
      StepWellFormed(cfg, s, evs[0]);
      UnreachableForEver(cfg, Step(cfg, s, evs[0]), evs[1..], c);
    }
  }

  /** A newcomer `x` can always log in, under a name other than `u`. */
  lemma NewcomerLogsIn(cfg: Config, s: State, u: UserId) returns (connect: Event, login: Event, s2: State)
    requires WellFormed(s)
    ensures Possible(cfg, s, connect) && Possible(cfg, Step(cfg, s, connect), login)
    ensures s2 == Step(cfg, Step(cfg, s, connect), login)
    ensures connect.Connect? && Reading(s2, connect.c) && s2.sessions[connect.c].me.Some?
    ensures s2.rooms == s.rooms && (u in s.online ==> u in s2.online && s2.online[u] == s.online[u])
  {
    var x := Above(s.sessions.Keys);
    var name := u + "'";
    connect, login := Connect(x), Auth(x, name, Valid(name), false, FindFailed);
    assert |name| > |u|;
    var s1 := Step(cfg, s, connect);
    assert DecisionOn(cfg, s1, login) == LoggedIn(name);
    s2 := Step(cfg, s1, login);
  }

  lemma OffersThird(cfg: Config, s: State, e1: Event, e2: Event, e3: Event, c: ConnId)
    requires Possible(cfg, s, e1) && Possible(cfg, Step(cfg, s, e1), e2)
    requires var s2 := Step(cfg, Step(cfg, s, e1), e2); Possible(cfg, s2, e3) && NewFrames(cfg, s2, e3, c) != []
    ensures CanBeOffered(cfg, s, c)
  {
    var s1 := Step(cfg, s, e1);
    var s2 := Step(cfg, s1, e2);
    assert Offers(cfg, s2, [e3], c);
    assert [e2, e3][1..] == [e3] && Offers(cfg, s1, [e2, e3], c);
    assert [e1, e2, e3][1..] == [e2, e3] && Offers(cfg, s, [e1, e2, e3], c);
  }

  lemma MemberIsOffered(cfg: Config, s: State, x: ConnId, r: RoomId, u: UserId, c: ConnId)
    requires Reading(s, x) && s.sessions[x].me.Some? && r in s.rooms && u in s.rooms[r] && s.rooms[r][u].conn == c
    ensures NewFrames(cfg, s, Send(x, r, ""), c) != []
  {
    var members := s.rooms[r];
    var listed := set v | v in members.Keys && v in members && members[v].conn == c;
    assert u in listed;
  }

  lemma ReachableIsOffered(cfg: Config, s: State, c: ConnId)
    requires WellFormed(s) && Reachable(s, c)
    ensures CanBeOffered(cfg, s, c)
  {
    if r, u :| r in s.rooms && u in s.rooms[r] && s.rooms[r][u].conn == c {
      var connect, login, s2 := NewcomerLogsIn(cfg, s, u);
      MemberIsOffered(cfg, s2, connect.c, r, u, c);
      OffersThird(cfg, s, connect, login, Send(connect.c, r, ""), c);
    } else {
      var u :| u in s.online && s.online[u].conn == c;
      var connect, login, s2 := NewcomerLogsIn(cfg, s, u);
      OffersThird(cfg, s, connect, login, Private(connect.c, u, ""), c);
    }
  }

  /**
    Main result: after any run, identity switches included, an ended connection can still be offered
    a frame exactly when some registered room or the online table leads to it.
   */
  lemma EndedOfferedIff(cfg: Config, roles: map<UserId, Role>, evs: seq<Event>, c: ConnId)
    requires ValidRun(cfg, roles, evs) && Ended(After(cfg, roles, evs), c)
    ensures CanBeOffered(cfg, After(cfg, roles, evs), c) <==> Reachable(After(cfg, roles, evs), c)
  {
    var s := After(cfg, roles, evs);
    RunWellFormed(cfg, roles, evs);
    if Reachable(s, c) {
      ReachableIsOffered(cfg, s, c);
    } else {
      forall more: seq<Event>
        ensures !Offers(cfg, s, more, c)
      {
        UnreachableForEver(cfg, s, more, c);
      }
    }
  }
}
