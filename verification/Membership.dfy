/**
  Rooms at handler-step granularity: the map of maps refines a simple membership relation over
  the history, registered rooms are empty for one reason only, and a disconnect makes a
  connection unreachable exactly when it never switched identity.
 */
module Membership {
  import opened Basics
  import opened GatewayModel

  /** Who the rooms say is in `room` as `user`. */
  function Lookup(rooms: map<RoomId, Members>, room: RoomId, user: UserId): Option<Client> {
    if room in rooms && user in rooms[room] then Some(rooms[room][user]) else None
  }

  /** The client a connection is identified as, if any. */
  function Identity(s: State, c: ConnId): Option<Client> {
    if c in s.sessions then s.sessions[c].me else None
  }

  predicate ActsAs(s: State, c: ConnId, user: UserId) {
    Identity(s, c).Some? && Identity(s, c).value.user == user
  }

  /**
    The reference: the latest join, leave or disconnect that concerns (room, user) decides. It
    knows nothing of Room objects, of their creation or of their removal.
   */
  ghost function Latest(cfg: Config, roles: map<UserId, Role>, evs: seq<Event>, room: RoomId, user: UserId)
    : Option<Client>
    requires ValidRun(cfg, roles, evs)
  {
    if evs == [] then None
    else
      var n := |evs| - 1;
      var s := After(cfg, roles, evs[..n]);
      match evs[n]
      case Join(c, r) => if r == room && ActsAs(s, c, user) then Identity(s, c)
                         else Latest(cfg, roles, evs[..n], room, user)
      case Leave(c, r) => if r == room && ActsAs(s, c, user) then None
                          else Latest(cfg, roles, evs[..n], room, user)
      case Disconnect(c) => if ActsAs(s, c, user) then None else Latest(cfg, roles, evs[..n], room, user)
      case _ => Latest(cfg, roles, evs[..n], room, user)
  }

  /** Main result: after any run the rooms hold exactly the reference relation. */
  lemma {:induction false} RoomsRefineMembership(cfg: Config, roles: map<UserId, Role>, evs: seq<Event>,
                                                 room: RoomId, user: UserId)
    requires ValidRun(cfg, roles, evs)
    ensures Lookup(After(cfg, roles, evs).rooms, room, user) == Latest(cfg, roles, evs, room, user)
  {
    if evs != [] {
      var n := |evs| - 1;
      RoomsRefineMembership(cfg, roles, evs[..n], room, user);
      StepLookup(cfg, After(cfg, roles, evs[..n]), evs[n], room, user);
    }
  }

  /** One step changes a membership only by a join, a leave or a disconnect of that user. */
  lemma StepLookup(cfg: Config, s: State, e: Event, room: RoomId, user: UserId)
    requires Possible(cfg, s, e)
    ensures Lookup(RoomsAfter(cfg, s, e), room, user) ==
            (match e
             case Join(c, r) => if r == room && ActsAs(s, c, user) then Identity(s, c) else Lookup(s.rooms, room, user)
             case Leave(c, r) => if r == room && ActsAs(s, c, user) then None else Lookup(s.rooms, room, user)
             case Disconnect(c) => if ActsAs(s, c, user) then None else Lookup(s.rooms, room, user)
             case _ => Lookup(s.rooms, room, user))
  {
    if e.Leave? && s.sessions[e.c].me.Some? {
      LookupLeave(s.rooms, e.room, s.sessions[e.c].me.value.user, room, user);
    }
  }

  lemma LookupLeave(rooms: map<RoomId, Members>, left: RoomId, me: UserId, room: RoomId, user: UserId)
    ensures Lookup(RemoveEmpty(RemoveMember(rooms, left, me), left), room, user)
            == if left == room && me == user then None else Lookup(rooms, room, user)
  {
    var removed := RemoveMember(rooms, left, me);
    if |removed[left]| == 0 {
      assert removed[left] == map[];
    }
  }

  // ---- empty rooms ----------------------------------------------------------------------

  ghost function EmptyRooms(rooms: map<RoomId, Members>): set<RoomId> {
    set r | r in rooms && rooms[r] == map[]
  }

  /** A `send` that finds no room registered under its name. */
  predicate CreatingSend(s: State, e: Event) {
    e.Send? && Identity(s, e.c).Some? && e.room !in s.rooms
  }

  predicate JoinsOrLeaves(s: State, e: Event, room: RoomId) {
    (e.Join? || e.Leave?) && e.room == room && Identity(s, e.c).Some?
  }

  /** The latest event that matters to an empty room was a send that created it. */
  ghost predicate EmptyBySend(cfg: Config, roles: map<UserId, Role>, evs: seq<Event>, room: RoomId)
    requires ValidRun(cfg, roles, evs)
  {
    evs != [] &&
    var n := |evs| - 1;
    var s, e := After(cfg, roles, evs[..n]), evs[n];
    if CreatingSend(s, e) && e.room == room then true
    else if JoinsOrLeaves(s, e, room) then false
    else EmptyBySend(cfg, roles, evs[..n], room)
  }

  ghost function CreatingSends(cfg: Config, roles: map<UserId, Role>, evs: seq<Event>): nat
    requires ValidRun(cfg, roles, evs)
  {
    if evs == [] then 0
    else
      var n := |evs| - 1;
      CreatingSends(cfg, roles, evs[..n]) + if CreatingSend(After(cfg, roles, evs[..n]), evs[n]) then 1 else 0
  }

  lemma StepEmptyRooms(cfg: Config, s: State, e: Event, room: RoomId)
    requires Possible(cfg, s, e)
    ensures room in EmptyRooms(RoomsAfter(cfg, s, e))
            <==> if CreatingSend(s, e) && e.room == room then true
                 else if JoinsOrLeaves(s, e, room) then false
                 else room in EmptyRooms(s.rooms)
  {
    match e
    case Join(c, r) => if s.sessions[c].me.Some? { JoinFills(s.rooms, r, s.sessions[c].me.value, room); }
    case Leave(c, r) => if s.sessions[c].me.Some? { LeaveFillsOrRemoves(s.rooms, r, s.sessions[c].me.value.user, room); }
    case Disconnect(c) =>
      if s.sessions[c].me.Some? && room in s.rooms { SweptRoom(s.rooms, s.sessions[c].me.value.user, room); }
    case _ =>
  }

  lemma JoinFills(rooms: map<RoomId, Members>, joined: RoomId, me: Client, room: RoomId)
    ensures room in EmptyRooms(AddMember(rooms, joined, me)) <==> room != joined && room in EmptyRooms(rooms)
  {
    assert me.user in AddMember(rooms, joined, me)[joined];
  }

  lemma LeaveFillsOrRemoves(rooms: map<RoomId, Members>, left: RoomId, user: UserId, room: RoomId)
    ensures room in EmptyRooms(RemoveEmpty(RemoveMember(rooms, left, user), left))
            <==> room != left && room in EmptyRooms(rooms)
  {
    var removed := RemoveMember(rooms, left, user);
    assert removed[left] == map[] <==> |removed[left]| == 0;
  }

  /** The sweep leaves a room empty only if it was empty before. */
  lemma SweptRoom(rooms: map<RoomId, Members>, user: UserId, room: RoomId)
    requires room in rooms
    ensures room in Swept(rooms, user) && Swept(rooms, user)[room] == map[] <==> rooms[room] == map[]
  {
    if rooms[room] - {user} == map[] {
      assert rooms[room].Keys <= {user} by {
        forall u | u in rooms[room]
          ensures u == user
        {
          assert u in rooms[room] - {user} || u == user;
        }
      }
    }
  }

  /**
    Main result: the sweep takes the user out of every room, keeps every other membership, and
    drops exactly the rooms in which the user was alone; rooms empty before stay.
   */
  lemma SweepMeaning(rooms: map<RoomId, Members>, user: UserId, room: RoomId, other: UserId)
    ensures Lookup(Swept(rooms, user), room, user) == None
    ensures other != user ==> Lookup(Swept(rooms, user), room, other) == Lookup(rooms, room, other)
    ensures room in Swept(rooms, user) <==>
            room in rooms && (Lookup(rooms, room, user) == None || exists u :: u != user && Lookup(rooms, room, u) != None)
    ensures room in EmptyRooms(Swept(rooms, user)) <==> room in EmptyRooms(rooms)
  {
    if room in rooms {
      SweptRoom(rooms, user, room);
      if user in rooms[room] && !OnlyMember(rooms, room, user) {
        var u :| u in rooms[room] && u != user;
        assert Lookup(rooms, room, u) != None;
      }
    }
  }

  /** Main result: a registered room is empty exactly when a send created it and no join or leave followed. */
  lemma {:induction false} EmptyRoomIff(cfg: Config, roles: map<UserId, Role>, evs: seq<Event>, room: RoomId)
    requires ValidRun(cfg, roles, evs)
    ensures room in EmptyRooms(After(cfg, roles, evs).rooms) <==> EmptyBySend(cfg, roles, evs, room)
  {
    if evs != [] {
      var n := |evs| - 1;
      EmptyRoomIff(cfg, roles, evs[..n], room);
      StepEmptyRooms(cfg, After(cfg, roles, evs[..n]), evs[n], room);
    }
  }

  /** Main result: empty registered rooms never outnumber the sends to unregistered rooms. */
  lemma {:induction false} EmptyRoomAccounting(cfg: Config, roles: map<UserId, Role>, evs: seq<Event>)
    requires ValidRun(cfg, roles, evs)
    ensures |EmptyRooms(After(cfg, roles, evs).rooms)| <= CreatingSends(cfg, roles, evs)
  {
    if evs != [] {
      var n := |evs| - 1;
      var s, e := After(cfg, roles, evs[..n]), evs[n];
      EmptyRoomAccounting(cfg, roles, evs[..n]);
      var before, after := EmptyRooms(s.rooms), EmptyRooms(RoomsAfter(cfg, s, e));
      forall r | r in after
        ensures r in before || (CreatingSend(s, e) && r == e.room)
      {
        StepEmptyRooms(cfg, s, e, r);
      }
      if CreatingSend(s, e) {
        SubsetSize(after, before + {e.room});
      } else {
        SubsetSize(after, before);
      }
    }
  }

  // ---- reachability ---------------------------------------------------------------------

  /** Some registered room or the online table still leads to connection `c`. */
  ghost predicate Reachable(s: State, c: ConnId) {
    || (exists r, u :: r in s.rooms && u in s.rooms[r] && s.rooms[r][u].conn == c)
    || (exists u :: u in s.online && s.online[u].conn == c)
  }

  /** Everything that leads to `c` is filed under `user`. */
  ghost predicate OnlyAs(s: State, c: ConnId, user: UserId) {
    && (forall r, u :: r in s.rooms && u in s.rooms[r] && s.rooms[r][u].conn == c ==> u == user)
    && (forall u :: u in s.online && s.online[u].conn == c ==> u == user)
  }

  /** Main result: a disconnect makes the connection unreachable exactly when all that led to it bore its last name. */
  lemma UnreachableAfterDisconnectIff(cfg: Config, s: State, c: ConnId)
    requires Possible(cfg, s, Disconnect(c)) && s.sessions[c].me.Some?
    ensures !Reachable(Step(cfg, s, Disconnect(c)), c) <==> OnlyAs(s, c, s.sessions[c].me.value.user)
  {
    var user := s.sessions[c].me.value.user;
    var s' := Step(cfg, s, Disconnect(c));
    if !OnlyAs(s, c, user) {
      if r, u :| r in s.rooms && u in s.rooms[r] && s.rooms[r][u].conn == c && u != user {
        assert r in s'.rooms && u in s'.rooms[r] && s'.rooms[r][u].conn == c;
      } else {
        var u :| u in s.online && s.online[u].conn == c && u != user;
        assert u in s'.online;
      }
    }
  }

  /** Only a connection's own frames can make it reachable. */
  lemma StepUnreachable(cfg: Config, s: State, e: Event, c: ConnId)
    requires Possible(cfg, s, e) && WellFormed(s) && !Reachable(s, c)
    requires (e.Auth? || e.Join?) ==> e.c != c
    ensures !Reachable(Step(cfg, s, e), c)
  {
    RoomsStayClear(cfg, s, e, c);
    OnlineStaysClear(cfg, s, e, c);
  }

  lemma RoomsStayClear(cfg: Config, s: State, e: Event, c: ConnId)
    requires Possible(cfg, s, e) && WellFormed(s) && !Reachable(s, c) && (e.Join? ==> e.c != c)
    ensures forall r, u :: r in RoomsAfter(cfg, s, e) && u in RoomsAfter(cfg, s, e)[r] ==> RoomsAfter(cfg, s, e)[r][u].conn != c
  {
    var rooms: map<RoomId, Members> := RoomsAfter(cfg, s, e);
    forall r: RoomId, u: UserId | r in rooms && u in rooms[r]
      ensures rooms[r][u].conn != c
    {
      StepLookup(cfg, s, e, r, u);
      assert Lookup(rooms, r, u) == Some(rooms[r][u]);
    }
  }

  lemma OnlineStaysClear(cfg: Config, s: State, e: Event, c: ConnId)
    requires Possible(cfg, s, e) && !Reachable(s, c) && (e.Auth? ==> e.c != c)
    ensures forall u :: u in OnlineAfter(cfg, s, e) ==> OnlineAfter(cfg, s, e)[u].conn != c
  {
  }

  /** No event can make an ended connection reachable again. */
  lemma StaysUnreachable(cfg: Config, s: State, e: Event, c: ConnId)
    requires Possible(cfg, s, e) && WellFormed(s)
    requires c in s.sessions && s.sessions[c].ended && !Reachable(s, c)
    ensures var s' := Step(cfg, s, e); c in s'.sessions && s'.sessions[c].ended && !Reachable(s', c)
  {
    StepUnreachable(cfg, s, e, c);
    assert c in SessionsAfter(cfg, s, e) && SessionsAfter(cfg, s, e)[c].ended;
  }

  /**
    The assumption in `OnlyAs` is not idle: a connection that joins as one user, logs in again as
    another and then disconnects stays in the room under its first name.
   */
  lemma IdentitySwitchLeavesAMember(cfg: Config, s: State, c: ConnId, room: RoomId, login: Event)
    requires Reading(s, c) && NamesMatch(s.sessions) && s.sessions[c].me.Some?
    requires login.Auth? && login.c == c && Possible(cfg, Step(cfg, s, Join(c, room)), login)
    requires var d := DecisionOn(cfg, s, login); d.LoggedIn? && d.user != s.sessions[c].me.value.user
    ensures var switched := Step(cfg, Step(cfg, s, Join(c, room)), login);
            Possible(cfg, switched, Disconnect(c)) && Reachable(Step(cfg, switched, Disconnect(c)), c)
  {
    var first := s.sessions[c].me.value.user;
    var joined := Step(cfg, s, Join(c, room));
    var switched := Step(cfg, joined, login);
    assert switched.rooms[room][first].conn == c;
    var left := Step(cfg, switched, Disconnect(c));
    assert room in left.rooms && first in left.rooms[room] && left.rooms[room][first].conn == c;
  }

  ghost predicate NamesMatch(sessions: map<ConnId, Session>) {
    forall c :: c in sessions && sessions[c].me.Some? ==> sessions[c].me.value.conn == c
  }

  ghost predicate RoomsMatch(rooms: map<RoomId, Members>, conns: set<ConnId>) {
    forall r, u :: r in rooms && u in rooms[r] ==> rooms[r][u].user == u && rooms[r][u].conn in conns
  }

  ghost predicate OnlineMatches(online: map<UserId, Client>, conns: set<ConnId>) {
    forall u :: u in online ==> online[u].user == u && online[u].conn in conns
  }

  /** Clients are filed under their own names, sessions speak for themselves, and every connection has a channel. */
  ghost predicate WellFormed(s: State) {
    && s.sessions.Keys == s.chans.Keys
    && NamesMatch(s.sessions)
    && RoomsMatch(s.rooms, s.sessions.Keys)
    && OnlineMatches(s.online, s.sessions.Keys)
  }

  lemma SessionsStayNamed(cfg: Config, s: State, e: Event)
    requires Possible(cfg, s, e) && WellFormed(s)
    ensures NamesMatch(SessionsAfter(cfg, s, e))
    ensures SessionsAfter(cfg, s, e).Keys == s.sessions.Keys + if e.Connect? then {e.c} else {}
  {
  }

  lemma ChansStayKeyed(cfg: Config, s: State, e: Event)
    requires Possible(cfg, s, e) && WellFormed(s)
    ensures ChansAfter(cfg, s, e).Keys == s.chans.Keys + if e.Connect? then {e.c} else {}
  {
  }

  lemma RoomsStayMatched(cfg: Config, s: State, e: Event)
    requires Possible(cfg, s, e) && WellFormed(s)
    ensures RoomsMatch(RoomsAfter(cfg, s, e), s.sessions.Keys)
  {
    var rooms: map<RoomId, Members> := RoomsAfter(cfg, s, e);
    forall r: RoomId, u: UserId | r in rooms && u in rooms[r]
      ensures rooms[r][u].user == u && rooms[r][u].conn in s.sessions.Keys
    {
      StepLookup(cfg, s, e, r, u);
      assert Lookup(rooms, r, u) == Some(rooms[r][u]);
    }
  }

  lemma StepWellFormed(cfg: Config, s: State, e: Event)
    requires Possible(cfg, s, e) && WellFormed(s)
    ensures WellFormed(Step(cfg, s, e))
  {
    SessionsStayNamed(cfg, s, e);
    ChansStayKeyed(cfg, s, e);
    RoomsStayMatched(cfg, s, e);
    assert OnlineMatches(OnlineAfter(cfg, s, e), s.sessions.Keys);
  }

  lemma {:induction false} RunWellFormed(cfg: Config, roles: map<UserId, Role>, evs: seq<Event>)
    requires ValidRun(cfg, roles, evs)
    ensures WellFormed(After(cfg, roles, evs))
  {
    if evs != [] {
      var n := |evs| - 1;
      RunWellFormed(cfg, roles, evs[..n]);
      StepWellFormed(cfg, After(cfg, roles, evs[..n]), evs[n]);
    }
  }
}
