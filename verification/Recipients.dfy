/**
  Who gets what: a private message is only ever offered to connections that logged in as its
  recipient, a room message only to connections that joined the room, and a message left for an
  absent user stays undelivered until that user logs in.
 */
module Recipients {
  import opened Basics
  import opened MessageStore
  import opened GatewayModel
  import opened Membership
  import opened Delivery

  // ---- what happened so far ---------------------------------------------------------------

  predicate LogsIn(cfg: Config, s: State, e: Event, user: UserId)
    requires Possible(cfg, s, e)
  {
    e.Auth? && DecisionOn(cfg, s, e) == LoggedIn(user)
  }

  /** The logins of one step, as pairs of connection and user. */
  function NewLogins(cfg: Config, s: State, e: Event): set<(ConnId, UserId)>
    requires Possible(cfg, s, e)
  {
    if e.Auth? && DecisionOn(cfg, s, e).LoggedIn? then {(e.c, DecisionOn(cfg, s, e).user)} else {}
  }

  function NewJoins(s: State, e: Event): set<(ConnId, RoomId)> {
    if e.Join? && Identity(s, e.c).Some? then {(e.c, e.room)} else {}
  }

  ghost function Logins(cfg: Config, roles: map<UserId, Role>, evs: seq<Event>): set<(ConnId, UserId)>
    requires ValidRun(cfg, roles, evs)
  {
    if evs == [] then {}
    else
      var n := |evs| - 1;
      Logins(cfg, roles, evs[..n]) + NewLogins(cfg, After(cfg, roles, evs[..n]), evs[n])
  }

  ghost function Joins(cfg: Config, roles: map<UserId, Role>, evs: seq<Event>): set<(ConnId, RoomId)>
    requires ValidRun(cfg, roles, evs)
  {
    if evs == [] then {}
    else
      var n := |evs| - 1;
      Joins(cfg, roles, evs[..n]) + NewJoins(After(cfg, roles, evs[..n]), evs[n])
  }

  // ---- addressees -------------------------------------------------------------------------

  /** The connection has earned the frame. */
  predicate Addressed(logins: set<(ConnId, UserId)>, joins: set<(ConnId, RoomId)>, c: ConnId, f: Frame) {
    match f
    case PrivateMessage(_, _, _, to) => (c, to) in logins
    case RoomMessage(_, _, _, room) => (c, room) in joins
    case Reply(_) => true
  }

  ghost predicate AllAddressed(logins: set<(ConnId, UserId)>, joins: set<(ConnId, RoomId)>, c: ConnId, fs: seq<Frame>) {
    forall i :: 0 <= i < |fs| ==> Addressed(logins, joins, c, fs[i])
  }

  ghost predicate OnlineEarned(online: map<UserId, Client>, logins: set<(ConnId, UserId)>) {
    forall u :: u in online ==> (online[u].conn, u) in logins
  }

  ghost predicate MembersEarned(rooms: map<RoomId, Members>, joins: set<(ConnId, RoomId)>) {
    forall r, u :: r in rooms && u in rooms[r] ==> (rooms[r][u].conn, r) in joins
  }

  ghost predicate Earned(s: State, logins: set<(ConnId, UserId)>, joins: set<(ConnId, RoomId)>) {
    && OnlineEarned(s.online, logins) && MembersEarned(s.rooms, joins)
    && forall c :: c in s.chans ==> AllAddressed(logins, joins, c, OfferedTo(s, c))
  }

  lemma StepMembersEarned(cfg: Config, s: State, e: Event, joins: set<(ConnId, RoomId)>)
    requires Possible(cfg, s, e) && WellFormed(s) && MembersEarned(s.rooms, joins)
    ensures MembersEarned(RoomsAfter(cfg, s, e), joins + NewJoins(s, e))
  {
    var rooms: map<RoomId, Members> := RoomsAfter(cfg, s, e);
    forall r: RoomId, u: UserId | r in rooms && u in rooms[r]
      ensures (rooms[r][u].conn, r) in joins + NewJoins(s, e)
    {
      StepLookup(cfg, s, e, r, u);
      assert Lookup(rooms, r, u) == Some(rooms[r][u]);
    }
  }

  /** A broadcast that reaches a connection found it listed in the room. */
  lemma CopyNeedsMember(members: Members, c: ConnId) returns (u: UserId)
    requires CopiesFor(members, members.Keys, c) > 0
    ensures u in members && members[u].conn == c
  {
    var listed := set v | v in members.Keys && v in members && members[v].conn == c;
    u :| u in listed;
  }

  lemma NewFramesAddressed(cfg: Config, s: State, e: Event, c: ConnId, logins: set<(ConnId, UserId)>, joins: set<(ConnId, RoomId)>)
    requires Possible(cfg, s, e) && OnlineEarned(s.online, logins) && MembersEarned(s.rooms, joins)
    ensures AllAddressed(logins + NewLogins(cfg, s, e), joins, c, NewFrames(cfg, s, e, c))
  {
    if e.Send? && s.sessions[e.c].me.Some? {
      var members := MembersOf(s.rooms, e.room);
      if CopiesFor(members, members.Keys, c) > 0 {
        var u := CopyNeedsMember(members, c);
        assert (c, e.room) in joins;
      }
    }
  }

  lemma FramesStayAddressed(logins: set<(ConnId, UserId)>, joins: set<(ConnId, RoomId)>,
                            logins': set<(ConnId, UserId)>, joins': set<(ConnId, RoomId)>, c: ConnId, xs: seq<Frame>, ys: seq<Frame>)
    requires logins <= logins' && joins <= joins'
    requires AllAddressed(logins, joins, c, xs) && AllAddressed(logins', joins, c, ys)
    ensures AllAddressed(logins', joins', c, xs + ys)
  {
    forall i | 0 <= i < |xs + ys|
      ensures Addressed(logins', joins', c, (xs + ys)[i])
    {
      assert Addressed(logins', joins, c, (xs + ys)[i]);
    }
  }

  lemma StepEarned(cfg: Config, s: State, e: Event, logins: set<(ConnId, UserId)>, joins: set<(ConnId, RoomId)>)
    requires Possible(cfg, s, e) && WellFormed(s) && Earned(s, logins, joins)
    ensures Earned(Step(cfg, s, e), logins + NewLogins(cfg, s, e), joins + NewJoins(s, e))
  {
    var s' := Step(cfg, s, e);
    StepMembersEarned(cfg, s, e, joins);
    assert OnlineEarned(OnlineAfter(cfg, s, e), logins + NewLogins(cfg, s, e));
    forall c | c in s'.chans
      ensures AllAddressed(logins + NewLogins(cfg, s, e), joins + NewJoins(s, e), c, OfferedTo(s', c))
    {
      RecordGrows(cfg, s, e, c);
      NewFramesAddressed(cfg, s, e, c, logins, joins);
      FramesStayAddressed(logins, joins, logins + NewLogins(cfg, s, e), joins + NewJoins(s, e), c,
                          OfferedTo(s, c), if c in s.chans then NewFrames(cfg, s, e, c) else []);
    }
  }

  /**
    Main result: in every run a private message is offered only to connections that logged in as
    its recipient, and a room message only to connections that joined that room.
   */
  lemma {:induction false} OnlyAddresseesAreOffered(cfg: Config, roles: map<UserId, Role>, evs: seq<Event>)
    requires ValidRun(cfg, roles, evs)
    ensures Earned(After(cfg, roles, evs), Logins(cfg, roles, evs), Joins(cfg, roles, evs))
  {
    if evs != [] {
      var n := |evs| - 1;
      OnlyAddresseesAreOffered(cfg, roles, evs[..n]);
      RunWellFormed(cfg, roles, evs[..n]);
      StepEarned(cfg, After(cfg, roles, evs[..n]), evs[n], Logins(cfg, roles, evs[..n]), Joins(cfg, roles, evs[..n]));
    }
  }

  // ---- messages left for absent users -------------------------------------------------------

  predicate SendsPrivate(s: State, e: Event, m: MsgId, user: UserId) {
    e.Private? && SendsMessage(s, e) && s.nextMsg == m && e.to == user
  }

  /** Message `m` was sent to `user` while absent, and `user` has not logged in since, or has no name. */
  ghost predicate LeftFor(cfg: Config, roles: map<UserId, Role>, evs: seq<Event>, m: MsgId, user: UserId)
    requires ValidRun(cfg, roles, evs)
  {
    evs != [] &&
    var n := |evs| - 1;
    var s := After(cfg, roles, evs[..n]);
    || (SendsPrivate(s, evs[n], m, user) && user !in s.online)
    || (LeftFor(cfg, roles, evs[..n], m, user) && (user == "" || !LogsIn(cfg, s, evs[n], user)))
  }

  predicate IsUndelivered(d: Doc, m: MsgId, user: UserId) {
    d.msg == m && d.to == Recipient(user) && !d.delivered
  }

  /** The message waits for its recipient: in a goroutine that has yet to save it, or in the store. */
  ghost predicate Held(s: State, m: MsgId, user: UserId) {
    || (m in s.pending && IsUndelivered(s.pending[m].doc, m, user))
    || (exists k :: k in s.docs && IsUndelivered(s.docs[k], m, user))
  }

  lemma StepHeld(cfg: Config, s: State, e: Event, m: MsgId, user: UserId)
    requires Possible(cfg, s, e) && WellFormed(s) && StoreSound(s) && Held(s, m, user)
    requires user == "" || !LogsIn(cfg, s, e, user)
    ensures m in FailedAfter(cfg, s, e) || Held(Step(cfg, s, e), m, user)
  {
    var s' := Step(cfg, s, e);
    if m in s.pending && IsUndelivered(s.pending[m].doc, m, user) {
      if e.SaveDone? && e.msg == m && SaveLands(s, m, e.ok) {
        assert s'.docs[s.pending[m].key] == s.pending[m].doc;
      }
    } else {
      var k :| k in s.docs && IsUndelivered(s.docs[k], m, user);
      DocsOnlyAdvance(cfg, s, e, k);
      if DocsAfter(cfg, s, e)[k].delivered {
        DeliveredOnlyByPull(cfg, s, e, k);
      }
      assert k in s'.docs;
    }
  }

  lemma FailedForever(cfg: Config, s: State, e: Event, m: MsgId)
    requires Possible(cfg, s, e) && m in s.failed
    ensures m in FailedAfter(cfg, s, e)
  {
  }

  /**
    Main result: a message left for an absent user is held undelivered, or its save failed, until
    that user logs in; one left for the empty name is so for ever.
   */
  lemma {:induction false} UndeliveredUntilLogin(cfg: Config, roles: map<UserId, Role>, evs: seq<Event>, m: MsgId, user: UserId)
    requires ValidRun(cfg, roles, evs) && cfg.mongo && LeftFor(cfg, roles, evs, m, user)
    ensures m in After(cfg, roles, evs).failed || Held(After(cfg, roles, evs), m, user)
  {
    var n := |evs| - 1;
    var s := After(cfg, roles, evs[..n]);
    if !(SendsPrivate(s, evs[n], m, user) && user !in s.online) {
      UndeliveredUntilLogin(cfg, roles, evs[..n], m, user);
      RunWellFormed(cfg, roles, evs[..n]);
      RunAccounted(cfg, roles, evs[..n]);
      if m in s.failed {
        FailedForever(cfg, s, evs[n], m);
      } else {
        StepHeld(cfg, s, evs[n], m, user);
      }
    }
  }
}
