/**
  The gateway as its source writes it: the room table, the online table, one object per
  connection with its read loop's local state, and handlers that update them in place. Each
  handler is proved to perform the corresponding step of GatewayModel.
 */
module GatewayServer {
  import opened Basics
  import opened Channels
  import opened MessageStore
  import opened GatewayModel
  import opened Membership
  import opened Rooms

  class Gateway {
    const cfg: Config
    const mongo: MangoStore
    const table: RoomTable
    const out: Outboxes<Frame>
    /** Per connection: the socket's closed flag and the local variables of its read loop. */
    var sessions: map<ConnId, Session>
    var online: map<UserId, Client>
    var roles: map<UserId, Role>
    var pending: map<MsgId, Save>
    var failed: set<MsgId>
    var nextMsg: MsgId

    ghost function View(): State
      reads this, mongo, out, table, table.rooms.Values
    {
      State(sessions, out.chans, table.View(), online, roles, mongo.docs, pending, failed, nextMsg)
    }

    ghost predicate Valid()
      reads this, mongo, out, table, table.rooms.Values
    {
      table.Valid() && WellFormed(View())
    }

    /** The room table is sound and shares nothing with the store and the channels. */
    ghost predicate Apart()
      reads this, table, table.rooms.Values
    {
      && table.Valid()
      && out as object !in table.Repr() && mongo as object !in table.Repr() && this as object !in table.Repr()
    }

    constructor (cfg: Config, roles: map<UserId, Role>)
      ensures Valid() && this.cfg == cfg && View() == Init(roles)
      ensures fresh(mongo) && fresh(out) && fresh(table.Repr())
    {
      this.cfg, this.roles := cfg, roles;
      mongo := new MangoStore();
      table := new RoomTable();
      out := new Outboxes();
      sessions, online, pending, failed, nextMsg := map[], map[], map[], {}, 0;
    }

    /** A non-blocking send into somebody's channel. */
    method Emit(c: ConnId, f: Frame)
      requires c in out.chans && Apart()
      modifies out
      ensures out.chans == OfferTo(old(out.chans), c, f)
      ensures Apart() && table.View() == old(table.View())
    {
      out.TrySend(c, f);
    }

    /** A reply to the connection itself. */
    method SendJSON(c: ConnId, notice: Notice)
      requires c in out.chans && Apart()
      modifies out
      ensures out.chans == OfferTo(old(out.chans), c, Reply(notice))
      ensures Apart() && table.View() == old(table.View())
    {
      Emit(c, Reply(notice));
    }

    // ---- clients.go -----------------------------------------------------------------------

    method RegisterOnline(c: Client)
      requires Apart()
      modifies this`online
      ensures online == old(online)[c.user := c]
      ensures Apart() && table.View() == old(table.View())
    {
      online := online[c.user := c];
    }

    method UnregisterOnline(user: UserId)
      requires Apart()
      modifies this`online
      ensures online == old(online) - {user}
      ensures Apart() && table.View() == old(table.View())
    {
      online := online - {user};
    }

    method GetOnlineClient(user: UserId) returns (c: Option<Client>)
      ensures c == if user in online then Some(online[user]) else None
    {
      c := if user in online then Some(online[user]) else None;
    }

    /** Every online user exactly once. */
    method GetOnlineUsers() returns (users: seq<UserId>)
      ensures Enumerates(users, online.Keys) && |users| == |online|
    {
      users := KeysOf(online.Keys);
    }

    // ---- auth -----------------------------------------------------------------------------

    /**
      The auth case up to its outcome: counts the attempt, asks the oracle while attempts last,
      looks for a ban, and either takes the user's name or says why not. Where the source breaks
      out of its switch after closing the socket, the read loop goes on.
     */
    method Authenticate(c: ConnId, token: string, verdict: Verdict, dbOk: bool) returns (d: Decision)
      requires c in sessions && Apart()
      modifies this`sessions
      ensures Apart() && table.View() == old(table.View())
      ensures d == Decide(cfg, roles, old(sessions)[c].authAttempts, token, verdict, dbOk)
      ensures sessions == old(sessions)[c := AuthSession(cfg, old(sessions)[c], c, verdict, d)]
    {
      var ses := sessions[c];
      if !cfg.authSvc {
        if token == "" {
          d := NoToken;
        } else {
          d, ses := LoggedIn(token), ses.(me := Some(Client(token, c)));
        }
      } else {
        ses := ses.(authAttempts := ses.authAttempts + 1);
        if ses.authAttempts > MAX_AUTH_ATTEMPTS {
          d, ses := TooMany, ses.(closed := true);
        } else {
          ses := ses.(validateCalls := ses.validateCalls + 1);
          if verdict.Invalid? {
            d := Rejected;
            assert ses.validated == ses.validated + {};
          } else {
            var user := verdict.user;
            ses := ses.(validated := ses.validated + {user});
            if cfg.db && dbOk && user in roles && roles[user] == Banned {
              d, ses := Refused, ses.(closed := true);
            } else {
              d, ses := LoggedIn(user), ses.(me := Some(Client(user, c)));
            }
          }
        }
      }
      sessions := sessions[c := ses];
    }

    /** Pulls what waited for the user and offers it, in the order it came, to the user's channel. */
    method PushUndelivered(user: UserId, pull: PullOutcome)
      requires cfg.mongo ==> PullPossible(mongo.docs, user, pull)
      requires user in online ==> online[user].conn in out.chans
      requires Apart()
      modifies mongo, out
      ensures Apart() && table.View() == old(table.View())
      ensures mongo.docs == if cfg.mongo then AfterPull(old(mongo.docs), user, pull) else old(mongo.docs)
      ensures out.chans == if user in online then OfferAllTo(old(out.chans), online[user].conn,
                                                             Pushed(cfg, old(mongo.docs), user, pull))
                           else old(out.chans)
    {
      if !cfg.mongo {
        return;
      }
      ghost var frames := Pushed(cfg, mongo.docs, user, pull);
      var msgs := mongo.PullUndeliveredForUser(user, pull);
      if msgs == None {
        return;
      }
      var c := GetOnlineClient(user);
      if c == None {
        return;
      }
      var i := 0;
      while i < |msgs.value|
        invariant 0 <= i <= |msgs.value| == |frames| && c.value.conn in out.chans
        invariant Apart() && table.View() == old(table.View())
        invariant mongo.docs == AfterPull(old(mongo.docs), user, pull)
        invariant out.chans == OfferAllTo(old(out.chans), c.value.conn, frames[..i])
      {
        var m := msgs.value[i];
        assert frames[..i + 1][..i] == frames[..i];
        Emit(c.value.conn, PrivateMessage(m.msg, m.from, m.src, user));
        i := i + 1;
      }
      assert frames[..|frames|] == frames;
    }

    /** What the case "auth" does, in terms of the parts it touches. */
    method LogIn(c: ConnId, token: string, verdict: Verdict, dbOk: bool, pull: PullOutcome) returns (d: Decision)
      requires Apart() && c in sessions && c in out.chans
      requires var d := Decide(cfg, roles, sessions[c].authAttempts, token, verdict, dbOk);
               d.LoggedIn? && cfg.mongo ==> PullPossible(mongo.docs, d.user, pull)
      modifies this`sessions, this`online, mongo, out
      ensures Apart() && table.View() == old(table.View())
      ensures d == Decide(cfg, roles, old(sessions)[c].authAttempts, token, verdict, dbOk)
      ensures sessions == old(sessions)[c := AuthSession(cfg, old(sessions)[c], c, verdict, d)]
      ensures d.LoggedIn? ==>
        && online == old(online)[d.user := Client(d.user, c)]
        && mongo.docs == (if cfg.mongo then AfterPull(old(mongo.docs), d.user, pull) else old(mongo.docs))
        && out.chans == OfferTo(OfferAllTo(old(out.chans), c, Pushed(cfg, old(mongo.docs), d.user, pull)),
                                c, Reply(AuthNotice(d)))
      ensures !d.LoggedIn? ==>
        online == old(online) && mongo.docs == old(mongo.docs) && out.chans == OfferTo(old(out.chans), c, Reply(AuthNotice(d)))
    {
      d := Authenticate(c, token, verdict, dbOk);
      match d
      case NoToken => SendJSON(c, TokenRequired);
      case TooMany => SendJSON(c, TooManyAttempts);
      case Rejected => SendJSON(c, AuthFailed);
      case Refused => SendJSON(c, AccountBanned);
      case LoggedIn(user) =>
        RegisterOnline(Client(user, c));
        PushUndelivered(user, pull);
        SendJSON(c, Authed(user));
    }

    /** The case "auth" of the read loop. */
    method HandleAuth(c: ConnId, token: string, verdict: Verdict, dbOk: bool, pull: PullOutcome)
      requires Valid() && Possible(cfg, View(), Auth(c, token, verdict, dbOk, pull))
      modifies this, mongo, out
      ensures Valid() && View() == Step(cfg, old(View()), Auth(c, token, verdict, dbOk, pull))
    {
      ghost var s, e := View(), Auth(c, token, verdict, dbOk, pull);
      assert Apart();
      var d := LogIn(c, token, verdict, dbOk, pull);
      assert View() == s.(sessions := sessions, online := online, docs := mongo.docs, chans := out.chans);
      AuthTaken(cfg, s, e, sessions, online, mongo.docs, out.chans);
    }

    // ---- rooms ----------------------------------------------------------------------------

    /** The case "join" of the read loop. */
    method HandleJoin(c: ConnId, room: RoomId)
      requires Valid() && Reading(View(), c)
      modifies table.Repr(), out
      ensures Valid() && fresh(table.Repr() - old(table.Repr()))
      ensures View() == Step(cfg, old(View()), Join(c, room))
    {
      ghost var s := View();
      var me := sessions[c].me;
      assert Apart();
      if me.None? {
        SendJSON(c, NotAuthenticated);
      } else {
        table.Join(room, me.value);
        SendJSON(c, Joined(room));
      }
      assert View() == s.(chans := out.chans, rooms := table.View());
      JoinTaken(cfg, s, c, room, out.chans, table.View());
    }

    /** Takes a client out of a room and says so. */
    method TakeOut(c: ConnId, room: RoomId, me: Client)
      requires Apart() && c in out.chans
      modifies table.Repr(), out
      ensures Apart() && fresh(table.Repr() - old(table.Repr()))
      ensures table.View() == RemoveEmpty(RemoveMember(old(table.View()), room, me.user), room)
      ensures out.chans == OfferTo(old(out.chans), c, Reply(Left(room)))
    {
      table.Leave(room, me);
      SendJSON(c, Left(room));
    }

    /** The case "leave" of the read loop; without a login it says nothing. */
    method HandleLeave(c: ConnId, room: RoomId)
      requires Valid() && Reading(View(), c)
      modifies table.Repr(), out
      ensures Valid() && fresh(table.Repr() - old(table.Repr()))
      ensures View() == Step(cfg, old(View()), Leave(c, room))
    {
      ghost var s := View();
      var me := sessions[c].me;
      assert Apart();
      if me.Some? {
        TakeOut(c, room, me.value);
      }
      assert View() == s.(chans := out.chans, rooms := table.View());
      LeaveTaken(cfg, s, c, room, out.chans, table.View());
    }

    /** Numbers a message and starts the goroutine that will save it; an empty `to` is left out of the document. */
    method Persist(key: Key, me: Client, to: UserId, delivered: bool)
      requires Apart()
      modifies this`nextMsg, this`pending
      ensures Apart() && table.View() == old(table.View())
      ensures nextMsg == old(nextMsg) + 1
      ensures pending == if cfg.mongo then
                old(pending)[old(nextMsg) := Save(key, Doc(old(nextMsg), me.user, me.conn, Recipient(to), delivered))]
              else old(pending)
    {
      if cfg.mongo {
        var stored := if |to| > 0 then Some(to) else None;
        pending := pending[nextMsg := Save(key, Doc(nextMsg, me.user, me.conn, stored, delivered))];
      }
      nextMsg := nextMsg + 1;
    }

    /** The case "send" of the read loop. Being in the room is not required. */
    method HandleSend(c: ConnId, room: RoomId, key: Key)
      requires Valid() && Reading(View(), c)
      modifies this`nextMsg, this`pending, table, out
      ensures Valid() && fresh(table.Repr() - old(table.Repr()))
      ensures View() == Step(cfg, old(View()), Send(c, room, key))
    {
      ghost var s := View();
      var me := sessions[c].me;
      assert Apart();
      if me.None? {
        SendJSON(c, NotAuthenticated);
      } else {
        table.BroadcastIn(room, RoomMessage(nextMsg, me.value.user, c, room), out);
        Persist(key, me.value, "", true);
      }
      assert View() == s.(chans := out.chans, rooms := table.View(), pending := pending, nextMsg := nextMsg);
      SendTaken(cfg, s, c, room, key, out.chans, table.View(), pending, nextMsg);
    }

    // ---- private messages -------------------------------------------------------------------

    /** Sends a private message live, or leaves it to the store. */
    method Deliver(c: ConnId, me: Client, to: UserId, key: Key)
      requires Apart() && c in out.chans && (to in online ==> online[to].conn in out.chans)
      modifies this`nextMsg, this`pending, out
      ensures Apart() && table.View() == old(table.View())
      ensures nextMsg == old(nextMsg) + 1
      ensures pending == if cfg.mongo then
                old(pending)[old(nextMsg) := Save(key, Doc(old(nextMsg), me.user, me.conn, Recipient(to), to in online))]
              else old(pending)
      ensures out.chans == OfferTo(if to in online then
                                     OfferTo(old(out.chans), online[to].conn, PrivateMessage(old(nextMsg), me.user, c, to))
                                   else old(out.chans), c, Reply(Ack(to)))
    {
      var target := GetOnlineClient(to);
      if target.Some? {
        Emit(target.value.conn, PrivateMessage(nextMsg, me.user, c, to));
        Persist(key, me, to, true);
      } else {
        Persist(key, me, to, false);
      }
      SendJSON(c, Ack(to));
    }

    /** The case "private" of the read loop: live when the recipient is online, otherwise for later. */
    method HandlePrivate(c: ConnId, to: UserId, key: Key)
      requires Valid() && Reading(View(), c)
      modifies this`nextMsg, this`pending, out
      ensures Valid() && View() == Step(cfg, old(View()), Private(c, to, key))
    {
      ghost var s := View();
      var me := sessions[c].me;
      assert Apart();
      if me.None? {
        SendJSON(c, NotAuthenticated);
      } else {
        Deliver(c, me.value, to, key);
      }
      assert View() == s.(chans := out.chans, pending := pending, nextMsg := nextMsg);
      PrivateTaken(cfg, s, c, to, key, out.chans, pending, nextMsg);
    }

    /** A save goroutine finishes. */
    method FinishSave(m: MsgId, ok: bool)
      requires Valid() && m in pending
      modifies this`pending, this`failed, mongo
      ensures Valid() && View() == Step(cfg, old(View()), SaveDone(m, ok))
    {
      ghost var s := View();
      var save := pending[m];
      var saved := mongo.SaveMessage(save.key, save.doc, ok);
      if !saved {
        failed := failed + {m};
      }
      pending := pending - {m};
      assert View() == s.(docs := mongo.docs, pending := pending, failed := failed);
      SaveTaken(cfg, s, m, ok, mongo.docs, pending, failed);
    }

    // ---- connections ------------------------------------------------------------------------

    /** A new WebSocket connection. */
    method Accept(c: ConnId)
      requires Valid() && c !in sessions
      modifies this`sessions, out
      ensures Valid() && View() == Step(cfg, old(View()), Connect(c))
    {
      ghost var s := View();
      StepWellFormed(cfg, s, Connect(c));
      out.Make(c);
      sessions := sessions[c := Session(None, 0, false, false, 0, {})];
    }

    /** Any other frame: bad JSON, history, ping or an unknown type. One reply, nothing else. */
    method HandleOther(c: ConnId)
      requires Valid() && Reading(View(), c)
      modifies out
      ensures Valid() && View() == Step(cfg, old(View()), OtherFrame(c))
    {
      assert Apart();
      StepWellFormed(cfg, View(), OtherFrame(c));
      SendJSON(c, Other);
    }

    /** The writer goroutine of a connection takes its oldest frame, if there is one. */
    method WriterTurn(c: ConnId) returns (f: Option<Frame>)
      requires Valid() && c in sessions
      modifies out
      ensures Valid() && View() == Step(cfg, old(View()), WriterTakes(c))
    {
      StepWellFormed(cfg, View(), WriterTakes(c));
      f := out.Receive(c);
    }

    /** The cleanup of an identified connection. */
    method CleanUp(me: Client)
      requires Apart()
      modifies this`online, table.Repr()
      ensures Apart() && fresh(table.Repr() - old(table.Repr()))
      ensures table.View() == Swept(old(table.View()), me.user)
      ensures online == old(online) - {me.user}
    {
      table.Sweep(me);
      UnregisterOnline(me.user);
    }

    /** The read loop ends: the sweep over the rooms, then the online table. */
    method EndConnection(c: ConnId)
      requires Valid() && Reading(View(), c)
      modifies this`sessions, this`online, table.Repr()
      ensures Valid() && fresh(table.Repr() - old(table.Repr()))
      ensures View() == Step(cfg, old(View()), Disconnect(c))
    {
      ghost var s := View();
      var me := sessions[c].me;
      assert Apart();
      sessions := sessions[c := sessions[c].(ended := true)];
      assert table.View() == s.rooms && online == s.online;
      if me.Some? {
        CleanUp(me.value);
        assert table.View() == Swept(s.rooms, me.value.user);
      }
      assert View() == s.(sessions := sessions, rooms := table.View(), online := online);
      DisconnectTaken(cfg, s, c, sessions, table.View(), online);
    }

    // ---- api.go ---------------------------------------------------------------------------

    /** Closes the socket the online table lists for the user, if any. */
    method DisconnectUser(user: UserId)
      requires user in online ==> online[user].conn in sessions
      modifies this`sessions
      ensures sessions == if user in online then
                old(sessions)[online[user].conn := old(sessions)[online[user].conn].(closed := true)]
              else old(sessions)
    {
      var c := GetOnlineClient(user);
      if c.Some? {
        var conn := c.value.conn;
        sessions := sessions[conn := sessions[conn].(closed := true)];
      }
    }

    /** POST /api/admin/users/ban, with the HTTP status it answers. */
    method AdminBanUser(user: UserId, row: UserId, dbOk: bool) returns (status: int)
      requires Valid()
      modifies this`sessions, this`roles
      ensures Valid() && View() == Step(cfg, old(View()), Ban(user, row, dbOk))
      ensures status == 200 <==> BanHits(cfg, old(View()), user, row, dbOk)
      ensures status == 503 <==> !cfg.db
      ensures status == 500 <==> cfg.db && user != "" && !dbOk
    {
      ghost var s := View();
      BanTaken(cfg, s, user, row, dbOk);
      if !cfg.db {
        return 503;
      } else if user == "" {
        return 400;
      } else if !dbOk {
        return 500;
      }
      var affected := if row in roles && roles[row] != Admin && (cfg.countsMatched || roles[row] != Banned) then 1 else 0;
      if affected == 0 {
        if row in roles && roles[row] == Banned {
          assert roles[row := Banned] == roles;
        }
        return 400;
      }
      roles := roles[row := Banned];
      DisconnectUser(user);
      status := 200;
      assert View() == s.(roles := roles, sessions := sessions);
    }

    /** POST /api/admin/users/unban, with the HTTP status it answers. */
    method AdminUnbanUser(user: UserId, row: UserId, dbOk: bool) returns (status: int)
      requires Valid()
      modifies this`roles
      ensures Valid() && View() == Step(cfg, old(View()), Unban(user, row, dbOk))
      ensures status == 200 <==> UnbanHits(cfg, old(View()), user, row, dbOk)
      ensures status == 503 <==> !cfg.db
      ensures status == 500 <==> cfg.db && user != "" && !dbOk
    {
      ghost var s := View();
      StepWellFormed(cfg, s, Unban(user, row, dbOk));
      if !cfg.db {
        return 503;
      } else if user == "" {
        return 400;
      } else if !dbOk {
        return 500;
      }
      var affected := if row in roles && roles[row] == Banned then 1 else 0;
      if affected == 0 {
        return 400;
      }
      roles := roles[row := User];
      status := 200;
      assert View() == s.(roles := roles);
    }
  }

  // ---- each handler's effect is the model's step -------------------------------------------

  lemma AuthTaken(cfg: Config, s: State, e: Event, sessions: map<ConnId, Session>, online: map<UserId, Client>,
                  docs: map<Key, Doc>, chans: map<ConnId, Chan<Frame>>)
    requires WellFormed(s) && e.Auth? && Possible(cfg, s, e)
    requires var d := DecisionOn(cfg, s, e);
             && sessions == s.sessions[e.c := AuthSession(cfg, s.sessions[e.c], e.c, e.verdict, d)]
             && (if d.LoggedIn? then
                   && online == s.online[d.user := Client(d.user, e.c)]
                   && docs == (if cfg.mongo then AfterPull(s.docs, d.user, e.pull) else s.docs)
                   && chans == OfferTo(OfferAllTo(s.chans, e.c, Pushed(cfg, s.docs, d.user, e.pull)), e.c, Reply(AuthNotice(d)))
                 else online == s.online && docs == s.docs && chans == OfferTo(s.chans, e.c, Reply(AuthNotice(d))))
    ensures s.(sessions := sessions, online := online, docs := docs, chans := chans) == Step(cfg, s, e)
    ensures WellFormed(s.(sessions := sessions, online := online, docs := docs, chans := chans))
  {
    StepWellFormed(cfg, s, e);
  }

  lemma JoinTaken(cfg: Config, s: State, c: ConnId, room: RoomId, chans: map<ConnId, Chan<Frame>>, rooms: map<RoomId, Members>)
    requires WellFormed(s) && Reading(s, c)
    requires chans == OfferTo(s.chans, c, Reply(if s.sessions[c].me.Some? then Joined(room) else NotAuthenticated))
    requires rooms == if s.sessions[c].me.Some? then AddMember(s.rooms, room, s.sessions[c].me.value) else s.rooms
    ensures s.(chans := chans, rooms := rooms) == Step(cfg, s, Join(c, room))
    ensures WellFormed(s.(chans := chans, rooms := rooms))
  {
    StepWellFormed(cfg, s, Join(c, room));
  }

  lemma LeaveTaken(cfg: Config, s: State, c: ConnId, room: RoomId, chans: map<ConnId, Chan<Frame>>, rooms: map<RoomId, Members>)
    requires WellFormed(s) && Reading(s, c)
    requires chans == if s.sessions[c].me.Some? then OfferTo(s.chans, c, Reply(Left(room))) else s.chans
    requires rooms == if s.sessions[c].me.Some? then
               RemoveEmpty(RemoveMember(s.rooms, room, s.sessions[c].me.value.user), room) else s.rooms
    ensures s.(chans := chans, rooms := rooms) == Step(cfg, s, Leave(c, room))
    ensures WellFormed(s.(chans := chans, rooms := rooms))
  {
    StepWellFormed(cfg, s, Leave(c, room));
  }

  lemma SendTaken(cfg: Config, s: State, c: ConnId, room: RoomId, key: Key, chans: map<ConnId, Chan<Frame>>,
                  rooms: map<RoomId, Members>, pending: map<MsgId, Save>, next: MsgId)
    requires WellFormed(s) && Reading(s, c)
    requires match s.sessions[c].me
             case None =>
               chans == OfferTo(s.chans, c, Reply(NotAuthenticated)) && rooms == s.rooms && pending == s.pending && next == s.nextMsg
             case Some(me) =>
               && chans == Broadcast(s.chans, MembersOf(s.rooms, room), RoomMessage(s.nextMsg, me.user, c, room))
               && rooms == GetOrCreate(s.rooms, room) && next == s.nextMsg + 1
               && pending == if cfg.mongo then s.pending[s.nextMsg := Save(key, Doc(s.nextMsg, me.user, me.conn, None, true))]
                             else s.pending
    ensures s.(chans := chans, rooms := rooms, pending := pending, nextMsg := next) == Step(cfg, s, Send(c, room, key))
    ensures WellFormed(s.(chans := chans, rooms := rooms, pending := pending, nextMsg := next))
  {
    StepWellFormed(cfg, s, Send(c, room, key));
  }

  lemma PrivateTaken(cfg: Config, s: State, c: ConnId, to: UserId, key: Key, chans: map<ConnId, Chan<Frame>>,
                     pending: map<MsgId, Save>, next: MsgId)
    requires WellFormed(s) && Reading(s, c)
    requires match s.sessions[c].me
             case None => chans == OfferTo(s.chans, c, Reply(NotAuthenticated)) && pending == s.pending && next == s.nextMsg
             case Some(me) =>
               && chans == OfferTo(if to in s.online then
                                     OfferTo(s.chans, s.online[to].conn, PrivateMessage(s.nextMsg, me.user, c, to))
                                   else s.chans, c, Reply(Ack(to)))
               && next == s.nextMsg + 1
               && pending == if cfg.mongo then
                               s.pending[s.nextMsg := Save(key, Doc(s.nextMsg, me.user, me.conn, Recipient(to), to in s.online))]
                             else s.pending
    ensures s.(chans := chans, pending := pending, nextMsg := next) == Step(cfg, s, Private(c, to, key))
    ensures WellFormed(s.(chans := chans, pending := pending, nextMsg := next))
  {
    StepWellFormed(cfg, s, Private(c, to, key));
  }

  lemma SaveTaken(cfg: Config, s: State, m: MsgId, ok: bool, docs: map<Key, Doc>, pending: map<MsgId, Save>, failed: set<MsgId>)
    requires WellFormed(s) && m in s.pending
    requires var saved := ok && s.pending[m].key !in s.docs;
             && docs == (if saved then s.docs[s.pending[m].key := s.pending[m].doc] else s.docs)
             && failed == (if saved then s.failed else s.failed + {m})
             && pending == s.pending - {m}
    ensures s.(docs := docs, pending := pending, failed := failed) == Step(cfg, s, SaveDone(m, ok))
    ensures WellFormed(s.(docs := docs, pending := pending, failed := failed))
  {
  }

  lemma DisconnectTaken(cfg: Config, s: State, c: ConnId, sessions: map<ConnId, Session>, rooms: map<RoomId, Members>,
                        online: map<UserId, Client>)
    requires WellFormed(s) && Reading(s, c)
    requires sessions == s.sessions[c := s.sessions[c].(ended := true)]
    requires match s.sessions[c].me
             case None => rooms == s.rooms && online == s.online
             case Some(me) => rooms == Swept(s.rooms, me.user) && online == s.online - {me.user}
    ensures s.(sessions := sessions, rooms := rooms, online := online) == Step(cfg, s, Disconnect(c))
    ensures WellFormed(s.(sessions := sessions, rooms := rooms, online := online))
  {
    StepWellFormed(cfg, s, Disconnect(c));
  }

  lemma BanTaken(cfg: Config, s: State, user: UserId, row: UserId, dbOk: bool)
    requires WellFormed(s)
    ensures Step(cfg, s, Ban(user, row, dbOk))
            == if BanHits(cfg, s, user, row, dbOk) then s.(roles := s.roles[row := Banned], sessions := CloseOnline(s, user)) else s
    ensures WellFormed(Step(cfg, s, Ban(user, row, dbOk)))
  {
    StepWellFormed(cfg, s, Ban(user, row, dbOk));
  }
}
