/**
  Who may be online and as whom: bans against the online table, role transitions, the limit on
  authentication attempts, and where every name in the system comes from.
 */
module Presence {
  import opened Basics
  import opened MessageStore
  import opened GatewayModel
  import opened Membership
  import opened Delivery

  // ---- bans -----------------------------------------------------------------------------

  /** An online entry of a banned user belongs to a connection that has been closed. */
  ghost predicate BannedAreClosed(roles: map<UserId, Role>, online: map<UserId, Client>, sessions: map<ConnId, Session>) {
    forall u :: u in online && IsBanned(roles, u) ==> online[u].conn in sessions && sessions[online[u].conn].closed
  }

  /** On an open connection, a login as a banned user that meets no ban check or no database answer. */
  predicate UncheckedLogin(cfg: Config, s: State, e: Event) {
    e.Auth? && e.c in s.sessions && !s.sessions[e.c].closed &&
    if !cfg.authSvc then e.token != "" && IsBanned(s.roles, e.token)
    else s.sessions[e.c].authAttempts < 3 && e.verdict.Valid? && IsBanned(s.roles, e.verdict.user) && !(cfg.db && e.dbOk)
  }

  /** A ban under a spelling of the id that leads to another connection than the online one, or to none. */
  predicate MissedDisconnect(cfg: Config, s: State, e: Event)
    requires WellFormed(s)
  {
    e.Ban? && BanHits(cfg, s, e.user, e.row, e.dbOk) && e.row in s.online && !s.sessions[s.online[e.row].conn].closed
    && !(e.user in s.online && s.online[e.user].conn == s.online[e.row].conn)
  }

  /** Main result: a step breaks the rule exactly when it is such a login or such a ban. */
  lemma BannedStayClosedIff(cfg: Config, s: State, e: Event)
    requires Possible(cfg, s, e) && WellFormed(s) && BannedAreClosed(s.roles, s.online, s.sessions)
    ensures BannedAreClosed(RolesAfter(cfg, s, e), OnlineAfter(cfg, s, e), SessionsAfter(cfg, s, e))
            <==> !UncheckedLogin(cfg, s, e) && !MissedDisconnect(cfg, s, e)
  {
    if e.Ban? {
      BanClosesIff(cfg, s, e);
    } else if e.Auth? {
      LoginKeepsClosedIff(cfg, s, e);
    }
  }

  lemma LoginKeepsClosedIff(cfg: Config, s: State, e: Event)
    requires Possible(cfg, s, e) && e.Auth? && BannedAreClosed(s.roles, s.online, s.sessions)
    ensures BannedAreClosed(s.roles, OnlineAfter(cfg, s, e), SessionsAfter(cfg, s, e)) <==> !UncheckedLogin(cfg, s, e)
  {
    var d := DecisionOn(cfg, s, e);
    if UncheckedLogin(cfg, s, e) {
      var online, sessions := OnlineAfter(cfg, s, e), SessionsAfter(cfg, s, e);
      assert d.user in online && online[d.user].conn == e.c && !sessions[e.c].closed;
    } else {
      assert d.LoggedIn? ==> !IsBanned(s.roles, d.user) || s.sessions[e.c].closed;
    }
  }

  lemma BanClosesIff(cfg: Config, s: State, e: Event)
    requires WellFormed(s) && BannedAreClosed(s.roles, s.online, s.sessions) && e.Ban?
    ensures BannedAreClosed(RolesAfter(cfg, s, e), s.online, SessionsAfter(cfg, s, e)) <==> !MissedDisconnect(cfg, s, e)
  {
    var roles, sessions := RolesAfter(cfg, s, e), SessionsAfter(cfg, s, e);
    if MissedDisconnect(cfg, s, e) {
      assert e.row in s.online && IsBanned(roles, e.row) && !sessions[s.online[e.row].conn].closed;
    }
  }

  /** The server checks bans and its database answers every login. */
  ghost predicate DatabaseAnswers(cfg: Config, evs: seq<Event>) {
    cfg.authSvc && cfg.db && forall i :: 0 <= i < |evs| && evs[i].Auth? ==> evs[i].dbOk
  }

  /** Every ban spells the id as the database stores it. */
  ghost predicate BansSpellIds(evs: seq<Event>) {
    forall i :: 0 <= i < |evs| && evs[i].Ban? ==> evs[i].row == evs[i].user
  }

  /** Main result: in every such run an online entry of a banned user belongs to a closed connection. */
  lemma {:induction false} BannedAreNeverOnlineAndOpen(cfg: Config, roles: map<UserId, Role>, evs: seq<Event>)
    requires ValidRun(cfg, roles, evs) && DatabaseAnswers(cfg, evs) && BansSpellIds(evs)
    ensures var s := After(cfg, roles, evs); BannedAreClosed(s.roles, s.online, s.sessions)
  {
    if evs != [] {
      var n := |evs| - 1;
      var s := After(cfg, roles, evs[..n]);
      assert forall i :: 0 <= i < n ==> evs[..n][i] == evs[i];
      BannedAreNeverOnlineAndOpen(cfg, roles, evs[..n]);
      RunWellFormed(cfg, roles, evs[..n]);
      BannedStayClosedIff(cfg, s, evs[n]);
    }
  }

  ghost function Admins(roles: map<UserId, Role>): set<UserId> {
    set u | u in roles && roles[u] == Admin
  }

  /** Main result: no run makes or unmakes an administrator, and no row appears or disappears. */
  lemma {:induction false} AdminsNeverChange(cfg: Config, roles: map<UserId, Role>, evs: seq<Event>)
    requires ValidRun(cfg, roles, evs)
    ensures Admins(After(cfg, roles, evs).roles) == Admins(roles)
    ensures After(cfg, roles, evs).roles.Keys == roles.Keys
  {
    if evs != [] {
      var n := |evs| - 1;
      AdminsNeverChange(cfg, roles, evs[..n]);
      RolesStep(cfg, After(cfg, roles, evs[..n]), evs[n]);
    }
  }

  lemma RolesStep(cfg: Config, s: State, e: Event)
    ensures Admins(RolesAfter(cfg, s, e)) == Admins(s.roles) && RolesAfter(cfg, s, e).Keys == s.roles.Keys
  {
  }

  /**
    Main result: ban followed by unban restores the table exactly when no database is asked, or the
    row was not banned before and the ban missed it or hit a plain `user`.
   */
  lemma UnbanUndoesBanIff(cfg: Config, s: State, user: UserId, row: UserId)
    ensures var banned := Step(cfg, s, Ban(user, row, true));
            && (BanHits(cfg, s, user, row, true) ==> IsBanned(banned.roles, row))
            && (Step(cfg, banned, Unban(user, row, true)).roles == s.roles
                <==> !cfg.db || user == ""
                     || (!IsBanned(s.roles, row) && (!BanHits(cfg, s, user, row, true) || s.roles[row] == User)))
  {
    var banned := Step(cfg, s, Ban(user, row, true));
    var after := Step(cfg, banned, Unban(user, row, true));
    if UnbanHits(cfg, banned, user, row, true) {
      assert after.roles[row] == User && after.roles == s.roles[row := User];
    }
  }

  // ---- provenance -------------------------------------------------------------------------

  /** Connection `c` once had `user` confirmed by the auth service. */
  predicate Vouches(sessions: map<ConnId, Session>, c: ConnId, user: UserId) {
    c in sessions && user in sessions[c].validated
  }

  /** Validate is asked once per attempt and at most three times, and confirms the session's own name. */
  predicate SessionVouched(c: ConnId, ses: Session) {
    && ses.validateCalls == (if ses.authAttempts < 3 then ses.authAttempts else 3)
    && |ses.validated| <= ses.validateCalls
    && (ses.me.Some? ==> ses.me.value.conn == c && ses.me.value.user in ses.validated)
  }

  ghost predicate SessionsVouched(sessions: map<ConnId, Session>) {
    forall c :: c in sessions ==> SessionVouched(c, sessions[c])
  }

  ghost predicate RoomsVouched(sessions: map<ConnId, Session>, rooms: map<RoomId, Members>) {
    forall r, u :: r in rooms && u in rooms[r] ==> rooms[r][u].user == u && Vouches(sessions, rooms[r][u].conn, u)
  }

  ghost predicate OnlineVouched(sessions: map<ConnId, Session>, online: map<UserId, Client>) {
    forall u :: u in online ==> online[u].user == u && Vouches(sessions, online[u].conn, u)
  }

  predicate FrameVouched(sessions: map<ConnId, Session>, f: Frame) {
    f.Reply? || Vouches(sessions, f.src, f.from)
  }

  ghost predicate FramesVouched(sessions: map<ConnId, Session>, fs: seq<Frame>) {
    forall i :: 0 <= i < |fs| ==> FrameVouched(sessions, fs[i])
  }

  ghost predicate DocsVouched(sessions: map<ConnId, Session>, docs: map<Key, Doc>) {
    forall k :: k in docs ==> Vouches(sessions, docs[k].src, docs[k].from)
  }

  ghost predicate SavesVouched(sessions: map<ConnId, Session>, pending: map<MsgId, Save>) {
    forall m :: m in pending ==> Vouches(sessions, pending[m].doc.src, pending[m].doc.from)
  }

  /** Every name in the server was confirmed on the connection it stands for. */
  ghost predicate Provenance(s: State) {
    && SessionsVouched(s.sessions)
    && RoomsVouched(s.sessions, s.rooms)
    && OnlineVouched(s.sessions, s.online)
    && (forall c :: c in s.chans ==> FramesVouched(s.sessions, OfferedTo(s, c)))
    && DocsVouched(s.sessions, s.docs)
    && SavesVouched(s.sessions, s.pending)
  }

  /** Confirmations are never forgotten. */
  ghost predicate Grows(before: map<ConnId, Session>, after: map<ConnId, Session>) {
    forall c :: c in before ==> c in after && before[c].validated <= after[c].validated
  }

  lemma SessionsGrow(cfg: Config, s: State, e: Event)
    requires Possible(cfg, s, e)
    ensures Grows(s.sessions, SessionsAfter(cfg, s, e))
  {
  }

  lemma AuthSessionVouched(cfg: Config, s: State, e: Event)
    requires e.Auth? && Reading(s, e.c) && cfg.authSvc && SessionVouched(e.c, s.sessions[e.c])
    ensures SessionVouched(e.c, AuthSession(cfg, s.sessions[e.c], e.c, e.verdict, DecisionOn(cfg, s, e)))
  {
    var ses, d := s.sessions[e.c], DecisionOn(cfg, s, e);
    match d
    case TooMany =>
    case Rejected =>
    case Refused => ConfirmedOnce(ses, e.verdict.user);
    case LoggedIn(user) =>
      assert user == e.verdict.user;
      ConfirmedOnce(ses, user);
    case NoToken =>
  }

  /** One more confirmed name is at most one more. */
  lemma ConfirmedOnce(ses: Session, user: UserId)
    ensures |ses.validated + {user}| <= |ses.validated| + 1
  {
  }

  lemma StepSessionsVouched(cfg: Config, s: State, e: Event)
    requires Possible(cfg, s, e) && cfg.authSvc && SessionsVouched(s.sessions)
    ensures SessionsVouched(SessionsAfter(cfg, s, e))
  {
    if e.Auth? {
      AuthSessionVouched(cfg, s, e);
    }
  }

  lemma StepRoomsVouched(cfg: Config, s: State, e: Event)
    requires Possible(cfg, s, e) && SessionsVouched(s.sessions) && RoomsVouched(s.sessions, s.rooms)
    ensures RoomsVouched(SessionsAfter(cfg, s, e), RoomsAfter(cfg, s, e))
  {
    SessionsGrow(cfg, s, e);
    var rooms: map<RoomId, Members> := RoomsAfter(cfg, s, e);
    forall r: RoomId, u: UserId | r in rooms && u in rooms[r]
      ensures rooms[r][u].user == u && Vouches(s.sessions, rooms[r][u].conn, u)
    {
      StepLookup(cfg, s, e, r, u);
      assert Lookup(rooms, r, u) == Some(rooms[r][u]);
    }
  }

  lemma StepOnlineVouched(cfg: Config, s: State, e: Event)
    requires Possible(cfg, s, e) && cfg.authSvc && OnlineVouched(s.sessions, s.online)
    ensures OnlineVouched(SessionsAfter(cfg, s, e), OnlineAfter(cfg, s, e))
  {
    SessionsGrow(cfg, s, e);
  }

  lemma NewFramesVouched(cfg: Config, s: State, e: Event, c: ConnId)
    requires Possible(cfg, s, e) && SessionsVouched(s.sessions) && DocsVouched(s.sessions, s.docs)
    ensures FramesVouched(s.sessions, NewFrames(cfg, s, e, c))
  {
  }

  lemma FramesJoin(before: map<ConnId, Session>, after: map<ConnId, Session>, xs: seq<Frame>, ys: seq<Frame>)
    requires FramesVouched(before, xs) && FramesVouched(before, ys) && Grows(before, after)
    ensures FramesVouched(after, xs + ys)
  {
    forall i | 0 <= i < |xs + ys|
      ensures FrameVouched(after, (xs + ys)[i])
    {
      assert FrameVouched(before, (xs + ys)[i]);
    }
  }

  lemma StepFramesVouched(cfg: Config, s: State, e: Event, c: ConnId)
    requires Possible(cfg, s, e) && WellFormed(s) && Provenance(s) && c in ChansAfter(cfg, s, e)
    ensures FramesVouched(SessionsAfter(cfg, s, e), OfferedTo(Step(cfg, s, e), c))
  {
    SessionsGrow(cfg, s, e);
    RecordGrows(cfg, s, e, c);
    if c in s.chans {
      NewFramesVouched(cfg, s, e, c);
      FramesJoin(s.sessions, SessionsAfter(cfg, s, e), OfferedTo(s, c), NewFrames(cfg, s, e, c));
    }
  }

  lemma StepDocsVouched(cfg: Config, s: State, e: Event)
    requires Possible(cfg, s, e) && SessionsVouched(s.sessions)
    requires DocsVouched(s.sessions, s.docs) && SavesVouched(s.sessions, s.pending)
    ensures DocsVouched(SessionsAfter(cfg, s, e), DocsAfter(cfg, s, e))
    ensures SavesVouched(SessionsAfter(cfg, s, e), PendingAfter(cfg, s, e))
  {
    SessionsGrow(cfg, s, e);
    assert DocsVouched(s.sessions, DocsAfter(cfg, s, e));
    assert SavesVouched(s.sessions, PendingAfter(cfg, s, e));
  }

  lemma StepProvenance(cfg: Config, s: State, e: Event)
    requires Possible(cfg, s, e) && cfg.authSvc && WellFormed(s) && Provenance(s)
    ensures Provenance(Step(cfg, s, e))
  {
    var s' := Step(cfg, s, e);
    StepSessionsVouched(cfg, s, e);
    StepRoomsVouched(cfg, s, e);
    StepOnlineVouched(cfg, s, e);
    StepDocsVouched(cfg, s, e);
    forall c | c in s'.chans
      ensures FramesVouched(s'.sessions, OfferedTo(s', c))
    {
      StepFramesVouched(cfg, s, e, c);
    }
  }

  /**
    Main result: with an auth service every connection asks Validate at most three times in its
    life, and every room member, online entry, stored sender and `from` field names a user that
    the same connection had confirmed.
   */
  lemma {:induction false} SessionProvenance(cfg: Config, roles: map<UserId, Role>, evs: seq<Event>)
    requires ValidRun(cfg, roles, evs) && cfg.authSvc
    ensures Provenance(After(cfg, roles, evs))
    ensures forall c :: c in After(cfg, roles, evs).sessions ==> After(cfg, roles, evs).sessions[c].validateCalls <= 3
  {
    if evs != [] {
      var n := |evs| - 1;
      SessionProvenance(cfg, roles, evs[..n]);
      RunWellFormed(cfg, roles, evs[..n]);
      StepProvenance(cfg, After(cfg, roles, evs[..n]), evs[n]);
    }
  }
}
