/**
  The gateway at the granularity of one handler step: every frame a read loop handles, every
  disconnect, admin action, writer turn and finished save happens as one step of `Step`.
  The functions here are the specification that the classes of GatewayServer.dfy refine.
 */
module GatewayModel {
  import opened Basics
  import opened Channels
  import opened MessageStore

  /** internal/gateway/clients.go: a user on a connection. */
  datatype Client = Client(user: UserId, conn: ConnId)

  type Members = map<UserId, Client>

  datatype Notice =
    | TokenRequired | TooManyAttempts | AuthFailed | AccountBanned | Authed(user: UserId)
    | NotAuthenticated | Joined(room: RoomId) | Left(room: RoomId) | Ack(to: UserId) | Other

  /** A frame on its way out. Messages carry who sent them, over which connection, and which one they are. */
  datatype Frame =
    | Reply(notice: Notice)
    | RoomMessage(msg: MsgId, from: UserId, src: ConnId, room: RoomId)
    | PrivateMessage(msg: MsgId, from: UserId, src: ConnId, to: UserId)

  datatype Role = Admin | User | Banned | OtherRole(name: string)

  /**
    How the server was started. Without an auth service it runs in development mode.
    `countsMatched` is the database driver's choice whether an UPDATE that changes nothing
    still counts its row.
   */
  datatype Config = Config(authSvc: bool, mongo: bool, db: bool, countsMatched: bool)

  /** The read loop's local state, with a record of what Validate was asked and answered. */
  datatype Session = Session(me: Option<Client>, authAttempts: nat, closed: bool, ended: bool,
                             validateCalls: nat, validated: set<UserId>)

  /** A save goroutine that has not finished yet. */
  datatype Save = Save(key: Key, doc: Doc)

  datatype State = State(
    sessions: map<ConnId, Session>,
    chans: map<ConnId, Chan<Frame>>,
    rooms: map<RoomId, Members>,
    online: map<UserId, Client>,
    roles: map<UserId, Role>,
    docs: map<Key, Doc>,
    pending: map<MsgId, Save>,
    failed: set<MsgId>,
    nextMsg: MsgId)

  datatype Verdict = Invalid | Valid(user: UserId)

  /**
    What may happen. An admin request names a user by a string, which the database reads as the
    number `row` of its id column while the online table is searched for the string itself.
   */
  datatype Event =
    | Connect(c: ConnId)
    | Auth(c: ConnId, token: string, verdict: Verdict, dbOk: bool, pull: PullOutcome)
    | Join(c: ConnId, room: RoomId)
    | Leave(c: ConnId, room: RoomId)
    | Send(c: ConnId, room: RoomId, key: Key)
    | Private(c: ConnId, to: UserId, key: Key)
    | OtherFrame(c: ConnId)
    | Disconnect(c: ConnId)
    | WriterTakes(c: ConnId)
    | Ban(user: UserId, row: UserId, dbOk: bool)
    | Unban(user: UserId, row: UserId, dbOk: bool)
    | SaveDone(msg: MsgId, ok: bool)

  function Init(roles: map<UserId, Role>): State {
    State(map[], map[], map[], map[], roles, map[], map[], {}, 0)
  }

  // ---- channels -------------------------------------------------------------------------

  function OfferTo(chans: map<ConnId, Chan<Frame>>, c: ConnId, f: Frame): map<ConnId, Chan<Frame>> {
    if c in chans then chans[c := Offer(chans[c], f)] else chans
  }

  function OfferAllTo(chans: map<ConnId, Chan<Frame>>, c: ConnId, fs: seq<Frame>): map<ConnId, Chan<Frame>> {
    if c in chans then chans[c := OfferAll(chans[c], fs)] else chans
  }

  /** How many users of `visited` a room lists on connection `c`. */
  function CopiesFor(members: Members, visited: set<UserId>, c: ConnId): nat {
    |set u | u in visited && u in members && members[u].conn == c|
  }

  /** The channels after `f` was offered to each of the `visited` users of a room, in any order. */
  function BroadcastTo(chans: map<ConnId, Chan<Frame>>, members: Members, visited: set<UserId>, f: Frame)
    : map<ConnId, Chan<Frame>>
  {
    map c | c in chans :: OfferTimes(chans[c], f, CopiesFor(members, visited, c))
  }

  function Broadcast(chans: map<ConnId, Chan<Frame>>, members: Members, f: Frame): map<ConnId, Chan<Frame>> {
    BroadcastTo(chans, members, members.Keys, f)
  }

  // ---- rooms ----------------------------------------------------------------------------

  function MembersOf(rooms: map<RoomId, Members>, room: RoomId): Members {
    if room in rooms then rooms[room] else map[]
  }

  function GetOrCreate(rooms: map<RoomId, Members>, room: RoomId): map<RoomId, Members> {
    if room in rooms then rooms else rooms[room := map[]]
  }

  function AddMember(rooms: map<RoomId, Members>, room: RoomId, me: Client): map<RoomId, Members> {
    rooms[room := MembersOf(rooms, room)[me.user := me]]
  }

  function RemoveMember(rooms: map<RoomId, Members>, room: RoomId, user: UserId): map<RoomId, Members> {
    rooms[room := MembersOf(rooms, room) - {user}]
  }

  function RemoveEmpty(rooms: map<RoomId, Members>, room: RoomId): map<RoomId, Members> {
    if room in rooms && |rooms[room]| == 0 then rooms - {room} else rooms
  }

  /** A room that lists `user` and nobody else. */
  predicate OnlyMember(rooms: map<RoomId, Members>, room: RoomId, user: UserId) {
    room in rooms && user in rooms[room] && rooms[room].Keys == {user}
  }

  /**
    What the disconnect sweep leaves: `user` is in no room, every other membership stands, the
    rooms it emptied are gone, and a room it did not touch stays even when it is empty.
   */
  function Swept(rooms: map<RoomId, Members>, user: UserId): map<RoomId, Members> {
    map r | r in rooms && !OnlyMember(rooms, r, user) :: rooms[r] - {user}
  }

  // ---- auth -----------------------------------------------------------------------------

  const MAX_AUTH_ATTEMPTS: nat := 3

  datatype Decision = NoToken | TooMany | Rejected | Refused | LoggedIn(user: UserId)

  predicate IsBanned(roles: map<UserId, Role>, user: UserId) {
    user in roles && roles[user] == Banned
  }

  function Decide(cfg: Config, roles: map<UserId, Role>, attempts: nat, token: string, verdict: Verdict, dbOk: bool): Decision {
    if !cfg.authSvc then
      if token == "" then NoToken else LoggedIn(token)
    else if attempts + 1 > MAX_AUTH_ATTEMPTS then TooMany
    else match verdict
      case Invalid => Rejected
      case Valid(u) => if cfg.db && dbOk && IsBanned(roles, u) then Refused else LoggedIn(u)
  }

  /** The session after an auth frame: attempts are counted, the oracle asked at most while they last. */
  function AuthSession(cfg: Config, ses: Session, c: ConnId, verdict: Verdict, d: Decision): Session {
    var counted :=
      if !cfg.authSvc then ses
      else if d.TooMany? then ses.(authAttempts := ses.authAttempts + 1)
      else ses.(authAttempts := ses.authAttempts + 1, validateCalls := ses.validateCalls + 1,
                validated := ses.validated + if verdict.Valid? then {verdict.user} else {});
    match d
    case LoggedIn(u) => counted.(me := Some(Client(u, c)))
    case TooMany => counted.(closed := true)
    case Refused => counted.(closed := true)
    case _ => counted
  }

  function AuthNotice(d: Decision): Notice {
    match d
    case NoToken => TokenRequired
    case TooMany => TooManyAttempts
    case Rejected => AuthFailed
    case Refused => AccountBanned
    case LoggedIn(u) => Authed(u)
  }

  function PushedFrames(user: UserId, docs: seq<Doc>): seq<Frame> {
    seq(|docs|, i requires 0 <= i < |docs| => PrivateMessage(docs[i].msg, docs[i].from, docs[i].src, user))
  }

  /** The frames a login pushes before its `authed` reply. */
  function Pushed(cfg: Config, docs: map<Key, Doc>, user: UserId, pull: PullOutcome): seq<Frame>
    requires cfg.mongo ==> PullPossible(docs, user, pull)
  {
    if cfg.mongo && Returned(docs, user, pull).Some? then PushedFrames(user, Returned(docs, user, pull).value) else []
  }

  // ---- the steps ------------------------------------------------------------------------

  predicate Reading(s: State, c: ConnId) {
    c in s.sessions && !s.sessions[c].ended
  }

  /** What the environment may do next. A closed connection may still have buffered frames to read. */
  ghost predicate Possible(cfg: Config, s: State, e: Event) {
    match e
    case Connect(c) => c !in s.sessions && c !in s.chans
    case Auth(c, token, verdict, dbOk, pull) =>
      Reading(s, c) && var d := Decide(cfg, s.roles, s.sessions[c].authAttempts, token, verdict, dbOk);
                       d.LoggedIn? && cfg.mongo ==> PullPossible(s.docs, d.user, pull)
    case Join(c, _) => Reading(s, c)
    case Leave(c, _) => Reading(s, c)
    case Send(c, _, _) => Reading(s, c)
    case Private(c, _, _) => Reading(s, c)
    case OtherFrame(c) => Reading(s, c)
    case Disconnect(c) => Reading(s, c)
    case WriterTakes(c) => c in s.chans
    case Ban(_, _, _) => true
    case Unban(_, _, _) => true
    case SaveDone(m, _) => m in s.pending
  }

  // ---- one step, part by part ---------------------------------------------------------------

  function DecisionOn(cfg: Config, s: State, e: Event): Decision
    requires e.Auth? && Reading(s, e.c)
  {
    Decide(cfg, s.roles, s.sessions[e.c].authAttempts, e.token, e.verdict, e.dbOk)
  }

  /** Rows an UPDATE reports for `user`: with `countsMatched` off a row that does not change is not counted. */
  predicate BanAffects(cfg: Config, roles: map<UserId, Role>, user: UserId) {
    user in roles && roles[user] != Admin && (cfg.countsMatched || roles[user] != Banned)
  }

  /** A ban request that the database carries out. */
  predicate BanHits(cfg: Config, s: State, user: UserId, row: UserId, dbOk: bool) {
    cfg.db && user != "" && dbOk && BanAffects(cfg, s.roles, row)
  }

  predicate UnbanHits(cfg: Config, s: State, user: UserId, row: UserId, dbOk: bool) {
    cfg.db && user != "" && dbOk && IsBanned(s.roles, row)
  }

  /** The sessions after the connection the online table lists for `user` is closed. */
  function CloseOnline(s: State, user: UserId): map<ConnId, Session> {
    if user in s.online && s.online[user].conn in s.sessions then
      var c := s.online[user].conn;
      s.sessions[c := s.sessions[c].(closed := true)]
    else s.sessions
  }

  function RoomsAfter(cfg: Config, s: State, e: Event): map<RoomId, Members>
    requires Possible(cfg, s, e)
  {
    match e
    case Join(c, room) =>
      if s.sessions[c].me.Some? then AddMember(s.rooms, room, s.sessions[c].me.value) else s.rooms
    case Leave(c, room) =>
      if s.sessions[c].me.Some? then RemoveEmpty(RemoveMember(s.rooms, room, s.sessions[c].me.value.user), room)
      else s.rooms
    case Send(c, room, _) => if s.sessions[c].me.Some? then GetOrCreate(s.rooms, room) else s.rooms
    case Disconnect(c) => if s.sessions[c].me.Some? then Swept(s.rooms, s.sessions[c].me.value.user) else s.rooms
    case _ => s.rooms
  }

  function OnlineAfter(cfg: Config, s: State, e: Event): map<UserId, Client>
    requires Possible(cfg, s, e)
  {
    match e
    case Auth(c, _, _, _, _) =>
      var d := DecisionOn(cfg, s, e);
      if d.LoggedIn? then s.online[d.user := Client(d.user, c)] else s.online
    case Disconnect(c) => if s.sessions[c].me.Some? then s.online - {s.sessions[c].me.value.user} else s.online
    case _ => s.online
  }

  function SessionsAfter(cfg: Config, s: State, e: Event): map<ConnId, Session>
    requires Possible(cfg, s, e)
  {
    match e
    case Connect(c) => s.sessions[c := Session(None, 0, false, false, 0, {})]
    case Auth(c, _, verdict, _, _) =>
      s.sessions[c := AuthSession(cfg, s.sessions[c], c, verdict, DecisionOn(cfg, s, e))]
    case Disconnect(c) => s.sessions[c := s.sessions[c].(ended := true)]
    case Ban(u, row, dbOk) => if BanHits(cfg, s, u, row, dbOk) then CloseOnline(s, u) else s.sessions
    case _ => s.sessions
  }

  function ChansAfter(cfg: Config, s: State, e: Event): map<ConnId, Chan<Frame>>
    requires Possible(cfg, s, e)
  {
    match e
    case Connect(c) => s.chans[c := Open()]
    case Auth(c, _, _, _, pull) =>
      var d := DecisionOn(cfg, s, e);
      OfferTo(if d.LoggedIn? then OfferAllTo(s.chans, c, Pushed(cfg, s.docs, d.user, pull)) else s.chans,
              c, Reply(AuthNotice(d)))
    case Join(c, room) => OfferTo(s.chans, c, Reply(if s.sessions[c].me.Some? then Joined(room) else NotAuthenticated))
    case Leave(c, room) => if s.sessions[c].me.Some? then OfferTo(s.chans, c, Reply(Left(room))) else s.chans
    case Send(c, room, _) =>
      if s.sessions[c].me.Some? then
        Broadcast(s.chans, MembersOf(s.rooms, room), RoomMessage(s.nextMsg, s.sessions[c].me.value.user, c, room))
      else OfferTo(s.chans, c, Reply(NotAuthenticated))
    case Private(c, to, _) =>
      if s.sessions[c].me.Some? then
        OfferTo(if to in s.online then
                  OfferTo(s.chans, s.online[to].conn, PrivateMessage(s.nextMsg, s.sessions[c].me.value.user, c, to))
                else s.chans,
                c, Reply(Ack(to)))
      else OfferTo(s.chans, c, Reply(NotAuthenticated))
    case OtherFrame(c) => OfferTo(s.chans, c, Reply(Other))
    case WriterTakes(c) => s.chans[c := Take(s.chans[c])]
    case _ => s.chans
  }

  function RolesAfter(cfg: Config, s: State, e: Event): map<UserId, Role> {
    match e
    case Ban(u, row, dbOk) => if BanHits(cfg, s, u, row, dbOk) then s.roles[row := Banned] else s.roles
    case Unban(u, row, dbOk) => if UnbanHits(cfg, s, u, row, dbOk) then s.roles[row := User] else s.roles
    case _ => s.roles
  }

  /** The save that a finishing goroutine performs goes through: the database obeys and the key is free. */
  predicate SaveLands(s: State, m: MsgId, ok: bool)
    requires m in s.pending
  {
    ok && s.pending[m].key !in s.docs
  }

  function DocsAfter(cfg: Config, s: State, e: Event): map<Key, Doc>
    requires Possible(cfg, s, e)
  {
    match e
    case Auth(_, _, _, _, pull) =>
      var d := DecisionOn(cfg, s, e);
      if d.LoggedIn? && cfg.mongo then AfterPull(s.docs, d.user, pull) else s.docs
    case SaveDone(m, ok) => if SaveLands(s, m, ok) then s.docs[s.pending[m].key := s.pending[m].doc] else s.docs
    case _ => s.docs
  }

  predicate SendsMessage(s: State, e: Event) {
    (e.Send? || e.Private?) && e.c in s.sessions && s.sessions[e.c].me.Some?
  }

  /** Addressed to nobody: an empty recipient is left out of the document, so no filter on it matches. */
  function Recipient(to: UserId): Option<UserId> {
    if to == "" then None else Some(to)
  }

  /** The document a message leaves behind; private messages to absent users start undelivered. */
  function NewDoc(s: State, e: Event): Doc
    requires SendsMessage(s, e)
  {
    Doc(s.nextMsg, s.sessions[e.c].me.value.user, e.c,
        if e.Send? then None else Recipient(e.to), e.Send? || e.to in s.online)
  }

  function PendingAfter(cfg: Config, s: State, e: Event): map<MsgId, Save> {
    if SendsMessage(s, e) && cfg.mongo then s.pending[s.nextMsg := Save(e.key, NewDoc(s, e))]
    else if e.SaveDone? then s.pending - {e.msg}
    else s.pending
  }

  function FailedAfter(cfg: Config, s: State, e: Event): set<MsgId>
    requires Possible(cfg, s, e)
  {
    if e.SaveDone? && !SaveLands(s, e.msg, e.ok) then s.failed + {e.msg} else s.failed
  }

  function NextMsgAfter(s: State, e: Event): MsgId {
    if SendsMessage(s, e) then s.nextMsg + 1 else s.nextMsg
  }

  function Step(cfg: Config, s: State, e: Event): State
    requires Possible(cfg, s, e)
  {
    State(SessionsAfter(cfg, s, e), ChansAfter(cfg, s, e), RoomsAfter(cfg, s, e), OnlineAfter(cfg, s, e),
          RolesAfter(cfg, s, e), DocsAfter(cfg, s, e), PendingAfter(cfg, s, e), FailedAfter(cfg, s, e),
          NextMsgAfter(s, e))
  }

  /** A run the environment can produce from a fresh server, oldest event first. */
  ghost predicate ValidRun(cfg: Config, roles: map<UserId, Role>, evs: seq<Event>)
    decreases |evs|, 0
  {
    evs == [] ||
    (var n := |evs| - 1;
     ValidRun(cfg, roles, evs[..n]) && Possible(cfg, After(cfg, roles, evs[..n]), evs[n]))
  }

  ghost function After(cfg: Config, roles: map<UserId, Role>, evs: seq<Event>): State
    requires ValidRun(cfg, roles, evs)
    decreases |evs|, 1
  {
    if evs == [] then Init(roles)
    else var n := |evs| - 1; Step(cfg, After(cfg, roles, evs[..n]), evs[n])
  }
}
