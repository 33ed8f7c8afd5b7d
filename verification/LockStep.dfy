/**
  The gateway at lock granularity. Every connection is a thread; taking a lock, releasing it and
  each access to a shared map in between is one step, and steps of any number of threads
  interleave freely. The thread programs are those of internal/gateway/room.go and clients.go,
  called from the read loop and the disconnect cleanup of ws_handle.go.
 */
module LockStep {
  import opened Basics
  import opened Channels

  /** The address of a Room object. Registered or not, an object keeps its own lock and clients. */
  type Obj = nat

  datatype Room = Room(id: RoomId, clients: map<UserId, ConnId>)

  /** Live messages are numbered per sending connection; replies and offline pushes are `Other`. */
  datatype Frame = Live(src: ConnId, n: nat) | Other

  // ---- locks ----------------------------------------------------------------------------

  datatype Lock = RoomsMu | OnlineMu | RoomMu(o: Obj)

  datatype Mode = Read | Write

  datatype Hold = Hold(lock: Lock, mode: Mode)

  /**
    A sync.RWMutex. `writer` is set as soon as a writer announces itself: from then on new
    readers wait, and the writer itself waits until the present readers are gone.
   */
  datatype RW = RW(writer: Option<ConnId>, readers: set<ConnId>)

  // ---- threads --------------------------------------------------------------------------

  /** What getOrCreateRoom was called for. */
  datatype Purpose = ToJoin | ToLeave | ToSend | ToSweep

  /** Where a thread is. Most tasks are one critical section; the others need no lock. */
  datatype Task =
    | Idle                                                  // waiting for the next frame
    | Done                                                  // cleanup finished
    | Look(id: RoomId, why: Purpose, found: Option<Obj>)    // getOrCreateRoom, first look
    | Make(id: RoomId, why: Purpose, found: Option<Obj>)    // getOrCreateRoom, second look and creation
    | Add(o: Obj)                                           // addClient
    | Remove(o: Obj, id: RoomId)                            // removeClient
    | EmptyLook(id: RoomId)                                 // removeEmptyRoom: lookup under roomsMu
    | EmptyCount(id: RoomId, o: Obj, n: nat)                // removeEmptyRoom: count under r.mu, roomsMu held
    | EmptyDelete(id: RoomId, n: nat)                       // removeEmptyRoom: r.mu released, roomsMu held
    | Cast(o: Obj, visited: set<UserId>)                    // broadcast
    | Find(to: UserId, target: Option<ConnId>)              // getOnlineClient for a private message
    | Deliver(d: ConnId)                                    // the non-blocking send to its target
    | Register(user: UserId, push: nat)                     // registerOnline; `push` messages wait
    | PushFind(user: UserId, target: Option<ConnId>, push: nat)  // getOnlineClient in pushUndelivered
    | Push(d: ConnId, left: nat)                            // the sends of pushUndelivered
    | Scan(visited: set<RoomId>)                            // cleanup: collect rooms, roomsMu read-held
    | ScanRead(visited: set<RoomId>, id: RoomId, o: Obj)    // cleanup: look into one room
    | SweepNext                                             // cleanup: next collected room
    | Unregister                                            // unregisterOnline
    | Peek(lock: Lock)                                      // GetRoomCount, GetRoomIDs, GetOnlineUsers

  /** Progress through a critical section; a lock-free task stays at `Ask`. */
  datatype Phase = Ask | Wait | In | Out

  datatype Thread = Thread(task: Task, phase: Phase, me: Option<UserId>, sent: nat, mine: set<RoomId>, ending: bool)

  datatype State = State(
    threads: map<ConnId, Thread>,
    locks: map<Lock, RW>,
    rooms: map<RoomId, Obj>,
    objs: map<Obj, Room>,
    online: map<UserId, ConnId>,
    chans: map<ConnId, Chan<Frame>>)

  const INITIAL := State(map[], map[], map[], map[], map[], map[])

  function LockOf(s: State, l: Lock): RW {
    if l in s.locks then s.locks[l] else RW(None, {})
  }

  function ClientsOf(s: State, o: Obj): map<UserId, ConnId> {
    if o in s.objs then s.objs[o].clients else map[]
  }

  /** The lock a task is about to take, holds, or is about to release. */
  function Target(t: Task): Option<Hold> {
    match t
    case Look(_, _, _) => Some(Hold(RoomsMu, Read))
    case Make(_, _, _) => Some(Hold(RoomsMu, Write))
    case Add(o) => Some(Hold(RoomMu(o), Write))
    case Remove(o, _) => Some(Hold(RoomMu(o), Write))
    case EmptyLook(_) => Some(Hold(RoomsMu, Write))
    case EmptyCount(_, o, _) => Some(Hold(RoomMu(o), Write))
    case EmptyDelete(_, _) => Some(Hold(RoomsMu, Write))
    case Cast(o, _) => Some(Hold(RoomMu(o), Read))
    case Find(_, _) => Some(Hold(OnlineMu, Read))
    case Register(_, _) => Some(Hold(OnlineMu, Write))
    case PushFind(_, _, _) => Some(Hold(OnlineMu, Read))
    case Scan(_) => Some(Hold(RoomsMu, Read))
    case ScanRead(_, _, o) => Some(Hold(RoomMu(o), Read))
    case Unregister => Some(Hold(OnlineMu, Write))
    case Peek(l) => Some(Hold(l, Read))
    case _ => None
  }

  /** The lock a task holds all along, around its own: roomsMu, in two places. */
  function Base(t: Task): Option<Hold> {
    match t
    case EmptyCount(_, _, _) => Some(Hold(RoomsMu, Write))
    case ScanRead(_, _, _) => Some(Hold(RoomsMu, Read))
    case _ => None
  }

  // ---- actions --------------------------------------------------------------------------

  /** The frame a read loop takes next, or the end of its connection. */
  datatype Op =
    | DoAuth(user: UserId, push: nat) | DoJoin(id: RoomId) | DoLeave(id: RoomId) | DoSend(id: RoomId)
    | DoPrivate(to: UserId) | DoReply | DoPeek(lock: Lock) | HangUp

  /** The choices Go leaves open: map iteration order and the address of a new object. */
  datatype Pick = Nothing | User(user: UserId) | InRoom(id: RoomId) | Fresh(o: Obj)

  datatype Action =
    | Spawn
    | Start(op: Op)
    | Acquire
    | Body(pick: Pick)
    | Release
    | Free(pick: Pick)
    | WriterTakes

  datatype Move = Move(t: ConnId, a: Action)

  predicate StartPossible(th: Thread, op: Op) {
    th.task.Idle? &&
    match op
    case DoJoin(_) => th.me.Some?
    case DoLeave(_) => th.me.Some?
    case DoSend(_) => th.me.Some?
    case DoPrivate(_) => th.me.Some?
    case DoPeek(l) => l == RoomsMu || l == OnlineMu
    case _ => true
  }

  predicate AcquirePossible(s: State, th: Thread) {
    Target(th.task).Some? &&
    var lock := LockOf(s, Target(th.task).value.lock);
    match th.phase
    case Ask => lock.writer == None
    case Wait => lock.readers == {}
    case _ => false
  }

  predicate BodyPossible(s: State, th: Thread, pick: Pick) {
    th.phase == In &&
    match th.task
    case Make(id, _, _) => if id in s.rooms then pick == Nothing else pick.Fresh? && pick.o !in s.objs
    case Cast(o, visited) =>
      if ClientsOf(s, o).Keys <= visited then pick == Nothing
      else pick.User? && pick.user in ClientsOf(s, o) && pick.user !in visited
    case Scan(visited) =>
      if s.rooms.Keys <= visited then pick == Nothing
      else pick.InRoom? && pick.id in s.rooms && pick.id !in visited
    case _ => pick == Nothing
  }

  predicate FreePossible(th: Thread, pick: Pick) {
    match th.task
    case Deliver(_) => pick == Nothing
    case Push(_, _) => pick == Nothing
    case SweepNext => if th.mine == {} then pick == Nothing else pick.InRoom? && pick.id in th.mine
    case _ => false
  }

  predicate Possible(s: State, t: ConnId, a: Action) {
    match a
    case Spawn => t !in s.threads && t !in s.chans
    case Start(op) => t in s.threads && StartPossible(s.threads[t], op)
    case Acquire => t in s.threads && AcquirePossible(s, s.threads[t])
    case Body(pick) => t in s.threads && BodyPossible(s, s.threads[t], pick)
    case Release => t in s.threads && s.threads[t].phase == Out
    case Free(pick) => t in s.threads && FreePossible(s.threads[t], pick)
    case WriterTakes => t in s.chans
  }

  // ---- what a step does to its thread -----------------------------------------------------

  function StartThread(th: Thread, op: Op): Thread {
    match op
    case DoAuth(u, push) => th.(me := Some(u), task := Register(u, push), phase := Ask)
    case DoJoin(id) => th.(task := Look(id, ToJoin, None), phase := Ask)
    case DoLeave(id) => th.(task := Look(id, ToLeave, None), phase := Ask)
    case DoSend(id) => th.(sent := th.sent + 1, task := Look(id, ToSend, None), phase := Ask)
    case DoPrivate(to) => th.(sent := th.sent + 1, task := Find(to, None), phase := Ask)
    case DoReply => th
    case DoPeek(l) => th.(task := Peek(l), phase := Ask)
    case HangUp => th.(ending := true, task := if th.me.Some? then Scan({}) else Done, phase := Ask, mine := {})
  }

  function Lookup<K, V>(m: map<K, V>, k: K): Option<V> {
    if k in m then Some(m[k]) else None
  }

  function BodyThread(s: State, th: Thread, pick: Pick): Thread {
    match th.task
    case Look(id, why, _) => th.(task := Look(id, why, Lookup(s.rooms, id)), phase := Out)
    case Make(id, why, _) =>
      th.(task := Make(id, why, if id in s.rooms then Some(s.rooms[id]) else if pick.Fresh? then Some(pick.o) else None),
          phase := Out)
    case EmptyLook(id) =>
      if id in s.rooms then th.(task := EmptyCount(id, s.rooms[id], 0), phase := Ask) else th.(phase := Out)
    case EmptyCount(id, o, _) => th.(task := EmptyCount(id, o, |ClientsOf(s, o)|), phase := Out)
    case Cast(o, visited) => if pick.User? then th.(task := Cast(o, visited + {pick.user})) else th.(phase := Out)
    case Find(to, _) => th.(task := Find(to, Lookup(s.online, to)), phase := Out)
    case PushFind(u, _, n) => th.(task := PushFind(u, Lookup(s.online, u), n), phase := Out)
    case Scan(visited) =>
      if pick.InRoom? && pick.id in s.rooms then th.(task := ScanRead(visited, pick.id, s.rooms[pick.id]), phase := Ask)
      else th.(phase := Out)
    case ScanRead(_, id, o) =>
      th.(phase := Out, mine := if th.me.Some? && th.me.value in ClientsOf(s, o) then th.mine + {id} else th.mine)
    case _ => th.(phase := Out)
  }

  /** getOrCreateRoom has returned `o`. */
  function Got(th: Thread, id: RoomId, why: Purpose, o: Obj): Thread {
    match why
    case ToJoin => th.(task := Add(o), phase := Ask)
    case ToLeave => th.(task := Remove(o, id), phase := Ask)
    case ToSend => th.(task := Cast(o, {}), phase := Ask)
    case ToSweep => th.(task := Remove(o, id), phase := Ask)
  }

  /** removeEmptyRoom has returned: to the read loop, or to the sweep. */
  function AfterEmpty(th: Thread): Thread {
    th.(task := if th.ending then SweepNext else Idle, phase := Ask)
  }

  function ReleaseThread(th: Thread): Thread {
    match th.task
    case Look(id, why, found) =>
      if found.Some? then Got(th, id, why, found.value) else th.(task := Make(id, why, None), phase := Ask)
    case Make(id, why, found) => if found.Some? then Got(th, id, why, found.value) else th.(task := Idle, phase := Ask)
    case Remove(_, id) => th.(task := EmptyLook(id), phase := Ask)
    case EmptyLook(_) => AfterEmpty(th)
    case EmptyCount(id, _, n) => th.(task := EmptyDelete(id, n), phase := In)
    case EmptyDelete(_, _) => AfterEmpty(th)
    case Find(_, target) => th.(task := if target.Some? then Deliver(target.value) else Idle, phase := Ask)
    case Register(u, push) => th.(task := if push > 0 then PushFind(u, None, push) else Idle, phase := Ask)
    case PushFind(_, target, n) => th.(task := if target.Some? then Push(target.value, n) else Idle, phase := Ask)
    case Scan(_) => th.(task := SweepNext, phase := Ask)
    case ScanRead(visited, id, _) => th.(task := Scan(visited + {id}), phase := In)
    case Unregister => th.(task := Done, phase := Ask)
    case _ => th.(task := Idle, phase := Ask)
  }

  function FreeThread(th: Thread, pick: Pick): Thread {
    match th.task
    case Push(d, left) => th.(task := if left > 0 then Push(d, left - 1) else Idle)
    case SweepNext =>
      if pick.InRoom? then th.(task := Look(pick.id, ToSweep, None), phase := Ask, mine := th.mine - {pick.id})
      else th.(task := Unregister, phase := Ask)
    case _ => th.(task := Idle)
  }

  function ThreadAfter(s: State, t: ConnId, a: Action): Thread
    requires Possible(s, t, a) && !a.WriterTakes?
  {
    match a
    case Spawn => Thread(Idle, Ask, None, 0, {}, false)
    case Start(op) => StartThread(s.threads[t], op)
    case Acquire =>
      var th := s.threads[t];
      th.(phase := if th.phase == Ask && Target(th.task).value.mode == Write then Wait else In)
    case Body(pick) => BodyThread(s, s.threads[t], pick)
    case Release => ReleaseThread(s.threads[t])
    case Free(pick) => FreeThread(s.threads[t], pick)
  }

  // ---- what a step does to the shared state ------------------------------------------------

  function Granted(lock: RW, mode: Mode, t: ConnId): RW {
    if mode == Write then lock.(writer := Some(t)) else lock.(readers := lock.readers + {t})
  }

  function Returned(lock: RW, mode: Mode, t: ConnId): RW {
    if mode == Write then lock.(writer := None) else lock.(readers := lock.readers - {t})
  }

  function LocksAfter(s: State, t: ConnId, a: Action): map<Lock, RW>
    requires Possible(s, t, a)
  {
    if (a.Acquire? || a.Release?) && Target(s.threads[t].task).Some? then
      var hold := Target(s.threads[t].task).value;
      var lock := LockOf(s, hold.lock);
      if a.Release? then s.locks[hold.lock := Returned(lock, hold.mode, t)]
      else if s.threads[t].phase == Ask then s.locks[hold.lock := Granted(lock, hold.mode, t)]
      else s.locks
    else s.locks
  }

  function RoomsAfter(s: State, t: ConnId, a: Action): map<RoomId, Obj>
    requires Possible(s, t, a)
  {
    if a.Body? then
      match s.threads[t].task
      case Make(id, _, _) => if id !in s.rooms && a.pick.Fresh? then s.rooms[id := a.pick.o] else s.rooms
      case EmptyDelete(id, n) => if n == 0 then s.rooms - {id} else s.rooms
      case _ => s.rooms
    else s.rooms
  }

  function ObjsAfter(s: State, t: ConnId, a: Action): map<Obj, Room>
    requires Possible(s, t, a)
  {
    if a.Body? then
      var th := s.threads[t];
      match th.task
      case Make(id, _, _) => if id !in s.rooms && a.pick.Fresh? then s.objs[a.pick.o := Room(id, map[])] else s.objs
      case Add(o) =>
        if o in s.objs && th.me.Some? then s.objs[o := s.objs[o].(clients := s.objs[o].clients[th.me.value := t])]
        else s.objs
      case Remove(o, _) =>
        if o in s.objs && th.me.Some? then s.objs[o := s.objs[o].(clients := s.objs[o].clients - {th.me.value})]
        else s.objs
      case _ => s.objs
    else s.objs
  }

  function OnlineAfter(s: State, t: ConnId, a: Action): map<UserId, ConnId>
    requires Possible(s, t, a)
  {
    if a.Body? then
      var th := s.threads[t];
      match th.task
      case Register(u, _) => s.online[u := t]
      case Unregister => if th.me.Some? then s.online - {th.me.value} else s.online
      case _ => s.online
    else s.online
  }

  /** The one frame a step offers, and to whom. */
  function Offering(s: State, t: ConnId, a: Action): Option<(ConnId, Frame)>
    requires Possible(s, t, a)
  {
    match a
    case Start(op) => if op.DoReply? then Some((t, Other)) else None
    case Body(pick) =>
      var th := s.threads[t];
      if th.task.Cast? && pick.User? then Some((ClientsOf(s, th.task.o)[pick.user], Live(t, th.sent))) else None
    case Free(pick) =>
      var th := s.threads[t];
      if th.task.Deliver? then Some((th.task.d, Live(t, th.sent)))
      else if th.task.Push? && th.task.left > 0 then Some((th.task.d, Other))
      else None
    case _ => None
  }

  function ChansAfter(s: State, t: ConnId, a: Action): map<ConnId, Chan<Frame>>
    requires Possible(s, t, a)
  {
    if a.Spawn? then s.chans[t := Open()]
    else if a.WriterTakes? then s.chans[t := Take(s.chans[t])]
    else
      var offer := Offering(s, t, a);
      if offer.Some? && offer.value.0 in s.chans then
        s.chans[offer.value.0 := Offer(s.chans[offer.value.0], offer.value.1)]
      else s.chans
  }

  function Step(s: State, t: ConnId, a: Action): State
    requires Possible(s, t, a)
  {
    State(if a.WriterTakes? then s.threads else s.threads[t := ThreadAfter(s, t, a)],
          LocksAfter(s, t, a), RoomsAfter(s, t, a), ObjsAfter(s, t, a), OnlineAfter(s, t, a), ChansAfter(s, t, a))
  }

  // ---- runs -----------------------------------------------------------------------------

  /** An interleaving that the scheduler can produce from an empty server, oldest move first. */
  ghost predicate ValidRun(run: seq<Move>)
    decreases |run|, 0
  {
    run == [] ||
    (var n := |run| - 1; ValidRun(run[..n]) && Possible(After(run[..n]), run[n].t, run[n].a))
  }

  ghost function After(run: seq<Move>): State
    requires ValidRun(run)
    decreases |run|, 1
  {
    if run == [] then INITIAL
    else var n := |run| - 1; Step(After(run[..n]), run[n].t, run[n].a)
  }
}
