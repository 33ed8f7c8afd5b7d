/**
  internal/gateway/room.go as objects: rooms, the table of registered rooms, and the
  non-blocking sends into the clients' channels. The loops are the source's.
 */
module Rooms {
  import opened Basics
  import opened Channels
  import opened GatewayModel

  // ---- sending --------------------------------------------------------------------------

  lemma OneMoreCopy(members: Members, visited: set<UserId>, u: UserId, c: ConnId)
    requires u in members && u !in visited
    ensures CopiesFor(members, visited + {u}, c) == CopiesFor(members, visited, c) + if members[u].conn == c then 1 else 0
  {
    var before := set v | v in visited && v in members && members[v].conn == c;
    var after := set v | v in visited + {u} && v in members && members[v].conn == c;
    if members[u].conn == c {
      assert after == before + {u};
    } else {
      assert after == before;
    }
  }

  /** Visiting one more user of the room offers the frame to that user's channel. */
  lemma VisitOne(chans: map<ConnId, Chan<Frame>>, members: Members, visited: set<UserId>, u: UserId, f: Frame)
    requires u in members && u !in visited
    ensures BroadcastTo(chans, members, visited + {u}, f) == OfferTo(BroadcastTo(chans, members, visited, f), members[u].conn, f)
  {
    forall c | c in chans
      ensures BroadcastTo(chans, members, visited + {u}, f)[c]
              == OfferTo(BroadcastTo(chans, members, visited, f), members[u].conn, f)[c]
    {
      OneMoreCopy(members, visited, u, c);
    }
  }

  lemma CopiesBound(members: Members, visited: set<UserId>, c: ConnId)
    ensures CopiesFor(members, visited, c) <= |visited|
  {
    var listed := set u | u in visited && u in members && members[u].conn == c;
    SubsetSize(listed, visited);
  }

  lemma VisitNone(chans: map<ConnId, Chan<Frame>>, members: Members, f: Frame)
    ensures BroadcastTo(chans, members, {}, f) == chans
  {
    forall c | c in chans
      ensures CopiesFor(members, {}, c) == 0
    {
      CopiesBound(members, {}, c);
    }
  }

  /** The channels while the users in `todo` have yet to be visited. */
  function AllBut(chans: map<ConnId, Chan<Frame>>, members: Members, todo: set<UserId>, f: Frame): map<ConnId, Chan<Frame>> {
    BroadcastTo(chans, members, members.Keys - todo, f)
  }

  lemma VisitNext(chans: map<ConnId, Chan<Frame>>, members: Members, todo: set<UserId>, u: UserId, f: Frame)
    requires todo <= members.Keys && u in todo
    ensures AllBut(chans, members, todo - {u}, f) == OfferTo(AllBut(chans, members, todo, f), members[u].conn, f)
    ensures AllBut(chans, members, todo, f).Keys == chans.Keys
  {
    VisitOne(chans, members, members.Keys - todo, u, f);
    assert members.Keys - (todo - {u}) == members.Keys - todo + {u};
  }

  lemma BroadcastEnds(chans: map<ConnId, Chan<Frame>>, members: Members, f: Frame)
    ensures AllBut(chans, members, members.Keys, f) == chans
    ensures AllBut(chans, members, {}, f) == GatewayModel.Broadcast(chans, members, f)
  {
    VisitNone(chans, members, f);
    assert members.Keys - members.Keys == {};
    assert members.Keys - {} == members.Keys;
  }

  // ---- one room -------------------------------------------------------------------------

  class Room {
    const id: RoomId
    var clients: Members

    constructor (id: RoomId)
      ensures this.id == id && clients == map[]
    {
      this.id := id;
      clients := map[];
    }

    method AddClient(c: Client)
      modifies this
      ensures clients == old(clients)[c.user := c]
    {
      clients := clients[c.user := c];
    }

    method RemoveClient(c: Client)
      modifies this
      ensures clients == old(clients) - {c.user}
    {
      clients := clients - {c.user};
    }

    method Contains(user: UserId) returns (present: bool)
      ensures present <==> user in clients
    {
      present := user in clients;
    }

    /** Offers the frame once for every listed user, in whatever order the map is visited. */
    method Broadcast(f: Frame, out: Outboxes<Frame>)
      requires forall u :: u in clients ==> clients[u].conn in out.chans
      modifies out
      ensures out.chans == GatewayModel.Broadcast(old(out.chans), clients, f)
    {
      var todo := clients.Keys;
      BroadcastEnds(out.chans, clients, f);
      while todo != {}
        invariant todo <= clients.Keys && out.chans == AllBut(old(out.chans), clients, todo, f)
        decreases todo
      {
        var u :| u in todo;
        VisitNext(old(out.chans), clients, todo, u, f);
        out.TrySend(clients[u].conn, f);
        todo := todo - {u};
      }
    }
  }

  // ---- the table of rooms -----------------------------------------------------------------

  /** The sweep part way: the rooms in `done` have been dealt with. */
  function SweptSoFar(rooms: map<RoomId, Members>, user: UserId, done: set<RoomId>): map<RoomId, Members> {
    map r | r in rooms && !(r in done && OnlyMember(rooms, r, user)) ::
      if r in done then rooms[r] - {user} else rooms[r]
  }

  lemma SweepOne(rooms: map<RoomId, Members>, user: UserId, done: set<RoomId>, r: RoomId)
    requires r in rooms && user in rooms[r] && r !in done
    ensures RemoveEmpty(RemoveMember(SweptSoFar(rooms, user, done), r, user), r) == SweptSoFar(rooms, user, done + {r})
  {
    var now, next := SweptSoFar(rooms, user, done), SweptSoFar(rooms, user, done + {r});
    assert r in now && now[r] == rooms[r];
    EmptyWithout(rooms[r], user);
    forall k
      ensures k != r ==> (k in next <==> k in now) && (k in now ==> next[k] == now[k])
      ensures k == r ==> (k in next <==> |rooms[r] - {user}| != 0) && (k in next ==> next[k] == rooms[r] - {user})
    {
    }
  }

  lemma EmptyWithout(members: Members, user: UserId)
    ensures |members - {user}| == 0 <==> members.Keys <= {user}
  {
    assert (members - {user}).Keys == members.Keys - {user};
    assert |members - {user}| == |(members - {user}).Keys|;
  }

  /** The rooms that list `user`. */
  function RoomsWith(rooms: map<RoomId, Members>, user: UserId): set<RoomId> {
    set r | r in rooms && user in rooms[r]
  }

  function Front(mine: seq<RoomId>, i: nat): set<RoomId>
    requires i <= |mine|
  {
    set r | r in mine[..i]
  }

  /** The rooms as they are after the first `i` collected ones have been dealt with. */
  function SweptUpTo(rooms: map<RoomId, Members>, user: UserId, mine: seq<RoomId>, i: nat): map<RoomId, Members>
    requires i <= |mine|
  {
    SweptSoFar(rooms, user, Front(mine, i))
  }

  lemma SweepStep(rooms: map<RoomId, Members>, user: UserId, mine: seq<RoomId>, i: nat)
    requires Enumerates(mine, RoomsWith(rooms, user)) && i < |mine|
    ensures RemoveEmpty(RemoveMember(SweptUpTo(rooms, user, mine, i), mine[i], user), mine[i])
            == SweptUpTo(rooms, user, mine, i + 1)
  {
    var done := Front(mine, i);
    assert mine[i] in RoomsWith(rooms, user) && mine[i] !in mine[..i];
    assert mine[..i + 1] == mine[..i] + [mine[i]];
    assert Front(mine, i + 1) == done + {mine[i]};
    SweepOne(rooms, user, done, mine[i]);
  }

  lemma SweepEnds(rooms: map<RoomId, Members>, user: UserId, mine: seq<RoomId>)
    requires Enumerates(mine, RoomsWith(rooms, user))
    ensures SweptUpTo(rooms, user, mine, 0) == rooms
    ensures SweptUpTo(rooms, user, mine, |mine|) == Swept(rooms, user)
  {
    assert mine[..|mine|] == mine;
    assert Front(mine, |mine|) == RoomsWith(rooms, user);
    forall r | r in rooms && user !in rooms[r]
      ensures rooms[r] - {user} == rooms[r]
    {
    }
  }

  class RoomTable {
    var rooms: map<RoomId, Room>

    ghost function Repr(): set<object>
      reads this
    {
      {this} + rooms.Values
    }

    /** Every key is its room's id, so different keys hold different objects. */
    ghost predicate Valid()
      reads this, rooms.Values
    {
      forall r :: r in rooms ==> rooms[r].id == r
    }

    ghost function View(): map<RoomId, Members>
      reads this, rooms.Values
    {
      map r | r in rooms :: rooms[r].clients
    }

    constructor ()
      ensures Valid() && View() == map[] && fresh(Repr())
    {
      rooms := map[];
    }

    method GetOrCreateRoom(id: RoomId) returns (r: Room)
      requires Valid()
      modifies this
      ensures Valid() && id in rooms && rooms[id] == r && fresh(Repr() - old(Repr()))
      ensures id in old(rooms) ==> rooms == old(rooms)
      ensures View() == GetOrCreate(old(View()), id)
    {
      if id in rooms {
        r := rooms[id];
      } else {
        r := new Room(id);
        rooms := rooms[id := r];
      }
    }

    method RemoveEmptyRoom(id: RoomId)
      requires Valid()
      modifies this
      ensures Valid() && Repr() <= old(Repr())
      ensures View() == RemoveEmpty(old(View()), id)
    {
      if id in rooms {
        var r := rooms[id];
        var n := |r.clients|;
        assert View()[id] == r.clients;
        if n == 0 {
          Delete(id);
        }
      }
    }

    method Delete(id: RoomId)
      requires Valid()
      modifies this
      ensures Valid() && Repr() <= old(Repr())
      ensures View() == old(View()) - {id}
    {
      rooms := rooms - {id};
    }

    /** getOrCreateRoom(id).addClient(me). */
    method Join(id: RoomId, me: Client)
      requires Valid()
      modifies Repr()
      ensures Valid() && fresh(Repr() - old(Repr()))
      ensures View() == AddMember(old(View()), id, me)
    {
      var r := GetOrCreateRoom(id);
      assert forall k :: k in rooms && k != id ==> rooms[k] != r;
      r.AddClient(me);
    }

    /** getOrCreateRoom(id).removeClient(me). */
    method RemoveFrom(id: RoomId, me: Client)
      requires Valid()
      modifies Repr()
      ensures Valid() && fresh(Repr() - old(Repr()))
      ensures View() == RemoveMember(old(View()), id, me.user)
    {
      var r := GetOrCreateRoom(id);
      assert forall k :: k in rooms && k != id ==> rooms[k] != r;
      r.RemoveClient(me);
    }

    /** getOrCreateRoom(id).removeClient(me); removeEmptyRoom(id). */
    method Leave(id: RoomId, me: Client)
      requires Valid()
      modifies Repr()
      ensures Valid() && fresh(Repr() - old(Repr()))
      ensures View() == RemoveEmpty(RemoveMember(old(View()), id, me.user), id)
    {
      RemoveFrom(id, me);
      RemoveEmptyRoom(id);
    }

    /** getOrCreateRoom(id).broadcast(f). */
    method BroadcastIn(id: RoomId, f: Frame, out: Outboxes<Frame>)
      requires Valid() && forall u :: u in MembersOf(View(), id) ==> MembersOf(View(), id)[u].conn in out.chans
      modifies this, out
      ensures Valid() && fresh(Repr() - old(Repr()))
      ensures View() == GetOrCreate(old(View()), id)
      ensures out.chans == GatewayModel.Broadcast(old(out.chans), MembersOf(old(View()), id), f)
    {
      var r := GetOrCreateRoom(id);
      assert View()[id] == r.clients == MembersOf(old(View()), id);
      r.Broadcast(f, out);
    }

    /** The first loop of the cleanup: which rooms list the user. */
    method Collect(user: UserId) returns (mine: seq<RoomId>)
      ensures Enumerates(mine, RoomsWith(View(), user))
    {
      var todo := rooms.Keys;
      mine := [];
      while todo != {}
        invariant todo <= rooms.Keys
        invariant forall r :: r in mine <==> r in rooms && r !in todo && user in rooms[r].clients
        invariant forall i, j :: 0 <= i < j < |mine| ==> mine[i] != mine[j]
        decreases todo
      {
        var r :| r in todo;
        todo := todo - {r};
        if user in rooms[r].clients {
          mine := mine + [r];
        }
      }
    }

    /** The cleanup: both loops. Untouched rooms stay, empty or not; emptied rooms go. */
    method Sweep(me: Client)
      requires Valid()
      modifies Repr()
      ensures Valid() && fresh(Repr() - old(Repr()))
      ensures View() == Swept(old(View()), me.user)
    {
      ghost var before := View();
      var mine := Collect(me.user);
      SweepEnds(before, me.user, mine);
      var i := 0;
      while i < |mine|
        invariant 0 <= i <= |mine|
        invariant Valid() && fresh(Repr() - old(Repr()))
        invariant View() == SweptUpTo(before, me.user, mine, i)
      {
        SweepStep(before, me.user, mine, i);
        Leave(mine[i], me);
        i := i + 1;
      }
    }

    method RoomCount() returns (n: nat)
      ensures n == |rooms|
    {
      n := |rooms|;
    }

    /** Every registered id exactly once. */
    method RoomIDs() returns (ids: seq<RoomId>)
      ensures Enumerates(ids, rooms.Keys) && |ids| == |rooms|
    {
      ids := KeysOf(rooms.Keys);
    }
  }

  /** The loop that appends a map's keys to a slice. */
  method KeysOf<T(!new)>(keys: set<T>) returns (ids: seq<T>)
    ensures Enumerates(ids, keys) && |ids| == |keys|
  {
    var todo := keys;
    ids := [];
    while todo != {}
      invariant todo <= keys && Enumerates(ids, keys - todo) && |ids| + |todo| == |keys|
      decreases todo
    {
      var x :| x in todo;
      todo, ids := todo - {x}, ids + [x];
    }
  }
}
