/**
  What reaches the channels: conservation in every channel, at-most-once delivery of private
  messages over the live path and the offline pull together, and the fate of offline messages.
 */
module Delivery {
  import opened Basics
  import opened Channels
  import opened MessageStore
  import opened GatewayModel
  import opened Membership

  // ---- what a step offers ---------------------------------------------------------------

  /** Every frame ever offered to connection `c`, in order, whether it was accepted or dropped. */
  function OfferedTo(s: State, c: ConnId): seq<Frame> {
    if c in s.chans then Frames(s.chans[c].offers) else []
  }

  function When(b: bool, f: Frame): seq<Frame> {
    if b then [f] else []
  }

  /** The frames that one step offers to connection `c`, in order. */
  function NewFrames(cfg: Config, s: State, e: Event, c: ConnId): seq<Frame>
    requires Possible(cfg, s, e)
  {
    match e
    case Auth(from, _, _, _, pull) =>
      if c != from then []
      else
        var d := DecisionOn(cfg, s, e);
        (if d.LoggedIn? then Pushed(cfg, s.docs, d.user, pull) else []) + [Reply(AuthNotice(d))]
    case Join(from, room) => When(c == from, Reply(if s.sessions[from].me.Some? then Joined(room) else NotAuthenticated))
    case Leave(from, room) => When(c == from && s.sessions[from].me.Some?, Reply(Left(room)))
    case Send(from, room, _) =>
      if s.sessions[from].me.Some? then
        var members := MembersOf(s.rooms, room);
        Repeat(RoomMessage(s.nextMsg, s.sessions[from].me.value.user, from, room), CopiesFor(members, members.Keys, c))
      else When(c == from, Reply(NotAuthenticated))
    case Private(from, to, _) =>
      if s.sessions[from].me.Some? then
        When(to in s.online && s.online[to].conn == c,
             PrivateMessage(s.nextMsg, s.sessions[from].me.value.user, from, to))
        + When(c == from, Reply(Ack(to)))
      else When(c == from, Reply(NotAuthenticated))
    case OtherFrame(from) => When(c == from, Reply(Other))
    case _ => []
  }

  lemma StepOffers(cfg: Config, s: State, e: Event, c: ConnId)
    requires Possible(cfg, s, e) && c in s.chans && WellFormed(s)
    ensures c in ChansAfter(cfg, s, e)
    ensures Frames(ChansAfter(cfg, s, e)[c].offers) == Frames(s.chans[c].offers) + NewFrames(cfg, s, e, c)
  {
    match e
    case Auth(from, _, _, _, pull) =>
      if c == from {
        var d := DecisionOn(cfg, s, e);
        if d.LoggedIn? {
          OfferAllFrames(s.chans[c], Pushed(cfg, s.docs, d.user, pull));
          OfferFrames(OfferAll(s.chans[c], Pushed(cfg, s.docs, d.user, pull)), Reply(AuthNotice(d)));
        } else {
          OfferFrames(s.chans[c], Reply(AuthNotice(d)));
        }
      }
    case Send(from, room, _) =>
      if s.sessions[from].me.Some? {
        var members := MembersOf(s.rooms, room);
        OfferTimesFrames(s.chans[c], RoomMessage(s.nextMsg, s.sessions[from].me.value.user, from, room),
                         CopiesFor(members, members.Keys, c));
      }
    case Private(from, to, _) => PrivateOffers(cfg, s, e, c);
    case _ =>
  }

  lemma PrivateOffers(cfg: Config, s: State, e: Event, c: ConnId)
    requires Possible(cfg, s, e) && c in s.chans && e.Private?
    ensures c in ChansAfter(cfg, s, e)
    ensures Frames(ChansAfter(cfg, s, e)[c].offers) == Frames(s.chans[c].offers) + NewFrames(cfg, s, e, c)
  {
    if s.sessions[e.c].me.Some? {
      var m := PrivateMessage(s.nextMsg, s.sessions[e.c].me.value.user, e.c, e.to);
      var live := e.to in s.online && s.online[e.to].conn == c;
      var mid := if live then Offer(s.chans[c], m) else s.chans[c];
      OfferFrames(s.chans[c], m);
      OfferFrames(mid, Reply(Ack(e.to)));
    }
  }

  /** One `send` offers a connection more than one copy exactly when the room lists it under several names. */
  lemma SeveralCopiesIff(cfg: Config, s: State, e: Event, c: ConnId)
    requires Possible(cfg, s, e) && e.Send? && s.sessions[e.c].me.Some?
    ensures var members := MembersOf(s.rooms, e.room);
            |NewFrames(cfg, s, e, c)| > 1
            <==> exists u, v :: u in members && v in members && u != v && members[u].conn == c && members[v].conn == c
  {
    var members := MembersOf(s.rooms, e.room);
    var named := set u | u in members.Keys && u in members && members[u].conn == c;
    assert |NewFrames(cfg, s, e, c)| == |named|;
    if |named| > 1 {
      var u :| u in named;
      assert |named - {u}| == |named| - 1;
      var v :| v in named - {u};
      assert u != v;
    } else if u, v :| u in members && v in members && u != v && members[u].conn == c && members[v].conn == c {
      assert {u, v} <= named;
      SubsetSize({u, v}, named);
    }
  }

  // ---- conservation in every channel ------------------------------------------------------

  ghost predicate AllConserved(chans: map<ConnId, Chan<Frame>>) {
    forall c :: c in chans ==> Conserved(chans[c])
  }

  lemma OfferToConserves(chans: map<ConnId, Chan<Frame>>, c: ConnId, f: Frame)
    requires AllConserved(chans)
    ensures AllConserved(OfferTo(chans, c, f))
  {
    if c in chans {
      OfferConserves(chans[c], f);
    }
  }

  lemma StepConserves(cfg: Config, s: State, e: Event)
    requires Possible(cfg, s, e) && AllConserved(s.chans)
    ensures AllConserved(ChansAfter(cfg, s, e))
  {
    match e
    case Auth(c, _, _, _, pull) =>
      var d := DecisionOn(cfg, s, e);
      var pushed := if d.LoggedIn? then OfferAllTo(s.chans, c, Pushed(cfg, s.docs, d.user, pull)) else s.chans;
      if d.LoggedIn? && c in s.chans {
        OfferAllConserves(s.chans[c], Pushed(cfg, s.docs, d.user, pull));
      }
      OfferToConserves(pushed, c, Reply(AuthNotice(d)));
    case Send(c, room, _) =>
      if s.sessions[c].me.Some? {
        var f := RoomMessage(s.nextMsg, s.sessions[c].me.value.user, c, room);
        var members := MembersOf(s.rooms, room);
        forall d | d in s.chans
          ensures Conserved(Broadcast(s.chans, members, f)[d])
        {
          OfferTimesConserves(s.chans[d], f, CopiesFor(members, members.Keys, d));
        }
      } else {
        OfferToConserves(s.chans, c, Reply(NotAuthenticated));
      }
    case Private(c, to, _) =>
      if s.sessions[c].me.Some? {
        var m := PrivateMessage(s.nextMsg, s.sessions[c].me.value.user, c, to);
        if to in s.online {
          OfferToConserves(s.chans, s.online[to].conn, m);
          OfferToConserves(OfferTo(s.chans, s.online[to].conn, m), c, Reply(Ack(to)));
        } else {
          OfferToConserves(s.chans, c, Reply(Ack(to)));
        }
      } else {
        OfferToConserves(s.chans, c, Reply(NotAuthenticated));
      }
    case Join(c, room) =>
      OfferToConserves(s.chans, c, Reply(if s.sessions[c].me.Some? then Joined(room) else NotAuthenticated));
    case Leave(c, room) => OfferToConserves(s.chans, c, Reply(Left(room)));
    case OtherFrame(c) => OfferToConserves(s.chans, c, Reply(Other));
    case WriterTakes(c) => TakeConserves(s.chans[c]);
    case _ =>
  }

  /**
    Main result: in every run every channel stays within 256 frames, what its writer took followed
    by its queue is a subsequence of the offers in order, and taken, queued and dropped frames
    together are exactly the frames offered.
   */
  lemma {:induction false} ChannelConservation(cfg: Config, roles: map<UserId, Role>, evs: seq<Event>)
    requires ValidRun(cfg, roles, evs)
    ensures AllConserved(After(cfg, roles, evs).chans)
    ensures forall c :: c in After(cfg, roles, evs).chans ==>
              var ch := After(cfg, roles, evs).chans[c];
              && |ch.queue| <= 256
              && IsSubsequence(ch.taken + ch.queue, Frames(ch.offers))
              && multiset(Frames(ch.offers)) == multiset(ch.taken) + multiset(ch.queue) + multiset(Dropped(ch.offers))
  {
    var s := After(cfg, roles, evs);
    if evs != [] {
      var n := |evs| - 1;
      ChannelConservation(cfg, roles, evs[..n]);
      StepConserves(cfg, After(cfg, roles, evs[..n]), evs[n]);
    }
    forall c | c in s.chans
      ensures IsSubsequence(s.chans[c].taken + s.chans[c].queue, Frames(s.chans[c].offers))
      ensures var ch := s.chans[c];
              multiset(Frames(ch.offers)) == multiset(ch.taken) + multiset(ch.queue) + multiset(Dropped(ch.offers))
    {
      Conservation(s.chans[c]);
    }
  }

  // ---- the store ------------------------------------------------------------------------

  /** Every message is saved under one key at most, and is pending, failed or stored, not two of them. */
  ghost predicate Sound(docs: map<Key, Doc>, pending: map<MsgId, Save>, failed: set<MsgId>, next: MsgId) {
    && (forall m :: m in pending ==> pending[m].doc.msg == m && m < next && m !in failed)
    && (forall m :: m in failed ==> m < next)
    && (forall k :: k in docs ==> docs[k].msg < next && docs[k].msg !in pending && docs[k].msg !in failed)
    && (forall k, l :: k in docs && l in docs && k != l ==> docs[k].msg != docs[l].msg)
  }

  ghost predicate StoreSound(s: State) {
    Sound(s.docs, s.pending, s.failed, s.nextMsg)
  }

  /** The same message, perhaps delivered meanwhile. */
  predicate Became(before: Doc, after: Doc) {
    after == before || after == before.(delivered := true)
  }

  /** The collection was only marked: same keys, same messages. */
  ghost predicate OnlyMarked(before: map<Key, Doc>, after: map<Key, Doc>) {
    before.Keys == after.Keys && forall k :: k in before ==> Became(before[k], after[k])
  }

  lemma DocsMarkedUnlessSaved(cfg: Config, s: State, e: Event)
    requires Possible(cfg, s, e) && !e.SaveDone?
    ensures OnlyMarked(s.docs, DocsAfter(cfg, s, e))
  {
  }

  lemma StepStoreSound(cfg: Config, s: State, e: Event)
    requires Possible(cfg, s, e) && StoreSound(s)
    ensures StoreSound(Step(cfg, s, e))
  {
    if e.SaveDone? {
      SaveStoreSound(cfg, s, e);
    } else {
      DocsMarkedUnlessSaved(cfg, s, e);
      MarkedSound(s.docs, DocsAfter(cfg, s, e), s.pending, PendingAfter(cfg, s, e), s.failed, s.nextMsg, NextMsgAfter(s, e));
    }
  }

  lemma MarkedSound(docs: map<Key, Doc>, docs': map<Key, Doc>, pending: map<MsgId, Save>, pending': map<MsgId, Save>,
                    failed: set<MsgId>, next: MsgId, next': MsgId)
    requires Sound(docs, pending, failed, next) && OnlyMarked(docs, docs') && next <= next'
    requires pending' == pending || (next < next' && next in pending' && pending'[next].doc.msg == next
                                     && pending' == pending[next := pending'[next]])
    ensures Sound(docs', pending', failed, next')
  {
  }

  lemma SaveStoreSound(cfg: Config, s: State, e: Event)
    requires Possible(cfg, s, e) && StoreSound(s) && e.SaveDone?
    ensures StoreSound(Step(cfg, s, e))
  {
  }

  /** The document as it was handed to the save goroutine, for every message of the run. */
  ghost function Sent(cfg: Config, roles: map<UserId, Role>, evs: seq<Event>): map<MsgId, Doc>
    requires ValidRun(cfg, roles, evs)
  {
    if evs == [] then map[]
    else
      var n := |evs| - 1;
      var s := After(cfg, roles, evs[..n]);
      if SendsMessage(s, evs[n]) && cfg.mongo then
        Sent(cfg, roles, evs[..n])[s.nextMsg := NewDoc(s, evs[n])]
      else Sent(cfg, roles, evs[..n])
  }

  ghost predicate Stored(docs: map<Key, Doc>, m: MsgId) {
    exists k :: k in docs && docs[k].msg == m
  }

  /** What the store says about the messages that were sent. */
  ghost predicate Accounted(docs: map<Key, Doc>, pending: map<MsgId, Save>, failed: set<MsgId>, sent: map<MsgId, Doc>) {
    && (forall m :: m in sent ==> m in pending || m in failed || Stored(docs, m))
    && (forall m :: m in pending ==> m in sent && pending[m].doc == sent[m])
    && (forall m :: m in failed ==> m in sent)
    && (forall k :: k in docs ==> docs[k].msg in sent && Became(sent[docs[k].msg], docs[k]))
  }

  ghost predicate StoreAccounted(s: State, sent: map<MsgId, Doc>) {
    Accounted(s.docs, s.pending, s.failed, sent)
  }

  /** Documents stay, keep their content, and never go back to undelivered. */
  lemma DocsOnlyAdvance(cfg: Config, s: State, e: Event, k: Key)
    requires Possible(cfg, s, e) && k in s.docs
    ensures k in DocsAfter(cfg, s, e) && Became(s.docs[k], DocsAfter(cfg, s, e)[k])
  {
  }

  lemma MarkedAccounted(docs: map<Key, Doc>, docs': map<Key, Doc>, pending: map<MsgId, Save>, failed: set<MsgId>,
                        sent: map<MsgId, Doc>)
    requires Accounted(docs, pending, failed, sent) && OnlyMarked(docs, docs')
    ensures Accounted(docs', pending, failed, sent)
  {
    forall m | m in sent && Stored(docs, m)
      ensures Stored(docs', m)
    {
      var k :| k in docs && docs[k].msg == m;
      assert k in docs' && docs'[k].msg == m;
    }
  }

  lemma PersistAccounted(docs: map<Key, Doc>, pending: map<MsgId, Save>, failed: set<MsgId>, sent: map<MsgId, Doc>,
                         next: MsgId, save: Save)
    requires Sound(docs, pending, failed, next) && Accounted(docs, pending, failed, sent)
    ensures Accounted(docs, pending[next := save], failed, sent[next := save.doc])
  {
  }

  lemma SaveAccounted(cfg: Config, s: State, e: Event, sent: map<MsgId, Doc>)
    requires Possible(cfg, s, e) && StoreSound(s) && StoreAccounted(s, sent) && e.SaveDone?
    ensures Accounted(DocsAfter(cfg, s, e), PendingAfter(cfg, s, e), FailedAfter(cfg, s, e), sent)
  {
    var save, docs := s.pending[e.msg], DocsAfter(cfg, s, e);
    forall m | m in sent && m !in PendingAfter(cfg, s, e) && m !in FailedAfter(cfg, s, e)
      ensures Stored(docs, m)
    {
      if m == e.msg {
        assert save.key in docs && docs[save.key].msg == m;
      } else {
        var k :| k in s.docs && s.docs[k].msg == m;
        assert k in docs && docs[k].msg == m;
      }
    }
  }

  lemma StepAccounted(cfg: Config, s: State, e: Event, sent: map<MsgId, Doc>)
    requires Possible(cfg, s, e) && StoreSound(s) && StoreAccounted(s, sent)
    ensures StoreAccounted(Step(cfg, s, e),
                           if SendsMessage(s, e) && cfg.mongo then sent[s.nextMsg := NewDoc(s, e)] else sent)
  {
    if e.SaveDone? {
      SaveAccounted(cfg, s, e, sent);
    } else if SendsMessage(s, e) && cfg.mongo {
      PersistAccounted(s.docs, s.pending, s.failed, sent, s.nextMsg, Save(e.key, NewDoc(s, e)));
    } else {
      DocsMarkedUnlessSaved(cfg, s, e);
      MarkedAccounted(s.docs, DocsAfter(cfg, s, e), s.pending, s.failed, sent);
    }
  }

  lemma {:induction false} RunAccounted(cfg: Config, roles: map<UserId, Role>, evs: seq<Event>)
    requires ValidRun(cfg, roles, evs)
    ensures StoreSound(After(cfg, roles, evs)) && StoreAccounted(After(cfg, roles, evs), Sent(cfg, roles, evs))
  {
    if evs != [] {
      var n := |evs| - 1;
      var s := After(cfg, roles, evs[..n]);
      RunAccounted(cfg, roles, evs[..n]);
      StepStoreSound(cfg, s, evs[n]);
      StepAccounted(cfg, s, evs[n], Sent(cfg, roles, evs[..n]));
    }
  }

  predicate ExactlyOne(a: bool, b: bool, c: bool, d: bool) {
    (a || b || c || d) && !(a && b) && !(a && c) && !(a && d) && !(b && c) && !(b && d) && !(c && d)
  }

  ghost predicate StoredAs(s: State, m: MsgId, delivered: bool) {
    exists k :: k in s.docs && s.docs[k].msg == m && s.docs[k].delivered == delivered
  }

  /** Main result: a message handed to the store is at all later times in exactly one of four places. */
  lemma OfflineConservation(cfg: Config, roles: map<UserId, Role>, evs: seq<Event>, m: MsgId)
    requires ValidRun(cfg, roles, evs) && m in Sent(cfg, roles, evs)
    ensures var s := After(cfg, roles, evs);
            ExactlyOne(m in s.pending, m in s.failed, StoredAs(s, m, false), StoredAs(s, m, true))
  {
    var s := After(cfg, roles, evs);
    RunAccounted(cfg, roles, evs);
    if Stored(s.docs, m) {
      var k :| k in s.docs && s.docs[k].msg == m;
      assert StoredAs(s, m, s.docs[k].delivered);
      forall l | l in s.docs && s.docs[l].msg == m
        ensures l == k
      {
      }
    }
  }

  /** Main result: a successful pull of at most 200 waiting messages offers every one of them to the login's connection. */
  lemma LoginOffersWaiting(cfg: Config, s: State, e: Event, k: Key)
    requires Possible(cfg, s, e) && cfg.mongo && e.Auth? && DecisionOn(cfg, s, e).LoggedIn? && e.pull.Pulled?
    requires var user := DecisionOn(cfg, s, e).user;
             k in Undelivered(s.docs, user) && |Undelivered(s.docs, user)| <= 200
    ensures PrivateMessage(s.docs[k].msg, s.docs[k].from, s.docs[k].src, DecisionOn(cfg, s, e).user) in NewFrames(cfg, s, e, e.c)
  {
    var user := DecisionOn(cfg, s, e).user;
    SmallPullTakesAll(s.docs, user, e.pull.cursor);
    assert k in (set x | x in e.pull.cursor);
    var i :| 0 <= i < |e.pull.cursor| && e.pull.cursor[i] == k;
    assert Pushed(cfg, s.docs, user, e.pull)[i] == NewFrames(cfg, s, e, e.c)[i];
  }

  /**
    Main result: a document turns delivered only in a successful login of its recipient, and then it
    was returned and offered to that connection, or more than 200 were waiting, or the update failed half way.
   */
  lemma DeliveredOnlyByPull(cfg: Config, s: State, e: Event, k: Key)
    requires Possible(cfg, s, e) && WellFormed(s) && k in s.docs
    requires !s.docs[k].delivered && DocsAfter(cfg, s, e)[k].delivered
    ensures e.Auth? && cfg.mongo && DecisionOn(cfg, s, e).LoggedIn? && s.docs[k].to == Some(DecisionOn(cfg, s, e).user)
    ensures match e.pull
            case FindFailed => false
            case MarkFailed(_, marked) => k in marked
            case Pulled(cursor) =>
              || |Undelivered(s.docs, DecisionOn(cfg, s, e).user)| > 200
              || PrivateMessage(s.docs[k].msg, s.docs[k].from, s.docs[k].src, DecisionOn(cfg, s, e).user)
                 in NewFrames(cfg, s, e, e.c)
  {
    if e.pull.Pulled? && |Undelivered(s.docs, DecisionOn(cfg, s, e).user)| <= 200 {
      LoginOffersWaiting(cfg, s, e, k);
    }
  }

  // ---- at most once -----------------------------------------------------------------------

  /** Offer number `i` of connection `c` carried private message `m`. */
  predicate Carries(s: State, c: ConnId, i: nat, m: MsgId) {
    i < |OfferedTo(s, c)| && IsPrivate(OfferedTo(s, c)[i], m)
  }

  predicate IsPrivate(f: Frame, m: MsgId) {
    f.PrivateMessage? && f.msg == m
  }

  /** The message is still to be pulled: it is pending or stored, and not marked delivered. */
  ghost predicate Awaiting(docs: map<Key, Doc>, pending: map<MsgId, Save>, m: MsgId) {
    || (m in pending && !pending[m].doc.delivered)
    || (exists k :: k in docs && docs[k].msg == m && !docs[k].delivered)
  }

  ghost predicate OfferedOnce(s: State) {
    forall m: MsgId, c: ConnId, i: nat, d: ConnId, j: nat :: Carries(s, c, i, m) && Carries(s, d, j, m) ==> c == d && i == j
  }

  ghost predicate OfferedIsSettled(s: State) {
    forall m: MsgId, c: ConnId, i: nat :: Carries(s, c, i, m) ==> m < s.nextMsg && !Awaiting(s.docs, s.pending, m)
  }

  /** Where a private message offered by this very step comes from: the live path or the pull. */
  ghost predicate Fresh(cfg: Config, s: State, e: Event, c: ConnId, i: nat, m: MsgId)
    requires Possible(cfg, s, e)
  {
    || (e.Private? && m == s.nextMsg && e.to in s.online && c == s.online[e.to].conn && i == 0 && SendsMessage(s, e))
    || (e.Auth? && c == e.c && cfg.mongo && DecisionOn(cfg, s, e).LoggedIn? && e.pull.Pulled? && i < |e.pull.cursor|
        && s.docs[e.pull.cursor[i]].msg == m)
  }

  lemma NewIsFresh(cfg: Config, s: State, e: Event, c: ConnId, i: nat, m: MsgId)
    requires Possible(cfg, s, e)
    requires i < |NewFrames(cfg, s, e, c)| && IsPrivate(NewFrames(cfg, s, e, c)[i], m)
    ensures Fresh(cfg, s, e, c, i, m)
  {
  }

  lemma SamePlace<T>(xs: seq<T>, i: nat, j: nat)
    requires forall k, l :: 0 <= k < l < |xs| ==> xs[k] != xs[l]
    requires i < |xs| && j < |xs| && xs[i] == xs[j]
    ensures i == j
  {
  }

  lemma FreshUnique(cfg: Config, s: State, e: Event, c: ConnId, i: nat, d: ConnId, j: nat, m: MsgId)
    requires Possible(cfg, s, e) && StoreSound(s)
    requires Fresh(cfg, s, e, c, i, m) && Fresh(cfg, s, e, d, j, m)
    ensures c == d && i == j
  {
    if e.Auth? {
      var cursor := e.pull.cursor;
      assert cursor[i] == cursor[j];
      SamePlace(cursor, i, j);
    }
  }

  /** A fresh message was not offered before: it is brand new, or was still awaiting its pull. */
  lemma FreshWasAwaiting(cfg: Config, s: State, e: Event, c: ConnId, i: nat, m: MsgId)
    requires Possible(cfg, s, e) && Fresh(cfg, s, e, c, i, m)
    ensures m == s.nextMsg || Awaiting(s.docs, s.pending, m)
  {
    if e.Auth? {
      assert e.pull.cursor[i] in Undelivered(s.docs, DecisionOn(cfg, s, e).user);
    }
  }

  /** Once offered, it awaits nothing any more: the live path saves it as delivered, the pull marks it. */
  lemma FreshIsSettled(cfg: Config, s: State, e: Event, c: ConnId, i: nat, m: MsgId)
    requires Possible(cfg, s, e) && StoreSound(s) && Fresh(cfg, s, e, c, i, m)
    ensures m < NextMsgAfter(s, e) && !Awaiting(DocsAfter(cfg, s, e), PendingAfter(cfg, s, e), m)
  {
    if e.Auth? {
      var k := e.pull.cursor[i];
      assert k in Undelivered(s.docs, DecisionOn(cfg, s, e).user);
      assert DocsAfter(cfg, s, e)[k].delivered;
    }
  }

  /** Nothing starts awaiting a pull except a new message to an absent user. */
  lemma AwaitingIsOld(cfg: Config, s: State, e: Event, m: MsgId)
    requires Possible(cfg, s, e) && StoreSound(s) && m < s.nextMsg
    requires Awaiting(DocsAfter(cfg, s, e), PendingAfter(cfg, s, e), m)
    ensures Awaiting(s.docs, s.pending, m)
  {
    var docs: map<Key, Doc> := DocsAfter(cfg, s, e);
    if k :| k in docs && docs[k].msg == m && !docs[k].delivered {
      if k in s.docs {
        DocsOnlyAdvance(cfg, s, e, k);
        assert s.docs[k].msg == m && !s.docs[k].delivered;
      }
    }
  }

  /** The record of a connection's offers grows by the step's new frames. */
  lemma RecordGrows(cfg: Config, s: State, e: Event, c: ConnId)
    requires Possible(cfg, s, e) && WellFormed(s)
    ensures OfferedTo(Step(cfg, s, e), c) == OfferedTo(s, c) + if c in s.chans then NewFrames(cfg, s, e, c) else []
  {
    ChansStayKeyed(cfg, s, e);
    if c in s.chans {
      StepOffers(cfg, s, e, c);
    } else if c in ChansAfter(cfg, s, e) {
      assert ChansAfter(cfg, s, e)[c] == Open();
    }
  }

  /** An offer recorded after the step was recorded before it, or is one of the step's new frames. */
  lemma CarriedBeforeOrFresh(cfg: Config, s: State, e: Event, c: ConnId, i: nat, m: MsgId) returns (k: nat)
    requires Possible(cfg, s, e) && WellFormed(s) && Carries(Step(cfg, s, e), c, i, m)
    ensures Carries(s, c, i, m) || (Fresh(cfg, s, e, c, k, m) && i == |OfferedTo(s, c)| + k)
  {
    RecordGrows(cfg, s, e, c);
    k := InSecond(OfferedTo(s, c), if c in s.chans then NewFrames(cfg, s, e, c) else [], i);
    if i >= |OfferedTo(s, c)| {
      NewIsFresh(cfg, s, e, c, k, m);
    }
  }

  lemma InSecond<T>(xs: seq<T>, ys: seq<T>, i: nat) returns (k: nat)
    requires i < |xs + ys|
    ensures i < |xs| ==> (xs + ys)[i] == xs[i]
    ensures i >= |xs| ==> i == |xs| + k && k < |ys| && (xs + ys)[i] == ys[k]
  {
    k := if i < |xs| then 0 else i - |xs|;
  }

  lemma StepOfferedOnce(cfg: Config, s: State, e: Event)
    requires Possible(cfg, s, e) && WellFormed(s) && StoreSound(s) && OfferedOnce(s) && OfferedIsSettled(s)
    ensures OfferedOnce(Step(cfg, s, e))
  {
    var s' := Step(cfg, s, e);
    forall m: MsgId, c: ConnId, i: nat, d: ConnId, j: nat | Carries(s', c, i, m) && Carries(s', d, j, m)
      ensures c == d && i == j
    {
      OncePair(cfg, s, e, m, c, i, d, j);
    }
  }

  lemma StepOfferedIsSettled(cfg: Config, s: State, e: Event)
    requires Possible(cfg, s, e) && WellFormed(s) && StoreSound(s) && OfferedIsSettled(s)
    ensures OfferedIsSettled(Step(cfg, s, e))
  {
    var s' := Step(cfg, s, e);
    forall m: MsgId, c: ConnId, i: nat | Carries(s', c, i, m)
      ensures m < s'.nextMsg && !Awaiting(s'.docs, s'.pending, m)
    {
      CarriedIsSettled(cfg, s, e, m, c, i);
    }
  }

  lemma CarriedIsSettled(cfg: Config, s: State, e: Event, m: MsgId, c: ConnId, i: nat)
    requires Possible(cfg, s, e) && WellFormed(s) && StoreSound(s) && OfferedIsSettled(s)
    requires Carries(Step(cfg, s, e), c, i, m)
    ensures m < NextMsgAfter(s, e) && !Awaiting(DocsAfter(cfg, s, e), PendingAfter(cfg, s, e), m)
  {
    var k := CarriedBeforeOrFresh(cfg, s, e, c, i, m);
    if !Carries(s, c, i, m) {
      FreshIsSettled(cfg, s, e, c, k, m);
    } else if Awaiting(DocsAfter(cfg, s, e), PendingAfter(cfg, s, e), m) {
      AwaitingIsOld(cfg, s, e, m);
    }
  }

  lemma OncePair(cfg: Config, s: State, e: Event, m: MsgId, c: ConnId, i: nat, d: ConnId, j: nat)
    requires Possible(cfg, s, e) && WellFormed(s) && StoreSound(s) && OfferedOnce(s) && OfferedIsSettled(s)
    requires Carries(Step(cfg, s, e), c, i, m) && Carries(Step(cfg, s, e), d, j, m)
    ensures c == d && i == j
  {
    var a := CarriedBeforeOrFresh(cfg, s, e, c, i, m);
    var b := CarriedBeforeOrFresh(cfg, s, e, d, j, m);
    if Carries(s, c, i, m) {
      if !Carries(s, d, j, m) {
        FreshWasAwaiting(cfg, s, e, d, b, m);
      }
    } else if Carries(s, d, j, m) {
      FreshWasAwaiting(cfg, s, e, c, a, m);
    } else {
      FreshUnique(cfg, s, e, c, a, d, b, m);
    }
  }

  /**
    Main result: over every run each private message is offered to at most one channel, at most
    once, counting the live path and the offline pull together; and what was offered is never
    pulled again.
   */
  lemma {:induction false} AtMostOnceDelivery(cfg: Config, roles: map<UserId, Role>, evs: seq<Event>)
    requires ValidRun(cfg, roles, evs)
    ensures OfferedOnce(After(cfg, roles, evs)) && OfferedIsSettled(After(cfg, roles, evs))
  {
    if evs != [] {
      var n := |evs| - 1;
      AtMostOnceDelivery(cfg, roles, evs[..n]);
      RunWellFormed(cfg, roles, evs[..n]);
      RunAccounted(cfg, roles, evs[..n]);
      StepOfferedOnce(cfg, After(cfg, roles, evs[..n]), evs[n]);
      StepOfferedIsSettled(cfg, After(cfg, roles, evs[..n]), evs[n]);
    }
  }

  // ---- the offline push -------------------------------------------------------------------

  /** What a login offers to its own connection: the pulled messages, then the reply. */
  function LoginFrames(cfg: Config, s: State, e: Event): seq<Frame>
    requires Possible(cfg, s, e) && e.Auth? && DecisionOn(cfg, s, e).LoggedIn?
  {
    var user := DecisionOn(cfg, s, e).user;
    Pushed(cfg, s.docs, user, e.pull) + [Reply(Authed(user))]
  }

  lemma LoginOffers(cfg: Config, s: State, e: Event)
    requires Possible(cfg, s, e) && e.Auth? && DecisionOn(cfg, s, e).LoggedIn? && e.c in s.chans
    ensures e.c in ChansAfter(cfg, s, e) && ChansAfter(cfg, s, e)[e.c] == OfferAll(s.chans[e.c], LoginFrames(cfg, s, e))
  {
    var user := DecisionOn(cfg, s, e).user;
    OfferAllThen(s.chans[e.c], Pushed(cfg, s.docs, user, e.pull), Reply(Authed(user)));
  }

  /**
    Main result: a login whose channel has room for the pulled messages and the reply, and only
    such a login, queues all of them in pull order and then `authed`; 201 free slots always do.
   */
  lemma PushFitsIff(cfg: Config, s: State, e: Event)
    requires Possible(cfg, s, e) && WellFormed(s) && e.Auth? && DecisionOn(cfg, s, e).LoggedIn?
    requires Conserved(s.chans[e.c])
    ensures var user := DecisionOn(cfg, s, e).user;
            var all := LoginFrames(cfg, s, e);
            && (ChansAfter(cfg, s, e)[e.c].queue == s.chans[e.c].queue + all
                <==> |s.chans[e.c].queue| + |all| <= 256)
            && |all| <= 201
            && (cfg.mongo && e.pull.Pulled? ==> Undelivered(DocsAfter(cfg, s, e), user) == {})
  {
    LoginOffers(cfg, s, e);
    FitsIff(s.chans[e.c], LoginFrames(cfg, s, e));
    if cfg.mongo && e.pull.Pulled? {
      SmallPullTakesAll(s.docs, DecisionOn(cfg, s, e).user, e.pull.cursor);
    }
  }

  predicate FrameOn(e: Event, c: ConnId) {
    (e.Auth? || e.Join? || e.Leave? || e.Send? || e.Private? || e.OtherFrame? || e.Disconnect?) && e.c == c
  }

  /** The connection is open and its read loop has handled no frame yet. */
  ghost predicate NoFrameYet(cfg: Config, roles: map<UserId, Role>, evs: seq<Event>, c: ConnId)
    requires ValidRun(cfg, roles, evs)
  {
    evs != [] &&
    var n := |evs| - 1;
    if evs[n] == Connect(c) then true
    else !FrameOn(evs[n], c) && NoFrameYet(cfg, roles, evs[..n], c)
  }

  ghost predicate Pristine(s: State, c: ConnId) {
    && c in s.sessions && c in s.chans
    && s.sessions[c].me == None && s.chans[c] == Open() && !Reachable(s, c)
  }

  /** Nothing but its own frames can put anything into the channel of a new connection. */
  lemma StepPristine(cfg: Config, s: State, e: Event, c: ConnId)
    requires Possible(cfg, s, e) && WellFormed(s) && Pristine(s, c) && !FrameOn(e, c)
    ensures Pristine(Step(cfg, s, e), c)
  {
    StepUnreachable(cfg, s, e, c);
    PristineChannel(cfg, s, e, c);
    assert c in SessionsAfter(cfg, s, e) && SessionsAfter(cfg, s, e)[c].me == None;
  }

  lemma PristineChannel(cfg: Config, s: State, e: Event, c: ConnId)
    requires Possible(cfg, s, e) && Pristine(s, c) && !FrameOn(e, c)
    ensures c in ChansAfter(cfg, s, e) && ChansAfter(cfg, s, e)[c] == Open()
  {
    if e.Send? && s.sessions[e.c].me.Some? {
      var members := MembersOf(s.rooms, e.room);
      assert (set u | u in members.Keys && u in members && members[u].conn == c) == {};
    }
  }

  lemma {:induction false} FirstFrameFindsEmptyChannel(cfg: Config, roles: map<UserId, Role>, evs: seq<Event>, c: ConnId)
    requires ValidRun(cfg, roles, evs) && NoFrameYet(cfg, roles, evs, c)
    ensures Pristine(After(cfg, roles, evs), c)
  {
    var n := |evs| - 1;
    var s := After(cfg, roles, evs[..n]);
    RunWellFormed(cfg, roles, evs[..n]);
    if evs[n] == Connect(c) {
      StepWellFormed(cfg, s, evs[n]);
      assert !Reachable(s, c);
    } else {
      FirstFrameFindsEmptyChannel(cfg, roles, evs[..n], c);
      StepPristine(cfg, s, evs[n], c);
    }
  }

  /** A login on an empty channel queues its whole push and the reply, in order, and drops nothing. */
  lemma EmptyChannelTakesPush(cfg: Config, s: State, e: Event)
    requires Possible(cfg, s, e) && e.Auth? && DecisionOn(cfg, s, e).LoggedIn?
    requires e.c in s.chans && s.chans[e.c] == Open()
    ensures e.c in ChansAfter(cfg, s, e)
    ensures ChansAfter(cfg, s, e)[e.c].queue == LoginFrames(cfg, s, e)
    ensures Dropped(ChansAfter(cfg, s, e)[e.c].offers) == []
  {
    LoginOffers(cfg, s, e);
    FillsEmpty(LoginFrames(cfg, s, e));
  }

  lemma FillsEmpty(fs: seq<Frame>)
    requires |fs| <= CAPACITY
    ensures OfferAll(Open(), fs).queue == fs && Dropped(OfferAll(Open(), fs).offers) == []
  {
    FitsIff(Open(), fs);
    NothingDropped(Open(), fs);
    assert [] + fs == fs;
  }

  /** Main result: so does every login that is its connection's first frame, whatever the rest of the run does. */
  lemma FirstLoginPushesEverything(cfg: Config, roles: map<UserId, Role>, evs: seq<Event>, e: Event)
    requires ValidRun(cfg, roles, evs) && e.Auth? && NoFrameYet(cfg, roles, evs, e.c)
    requires Possible(cfg, After(cfg, roles, evs), e) && DecisionOn(cfg, After(cfg, roles, evs), e).LoggedIn?
    ensures var s := After(cfg, roles, evs);
            && e.c in ChansAfter(cfg, s, e)
            && ChansAfter(cfg, s, e)[e.c].queue == LoginFrames(cfg, s, e)
            && Dropped(ChansAfter(cfg, s, e)[e.c].offers) == []
  {
    FirstFrameFindsEmptyChannel(cfg, roles, evs, e.c);
    EmptyChannelTakesPush(cfg, After(cfg, roles, evs), e);
  }
}
