/**
  Private messages that meet a full channel. Both ways of sending drop the frame and count the
  message as delivered all the same, the live one by saving it so, the pull by having marked it. This
  module says exactly when that loses a message for good.
 */
module LostMessages {
  import opened Basics
  import opened Channels
  import opened GatewayModel
  import opened Delivery

  /** Among the offers that this step adds to connection `c`, number `i` is private message `m`. */
  ghost predicate OffersPrivate(cfg: Config, s: State, e: Event, c: ConnId, i: nat, m: MsgId)
    requires Possible(cfg, s, e)
  {
    c in s.chans && i < |NewFrames(cfg, s, e, c)| && IsPrivate(NewFrames(cfg, s, e, c)[i], m)
  }

  /** Entry number `at` in the record of offers to `c` is private message `m`, accepted or dropped. */
  predicate Recorded(s: State, c: ConnId, at: nat, m: MsgId, accepted: bool) {
    c in s.chans && at < |s.chans[c].offers| && IsPrivate(s.chans[c].offers[at].frame, m) && s.chans[c].offers[at].accepted == accepted
  }

  /** A private message offered to the connection that authenticates comes from a successful login's push. */
  lemma LoginPushes(cfg: Config, s: State, e: Event, i: nat, m: MsgId)
    requires Possible(cfg, s, e) && e.Auth? && OffersPrivate(cfg, s, e, e.c, i, m)
    ensures DecisionOn(cfg, s, e).LoggedIn? && i < |LoginFrames(cfg, s, e)| && IsPrivate(LoginFrames(cfg, s, e)[i], m)
  {
    NewIsFresh(cfg, s, e, e.c, i, m);
    assert NewFrames(cfg, s, e, e.c) == LoginFrames(cfg, s, e);
  }

  lemma PushRecords(ch: Chan<Frame>, fs: seq<Frame>, i: nat, m: MsgId)
    requires Conserved(ch) && i < |fs| && IsPrivate(fs[i], m)
    ensures var offers, at := OfferAll(ch, fs).offers, |ch.offers| + i;
            at < |offers| && IsPrivate(offers[at].frame, m) && offers[at].accepted == (|ch.queue| + i < 256)
  {
    AcceptedUntilFull(ch, fs);
  }

  lemma LoginRecords(cfg: Config, s: State, e: Event, i: nat, m: MsgId)
    requires Possible(cfg, s, e) && AllConserved(s.chans) && e.Auth? && OffersPrivate(cfg, s, e, e.c, i, m)
    ensures Recorded(Step(cfg, s, e), e.c, |s.chans[e.c].offers| + i, m, |s.chans[e.c].queue| + i < 256)
  {
    LoginPushes(cfg, s, e, i, m);
    LoginOffers(cfg, s, e);
    PushRecords(s.chans[e.c], LoginFrames(cfg, s, e), i, m);
  }

  lemma LiveRecords(cfg: Config, s: State, e: Event, c: ConnId, i: nat, m: MsgId)
    requires Possible(cfg, s, e) && e.Private? && OffersPrivate(cfg, s, e, c, i, m)
    ensures Recorded(Step(cfg, s, e), c, |s.chans[c].offers| + i, m, |s.chans[c].queue| + i < 256)
  {
  }

  lemma LoginOrLive(cfg: Config, s: State, e: Event, c: ConnId, i: nat, m: MsgId)
    requires Possible(cfg, s, e) && OffersPrivate(cfg, s, e, c, i, m)
    ensures e.Private? || (e.Auth? && c == e.c)
  {
    NewIsFresh(cfg, s, e, c, i, m);
  }

  /**
    Main result: a private message that a step offers, live or pulled, is recorded as accepted
    exactly when fewer than 256 frames were ahead of it in the channel, and else as dropped.
   */
  lemma StepRecords(cfg: Config, s: State, e: Event, c: ConnId, i: nat, m: MsgId)
    requires Possible(cfg, s, e) && AllConserved(s.chans) && OffersPrivate(cfg, s, e, c, i, m)
    ensures Recorded(Step(cfg, s, e), c, |s.chans[c].offers| + i, m, |s.chans[c].queue| + i < 256)
  {
    LoginOrLive(cfg, s, e, c, i, m);
    if e.Auth? {
      LoginRecords(cfg, s, e, i, m);
    } else {
      LiveRecords(cfg, s, e, c, i, m);
    }
  }

  lemma StepKeepsRecord(cfg: Config, s: State, e: Event, c: ConnId)
    requires Possible(cfg, s, e) && AllConserved(s.chans) && c in s.chans
    ensures c in ChansAfter(cfg, s, e) && s.chans[c].offers <= ChansAfter(cfg, s, e)[c].offers
  {
    match e
    case Auth(from, _, _, _, pull) =>
      var d := DecisionOn(cfg, s, e);
      if c == from && d.LoggedIn? {
        AcceptedUntilFull(s.chans[c], Pushed(cfg, s.docs, d.user, pull));
      }
    case Send(from, room, _) =>
      if s.sessions[from].me.Some? {
        var members := MembersOf(s.rooms, room);
        OfferTimesExtends(s.chans[c], RoomMessage(s.nextMsg, s.sessions[from].me.value.user, from, room),
                          CopiesFor(members, members.Keys, c));
      }
    case _ =>
  }

  /** Some channel holds or has delivered private message `m`. */
  ghost predicate Arrived(s: State, m: MsgId) {
    exists c, x :: c in s.chans && 0 <= x < |History(s.chans[c])| && IsPrivate(History(s.chans[c])[x], m)
  }

  /** What arrived was accepted at some offer, and what was accepted has arrived. */
  lemma ArrivedIff(s: State, m: MsgId)
    requires AllConserved(s.chans)
    ensures Arrived(s, m) <==> exists c, at :: Recorded(s, c, at, m, true)
  {
    if c, x :| c in s.chans && 0 <= x < |History(s.chans[c])| && IsPrivate(History(s.chans[c])[x], m) {
      Conservation(s.chans[c]);
      var at := AcceptedAt(s.chans[c].offers)[x];
      assert Recorded(s, c, at, m, true);
    }
    if c, at :| Recorded(s, c, at, m, true) {
      Conservation(s.chans[c]);
      var x :| 0 <= x < |AcceptedAt(s.chans[c].offers)| && AcceptedAt(s.chans[c].offers)[x] == at;
      assert IsPrivate(History(s.chans[c])[x], m);
    }
  }

  /** A message has one record at most. */
  lemma OneRecord(s: State, m: MsgId, c: ConnId, at: nat, x: bool, d: ConnId, at': nat, y: bool)
    requires OfferedOnce(s) && Recorded(s, c, at, m, x) && Recorded(s, d, at', m, y)
    ensures x == y
  {
    assert Carries(s, c, at, m) && Carries(s, d, at', m);
  }

  /** The one record of a message tells whether it has arrived. */
  lemma RecordDecides(s: State, m: MsgId, c: ConnId, at: nat, fits: bool)
    requires AllConserved(s.chans) && OfferedOnce(s) && OfferedIsSettled(s) && Recorded(s, c, at, m, fits)
    ensures (Arrived(s, m) <==> fits) && !Awaiting(s.docs, s.pending, m)
  {
    ArrivedIff(s, m);
    assert Carries(s, c, at, m);
    if d, at' :| Recorded(s, d, at', m, true) {
      OneRecord(s, m, c, at, fits, d, at', true);
    }
  }

  /** What was recorded stays recorded. */
  lemma LaterRecorded(cfg: Config, roles: map<UserId, Role>, evs: seq<Event>, c: ConnId, at: nat, m: MsgId, accepted: bool)
    requires ValidRun(cfg, roles, evs) && evs != [] && Recorded(After(cfg, roles, evs[..|evs| - 1]), c, at, m, accepted)
    ensures Recorded(After(cfg, roles, evs), c, at, m, accepted)
  {
    var n := |evs| - 1;
    RunConserved(cfg, roles, evs[..n]);
    StepKeepsRecord(cfg, After(cfg, roles, evs[..n]), evs[n], c);
  }

  lemma RunConserved(cfg: Config, roles: map<UserId, Role>, evs: seq<Event>)
    requires ValidRun(cfg, roles, evs)
    ensures AllConserved(After(cfg, roles, evs).chans)
  {
    ChannelConservation(cfg, roles, evs);
  }

  lemma {:induction false} RunKeepsRecord(cfg: Config, roles: map<UserId, Role>, evs: seq<Event>, n: nat,
                                          c: ConnId, at: nat, m: MsgId, accepted: bool)
    requires ValidRun(cfg, roles, evs) && n <= |evs| && ValidRun(cfg, roles, evs[..n])
    requires Recorded(After(cfg, roles, evs[..n]), c, at, m, accepted)
    ensures Recorded(After(cfg, roles, evs), c, at, m, accepted)
    decreases |evs|
  {
    if n < |evs| {
      var k := |evs| - 1;
      assert evs[..k][..n] == evs[..n];
      RunKeepsRecord(cfg, roles, evs[..k], n, c, at, m, accepted);
      LaterRecorded(cfg, roles, evs, c, at, m, accepted);
    } else {
      assert evs[..n] == evs;
    }
  }

  /**
    Main result: a private message on record, as accepted or as dropped, has arrived at every later
    moment exactly when it was accepted. A dropped one is lost for good: no channel ever has it, and
    no login finds it waiting.
   */
  lemma ArrivesIff(cfg: Config, roles: map<UserId, Role>, evs: seq<Event>, n: nat, c: ConnId, at: nat, m: MsgId, accepted: bool)
    requires ValidRun(cfg, roles, evs) && n <= |evs| && ValidRun(cfg, roles, evs[..n])
    requires Recorded(After(cfg, roles, evs[..n]), c, at, m, accepted)
    ensures Arrived(After(cfg, roles, evs), m) <==> accepted
    ensures !Awaiting(After(cfg, roles, evs).docs, After(cfg, roles, evs).pending, m)
  {
    RunKeepsRecord(cfg, roles, evs, n, c, at, m, accepted);
    AtMostOnceDelivery(cfg, roles, evs);
    RunConserved(cfg, roles, evs);
    RecordDecides(After(cfg, roles, evs), m, c, at, accepted);
  }
}
