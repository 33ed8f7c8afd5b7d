/**
  Message order at lock granularity. Several broadcasts and private sends run at once, yet the
  live messages of one connection reach every channel in the order they were sent.
 */
module Fifo {
  import opened Basics
  import opened Channels
  import opened LockStep
  import opened LockDiscipline
  import opened Progress
  import opened Cleanup

  predicate IsLive(f: Frame, src: ConnId) {
    f.Live? && f.src == src
  }

  /** Messages of one sender appear in the order of their numbers; `strict` also rules out copies. */
  ghost predicate Ordered(fs: seq<Frame>, strict: bool) {
    forall i, j :: 0 <= i < j < |fs| && fs[i].Live? && fs[j].Live? && fs[i].src == fs[j].src ==>
      if strict then fs[i].n < fs[j].n else fs[i].n <= fs[j].n
  }

  /** Nothing arrives that its sender has not sent yet. */
  ghost predicate Numbered(threads: map<ConnId, Thread>, fs: seq<Frame>) {
    forall i :: 0 <= i < |fs| && fs[i].Live? ==> fs[i].src in threads && fs[i].n <= threads[fs[i].src].sent
  }

  function OfferedTo(s: State, d: ConnId): seq<Frame> {
    if d in s.chans then Frames(s.chans[d].offers) else []
  }

  /** The message thread `t` is sending may still be offered to `d`. */
  ghost predicate MayOffer(s: State, t: ConnId, d: ConnId)
    requires t in s.threads
  {
    var th := s.threads[t];
    match th.task
    case Look(_, why, _) => why.ToSend?
    case Make(_, why, _) => why.ToSend?
    case Cast(o, visited) =>
      th.phase == Ask ||
      (th.phase == In && exists u :: u in ClientsOf(s, o) && u !in visited && ClientsOf(s, o)[u] == d)
    case Find(_, _) => true
    case Deliver(d') => d' == d
    case _ => false
  }

  /** The message thread `t` is sending has not been offered to `d`. */
  ghost predicate NotYet(s: State, t: ConnId, d: ConnId)
    requires t in s.threads
  {
    forall i :: 0 <= i < |OfferedTo(s, d)| && IsLive(OfferedTo(s, d)[i], t) ==> OfferedTo(s, d)[i].n < s.threads[t].sent
  }

  ghost predicate FifoSafe(s: State, strict: bool) {
    && (forall d :: d in s.chans ==> Ordered(OfferedTo(s, d), strict) && Numbered(s.threads, OfferedTo(s, d)))
    && (strict ==> forall t, d :: t in s.threads && MayOffer(s, t, d) ==> NotYet(s, t, d))
  }

  // ---- what a step offers -----------------------------------------------------------------

  function NewFrames(s: State, t: ConnId, a: Action, d: ConnId): seq<Frame>
    requires Possible(s, t, a)
  {
    var offer := Offering(s, t, a);
    if offer.Some? && offer.value.0 == d then [offer.value.1] else []
  }

  lemma StepOffers(s: State, t: ConnId, a: Action, d: ConnId)
    requires Possible(s, t, a) && d in s.chans
    ensures d in ChansAfter(s, t, a)
    ensures Frames(ChansAfter(s, t, a)[d].offers) == Frames(s.chans[d].offers) + NewFrames(s, t, a, d)
  {
    var offer := Offering(s, t, a);
    if !a.Spawn? && !a.WriterTakes? && offer.Some? && offer.value.0 == d {
      OfferFrames(s.chans[d], offer.value.1);
    }
  }

  /** A live message is offered by its own sender, under its latest number, to a channel still due. */
  lemma OfferIsDue(s: State, t: ConnId, a: Action, d: ConnId)
    requires Possible(s, t, a) && NewFrames(s, t, a, d) != [] && NewFrames(s, t, a, d)[0].Live?
    ensures t in s.threads && NewFrames(s, t, a, d) == [Live(t, s.threads[t].sent)] && MayOffer(s, t, d)
    ensures ThreadAfter(s, t, a).sent == s.threads[t].sent
  {
  }

  lemma OrderedAppend(fs: seq<Frame>, f: Frame, strict: bool)
    requires Ordered(fs, strict)
    requires f.Live? ==> forall i :: 0 <= i < |fs| && IsLive(fs[i], f.src) ==> if strict then fs[i].n < f.n else fs[i].n <= f.n
    ensures Ordered(fs + [f], strict)
  {
  }

  lemma SentGrows(s: State, t: ConnId, a: Action, t': ConnId)
    requires Possible(s, t, a) && t' in s.threads
    ensures t' in Step(s, t, a).threads && s.threads[t'].sent <= Step(s, t, a).threads[t'].sent
    ensures t' != t ==> Step(s, t, a).threads[t'] == s.threads[t']
  {
  }

  lemma StepOrdered(s: State, t: ConnId, a: Action, d: ConnId, strict: bool)
    requires FifoSafe(s, strict) && Possible(s, t, a) && d in ChansAfter(s, t, a)
    ensures Ordered(Frames(ChansAfter(s, t, a)[d].offers), strict)
    ensures Numbered(Step(s, t, a).threads, Frames(ChansAfter(s, t, a)[d].offers))
  {
    if d in s.chans {
      var before, news := OfferedTo(s, d), NewFrames(s, t, a, d);
      StepOffers(s, t, a, d);
      assert Ordered(before, strict) && Numbered(s.threads, before);
      if news != [] {
        if news[0].Live? {
          OfferIsDue(s, t, a, d);
          assert strict ==> NotYet(s, t, d);
        }
        OrderedAppend(before, news[0], strict);
      }
      forall i | 0 <= i < |before + news| && (before + news)[i].Live?
        ensures (before + news)[i].src in Step(s, t, a).threads
                && (before + news)[i].n <= Step(s, t, a).threads[(before + news)[i].src].sent
      {
        if i < |before| {
          SentGrows(s, t, a, before[i].src);
        } else {
          OfferIsDue(s, t, a, d);
          SentGrows(s, t, a, t);
        }
      }
    }
  }

  // ---- at most one copy -------------------------------------------------------------------

  /** A thread's own step that offers `d` nothing makes `d` due only by starting a new message. */
  lemma OwnDueShrinks(s: State, t: ConnId, a: Action, d: ConnId)
    requires Disciplined(s) && Possible(s, t, a) && t in s.threads && !a.WriterTakes?
    requires MayOffer(Step(s, t, a), t, d)
    ensures ThreadAfter(s, t, a).sent == s.threads[t].sent + 1
            || (MayOffer(s, t, d) && ThreadAfter(s, t, a).sent == s.threads[t].sent)
  {
    match a
    case Start(op) =>
    case Body(pick) => BodyDueShrinks(s, t, pick, d);
    case Release => ReleaseDueShrinks(s, t, d);
    case _ =>
  }

  lemma BodyDueShrinks(s: State, t: ConnId, pick: Pick, d: ConnId)
    requires Possible(s, t, Body(pick)) && MayOffer(Step(s, t, Body(pick)), t, d)
    ensures MayOffer(s, t, d) && BodyThread(s, s.threads[t], pick).sent == s.threads[t].sent
  {
    var th, s' := s.threads[t], Step(s, t, Body(pick));
    if th.task.Cast? {
      assert ObjsAfter(s, t, Body(pick)) == s.objs;
      assert ClientsOf(s', th.task.o) == ClientsOf(s, th.task.o);
    }
  }

  lemma ReleaseDueShrinks(s: State, t: ConnId, d: ConnId)
    requires Disciplined(s) && Possible(s, t, Release) && MayOffer(Step(s, t, Release), t, d)
    ensures MayOffer(s, t, d) && ReleaseThread(s.threads[t]).sent == s.threads[t].sent
  {
  }

  /** After an offer to `d` the same message is not due there again: no room lists a connection twice. */
  lemma OfferedIsNotDue(s: State, t: ConnId, a: Action, d: ConnId)
    requires Named(s) && Possible(s, t, a)
    requires NewFrames(s, t, a, d) != [] && NewFrames(s, t, a, d)[0].Live?
    ensures t in s.threads && !a.WriterTakes? && !MayOffer(Step(s, t, a), t, d)
  {
    if a.Body? {
      var th, s' := s.threads[t], Step(s, t, a);
      var o, u := th.task.o, a.pick.user;
      assert s'.objs == s.objs;
      assert ClientsOf(s', o) == ClientsOf(s, o);
      forall u' | u' in ClientsOf(s, o) && ClientsOf(s, o)[u'] == d
        ensures u' == u
      {
        assert IsNamed(s.threads, d, u) && IsNamed(s.threads, d, u');
      }
    }
  }

  /** Another thread's step never makes a channel due. */
  lemma OthersDueShrinks(s: State, t: ConnId, a: Action, t': ConnId, d: ConnId)
    requires Disciplined(s) && Possible(s, t, a) && t' in s.threads && (t' != t || a.WriterTakes?)
    requires MayOffer(Step(s, t, a), t', d)
    ensures MayOffer(s, t', d)
  {
    var th := s.threads[t'];
    if th.task.Cast? && th.phase == In {
      if a.WriterTakes? {
        assert Step(s, t, a).objs == s.objs;
      } else {
        RoomStable(s, t, a, t', th.task.o);
      }
    }
  }

  lemma NewcomerOwesNothing(s: State, t: ConnId, a: Action, t': ConnId, d: ConnId)
    requires Possible(s, t, a) && t' !in s.threads && t' in Step(s, t, a).threads
    ensures !MayOffer(Step(s, t, a), t', d)
  {
    assert Step(s, t, a).threads[t'] == ThreadAfter(s, t, a);
  }

  lemma OwnNotYet(s: State, t: ConnId, a: Action, d: ConnId)
    requires Disciplined(s) && Named(s) && FifoSafe(s, true) && Possible(s, t, a)
    requires t in s.threads && !a.WriterTakes? && d in s.chans && MayOffer(Step(s, t, a), t, d)
    ensures NotYet(Step(s, t, a), t, d)
  {
    StepOffers(s, t, a, d);
    OwnDueShrinks(s, t, a, d);
    var news := NewFrames(s, t, a, d);
    assert Numbered(s.threads, OfferedTo(s, d));
    if news != [] && news[0].Live? {
      OfferedIsNotDue(s, t, a, d);
    }
  }

  lemma OthersNotYet(s: State, t: ConnId, a: Action, t': ConnId, d: ConnId)
    requires Disciplined(s) && FifoSafe(s, true) && Possible(s, t, a) && t' in s.threads && (t' != t || a.WriterTakes?)
    requires d in s.chans && MayOffer(Step(s, t, a), t', d)
    ensures NotYet(Step(s, t, a), t', d)
  {
    StepOffers(s, t, a, d);
    OthersDueShrinks(s, t, a, t', d);
    var news := NewFrames(s, t, a, d);
    if news != [] && news[0].Live? {
      OfferIsDue(s, t, a, d);
    }
  }

  lemma StepNotYet(s: State, t: ConnId, a: Action, t': ConnId, d: ConnId)
    requires Disciplined(s) && Named(s) && FifoSafe(s, true) && Possible(s, t, a)
    requires t' in Step(s, t, a).threads && MayOffer(Step(s, t, a), t', d)
    ensures NotYet(Step(s, t, a), t', d)
  {
    var s' := Step(s, t, a);
    if t' !in s.threads {
      NewcomerOwesNothing(s, t, a, t', d);
    } else if d in s.chans {
      if t' == t && !a.WriterTakes? {
        OwnNotYet(s, t, a, d);
      } else {
        OthersNotYet(s, t, a, t', d);
      }
    } else if d in s'.chans {
      assert ChansAfter(s, t, a)[d] == Open();
    }
  }

  // ---- over runs --------------------------------------------------------------------------

  lemma StepFifo(s: State, t: ConnId, a: Action, strict: bool)
    requires FifoSafe(s, strict) && Possible(s, t, a) && (strict ==> Disciplined(s) && Named(s))
    ensures FifoSafe(Step(s, t, a), strict)
  {
    var s' := Step(s, t, a);
    forall d | d in s'.chans
      ensures Ordered(OfferedTo(s', d), strict) && Numbered(s'.threads, OfferedTo(s', d))
    {
      StepOrdered(s, t, a, d, strict);
    }
    if strict {
      forall t', d | t' in s'.threads && MayOffer(s', t', d)
        ensures NotYet(s', t', d)
      {
        StepNotYet(s, t, a, t', d);
      }
    }
  }

  lemma {:induction false} RunFifo(run: seq<Move>, strict: bool)
    requires ValidRun(run) && (strict ==> NoSwitch(run))
    ensures FifoSafe(After(run), strict)
  {
    if run != [] {
      var n := |run| - 1;
      RunFifo(run[..n], strict);
      if strict {
        RunSafe(run[..n]);
      }
      StepFifo(After(run[..n]), run[n].t, run[n].a, strict);
    }
  }

  lemma {:induction false} RunConserves(run: seq<Move>)
    requires ValidRun(run)
    ensures forall d :: d in After(run).chans ==> Conserved(After(run).chans[d])
  {
    if run != [] {
      var n := |run| - 1;
      RunConserves(run[..n]);
      StepConserves(After(run[..n]), run[n].t, run[n].a);
    }
  }

  lemma StepConserves(s: State, t: ConnId, a: Action)
    requires Possible(s, t, a) && forall d :: d in s.chans ==> Conserved(s.chans[d])
    ensures forall d :: d in ChansAfter(s, t, a) ==> Conserved(ChansAfter(s, t, a)[d])
  {
    if a.WriterTakes? {
      TakeConserves(s.chans[t]);
    } else if !a.Spawn? {
      var offer := Offering(s, t, a);
      if offer.Some? && offer.value.0 in s.chans {
        OfferConserves(s.chans[offer.value.0], offer.value.1);
      }
    }
  }

  lemma OrderInherited(xs: seq<Frame>, ys: seq<Frame>, at: seq<nat>, strict: bool)
    requires Ordered(ys, strict) && Embeds(at, xs, ys)
    ensures Ordered(xs, strict)
  {
    forall i, j | 0 <= i < j < |xs| && xs[i].Live? && xs[j].Live? && xs[i].src == xs[j].src
      ensures if strict then xs[i].n < xs[j].n else xs[i].n <= xs[j].n
    {
      assert at[i] < at[j] && ys[at[i]] == xs[i] && ys[at[j]] == xs[j];
    }
  }

  /**
    Main result: in every interleaving, what any receiver has taken or still has queued keeps the
    room and private messages of each sender in the order sent.
   */
  lemma PerSenderFifo(run: seq<Move>, d: ConnId)
    requires ValidRun(run) && d in After(run).chans
    ensures Ordered(History(After(run).chans[d]), false)
  {
    RunFifo(run, false);
    RunConserves(run);
    var ch := After(run).chans[d];
    Conservation(ch);
    assert Ordered(OfferedTo(After(run), d), false);
    OrderInherited(History(ch), Frames(ch.offers), AcceptedAt(ch.offers), false);
  }

  /** Main result: and without an identity switch no message reaches a channel twice. */
  lemma PerSenderFifoOnce(run: seq<Move>, d: ConnId)
    requires ValidRun(run) && NoSwitch(run) && d in After(run).chans
    ensures Ordered(History(After(run).chans[d]), true)
  {
    RunFifo(run, true);
    RunConserves(run);
    var ch := After(run).chans[d];
    Conservation(ch);
    assert Ordered(OfferedTo(After(run), d), true);
    OrderInherited(History(ch), Frames(ch.offers), AcceptedAt(ch.offers), true);
  }
}
