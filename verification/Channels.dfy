/**
  The outgoing channel of a connection: 256 slots, filled by non-blocking sends that drop
  when it is full, emptied by the connection's writer goroutine.
 */
module Channels {
  import opened Basics

  const CAPACITY: nat := 256

  /** One attempt to send; a `select` with a default case either accepts the frame or drops it. */
  datatype Offered<F> = Offered(frame: F, accepted: bool)

  /** A channel with its past: what the writer has taken and every frame ever offered. */
  datatype Chan<F> = Chan(queue: seq<F>, taken: seq<F>, offers: seq<Offered<F>>)

  function Open<F>(): Chan<F> {
    Chan([], [], [])
  }

  function Offer<F>(ch: Chan<F>, f: F): Chan<F> {
    var fits := |ch.queue| < CAPACITY;
    Chan(if fits then ch.queue + [f] else ch.queue, ch.taken, ch.offers + [Offered(f, fits)])
  }

  function OfferAll<F>(ch: Chan<F>, fs: seq<F>): Chan<F> {
    if fs == [] then ch else Offer(OfferAll(ch, fs[..|fs| - 1]), fs[|fs| - 1])
  }

  /** `n` sends of one frame, as when several users of a room share a connection. */
  function OfferTimes<F>(ch: Chan<F>, f: F, n: nat): Chan<F> {
    if n == 0 then ch else Offer(OfferTimes(ch, f, n - 1), f)
  }

  function Take<F>(ch: Chan<F>): Chan<F> {
    if ch.queue == [] then ch else Chan(ch.queue[1..], ch.taken + [ch.queue[0]], ch.offers)
  }

  /** Everything that ever entered the channel, in order of arrival. */
  function History<F>(ch: Chan<F>): seq<F> {
    ch.taken + ch.queue
  }

  function Accepted<F>(offers: seq<Offered<F>>): seq<F> {
    if offers == [] then []
    else
      var n := |offers| - 1;
      Accepted(offers[..n]) + if offers[n].accepted then [offers[n].frame] else []
  }

  function Dropped<F>(offers: seq<Offered<F>>): seq<F> {
    if offers == [] then []
    else
      var n := |offers| - 1;
      Dropped(offers[..n]) + if offers[n].accepted then [] else [offers[n].frame]
  }

  function Frames<F>(offers: seq<Offered<F>>): seq<F> {
    seq(|offers|, i requires 0 <= i < |offers| => offers[i].frame)
  }

  /** The channel never overflows, and holds or has delivered exactly what it accepted. */
  ghost predicate Conserved<F>(ch: Chan<F>) {
    |ch.queue| <= CAPACITY && History(ch) == Accepted(ch.offers)
  }

  lemma OfferConserves<F>(ch: Chan<F>, f: F)
    requires Conserved(ch)
    ensures Conserved(Offer(ch, f))
    ensures History(Offer(ch, f)) == History(ch) + if |ch.queue| < CAPACITY then [f] else []
  {
    var ch' := Offer(ch, f);
    assert ch'.offers[..|ch.offers|] == ch.offers;
    assert ch.taken + (ch.queue + [f]) == (ch.taken + ch.queue) + [f];
  }

  lemma TakeConserves<F>(ch: Chan<F>)
    requires Conserved(ch)
    ensures Conserved(Take(ch)) && History(Take(ch)) == History(ch)
  {
    if ch.queue != [] {
      assert (ch.taken + [ch.queue[0]]) + ch.queue[1..] == ch.taken + ch.queue;
    }
  }

  lemma {:induction false} OfferAllConserves<F>(ch: Chan<F>, fs: seq<F>)
    requires Conserved(ch)
    ensures Conserved(OfferAll(ch, fs))
  {
    if fs != [] {
      OfferAllConserves(ch, fs[..|fs| - 1]);
      OfferConserves(OfferAll(ch, fs[..|fs| - 1]), fs[|fs| - 1]);
    }
  }

  lemma {:induction false} OfferTimesConserves<F>(ch: Chan<F>, f: F, n: nat)
    requires Conserved(ch)
    ensures Conserved(OfferTimes(ch, f, n))
  {
    if n > 0 {
      OfferTimesConserves(ch, f, n - 1);
      OfferConserves(OfferTimes(ch, f, n - 1), f);
    }
  }

  /** `xs` is what remains of `ys` after leaving some elements out: `at` gives the places kept. */
  ghost predicate Embeds<F>(at: seq<nat>, xs: seq<F>, ys: seq<F>) {
    && |at| == |xs|
    && (forall i :: 0 <= i < |at| ==> at[i] < |ys| && ys[at[i]] == xs[i])
    && (forall i, j :: 0 <= i < j < |at| ==> at[i] < at[j])
  }

  ghost predicate IsSubsequence<F>(xs: seq<F>, ys: seq<F>) {
    exists at: seq<nat> :: Embeds(at, xs, ys)
  }

  /** The places of the accepted offers, in order. */
  function AcceptedAt<F>(offers: seq<Offered<F>>): seq<nat> {
    if offers == [] then []
    else
      var n := |offers| - 1;
      AcceptedAt(offers[..n]) + if offers[n].accepted then [n] else []
  }

  lemma {:induction false} AcceptedEmbeds<F>(offers: seq<Offered<F>>)
    ensures Embeds(AcceptedAt(offers), Accepted(offers), Frames(offers))
    ensures forall i :: 0 <= i < |offers| ==> (offers[i].accepted <==> i in AcceptedAt(offers))
  {
    if offers != [] {
      var n := |offers| - 1;
      AcceptedEmbeds(offers[..n]);
      var pre := AcceptedAt(offers[..n]);
      assert forall i :: 0 <= i < |pre| ==> pre[i] < n && Frames(offers)[pre[i]] == Frames(offers[..n])[pre[i]];
      forall i | 0 <= i < |offers|
        ensures offers[i].accepted <==> i in AcceptedAt(offers)
      {
        if i < n {
          assert offers[..n][i] == offers[i];
        } else {
          assert i !in pre;
        }
      }
    }
  }

  lemma {:induction false} AcceptedOrDropped<F>(offers: seq<Offered<F>>)
    ensures multiset(Frames(offers)) == multiset(Accepted(offers)) + multiset(Dropped(offers))
  {
    if offers != [] {
      var n := |offers| - 1;
      AcceptedOrDropped(offers[..n]);
      assert Frames(offers) == Frames(offers[..n]) + [offers[n].frame];
    }
  }

  /**
    Main result about one channel in any conserved state: what the writer took followed by what
    is queued is a subsequence of the offers in order; offer `i` sits in exactly one place of it
    when accepted and in none when dropped; and the three parts together are the offers.
   */
  lemma Conservation<F>(ch: Chan<F>)
    requires Conserved(ch)
    ensures IsSubsequence(ch.taken + ch.queue, Frames(ch.offers))
    ensures Embeds(AcceptedAt(ch.offers), ch.taken + ch.queue, Frames(ch.offers))
    ensures forall i :: 0 <= i < |ch.offers| ==> (ch.offers[i].accepted <==> i in AcceptedAt(ch.offers))
    ensures multiset(Frames(ch.offers)) == multiset(ch.taken) + multiset(ch.queue) + multiset(Dropped(ch.offers))
  {
    AcceptedEmbeds(ch.offers);
    AcceptedOrDropped(ch.offers);
    assert multiset(ch.taken + ch.queue) == multiset(ch.taken) + multiset(ch.queue);
  }

  lemma OfferAllThen<F>(ch: Chan<F>, fs: seq<F>, f: F)
    ensures OfferAll(ch, fs + [f]) == Offer(OfferAll(ch, fs), f)
  {
    assert (fs + [f])[..|fs|] == fs;
  }

  /** Frames offered while there is room for all of them are queued in order, none dropped, and only then. */
  lemma {:induction false} FitsIff<F>(ch: Chan<F>, fs: seq<F>)
    requires |ch.queue| <= CAPACITY
    ensures OfferAll(ch, fs).queue == ch.queue + fs <==> |ch.queue| + |fs| <= CAPACITY
    ensures |ch.queue| <= |OfferAll(ch, fs).queue| <= CAPACITY
    ensures |ch.queue| + |fs| > CAPACITY ==> |OfferAll(ch, fs).queue| == CAPACITY
  {
    if fs != [] {
      var n := |fs| - 1;
      FitsIff(ch, fs[..n]);
      assert fs == fs[..n] + [fs[n]];
    }
  }

  lemma {:induction false} NothingDropped<F>(ch: Chan<F>, fs: seq<F>)
    requires |ch.queue| + |fs| <= CAPACITY && Dropped(ch.offers) == []
    ensures Dropped(OfferAll(ch, fs).offers) == []
  {
    if fs != [] {
      var n := |fs| - 1;
      FitsIff(ch, fs[..n]);
      NothingDropped(ch, fs[..n]);
      var mid := OfferAll(ch, fs[..n]);
      assert Offer(mid, fs[n]).offers[..|mid.offers|] == mid.offers;
    }
  }

  /** Of frames offered in a row those are accepted that come before the channel is full. */
  lemma {:induction false} AcceptedUntilFull<F>(ch: Chan<F>, fs: seq<F>)
    requires |ch.queue| <= CAPACITY
    ensures ch.offers <= OfferAll(ch, fs).offers && |OfferAll(ch, fs).offers| == |ch.offers| + |fs|
    ensures forall i :: 0 <= i < |fs| ==>
              OfferAll(ch, fs).offers[|ch.offers| + i] == Offered(fs[i], |ch.queue| + i < CAPACITY)
  {
    if fs != [] {
      var n := |fs| - 1;
      AcceptedUntilFull(ch, fs[..n]);
      FitsIff(ch, fs[..n]);
    }
  }

  lemma {:induction false} OfferTimesExtends<F>(ch: Chan<F>, f: F, n: nat)
    ensures ch.offers <= OfferTimes(ch, f, n).offers
  {
    if n > 0 {
      OfferTimesExtends(ch, f, n - 1);
    }
  }

  /** The record of offers, accepted or not, grows by exactly what is offered. */
  lemma OfferFrames<F>(ch: Chan<F>, f: F)
    ensures Frames(Offer(ch, f).offers) == Frames(ch.offers) + [f]
  {
  }

  lemma {:induction false} OfferAllFrames<F>(ch: Chan<F>, fs: seq<F>)
    ensures Frames(OfferAll(ch, fs).offers) == Frames(ch.offers) + fs
  {
    if fs == [] {
    } else {
      OfferAllFrames(ch, fs[..|fs| - 1]);
      OfferFrames(OfferAll(ch, fs[..|fs| - 1]), fs[|fs| - 1]);
      assert fs == fs[..|fs| - 1] + [fs[|fs| - 1]];
    }
  }

  function Repeat<F>(f: F, n: nat): seq<F> {
    seq(n, _ => f)
  }

  lemma {:induction false} OfferTimesFrames<F>(ch: Chan<F>, f: F, n: nat)
    ensures Frames(OfferTimes(ch, f, n).offers) == Frames(ch.offers) + Repeat(f, n)
  {
    if n == 0 {
    } else {
      OfferTimesFrames(ch, f, n - 1);
      OfferFrames(OfferTimes(ch, f, n - 1), f);
      assert Repeat(f, n) == Repeat(f, n - 1) + [f];
    }
  }

  /** The channels of all connections, shared by producers and writer goroutines. */
  class Outboxes<F> {
    var chans: map<ConnId, Chan<F>>

    constructor ()
      ensures chans == map[]
    {
      chans := map[];
    }

    /** `make(chan []byte, 256)` for a new connection. */
    method Make(c: ConnId)
      modifies this
      ensures chans == old(chans)[c := Open()]
    {
      chans := chans[c := Chan([], [], [])];
    }

    /** `select { case ch <- f: default: }` */
    method TrySend(c: ConnId, f: F)
      requires c in chans
      modifies this
      ensures chans == old(chans)[c := Offer(old(chans)[c], f)]
    {
      var ch := chans[c];
      if |ch.queue| < CAPACITY {
        chans := chans[c := ch.(queue := ch.queue + [f], offers := ch.offers + [Offered(f, true)])];
      } else {
        chans := chans[c := ch.(offers := ch.offers + [Offered(f, false)])];
      }
    }

    /** One turn of a writer goroutine's `range`; it takes the oldest frame when there is one. */
    method Receive(c: ConnId) returns (f: Option<F>)
      requires c in chans
      modifies this
      ensures chans == old(chans)[c := Take(old(chans)[c])]
      ensures f == if old(chans)[c].queue == [] then None else Some(old(chans)[c].queue[0])
    {
      var ch := chans[c];
      if ch.queue == [] {
        return None;
      }
      f := Some(ch.queue[0]);
      chans := chans[c := ch.(queue := ch.queue[1..], taken := ch.taken + [ch.queue[0]])];
    }
  }
}
