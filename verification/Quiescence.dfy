/**
  Operations end. Adding up the ranks of all threads, part by part, gives a rank of the whole
  server that every own step of any operation lowers: there is no deadlock, because from every
  state the operations under way can all be finished, and no livelock, because they cannot go on
  for ever.
 */
module Quiescence {
  import opened Basics
  import opened LockStep
  import opened LockDiscipline
  import opened Progress
  import opened Continuations

  // ---- sums -----------------------------------------------------------------------------

  ghost function Sum(m: map<ConnId, nat>): nat
    decreases |m|
  {
    if m == map[] then 0 else var k :| k in m; m[k] + Sum(m - {k})
  }

  /** It does not matter which summand comes first. */
  lemma {:induction false} SumFirst(m: map<ConnId, nat>, k: ConnId)
    requires k in m
    ensures Sum(m) == m[k] + Sum(m - {k})
    decreases |m|
  {
    var k' :| k' in m && Sum(m) == m[k'] + Sum(m - {k'});
    if k != k' {
      SumFirst(m - {k'}, k);
      SumFirst(m - {k}, k');
      assert m - {k'} - {k} == m - {k} - {k'};
    }
  }

  lemma SumUpdate(m: map<ConnId, nat>, k: ConnId, v: nat)
    requires k in m
    ensures Sum(m[k := v]) + m[k] == Sum(m) + v
  {
    SumFirst(m, k);
    SumFirst(m[k := v], k);
    assert m[k := v] - {k} == m - {k};
  }

  // ---- the rank of the server -------------------------------------------------------------

  function Ranks(s: State): map<ConnId, Rank> {
    map t | t in s.threads :: RankOf(s.rooms, s.objs, s.threads[t])
  }

  function Stages(m: map<ConnId, Rank>): map<ConnId, nat> { map t | t in m :: m[t].stage }

  function Rooms(m: map<ConnId, Rank>): map<ConnId, nat> { map t | t in m :: m[t].rooms }

  function Tasks(m: map<ConnId, Rank>): map<ConnId, nat> { map t | t in m :: m[t].task }

  function LoopParts(m: map<ConnId, Rank>): map<ConnId, nat> { map t | t in m :: m[t].loop }

  function Phases(m: map<ConnId, Rank>): map<ConnId, nat> { map t | t in m :: m[t].phase }

  ghost function Total(m: map<ConnId, Rank>): Rank {
    Rank(Sum(Stages(m)), Sum(Rooms(m)), Sum(Tasks(m)), Sum(LoopParts(m)), Sum(Phases(m)))
  }

  /** Lowering one rank lowers the sum, part by part, in the same order. */
  lemma TotalDescends(m: map<ConnId, Rank>, t: ConnId, r: Rank)
    requires t in m && Below(r, m[t])
    ensures Below(Total(m[t := r]), Total(m))
  {
    var m' := m[t := r];
    assert Stages(m') == Stages(m)[t := r.stage] && Rooms(m') == Rooms(m)[t := r.rooms];
    assert Tasks(m') == Tasks(m)[t := r.task] && LoopParts(m') == LoopParts(m)[t := r.loop];
    assert Phases(m') == Phases(m)[t := r.phase];
    SumUpdate(Stages(m), t, r.stage);
    SumUpdate(Rooms(m), t, r.rooms);
    SumUpdate(Tasks(m), t, r.task);
    SumUpdate(LoopParts(m), t, r.loop);
    SumUpdate(Phases(m), t, r.phase);
  }

  lemma OneEntryChanges(m: map<ConnId, Rank>, m': map<ConnId, Rank>, t: ConnId)
    requires t in m && m'.Keys == m.Keys && forall o :: o in m && o != t ==> m'[o] == m[o]
    ensures m' == m[t := m'[t]]
  {
  }

  lemma RankAfter(s: State, t: ConnId, a: Action)
    requires Possible(s, t, a) && OwnStep(a)
    ensures t in s.threads && Ranks(Step(s, t, a)).Keys == Ranks(s).Keys
    ensures Ranks(Step(s, t, a))[t] == RankOf(RoomsAfter(s, t, a), ObjsAfter(s, t, a), ThreadAfter(s, t, a))
  {
  }

  lemma OtherRankStays(s: State, t: ConnId, a: Action, o: ConnId)
    requires Disciplined(s) && Possible(s, t, a) && OwnStep(a) && o in s.threads && o != t
    ensures o in Step(s, t, a).threads && Ranks(Step(s, t, a))[o] == Ranks(s)[o]
  {
    OthersKeepRank(s, t, a, o);
  }

  /** Main result: every own step of any operation lowers the rank of the server. */
  lemma ServerDescends(s: State, t: ConnId, a: Action)
    requires Disciplined(s) && Possible(s, t, a) && OwnStep(a)
    ensures Below(Total(Ranks(Step(s, t, a))), Total(Ranks(s)))
  {
    var m, m' := Ranks(s), Ranks(Step(s, t, a));
    RankAfter(s, t, a);
    OwnStepDescends(s, t, a);
    forall o | o in m && o != t
      ensures m'[o] == m[o]
    {
      OtherRankStays(s, t, a, o);
    }
    OneEntryChanges(m, m', t);
    TotalDescends(m, t, m'[t]);
  }

  // ---- no deadlock: everything can be finished ----------------------------------------------

  ghost predicate AllOwn(run: seq<Move>) {
    forall i :: 0 <= i < |run| ==> OwnStep(run[i].a)
  }

  /** Every thread waits for its next frame, or has finished. */
  ghost predicate AtRest(s: State) {
    forall t :: t in s.threads ==> !Busy(s.threads[t])
  }

  /** Main result: from every disciplined state the operations under way can be finished by their own steps alone. */
  lemma {:induction false} CanComeToRest(s: State) returns (run: seq<Move>)
    requires Disciplined(s)
    ensures ValidFrom(s, run) && AllOwn(run) && AtRest(ExecFrom(s, run))
    decreases Total(Ranks(s)).stage, Total(Ranks(s)).rooms, Total(Ranks(s)).task, Total(Ranks(s)).loop, Total(Ranks(s)).phase
  {
    run := [];
    if t :| t in s.threads && Busy(s.threads[t]) {
      var m := SomebodyCanStep(s, t);
      StepDisciplined(s, m.t, m.a);
      ServerDescends(s, m.t, m.a);
      var rest := CanComeToRest(Step(s, m.t, m.a));
      Prepend(s, m, rest);
      OwnFirst(m, rest);
      run := [m] + rest;
    }
  }

  lemma SomebodyCanStep(s: State, t: ConnId) returns (m: Move)
    requires Disciplined(s) && t in s.threads && Busy(s.threads[t])
    ensures OwnStep(m.a) && Possible(s, m.t, m.a)
  {
    EveryWaitResolves(s, t);
    var t' := ChainEnd(s, t, 4);
    var a :| OwnStep(a) && Possible(s, t', a);
    m := Move(t', a);
  }

  lemma OwnFirst(m: Move, run: seq<Move>)
    requires OwnStep(m.a) && AllOwn(run)
    ensures AllOwn([m] + run)
  {
  }

  // ---- no livelock: nothing goes on for ever -----------------------------------------------

  /** An own step of some operation, or a turn of a writer goroutine. */
  ghost predicate WorkMove(s: State, m: Move, s': State) {
    (OwnStep(m.a) || m.a.WriterTakes?) && Possible(s, m.t, m.a) && s' == Step(s, m.t, m.a)
  }

  /** Steps without one of an operation's own leave discipline and rank as they are. */
  lemma {:induction false} WritersKeepRank(states: nat -> State, moves: nat -> Move, i: nat, j: nat)
    requires Disciplined(states(i)) && i <= j
    requires forall k: nat :: k >= i ==> WorkMove(states(k), moves(k), states(k + 1))
    requires forall k: nat :: i <= k < j ==> !OwnStep(moves(k).a)
    ensures Disciplined(states(j)) && Ranks(states(j)) == Ranks(states(i))
    decreases j - i
  {
    if i < j {
      var n := j - 1;
      WritersKeepRank(states, moves, i, n);
      assert WorkMove(states(n), moves(n), states(j));
      StepDisciplined(states(n), moves(n).t, moves(n).a);
    }
  }

  /** The first own step from moment `i` on. */
  lemma {:induction false} FirstOwn(moves: nat -> Move, i: nat, j: nat) returns (f: nat)
    requires i <= j && OwnStep(moves(j).a)
    ensures i <= f <= j && OwnStep(moves(f).a) && forall k: nat :: i <= k < f ==> !OwnStep(moves(k).a)
    decreases j - i
  {
    if OwnStep(moves(i).a) {
      f := i;
    } else {
      f := FirstOwn(moves, i + 1, j);
    }
  }

  /**
    Main result: no schedule, fair or not, with writer goroutines at work as often as they like,
    makes own steps for ever without a new frame arriving: from some moment on there are none.
   */
  lemma {:induction false} NoEndlessSchedule(states: nat -> State, moves: nat -> Move, i: nat) returns (end: nat)
    requires Disciplined(states(i))
    requires forall j: nat :: j >= i ==> WorkMove(states(j), moves(j), states(j + 1))
    ensures end >= i && forall j: nat :: j >= end ==> !OwnStep(moves(j).a)
    decreases Total(Ranks(states(i))).stage, Total(Ranks(states(i))).rooms, Total(Ranks(states(i))).task,
              Total(Ranks(states(i))).loop, Total(Ranks(states(i))).phase
  {
    end := i;
    if j: nat :| j >= i && OwnStep(moves(j).a) {
      var f := FirstOwn(moves, i, j);
      WritersKeepRank(states, moves, i, f);
      assert WorkMove(states(f), moves(f), states(f + 1));
      StepDisciplined(states(f), moves(f).t, moves(f).a);
      ServerDescends(states(f), moves(f).t, moves(f).a);
      end := NoEndlessSchedule(states, moves, f + 1);
    }
  }
}
