/**
  A pull of offline messages as the two commands it consists of: a find, and later an update that
  marks whatever matches the filter by then. Any number of pulls and saves interleave. This module
  says exactly when a message is returned twice, and when one is marked without being returned.
 */
module SplitPull {
  import opened Basics
  import opened MessageStore

  type PullId = nat

  /** A pull between its two commands: what it read, and what was waiting when it read. */
  datatype Open = Open(user: UserId, cursor: seq<Key>, waiting: set<Key>, found: nat)

  /** A pull that has returned: what it returned, what it marked, and when it ran. */
  datatype Done = Done(user: UserId, keys: set<Key>, marks: set<Key>, found: nat, marked: nat)

  /** `saved` records when each document came; `clock` counts the commands so far. */
  datatype State = State(docs: map<Key, Doc>, saved: map<Key, nat>, open: map<PullId, Open>, done: map<PullId, Done>, clock: nat)

  datatype Event =
    | Save(key: Key, doc: Doc)
    | Find(p: PullId, user: UserId, cursor: seq<Key>)
    | Mark(p: PullId)
    | MarkFails(p: PullId, marks: set<Key>)

  const EMPTY := State(map[], map[], map[], map[], 0)

  ghost predicate Possible(s: State, e: Event) {
    match e
    case Save(key, _) => key !in s.docs
    case Find(p, user, cursor) => p !in s.open && p !in s.done && CursorPossible(s.docs, user, cursor)
    case Mark(p) => p in s.open
    case MarkFails(p, marks) => p in s.open && s.open[p].cursor != [] && marks <= Undelivered(s.docs, s.open[p].user)
  }

  function Keys(cursor: seq<Key>): set<Key> {
    set k | k in cursor
  }

  /** What the update of a pull marks; a pull that found nothing sends none. */
  function Marks(s: State, p: PullId): set<Key>
    requires p in s.open
  {
    if s.open[p].cursor == [] then {} else Undelivered(s.docs, s.open[p].user)
  }

  function Step(s: State, e: Event): State
    requires Possible(s, e)
  {
    match e
    case Save(key, doc) => s.(docs := s.docs[key := doc], saved := s.saved[key := s.clock], clock := s.clock + 1)
    case Find(p, user, cursor) =>
      s.(open := s.open[p := Open(user, cursor, Undelivered(s.docs, user), s.clock)], clock := s.clock + 1)
    case Mark(p) =>
      var o := s.open[p];
      s.(docs := MarkDelivered(s.docs, Marks(s, p)), open := s.open - {p},
         done := s.done[p := Done(o.user, Keys(o.cursor), Marks(s, p), o.found, s.clock)], clock := s.clock + 1)
    case MarkFails(p, marks) => s.(docs := MarkDelivered(s.docs, marks), open := s.open - {p}, clock := s.clock + 1)
  }

  ghost predicate ValidRun(evs: seq<Event>)
    decreases |evs|, 0
  {
    evs == [] || (var n := |evs| - 1; ValidRun(evs[..n]) && Possible(After(evs[..n]), evs[n]))
  }

  ghost function After(evs: seq<Event>): State
    requires ValidRun(evs)
    decreases |evs|, 1
  {
    if evs == [] then EMPTY else var n := |evs| - 1; Step(After(evs[..n]), evs[n])
  }

  /** With nothing in between, the two commands are the one step that the gateway model takes. */
  lemma FindThenMarkIsAPull(s: State, p: PullId, user: UserId, cursor: seq<Key>)
    requires Possible(s, Find(p, user, cursor))
    ensures var found := Step(s, Find(p, user, cursor));
            && Possible(found, Mark(p))
            && Step(found, Mark(p)).docs == AfterPull(s.docs, user, Pulled(cursor))
  {
    if cursor == [] {
      assert Undelivered(s.docs, user) == {};
    }
  }

  // ---- what every interleaving keeps ------------------------------------------------------

  ghost predicate SavesRecorded(s: State) {
    s.saved.Keys == s.docs.Keys && forall k :: k in s.saved ==> s.saved[k] < s.clock
  }

  /** What an open pull read is still there; what it read or marked has not become undelivered. */
  predicate OpenSound(s: State, o: Open) {
    && o.found < s.clock && Keys(o.cursor) <= o.waiting
    && |o.cursor| == (if |o.waiting| < PULL_LIMIT then |o.waiting| else PULL_LIMIT) && |Keys(o.cursor)| == |o.cursor|
    && (forall k :: k in o.waiting ==> k in s.docs && s.docs[k].to == Some(o.user))
    && (forall k :: k in Undelivered(s.docs, o.user) && k in s.saved && s.saved[k] < o.found ==> k in o.waiting)
    && (forall k :: k in o.waiting && k in s.saved ==> s.saved[k] < o.found)
  }

  /** What a pull returned is delivered, and belongs to its user. */
  predicate DoneSound(s: State, d: Done) {
    && d.found < d.marked < s.clock
    && (forall k :: k in d.keys ==> k in s.docs && s.docs[k].to == Some(d.user) && s.docs[k].delivered)
  }

  ghost predicate Sound(s: State) {
    && SavesRecorded(s)
    && (forall p :: p in s.open ==> OpenSound(s, s.open[p]))
    && (forall p :: p in s.done ==> DoneSound(s, s.done[p]))
  }

  lemma FindOpens(s: State, user: UserId, cursor: seq<Key>)
    requires SavesRecorded(s) && CursorPossible(s.docs, user, cursor)
    ensures OpenSound(s.(clock := s.clock + 1), Open(user, cursor, Undelivered(s.docs, user), s.clock))
  {
    DistinctSize(cursor);
  }

  lemma StepKeepsOpen(s: State, e: Event, o: Open)
    requires Possible(s, e) && SavesRecorded(s) && OpenSound(s, o)
    ensures OpenSound(Step(s, e), o)
  {
    var s' := Step(s, e);
    forall k | k in Undelivered(s'.docs, o.user) && k in s'.saved && s'.saved[k] < o.found
      ensures k in o.waiting
    {
      assert k in Undelivered(s.docs, o.user) && k in s.saved;
    }
  }

  lemma StepKeepsDone(s: State, e: Event, d: Done)
    requires Possible(s, e) && DoneSound(s, d)
    ensures DoneSound(Step(s, e), d)
  {
  }

  /** The update leaves everything the pull read delivered: it marks it, or another pull has. */
  lemma MarkSettles(s: State, p: PullId)
    requires Sound(s) && p in s.open
    ensures DoneSound(Step(s, Mark(p)), Step(s, Mark(p)).done[p])
  {
    var o := s.open[p];
    forall k | k in Keys(o.cursor)
      ensures k in s.docs && (s.docs[k].delivered || k in Marks(s, p))
    {
      assert k in o.waiting;
    }
  }

  lemma StepSound(s: State, e: Event)
    requires Possible(s, e) && Sound(s)
    ensures Sound(Step(s, e))
  {
    var s' := Step(s, e);
    forall p | p in s'.open
      ensures OpenSound(s', s'.open[p])
    {
      if e.Find? && p == e.p {
        FindOpens(s, e.user, e.cursor);
      } else {
        StepKeepsOpen(s, e, s.open[p]);
      }
    }
    forall p | p in s'.done
      ensures DoneSound(s', s'.done[p])
    {
      if e.Mark? && p == e.p {
        MarkSettles(s, p);
      } else {
        StepKeepsDone(s, e, s.done[p]);
      }
    }
  }

  lemma {:induction false} RunSound(evs: seq<Event>)
    requires ValidRun(evs)
    ensures Sound(After(evs))
  {
    if evs != [] {
      var n := |evs| - 1;
      RunSound(evs[..n]);
      StepSound(After(evs[..n]), evs[n]);
    }
  }

  // ---- returned twice ---------------------------------------------------------------------

  /** The find of `b` falls between the find and the update of `a`, for the same user. */
  predicate FallsInto(b: Done, a: Done) {
    a.user == b.user && a.found < b.found < a.marked
  }

  /** No two pulls find at the same moment. */
  ghost predicate FindsDiffer(s: State) {
    && (forall p, q :: p in s.open && q in s.open && p != q ==> s.open[p].found != s.open[q].found)
    && (forall p, q :: p in s.open && q in s.done ==> s.open[p].found != s.done[q].found)
  }

  /** An open pull that has read what another returned found it before that one marked it. */
  ghost predicate OpenSharesEarly(s: State) {
    forall p, q :: p in s.done && q in s.open && !(s.done[p].keys !! Keys(s.open[q].cursor)) ==>
      s.open[q].found < s.done[p].marked && s.open[q].user == s.done[p].user
  }

  ghost predicate DoneOverlap(s: State) {
    forall p, q :: p in s.done && q in s.done && p != q && !(s.done[p].keys !! s.done[q].keys) ==>
      FallsInto(s.done[p], s.done[q]) || FallsInto(s.done[q], s.done[p])
  }

  lemma FindSharesNothing(s: State, e: Event, p: PullId)
    requires Possible(s, e) && Sound(s) && e.Find? && p in s.done
    ensures s.done[p].keys !! Keys(e.cursor)
  {
    forall k | k in s.done[p].keys
      ensures k !in Keys(e.cursor)
    {
      assert s.docs[k].delivered;
    }
  }

  /** A pull that now marks shares a document only with pulls it overlaps. */
  lemma MarkOverlaps(s: State, e: Event, q: PullId)
    requires Possible(s, e) && Sound(s) && FindsDiffer(s) && OpenSharesEarly(s) && e.Mark? && q in s.done && q != e.p
    requires !(s.done[q].keys !! Keys(s.open[e.p].cursor))
    ensures var d := Step(s, e).done[e.p]; FallsInto(d, s.done[q]) || FallsInto(s.done[q], d)
  {
    assert s.open[e.p].found < s.done[q].marked;
  }

  /** Pulls that are both open and share a document are for the same user. */
  lemma OpenShareUser(s: State, p: PullId, q: PullId)
    requires Sound(s) && p in s.open && q in s.open && !(Keys(s.open[p].cursor) !! Keys(s.open[q].cursor))
    ensures s.open[p].user == s.open[q].user
  {
    var k :| k in Keys(s.open[p].cursor) && k in Keys(s.open[q].cursor);
    assert k in s.open[p].waiting && k in s.open[q].waiting;
  }

  lemma StepFindsDiffer(s: State, e: Event)
    requires Possible(s, e) && Sound(s) && FindsDiffer(s)
    ensures FindsDiffer(Step(s, e))
  {
  }

  lemma StepOpenSharesEarly(s: State, e: Event)
    requires Possible(s, e) && Sound(s) && OpenSharesEarly(s)
    ensures OpenSharesEarly(Step(s, e))
  {
    var s' := Step(s, e);
    forall p, q | p in s'.done && q in s'.open && !(s'.done[p].keys !! Keys(s'.open[q].cursor))
      ensures s'.open[q].found < s'.done[p].marked && s'.open[q].user == s'.done[p].user
    {
      if e.Find? && q == e.p {
        FindSharesNothing(s, e, p);
      } else if e.Mark? && p == e.p {
        OpenShareUser(s, p, q);
      }
    }
  }

  lemma MarkDoneOverlap(s: State, e: Event)
    requires Possible(s, e) && Sound(s) && FindsDiffer(s) && OpenSharesEarly(s) && DoneOverlap(s) && e.Mark?
    ensures DoneOverlap(Step(s, e))
  {
    var done, d := Step(s, e).done, Step(s, e).done[e.p];
    assert done == s.done[e.p := d];
    forall q | q in s.done && q != e.p && !(s.done[q].keys !! d.keys)
      ensures FallsInto(d, s.done[q]) || FallsInto(s.done[q], d)
    {
      MarkOverlaps(s, e, q);
    }
  }

  lemma StepDoneOverlap(s: State, e: Event)
    requires Possible(s, e) && Sound(s) && FindsDiffer(s) && OpenSharesEarly(s) && DoneOverlap(s)
    ensures DoneOverlap(Step(s, e))
  {
    var s' := Step(s, e);
    if e.Mark? {
      MarkDoneOverlap(s, e);
    } else {
      assert s'.done == s.done;
    }
  }

  lemma {:induction false} RunOverlap(evs: seq<Event>)
    requires ValidRun(evs)
    ensures FindsDiffer(After(evs)) && OpenSharesEarly(After(evs)) && DoneOverlap(After(evs))
  {
    if evs != [] {
      var n := |evs| - 1;
      var s := After(evs[..n]);
      RunOverlap(evs[..n]);
      RunSound(evs[..n]);
      StepFindsDiffer(s, evs[n]);
      StepOpenSharesEarly(s, evs[n]);
      StepDoneOverlap(s, evs[n]);
    }
  }

  /** Main result: two pulls return the same message only if the find of one falls between the commands of the other. */
  lemma ReturnedTwiceMeansOverlap(evs: seq<Event>, p: PullId, q: PullId, k: Key)
    requires ValidRun(evs) && p in After(evs).done && q in After(evs).done && p != q
    requires k in After(evs).done[p].keys && k in After(evs).done[q].keys
    ensures var a, b := After(evs).done[p], After(evs).done[q]; FallsInto(a, b) || FallsInto(b, a)
  {
    RunOverlap(evs);
  }

  // ---- one pull per user at a time ----------------------------------------------------------

  /** No pull finds for a user while another pull of that user is open. */
  ghost predicate NoOverlap(evs: seq<Event>)
    requires ValidRun(evs)
  {
    evs == [] ||
    (var n := |evs| - 1;
     NoOverlap(evs[..n]) && (evs[n].Find? ==> !PullOpen(After(evs[..n]), evs[n].user)))
  }

  ghost predicate PullOpen(s: State, user: UserId) {
    exists p :: p in s.open && s.open[p].user == user
  }

  /** The pulls of one user ran one after the other, and the open one, if any, is the last. */
  ghost predicate OneByOne(s: State) {
    && (forall p, q :: p in s.open && q in s.open && p != q ==> s.open[p].user != s.open[q].user)
    && (forall p, q :: p in s.open && q in s.done && s.open[p].user == s.done[q].user ==> s.done[q].marked < s.open[p].found)
    && (forall p, q :: p in s.done && q in s.done ==> !FallsInto(s.done[p], s.done[q]))
  }

  lemma StepOneByOne(s: State, e: Event)
    requires Possible(s, e) && Sound(s) && OneByOne(s) && (e.Find? ==> !PullOpen(s, e.user))
    ensures OneByOne(Step(s, e))
  {
  }

  lemma {:induction false} RunOneByOne(evs: seq<Event>)
    requires ValidRun(evs) && NoOverlap(evs)
    ensures OneByOne(After(evs))
  {
    if evs != [] {
      var n := |evs| - 1;
      RunOneByOne(evs[..n]);
      RunSound(evs[..n]);
      StepOneByOne(After(evs[..n]), evs[n]);
    }
  }

  /** Main result: while no two pulls of a user overlap, no message is returned twice. */
  lemma ReturnedOnce(evs: seq<Event>, p: PullId, q: PullId)
    requires ValidRun(evs) && NoOverlap(evs) && p in After(evs).done && q in After(evs).done && p != q
    ensures After(evs).done[p].keys !! After(evs).done[q].keys
  {
    RunOneByOne(evs);
    RunOverlap(evs);
  }

  /** And an overlap can do it: any message, read by two pulls before either marks it, is returned by both. */
  lemma OverlapRepeats(user: UserId, k: Key, d: Doc)
    requires d.to == Some(user) && !d.delivered
    ensures exists evs, p, q :: ValidRun(evs) && p in After(evs).done && q in After(evs).done && p != q
                                && k in After(evs).done[p].keys && k in After(evs).done[q].keys
  {
    var s1 := Runs([], Save(k, d));
    assert Undelivered(s1.docs, user) == {k};
    var evs1 := [Save(k, d)];
    var s2 := Runs(evs1, Find(1, user, [k]));
    var evs2 := evs1 + [Find(1, user, [k])];
    var s3 := Runs(evs2, Find(2, user, [k]));
    var evs3 := evs2 + [Find(2, user, [k])];
    var s4 := Runs(evs3, Mark(1));
    var evs4 := evs3 + [Mark(1)];
    var s5 := Runs(evs4, Mark(2));
    assert k in s5.done[1].keys && k in s5.done[2].keys;
  }

  lemma Runs(evs: seq<Event>, e: Event) returns (s': State)
    requires ValidRun(evs) && Possible(After(evs), e)
    ensures ValidRun(evs + [e]) && After(evs + [e]) == s' == Step(After(evs), e)
  {
    assert (evs + [e])[..|evs|] == evs;
    s' := Step(After(evs), e);
  }

  // ---- marked without being returned ---------------------------------------------------------

  /** The update of this pull would mark a document that its find did not read. */
  ghost predicate MarksUnreturned(s: State, p: PullId)
    requires p in s.open
  {
    exists k :: k in Marks(s, p) && k !in s.open[p].cursor
  }

  /** Something undelivered for the user came after the find. */
  ghost predicate CameLate(s: State, o: Open) {
    exists k :: k in Undelivered(s.docs, o.user) && k in s.saved && s.saved[k] >= o.found
  }

  lemma ReadAllIff(o: Open, s: State)
    requires OpenSound(s, o)
    ensures Keys(o.cursor) == o.waiting <==> |o.waiting| <= 200
  {
    if |o.waiting| <= 200 {
      SubsetSameSize(Keys(o.cursor), o.waiting);
    }
  }

  /** Main result: in any interleaving, it came after the find or more than 200 were waiting. */
  lemma UnreturnedIsLateOrMany(evs: seq<Event>, p: PullId, k: Key)
    requires ValidRun(evs) && p in After(evs).open && k in Marks(After(evs), p) && k !in After(evs).open[p].cursor
    ensures var s := After(evs); k in s.saved && (s.saved[k] >= s.open[p].found || |s.open[p].waiting| > 200)
  {
    var s := After(evs);
    var o := s.open[p];
    RunSound(evs);
    ReadAllIff(o, s);
    assert s.saved[k] < o.found ==> k in o.waiting;
  }

  /** While pulls of a user do not overlap, what was waiting at the find is still undelivered at the update. */
  ghost predicate StillWaiting(s: State) {
    forall p :: p in s.open ==> s.open[p].waiting <= Undelivered(s.docs, s.open[p].user)
  }

  lemma OthersStayUndelivered(s: State, e: Event, user: UserId, k: Key)
    requires Possible(s, e) && k in Undelivered(s.docs, user)
    requires e.Mark? || e.MarkFails? ==> s.open[e.p].user != user
    ensures k in Undelivered(Step(s, e).docs, user)
  {
  }

  lemma SameOpen(s: State, e: Event, p: PullId)
    requires Possible(s, e) && OneByOne(s) && p in s.open && p in Step(s, e).open
    ensures Step(s, e).open[p] == s.open[p] && (e.Mark? || e.MarkFails? ==> s.open[e.p].user != s.open[p].user)
  {
  }

  lemma StepStillWaiting(s: State, e: Event)
    requires Possible(s, e) && OneByOne(s) && StillWaiting(s)
    ensures StillWaiting(Step(s, e))
  {
    var s' := Step(s, e);
    forall p, k | p in s'.open && k in s'.open[p].waiting
      ensures k in Undelivered(s'.docs, s'.open[p].user)
    {
      if p in s.open {
        SameOpen(s, e, p);
        OthersStayUndelivered(s, e, s.open[p].user, k);
      }
    }
  }

  lemma {:induction false} RunStillWaiting(evs: seq<Event>)
    requires ValidRun(evs) && NoOverlap(evs)
    ensures StillWaiting(After(evs))
  {
    if evs != [] {
      var n := |evs| - 1;
      RunStillWaiting(evs[..n]);
      RunOneByOne(evs[..n]);
      StepStillWaiting(After(evs[..n]), evs[n]);
    }
  }

  lemma ManyGoUnreturned(s: State, p: PullId)
    requires Sound(s) && StillWaiting(s) && p in s.open && |s.open[p].waiting| > 200
    ensures MarksUnreturned(s, p)
  {
    var o := s.open[p];
    ReadAllIff(o, s);
    var k :| k in o.waiting && k !in Keys(o.cursor);
    assert k in Marks(s, p);
  }

  lemma LateGoesUnreturned(s: State, p: PullId)
    requires Sound(s) && p in s.open && s.open[p].waiting != {} && CameLate(s, s.open[p])
    ensures MarksUnreturned(s, p)
  {
    var o := s.open[p];
    var k :| k in Undelivered(s.docs, o.user) && k in s.saved && s.saved[k] >= o.found;
    assert k in Marks(s, p) && k !in Keys(o.cursor);
  }

  /**
    Main result: while no two pulls of a user overlap, a pull that completes now marks a message it
    does not return exactly when more than 200 were waiting at its find, or some were and another
    came since.
   */
  lemma MarksUnreturnedIff(evs: seq<Event>, p: PullId)
    requires ValidRun(evs) && NoOverlap(evs) && p in After(evs).open
    ensures var s := After(evs);
            MarksUnreturned(s, p) <==>
              |s.open[p].waiting| > 200 || (s.open[p].waiting != {} && CameLate(s, s.open[p]))
  {
    var s := After(evs);
    var o := s.open[p];
    RunSound(evs);
    RunStillWaiting(evs);
    if MarksUnreturned(s, p) {
      var k :| k in Marks(s, p) && k !in o.cursor;
      UnreturnedIsLateOrMany(evs, p, k);
      assert o.cursor[0] in Keys(o.cursor);
    }
    if |o.waiting| > 200 {
      ManyGoUnreturned(s, p);
    }
    if o.waiting != {} && CameLate(s, o) {
      LateGoesUnreturned(s, p);
    }
  }
}
