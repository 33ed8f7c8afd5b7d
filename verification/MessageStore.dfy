/** The message collection of internal/storage/mango.go, with the delivered flag of private messages. */
module MessageStore {
  import opened Basics

  /** The `_id` of a document: time, sender, recipient and four random digits, so it may collide. */
  type Key = string

  datatype Doc = Doc(msg: MsgId, from: UserId, src: ConnId, to: Option<UserId>, delivered: bool)

  const PULL_LIMIT: nat := 200

  /** What the database answers to one pull. `cursor` lists the keys it returns; no sort is asked for. */
  datatype PullOutcome =
    | FindFailed
    | MarkFailed(cursor: seq<Key>, marked: set<Key>)
    | Pulled(cursor: seq<Key>)

  function Undelivered(docs: map<Key, Doc>, user: UserId): set<Key> {
    set k | k in docs && docs[k].to == Some(user) && !docs[k].delivered
  }

  /** Any min(200, n) of the n matching documents, each once. */
  ghost predicate CursorPossible(docs: map<Key, Doc>, user: UserId, cursor: seq<Key>) {
    var n := |Undelivered(docs, user)|;
    && |cursor| == (if n < PULL_LIMIT then n else PULL_LIMIT)
    && (forall i :: 0 <= i < |cursor| ==> cursor[i] in Undelivered(docs, user))
    && (forall i, j :: 0 <= i < j < |cursor| ==> cursor[i] != cursor[j])
  }

  ghost predicate PullPossible(docs: map<Key, Doc>, user: UserId, o: PullOutcome) {
    match o
    case FindFailed => true
    case MarkFailed(cursor, marked) =>
      CursorPossible(docs, user, cursor) && cursor != [] && marked <= Undelivered(docs, user)
    case Pulled(cursor) => CursorPossible(docs, user, cursor)
  }

  function MarkDelivered(docs: map<Key, Doc>, ks: set<Key>): map<Key, Doc> {
    map k | k in docs :: if k in ks then docs[k].(delivered := true) else docs[k]
  }

  /** The collection after a pull: UpdateMany uses the filter again, so it marks past the limit too. */
  function AfterPull(docs: map<Key, Doc>, user: UserId, o: PullOutcome): map<Key, Doc> {
    match o
    case FindFailed => docs
    case MarkFailed(_, marked) => MarkDelivered(docs, marked)
    case Pulled(_) => MarkDelivered(docs, Undelivered(docs, user))
  }

  function DocsAt(docs: map<Key, Doc>, cursor: seq<Key>): seq<Doc>
    requires forall i :: 0 <= i < |cursor| ==> cursor[i] in docs
  {
    seq(|cursor|, i requires 0 <= i < |cursor| => docs[cursor[i]])
  }

  /** The slice the pull returns; `None` is an error, after which nothing is pushed. */
  function Returned(docs: map<Key, Doc>, user: UserId, o: PullOutcome): Option<seq<Doc>>
    requires PullPossible(docs, user, o)
  {
    match o
    case Pulled(cursor) => Some(DocsAt(docs, cursor))
    case _ => None
  }

  /** A successful pull of up to 200 documents leaves the user none, and returns every one of them. */
  lemma SmallPullTakesAll(docs: map<Key, Doc>, user: UserId, cursor: seq<Key>)
    requires CursorPossible(docs, user, cursor)
    ensures Undelivered(AfterPull(docs, user, Pulled(cursor)), user) == {}
    ensures |Undelivered(docs, user)| <= PULL_LIMIT <==> (set k | k in cursor) == Undelivered(docs, user)
  {
    var keys := set k | k in cursor;
    DistinctSize(cursor);
    if |keys| == |Undelivered(docs, user)| {
      SubsetSameSize(keys, Undelivered(docs, user));
    }
  }

  lemma {:induction false} DistinctSize<T>(xs: seq<T>)
    requires forall i, j :: 0 <= i < j < |xs| ==> xs[i] != xs[j]
    ensures |set x | x in xs| == |xs|
  {
    if xs != [] {
      var n := |xs| - 1;
      DistinctSize(xs[..n]);
      assert xs == xs[..n] + [xs[n]];
      assert xs[n] !in xs[..n];
      assert (set x | x in xs) == (set x | x in xs[..n]) + {xs[n]};
    }
  }

  lemma SubsetSameSize<T>(a: set<T>, b: set<T>)
    requires a <= b && |a| == |b|
    ensures a == b
  {
    assert |b - a| == |b| - |a|;
  }

  ghost predicate Share(a: seq<Key>, b: seq<Key>) {
    exists k :: k in a && k in b
  }

  /** Whatever two pulls find in one state, they find some document both. */
  ghost predicate MustShare(docs: map<Key, Doc>, user: UserId) {
    forall a, b :: CursorPossible(docs, user, a) && CursorPossible(docs, user, b) ==> Share(a, b)
  }

  lemma {:induction false} Listing(s: set<Key>) returns (xs: seq<Key>)
    ensures Enumerates(xs, s) && |xs| == |s|
    decreases s
  {
    if s == {} {
      xs := [];
    } else {
      var x :| x in s;
      var rest := Listing(s - {x});
      xs := rest + [x];
    }
  }

  /** Two cursors of a small collection do not fit beside each other. */
  lemma SmallPullsShare(docs: map<Key, Doc>, user: UserId, a: seq<Key>, b: seq<Key>)
    requires CursorPossible(docs, user, a) && CursorPossible(docs, user, b)
    requires 0 < |Undelivered(docs, user)| < 400
    ensures Share(a, b)
  {
    var x, y := set k | k in a, set k | k in b;
    DistinctSize(a);
    DistinctSize(b);
    SubsetSize(x + y, Undelivered(docs, user));
    assert x !! y ==> |x + y| == |x| + |y|;
    var k :| k in x && k in y;
  }

  /** A large one has room for two cursors that do not meet. */
  lemma LargePullsMayMiss(docs: map<Key, Doc>, user: UserId) returns (a: seq<Key>, b: seq<Key>)
    requires |Undelivered(docs, user)| >= 400
    ensures CursorPossible(docs, user, a) && CursorPossible(docs, user, b) && !Share(a, b)
  {
    var all := Listing(Undelivered(docs, user));
    a, b := all[..200], all[200..400];
    forall k | k in a
      ensures k !in b
    {
      var i :| 0 <= i < 200 && all[i] == k;
    }
  }

  /**
    Main result: two pulls that both find before either marks are bound to return some document
    twice exactly when between 1 and 399 are waiting.
   */
  lemma InterleavedPullsRepeat(docs: map<Key, Doc>, user: UserId)
    ensures MustShare(docs, user) <==> 0 < |Undelivered(docs, user)| < 400
  {
    if |Undelivered(docs, user)| == 0 {
      assert CursorPossible(docs, user, []) && !Share([], []);
    } else if |Undelivered(docs, user)| < 400 {
      forall a, b | CursorPossible(docs, user, a) && CursorPossible(docs, user, b)
        ensures Share(a, b)
      {
        SmallPullsShare(docs, user, a, b);
      }
    } else {
      var a, b := LargePullsMayMiss(docs, user);
    }
  }

  /** The collection as an object. Whether the database obeys is the caller's parameter. */
  class MangoStore {
    var docs: map<Key, Doc>

    constructor ()
      ensures docs == map[]
    {
      docs := map[];
    }

    /** InsertOne: fails on a duplicate `_id` and whenever the database does. */
    method SaveMessage(key: Key, d: Doc, ok: bool) returns (saved: bool)
      modifies this
      ensures saved <==> ok && key !in old(docs)
      ensures docs == if saved then old(docs)[key := d] else old(docs)
    {
      saved := ok && key !in docs;
      if saved {
        docs := docs[key := d];
      }
    }

    /** Reads the cursor into a slice, then marks everything that matches the filter. */
    method PullUndeliveredForUser(user: UserId, o: PullOutcome) returns (msgs: Option<seq<Doc>>)
      requires PullPossible(docs, user, o)
      modifies this
      ensures docs == AfterPull(old(docs), user, o)
      ensures msgs == Returned(old(docs), user, o)
    {
      if o.FindFailed? {
        return None;
      }
      var cursor, read, i := o.cursor, [], 0;
      while i < |cursor|
        invariant 0 <= i <= |cursor|
        invariant read == DocsAt(docs, cursor)[..i]
      {
        read := read + [docs[cursor[i]]];
        i := i + 1;
      }
      assert read == DocsAt(docs, cursor);
      if |read| > 0 {
        if o.MarkFailed? {
          docs := MarkDelivered(docs, o.marked);
          return None;
        }
        docs := MarkDelivered(docs, Undelivered(docs, user));
      } else {
        assert Undelivered(docs, user) == {};
        assert MarkDelivered(docs, {}) == docs;
      }
      msgs := Some(read);
    }
  }
}
