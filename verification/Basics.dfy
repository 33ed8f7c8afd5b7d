/** Vocabulary shared by the modules of the project. */
module Basics {

  /** A Go value that may be nil or missing. */
  datatype Option<+T> = None | Some(value: T)

  type UserId = string
  type RoomId = string

  /** One WebSocket connection: its socket, its outgoing channel and its read loop. */
  type ConnId = nat

  /** Identity of one `send` or `private` frame, used to tell equal contents apart. */
  type MsgId = nat

  /** The elements of `s` in some order, each exactly once: how a Go `range` over a map visits it. */
  ghost predicate Enumerates<T(!new)>(order: seq<T>, s: set<T>) {
    && (forall x :: x in order <==> x in s)
    && (forall i, j :: 0 <= i < j < |order| ==> order[i] != order[j])
  }

  lemma {:induction false} SubsetSize<T>(a: set<T>, b: set<T>)
    requires a <= b
    ensures |a| <= |b|
    decreases b
  {
    if a == {} {
    } else {
      var x :| x in a;
      SubsetSize(a - {x}, b - {x});
    }
  }

  /** A number above all those in use. */
  lemma {:induction false} Above(used: set<nat>) returns (n: nat)
    ensures forall x :: x in used ==> x < n
    decreases used
  {
    if used == {} {
      n := 0;
    } else {
      var x :| x in used;
      var m := Above(used - {x});
      n := if m > x then m else x + 1;
      assert forall y :: y in used ==> y == x || y in used - {x};
    }
  }
}
