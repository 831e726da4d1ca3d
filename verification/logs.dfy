/**
 * Projections of the append-only logs the model keeps: the events the
 * `GDrive` emitter emits and the requests it issues to its collaborators.
 */
module Logs {
  import opened Wrappers

  /** The values `pick` extracts from the elements of `s`, in their order. */
  function Collect<T, U>(s: seq<T>, pick: T -> Option<U>): (r: seq<U>)
    ensures |r| <= |s|
  {
    if s == [] then [] else Picked(s[0], pick) + Collect(s[1..], pick)
  }

  /** What `pick` extracts from one element, as a sequence of length at most one. */
  function Picked<T, U>(x: T, pick: T -> Option<U>): (r: seq<U>)
    ensures |r| <= 1
  {
    if pick(x).Some? then [pick(x).value] else []
  }

  /** Collecting over a concatenation collects over each part. */
  lemma {:induction false} CollectAppend<T, U>(a: seq<T>, b: seq<T>, pick: T -> Option<U>)
    ensures Collect(a + b, pick) == Collect(a, pick) + Collect(b, pick)
  {
    if a == [] {
      assert a + b == b;
    } else {
      var rest := a[1..];
      assert (a + b)[0] == a[0];
      assert (a + b)[1..] == rest + b;
      CollectAppend(rest, b, pick);
      calc {
        Collect(a + b, pick);
        Picked(a[0], pick) + Collect(rest + b, pick);
        Picked(a[0], pick) + (Collect(rest, pick) + Collect(b, pick));
        (Picked(a[0], pick) + Collect(rest, pick)) + Collect(b, pick);
        Collect(a, pick) + Collect(b, pick);
      }
    }
  }

  /** Collecting over one more element adds what `pick` extracts from it. */
  lemma CollectSnoc<T, U>(s: seq<T>, x: T, pick: T -> Option<U>)
    ensures Collect(s + [x], pick) == Collect(s, pick) + Picked(x, pick)
  {
    CollectAppend(s, [x], pick);
    assert [x][1..] == [];
    assert Collect([x], pick) == Picked(x, pick) + Collect([], pick);
  }

  lemma ConcatAssoc<T>(a: seq<T>, b: seq<T>, c: seq<T>)
    ensures (a + b) + c == a + (b + c)
  {
  }

  /** Elements from which `pick` extracts nothing leave no trace. */
  lemma {:induction false} CollectNothing<T, U>(s: seq<T>, pick: T -> Option<U>)
    requires forall k :: 0 <= k < |s| ==> pick(s[k]).None?
    ensures Collect(s, pick) == []
  {
    if s != [] {
      assert pick(s[0]).None?;
      CollectNothing(s[1..], pick);
    }
  }
}
