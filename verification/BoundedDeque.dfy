/** A queue that evicts from the front until it fits, as the transcript store and the log ring both do. */
module BoundedDeque {
  import opened Wrappers

  function SaturatingSub(a: nat, b: nat): nat {
    if a < b then 0 else a - b
  }

  function Total<T>(items: seq<T>, cost: T -> nat): nat {
    if items == [] then 0 else cost(items[0]) + Total(items[1..], cost)
  }

  /** Optional cap on the number of items, and a cap on their total cost. */
  datatype Caps = Caps(items: Option<nat>, bytes: nat)

  predicate Fits<T>(items: seq<T>, cost: T -> nat, caps: Caps) {
    (caps.items.Some? ==> |items| <= caps.items.value) && Total(items, cost) <= caps.bytes
  }

  /** What is left after evicting from the front until the rest fits. */
  function Kept<T>(items: seq<T>, cost: T -> nat, caps: Caps): (kept: seq<T>) {
    if Fits(items, cost, caps) then items else Kept(items[1..], cost, caps)
  }

  lemma {:induction false} KeptIsSuffix<T>(items: seq<T>, cost: T -> nat, caps: Caps)
    ensures var kept := Kept(items, cost, caps);
      |kept| <= |items| && kept == items[|items| - |kept|..] && Fits(kept, cost, caps)
  {
    if !Fits(items, cost, caps) {
      KeptIsSuffix(items[1..], cost, caps);
    }
  }

  lemma {:induction false} TotalOfConcat<T>(a: seq<T>, b: seq<T>, cost: T -> nat)
    ensures Total(a + b, cost) == Total(a, cost) + Total(b, cost)
  {
    if a == [] {
      assert a + b == b;
    } else {
      assert (a + b)[1..] == a[1..] + b;
      TotalOfConcat(a[1..], b, cost);
    }
  }

  /** `Kept` is the longest suffix that fits. */
  lemma {:induction false} KeptIsLongest<T>(items: seq<T>, cost: T -> nat, caps: Caps, from: nat)
    requires from <= |items| && Fits(items[from..], cost, caps)
    ensures |Kept(items, cost, caps)| >= |items| - from
  {
    if from > 0 && !Fits(items, cost, caps) {
      assert items[1..][from - 1..] == items[from..];
      KeptIsLongest(items[1..], cost, caps, from - 1);
    }
  }

  /** Dropping a prefix that would be evicted anyway does not change what is kept in the end. */
  lemma {:induction false} KeptAfterKept<T>(a: seq<T>, b: seq<T>, cost: T -> nat, caps: Caps)
    ensures Kept(Kept(a, cost, caps) + b, cost, caps) == Kept(a + b, cost, caps)
  {
    if !Fits(a, cost, caps) {
      TotalOfConcat(a, b, cost);
      assert (a + b)[1..] == a[1..] + b;
      KeptAfterKept(a[1..], b, cost, caps);
    }
  }
}
