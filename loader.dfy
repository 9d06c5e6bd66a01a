/**
 * The tunnel game's asset loader (tunneltilt/loader.js): a list of pending
 * requests, each told its position when it is pushed, and a `remove` that
 * overwrites the removed slot with the last entry and pops.
 *
 * A request is a value here: what the list holds of it is its kind, its URL
 * and its `index` property. The XMLHttpRequest and Image objects, `start` and
 * the callbacks are I/O and are not part of this model. JavaScript arrays are
 * sparse: writing past the end leaves holes, which are `Hole` slots.
 */
module Loader {

  datatype Kind = Text | Picture

  datatype Slot = Hole | Request(kind: Kind, url: string, index: nat)

  /** The argument of `remove`: an object with a numeric `index`, or one without (`None`). */
  datatype Option<T> = None | Some(value: T)

  /** `n` holes: the slots a write past the end of an array leaves between the old end and the write. */
  function Holes(n: nat): (h: seq<Slot>)
    ensures |h| == n && forall j :: 0 <= j < n ==> h[j] == Hole
  {
    seq(n, _ => Hole)
  }

  /**
   * The pending list after `remove(obj)`. With more than one entry, the slot
   * `obj.index` receives the last entry: inside the list that overwrites it; at
   * or past the end it extends the list with holes; without an `index` the
   * write lands on a property named "undefined", which is not an element.
   * Then the last element is popped, if there is one.
   */
  function Removed(pending: seq<Slot>, key: Option<nat>): (r: seq<Slot>)
  {
    var written :=
      if |pending| > 1 then
        match key
        case None => pending
        case Some(i) =>
          if i < |pending| then pending[i := pending[|pending| - 1]]
          else pending + Holes(i - |pending|) + [pending[|pending| - 1]]
      else pending;
    if |written| > 0 then written[..|written| - 1] else written
  }

  /** Every request sits at the position its `index` names. */
  ghost predicate Indexed(pending: seq<Slot>)
  {
    forall j :: 0 <= j < |pending| ==> pending[j].Request? && pending[j].index == j
  }

  class Loader {
    var pending: seq<Slot>

    /** `new Loader()`: nothing pending. */
    constructor ()
      ensures pending == []
      ensures Loaded()
    {
      pending := [];
    }

    /** `loaded()`: true exactly when nothing is pending. */
    predicate Loaded()
      reads this
      ensures Loaded() <==> pending == []
    {
      !(|pending| > 0)
    }

    /** `load` and `loadImage`: a new request whose `index` is the old length, appended. */
    method Load(kind: Kind, url: string)
      modifies this
      ensures pending == old(pending) + [Request(kind, url, |old(pending)|)]
      ensures !Loaded()
    {
      var obj := Request(kind, url, |pending|);
      pending := pending + [obj];
    }

    /** `remove(obj)`, step by step as the source writes it. */
    method Remove(key: Option<nat>)
      modifies this
      ensures pending == Removed(old(pending), key)
    {
      if |pending| > 1 {
        match key {
          case None =>
          case Some(i) =>
            if i < |pending| {
              pending := pending[i := pending[|pending| - 1]];
            } else {
              pending := pending + Holes(i - |pending|) + [pending[|pending| - 1]];
            }
        }
      }
      if |pending| > 0 {
        pending := pending[..|pending| - 1];
      }
    }
  }

  /** Loading keeps every request at the position its `index` names. */
  lemma LoadKeepsIndexed(pending: seq<Slot>, kind: Kind, url: string)
    requires Indexed(pending)
    ensures Indexed(pending + [Request(kind, url, |pending|)])
  {
  }

  /** An empty list stays empty, whatever is removed. */
  lemma RemoveFromEmpty(key: Option<nat>)
    ensures Removed([], key) == []
  {
  }

  /** A removal with an index inside the list, or without one, shrinks a non-empty list by exactly one. */
  lemma RemoveShrinksByOne(pending: seq<Slot>, key: Option<nat>)
    requires |pending| > 0
    requires key.Some? ==> key.value < |pending|
    ensures |Removed(pending, key)| == |pending| - 1
  {
  }

  /**
   * With an index inside the list, the last entry moves into that slot and every
   * other slot keeps its entry: the list loses exactly the removed entry.
   */
  lemma RemoveSwapsLast(pending: seq<Slot>, i: nat)
    requires 1 < |pending| && i < |pending| - 1
    ensures Removed(pending, Some(i))[i] == pending[|pending| - 1]
    ensures forall j :: 0 <= j < |pending| - 1 && j != i ==> Removed(pending, Some(i))[j] == pending[j]
    ensures multiset(Removed(pending, Some(i))) == multiset(pending) - multiset{pending[i]}
  {
    var r := Removed(pending, Some(i));
    var last := |pending| - 1;
    assert pending == pending[..last] + [pending[last]];
    assert pending[..last] == pending[..i] + [pending[i]] + pending[i + 1..last];
    assert r == pending[..i] + [pending[last]] + pending[i + 1..last];
  }

  /**
   * The moved entry keeps its old `index`: in an indexed list, removing any slot
   * but the last leaves an entry whose `index` points past the end of the list.
   */
  lemma RemoveLeavesStaleIndex(pending: seq<Slot>, i: nat)
    requires Indexed(pending) && 1 < |pending| && i < |pending| - 1
    ensures Removed(pending, Some(i))[i].index == |Removed(pending, Some(i))|
    ensures !Indexed(Removed(pending, Some(i)))
  {
    RemoveSwapsLast(pending, i);
    RemoveShrinksByOne(pending, Some(i));
  }

  /** A stale index equal to the length removes nothing: the last entry is written past the end and popped again. */
  lemma RemoveAtLengthKeeps(pending: seq<Slot>)
    requires |pending| > 1
    ensures Removed(pending, Some(|pending|)) == pending
  {
  }

  /**
   * The callers pass the XMLHttpRequest or the Image, which has no `index`: each
   * completion pops the newest entry, whichever request finished, and an
   * indexed list stays indexed.
   */
  lemma RemoveWithoutIndexPops(pending: seq<Slot>)
    requires |pending| > 0
    ensures Removed(pending, None) == pending[..|pending| - 1]
    ensures Indexed(pending) ==> Indexed(Removed(pending, None))
  {
  }

  /** The list after `k` completions reported the way the callers report them. */
  function Completed(pending: seq<Slot>, k: nat): seq<Slot>
  {
    if k == 0 then pending else Removed(Completed(pending, k - 1), None)
  }

  /**
   * Every completion removes one entry, so once as many requests have completed
   * as were pending the loader reports everything loaded.
   */
  lemma {:induction false} CompletedLength(pending: seq<Slot>, k: nat)
    ensures |Completed(pending, k)| == if k <= |pending| then |pending| - k else 0
    ensures k >= |pending| ==> Completed(pending, k) == []
  {
    if k > 0 {
      CompletedLength(pending, k - 1);
    }
  }
}
