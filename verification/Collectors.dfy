/**
 Joining the children of a fan-out. Children finish in any order; the collectors put every result
 at the place of its item.
 */
module Collectors {
  import opened Options
  import opened Storage
  import opened Workflows
  import opened Keys
  import opened Protocol
  import opened FanOut

  datatype ChildResult = Succeeded(value: Value) | Failed(error: string)

  /** What joining the next finished task gives: its index and result, or that it panicked. */
  datatype Joined = Joined(idx: nat, result: ChildResult) | JoinError(message: string)

  datatype Collected<T> = All(values: T) | Error(message: string)

  /** One entry for each of `expected` tasks, in the order in which they finished. */
  ghost predicate JoinsEach(joined: seq<Joined>, expected: nat) {
    && |joined| == expected
    && (forall n :: 0 <= n < |joined| && joined[n].Joined? ==> joined[n].idx < expected)
    && (forall m, n :: 0 <= m < n < |joined| && joined[m].Joined? && joined[n].Joined? ==>
          joined[m].idx != joined[n].idx)
  }

  ghost predicate NonePanicked(joined: seq<Joined>) { forall n :: 0 <= n < |joined| ==> joined[n].Joined? }

  predicate Fails(j: Joined) { j.JoinError? || j.result.Failed? }

  function SlotFor(ids: seq<Id>, j: Joined): Slot
    requires j.Joined? && j.idx < |ids|
  {
    match j.result
    case Succeeded(v) => Won(v)
    case Failed(e) => Lost(ids[j.idx], e)
  }

  function FailureOf(j: Joined): string
    requires Fails(j)
  {
    if j.JoinError? then j.message else j.result.error
  }

  /** Joining this child ends the fan-out with an error. */
  predicate Stops(failFast: bool, j: Joined) { if failFast then Fails(j) else j.JoinError? }

  /** The child failed with `message`, or panicked with it. */
  ghost predicate Tells(j: Joined, message: string) {
    match j
    case Joined(_, result) => result == ChildResult.Failed(message)
    case JoinError(panic) => panic == message
  }

  /** `message` is the error of the first child, in the order of joining, that ends the fan-out. */
  ghost predicate GivesUpWith(joined: seq<Joined>, failFast: bool, message: string) {
    exists n :: 0 <= n < |joined| && Stops(failFast, joined[n]) && Tells(joined[n], message) &&
      forall m :: 0 <= m < n ==> !Stops(failFast, joined[m])
  }

  ghost function Indices(n: nat): (s: set<nat>)
    ensures |s| == n && forall m: nat :: m in s <==> m < n
  {
    if n == 0 then {} else Indices(n - 1) + {n - 1}
  }

  /** Counting argument: `n` different indices below `n` are all of them. */
  lemma {:induction false} AllSeen(joined: seq<Joined>, expected: nat, k: nat)
    requires JoinsEach(joined, expected) && NonePanicked(joined) && k < expected
    ensures exists n :: 0 <= n < |joined| && joined[n].idx == k
  {
    if forall n :: 0 <= n < |joined| ==> joined[n].idx != k {
      var seen := set n | 0 <= n < |joined| :: joined[n].idx;
      SizeSeen(joined, |joined|, seen);
      SubsetSize(seen, Indices(expected) - {k});
    }
  }

  lemma {:induction false} SizeSeen(joined: seq<Joined>, upto: nat, s: set<nat>)
    requires JoinsEach(joined, |joined|) && NonePanicked(joined) && upto <= |joined|
    requires s == set n | 0 <= n < upto :: joined[n].idx
    ensures |s| == upto
  {
    if upto > 0 {
      var rest := set n | 0 <= n < upto - 1 :: joined[n].idx;
      SizeSeen(joined, upto - 1, rest);
      assert s == rest + {joined[upto - 1].idx};
    }
  }

  lemma {:induction false} SubsetSize<T>(a: set<T>, b: set<T>)
    requires a <= b
    ensures |a| <= |b|
  {
    if a != {} {
      var x :| x in a;
      SubsetSize(a - {x}, b - {x});
    }
  }

  /** Every slot holds the outcome of its own child. */
  ghost predicate InItemOrder(joined: seq<Joined>, ids: seq<Id>, slots: seq<Slot>) {
    && |slots| == |ids|
    && forall n :: 0 <= n < |joined| && joined[n].Joined? && joined[n].idx < |ids| ==>
         slots[joined[n].idx] == SlotFor(ids, joined[n])
  }

  /** Collect-all: fills every slot whatever the order, or stops at the first panic. */
  method CollectAll(joined: seq<Joined>, expected: nat, ids: seq<Id>) returns (r: Collected<seq<Slot>>)
    requires JoinsEach(joined, expected) && |ids| == expected
    ensures r.All? <==> NonePanicked(joined)
    ensures r.All? ==> InItemOrder(joined, ids, r.values)
    ensures r.Error? ==> GivesUpWith(joined, false, r.message)
  {
    var indexed := new Option<Slot>[expected](_ => None);
    var next := 0;
    while next < |joined|
      invariant 0 <= next <= |joined|
      invariant forall m :: 0 <= m < next ==>
        joined[m].Joined? && indexed[joined[m].idx] == Some(SlotFor(ids, joined[m]))
    {
      var j := joined[next];
      if j.JoinError? { return Error(j.message); }
      indexed[j.idx] := Some(SlotFor(ids, j));
      next := next + 1;
    }
    forall k | 0 <= k < expected ensures indexed[k].Some? { AllSeen(joined, expected, k); }
    r := All(seq(expected, k requires 0 <= k < expected && indexed[k].Some? reads indexed => indexed[k].value));
  }

  /** Fail-fast: all values in item order, or the error of the first child to finish that failed. */
  method CollectFailFast(joined: seq<Joined>, expected: nat) returns (r: Collected<seq<Value>>)
    requires JoinsEach(joined, expected)
    ensures r.All? <==> forall n :: 0 <= n < |joined| ==> !Fails(joined[n])
    ensures r.All? ==> |r.values| == expected &&
                       forall n :: 0 <= n < |joined| ==> r.values[joined[n].idx] == joined[n].result.value
    ensures r.Error? ==> GivesUpWith(joined, true, r.message)
  {
    var indexed := new Option<Value>[expected](_ => None);
    var completed := 0;
    while completed < |joined|
      invariant 0 <= completed <= |joined|
      invariant forall m :: 0 <= m < completed ==>
        !Fails(joined[m]) && indexed[joined[m].idx] == Some(joined[m].result.value)
    {
      var j := joined[completed];
      if Fails(j) { return Error(FailureOf(j)); }
      indexed[j.idx] := Some(j.result.value);
      completed := completed + 1;
    }
    forall k | 0 <= k < expected ensures indexed[k].Some? { AllSeen(joined, expected, k); }
    r := All(seq(expected, k requires 0 <= k < expected && indexed[k].Some? reads indexed => indexed[k].value));
  }

  /** The order of completion does not matter: the same outcomes give the same vector. */
  lemma OrderIrrelevant(joined: seq<Joined>, joined2: seq<Joined>, ids: seq<Id>, slots: seq<Slot>, slots2: seq<Slot>)
    requires JoinsEach(joined, |ids|) && JoinsEach(joined2, |ids|) && NonePanicked(joined)
    requires multiset(joined) == multiset(joined2)
    requires InItemOrder(joined, ids, slots) && InItemOrder(joined2, ids, slots2)
    ensures slots == slots2
  {
    forall k | 0 <= k < |ids| ensures slots[k] == slots2[k] {
      AllSeen(joined, |ids|, k);
      var n :| 0 <= n < |joined| && joined[n].idx == k;
      assert joined[n] in multiset(joined2);
      var n2 :| 0 <= n2 < |joined2| && joined2[n2] == joined[n];
    }
  }

  /** What a finished child task returns to its joiner. */
  ghost function ResultOf(op: Op, n: nat, x: Node): ChildResult
    requires op.FanOut? && n < |op.kids| && x.Done?
  {
    var out := op.kids[n](x.h);
    if x.result.Success? && out.Return? then Succeeded(out.out) else ChildResult.Failed(ErrorOf(x.result))
  }

  /** The collector computes the result vector of the interleaving semantics, in whatever order it joins. */
  lemma CollectorFillsSlots(i: Id, op: Op, nodes: seq<Node>, joined: seq<Joined>, ids: seq<Id>, slots: seq<Slot>)
    requires op.FanOut? && |nodes| == |op.kids| && AllDone(nodes)
    requires |ids| == |nodes| && forall n :: 0 <= n < |nodes| ==> ids[n] == Child(i, op.key, n)
    requires JoinsEach(joined, |nodes|)
    requires forall m :: 0 <= m < |joined| ==>
      joined[m].Joined? && joined[m].result == ResultOf(op, joined[m].idx, nodes[joined[m].idx])
    requires InItemOrder(joined, ids, slots)
    ensures slots == SlotsOf(i, op, nodes)
  {
    forall k | 0 <= k < |nodes| ensures slots[k] == SlotsOf(i, op, nodes)[k] {
      AllSeen(joined, |nodes|, k);
      var m :| 0 <= m < |joined| && joined[m].idx == k;
      assert slots[joined[m].idx] == SlotFor(ids, joined[m]);
    }
  }
}
