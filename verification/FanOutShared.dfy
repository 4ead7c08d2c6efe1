/**
 Why every fan-out has a semaphore of its own. With one semaphore for all levels a child that waits
 for its own children still holds its permit, and the tree can deadlock, whatever the number of permits.
 */
module FanOutShared {
  import opened Options
  import opened Storage
  import opened Workflows
  import opened Keys
  import opened Protocol
  import opened FanOut
  import opened FanOutProgress

  /** Permits held by a node and below it. */
  function HeldBy(x: Node): nat { Permit(x) + if x.Busy? then AllHolders(x.nodes) else 0 }

  /** Permits held anywhere in the tree. */
  function AllHolders(nodes: seq<Node>): nat {
    if |nodes| == 0 then 0
    else
      assert nodes[|nodes| - 1] in nodes;
      AllHolders(nodes[..|nodes| - 1]) + HeldBy(nodes[|nodes| - 1])
  }

  lemma {:induction false} AllHoldersUpdate(nodes: seq<Node>, n: nat, x: Node)
    requires n < |nodes|
    ensures AllHolders(nodes[n := x]) == AllHolders(nodes) - HeldBy(nodes[n]) + HeldBy(x)
    ensures HeldBy(nodes[n]) <= AllHolders(nodes)
    decreases |nodes|
  {
    var last := |nodes| - 1;
    if n < last {
      AllHoldersUpdate(nodes[..last], n, x);
      assert nodes[n := x][..last] == nodes[..last][n := x];
    } else {
      assert nodes[n := x][..last] == nodes[..last];
    }
  }

  lemma {:induction false} IdlesHoldNothing(n: nat)
    ensures AllHolders(Idles(n)) == 0
  {
    if n > 0 {
      IdlesHoldNothing(n - 1);
      assert Idles(n)[..n - 1] == Idles(n - 1);
    }
  }

  // ---- One semaphore for the whole tree --------------------------------------------------------

  /** Some node, at whatever depth, takes a permit. */
  predicate Acquires(c: Choice) { c.Acquire? || (c.Inside? && Acquires(c.choice)) }

  /** As with a semaphore for each fan-out, but every permit is also one of `permits` for the whole tree. */
  ghost predicate SharedCanStep(permits: nat, c: Config, i: Id, op: Op, n: nat, choice: Choice)
    requires op.FanOut?
  {
    CanStepInside(c.book.steps, i, op, c.nodes, n, choice) && (Acquires(choice) ==> AllHolders(c.nodes) < permits)
  }

  /** A run in which only children move. */
  ghost function SharedPlay(permits: nat, i: Id, op: Op, c: Config, events: seq<Event>): Option<Config>
    requires op.FanOut?
  {
    if |events| == 0 then Some(c)
    else
      var before := SharedPlay(permits, i, op, c, events[..|events| - 1]);
      var e := events[|events| - 1];
      if before.Some? && e.Moves? && SharedCanStep(permits, before.value, i, op, e.n, e.choice)
      then Some(Happen(i, op, before.value, e)) else None
  }

  /** No child at any depth can make a step that is not a panic, and the fan-out cannot end. */
  ghost predicate Deadlocked(permits: nat, c: Config, i: Id, op: Op)
    requires op.FanOut?
  {
    && (forall n: nat, choice :: Regular(choice) ==> !SharedCanStep(permits, c, i, op, n, choice))
    && !CanCollect(op, c.nodes) && forall n :: 0 <= n < |c.nodes| ==> !Breaks(op, c.nodes[n])
  }

  // ---- The deadlock ----------------------------------------------------------------------------

  /** The workflow begins with a fan-out that has items and is not journaled yet. */
  ghost predicate FansOutFirst(j: Steps, i: Id, wf: Workflow) {
    var op := wf([]);
    op.FanOut? && |op.kids| > 0 && LegalOp(op) && !IsCompleted(j, Ref(i, FanOutKey(op.key)))
  }

  ghost predicate KidsFanOutFirst(j: Steps, i: Id, op: Op)
    requires op.FanOut?
  {
    forall n :: 0 <= n < |op.kids| ==> FansOutFirst(j, Child(i, op.key, n), op.kids[n])
  }

  ghost function Waiter(wf: Workflow): Node {
    Busy(InFanOut([]), if wf([]).FanOut? then Idles(|wf([]).kids|) else [])
  }

  /** The first `m` children wait in a fan-out of their own, the others for a permit. */
  ghost function Waiters(op: Op, m: nat): (nodes: seq<Node>)
    requires op.FanOut? && m <= |op.kids|
    ensures |nodes| == |op.kids|
    ensures forall n :: 0 <= n < |nodes| ==> nodes[n] == if n < m then Waiter(op.kids[n]) else Idle
  {
    seq(|op.kids|, n requires 0 <= n < |op.kids| => if n < m then Waiter(op.kids[n]) else Idle)
  }

  lemma {:induction false} WaitersHold(op: Op, m: nat)
    requires op.FanOut? && m <= |op.kids|
    ensures Holders(Waiters(op, m)) == m && AllHolders(Waiters(op, m)) == m
  {
    if m == 0 {
      assert Waiters(op, 0) == Idles(|op.kids|);
      IdlesHoldNothing(|op.kids|);
      NobodyHolds(Idles(|op.kids|));
    } else {
      var x := Waiter(op.kids[m - 1]);
      WaitersHold(op, m - 1);
      assert Waiters(op, m) == Waiters(op, m - 1)[m - 1 := x];
      HoldersUpdate(Waiters(op, m - 1), m - 1, x);
      AllHoldersUpdate(Waiters(op, m - 1), m - 1, x);
      IdlesHoldNothing(if op.kids[m - 1]([]).FanOut? then |op.kids[m - 1]([]).kids| else 0);
    }
  }

  lemma PlayNext(permits: nat, i: Id, op: Op, c0: Config, events: seq<Event>, c: Config, n: nat, choice: Choice)
    requires op.FanOut? && SharedPlay(permits, i, op, c0, events) == Some(c)
    requires SharedCanStep(permits, c, i, op, n, choice)
    ensures SharedPlay(permits, i, op, c0, events + [Moves(n, choice)]) == Some(Happen(i, op, c, Moves(n, choice)))
  {
    assert (events + [Moves(n, choice)])[..|events|] == events;
  }

  /** Child `m` gets a permit. */
  lemma KidEnters(permits: nat, i: Id, op: Op, c0: Config, events: seq<Event>, c: Config, m: nat)
    returns (more: seq<Event>, c': Config)
    requires op.FanOut? && m < permits <= |op.kids| && permits <= Limit(op)
    requires SharedPlay(permits, i, op, c0, events) == Some(c) && c.nodes == Waiters(op, m)
    ensures SharedPlay(permits, i, op, c0, more) == Some(c') && c'.book.steps == c.book.steps
    ensures c'.nodes == Waiters(op, m)[m := Entered]
  {
    WaitersHold(op, m);
    PlayNext(permits, i, op, c0, events, c, m, Acquire);
    more, c' := events + [Moves(m, Acquire)], Happen(i, op, c, Moves(m, Acquire));
  }

  /** It starts. */
  lemma KidStarts(permits: nat, i: Id, op: Op, c0: Config, events: seq<Event>, c: Config, m: nat)
    returns (more: seq<Event>, c': Config)
    requires op.FanOut? && m < |op.kids|
    requires SharedPlay(permits, i, op, c0, events) == Some(c) && c.nodes == Waiters(op, m)[m := Entered]
    ensures SharedPlay(permits, i, op, c0, more) == Some(c') && c'.book.steps == c.book.steps
    ensures c'.nodes == Waiters(op, m)[m := Busy(At([]), [])]
  {
    PlayNext(permits, i, op, c0, events, c, m, Enter);
    more, c' := events + [Moves(m, Enter)], Happen(i, op, c, Moves(m, Enter));
  }

  /** It comes to its own fan-out. */
  lemma KidWaits(permits: nat, i: Id, op: Op, c0: Config, events: seq<Event>, c: Config, m: nat)
    returns (more: seq<Event>, c': Config)
    requires op.FanOut? && m < |op.kids| && FansOutFirst(c.book.steps, Child(i, op.key, m), op.kids[m])
    requires SharedPlay(permits, i, op, c0, events) == Some(c) && c.nodes == Waiters(op, m)[m := Busy(At([]), [])]
    ensures SharedPlay(permits, i, op, c0, more) == Some(c')
    ensures c'.nodes == Waiters(op, m + 1) && c'.book.steps == c.book.steps
  {
    assert c.nodes[m] == Busy(At([]), []);
    PlayNext(permits, i, op, c0, events, c, m, Choice.Perform);
    more, c' := events + [Moves(m, Choice.Perform)], Happen(i, op, c, Moves(m, Choice.Perform));
    assert c'.nodes[m] == Waiter(op.kids[m]);
    assert c'.nodes == Waiters(op, m + 1);
  }

  lemma {:induction false} AllWait(permits: nat, i: Id, op: Op, j: Steps, meta: Metas, m: nat)
    returns (events: seq<Event>, c: Config)
    requires op.FanOut? && m <= permits <= |op.kids| && permits <= Limit(op) && KidsFanOutFirst(j, i, op)
    ensures SharedPlay(permits, i, op, Fresh(j, meta, op), events) == Some(c) && c.nodes == Waiters(op, m)
    ensures c.book.steps == j
  {
    if m == 0 {
      events, c := [], Fresh(j, meta, op);
      assert Waiters(op, 0) == Idles(|op.kids|);
    } else {
      events, c := AllWait(permits, i, op, j, meta, m - 1);
      events, c := KidEnters(permits, i, op, Fresh(j, meta, op), events, c, m - 1);
      events, c := KidStarts(permits, i, op, Fresh(j, meta, op), events, c, m - 1);
      events, c := KidWaits(permits, i, op, Fresh(j, meta, op), events, c, m - 1);
    }
  }

  /** A child that waits for its own children can only let one of them take a permit. */
  lemma WaiterOnlyAcquires(j: Steps, i: Id, wf: Workflow, c: Choice)
    requires FansOutFirst(j, i, wf) && CanStep(j, i, wf, Waiter(wf), c) && Regular(c)
    ensures Acquires(c)
  {
    var inner := wf([]);
    var nodes := Idles(|inner.kids|);
    assert !nodes[0].Done?;
    if c.Inside? { assert CanStep(j, Child(i, inner.key, c.n), inner.kids[c.n], nodes[c.n], c.choice); }
  }

  /**
   With one semaphore of any number of permits for the whole tree, a fan-out over at least as many
   items whose children begin with fan-outs of their own can deadlock: a run leads to a state in which
   every permit is held by a child that waits for a permit.
   */
  lemma SharedSemaphoreDeadlocks(permits: nat, i: Id, op: Op, j: Steps, meta: Metas) returns (events: seq<Event>)
    requires op.FanOut? && 1 <= permits <= |op.kids| && permits <= Limit(op) && KidsFanOutFirst(j, i, op)
    ensures
      var end := SharedPlay(permits, i, op, Fresh(j, meta, op), events);
      end.Some? && Deadlocked(permits, end.value, i, op)
  {
    var c;
    events, c := AllWait(permits, i, op, j, meta, permits);
    WaitersHold(op, permits);
    forall n: nat, choice | Regular(choice) ensures !SharedCanStep(permits, c, i, op, n, choice) {
      if CanStepInside(c.book.steps, i, op, c.nodes, n, choice) && n < permits {
        WaiterOnlyAcquires(c.book.steps, Child(i, op.key, n), op.kids[n], choice);
      }
    }
    assert !c.nodes[0].Done?;
  }
}
