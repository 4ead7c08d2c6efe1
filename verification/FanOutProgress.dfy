/**
 Bounded concurrency. No level of a fan-out tree holds more permits than its limit, the tree never
 gets stuck as long as every limit is at least 1, and every schedule of it is finite.
 */
module FanOutProgress {
  import opened Options
  import opened Storage
  import opened Workflows
  import opened Keys
  import opened Protocol
  import opened FanOut

  // ---- Permits --------------------------------------------------------------------------------

  function Permit(x: Node): nat { if HoldsPermit(x) then 1 else 0 }

  lemma {:induction false} HoldersUpdate(nodes: seq<Node>, n: nat, x: Node)
    requires n < |nodes|
    ensures Holders(nodes[n := x]) == Holders(nodes) - Permit(nodes[n]) + Permit(x)
    ensures Permit(nodes[n]) <= Holders(nodes)
  {
    var last := |nodes| - 1;
    if n < last {
      HoldersUpdate(nodes[..last], n, x);
      assert nodes[n := x][..last] == nodes[..last][n := x];
    } else {
      assert nodes[n := x][..last] == nodes[..last];
    }
  }

  lemma {:induction false} NobodyHolds(nodes: seq<Node>)
    requires forall n :: 0 <= n < |nodes| ==> !HoldsPermit(nodes[n])
    ensures Holders(nodes) == 0
  {
    if |nodes| > 0 { NobodyHolds(nodes[..|nodes| - 1]); }
  }

  /** At every level of the tree at most `Limit` children have a permit of that level's semaphore. */
  ghost predicate WithinLimits(wf: Workflow, x: Node)
    decreases x
  {
    x.Busy? && x.pc.InFanOut? ==>
      var op := wf(x.pc.h);
      op.FanOut? && ForestWithinLimits(op, x.nodes)
  }

  ghost predicate ForestWithinLimits(op: Op, nodes: seq<Node>)
    requires op.FanOut?
    decreases nodes
  {
    && |nodes| == |op.kids| && Holders(nodes) <= Limit(op)
    && forall n :: 0 <= n < |nodes| ==> WithinLimits(op.kids[n], nodes[n])
  }

  /** Whatever a child does, and at whatever depth, it stays within the limits. */
  lemma {:induction false} StepWithinLimits(j: Steps, i: Id, wf: Workflow, x: Node, c: Choice)
    requires WithinLimits(wf, x) && CanStep(j, i, wf, x, c)
    ensures WithinLimits(wf, StepNode(j, i, wf, x, c))
    ensures Permit(StepNode(j, i, wf, x, c)) > Permit(x) <==> c.Acquire?
    decreases c, 0
  {
    if c.Inside? {
      InsideWithinLimits(j, i, wf(x.pc.h), x.nodes, c.n, c.choice);
    } else if c.Perform? {
      var pc := PerformEffect(j, 0, i, x.pc.h, wf(x.pc.h)).pc;
      if pc.InFanOut? { NobodyHolds(Idles(|wf(x.pc.h).kids|)); }
    }
  }

  lemma {:induction false} InsideWithinLimits(j: Steps, i: Id, op: Op, nodes: seq<Node>, n: nat, c: Choice)
    requires op.FanOut? && ForestWithinLimits(op, nodes) && CanStepInside(j, i, op, nodes, n, c)
    ensures ForestWithinLimits(op, StepInside(j, i, op, nodes, n, c))
    decreases c, 1
  {
    StepWithinLimits(j, Child(i, op.key, n), op.kids[n], nodes[n], c);
    HoldersUpdate(nodes, n, StepNode(j, Child(i, op.key, n), op.kids[n], nodes[n], c));
  }

  lemma {:induction false} WithinLimitsAlong(i: Id, op: Op, j: Steps, meta: Metas, events: seq<Event>)
    requires op.FanOut? && Play(i, op, Fresh(j, meta, op), events).Some?
    ensures ForestWithinLimits(op, Play(i, op, Fresh(j, meta, op), events).value.nodes)
    decreases |events|
  {
    NobodyHolds(Idles(|op.kids|));
    if |events| > 0 {
      WithinLimitsAlong(i, op, j, meta, events[..|events| - 1]);
      var c := Play(i, op, Fresh(j, meta, op), events[..|events| - 1]).value;
      var e := events[|events| - 1];
      if e.Moves? { InsideWithinLimits(c.book.steps, i, op, c.nodes, e.n, e.choice); }
    }
  }

  /** The children that have started and not yet ended. */
  ghost function Started(nodes: seq<Node>): set<nat> {
    set n: nat | n < |nodes| && (nodes[n].Entered? || nodes[n].Busy?)
  }

  lemma {:induction false} HoldersAreStarted(nodes: seq<Node>)
    ensures Holders(nodes) == |Started(nodes)|
    ensures forall n :: 0 <= n < |nodes| && nodes[n].Idle? ==> Holders(nodes) < |nodes|
    ensures Holders(nodes) <= |nodes|
  {
    if |nodes| > 0 {
      var last := |nodes| - 1;
      HoldersAreStarted(nodes[..last]);
      assert Started(nodes) == Started(nodes[..last]) + if HoldsPermit(nodes[last]) then {last} else {};
      forall n | 0 <= n < last && nodes[n].Idle? ensures Holders(nodes) < |nodes| { assert nodes[..last][n].Idle?; }
    }
  }

  /** At every level of the tree no more children are under way than the concurrency that is set there. */
  ghost predicate Bounded(wf: Workflow, x: Node)
    decreases x
  {
    x.Busy? && x.pc.InFanOut? ==> ForestBounded(wf(x.pc.h), x.nodes)
  }

  ghost predicate ForestBounded(op: Op, nodes: seq<Node>)
    decreases nodes
  {
    && op.FanOut? && |nodes| == |op.kids| && (op.limit.Some? ==> |Started(nodes)| <= op.limit.value)
    && forall n :: 0 <= n < |nodes| ==> Bounded(op.kids[n], nodes[n])
  }

  lemma {:induction false} LimitsBound(op: Op, nodes: seq<Node>)
    requires op.FanOut? && ForestWithinLimits(op, nodes)
    ensures ForestBounded(op, nodes)
    decreases nodes
  {
    HoldersAreStarted(nodes);
    forall n | 0 <= n < |nodes| ensures Bounded(op.kids[n], nodes[n]) {
      var x := nodes[n];
      if x.Busy? && x.pc.InFanOut? { LimitsBound(op.kids[n](x.pc.h), x.nodes); }
    }
  }

  /**
   Over whole runs, interrupted or not, the children under way never exceed the concurrency that is set for
   their fan-out, on any level of nesting.
   */
  lemma PermitBound(i: Id, op: Op, j: Steps, meta: Metas, events: seq<Event>)
    requires op.FanOut? && Play(i, op, Fresh(j, meta, op), events).Some?
    ensures ForestBounded(op, Play(i, op, Fresh(j, meta, op), events).value.nodes)
  {
    WithinLimitsAlong(i, op, j, meta, events);
    LimitsBound(op, Play(i, op, Fresh(j, meta, op), events).value.nodes);
  }

  /** A child that waits can start exactly as long as fewer are under way than the concurrency, if one is set. */
  lemma WaitsExactlyAtLimit(j: Steps, i: Id, op: Op, nodes: seq<Node>, n: nat)
    requires op.FanOut? && |nodes| == |op.kids| && n < |nodes| && nodes[n].Idle?
    ensures CanStepInside(j, i, op, nodes, n, Acquire) <==> op.limit.None? || |Started(nodes)| < op.limit.value
  {
    HoldersAreStarted(nodes);
  }

  // ---- Children that end ----------------------------------------------------------------------

  /**
   Whatever its operations give back, the workflow ends, its keys are legal, its limits positive,
   and so it is with the children of its fan-outs. There need be no common bound.
   */
  least predicate Ends(wf: Workflow, h: History) {
    match wf(h)
    case Return(_) => true
    case Throw(_) => true
    case SetStatus(_) => Ends(wf, h + [Nothing])
    case Step(key, _, maxRetries) =>
      LegalOp(wf(h)) && Attempts(maxRetries) > 0 && forall seen: Seen :: !seen.Nothing? ==> Ends(wf, h + [seen])
    case FanOut(key, _, _, _, kids) =>
      && LegalOp(wf(h)) && Limit(wf(h)) >= 1
      && (forall n :: 0 <= n < |kids| ==> Ends(kids[n], []))
      && forall seen: Seen :: !seen.Nothing? ==> Ends(wf, h + [seen])
    case _ => false
  }

  /** The program counter fits the operation. */
  ghost predicate Fits(op: Op, pc: Pc) {
    match pc
    case InClosure(_, attempt) => op.Step? && attempt < Attempts(op.maxRetries)
    case InFanOut(_) => op.FanOut?
    case Saving(_, _, seen) => (op.Step? || op.FanOut?) && !seen.Nothing?
    case Suspending(_, _) => false
    case Outputting(_) => op.Return?
    case _ => true
  }

  ghost predicate Tame(wf: Workflow, x: Node)
    decreases x
  {
    match x
    case Idle => Ends(wf, [])
    case Entered => Ends(wf, [])
    case Busy(pc, nodes) =>
      var op := wf(pc.h);
      && Fits(op, pc) && (!pc.Finishing? ==> Ends(wf, pc.h))
      && (pc.InFanOut? ==> |nodes| == |op.kids| && forall n :: 0 <= n < |nodes| ==> Tame(op.kids[n], nodes[n]))
    case _ => true
  }

  lemma {:induction false} StepTame(j: Steps, i: Id, wf: Workflow, x: Node, c: Choice)
    requires Tame(wf, x) && CanStep(j, i, wf, x, c)
    ensures Tame(wf, StepNode(j, i, wf, x, c))
    decreases c
  {
    if c.Inside? {
      var op := wf(x.pc.h);
      StepTame(j, Child(i, op.key, c.n), op.kids[c.n], x.nodes[c.n], c.choice);
    } else if x.Busy? && !c.Panic? {
      OwnStepTame(j, i, wf, x, c);
    }
  }

  lemma OwnStepTame(j: Steps, i: Id, wf: Workflow, x: Node, c: Choice)
    requires Tame(wf, x) && x.Busy? && CanStep(j, i, wf, x, c) && !c.Inside? && !c.Panic?
    ensures Tame(wf, StepNode(j, i, wf, x, c))
  {
    if c.Perform? {
      PerformTame(j, i, wf, x.pc.h);
    } else if c.ClosureReturn? || c.Save? {
      assert wf(x.pc.h).Step? || wf(x.pc.h).FanOut?;
    }
  }

  lemma PerformTame(j: Steps, i: Id, wf: Workflow, h: History)
    requires Ends(wf, h)
    ensures var pc := PerformEffect(j, 0, i, h, wf(h)).pc;
            Fits(wf(pc.h), pc) && (!pc.Finishing? ==> Ends(wf, pc.h)) && (pc.InFanOut? ==> pc.h == h)
  {
  }

  // ---- Progress -------------------------------------------------------------------------------

  /** Not a panic, at any depth. */
  predicate Regular(c: Choice) {
    !c.Panic? && (c.Inside? ==> Regular(c.choice))
  }

  /** The node has something to do. An idle one needs a permit of its parent for it. */
  ghost predicate CanGoOn(j: Steps, i: Id, wf: Workflow, x: Node) {
    exists c :: Regular(c) && (c.Acquire? <==> x.Idle?) && CanStep(j, i, wf, x, c)
  }

  lemma Choose(j: Steps, i: Id, wf: Workflow, x: Node, c: Choice)
    requires Regular(c) && (c.Acquire? <==> x.Idle?) && CanStep(j, i, wf, x, c)
    ensures CanGoOn(j, i, wf, x)
  {
  }

  lemma {:induction false} Progress(j: Steps, i: Id, wf: Workflow, x: Node)
    requires Tame(wf, x) && WithinLimits(wf, x) && !x.Done? && !x.Panicked?
    ensures CanGoOn(j, i, wf, x)
    decreases x
  {
    match x
    case Idle => Choose(j, i, wf, x, Acquire);
    case Entered => Choose(j, i, wf, x, Enter);
    case Busy(pc, nodes) =>
      if pc.InFanOut? {
        var c := ForestProgress(j, i, wf(pc.h), nodes);
        assert CanStep(j, i, wf, x, c);
        Choose(j, i, wf, x, c);
      } else {
        PlainProgress(j, i, wf, pc);
      }
  }

  lemma PlainProgress(j: Steps, i: Id, wf: Workflow, pc: Pc)
    requires Tame(wf, Busy(pc, [])) && !pc.InFanOut?
    ensures forall nodes :: CanGoOn(j, i, wf, Busy(pc, nodes))
  {
    var c :=
      if pc.At? then Choice.Perform
      else if pc.InClosure? then Choice.ClosureReturn(TimedOut, None)
      else if pc.Saving? then Choice.Save
      else if pc.Outputting? then Choice.WriteOutput
      else Choice.WriteResult(None, 0);
    forall nodes ensures CanGoOn(j, i, wf, Busy(pc, nodes)) {
      Choose(j, i, wf, Busy(pc, nodes), c);
    }
  }

  /** What a task in a fan-out can do next: let a child go on, collect, or give up. */
  ghost predicate FanOutGoesOn(j: Steps, i: Id, op: Op, nodes: seq<Node>, c: Choice)
    requires op.FanOut?
  {
    match c
    case Inside(n, c') => CanStepInside(j, i, op, nodes, n, c')
    case Collect => CanCollect(op, nodes)
    case Abort(n) => n < |nodes| && Breaks(op, nodes[n])
    case _ => false
  }

  /**
   A fan-out whose limits are positive, at every level, is never stuck: a child can go on, or all
   are joined, or one of them ends it.
   */
  lemma {:induction false} ForestProgress(j: Steps, i: Id, op: Op, nodes: seq<Node>) returns (c: Choice)
    requires op.FanOut? && ForestWithinLimits(op, nodes) && Limit(op) >= 1
    requires forall n :: 0 <= n < |nodes| ==> Tame(op.kids[n], nodes[n])
    ensures FanOutGoesOn(j, i, op, nodes, c) && Regular(c) && !c.Acquire?
    decreases nodes
  {
    if n :| 0 <= n < |nodes| && HoldsPermit(nodes[n]) {
      Progress(j, Child(i, op.key, n), op.kids[n], nodes[n]);
      var c' :| Regular(c') && !c'.Acquire? && CanStep(j, Child(i, op.key, n), op.kids[n], nodes[n], c');
      c := Inside(n, c');
    } else if n :| 0 <= n < |nodes| && nodes[n].Idle? {
      NobodyHolds(nodes);
      c := Inside(n, Acquire);
    } else if n :| 0 <= n < |nodes| && Breaks(op, nodes[n]) {
      c := Abort(n);
    } else {
      c := Choice.Collect;
    }
  }

  lemma {:induction false} TameAlong(i: Id, op: Op, j: Steps, meta: Metas, events: seq<Event>)
    requires op.FanOut? && Play(i, op, Fresh(j, meta, op), events).Some?
    requires forall n :: 0 <= n < |op.kids| ==> Ends(op.kids[n], [])
    ensures
      var c := Play(i, op, Fresh(j, meta, op), events).value;
      |c.nodes| == |op.kids| && forall n :: 0 <= n < |c.nodes| ==> Tame(op.kids[n], c.nodes[n])
    decreases |events|
  {
    if |events| > 0 {
      TameAlong(i, op, j, meta, events[..|events| - 1]);
      var c := Play(i, op, Fresh(j, meta, op), events[..|events| - 1]).value;
      var e := events[|events| - 1];
      if e.Moves? { StepTame(c.book.steps, Child(i, op.key, e.n), op.kids[e.n], c.nodes[e.n], e.choice); }
    }
  }

  /**
   No schedule of nested bounded fan-outs deadlocks: with positive limits and children that end,
   every reachable state has a step that is not a panic.
   */
  lemma NeverStuck(i: Id, op: Op, j: Steps, meta: Metas, events: seq<Event>) returns (c: Choice)
    requires op.FanOut? && Play(i, op, Fresh(j, meta, op), events).Some?
    requires Limit(op) >= 1 && forall n :: 0 <= n < |op.kids| ==> Ends(op.kids[n], [])
    ensures
      var end := Play(i, op, Fresh(j, meta, op), events).value;
      FanOutGoesOn(end.book.steps, i, op, end.nodes, c) && Regular(c)
  {
    WithinLimitsAlong(i, op, j, meta, events);
    TameAlong(i, op, j, meta, events);
    var end := Play(i, op, Fresh(j, meta, op), events).value;
    c := ForestProgress(end.book.steps, i, op, end.nodes);
  }

  /** Why the limit must be positive: with limit 0 and an item, nothing can ever happen. */
  lemma ZeroLimitIsStuck(i: Id, op: Op, c: Config, e: Event)
    requires op.FanOut? && op.limit == Some(0) && |op.kids| > 0
    requires c.nodes == Idles(|op.kids|) && CanHappen(i, op, c, e)
    ensures !e.Moves? && Happen(i, op, c, e).nodes == c.nodes && !CanCollect(op, c.nodes)
  {
    assert c.nodes[0] == Idle;
  }

  // ---- Every schedule is finite ---------------------------------------------------------------

  /** However the node is scheduled, and whatever happens to the tables meanwhile, it takes finitely many steps. */
  least predicate Halts(i: Id, wf: Workflow, x: Node) {
    forall j: Steps, c: Choice :: CanStep(j, i, wf, x, c) ==> Halts(i, wf, StepNode(j, i, wf, x, c))
  }

  /** The children `nodes`, interleaved in any way, take finitely many steps together. */
  least predicate ForestHalts(i: Id, op: Op, nodes: seq<Node>) {
    && op.FanOut? && |nodes| <= |op.kids|
    && forall j: Steps, n: nat, c: Choice ::
         n < |nodes| && CanStep(j, Child(i, op.key, n), op.kids[n], nodes[n], c) ==>
           ForestHalts(i, op, nodes[n := StepNode(j, Child(i, op.key, n), op.kids[n], nodes[n], c)])
  }

  /** One more child next to the others: each step lowers one of the two ranks and keeps the other. */
  lemma {:induction false} Beside(a: ORDINAL, b: ORDINAL, i: Id, op: Op, front: seq<Node>, last: Node)
    requires op.FanOut? && |front| < |op.kids|
    requires ForestHalts#[a](i, op, front) && Halts#[b](Child(i, op.key, |front|), op.kids[|front|], last)
    ensures ForestHalts(i, op, front + [last])
    decreases a, b
  {
    if a.IsLimit {
      var a' :| a' < a && ForestHalts#[a'](i, op, front);
      Beside(a', b, i, op, front, last);
    } else if b.IsLimit {
      var b' :| b' < b && Halts#[b'](Child(i, op.key, |front|), op.kids[|front|], last);
      Beside(a, b', i, op, front, last);
    } else {
      var nodes := front + [last];
      forall j: Steps, n: nat, c: Choice | n < |nodes| && CanStep(j, Child(i, op.key, n), op.kids[n], nodes[n], c)
        ensures ForestHalts(i, op, nodes[n := StepNode(j, Child(i, op.key, n), op.kids[n], nodes[n], c)])
      {
        var x := StepNode(j, Child(i, op.key, n), op.kids[n], nodes[n], c);
        if n < |front| {
          Beside(a - 1, b, i, op, front[n := x], last);
          assert nodes[n := x] == front[n := x] + [last];
        } else {
          Beside(a, b - 1, i, op, front, x);
          assert nodes[n := x] == front + [x];
        }
      }
    }
  }

  lemma {:induction false} TogetherHalt(i: Id, op: Op, nodes: seq<Node>)
    requires op.FanOut? && |nodes| <= |op.kids|
    requires forall n :: 0 <= n < |nodes| ==> Halts(Child(i, op.key, n), op.kids[n], nodes[n])
    ensures ForestHalts(i, op, nodes)
    decreases |nodes|
  {
    if |nodes| > 0 {
      var front, last := nodes[..|nodes| - 1], nodes[|nodes| - 1];
      TogetherHalt(i, op, front);
      var a: ORDINAL :| ForestHalts#[a](i, op, front);
      var b: ORDINAL :| Halts#[b](Child(i, op.key, |front|), op.kids[|front|], last);
      Beside(a, b, i, op, front, last);
      assert nodes == front + [last];
    }
  }

  /** Steps left at this history before the next operation. */
  function Rank(op: Op, pc: Pc): nat {
    match pc
    case At(_) => (if op.Step? then Attempts(op.maxRetries) else 0) + 4
    case InClosure(_, n) => if op.Step? && n < Attempts(op.maxRetries) then Attempts(op.maxRetries) - n + 2 else 3
    case InFanOut(_) => 3
    case Finishing(_, _) => 1
    case _ => 2
  }

  /** A task that is not in a fan-out halts, by induction on how its workflow ends. */
  lemma {:induction false} BusyHalts(k: ORDINAL, i: Id, wf: Workflow, pc: Pc)
    requires Ends#[k](wf, pc.h) && Fits(wf(pc.h), pc) && !pc.InFanOut?
    ensures Halts(i, wf, Busy(pc, []))
    decreases k, Rank(wf(pc.h), pc), 1
  {
    if k.IsLimit {
      var k' :| k' < k && Ends#[k'](wf, pc.h);
      BusyHalts(k', i, wf, pc);
    } else {
      forall j: Steps, c: Choice | CanStep(j, i, wf, Busy(pc, []), c)
        ensures Halts(i, wf, StepNode(j, i, wf, Busy(pc, []), c))
      {
        BusyStepHalts(k, i, wf, pc, j, c);
      }
    }
  }

  lemma {:induction false} BusyStepHalts(k: ORDINAL, i: Id, wf: Workflow, pc: Pc, j: Steps, c: Choice)
    requires !k.IsLimit && Ends#[k](wf, pc.h) && Fits(wf(pc.h), pc) && !pc.InFanOut?
    requires CanStep(j, i, wf, Busy(pc, []), c)
    ensures Halts(i, wf, StepNode(j, i, wf, Busy(pc, []), c))
    decreases k, Rank(wf(pc.h), pc), 0
  {
    var h, x := pc.h, StepNode(j, i, wf, Busy(pc, []), c);
    if c.Panic? {
      assert Halts(i, wf, Panicked);
    } else if c.WriteResult? {
      assert Halts(i, wf, Node.Done(h, pc.result));
    } else if x.pc.InFanOut? {
      assert Ends#[k](wf, h) && wf(h).FanOut?;
      SpawnHalts(k, i, wf, h);
    } else if x.pc.h == h {
      OwnStepFits(j, wf, i, pc, c);
      BusyHalts(k, i, wf, x.pc);
    } else {
      OwnStepEnds(k, j, wf, i, pc, c);
      BusyHalts(k - 1, i, wf, x.pc);
    }
  }

  /** A step that gives the workflow nothing moves on within the operation. */
  lemma OwnStepFits(j: Steps, wf: Workflow, i: Id, pc: Pc, c: Choice)
    requires Ends(wf, pc.h) && Fits(wf(pc.h), pc) && !pc.InFanOut? && CanStep(j, i, wf, Busy(pc, []), c)
    requires var x := StepNode(j, i, wf, Busy(pc, []), c); x.Busy? && x.pc.h == pc.h && !x.pc.InFanOut?
    ensures var x := StepNode(j, i, wf, Busy(pc, []), c);
            x == Busy(x.pc, []) && Fits(wf(pc.h), x.pc) && Rank(wf(pc.h), x.pc) < Rank(wf(pc.h), pc)
  {
  }

  /** A step that gives the workflow something lowers the rank of the workflow. */
  lemma OwnStepEnds(k: ORDINAL, j: Steps, wf: Workflow, i: Id, pc: Pc, c: Choice)
    requires !k.IsLimit && Ends#[k](wf, pc.h) && Fits(wf(pc.h), pc) && !pc.InFanOut?
    requires CanStep(j, i, wf, Busy(pc, []), c)
    requires var x := StepNode(j, i, wf, Busy(pc, []), c); x.Busy? && x.pc.h != pc.h
    ensures var x := StepNode(j, i, wf, Busy(pc, []), c);
            x == Busy(At(x.pc.h), []) && Ends#[k - 1](wf, x.pc.h)
  {
    if c.Perform? { PerformEnds(k, j, wf, i, pc.h); }
  }

  lemma PerformEnds(k: ORDINAL, j: Steps, wf: Workflow, i: Id, h: History)
    requires !k.IsLimit && Ends#[k](wf, h)
    ensures var pc := PerformEffect(j, 0, i, h, wf(h)).pc;
            pc.h != h ==> pc == At(pc.h) && Ends#[k - 1](wf, pc.h)
  {
  }

  /** The children of a fan-out all start idle, and each of them halts. */
  lemma {:induction false} SpawnHalts(k: ORDINAL, i: Id, wf: Workflow, h: History)
    requires !k.IsLimit && Ends#[k](wf, h) && wf(h).FanOut?
    ensures Halts(i, wf, Busy(InFanOut(h), Idles(|wf(h).kids|)))
    decreases k, 3, 1
  {
    var op := wf(h);
    forall n | 0 <= n < |op.kids| ensures Halts(Child(i, op.key, n), op.kids[n], Idle) {
      BusyHalts(k - 1, Child(i, op.key, n), op.kids[n], At([]));
      IdleHalts(Child(i, op.key, n), op.kids[n]);
    }
    TogetherHalt(i, op, Idles(|op.kids|));
    var a: ORDINAL :| ForestHalts#[a](i, op, Idles(|op.kids|));
    FanOutHalts(k, a, i, wf, h, Idles(|op.kids|));
  }

  lemma IdleHalts(i: Id, wf: Workflow)
    requires Halts(i, wf, Busy(At([]), []))
    ensures Halts(i, wf, Idle)
  {
  }

  lemma {:induction false} FanOutHalts(k: ORDINAL, a: ORDINAL, i: Id, wf: Workflow, h: History, nodes: seq<Node>)
    requires !k.IsLimit && Ends#[k](wf, h) && wf(h).FanOut? && |nodes| == |wf(h).kids|
    requires ForestHalts#[a](i, wf(h), nodes)
    ensures Halts(i, wf, Busy(InFanOut(h), nodes))
    decreases k, 3, 0, a
  {
    if a.IsLimit {
      var a' :| a' < a && ForestHalts#[a'](i, wf(h), nodes);
      FanOutHalts(k, a', i, wf, h, nodes);
    } else {
      var x, op := Busy(InFanOut(h), nodes), wf(h);
      forall j: Steps, c: Choice | CanStep(j, i, wf, x, c) ensures Halts(i, wf, StepNode(j, i, wf, x, c)) {
        if c.Inside? {
          var kid := StepNode(j, Child(i, op.key, c.n), op.kids[c.n], nodes[c.n], c.choice);
          FanOutHalts(k, a - 1, i, wf, h, nodes[c.n := kid]);
        } else if c.Collect? {
          BusyHalts(k, i, wf, StepNode(j, i, wf, x, c).pc);
        } else if c.Abort? {
          BusyHalts(k - 1, i, wf, StepNode(j, i, wf, x, c).pc);
        } else {
          assert Halts(i, wf, Panicked);
        }
      }
    }
  }

  /**
   For any tree of inline fan-outs whose children end and whose limits are positive, every schedule
   is finite, whatever the closures come back with and whatever else happens to the tables.
   */
  lemma EveryScheduleHalts(i: Id, wf: Workflow, h: History)
    requires wf(h).FanOut? && Ends(wf, h)
    ensures ForestHalts(i, wf(h), Idles(|wf(h).kids|))
  {
    var op := wf(h);
    forall n | 0 <= n < |op.kids| ensures Halts(Child(i, op.key, n), op.kids[n], Idle) {
      var k: ORDINAL :| Ends#[k](op.kids[n], []);
      BusyHalts(k, Child(i, op.key, n), op.kids[n], At([]));
      IdleHalts(Child(i, op.key, n), op.kids[n]);
    }
    TogetherHalt(i, op, Idles(|op.kids|));
  }
}
