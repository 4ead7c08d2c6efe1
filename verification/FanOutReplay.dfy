/**
 What a fan-out returns is what its children mean. However often the parent is interrupted and
 re-run, a successful slot holds the value that a run of its child returned which the tables bear out,
 and no child step that is already Completed is executed again, unless retention has deleted that child.
 */
module FanOutReplay {
  import opened Options
  import opened Storage
  import opened Workflows
  import opened Keys
  import opened Accounts
  import opened Protocol
  import opened Replay
  import opened Errors
  import opened FanOut

  // ---- Subtrees -------------------------------------------------------------------------------

  lemma ChildBelow(i: Id, key: string, n: nat, c: Id)
    requires Under(c, Child(i, key, n))
    ensures Below(c, i)
  {
  }

  /** Different children of one instance have disjoint subtrees. */
  lemma SiblingsApart(i: Id, key: string, m: nat, key2: string, n: nat, c: Id)
    requires Under(c, Child(i, key, m)) && Under(c, Child(i, key2, n))
    ensures key == key2 && m == n
  {
    var p, q := Child(i, key, m).path, Child(i, key2, n).path;
    assert p == c.path[..|i.path| + 1] == q;
    ChildInjective(i, key, m, i, key2, n);
  }

  /** The tables are the same for `i` and everything below it. */
  ghost predicate SameUnder(i: Id, b: Book, b': Book) {
    && (forall r: Ref :: Under(r.id, i) ==> Lookup(b'.steps, r) == Lookup(b.steps, r))
    && (forall d :: Under(d, i) ==> Lookup(b'.meta, d) == Lookup(b.meta, d))
    && b'.gone == b.gone && b.past <= b'.past
  }

  lemma SameUnderChild(i: Id, key: string, n: nat, b: Book, b': Book)
    requires SameUnder(i, b, b')
    ensures SameUnder(Child(i, key, n), b, b') && SameAccount(b, b', Child(i, key, n))
  {
  }

  // ---- Meaning of slots -----------------------------------------------------------------------

  /** A run of `wf` that the tables bear out returned `v`. */
  ghost predicate RanTo(b: Book, i: Id, wf: Workflow, v: Value) {
    exists h :: BorneOut(b, i, wf, h) && wf(h) == Return(v)
  }

  /** A run of `wf` that the tables bear out failed with `e`. */
  ghost predicate FailedWith(b: Book, i: Id, wf: Workflow, e: string) {
    exists h :: BorneOut(b, i, wf, h) && wf(h) == Throw(e)
  }

  /** Retention has deleted `c`, alone or with an instance above it. */
  predicate Covered(gone: set<Id>, c: Id) { exists x :: x in gone && Under(c, x) }

  ghost predicate SlotsMean(b: Book, i: Id, op: Op, slots: seq<Slot>) {
    && op.FanOut? && |slots| == |op.kids|
    && forall n :: 0 <= n < |slots| ==> SlotMeans(b, Child(i, op.key, n), op.kids[n], slots[n])
  }

  /** The slot belongs to child `c`, and unless that was deleted the tables bear out what it holds. */
  ghost predicate SlotMeans(b: Book, c: Id, kid: Workflow, slot: Slot) {
    match slot
    case Won(v) => Covered(b.gone, c) || RanTo(b, c, kid, v)
    case Lost(child, e) => child == c && (Covered(b.gone, c) || FailedWith(b, c, kid, e))
  }

  lemma SlotMeansKept(b: Book, b': Book, c: Id, kid: Workflow, slot: Slot)
    requires SlotMeans(b, c, kid, slot) && (Covered(b.gone, c) ==> Covered(b'.gone, c))
    requires Covered(b'.gone, c) || SameAccount(b, b', c)
    ensures SlotMeans(b', c, kid, slot)
  {
    if !Covered(b'.gone, c) {
      forall h | BorneOut(b, c, kid, h) ensures BorneOut(b', c, kid, h) { BorneOutKept(b, b', c, kid, h); }
    }
  }

  lemma SlotsMeanKept(b: Book, b': Book, i: Id, op: Op, slots: seq<Slot>)
    requires SlotsMean(b, i, op, slots) && b'.gone == b.gone
    requires forall n: nat :: n < |slots| ==> SameAccount(b, b', Child(i, op.key, n))
    ensures SlotsMean(b', i, op, slots)
  {
    forall n | 0 <= n < |slots| ensures SlotMeans(b', Child(i, op.key, n), op.kids[n], slots[n]) {
      SlotMeansKept(b, b', Child(i, op.key, n), op.kids[n], slots[n]);
    }
  }

  // ---- The invariant of a child ---------------------------------------------------------------

  /** A child that runs, at whatever depth, has a Running record: retention passes it by. */
  ghost predicate NodeOk(b: Book, i: Id, wf: Workflow, x: Node)
    decreases x
  {
    match x
    case Busy(pc, nodes) =>
      var op := wf(pc.h);
      && IsRunning(b.meta, i) && BorneOut(b, i, wf, pc.h) && PcOk(b.steps, i, op, pc)
      && (pc.InFanOut? ==> |nodes| == |op.kids| && ForestOk(b, i, op, nodes))
      && (pc.At? || InlineOp(op)) && SavesSlots(b, i, op, pc)
    case Done(h, result) =>
      && (if result.Success? then wf(h).Return?
          else result.Failure? && wf(h) == Throw(result.error) && ChildFailed(b, i, result.error))
      && (Covered(b.gone, i) || BorneOut(b, i, wf, h))
    case _ => true
  }

  /** A vector that is about to be journaled means what it should. */
  ghost predicate SavesSlots(b: Book, i: Id, op: Op, pc: Pc) {
    pc.Saving? && op.FanOut? ==>
      pc.data.Completed? && pc.data.result.Slots? && SlotsMean(b, i, op, pc.data.result.slots)
  }

  ghost predicate ForestOk(b: Book, i: Id, op: Op, nodes: seq<Node>)
    decreases nodes
  {
    && op.FanOut? && |nodes| == |op.kids|
    && forall n :: 0 <= n < |nodes| ==> NodeOk(b, Child(i, op.key, n), op.kids[n], nodes[n])
  }

  lemma {:induction false} NodeFrame(b: Book, b': Book, i: Id, wf: Workflow, x: Node)
    requires NodeOk(b, i, wf, x) && SameUnder(i, b, b')
    ensures NodeOk(b', i, wf, x)
    decreases x
  {
    assert Under(i, i) && SameAccount(b, b', i);
    match x
    case Busy(pc, nodes) =>
      var op := wf(pc.h);
      BorneOutKept(b, b', i, wf, pc.h);
      if pc.InFanOut? {
        forall n | 0 <= n < |nodes| ensures NodeOk(b', Child(i, op.key, n), op.kids[n], nodes[n]) {
          SameUnderChild(i, op.key, n, b, b');
          NodeFrame(b, b', Child(i, op.key, n), op.kids[n], nodes[n]);
        }
      }
      if pc.Saving? && op.FanOut? {
        forall n: nat ensures SameAccount(b, b', Child(i, op.key, n)) { SameUnderChild(i, op.key, n, b, b'); }
        SlotsMeanKept(b, b', i, op, pc.data.result.slots);
      }
    case Done(h, result) => if !Covered(b.gone, i) { BorneOutKept(b, b', i, wf, h); }
    case _ =>
  }

  // ---- Where a step writes --------------------------------------------------------------------

  /** The instance whose entry or record is written. */
  function Target(w: Write): Option<Id> {
    match w
    case NoWrite => None
    case Journals(r, _, _) => Some(r.id)
    case Records(i, _) => Some(i)
  }

  /** A step writes inside its own subtree, and never over a Completed entry, the output apart. */
  lemma {:induction false} WriteInside(b: Book, i: Id, wf: Workflow, x: Node, c: Choice)
    requires NodeOk(b, i, wf, x) && CanStep(b.steps, i, wf, x, c)
    ensures
      var w := WriteOf(b.steps, i, wf, x, c);
      && (Target(w).Some? ==> Under(Target(w).value, i))
      && (w.Journals? ==> !w.r.key.Input? && (w.r.key.Output? || !IsCompleted(b.steps, w.r)) && !w.d.Suspended?)
      && (w.Journals? && w.op.FanOut? ==>
            w.r.key.FanOutKey? && w.d.Completed? && w.d.result.Slots? &&
            SlotsMean(b, w.r.id, w.op, w.d.result.slots))
      && (w.Records? ==> !w.m.status.SuspendedOn? && IsStamped(w.m))
    decreases c
  {
    if c.Inside? && x.Busy? {
      var op := wf(x.pc.h);
      WriteInside(b, Child(i, op.key, c.n), op.kids[c.n], x.nodes[c.n], c.choice);
      var w := WriteOf(b.steps, i, wf, x, c);
      if Target(w).Some? { ChildBelow(i, op.key, c.n, Target(w).value); }
    }
  }

  /** Who writes under a child does so while the fan-out of that child is open. */
  lemma {:induction false} WriterIsOpen(
    b: Book, i: Id, wf: Workflow, x: Node, c: Choice, p: Id, key: string, n: nat)
    requires NodeOk(b, i, wf, x) && CanStep(b.steps, i, wf, x, c) && Under(p, i)
    requires
      var target := Target(WriteOf(b.steps, i, wf, x, c));
      target.Some? && Under(target.value, Child(p, key, n))
    ensures !IsCompleted(b.steps, Ref(p, FanOutKey(key)))
    decreases c
  {
    var target := Target(WriteOf(b.steps, i, wf, x, c)).value;
    ChildBelow(p, key, n, target);
    if c.Inside? && x.Busy? {
      var op, c0 := wf(x.pc.h), Child(i, wf(x.pc.h).key, c.n);
      WriteInside(b, c0, op.kids[c.n], x.nodes[c.n], c.choice);
      if p == i {
        SiblingsApart(i, key, n, op.key, c.n, target);
      } else {
        assert p.path[..|i.path| + 1] == target.path[..|i.path| + 1] == c0.path;
        WriterIsOpen(b, c0, op.kids[c.n], x.nodes[c.n], c.choice, p, key, n);
      }
    }
  }

  // ---- A step keeps the invariant -------------------------------------------------------------

  lemma {:induction false} StepKeeps(b: Book, i: Id, wf: Workflow, x: Node, c: Choice)
    requires NodeOk(b, i, wf, x) && CanStep(b.steps, i, wf, x, c)
    ensures NodeOk(ApplyToBook(b, WriteOf(b.steps, i, wf, x, c)), i, wf, StepNode(b.steps, i, wf, x, c))
    decreases c
  {
    if x.Busy? {
      if c.Inside? {
        var op := wf(x.pc.h);
        StepKeeps(b, Child(i, op.key, c.n), op.kids[c.n], x.nodes[c.n], c.choice);
        InsideKeeps(b, i, wf, x, c.n, c.choice);
      } else {
        OwnStepKeeps(b, i, wf, x, c);
      }
    }
  }

  lemma OwnStepKeeps(b: Book, i: Id, wf: Workflow, x: Node, c: Choice)
    requires NodeOk(b, i, wf, x) && CanStep(b.steps, i, wf, x, c) && x.Busy? && !c.Inside?
    ensures NodeOk(ApplyToBook(b, WriteOf(b.steps, i, wf, x, c)), i, wf, StepNode(b.steps, i, wf, x, c))
  {
    match c
    case Save => SaveKeeps(b, i, wf, x);
    case WriteOutput => EndKeeps(b, i, wf, x, c);
    case WriteResult(_, _) => EndKeeps(b, i, wf, x, c);
    case _ => QuietStepKeeps(b, i, wf, x, c);
  }

  lemma QuietStepKeeps(b: Book, i: Id, wf: Workflow, x: Node, c: Choice)
    requires NodeOk(b, i, wf, x) && CanStep(b.steps, i, wf, x, c) && x.Busy? && !c.Inside?
    requires !c.Save? && !c.WriteOutput? && !c.WriteResult?
    ensures NodeOk(b, i, wf, StepNode(b.steps, i, wf, x, c))
  {
    match c
    case Perform => PerformKeeps(b, i, wf, x);
    case ClosureReturn(o, shown) => ClosureKeeps(b, i, wf, x, o, shown);
    case Collect => CollectKeeps(b, i, wf, x);
    case Abort(n) => AbortKeeps(b, i, wf, x, n);
    case _ =>
  }

  lemma PerformKeeps(b: Book, i: Id, wf: Workflow, x: Node)
    requires NodeOk(b, i, wf, x) && CanStep(b.steps, i, wf, x, Choice.Perform)
    ensures NodeOk(b, i, wf, StepNode(b.steps, i, wf, x, Choice.Perform))
  {
    var op := wf(x.pc.h);
    PerformOk(b.steps, 0, i, wf, x.pc.h);
    if op.IsJournaled() || op.SetStatus? {
      PerformFeeds(b.steps, 0, i, x.pc.h, op);
      if Fed(b.steps, i, op).Some? { StandsExtend(b, i, wf, x.pc.h, Fed(b.steps, i, op).value); }
    }
  }

  lemma ClosureKeeps(b: Book, i: Id, wf: Workflow, x: Node, o: Outcome, shown: Option<string>)
    requires NodeOk(b, i, wf, x) && CanStep(b.steps, i, wf, x, Choice.ClosureReturn(o, shown))
    ensures NodeOk(b, i, wf, StepNode(b.steps, i, wf, x, Choice.ClosureReturn(o, shown)))
  {
    ClosureOk(b.steps, i, wf, x.pc.h, x.pc.attempt, shown, o);
    StandsExtend(b, i, wf, x.pc.h, Caught(TIMED_OUT));
  }

  lemma SaveKeeps(b: Book, i: Id, wf: Workflow, x: Node)
    requires NodeOk(b, i, wf, x) && CanStep(b.steps, i, wf, x, Choice.Save)
    ensures
      NodeOk(ApplyToBook(b, WriteOf(b.steps, i, wf, x, Choice.Save)), i, wf,
        StepNode(b.steps, i, wf, x, Choice.Save))
  {
    var h := x.pc.h;
    SavedStands(b, i, wf, h, x.pc.data, x.pc.seen);
    var j' := b.steps[Ref(i, wf(h).JournalKey()) := x.pc.data];
    assert Grows(i, b.steps, j');
    FaithfulGrows(b.steps, j', i, wf, h);
    FaithfulExtend(j', i, wf, h, x.pc.seen);
  }

  lemma EndKeeps(b: Book, i: Id, wf: Workflow, x: Node, c: Choice)
    requires NodeOk(b, i, wf, x) && CanStep(b.steps, i, wf, x, c) && x.Busy? && (c.WriteOutput? || c.WriteResult?)
    ensures NodeOk(ApplyToBook(b, WriteOf(b.steps, i, wf, x, c)), i, wf, StepNode(b.steps, i, wf, x, c))
  {
    BorneOutKept(b, ApplyToBook(b, WriteOf(b.steps, i, wf, x, c)), i, wf, x.pc.h);
  }

  lemma CollectKeeps(b: Book, i: Id, wf: Workflow, x: Node)
    requires NodeOk(b, i, wf, x) && CanStep(b.steps, i, wf, x, Choice.Collect)
    ensures NodeOk(b, i, wf, StepNode(b.steps, i, wf, x, Choice.Collect))
    ensures SlotsMean(b, i, wf(x.pc.h), SlotsOf(i, wf(x.pc.h), x.nodes))
  {
    CollectedSlotsMean(b, i, wf(x.pc.h), x.nodes);
  }

  /** The slots that a fan-out collects, at any depth, are what its children mean at that moment. */
  lemma CollectedSlotsMean(b: Book, i: Id, op: Op, nodes: seq<Node>)
    requires ForestOk(b, i, op, nodes) && CanCollect(op, nodes)
    ensures SlotsMean(b, i, op, SlotsOf(i, op, nodes))
  {
  }

  /** The error with which a fan-out gives up is that of a child. */
  lemma AbortsWithChildsError(b: Book, i: Id, op: Op, nodes: seq<Node>, n: nat)
    requires ForestOk(b, i, op, nodes) && n < |nodes| && Breaks(op, nodes[n])
    ensures ChildsError(b, i, op, AbortError(nodes[n]))
  {
  }

  lemma AbortKeeps(b: Book, i: Id, wf: Workflow, x: Node, n: nat)
    requires NodeOk(b, i, wf, x) && CanStep(b.steps, i, wf, x, Choice.Abort(n))
    ensures NodeOk(b, i, wf, StepNode(b.steps, i, wf, x, Choice.Abort(n)))
  {
    AbortsWithChildsError(b, i, wf(x.pc.h), x.nodes, n);
    FaithfulExtend(b.steps, i, wf, x.pc.h, Caught(AbortError(x.nodes[n])));
    StandsExtend(b, i, wf, x.pc.h, Caught(AbortError(x.nodes[n])));
  }

  /** What is written under one child of a fan-out leaves errors of other operations accounted for. */
  lemma ChildWriteStands(b: Book, i: Id, wf: Workflow, h: History, n: nat, w: Write)
    requires wf(h).FanOut? && BorneOut(b, i, wf, h)
    requires Target(w).Some? ==> Under(Target(w).value, Child(i, wf(h).key, n))
    ensures BorneOut(ApplyToBook(b, w), i, wf, h)
  {
    var b', key := ApplyToBook(b, w), wf(h).key;
    if Target(w).Some? {
      var d := Target(w).value;
      ChildBelow(i, key, n, d);
      assert Grows(i, b.steps, b'.steps);
      FaithfulGrows(b.steps, b'.steps, i, wf, h);
      forall k, m: nat | Child(i, k, m) == d ensures k == key {
        assert Under(d, Child(i, k, m));
        SiblingsApart(i, k, m, key, n, d);
      }
      WriteStands(b, b', i, wf, h);
    }
  }

  lemma InsideKeeps(b: Book, i: Id, wf: Workflow, x: Node, n: nat, c: Choice)
    requires NodeOk(b, i, wf, x) && CanStep(b.steps, i, wf, x, Inside(n, c))
    requires
      var op := wf(x.pc.h);
      var w := WriteOf(b.steps, Child(i, op.key, n), op.kids[n], x.nodes[n], c);
      NodeOk(ApplyToBook(b, w), Child(i, op.key, n), op.kids[n],
        StepNode(b.steps, Child(i, op.key, n), op.kids[n], x.nodes[n], c))
    ensures
      NodeOk(ApplyToBook(b, WriteOf(b.steps, i, wf, x, Inside(n, c))), i, wf,
        StepNode(b.steps, i, wf, x, Inside(n, c)))
  {
    var op := wf(x.pc.h);
    var w := WriteOf(b.steps, Child(i, op.key, n), op.kids[n], x.nodes[n], c);
    OthersInForest(b, i, op, x.nodes, n, c);
    WriteInside(b, Child(i, op.key, n), op.kids[n], x.nodes[n], c);
    ChildWriteStands(b, i, wf, x.pc.h, n, w);
    if Target(w).Some? { ChildBelow(i, op.key, n, Target(w).value); }
  }

  /** A step of one child leaves what holds of its siblings. */
  lemma OthersInForest(b: Book, i: Id, op: Op, nodes: seq<Node>, n: nat, c: Choice)
    requires ForestOk(b, i, op, nodes) && CanStepInside(b.steps, i, op, nodes, n, c)
    ensures
      var b' := ApplyToBook(b, WriteOf(b.steps, Child(i, op.key, n), op.kids[n], nodes[n], c));
      forall m :: 0 <= m < |nodes| && m != n ==> NodeOk(b', Child(i, op.key, m), op.kids[m], nodes[m])
  {
    var w := WriteOf(b.steps, Child(i, op.key, n), op.kids[n], nodes[n], c);
    WriteInside(b, Child(i, op.key, n), op.kids[n], nodes[n], c);
    forall m | 0 <= m < |nodes| && m != n
      ensures NodeOk(ApplyToBook(b, w), Child(i, op.key, m), op.kids[m], nodes[m])
    {
      if Target(w).Some? && Under(Target(w).value, Child(i, op.key, m)) {
        SiblingsApart(i, op.key, m, op.key, n, Target(w).value);
      }
      NodeFrame(b, ApplyToBook(b, w), Child(i, op.key, m), op.kids[m], nodes[m]);
    }
  }

  /** A step of one child keeps what holds of all of them. */
  lemma ForestStepKeeps(b: Book, i: Id, op: Op, nodes: seq<Node>, n: nat, c: Choice)
    requires ForestOk(b, i, op, nodes) && CanStepInside(b.steps, i, op, nodes, n, c)
    ensures
      var w := WriteOf(b.steps, Child(i, op.key, n), op.kids[n], nodes[n], c);
      ForestOk(ApplyToBook(b, w), i, op, StepInside(b.steps, i, op, nodes, n, c))
  {
    StepKeeps(b, Child(i, op.key, n), op.kids[n], nodes[n], c);
    OthersInForest(b, i, op, nodes, n, c);
  }

  // ---- Retention deletes a finished child -------------------------------------------------------

  /** The tables without the steps of `x` and what lies under it, and without its record. */
  ghost predicate Gone(x: Id, b: Book, b': Book) {
    && (forall r: Ref :: Lookup(b'.steps, r) == if Under(r.id, x) then None else Lookup(b.steps, r))
    && b'.meta == b.meta - {x} && b'.gone == b.gone + {x} && b'.past == b.past
  }

  lemma GoneBeside(x: Id, b: Book, b': Book, i: Id)
    requires Gone(x, b, b') && !Under(i, x)
    ensures SameAccount(b, b', i) && forall r: Ref :: r.id == i ==> Lookup(b'.steps, r) == Lookup(b.steps, r)
  {
  }

  lemma CoveredStays(gone: set<Id>, x: Id, c: Id)
    requires Covered(gone, c)
    ensures Covered(gone + {x}, c)
  {
    var y :| y in gone && Under(c, y);
    assert y in gone + {x};
  }

  /** A node that is deleted, or that lies below what is deleted, is not running. */
  lemma {:induction false} NodeExpires(b: Book, b': Book, x: Id, i: Id, wf: Workflow, node: Node)
    requires NodeOk(b, i, wf, node) && IsTerminal(b.meta, x) && Gone(x, b, b') && (Under(i, x) ==> i == x)
    ensures NodeOk(b', i, wf, node)
    decreases node
  {
    match node
    case Busy(pc, nodes) =>
      var op := wf(pc.h);
      GoneBeside(x, b, b', i);
      BorneOutKept(b, b', i, wf, pc.h);
      if pc.InFanOut? {
        forall n | 0 <= n < |nodes| ensures NodeOk(b', Child(i, op.key, n), op.kids[n], nodes[n]) {
          if Under(Child(i, op.key, n), x) { OnlyChildUnder(i, op.key, n, x); }
          NodeExpires(b, b', x, Child(i, op.key, n), op.kids[n], nodes[n]);
        }
      }
      if pc.Saving? && op.FanOut? { SlotsExpire(b, b', x, i, op, pc.data.result.slots); }
    case Done(h, result) =>
      if Under(i, x) {
        assert Covered(b'.gone, i);
      } else if !Covered(b.gone, i) {
        GoneBeside(x, b, b', i);
        BorneOutKept(b, b', i, wf, h);
      } else {
        CoveredStays(b.gone, x, i);
      }
    case _ =>
  }

  /** What covers a child and not its parent is the child. */
  lemma OnlyChildUnder(i: Id, key: string, n: nat, x: Id)
    requires !Under(i, x) && Under(Child(i, key, n), x)
    ensures Child(i, key, n) == x
  {
    var c := Child(i, key, n);
    assert c.path[..|i.path|] == i.path;
  }

  lemma SlotsExpire(b: Book, b': Book, x: Id, i: Id, op: Op, slots: seq<Slot>)
    requires SlotsMean(b, i, op, slots) && Gone(x, b, b')
    ensures SlotsMean(b', i, op, slots)
  {
    forall n | 0 <= n < |slots| ensures SlotMeans(b', Child(i, op.key, n), op.kids[n], slots[n]) {
      var c := Child(i, op.key, n);
      if Covered(b.gone, c) { CoveredStays(b.gone, x, c); }
      if Under(c, x) { assert x in b'.gone; } else { GoneBeside(x, b, b', c); }
      SlotMeansKept(b, b', c, op.kids[n], slots[n]);
    }
  }

  // ---- Runs -----------------------------------------------------------------------------------

  /** Every fan-out result that was journaled holds, in each slot, what that child means now, unless it was deleted. */
  ghost predicate OriginsMean(b: Book, origin: map<Ref, Op>) {
    forall r :: r in origin ==>
      origin[r].FanOut? && r.key == FanOutKey(origin[r].key) && IsCompleted(b.steps, r) && b.steps[r].result.Slots? &&
      SlotsMean(b, r.id, origin[r], b.steps[r].result.slots)
  }

  ghost predicate ConfigOk(i: Id, op: Op, c: Config) {
    && ForestOk(c.book, i, op, c.nodes)
    && OriginsMean(c.book, c.origin) && forall r :: r in c.origin ==> OfChild(i, op, r.id)
  }

  lemma OriginsKept(b: Book, b': Book, origin: map<Ref, Op>)
    requires OriginsMean(b, origin) && b'.gone == b.gone
    requires forall r :: r in origin ==> Lookup(b'.steps, r) == Lookup(b.steps, r)
    requires forall r, n: nat :: r in origin && n < |origin[r].kids| ==>
      SameAccount(b, b', Child(r.id, origin[r].key, n))
    ensures OriginsMean(b', origin)
  {
    forall r | r in origin ensures SlotsMean(b', r.id, origin[r], b.steps[r].result.slots) {
      assert Lookup(b'.steps, r) == Lookup(b.steps, r);
      SlotsMeanKept(b, b', r.id, origin[r], b.steps[r].result.slots);
    }
  }

  lemma OriginsExpire(b: Book, b': Book, x: Id, origin: map<Ref, Op>)
    requires OriginsMean(b, origin) && Gone(x, b, b')
    ensures OriginsMean(b', OriginsNotUnder(origin, x))
  {
    forall r | r in OriginsNotUnder(origin, x) ensures
      IsCompleted(b'.steps, r) && b'.steps[r] == b.steps[r] &&
      SlotsMean(b', r.id, origin[r], b.steps[r].result.slots)
    {
      assert Lookup(b'.steps, r) == Lookup(b.steps, r);
      SlotsExpire(b, b', x, r.id, origin[r], b.steps[r].result.slots);
    }
  }

  /** A write that is not under the children of a journaled fan-out leaves what its slots mean. */
  lemma WriteBesideSlots(b: Book, w: Write, c: Id)
    requires Target(w).Some? ==> !Under(Target(w).value, c)
    ensures SameAccount(b, ApplyToBook(b, w), c)
  {
  }

  /** A write of a child leaves what holds of journaled results, and a result that it journals means what it should. */
  lemma WriteKeepsOrigins(b: Book, origin: map<Ref, Op>, w: Write)
    requires OriginsMean(b, origin)
    requires w.Journals? ==> w.r.key.Output? || !IsCompleted(b.steps, w.r)
    requires w.Journals? && w.op.FanOut? ==>
      w.r.key == FanOutKey(w.op.key) && w.d.Completed? && w.d.result.Slots? &&
      SlotsMean(b, w.r.id, w.op, w.d.result.slots)
    requires Target(w).Some? ==> forall r, n: nat :: r in origin && n < |origin[r].kids| ==>
      !Under(Target(w).value, Child(r.id, origin[r].key, n))
    ensures OriginsMean(ApplyToBook(b, w), if w.Journals? && w.op.FanOut? then origin[w.r := w.op] else origin)
  {
    var b' := ApplyToBook(b, w);
    forall r, n: nat | r in origin && n < |origin[r].kids|
      ensures SameAccount(b, b', Child(r.id, origin[r].key, n))
    {
      WriteBesideSlots(b, w, Child(r.id, origin[r].key, n));
    }
    OriginsKept(b, b', origin);
    if w.Journals? && w.op.FanOut? {
      forall n: nat ensures SameAccount(b, b', Child(w.r.id, w.op.key, n)) {
        WriteBesideSlots(b, w, Child(w.r.id, w.op.key, n));
      }
      SlotsMeanKept(b, b', w.r.id, w.op, w.d.result.slots);
    }
  }

  /** Fan-out keys hold fan-out results and nothing else. */
  lemma {:induction false} WriteKey(j: Steps, i: Id, wf: Workflow, x: Node, c: Choice)
    requires CanStep(j, i, wf, x, c)
    ensures
      var w := WriteOf(j, i, wf, x, c);
      w.Journals? ==> (w.r.key.FanOutKey? <==> w.op.FanOut?) && (w.op.FanOut? ==> w.r.key == FanOutKey(w.op.key))
    decreases c
  {
    if c.Inside? && x.Busy? {
      var op := wf(x.pc.h);
      WriteKey(j, Child(i, op.key, c.n), op.kids[c.n], x.nodes[c.n], c.choice);
    }
  }

  lemma ElsewhereKeeps(i: Id, op: Op, c: Config, r: Ref, d: Option<StepData>)
    requires ConfigOk(i, op, c) && CanHappen(i, op, c, Elsewhere(r, d))
    ensures ConfigOk(i, op, Happen(i, op, c, Elsewhere(r, d)))
  {
    var b, b' := c.book, Happen(i, op, c, Elsewhere(r, d)).book;
    forall n: nat | n < |op.kids| ensures SameUnder(Child(i, op.key, n), b, b') { }
    forall n | 0 <= n < |c.nodes| ensures NodeOk(b', Child(i, op.key, n), op.kids[n], c.nodes[n]) {
      NodeFrame(b, b', Child(i, op.key, n), op.kids[n], c.nodes[n]);
    }
    forall q, n: nat | q in c.origin && n < |c.origin[q].kids|
      ensures SameAccount(b, b', Child(q.id, c.origin[q].key, n))
    {
      OfChildBelow(i, op, q.id, c.origin[q].key, n);
    }
    OriginsKept(b, b', c.origin);
  }

  lemma OfChildBelow(i: Id, op: Op, c: Id, key: string, n: nat)
    requires op.FanOut? && OfChild(i, op, c)
    ensures OfChild(i, op, Child(c, key, n))
  {
    var m: nat :| m < |op.kids| && Under(c, Child(i, op.key, m));
    assert Under(Child(c, key, n), Child(i, op.key, m));
  }

  lemma ExpireKeeps(i: Id, op: Op, c: Config, x: Id)
    requires ConfigOk(i, op, c) && CanHappen(i, op, c, Expires(x))
    ensures ConfigOk(i, op, Happen(i, op, c, Expires(x)))
  {
    var c' := Happen(i, op, c, Expires(x));
    assert Gone(x, c.book, c'.book);
    BelowNotUnder(i, op, x);
    forall n | 0 <= n < |c.nodes| ensures NodeOk(c'.book, Child(i, op.key, n), op.kids[n], c.nodes[n]) {
      if Under(Child(i, op.key, n), x) { OnlyChildUnder(i, op.key, n, x); }
      NodeExpires(c.book, c'.book, x, Child(i, op.key, n), op.kids[n], c.nodes[n]);
    }
    OriginsExpire(c.book, c'.book, x, c.origin);
  }

  lemma BelowNotUnder(i: Id, op: Op, x: Id)
    requires op.FanOut? && OfChild(i, op, x)
    ensures !Under(i, x) && Below(x, i)
  {
  }

  /** A child's write is under no child of a fan-out whose result is journaled. */
  lemma WriteMissesSlots(b: Book, i: Id, op: Op, nodes: seq<Node>, n: nat, c: Choice, r: Ref, key: string, m: nat)
    requires ForestOk(b, i, op, nodes) && CanStepInside(b.steps, i, op, nodes, n, c)
    requires IsCompleted(b.steps, r) && r.key == FanOutKey(key) && Below(r.id, i)
    ensures
      var w := WriteOf(b.steps, Child(i, op.key, n), op.kids[n], nodes[n], c);
      Target(w).Some? ==> !Under(Target(w).value, Child(r.id, key, m))
  {
    var w, c0 := WriteOf(b.steps, Child(i, op.key, n), op.kids[n], nodes[n], c), Child(i, op.key, n);
    if Target(w).Some? && Under(Target(w).value, Child(r.id, key, m)) {
      var d := Target(w).value;
      WriteInside(b, c0, op.kids[n], nodes[n], c);
      ChildBelow(r.id, key, m, d);
      assert r.id.path[..|i.path| + 1] == d.path[..|i.path| + 1] == c0.path;
      WriterIsOpen(b, c0, op.kids[n], nodes[n], c, r.id, key, m);
    }
  }

  lemma MoveKeeps(i: Id, op: Op, c: Config, n: nat, choice: Choice)
    requires ConfigOk(i, op, c) && CanStepInside(c.book.steps, i, op, c.nodes, n, choice)
    ensures ConfigOk(i, op, Happen(i, op, c, Moves(n, choice)))
  {
    var w := WriteOf(c.book.steps, Child(i, op.key, n), op.kids[n], c.nodes[n], choice);
    ForestStepKeeps(c.book, i, op, c.nodes, n, choice);
    WriteInside(c.book, Child(i, op.key, n), op.kids[n], c.nodes[n], choice);
    WriteKey(c.book.steps, Child(i, op.key, n), op.kids[n], c.nodes[n], choice);
    forall r, m: nat | r in c.origin && m < |c.origin[r].kids|
      ensures Target(w).Some? ==> !Under(Target(w).value, Child(r.id, c.origin[r].key, m))
    {
      BelowNotUnder(i, op, r.id);
      WriteMissesSlots(c.book, i, op, c.nodes, n, choice, r, c.origin[r].key, m);
    }
    WriteKeepsOrigins(c.book, c.origin, w);
  }

  lemma EventKeeps(i: Id, op: Op, c: Config, e: Event)
    requires ConfigOk(i, op, c) && CanHappen(i, op, c, e)
    ensures ConfigOk(i, op, Happen(i, op, c, e))
  {
    match e
    case Moves(n, choice) => MoveKeeps(i, op, c, n, choice);
    case Interrupted =>
    case Expires(x) => ExpireKeeps(i, op, c, x);
    case Elsewhere(r, d) => ElsewhereKeeps(i, op, c, r, d);
  }

  lemma {:induction false} ConfigOkAlong(i: Id, op: Op, c: Config, events: seq<Event>)
    requires ConfigOk(i, op, c) && Play(i, op, c, events).Some?
    ensures ConfigOk(i, op, Play(i, op, c, events).value)
    decreases |events|
  {
    if |events| > 0 {
      ConfigOkAlong(i, op, c, events[..|events| - 1]);
      EventKeeps(i, op, Play(i, op, c, events[..|events| - 1]).value, events[|events| - 1]);
    }
  }

  /** Some event of the run is retention deleting `c`, alone or with an instance above it. */
  ghost predicate DeletedIn(events: seq<Event>, c: Id) {
    exists e :: e in events && e.Expires? && Under(c, e.c)
  }

  lemma {:induction false} ExpiredInRun(i: Id, op: Op, c: Config, events: seq<Event>, d: Id)
    requires op.FanOut? && Play(i, op, c, events).Some?
    ensures Covered(Play(i, op, c, events).value.book.gone, d) <==> Covered(c.book.gone, d) || DeletedIn(events, d)
    decreases |events|
  {
    if |events| > 0 {
      var n := |events| - 1;
      ExpiredInRun(i, op, c, events[..n], d);
      var before := Play(i, op, c, events[..n]).value;
      assert events == events[..n] + [events[n]];
      if events[n].Expires? && Covered(before.book.gone, d) { CoveredStays(before.book.gone, events[n].c, d); }
      if events[n].Expires? && Under(d, events[n].c) { assert events[n].c in before.book.gone + {events[n].c}; }
    }
  }

  /**
   What the slot of child `c` holds is what a run of `kid` came to which the tables bear out, each error that
   it was given included. If `kid` uses no key again after it gave an error, it is what `kid` comes to under the
   journal if and only if the journal leaves nothing open; if `kid` passes errors on, a value always is.
   */
  ghost predicate SlotIsExact(b: Book, c: Id, kid: Workflow, slot: Slot) {
    match slot
    case Won(v) =>
      && RanTo(b, c, kid, v)
      && (NoKeyRetried(kid) ==> (Denote(b.steps, c, kid) == Meaning.Done(v) <==> !Opens(b.steps, c, kid)))
      && (Propagates(kid) ==> Denote(b.steps, c, kid) == Meaning.Done(v))
    case Lost(_, e) =>
      && FailedWith(b, c, kid, e)
      && (NoKeyRetried(kid) ==> (FailsWith(b.steps, c, kid, e) <==> !Opens(b.steps, c, kid)))
  }

  /** The slot belongs to child `c`, and unless that was deleted in this run it holds what the child means now. */
  ghost predicate SlotDenotes(b: Book, events: seq<Event>, c: Id, kid: Workflow, slot: Slot) {
    (slot.Lost? ==> slot.child == c) && (!DeletedIn(events, c) ==> SlotIsExact(b, c, kid, slot))
  }

  lemma RanToIsExact(b: Book, i: Id, wf: Workflow, v: Value)
    requires RanTo(b, i, wf, v)
    ensures NoKeyRetried(wf) ==> (Denote(b.steps, i, wf) == Meaning.Done(v) <==> !Opens(b.steps, i, wf))
    ensures Propagates(wf) ==> Denote(b.steps, i, wf) == Meaning.Done(v)
  {
    var h :| BorneOut(b, i, wf, h) && wf(h) == Return(v);
    if NoKeyRetried(wf) { ReturnIsExact(b, i, wf, h, v); }
    if Propagates(wf) {
      NoErrorsIsDetermined(b.steps, i, wf, h);
      FaithfulIsConsistent(b.steps, i, wf, h);
      DenoteUnique(b.steps, i, wf, h, v);
    }
  }

  lemma SlotMeansIsExact(b: Book, c: Id, kid: Workflow, slot: Slot)
    requires SlotMeans(b, c, kid, slot) && !Covered(b.gone, c)
    ensures SlotIsExact(b, c, kid, slot)
  {
    match slot
    case Won(v) => RanToIsExact(b, c, kid, v);
    case Lost(_, e) =>
      var h :| BorneOut(b, c, kid, h) && kid(h) == Throw(e);
      if NoKeyRetried(kid) { ThrowIsExact(b, c, kid, h, e); }
  }

  /** A result that a nested fan-out journals in this run is remembered, as long as it stays. */
  lemma EventIsRemembered(i: Id, op: Op, c: Config, e: Event, r: Ref)
    requires op.FanOut? && CanHappen(i, op, c, e) && OfChild(i, op, r.id) && r.key.FanOutKey?
    requires IsCompleted(Happen(i, op, c, e).book.steps, r)
    ensures r in Happen(i, op, c, e).origin || (IsCompleted(c.book.steps, r) && r !in c.origin)
  {
    if e.Moves? { WriteKey(c.book.steps, Child(i, op.key, e.n), op.kids[e.n], c.nodes[e.n], e.choice); }
  }

  lemma {:induction false} RemembersAlong(i: Id, op: Op, j: Steps, meta: Metas, events: seq<Event>, r: Ref)
    requires op.FanOut? && Play(i, op, Fresh(j, meta, op), events).Some?
    requires OfChild(i, op, r.id) && r.key.FanOutKey? && !IsCompleted(j, r)
    requires IsCompleted(Play(i, op, Fresh(j, meta, op), events).value.book.steps, r)
    ensures r in Play(i, op, Fresh(j, meta, op), events).value.origin
    decreases |events|
  {
    if |events| > 0 {
      var before := Play(i, op, Fresh(j, meta, op), events[..|events| - 1]).value;
      EventIsRemembered(i, op, before, events[|events| - 1], r);
      if IsCompleted(before.book.steps, r) { RemembersAlong(i, op, j, meta, events[..|events| - 1], r); }
    }
  }

  /**
   Fan-out replay. Start a fan-out over any journal, interleave its children at will, interrupt and
   re-run it as often as you like: when it returns, slot `n` belongs to child `n`; it holds the value or
   the error of a run of that child which the tables bear out, and what the child comes to under the
   journal exactly if that leaves nothing open; or else retention deleted the child while the run lasted.
   The same goes for every fan-out result that was journaled further down meanwhile.
   */
  lemma ReturnedSlotsDenote(i: Id, op: Op, j: Steps, meta: Metas, events: seq<Event>)
    requires op.FanOut? && Play(i, op, Fresh(j, meta, op), events).Some?
    ensures
      var c := Play(i, op, Fresh(j, meta, op), events).value;
      CanCollect(op, c.nodes) ==>
        var slots := SlotsOf(i, op, c.nodes);
        && |slots| == |op.kids|
        && forall n :: 0 <= n < |slots| ==> SlotDenotes(c.book, events, Child(i, op.key, n), op.kids[n], slots[n])
    ensures
      var c := Play(i, op, Fresh(j, meta, op), events).value;
      forall r :: r in c.origin ==>
        var o, steps := c.origin[r], c.book.steps;
        && IsCompleted(steps, r) && steps[r].result.Slots? && o.FanOut? && |steps[r].result.slots| == |o.kids|
        && forall n :: 0 <= n < |o.kids| ==>
             SlotDenotes(c.book, events, Child(r.id, o.key, n), o.kids[n], steps[r].result.slots[n])
    ensures
      var c := Play(i, op, Fresh(j, meta, op), events).value;
      forall r: Ref ::
        OfChild(i, op, r.id) && r.key.FanOutKey? && IsCompleted(c.book.steps, r) && !IsCompleted(j, r) ==>
        r in c.origin
  {
    var c0 := Fresh(j, meta, op);
    ConfigOkAlong(i, op, c0, events);
    var c := Play(i, op, c0, events).value;
    forall r: Ref | OfChild(i, op, r.id) && r.key.FanOutKey? && IsCompleted(c.book.steps, r) && !IsCompleted(j, r)
      ensures r in c.origin
    {
      RemembersAlong(i, op, j, meta, events, r);
    }
    forall d ensures Covered(c.book.gone, d) <==> DeletedIn(events, d) { ExpiredInRun(i, op, c0, events, d); }
    if CanCollect(op, c.nodes) {
      CollectedSlotsMean(c.book, i, op, c.nodes);
      SlotsDenote(c.book, events, i, op, SlotsOf(i, op, c.nodes));
    }
    forall r | r in c.origin ensures
      forall n :: 0 <= n < |c.origin[r].kids| ==>
        SlotDenotes(c.book, events, Child(r.id, c.origin[r].key, n), c.origin[r].kids[n],
          c.book.steps[r].result.slots[n])
    {
      SlotsDenote(c.book, events, r.id, c.origin[r], c.book.steps[r].result.slots);
    }
  }

  lemma SlotsDenote(b: Book, events: seq<Event>, i: Id, op: Op, slots: seq<Slot>)
    requires SlotsMean(b, i, op, slots) && forall d :: Covered(b.gone, d) ==> DeletedIn(events, d)
    ensures forall n :: 0 <= n < |op.kids| ==> SlotDenotes(b, events, Child(i, op.key, n), op.kids[n], slots[n])
  {
    forall n | 0 <= n < |op.kids| ensures SlotDenotes(b, events, Child(i, op.key, n), op.kids[n], slots[n]) {
      var c := Child(i, op.key, n);
      if !DeletedIn(events, c) { SlotMeansIsExact(b, c, op.kids[n], slots[n]); }
    }
  }

  // ---- Nothing runs twice ---------------------------------------------------------------------

  /** The journal entry that a step is about: of the closure that returns, or of the fan-out that is under way. */
  ghost function Touched(i: Id, wf: Workflow, x: Node, c: Choice): Option<Ref>
    decreases c
  {
    if !x.Busy? then None
    else
      var op := wf(x.pc.h);
      if (c.ClosureReturn? || c.Collect? || c.Abort?) && op.IsJournaled() then Some(Ref(i, op.JournalKey()))
      else if c.Inside? && op.FanOut? && c.n < |x.nodes| && c.n < |op.kids| then
        Touched(Child(i, op.key, c.n), op.kids[c.n], x.nodes[c.n], c.choice)
      else None
  }

  lemma {:induction false} TouchedIsOpen(b: Book, i: Id, wf: Workflow, x: Node, c: Choice)
    requires NodeOk(b, i, wf, x) && CanStep(b.steps, i, wf, x, c) && Touched(i, wf, x, c).Some?
    ensures !IsCompleted(b.steps, Touched(i, wf, x, c).value) && Under(Touched(i, wf, x, c).value.id, i)
    ensures !Touched(i, wf, x, c).value.key.Output?
    decreases c
  {
    if c.Inside? {
      var op := wf(x.pc.h);
      TouchedIsOpen(b, Child(i, op.key, c.n), op.kids[c.n], x.nodes[c.n], c.choice);
      ChildBelow(i, op.key, c.n, Touched(i, wf, x, c).value.id);
    }
  }

  /** A Completed entry of a child is exactly as it was after any event but retention deleting that child. */
  lemma EntryStaysExactly(i: Id, op: Op, c: Config, e: Event, r: Ref)
    requires ConfigOk(i, op, c) && CanHappen(i, op, c, e)
    requires OfChild(i, op, r.id) && !r.key.Output? && IsCompleted(c.book.steps, r)
    ensures Lookup(Happen(i, op, c, e).book.steps, r) == Lookup(c.book.steps, r) <==> !(e.Expires? && Under(r.id, e.c))
  {
    if e.Moves? { WriteInside(c.book, Child(i, op.key, e.n), op.kids[e.n], c.nodes[e.n], e.choice); }
  }

  /** Completed entries of children survive every interleaving and interruption in which their child is not deleted. */
  lemma {:induction false} ChildEntryStays(i: Id, op: Op, c: Config, events: seq<Event>, r: Ref)
    requires ConfigOk(i, op, c) && Play(i, op, c, events).Some?
    requires OfChild(i, op, r.id) && !r.key.Output? && IsCompleted(c.book.steps, r)
    ensures Lookup(Play(i, op, c, events).value.book.steps, r) == Lookup(c.book.steps, r) || DeletedIn(events, r.id)
    decreases |events|
  {
    if |events| > 0 && !DeletedIn(events, r.id) {
      var before := events[..|events| - 1];
      ChildEntryStays(i, op, c, before, r);
      ConfigOkAlong(i, op, c, before);
      EntryStaysExactly(i, op, Play(i, op, c, before).value, events[|events| - 1], r);
    }
  }

  /**
   Once a child step is Completed its closure never returns again, and once a nested fan-out is
   Completed it is never under way again, in this run of the parent or in any later one, unless
   retention has deleted the child in between.
   */
  lemma NoChildRunsAgain(i: Id, op: Op, c: Config, events: seq<Event>, n: nat, choice: Choice)
    requires ConfigOk(i, op, c) && Play(i, op, c, events).Some?
    requires
      var c' := Play(i, op, c, events).value;
      CanStepInside(c'.book.steps, i, op, c'.nodes, n, choice)
    ensures
      var touched := Touched(Child(i, op.key, n), op.kids[n], Play(i, op, c, events).value.nodes[n], choice);
      touched.Some? && IsCompleted(c.book.steps, touched.value) ==> DeletedIn(events, touched.value.id)
  {
    ConfigOkAlong(i, op, c, events);
    var c' := Play(i, op, c, events).value;
    var touched := Touched(Child(i, op.key, n), op.kids[n], c'.nodes[n], choice);
    if touched.Some? && IsCompleted(c.book.steps, touched.value) {
      TouchedIsOpen(c'.book, Child(i, op.key, n), op.kids[n], c'.nodes[n], choice);
      assert OfChild(i, op, touched.value.id);
      ChildEntryStays(i, op, c, events, touched.value);
    }
  }

  /** When the result of a fan-out is journaled, performing it returns that result and starts no child. */
  lemma CachedFanOutSpawnsNothing(j: Steps, i: Id, wf: Workflow, h: History)
    requires wf(h).FanOut? && LegalOp(wf(h)) && IsCompleted(j, Ref(i, FanOutKey(wf(h).key)))
    ensures
      var v := j[Ref(i, FanOutKey(wf(h).key))].result;
      var x := StepNode(j, i, wf, Busy(At(h), []), Choice.Perform);
      x == Busy(At(h + [if v.ty == wf(h).ty then Got(v) else Caught("type mismatch")]), [])
  {
  }

  /** What children write are the writes that the protocol allows a task in a fan-out, and so is the result. */
  lemma ChildrenFollowProtocol(w: World, t: nat, nodes: seq<Node>, n: nat, choice: Choice)
    requires IsWorker(w, t) && w.threads[t].pc.InFanOut? && CurrentOp(w.threads[t]).FanOut?
    requires |w.threads[t].id.path| > 0
    requires ForestOk(BookOf(w), w.threads[t].id, CurrentOp(w.threads[t]), nodes)
    requires CanStepInside(w.store.steps, w.threads[t].id, CurrentOp(w.threads[t]), nodes, n, choice)
    ensures
      var i, op := w.threads[t].id, CurrentOp(w.threads[t]);
      var write := WriteOf(w.store.steps, Child(i, op.key, n), op.kids[n], nodes[n], choice);
      && (write.Journals? ==> TaskEnabled(w, t, ChildStep(write.r, write.d)))
      && (write.Records? ==> TaskEnabled(w, t, ChildMeta(write.i, write.m)))
  {
    var i, op := w.threads[t].id, CurrentOp(w.threads[t]);
    var write := WriteOf(w.store.steps, Child(i, op.key, n), op.kids[n], nodes[n], choice);
    WriteInside(BookOf(w), Child(i, op.key, n), op.kids[n], nodes[n], choice);
    if Target(write).Some? { ChildBelow(i, op.key, n, Target(write).value); }
  }

  /** What a fan-out comes to, be it a vector or the error of a child, the protocol allows its task to gather. */
  lemma EndsFollowProtocol(w: World, t: nat, nodes: seq<Node>)
    requires IsWorker(w, t) && w.threads[t].pc.InFanOut? && CurrentOp(w.threads[t]).FanOut?
    requires ForestOk(BookOf(w), w.threads[t].id, CurrentOp(w.threads[t]), nodes)
    ensures
      var i, op := w.threads[t].id, CurrentOp(w.threads[t]);
      && (CanCollect(op, nodes) ==> TaskEnabled(w, t, Gather(Okay(Slots(op.ty, SlotsOf(i, op, nodes))))))
      && forall n :: 0 <= n < |nodes| && Breaks(op, nodes[n]) ==>
           TaskEnabled(w, t, Gather(Permanent(AbortError(nodes[n]))))
  {
  }

  /** What an expiry does to the tables is what the protocol's deletion of that instance does. */
  lemma ExpiryFollowsProtocol(w: World, c: Config, x: Id)
    requires c.book == BookOf(w) && IsTerminal(w.store.meta, x) && Quiet(w)
    ensures EngineEnabled(w, Cleanup(x))
    ensures Expire(c, x).book == BookOf(EngineNext(w, Cleanup(x)))
  {
  }
}
