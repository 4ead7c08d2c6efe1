/**
 Inline fan-out. The children of a fan-out run concurrently under a semaphore and write the shared
 tables; each child is interpreted like a top-level task, and may fan out again with a semaphore
 of its own. One choice of a scheduler is one step of one child at some depth.
 */
module FanOut {
  import opened Options
  import opened Storage
  import opened Workflows
  import opened Keys
  import opened Accounts
  import opened Protocol
  import opened Replay

  datatype Node =
    | Idle                                 // waits for a permit
    | Entered                              // has its permit, metadata not yet written
    | Busy(pc: Pc, nodes: seq<Node>)       // `nodes` are its own children while it is InFanOut
    | Done(h: History, result: RunResult)  // permit given back
    | Panicked

  datatype Choice =
    | Acquire
    | Enter
    | Perform
    | ClosureReturn(outcome: Outcome, shown: Option<string>)
    | Save
    | WriteOutput
    | WriteResult(last: Option<string>, nowSecs: nat)
    | Panic
    | Inside(n: nat, choice: Choice)       // child `n` makes a step
    | Collect                              // every child has been joined
    | Abort(n: nat)                        // joining child `n` ends the fan-out with an error

  /** Inline children contain steps and nested fan-outs only. */
  predicate InlineOp(op: Op) { !op.Suspend? && !op.Timer? }

  function Max(a: nat, b: nat): nat { if a >= b then a else b }

  function Limit(op: Op): nat
    requires op.FanOut?
  {
    op.limit.GetOr(Max(|op.kids|, 1))
  }

  predicate HoldsPermit(x: Node) { x.Entered? || x.Busy? }

  function Holders(nodes: seq<Node>): nat {
    if |nodes| == 0 then 0 else Holders(nodes[..|nodes| - 1]) + (if HoldsPermit(nodes[|nodes| - 1]) then 1 else 0)
  }

  ghost predicate AllDone(nodes: seq<Node>) { forall n :: 0 <= n < |nodes| ==> nodes[n].Done? }

  /** Joining this child makes the collector give up. */
  predicate Breaks(op: Op, x: Node)
    requires op.FanOut?
  {
    x.Panicked? || (op.failFast && x.Done? && !x.result.Success?)
  }

  function Idles(n: nat): (nodes: seq<Node>)
    ensures |nodes| == n && forall m :: 0 <= m < n ==> nodes[m] == Idle
  {
    seq(n, _ => Idle)
  }

  function ErrorOf(result: RunResult): string {
    match result
    case Failure(e) => e
    case SuspendedAt(key) => key
    case Success => ""
  }

  /** The error that ends a fan-out early is that of the child which was joined. */
  function AbortError(x: Node): string {
    if x.Done? then ErrorOf(x.result) else PANICKED
  }

  /** The slot of a child in the result vector. */
  ghost function SlotOf(i: Id, op: Op, n: nat, x: Node): Slot
    requires op.FanOut? && n < |op.kids| && x.Done?
  {
    var out := op.kids[n](x.h);
    if x.result.Success? && out.Return? then Won(out.out) else Lost(Child(i, op.key, n), ErrorOf(x.result))
  }

  ghost function SlotsOf(i: Id, op: Op, nodes: seq<Node>): (slots: seq<Slot>)
    requires op.FanOut? && |nodes| == |op.kids| && AllDone(nodes)
    ensures |slots| == |nodes| && forall n :: 0 <= n < |nodes| ==> slots[n] == SlotOf(i, op, n, nodes[n])
  {
    seq(|nodes|, n requires 0 <= n < |nodes| => SlotOf(i, op, n, nodes[n]))
  }

  // ---- What a scheduler may choose ------------------------------------------------------------

  ghost predicate CanCollect(op: Op, nodes: seq<Node>)
    requires op.FanOut?
  {
    && |nodes| == |op.kids| && AllDone(nodes)
    && (op.failFast ==> forall n :: 0 <= n < |nodes| ==> nodes[n].result.Success?)
  }

  /** To start, child `n` needs a permit of the semaphore of its own fan-out. */
  ghost predicate Permitted(op: Op, nodes: seq<Node>, n: nat, c: Choice)
    requires op.FanOut?
  {
    n < |nodes| == |op.kids| && (c.Acquire? ==> Holders(nodes) < Limit(op))
  }

  ghost predicate CanStep(j: Steps, i: Id, wf: Workflow, x: Node, c: Choice)
    decreases c
  {
    match x
    case Idle => c.Acquire?
    case Entered => c.Enter? || c.Panic?
    case Busy(pc, nodes) =>
      var op := wf(pc.h);
      (match c
       case Perform => pc.At? && InlineOp(op) && LegalOp(op)
       case ClosureReturn(o, _) =>
         && pc.InClosure? && op.Step? && pc.attempt < Attempts(op.maxRetries) && (o.Okay? ==> o.value.ty == op.ty)
       case Save => pc.Saving? && op.IsJournaled()
       case WriteOutput => pc.Outputting? && op.Return?
       case WriteResult(_, _) => pc.Finishing?
       case Inside(n, c') =>
         && pc.InFanOut? && op.FanOut? && Permitted(op, nodes, n, c')
         && CanStep(j, Child(i, op.key, n), op.kids[n], nodes[n], c')
       case Collect => pc.InFanOut? && op.FanOut? && CanCollect(op, nodes)
       case Abort(n) => pc.InFanOut? && op.FanOut? && n < |nodes| && Breaks(op, nodes[n])
       case Panic => true
       case _ => false)
    case _ => false
  }

  /** Child `n` of the fan-out `op` of instance `i` can make step `c`. */
  ghost predicate CanStepInside(j: Steps, i: Id, op: Op, nodes: seq<Node>, n: nat, c: Choice)
    requires op.FanOut?
  {
    Permitted(op, nodes, n, c) && CanStep(j, Child(i, op.key, n), op.kids[n], nodes[n], c)
  }

  // ---- What it does ---------------------------------------------------------------------------

  ghost function StepNode(j: Steps, i: Id, wf: Workflow, x: Node, c: Choice): Node
    requires CanStep(j, i, wf, x, c)
    decreases c
  {
    match x
    case Idle => Entered
    case Entered => if c.Panic? then Panicked else Busy(At([]), [])
    case Busy(pc, nodes) =>
      var op := wf(pc.h);
      match c
      case Panic => Panicked
      case Perform =>
        var pc' := PerformEffect(j, 0, i, pc.h, op).pc;
        Busy(pc', if pc'.InFanOut? && op.FanOut? then Idles(|op.kids|) else [])
      case ClosureReturn(o, shown) => Busy(ClosurePc(pc.h, pc.attempt, op.maxRetries, shown, o), [])
      case Save => Busy(At(pc.h + [pc.seen]), [])
      case WriteOutput => Busy(Finishing(pc.h, Success), [])
      case WriteResult(_, _) => Node.Done(pc.h, pc.result)
      case Inside(n, c') => Busy(pc, nodes[n := StepNode(j, Child(i, op.key, n), op.kids[n], nodes[n], c')])
      case Collect =>
        var v := Slots(op.ty, SlotsOf(i, op, nodes));
        Busy(Saving(pc.h, Completed(v, None), Got(v)), [])
      case Abort(n) => Busy(At(pc.h + [Caught(AbortError(nodes[n]))]), [])
  }

  ghost function StepInside(j: Steps, i: Id, op: Op, nodes: seq<Node>, n: nat, c: Choice): (nodes': seq<Node>)
    requires op.FanOut? && CanStepInside(j, i, op, nodes, n, c)
    ensures |nodes'| == |nodes|
  {
    nodes[n := StepNode(j, Child(i, op.key, n), op.kids[n], nodes[n], c)]
  }

  /** The status that a child is recorded with at its end. Whatever error it ends with, it has failed. */
  function ChildStatus(i: Id, result: RunResult, last: Option<string>): MetadataStatus {
    if result.Success? then Finished(last) else Errored(ChildFailure(i, ErrorOf(result)))
  }

  /** The transaction of a step, if it is one. `op` is the operation that journals. */
  datatype Write = NoWrite | Journals(r: Ref, d: StepData, op: Op) | Records(i: Id, m: Metadata)

  ghost function WriteOf(j: Steps, i: Id, wf: Workflow, x: Node, c: Choice): Write
    requires CanStep(j, i, wf, x, c)
    decreases c
  {
    match x
    case Entered => if c.Enter? then Records(i, Metadata(Running, None)) else NoWrite
    case Busy(pc, nodes) =>
      var op := wf(pc.h);
      (match c
       case Save => Journals(Ref(i, op.JournalKey()), pc.data, op)
       case WriteOutput => Journals(Ref(i, Output), Completed(op.out, None), op)
       case WriteResult(last, nowSecs) => Records(i, NewMetadata(ChildStatus(i, pc.result, last), nowSecs))
       case Inside(n, c') => WriteOf(j, Child(i, op.key, n), op.kids[n], nodes[n], c')
       case _ => NoWrite)
    case _ => NoWrite
  }

  function ApplyToSteps(j: Steps, w: Write): Steps {
    if w.Journals? then j[w.r := w.d] else j
  }

  function ApplyToMeta(meta: Metas, w: Write): Metas {
    if w.Records? then meta[w.i := w.m] else meta
  }

  function MishapsOf(w: Write): set<Mishap> {
    match w
    case NoWrite => {}
    case Journals(r, d, _) => InEntry(r, d)
    case Records(i, m) => InRecord(i, m)
  }

  ghost function ApplyToBook(b: Book, w: Write): (b': Book)
    ensures w.NoWrite? ==> b' == b
  {
    b.(steps := ApplyToSteps(b.steps, w), meta := ApplyToMeta(b.meta, w), past := b.past + MishapsOf(w))
  }

  // ---- Runs of one fan-out --------------------------------------------------------------------

  /**
   A step of some child; an interruption after which the fan-out is run again from its start;
   retention deleting what finished; or anything done to an entry that belongs to no child.
   */
  datatype Event =
    | Moves(n: nat, choice: Choice)
    | Interrupted
    | Expires(c: Id)
    | Elsewhere(r: Ref, d: Option<StepData>)

  /** `origin` remembers which fan-out operation journaled a result. Nothing depends on it. */
  datatype Config = Config(book: Book, nodes: seq<Node>, origin: map<Ref, Op>)

  ghost predicate CanHappen(i: Id, op: Op, c: Config, e: Event)
    requires op.FanOut?
  {
    match e
    case Moves(n, choice) => CanStepInside(c.book.steps, i, op, c.nodes, n, choice)
    case Interrupted => true
    case Expires(x) => OfChild(i, op, x) && IsTerminal(c.book.meta, x)
    case Elsewhere(r, _) => !OfChild(i, op, r.id)
  }

  ghost function OriginsNotUnder(origin: map<Ref, Op>, x: Id): map<Ref, Op> {
    map r | r in origin && !Under(r.id, x) :: origin[r]
  }

  ghost function Expire(c: Config, x: Id): Config {
    var s := DeleteTxn(Store(c.book.steps, c.book.meta, map[]), x);
    Config(Book(s.steps, s.meta, c.book.gone + {x}, c.book.past), c.nodes, OriginsNotUnder(c.origin, x))
  }

  ghost function Happen(i: Id, op: Op, c: Config, e: Event): Config
    requires op.FanOut? && CanHappen(i, op, c, e)
  {
    match e
    case Moves(n, choice) =>
      var w := WriteOf(c.book.steps, Child(i, op.key, n), op.kids[n], c.nodes[n], choice);
      Config(
        ApplyToBook(c.book, w),
        StepInside(c.book.steps, i, op, c.nodes, n, choice),
        if w.Journals? && w.op.FanOut? then c.origin[w.r := w.op] else c.origin)
    case Interrupted => c.(nodes := Idles(|op.kids|))
    case Expires(x) => Expire(c, x)
    case Elsewhere(r, d) =>
      var steps := if d.Some? then c.book.steps[r := d.value] else c.book.steps - {r};
      c.(book := c.book.(steps := steps))
  }

  /** The start of a fan-out, over whatever the journal holds by then. */
  function Fresh(j: Steps, meta: Metas, op: Op): Config
    requires op.FanOut?
  {
    Config(Book(j, meta, {}, {}), Idles(|op.kids|), map[])
  }

  ghost function Play(i: Id, op: Op, c: Config, events: seq<Event>): Option<Config>
    requires op.FanOut?
  {
    if |events| == 0 then Some(c)
    else
      var before := Play(i, op, c, events[..|events| - 1]);
      var e := events[|events| - 1];
      if before.Some? && CanHappen(i, op, before.value, e) then Some(Happen(i, op, before.value, e)) else None
  }
}
