/**
 Fan-out families in retention. As long as no fan-out of an instance is broken off, every descendant
 has reached its terminal state when the results are collected, and no later than its parent will.
 So the retention pass that takes the parent takes its whole family.
 */
module FanOutFamilies {
  import opened Options
  import opened Storage
  import opened Workflows
  import opened Keys
  import opened Accounts
  import opened Protocol
  import opened Ownership
  import opened Replay
  import opened Errors
  import opened Retention
  import opened FanOut
  import opened FanOutReplay
  import opened FanOutWorld

  // ---- Trees -----------------------------------------------------------------------------------

  /** The record of `d` is terminal, and no later than `latest`. */
  predicate StampedBy(meta: Metas, d: Id, latest: nat) {
    d in meta && meta[d].completedAt.Some? && meta[d].completedAt.value <= latest
  }

  ghost predicate UnderStamped(meta: Metas, i: Id, latest: nat) {
    forall d :: d in meta && Under(d, i) ==> StampedBy(meta, d, latest)
  }

  ghost predicate BelowStamped(meta: Metas, i: Id, latest: nat) {
    forall d :: d in meta && Below(d, i) ==> StampedBy(meta, d, latest)
  }

  /** Descendants of `i` that do not belong to a child now running. */
  ghost predicate RestStamped(meta: Metas, i: Id, key: string, count: nat, latest: nat) {
    forall d :: d in meta && Below(d, i) ==>
      StampedBy(meta, d, latest) || exists n: nat :: n < count && Under(d, Child(i, key, n))
  }

  ghost predicate FamilyOk(meta: Metas, i: Id, wf: Workflow, x: Node, latest: nat)
    decreases x
  {
    match x
    case Busy(pc, nodes) =>
      if pc.InFanOut? then ForestFamily(meta, i, wf(pc.h), nodes, latest) else BelowStamped(meta, i, latest)
    case Panicked => false
    case _ => UnderStamped(meta, i, latest)
  }

  ghost predicate ForestFamily(meta: Metas, i: Id, op: Op, nodes: seq<Node>, latest: nat)
    decreases nodes
  {
    && op.FanOut? && |nodes| == |op.kids| && RestStamped(meta, i, op.key, |nodes|, latest)
    && forall n :: 0 <= n < |nodes| ==> FamilyOk(meta, Child(i, op.key, n), op.kids[n], nodes[n], latest)
  }

  /** No panic and no abort, at any depth. */
  predicate Smooth(c: Choice) { !c.Panic? && !c.Abort? && (c.Inside? ==> Smooth(c.choice)) }

  /** Nothing under `i` is new or has changed; something may be gone. */
  ghost predicate LessUnder(i: Id, meta: Metas, meta': Metas) {
    forall d :: d in meta' && Under(d, i) ==> d in meta && meta'[d] == meta[d]
  }

  lemma {:induction false} FamilyFrame(meta: Metas, meta': Metas, i: Id, wf: Workflow, x: Node, latest: nat, later: nat)
    requires FamilyOk(meta, i, wf, x, latest) && LessUnder(i, meta, meta') && latest <= later
    ensures FamilyOk(meta', i, wf, x, later)
    decreases x
  {
    if x.Busy? && x.pc.InFanOut? {
      var op := wf(x.pc.h);
      forall n | 0 <= n < |x.nodes| ensures FamilyOk(meta', Child(i, op.key, n), op.kids[n], x.nodes[n], later) {
        forall d | Under(d, Child(i, op.key, n)) ensures Under(d, i) { ChildBelow(i, op.key, n, d); }
        FamilyFrame(meta, meta', Child(i, op.key, n), op.kids[n], x.nodes[n], latest, later);
      }
    }
  }

  lemma ForestFamilyFrame(meta: Metas, meta': Metas, i: Id, op: Op, nodes: seq<Node>, latest: nat, later: nat)
    requires ForestFamily(meta, i, op, nodes, latest) && latest <= later
    requires forall d :: d in meta' && Below(d, i) ==> d in meta && meta'[d] == meta[d]
    ensures ForestFamily(meta', i, op, nodes, later)
  {
    forall n | 0 <= n < |nodes| ensures FamilyOk(meta', Child(i, op.key, n), op.kids[n], nodes[n], later) {
      forall d | Under(d, Child(i, op.key, n)) ensures Below(d, i) { ChildBelow(i, op.key, n, d); }
      FamilyFrame(meta, meta', Child(i, op.key, n), op.kids[n], nodes[n], latest, later);
    }
  }

  lemma {:induction false} StepKeepsFamily(
    b: Book, meta: Metas, i: Id, wf: Workflow, x: Node, c: Choice, now: nat)
    requires NodeOk(b, i, wf, x) && CanStep(b.steps, i, wf, x, c) && Smooth(c) && StampsNow(c, now)
    requires FamilyOk(meta, i, wf, x, now)
    ensures FamilyOk(ApplyToMeta(meta, WriteOf(b.steps, i, wf, x, c)), i, wf, StepNode(b.steps, i, wf, x, c), now)
    decreases c
  {
    if c.Inside? {
      var op := wf(x.pc.h);
      StepKeepsFamily(b, meta, Child(i, op.key, c.n), op.kids[c.n], x.nodes[c.n], c.choice, now);
      OthersKeepFamily(b, meta, i, op, x.nodes, c.n, c.choice, now);
    } else if x.Busy? {
      OwnStepKeepsFamily(b, meta, i, wf, x, c, now);
    }
  }

  lemma OwnStepKeepsFamily(b: Book, meta: Metas, i: Id, wf: Workflow, x: Node, c: Choice, now: nat)
    requires x.Busy? && NodeOk(b, i, wf, x) && CanStep(b.steps, i, wf, x, c)
    requires !c.Inside? && Smooth(c) && StampsNow(c, now) && FamilyOk(meta, i, wf, x, now)
    ensures FamilyOk(ApplyToMeta(meta, WriteOf(b.steps, i, wf, x, c)), i, wf, StepNode(b.steps, i, wf, x, c), now)
  {
    var op := wf(x.pc.h);
    if c.Perform? && op.FanOut? { SpawnedFamily(meta, i, op, now); }
    if c.Collect? { CollectedFamily(meta, i, op, x.nodes, now); }
  }

  lemma SpawnedFamily(meta: Metas, i: Id, op: Op, latest: nat)
    requires op.FanOut? && BelowStamped(meta, i, latest)
    ensures ForestFamily(meta, i, op, Idles(|op.kids|), latest)
  {
  }

  /** When a fan-out collects, all its descendants are stamped. */
  lemma CollectedFamily(meta: Metas, i: Id, op: Op, nodes: seq<Node>, latest: nat)
    requires op.FanOut? && CanCollect(op, nodes) && ForestFamily(meta, i, op, nodes, latest)
    ensures BelowStamped(meta, i, latest)
  {
  }

  lemma OthersKeepFamily(
    b: Book, meta: Metas, i: Id, op: Op, nodes: seq<Node>, n: nat, c: Choice, latest: nat)
    requires ForestOk(b, i, op, nodes) && CanStepInside(b.steps, i, op, nodes, n, c)
    requires ForestFamily(meta, i, op, nodes, latest)
    ensures
      var meta' := ApplyToMeta(meta, WriteOf(b.steps, Child(i, op.key, n), op.kids[n], nodes[n], c));
      && RestStamped(meta', i, op.key, |nodes|, latest)
      && forall m :: 0 <= m < |nodes| && m != n ==> FamilyOk(meta', Child(i, op.key, m), op.kids[m], nodes[m], latest)
  {
    var w := WriteOf(b.steps, Child(i, op.key, n), op.kids[n], nodes[n], c);
    var meta' := ApplyToMeta(meta, w);
    WriteInside(b, Child(i, op.key, n), op.kids[n], nodes[n], c);
    forall m | 0 <= m < |nodes| && m != n ensures FamilyOk(meta', Child(i, op.key, m), op.kids[m], nodes[m], latest) {
      if w.Records? && Under(w.i, Child(i, op.key, m)) { SiblingsApart(i, op.key, n, op.key, m, w.i); }
      FamilyFrame(meta, meta', Child(i, op.key, m), op.kids[m], nodes[m], latest, latest);
    }
  }

  lemma ForestStepKeepsFamily(
    b: Book, meta: Metas, i: Id, op: Op, nodes: seq<Node>, n: nat, c: Choice, now: nat)
    requires ForestOk(b, i, op, nodes) && CanStepInside(b.steps, i, op, nodes, n, c) && Smooth(c)
    requires StampsNow(c, now)
    requires ForestFamily(meta, i, op, nodes, now)
    ensures
      var w := WriteOf(b.steps, Child(i, op.key, n), op.kids[n], nodes[n], c);
      ForestFamily(ApplyToMeta(meta, w), i, op, StepInside(b.steps, i, op, nodes, n, c), now)
  {
    StepKeepsFamily(b, meta, Child(i, op.key, n), op.kids[n], nodes[n], c, now);
    OthersKeepFamily(b, meta, i, op, nodes, n, c, now);
  }

  // ---- Runs of the protocol --------------------------------------------------------------------

  /** Task `t` is in a fan-out of instance `i`. */
  ghost predicate FansOut(w: World, t: nat, i: Id) { Fanning(w, t) && w.threads[t].id == i }

  /** The turn breaks off a fan-out of `i`: a crash, a panic, or an error that ends it before all children are done. */
  ghost predicate BreaksOff(g: Grove, turn: Turn, i: Id) {
    match turn
    case Plain(Engine(Crash(_))) => exists t :: FansOut(g.w, t, i)
    case Plain(Task(t, Panic)) => FansOut(g.w, t, i)
    case ChildMoves(t, _, choice) => FansOut(g.w, t, i) && !Smooth(choice)
    case GivesUp(t, _) => FansOut(g.w, t, i)
    case _ => false
  }

  ghost function NowSecs(w: World): nat { w.now / 1000 }

  /** When `i` finished; now, if it has not. */
  ghost function FinishedBy(w: World, i: Id): nat {
    if i in w.store.meta && w.store.meta[i].completedAt.Some? then w.store.meta[i].completedAt.value else NowSecs(w)
  }

  ghost predicate FamilyFits(g: Grove, i: Id) {
    && FinishedBy(g.w, i) <= NowSecs(g.w)
    && (forall t :: FansOut(g.w, t, i) ==>
          t in g.forests && ForestFamily(g.w.store.meta, i, CurrentOp(g.w.threads[t]), g.forests[t], NowSecs(g.w)))
    && ((forall t :: !FansOut(g.w, t, i)) ==> BelowStamped(g.w.store.meta, i, FinishedBy(g.w, i)))
  }

  lemma OneFansOut(w: World, t: nat, u: nat, i: Id)
    requires Owning(w) && IsWorker(w, t) && w.threads[t].id == i && IsWorker(w, u) && w.threads[u].id == i
    ensures t == u && TopLevel(i) && IsRunning(w.store.meta, i)
    ensures FinishedBy(w, i) == NowSecs(w)
  {
    assert Owns(w.threads[t], i) && Owns(w.threads[u], i);
  }

  lemma LaterStamps(meta: Metas, meta': Metas, i: Id, latest: nat, later: nat)
    requires BelowStamped(meta, i, latest) && latest <= later
    requires forall d :: d in meta' && Below(d, i) ==> d in meta && meta'[d] == meta[d]
    ensures BelowStamped(meta', i, later)
  {
  }

  // ---- Actions that are no child's -------------------------------------------------------------

  /** The record of `i` stays, or is made now, or is of a live instance; and time does not go back. */
  ghost predicate RecordMoves(w: World, w': World, i: Id) {
    && w.now <= w'.now
    && (Lookup(w'.store.meta, i) == Lookup(w.store.meta, i) || FinishedBy(w', i) == NowSecs(w'))
  }

  lemma TaskRecordMoves(w: World, t: nat, a: TaskAction, w': World, i: Id)
    requires TaskEnabled(w, t, a) && w' == TaskNext(w, t, a) && !OfChildren(Task(t, a))
    ensures RecordMoves(w, w', i)
  {
  }

  lemma ApiRecordMoves(w: World, t: nat, a: ApiAction, w': World, i: Id)
    requires ApiEnabled(w, t, a) && w' == ApiNext(w, t, a)
    ensures RecordMoves(w, w', i)
  {
  }

  lemma PlainRecordMoves(w: World, a: Action, w': World, i: Id)
    requires Enabled(w, a) && !OfChildren(a) && w' == Next(w, a)
    ensures RecordMoves(w, w', i)
  {
    match a
    case Api(t, x) => ApiRecordMoves(w, t, x, w', i);
    case Task(t, x) => TaskRecordMoves(w, t, x, w', i);
    case Poll(t, x) => PollRecordMoves(w, t, x, w', i);
    case Engine(x) => EngineRecordMoves(w, x, w', i);
  }

  lemma PollRecordMoves(w: World, t: nat, a: PollAction, w': World, i: Id)
    requires PollEnabled(w, t, a) && w' == PollNext(w, t, a)
    ensures RecordMoves(w, w', i)
  {
    PollFrame(w, t, a, w');
  }

  lemma EngineRecordMoves(w: World, a: EngineAction, w': World, i: Id)
    requires EngineEnabled(w, a) && w' == EngineNext(w, a)
    ensures RecordMoves(w, w', i)
  {
  }

  /** What a plain action leaves of the records below `i`. */
  lemma PlainLessBelow(w: World, a: Action, w': World, i: Id)
    requires Owning(w) && Enabled(w, a) && !OfChildren(a) && w' == Next(w, a) && TopLevel(i)
    ensures forall d :: d in w'.store.meta && Below(d, i) ==> d in w.store.meta && w'.store.meta[d] == w.store.meta[d]
  {
    if !(a.Engine? && a.event.Cleanup?) {
      PlainWritesLittle(w, a, w');
      forall d | d in w'.store.meta && Below(d, i) ensures Lookup(w'.store.meta, d) == Lookup(w.store.meta, d) {
        BelowIsDeep(d, i);
      }
    }
  }

  /** A fan-out goes on through every plain action that does not break it off. */
  lemma FanOutGoesOn(g: Grove, a: Action, i: Id, t: nat)
    requires CanTurn(g, Plain(a)) && FansOut(g.w, t, i) && !BreaksOff(g, Plain(a), i)
    ensures FansOut(Next(g.w, a), t, i)
  {
    match a
    case Poll(u, x) => PollLeavesTasks(g.w, u, x, Next(g.w, a), t);
    case _ =>
  }

  lemma PollLeavesTasks(w: World, u: nat, a: PollAction, w': World, t: nat)
    requires PollEnabled(w, u, a) && w' == PollNext(w, u, a) && IsWorker(w, t)
    ensures IsWorker(w', t) && w'.threads[t] == w.threads[t]
  {
  }

  /** As long as its task is somewhere else, no fan-out of `i` is under way. */
  lemma NobodyFansOut(w: World, t: nat, i: Id)
    requires Owning(w) && IsWorker(w, t) && w.threads[t].id == i && !w.threads[t].pc.InFanOut?
    ensures forall u :: !FansOut(w, u, i)
  {
    forall u ensures !FansOut(w, u, i) { if FansOut(w, u, i) { OneFansOut(w, t, u, i); } }
  }

  lemma PlainKeepsForest(g: Grove, a: Action, g': Grove, i: Id, t: nat)
    requires Owning(g.w) && FamilyFits(g, i) && TopLevel(i) && Enabled(g.w, a) && !OfChildren(a)
    requires g'.w == Next(g.w, a) && g'.forests == PlainForests(g, a) && FansOut(g'.w, t, i)
    ensures t in g'.forests
    ensures ForestFamily(g'.w.store.meta, i, CurrentOp(g'.w.threads[t]), g'.forests[t], NowSecs(g'.w))
  {
    PlainMovesLittle(g.w, a, g'.w);
    PlainLessBelow(g.w, a, g'.w, i);
    PlainRecordMoves(g.w, a, g'.w, i);
    var op := CurrentOp(g'.w.threads[t]);
    if a == Task(t, TaskAction.Perform) {
      NobodyFansOut(g.w, t, i);
      LaterStamps(g.w.store.meta, g'.w.store.meta, i, FinishedBy(g.w, i), NowSecs(g'.w));
      SpawnedFamily(g'.w.store.meta, i, op, NowSecs(g'.w));
    } else {
      assert IsWorker(g.w, t) && g.w.threads[t] == g'.w.threads[t];
      assert FansOut(g.w, t, i) && t in g'.forests && g'.forests[t] == g.forests[t];
      ForestFamilyFrame(g.w.store.meta, g'.w.store.meta, i, op, g.forests[t], NowSecs(g.w), NowSecs(g'.w));
    }
  }

  lemma PlainKeepsFamily(g: Grove, a: Action, i: Id)
    requires GroveOk(g) && FamilyFits(g, i) && TopLevel(i) && CanTurn(g, Plain(a)) && !BreaksOff(g, Plain(a), i)
    ensures FamilyFits(TakeTurn(g, Plain(a)), i)
  {
    var g' := TakeTurn(g, Plain(a));
    PlainRecordMoves(g.w, a, g'.w, i);
    forall t | FansOut(g'.w, t, i)
      ensures t in g'.forests
      ensures ForestFamily(g'.w.store.meta, i, CurrentOp(g'.w.threads[t]), g'.forests[t], NowSecs(g'.w))
    {
      PlainKeepsForest(g, a, g', i, t);
    }
    if forall t :: !FansOut(g'.w, t, i) {
      forall t ensures !FansOut(g.w, t, i) { if FansOut(g.w, t, i) { FanOutGoesOn(g, a, i, t); } }
      PlainLessBelow(g.w, a, g'.w, i);
      LaterStamps(g.w.store.meta, g'.w.store.meta, i, FinishedBy(g.w, i), FinishedBy(g'.w, i));
    }
  }

  // ---- Turns of the children -------------------------------------------------------------------

  lemma ChildKeepsFamily(g: Grove, t: nat, n: nat, choice: Choice, g': Grove, i: Id)
    requires GroveOk(g) && FamilyFits(g, i) && TopLevel(i) && CanTurn(g, ChildMoves(t, n, choice))
    requires !BreaksOff(g, ChildMoves(t, n, choice), i) && g' == TakeTurn(g, ChildMoves(t, n, choice))
    ensures FamilyFits(g', i)
  {
    FanningTask(g, t);
    ChildWriteInside(g, t, n, choice);
    var op := CurrentOp(g.w.threads[t]);
    if g.w.threads[t].id == i {
      ForestStepKeepsFamily(BookOf(g.w), g.w.store.meta, i, op, g.forests[t], n, choice, NowSecs(g.w));
      OwnFamilyFits(g, t, g', i);
    } else {
      OtherFamilyFits(g, t, WriteIn(g, t, n, choice), g', i);
    }
  }

  /** A child of the one fan-out of `i` has moved. */
  lemma OwnFamilyFits(g: Grove, t: nat, g': Grove, i: Id)
    requires Owning(g.w) && FamilyFits(g, i) && FansOut(g.w, t, i) && t in g'.forests
    requires g'.w.threads == g.w.threads && g'.w.now == g.w.now
    requires Lookup(g'.w.store.meta, i) == Lookup(g.w.store.meta, i)
    requires ForestFamily(g'.w.store.meta, i, CurrentOp(g.w.threads[t]), g'.forests[t], NowSecs(g.w))
    ensures FamilyFits(g', i)
  {
    forall u | FansOut(g'.w, u, i) ensures u == t { OneFansOut(g.w, t, u, i); }
    assert FansOut(g'.w, t, i);
  }

  /** A child of another instance has moved. */
  lemma OtherFamilyFits(g: Grove, t: nat, write: Write, g': Grove, i: Id)
    requires FamilyFits(g, i) && TopLevel(i) && IsWorker(g.w, t)
    requires TopLevel(g.w.threads[t].id) && g.w.threads[t].id != i
    requires Target(write).Some? ==> Below(Target(write).value, g.w.threads[t].id)
    requires g'.w.threads == g.w.threads && g'.w.now == g.w.now
    requires g'.w.store.meta == ApplyToMeta(g.w.store.meta, write)
    requires forall u :: u != t && u in g.forests ==> u in g'.forests && g'.forests[u] == g.forests[u]
    ensures FamilyFits(g', i)
  {
    var meta, meta' := g.w.store.meta, g'.w.store.meta;
    if write.Records? { FamiliesApart(g.w.threads[t].id, i, write.i); }
    assert forall d :: Under(d, i) ==> Lookup(meta', d) == Lookup(meta, d);
    forall u | FansOut(g'.w, u, i)
      ensures u in g'.forests && ForestFamily(meta', i, CurrentOp(g.w.threads[u]), g'.forests[u], NowSecs(g.w))
    {
      assert FansOut(g.w, u, i) && u != t;
      ForestFamilyFrame(meta, meta', i, CurrentOp(g.w.threads[u]), g.forests[u], NowSecs(g.w), NowSecs(g.w));
    }
    if forall u :: !FansOut(g'.w, u, i) {
      assert forall u :: FansOut(g.w, u, i) ==> FansOut(g'.w, u, i);
      LaterStamps(meta, meta', i, FinishedBy(g.w, i), FinishedBy(g.w, i));
    }
  }

  /** Families of different top-level instances are disjoint. */
  lemma FamiliesApart(k: Id, i: Id, d: Id)
    requires TopLevel(k) && TopLevel(i) && k != i && Under(d, k)
    ensures !Under(d, i)
  {
    assert k.path == d.path[..1];
  }

  lemma GatherKeepsFamily(g: Grove, turn: Turn, g': Grove, i: Id)
    requires GroveOk(g) && FamilyFits(g, i) && TopLevel(i) && CanTurn(g, turn)
    requires (turn.Collects? || turn.GivesUp?) && !BreaksOff(g, turn, i) && g' == TakeTurn(g, turn)
    ensures FamilyFits(g', i)
  {
    GatherMoves(g, turn, g');
    if g.w.threads[turn.t].id == i {
      CollectKeepsFamily(g, turn.t, g', i);
    } else {
      OthersGatherNothing(g, turn.t, g', i);
    }
  }

  /** A task of another instance has gathered. */
  lemma OthersGatherNothing(g: Grove, t: nat, g': Grove, i: Id)
    requires FamilyFits(g, i) && IsWorker(g.w, t) && g.w.threads[t].id != i
    requires g'.forests == g.forests && g'.w.store == g.w.store && g'.w.now == g.w.now
    requires IsWorker(g'.w, t) && g'.w.threads == g.w.threads[t := g'.w.threads[t]] && g'.w.threads[t].id != i
    ensures FamilyFits(g', i)
  {
    forall u ensures FansOut(g'.w, u, i) <==> FansOut(g.w, u, i) { }
  }

  lemma GatherMoves(g: Grove, turn: Turn, g': Grove)
    requires CanTurn(g, turn) && (turn.Collects? || turn.GivesUp?) && g' == TakeTurn(g, turn)
    ensures g'.forests == g.forests && g'.w.store == g.w.store && g'.w.now == g.w.now
    ensures turn.t in g'.w.threads && g'.w.threads == g.w.threads[turn.t := g'.w.threads[turn.t]]
    ensures IsWorker(g'.w, turn.t) && g'.w.threads[turn.t].id == g.w.threads[turn.t].id && !Fanning(g'.w, turn.t)
  {
  }

  lemma CollectKeepsFamily(g: Grove, t: nat, g': Grove, i: Id)
    requires GroveOk(g) && FamilyFits(g, i) && CanTurn(g, Collects(t)) && FansOut(g.w, t, i)
    requires g'.w.store == g.w.store && g'.w.now == g.w.now && !Fanning(g'.w, t)
    requires t in g'.w.threads && g'.w.threads == g.w.threads[t := g'.w.threads[t]]
    ensures FamilyFits(g', i)
  {
    CollectedFamily(g.w.store.meta, i, CurrentOp(g.w.threads[t]), g.forests[t], NowSecs(g.w));
    OneFansOut(g.w, t, t, i);
    forall u ensures !FansOut(g'.w, u, i) { if FansOut(g'.w, u, i) { OneFansOut(g.w, t, u, i); } }
  }

  lemma TurnKeepsFamily(g: Grove, turn: Turn, i: Id)
    requires GroveOk(g) && FamilyFits(g, i) && TopLevel(i) && CanTurn(g, turn) && !BreaksOff(g, turn, i)
    ensures FamilyFits(TakeTurn(g, turn), i)
  {
    match turn
    case Plain(a) => PlainKeepsFamily(g, a, i);
    case ChildMoves(t, n, choice) => ChildKeepsFamily(g, t, n, choice, TakeTurn(g, turn), i);
    case _ => GatherKeepsFamily(g, turn, TakeTurn(g, turn), i);
  }

  // ---- Retention -------------------------------------------------------------------------------

  /** A run in which no fan-out of `i` is broken off. */
  ghost predicate Unbroken(g: Grove, turns: seq<Turn>, i: Id)
    decreases |turns|
  {
    |turns| > 0 ==>
      var before := turns[..|turns| - 1];
      && Unbroken(g, before, i) && AfterTurns(g, before).Some?
      && !BreaksOff(AfterTurns(g, before).value, turns[|turns| - 1], i)
  }

  lemma {:induction false} FamilyAlong(defs: map<string, Definition>, turns: seq<Turn>, i: Id)
    requires TopLevel(i) && AfterTurns(Planted(defs), turns).Some? && Unbroken(Planted(defs), turns, i)
    ensures GroveOk(AfterTurns(Planted(defs), turns).value) && FamilyFits(AfterTurns(Planted(defs), turns).value, i)
    decreases |turns|
  {
    TurnsAreReached(defs, turns);
    if |turns| > 0 {
      FamilyAlong(defs, turns[..|turns| - 1], i);
      TurnKeepsFamily(AfterTurns(Planted(defs), turns[..|turns| - 1]).value, turns[|turns| - 1], i);
    }
  }

  /**
   A family goes together. In every run in which no fan-out of an instance is broken off, however many
   fan-outs it has, nested ones included, and however often it is suspended, signalled or recovered in
   between, the retention scan that selects the instance selects every descendant still there.
   */
  lemma FamilyGoesTogether(
    defs: map<string, Definition>, turns: seq<Turn>, i: Id, nowSecs: nat, policy: Policy, d: Id)
    requires TopLevel(i) && AfterTurns(Planted(defs), turns).Some? && Unbroken(Planted(defs), turns, i)
    requires
      var s := AfterTurns(Planted(defs), turns).value.w.store;
      i in ExpiredIds(s, nowSecs, policy) && Below(d, i) && d in s.meta
    ensures d in ExpiredIds(AfterTurns(Planted(defs), turns).value.w.store, nowSecs, policy)
  {
    FamilyAlong(defs, turns, i);
    var g := AfterTurns(Planted(defs), turns).value;
    forall t ensures !FansOut(g.w, t, i) { if FansOut(g.w, t, i) { OneFansOut(g.w, t, t, i); } }
    assert StampedBy(g.w.store.meta, d, FinishedBy(g.w, i));
    FamilyExpiresTogether(g.w.store, nowSecs, policy, i, d);
  }
}
