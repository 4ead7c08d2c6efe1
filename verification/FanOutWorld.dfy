/**
 The protocol with the trees of children in it. A task that is in a fan-out has a forest, the writes
 of its children are steps of that forest, and what it gathers is what the forest collects. So what
 a journaled result vector says about the children is said about the journal of a reachable state.
 */
module FanOutWorld {
  import opened Options
  import opened Storage
  import opened Workflows
  import opened Keys
  import opened Accounts
  import opened Protocol
  import opened Ownership
  import opened Replay
  import opened Settled
  import opened Errors
  import opened FanOut
  import opened FanOutReplay

  /** `origin` remembers which fan-out operation journaled a result. */
  datatype Grove = Grove(w: World, forests: map<nat, seq<Node>>, origin: map<Ref, Op>)

  /** An action of the protocol that is not a child's, or a step, a collection or an abort of a forest. */
  datatype Turn =
    | Plain(a: Action)
    | ChildMoves(t: nat, n: nat, choice: Choice)
    | Collects(t: nat)
    | GivesUp(t: nat, n: nat)

  predicate OfChildren(a: Action) { a.Task? && (a.step.ChildStep? || a.step.ChildMeta? || a.step.Gather?) }

  ghost predicate Fanning(w: World, t: nat) {
    IsWorker(w, t) && w.threads[t].pc.InFanOut? && CurrentOp(w.threads[t]).FanOut?
  }

  /** A record is stamped with the time at which it is written. */
  predicate StampsNow(c: Choice, nowSecs: nat) {
    match c
    case WriteResult(_, s) => s == nowSecs
    case Inside(_, c') => StampsNow(c', nowSecs)
    case _ => true
  }

  ghost predicate CanTurn(g: Grove, turn: Turn) {
    match turn
    case Plain(a) => Enabled(g.w, a) && !OfChildren(a)
    case ChildMoves(t, n, choice) =>
      && Fanning(g.w, t) && t in g.forests && StampsNow(choice, g.w.now / 1000)
      && CanStepInside(g.w.store.steps, g.w.threads[t].id, CurrentOp(g.w.threads[t]), g.forests[t], n, choice)
    case Collects(t) => Fanning(g.w, t) && t in g.forests && CanCollect(CurrentOp(g.w.threads[t]), g.forests[t])
    case GivesUp(t, n) =>
      Fanning(g.w, t) && t in g.forests && n < |g.forests[t]| && Breaks(CurrentOp(g.w.threads[t]), g.forests[t][n])
  }

  /** Performing a fan-out that is not journaled starts its forest. */
  ghost function PlainForests(g: Grove, a: Action): map<nat, seq<Node>>
    requires Enabled(g.w, a)
  {
    if a.Task? && a.step.Perform? && Fanning(Next(g.w, a), a.t)
    then g.forests[a.t := Idles(|CurrentOp(Next(g.w, a).threads[a.t]).kids|)]
    else g.forests
  }

  ghost function PlainOrigin(g: Grove, a: Action): map<Ref, Op>
    requires Enabled(g.w, a)
  {
    match a
    case Engine(Cleanup(x)) => OriginsNotUnder(g.origin, x)
    case Task(t, Save) =>
      var op := CurrentOp(g.w.threads[t]);
      if op.FanOut? then g.origin[Ref(g.w.threads[t].id, op.JournalKey()) := op] else g.origin
    case _ => g.origin
  }

  function ApplyWrite(s: Store, w: Write): Store {
    s.(steps := ApplyToSteps(s.steps, w), meta := ApplyToMeta(s.meta, w))
  }

  ghost function MakeWrite(w: World, write: Write): World {
    w.(store := ApplyWrite(w.store, write), log := w.log.(mishaps := w.log.mishaps + MishapsOf(write)))
  }

  /** What task `t` gathers from its forest. */
  ghost function Gathered(g: Grove, t: nat): Value
    requires CanTurn(g, Collects(t))
  {
    var i, op := g.w.threads[t].id, CurrentOp(g.w.threads[t]);
    Slots(op.ty, SlotsOf(i, op, g.forests[t]))
  }

  ghost function WriteIn(g: Grove, t: nat, n: nat, choice: Choice): Write
    requires CanTurn(g, ChildMoves(t, n, choice))
  {
    var i, op := g.w.threads[t].id, CurrentOp(g.w.threads[t]);
    WriteOf(g.w.store.steps, Child(i, op.key, n), op.kids[n], g.forests[t][n], choice)
  }

  ghost function TakeTurn(g: Grove, turn: Turn): Grove
    requires CanTurn(g, turn)
  {
    match turn
    case Plain(a) => Grove(Next(g.w, a), PlainForests(g, a), PlainOrigin(g, a))
    case ChildMoves(t, n, choice) =>
      var i, op, write := g.w.threads[t].id, CurrentOp(g.w.threads[t]), WriteIn(g, t, n, choice);
      Grove(
        MakeWrite(g.w, write),
        g.forests[t := StepInside(g.w.store.steps, i, op, g.forests[t], n, choice)],
        if write.Journals? && write.op.FanOut? then g.origin[write.r := write.op] else g.origin)
    case Collects(t) => g.(w := FanOutReturns(g.w, t, Okay(Gathered(g, t))))
    case GivesUp(t, n) => g.(w := FanOutReturns(g.w, t, Permanent(AbortError(g.forests[t][n]))))
  }

  ghost function AfterTurns(g: Grove, turns: seq<Turn>): Option<Grove> {
    if |turns| == 0 then Some(g)
    else
      var before := AfterTurns(g, turns[..|turns| - 1]);
      var turn := turns[|turns| - 1];
      if before.Some? && CanTurn(before.value, turn) then Some(TakeTurn(before.value, turn)) else None
  }

  ghost function Planted(defs: map<string, Definition>): Grove { Grove(Initial(defs), map[], map[]) }

  // ---- The invariant ---------------------------------------------------------------------------

  ghost predicate ForestFits(g: Grove, t: nat)
    requires Fanning(g.w, t)
  {
    var i, op := g.w.threads[t].id, CurrentOp(g.w.threads[t]);
    t in g.forests && ForestOk(BookOf(g.w), i, op, g.forests[t])
  }

  /** A vector that a task is about to journal means what it should. */
  ghost predicate TaskSaves(th: Thread, b: Book)
    requires th.Worker?
  {
    SavesSlots(b, th.id, CurrentOp(th), th.pc)
  }

  /** Every journaled fan-out result has an origin. */
  ghost predicate OriginsKnown(j: Steps, origin: map<Ref, Op>) {
    && (forall r :: r in j && r.key.FanOutKey? && j[r].Completed? ==> r in origin)
    && forall r :: r in origin ==> |r.id.path| > 0
  }

  ghost predicate GroveOk(g: Grove) {
    && Owning(g.w) && Replaying(g.w)
    && (forall t :: Fanning(g.w, t) ==> ForestFits(g, t))
    && (forall t :: IsWorker(g.w, t) ==> TaskSaves(g.w.threads[t], BookOf(g.w)))
    && OriginsMean(BookOf(g.w), g.origin) && OriginsKnown(g.w.store.steps, g.origin)
  }

  // ---- A turn is a step of the protocol, or none ------------------------------------------------

  ghost predicate ProtocolStep(w: World, w': World) { w' == w || exists a :: Enabled(w, a) && w' == Next(w, a) }

  lemma FanningTask(g: Grove, t: nat)
    requires GroveOk(g) && Fanning(g.w, t)
    ensures ForestFits(g, t) && TopLevel(g.w.threads[t].id) && IsRunning(g.w.store.meta, g.w.threads[t].id)
    ensures TaskOk(g.w.threads[t], g.w.defs, g.w.store.steps)
  {
    assert Owns(g.w.threads[t], g.w.threads[t].id);
  }

  lemma TurnFollowsProtocol(g: Grove, turn: Turn)
    requires GroveOk(g) && CanTurn(g, turn)
    ensures ProtocolStep(g.w, TakeTurn(g, turn).w)
  {
    match turn
    case Plain(a) =>
    case ChildMoves(t, n, choice) =>
      FanningTask(g, t);
      ChildrenFollowProtocol(g.w, t, g.forests[t], n, choice);
      ChildIsProtocol(g.w, t, WriteIn(g, t, n, choice));
    case Collects(t) =>
      EndsFollowProtocol(g.w, t, g.forests[t]);
      GatherIsProtocol(g.w, t, Okay(Gathered(g, t)));
    case GivesUp(t, n) =>
      FanningTask(g, t);
      EndsFollowProtocol(g.w, t, g.forests[t]);
      GatherIsProtocol(g.w, t, Permanent(AbortError(g.forests[t][n])));
  }

  lemma GatherIsProtocol(w: World, t: nat, o: Outcome)
    requires TaskEnabled(w, t, Gather(o))
    ensures ProtocolStep(w, FanOutReturns(w, t, o))
  {
    assert Enabled(w, Task(t, Gather(o))) && FanOutReturns(w, t, o) == Next(w, Task(t, Gather(o)));
  }

  lemma ChildIsProtocol(w: World, t: nat, write: Write)
    requires write.Journals? ==> TaskEnabled(w, t, ChildStep(write.r, write.d))
    requires write.Records? ==> TaskEnabled(w, t, ChildMeta(write.i, write.m))
    ensures ProtocolStep(w, MakeWrite(w, write))
  {
    var w' := MakeWrite(w, write);
    if write.Journals? {
      assert Enabled(w, Task(t, ChildStep(write.r, write.d))) && w' == Next(w, Task(t, ChildStep(write.r, write.d)));
    } else if write.Records? {
      assert Enabled(w, Task(t, ChildMeta(write.i, write.m))) && w' == Next(w, Task(t, ChildMeta(write.i, write.m)));
    }
  }

  lemma TurnKeepsBase(g: Grove, turn: Turn)
    requires GroveOk(g) && CanTurn(g, turn)
    ensures Owning(TakeTurn(g, turn).w) && Replaying(TakeTurn(g, turn).w)
  {
    TurnFollowsProtocol(g, turn);
    if TakeTurn(g, turn).w != g.w {
      var a :| Enabled(g.w, a) && TakeTurn(g, turn).w == Next(g.w, a);
      OwnershipStep(g.w, a);
      ReplayStep(g.w, a);
    }
  }

  // ---- Actions that are no child's ---------------------------------------------------------------

  /** The tables below the top level are the same. */
  ghost predicate SameBelowTop(b: Book, b': Book) {
    && (forall r: Ref :: !TopLevel(r.id) ==> Lookup(b'.steps, r) == Lookup(b.steps, r))
    && (forall d :: !TopLevel(d) ==> Lookup(b'.meta, d) == Lookup(b.meta, d))
    && b'.gone == b.gone && b.past <= b'.past
  }

  /** The tables below the top level stay, and a fan-out result is journaled by the task that saves it only. */
  ghost predicate PlainWrites(w: World, a: Action, w': World) {
    && SameBelowTop(BookOf(w), BookOf(w'))
    && (forall r: Ref :: r.key.FanOutKey? && Lookup(w'.store.steps, r) != Lookup(w.store.steps, r) ==> SavesAt(w, a, r))
  }

  ghost predicate SavesAt(w: World, a: Action, r: Ref) {
    && a.Task? && a.step.Save? && IsWorker(w, a.t) && CurrentOp(w.threads[a.t]).FanOut?
    && r == Ref(w.threads[a.t].id, CurrentOp(w.threads[a.t]).JournalKey())
  }

  lemma PlainTaskWrites(w: World, t: nat, a: TaskAction, w': World)
    requires Owning(w) && TaskEnabled(w, t, a) && !OfChildren(Task(t, a)) && w' == TaskNext(w, t, a)
    ensures PlainWrites(w, Task(t, a), w')
  {
    if IsWrite(a) { PlainTaskTransaction(w, t, a, w'); } else { QuietStep(w, t, a, w'); }
  }

  lemma PlainTaskTransaction(w: World, t: nat, a: TaskAction, w': World)
    requires Owning(w) && TaskEnabled(w, t, a) && w' == TaskNext(w, t, a)
    requires a.Save? || a.SaveSuspended? || a.WriteOutput? || a.WriteResult?
    ensures PlainWrites(w, Task(t, a), w')
  {
    assert Owns(w.threads[t], w.threads[t].id) && TopLevel(w.threads[t].id);
    if a.Save? { PlainSaveWrites(w, t, w'); } else { PlainOtherWrites(w, t, a, w'); }
  }

  lemma PlainSaveWrites(w: World, t: nat, w': World)
    requires TaskEnabled(w, t, TaskAction.Save) && TopLevel(w.threads[t].id) && w' == SaveTxn(w, t)
    ensures PlainWrites(w, Task(t, TaskAction.Save), w')
  {
  }

  lemma PlainOtherWrites(w: World, t: nat, a: TaskAction, w': World)
    requires TaskEnabled(w, t, a) && TopLevel(w.threads[t].id) && w' == TaskNext(w, t, a)
    requires a.SaveSuspended? || a.WriteOutput? || a.WriteResult?
    ensures PlainWrites(w, Task(t, a), w')
  {
  }

  lemma PlainApiWrites(w: World, t: nat, a: ApiAction, w': World)
    requires Owning(w) && ApiEnabled(w, t, a) && w' == ApiNext(w, t, a)
    ensures PlainWrites(w, Api(t, a), w')
  {
    if a.Signal? { SignalWrites(w, t, a, w'); }
  }

  lemma SignalWrites(w: World, t: nat, a: ApiAction, w': World)
    requires Owning(w) && ApiEnabled(w, t, a) && a.Signal? && w' == ApiNext(w, t, a)
    ensures PlainWrites(w, Api(t, a), w')
  {
  }

  lemma PlainPollWrites(w: World, t: nat, a: PollAction, w': World)
    requires Owning(w) && PollEnabled(w, t, a) && w' == PollNext(w, t, a)
    ensures PlainWrites(w, Poll(t, a), w')
  {
    PollFrame(w, t, a, w');
  }

  lemma PlainEngineWrites(w: World, a: EngineAction, w': World)
    requires Owning(w) && EngineEnabled(w, a) && !a.Cleanup? && w' == EngineNext(w, a)
    ensures PlainWrites(w, Engine(a), w')
  {
    if a.RecoverOne? { assert Owns(w.threads[a.recovery], a.id); }
  }

  lemma PlainWritesLittle(w: World, a: Action, w': World)
    requires Owning(w) && Enabled(w, a) && !OfChildren(a) && w' == Next(w, a) && !(a.Engine? && a.event.Cleanup?)
    ensures PlainWrites(w, a, w')
  {
    match a
    case Api(t, x) => PlainApiWrites(w, t, x, w');
    case Task(t, x) => PlainTaskWrites(w, t, x, w');
    case Poll(t, x) => PlainPollWrites(w, t, x, w');
    case Engine(x) => PlainEngineWrites(w, x, w');
  }

  /** A task that is in a fan-out, or saves the result of one, was there before or has just come to it. */
  ghost predicate PlainMoves(w: World, a: Action, w': World) {
    forall u :: IsWorker(w', u) && FansOutOrSaves(w'.threads[u]) ==>
      (IsWorker(w, u) && w'.threads[u] == w.threads[u]) ||
      (w'.threads[u].pc.InFanOut? && a == Task(u, TaskAction.Perform))
  }

  ghost predicate FansOutOrSaves(th: Thread)
    requires th.Worker?
  {
    CurrentOp(th).FanOut? && (th.pc.InFanOut? || th.pc.Saving?)
  }

  lemma PlainTaskMoves(w: World, t: nat, a: TaskAction, w': World)
    requires TaskEnabled(w, t, a) && !OfChildren(Task(t, a)) && w' == TaskNext(w, t, a)
    ensures PlainMoves(w, Task(t, a), w')
  {
  }

  lemma PlainMovesLittle(w: World, a: Action, w': World)
    requires Enabled(w, a) && !OfChildren(a) && w' == Next(w, a)
    ensures PlainMoves(w, a, w')
  {
    match a
    case Api(t, x) => ApiMovesNobody(w, t, x, w');
    case Task(t, x) => PlainTaskMoves(w, t, x, w');
    case Poll(t, x) => PollFrame(w, t, x, w');
    case Engine(x) => EngineMovesNobody(w, x, w');
  }

  lemma ApiMovesNobody(w: World, t: nat, a: ApiAction, w': World)
    requires ApiEnabled(w, t, a) && w' == ApiNext(w, t, a)
    ensures forall u :: IsWorker(w', u) ==> IsWorker(w, u) && w'.threads[u] == w.threads[u]
  {
  }

  lemma EngineMovesNobody(w: World, a: EngineAction, w': World)
    requires EngineEnabled(w, a) && w' == EngineNext(w, a)
    ensures forall u :: IsWorker(w', u) ==> IsWorker(w, u) && w'.threads[u] == w.threads[u]
  {
  }

  // ---- Every turn keeps the invariant --------------------------------------------------------------

  /** What a child of a top-level instance reads, at whatever depth, is below the top level. */
  lemma BelowTheTop(i: Id, key: string, n: nat, b: Book, b': Book)
    requires |i.path| > 0 && SameBelowTop(b, b')
    ensures SameUnder(Child(i, key, n), b, b') && SameAccount(b, b', Child(i, key, n))
  {
  }

  lemma SlotsBelowTheTop(b: Book, b': Book, i: Id, op: Op, slots: seq<Slot>)
    requires |i.path| > 0 && SlotsMean(b, i, op, slots) && SameBelowTop(b, b')
    ensures SlotsMean(b', i, op, slots)
  {
    forall n: nat ensures SameAccount(b, b', Child(i, op.key, n)) { BelowTheTop(i, op.key, n, b, b'); }
    SlotsMeanKept(b, b', i, op, slots);
  }

  lemma OriginsBelowTheTop(b: Book, b': Book, origin: map<Ref, Op>)
    requires OriginsMean(b, origin) && forall r :: r in origin ==> |r.id.path| > 0
    requires SameBelowTop(b, b') && forall r :: r in origin ==> Lookup(b'.steps, r) == Lookup(b.steps, r)
    ensures OriginsMean(b', origin)
  {
    forall r, n: nat | r in origin && n < |origin[r].kids|
      ensures SameAccount(b, b', Child(r.id, origin[r].key, n))
    {
      BelowTheTop(r.id, origin[r].key, n, b, b');
    }
    OriginsKept(b, b', origin);
  }

  lemma ForestBelowTheTop(b: Book, b': Book, i: Id, op: Op, nodes: seq<Node>)
    requires |i.path| > 0 && ForestOk(b, i, op, nodes) && SameBelowTop(b, b')
    ensures ForestOk(b', i, op, nodes)
  {
    forall n | 0 <= n < |nodes| ensures NodeOk(b', Child(i, op.key, n), op.kids[n], nodes[n]) {
      BelowTheTop(i, op.key, n, b, b');
      NodeFrame(b, b', Child(i, op.key, n), op.kids[n], nodes[n]);
    }
  }

  lemma FreshForest(b: Book, i: Id, op: Op)
    requires op.FanOut?
    ensures ForestOk(b, i, op, Idles(|op.kids|))
  {
  }

  lemma PlainKeepsForests(g: Grove, a: Action, g': Grove, u: nat)
    requires GroveOk(g) && Enabled(g.w, a) && !OfChildren(a) && !(a.Engine? && a.event.Cleanup?)
    requires g'.w == Next(g.w, a) && g'.forests == PlainForests(g, a) && Fanning(g'.w, u)
    ensures ForestFits(g', u)
  {
    PlainWritesLittle(g.w, a, g'.w);
    PlainMovesLittle(g.w, a, g'.w);
    var th := g'.w.threads[u];
    if a == Task(u, TaskAction.Perform) {
      FreshForest(BookOf(g'.w), th.id, CurrentOp(th));
    } else {
      assert IsWorker(g.w, u) && g.w.threads[u] == th;
      FanningTask(g, u);
      assert g'.forests == g.forests || (a.Task? && a.t != u && g'.forests == g.forests[a.t := g'.forests[a.t]]);
      ForestBelowTheTop(BookOf(g.w), BookOf(g'.w), th.id, CurrentOp(th), g.forests[u]);
    }
  }

  lemma PlainKeepsSaves(g: Grove, a: Action, w': World, u: nat)
    requires GroveOk(g) && PlainWrites(g.w, a, w') && PlainMoves(g.w, a, w') && IsWorker(w', u)
    ensures TaskSaves(w'.threads[u], BookOf(w'))
  {
    var th := w'.threads[u];
    if th.pc.Saving? && CurrentOp(th).FanOut? {
      assert TaskSaves(g.w.threads[u], BookOf(g.w)) && Owns(g.w.threads[u], th.id) && TopLevel(th.id);
      SlotsBelowTheTop(BookOf(g.w), BookOf(w'), th.id, CurrentOp(th), th.pc.data.result.slots);
    }
  }

  /** What is journaled already stays when a task saves: its entry was open. */
  lemma SaveHitsNoOrigin(g: Grove, a: Action, r: Ref)
    requires GroveOk(g) && CanTurn(g, Plain(a)) && SavesAt(g.w, a, r)
    ensures r !in g.origin && |r.id.path| > 0 && TaskSaves(g.w.threads[a.t], BookOf(g.w))
  {
    var th := g.w.threads[a.t];
    assert TaskOk(th, g.w.defs, g.w.store.steps) && PcOk(g.w.store.steps, th.id, CurrentOp(th), th.pc);
    assert Owns(th, th.id) && TopLevel(th.id);
  }

  lemma PlainKeepsOldOrigins(g: Grove, a: Action, w': World)
    requires GroveOk(g) && CanTurn(g, Plain(a)) && PlainWrites(g.w, a, w')
    ensures OriginsMean(BookOf(w'), g.origin)
  {
    forall r | r in g.origin ensures Lookup(w'.store.steps, r) == Lookup(g.w.store.steps, r) {
      if SavesAt(g.w, a, r) { SaveHitsNoOrigin(g, a, r); }
    }
    OriginsBelowTheTop(BookOf(g.w), BookOf(w'), g.origin);
  }

  lemma SavedOriginMeans(b: Book, b': Book, origin: map<Ref, Op>, th: Thread, r: Ref)
    requires th.Worker? && th.pc.Saving? && CurrentOp(th).FanOut? && TaskSaves(th, b) && |th.id.path| > 0
    requires r == Ref(th.id, FanOutKey(CurrentOp(th).key)) && Lookup(b'.steps, r) == Some(th.pc.data)
    requires SameBelowTop(b, b') && OriginsMean(b', origin)
    ensures OriginsMean(b', origin[r := CurrentOp(th)])
  {
    SlotsBelowTheTop(b, b', th.id, CurrentOp(th), th.pc.data.result.slots);
  }

  lemma SaveKeepsOrigins(g: Grove, t: nat, w': World)
    requires GroveOk(g) && CanTurn(g, Plain(Task(t, TaskAction.Save))) && w' == Next(g.w, Task(t, TaskAction.Save))
    requires CurrentOp(g.w.threads[t]).FanOut? && PlainWrites(g.w, Task(t, TaskAction.Save), w')
    ensures
      var r := Ref(g.w.threads[t].id, FanOutKey(CurrentOp(g.w.threads[t]).key));
      var origin := g.origin[r := CurrentOp(g.w.threads[t])];
      OriginsMean(BookOf(w'), origin) && OriginsKnown(w'.store.steps, origin)
  {
    var r := Ref(g.w.threads[t].id, FanOutKey(CurrentOp(g.w.threads[t]).key));
    SaveHitsNoOrigin(g, Task(t, TaskAction.Save), r);
    PlainKeepsOldOrigins(g, Task(t, TaskAction.Save), w');
    SavedOriginMeans(BookOf(g.w), BookOf(w'), g.origin, g.w.threads[t], r);
  }

  lemma PlainKeepsOrigins(g: Grove, a: Action, w': World)
    requires GroveOk(g) && CanTurn(g, Plain(a)) && w' == Next(g.w, a) && PlainWrites(g.w, a, w')
    requires !(a.Engine? && a.event.Cleanup?)
    ensures OriginsMean(BookOf(w'), PlainOrigin(g, a)) && OriginsKnown(w'.store.steps, PlainOrigin(g, a))
  {
    if a.Task? && a.step.Save? && CurrentOp(g.w.threads[a.t]).FanOut? {
      SaveKeepsOrigins(g, a.t, w');
    } else {
      assert PlainOrigin(g, a) == g.origin;
      PlainKeepsOldOrigins(g, a, w');
    }
  }

  lemma PlainKeeps(g: Grove, a: Action)
    requires GroveOk(g) && CanTurn(g, Plain(a)) && !(a.Engine? && a.event.Cleanup?)
    ensures GroveOk(TakeTurn(g, Plain(a)))
  {
    var g' := TakeTurn(g, Plain(a));
    TurnKeepsBase(g, Plain(a));
    PlainWritesLittle(g.w, a, g'.w);
    PlainMovesLittle(g.w, a, g'.w);
    forall u | Fanning(g'.w, u) ensures ForestFits(g', u) { PlainKeepsForests(g, a, g', u); }
    forall u | IsWorker(g'.w, u) ensures TaskSaves(g'.w.threads[u], BookOf(g'.w)) {
      PlainKeepsSaves(g, a, g'.w, u);
    }
    PlainKeepsOrigins(g, a, g'.w);
  }

  // ---- Retention ---------------------------------------------------------------------------------

  lemma ForestExpires(b: Book, b': Book, x: Id, i: Id, op: Op, nodes: seq<Node>)
    requires ForestOk(b, i, op, nodes) && IsTerminal(b.meta, x) && Gone(x, b, b') && !Under(i, x)
    ensures ForestOk(b', i, op, nodes)
  {
    forall n | 0 <= n < |nodes| ensures NodeOk(b', Child(i, op.key, n), op.kids[n], nodes[n]) {
      if Under(Child(i, op.key, n), x) { OnlyChildUnder(i, op.key, n, x); }
      NodeExpires(b, b', x, Child(i, op.key, n), op.kids[n], nodes[n]);
    }
  }

  /** A task's own instance is Running, and is not what retention deletes. */
  lemma TaskNotUnder(w: World, t: nat, x: Id)
    requires Owning(w) && IsWorker(w, t) && IsTerminal(w.store.meta, x)
    ensures !Under(w.threads[t].id, x)
  {
    assert Owns(w.threads[t], w.threads[t].id);
    if Under(w.threads[t].id, x) { UnderTopLevel(w.threads[t].id, x); }
  }

  lemma CleanupKeeps(g: Grove, x: Id)
    requires GroveOk(g) && CanTurn(g, Plain(Engine(Cleanup(x))))
    ensures GroveOk(TakeTurn(g, Plain(Engine(Cleanup(x)))))
  {
    var g' := TakeTurn(g, Plain(Engine(Cleanup(x))));
    var b, b' := BookOf(g.w), BookOf(g'.w);
    TurnKeepsBase(g, Plain(Engine(Cleanup(x))));
    assert Gone(x, b, b');
    forall u | Fanning(g'.w, u) ensures ForestFits(g', u) {
      FanningTask(g, u);
      TaskNotUnder(g.w, u, x);
      ForestExpires(b, b', x, g.w.threads[u].id, CurrentOp(g.w.threads[u]), g.forests[u]);
    }
    forall u | IsWorker(g'.w, u) ensures TaskSaves(g'.w.threads[u], b') {
      var th := g.w.threads[u];
      assert TaskSaves(th, b);
      if th.pc.Saving? && CurrentOp(th).FanOut? {
        SlotsExpire(b, b', x, th.id, CurrentOp(th), th.pc.data.result.slots);
      }
    }
    OriginsExpire(b, b', x, g.origin);
  }

  // ---- The children ------------------------------------------------------------------------------

  /** Everything a child's write touches lies under its parent, and under no child of a journaled fan-out. */
  lemma ChildWriteInside(g: Grove, t: nat, n: nat, choice: Choice)
    requires GroveOk(g) && CanTurn(g, ChildMoves(t, n, choice))
    ensures
      var i, write := g.w.threads[t].id, WriteIn(g, t, n, choice);
      && (Target(write).Some? ==> Below(Target(write).value, i) && !TopLevel(Target(write).value))
      && (write.Journals? ==>
            !write.r.key.Input? && (write.r.key.Output? || !IsCompleted(g.w.store.steps, write.r)))
      && (write.Journals? && write.op.FanOut? ==>
            write.r.key == FanOutKey(write.op.key) && write.d.Completed? && write.d.result.Slots? &&
            SlotsMean(BookOf(g.w), write.r.id, write.op, write.d.result.slots))
      && (write.Journals? && write.r.key.FanOutKey? ==> write.op.FanOut?)
  {
    FanningTask(g, t);
    var i, op := g.w.threads[t].id, CurrentOp(g.w.threads[t]);
    var write := WriteIn(g, t, n, choice);
    WriteInside(BookOf(g.w), Child(i, op.key, n), op.kids[n], g.forests[t][n], choice);
    WriteKey(g.w.store.steps, Child(i, op.key, n), op.kids[n], g.forests[t][n], choice);
    if Target(write).Some? { ChildBelow(i, op.key, n, Target(write).value); }
  }

  /** No child writes under the children of a fan-out whose result is journaled. */
  lemma ChildMissesOrigins(g: Grove, t: nat, n: nat, choice: Choice, r: Ref, m: nat)
    requires GroveOk(g) && CanTurn(g, ChildMoves(t, n, choice)) && r in g.origin
    ensures
      var target := Target(WriteIn(g, t, n, choice));
      target.Some? ==> !Under(target.value, Child(r.id, g.origin[r].key, m))
  {
    var target, key := Target(WriteIn(g, t, n, choice)), g.origin[r].key;
    if target.Some? && Under(target.value, Child(r.id, key, m)) {
      FanningTask(g, t);
      var th := g.w.threads[t];
      var i, op := th.id, CurrentOp(th);
      ChildWriteInside(g, t, n, choice);
      ChildBelow(r.id, key, m, target.value);
      assert r.id.path[..1] == target.value.path[..1] == i.path;
      if r.id == i {
        assert PcOk(g.w.store.steps, i, op, th.pc);
        WriteInside(BookOf(g.w), Child(i, op.key, n), op.kids[n], g.forests[t][n], choice);
        SiblingsApart(i, op.key, n, key, m, target.value);
      } else {
        WriteMissesSlots(BookOf(g.w), i, op, g.forests[t], n, choice, r, key, m);
      }
    }
  }

  /** Other tasks do not see what a child of this one writes. */
  lemma OtherForestKept(g: Grove, t: nat, u: nat, write: Write)
    requires GroveOk(g) && Fanning(g.w, t) && Fanning(g.w, u) && u != t
    requires Target(write).Some? ==> Below(Target(write).value, g.w.threads[t].id)
    ensures
      var i, op := g.w.threads[u].id, CurrentOp(g.w.threads[u]);
      ForestOk(ApplyToBook(BookOf(g.w), write), i, op, g.forests[u])
  {
    FanningTask(g, t);
    FanningTask(g, u);
    var i, op, b := g.w.threads[u].id, CurrentOp(g.w.threads[u]), BookOf(g.w);
    TasksApart(g.w, t, u);
    forall n | 0 <= n < |g.forests[u]|
      ensures NodeOk(ApplyToBook(b, write), Child(i, op.key, n), op.kids[n], g.forests[u][n])
    {
      if Target(write).Some? && Under(Target(write).value, Child(i, op.key, n)) {
        TopsApart(i, g.w.threads[t].id, op.key, n, Target(write).value);
      }
      NodeFrame(b, ApplyToBook(b, write), Child(i, op.key, n), op.kids[n], g.forests[u][n]);
    }
  }

  lemma TasksApart(w: World, t: nat, u: nat)
    requires Owning(w) && IsWorker(w, t) && IsWorker(w, u) && u != t
    ensures w.threads[t].id != w.threads[u].id && TopLevel(w.threads[t].id) && TopLevel(w.threads[u].id)
  {
    assert Owns(w.threads[t], w.threads[t].id) && Owns(w.threads[u], w.threads[u].id);
  }

  lemma TopsApart(i: Id, k: Id, key: string, n: nat, d: Id)
    requires TopLevel(i) && TopLevel(k) && i != k && Under(d, Child(i, key, n))
    ensures !Under(d, k)
  {
    ChildBelow(i, key, n, d);
    assert i.path == d.path[..1];
  }

  lemma ChildKeepsForests(g: Grove, t: nat, n: nat, choice: Choice, g': Grove, u: nat)
    requires GroveOk(g) && CanTurn(g, ChildMoves(t, n, choice)) && g' == TakeTurn(g, ChildMoves(t, n, choice))
    requires Fanning(g'.w, u)
    ensures ForestFits(g', u)
  {
    FanningTask(g, t);
    var i, op := g.w.threads[t].id, CurrentOp(g.w.threads[t]);
    assert BookOf(g'.w) == ApplyToBook(BookOf(g.w), WriteIn(g, t, n, choice));
    if u == t {
      ForestStepKeeps(BookOf(g.w), i, op, g.forests[t], n, choice);
    } else {
      ChildWriteInside(g, t, n, choice);
      FanningTask(g, u);
      OtherForestKept(g, t, u, WriteIn(g, t, n, choice));
      assert u in g'.forests && g'.forests[u] == g.forests[u];
    }
  }

  lemma ChildKeepsOrigins(g: Grove, t: nat, n: nat, choice: Choice, g': Grove)
    requires GroveOk(g) && CanTurn(g, ChildMoves(t, n, choice)) && g' == TakeTurn(g, ChildMoves(t, n, choice))
    ensures OriginsMean(BookOf(g'.w), g'.origin) && OriginsKnown(g'.w.store.steps, g'.origin)
  {
    ChildWriteInside(g, t, n, choice);
    forall r, m: nat | r in g.origin && m < |g.origin[r].kids| && Target(WriteIn(g, t, n, choice)).Some?
      ensures !Under(Target(WriteIn(g, t, n, choice)).value, Child(r.id, g.origin[r].key, m))
    {
      ChildMissesOrigins(g, t, n, choice, r, m);
    }
    WriteKeepsOrigins(BookOf(g.w), g.origin, WriteIn(g, t, n, choice));
    OriginIsKnown(g.w.store.steps, g.origin, WriteIn(g, t, n, choice));
  }

  lemma OriginIsKnown(j: Steps, origin: map<Ref, Op>, w: Write)
    requires OriginsKnown(j, origin)
    requires w.Journals? ==> |w.r.id.path| > 0 && (w.r.key.FanOutKey? ==> w.op.FanOut?)
    ensures OriginsKnown(ApplyToSteps(j, w), if w.Journals? && w.op.FanOut? then origin[w.r := w.op] else origin)
  {
  }

  lemma ChildKeepsSaves(g: Grove, t: nat, n: nat, choice: Choice, g': Grove, u: nat)
    requires GroveOk(g) && CanTurn(g, ChildMoves(t, n, choice)) && g' == TakeTurn(g, ChildMoves(t, n, choice))
    requires IsWorker(g.w, u)
    ensures TaskSaves(g.w.threads[u], BookOf(g'.w))
  {
    var th, b, write := g.w.threads[u], BookOf(g.w), WriteIn(g, t, n, choice);
    assert TaskSaves(th, b) && BookOf(g'.w) == ApplyToBook(b, write);
    if th.pc.Saving? && CurrentOp(th).FanOut? {
      ChildWriteInside(g, t, n, choice);
      TasksApart(g.w, t, u);
      forall m: nat ensures SameAccount(b, BookOf(g'.w), Child(th.id, CurrentOp(th).key, m)) {
        var c := Child(th.id, CurrentOp(th).key, m);
        if Target(write).Some? && Under(Target(write).value, c) {
          TopsApart(th.id, g.w.threads[t].id, CurrentOp(th).key, m, Target(write).value);
        }
        WriteBesideSlots(b, write, c);
      }
      SlotsMeanKept(b, BookOf(g'.w), th.id, CurrentOp(th), th.pc.data.result.slots);
    }
  }

  lemma ChildKeeps(g: Grove, t: nat, n: nat, choice: Choice)
    requires GroveOk(g) && CanTurn(g, ChildMoves(t, n, choice))
    ensures GroveOk(TakeTurn(g, ChildMoves(t, n, choice)))
  {
    var g' := TakeTurn(g, ChildMoves(t, n, choice));
    TurnKeepsBase(g, ChildMoves(t, n, choice));
    forall u | Fanning(g'.w, u) ensures ForestFits(g', u) { ChildKeepsForests(g, t, n, choice, g', u); }
    forall u | IsWorker(g'.w, u) ensures TaskSaves(g'.w.threads[u], BookOf(g'.w)) {
      ChildKeepsSaves(g, t, n, choice, g', u);
    }
    ChildKeepsOrigins(g, t, n, choice, g');
  }

  lemma GatherKeeps(g: Grove, turn: Turn)
    requires GroveOk(g) && CanTurn(g, turn) && (turn.Collects? || turn.GivesUp?)
    ensures GroveOk(TakeTurn(g, turn))
  {
    var g', t := TakeTurn(g, turn), turn.t;
    TurnKeepsBase(g, turn);
    FanningTask(g, t);
    if turn.Collects? {
      CollectedSlotsMean(BookOf(g.w), g.w.threads[t].id, CurrentOp(g.w.threads[t]), g.forests[t]);
    }
    forall u | IsWorker(g'.w, u) ensures TaskSaves(g'.w.threads[u], BookOf(g'.w)) {
      if u != t { assert TaskSaves(g.w.threads[u], BookOf(g.w)); }
    }
    forall u | Fanning(g'.w, u) ensures ForestFits(g', u) { assert u != t && ForestFits(g, u); }
  }

  lemma TurnKeeps(g: Grove, turn: Turn)
    requires GroveOk(g) && CanTurn(g, turn)
    ensures GroveOk(TakeTurn(g, turn))
  {
    match turn
    case Plain(a) => if a.Engine? && a.event.Cleanup? { CleanupKeeps(g, a.event.id); } else { PlainKeeps(g, a); }
    case ChildMoves(t, n, choice) => ChildKeeps(g, t, n, choice);
    case _ => GatherKeeps(g, turn);
  }

  lemma {:induction false} GroveAlong(g: Grove, turns: seq<Turn>)
    requires GroveOk(g) && AfterTurns(g, turns).Some?
    ensures GroveOk(AfterTurns(g, turns).value)
    decreases |turns|
  {
    if |turns| > 0 {
      GroveAlong(g, turns[..|turns| - 1]);
      TurnKeeps(AfterTurns(g, turns[..|turns| - 1]).value, turns[|turns| - 1]);
    }
  }

  // ---- What holds in every reachable grove ---------------------------------------------------------

  ghost predicate GroveReachable(defs: map<string, Definition>, g: Grove) {
    exists turns :: AfterTurns(Planted(defs), turns) == Some(g)
  }

  lemma StepIsReached(defs: map<string, Definition>, w: World, w': World)
    requires Reachable(defs, w) && ProtocolStep(w, w')
    ensures Reachable(defs, w')
  {
    if w' != w {
      var run :| After(Initial(defs), run) == Some(w);
      var a :| Enabled(w, a) && w' == Next(w, a);
      assert (run + [a])[..|run|] == run;
      assert After(Initial(defs), run + [a]) == Some(w');
    }
  }

  /** The protocol with trees is the protocol: its worlds are reachable, and the invariant holds. */
  lemma {:induction false} TurnsAreReached(defs: map<string, Definition>, turns: seq<Turn>)
    requires AfterTurns(Planted(defs), turns).Some?
    ensures
      var g := AfterTurns(Planted(defs), turns).value;
      GroveOk(g) && Reachable(defs, g.w)
    decreases |turns|
  {
    if |turns| > 0 {
      TurnsAreReached(defs, turns[..|turns| - 1]);
      var g := AfterTurns(Planted(defs), turns[..|turns| - 1]).value;
      TurnFollowsProtocol(g, turns[|turns| - 1]);
      StepIsReached(defs, g.w, TakeTurn(g, turns[|turns| - 1]).w);
      TurnKeeps(g, turns[|turns| - 1]);
    } else {
      assert After(Initial(defs), []) == Some(Initial(defs));
    }
  }

  predicate Deletes(turn: Turn, i: Id) { turn.Plain? && DeletedBy(turn.a, i) }

  /** Retention deletes `c` in this run, alone or with an instance above it. */
  ghost predicate DeletedAlong(turns: seq<Turn>, c: Id) { exists turn :: turn in turns && Deletes(turn, c) }

  /** Nothing but retention's own action deletes an instance. */
  lemma OnlyCleanupDeletes(w: World, a: Action, w': World)
    requires Enabled(w, a) && w' == Next(w, a) && !(a.Engine? && a.event.Cleanup?)
    ensures w'.log.cleaned == w.log.cleaned
  {
    match a
    case Task(t, x) => TaskDeletesNothing(w, t, x, w');
    case Poll(t, x) => PollFrame(w, t, x, w');
    case Api(t, x) => ApiDeletesNothing(w, t, x, w');
    case Engine(_) =>
  }

  lemma ApiDeletesNothing(w: World, t: nat, a: ApiAction, w': World)
    requires ApiEnabled(w, t, a) && w' == ApiNext(w, t, a)
    ensures w'.log.cleaned == w.log.cleaned
  {
  }

  lemma TaskDeletesNothing(w: World, t: nat, a: TaskAction, w': World)
    requires TaskEnabled(w, t, a) && w' == TaskNext(w, t, a)
    ensures w'.log.cleaned == w.log.cleaned
  {
    if !a.SaveSuspended? { TaskLeavesTimers(w, t, a, w'); }
  }

  lemma TurnExpires(g: Grove, turn: Turn, c: Id)
    requires CanTurn(g, turn)
    ensures Covered(TakeTurn(g, turn).w.log.cleaned, c) <==> Covered(g.w.log.cleaned, c) || Deletes(turn, c)
  {
    if turn.Plain? {
      if turn.a.Engine? && turn.a.event.Cleanup? {
        var x := turn.a.event.id;
        if Covered(g.w.log.cleaned, c) { CoveredStays(g.w.log.cleaned, x, c); }
        assert x in TakeTurn(g, turn).w.log.cleaned;
      } else {
        OnlyCleanupDeletes(g.w, turn.a, Next(g.w, turn.a));
      }
    }
  }

  lemma {:induction false} ExpiredAlong(g: Grove, turns: seq<Turn>, c: Id)
    requires AfterTurns(g, turns).Some?
    ensures
      var end := AfterTurns(g, turns).value;
      Covered(end.w.log.cleaned, c) <==> Covered(g.w.log.cleaned, c) || DeletedAlong(turns, c)
    decreases |turns|
  {
    if |turns| > 0 {
      var n := |turns| - 1;
      ExpiredAlong(g, turns[..n], c);
      TurnExpires(AfterTurns(g, turns[..n]).value, turns[n], c);
      assert turns == turns[..n] + [turns[n]];
    }
  }

  /** Slot by slot: the child's own, and unless the run deleted the child what the child means in the end. */
  ghost predicate SlotHolds(b: Book, turns: seq<Turn>, c: Id, kid: Workflow, slot: Slot) {
    (slot.Lost? ==> slot.child == c) && (!DeletedAlong(turns, c) ==> SlotIsExact(b, c, kid, slot))
  }

  /**
   After every run every journaled result vector, of a top-level instance or of a child, was collected
   by a fan-out under its key, and holds in slot `n` the value or the error of a run of child `n` which the
   tables bear out at the end, and what the child comes to under the journal exactly if that leaves nothing
   open, unless retention deleted that child in the run. So it stays through crashes, resumes, signals and timers.
   */
  lemma JournaledSlotsDenote(defs: map<string, Definition>, turns: seq<Turn>, r: Ref)
    requires AfterTurns(Planted(defs), turns).Some?
    requires r.key.FanOutKey? && IsCompleted(AfterTurns(Planted(defs), turns).value.w.store.steps, r)
    ensures
      var g := AfterTurns(Planted(defs), turns).value;
      Reachable(defs, g.w) && r in g.origin && g.origin[r].FanOut? && r.key == FanOutKey(g.origin[r].key)
    ensures
      var g := AfterTurns(Planted(defs), turns).value;
      var op, v := g.origin[r], g.w.store.steps[r].result;
      && v.Slots? && |v.slots| == |op.kids|
      && forall n :: 0 <= n < |op.kids| ==>
           SlotHolds(BookOf(g.w), turns, Child(r.id, op.key, n), op.kids[n], v.slots[n])
  {
    TurnsAreReached(defs, turns);
    var g := AfterTurns(Planted(defs), turns).value;
    var op, v := g.origin[r], g.w.store.steps[r].result;
    forall n | 0 <= n < |op.kids|
      ensures SlotHolds(BookOf(g.w), turns, Child(r.id, op.key, n), op.kids[n], v.slots[n])
    {
      var c := Child(r.id, op.key, n);
      ExpiredAlong(Planted(defs), turns, c);
      assert SlotMeans(BookOf(g.w), c, op.kids[n], v.slots[n]);
      if !DeletedAlong(turns, c) { SlotMeansIsExact(BookOf(g.w), c, op.kids[n], v.slots[n]); }
    }
  }

  // ---- Entries of descendants ----------------------------------------------------------------------

  lemma TurnKeepsEntry(g: Grove, turn: Turn, r: Ref)
    requires GroveOk(g) && CanTurn(g, turn) && !TopLevel(r.id) && !r.key.Output?
    requires IsCompleted(g.w.store.steps, r) && !Deletes(turn, r.id)
    ensures Lookup(TakeTurn(g, turn).w.store.steps, r) == Lookup(g.w.store.steps, r)
  {
    match turn
    case Plain(a) => if !(a.Engine? && a.event.Cleanup?) { PlainWritesLittle(g.w, a, Next(g.w, a)); }
    case ChildMoves(t, n, choice) => ChildWriteInside(g, t, n, choice);
    case _ =>
  }

  /** A Completed entry of a child, at any depth, survives every run in which retention does not delete it. */
  lemma {:induction false} DescendantEntryStays(defs: map<string, Definition>, g: Grove, turns: seq<Turn>, r: Ref)
    requires GroveReachable(defs, g) && AfterTurns(g, turns).Some? && !TopLevel(r.id) && !r.key.Output?
    requires IsCompleted(g.w.store.steps, r) && !DeletedAlong(turns, r.id)
    ensures Lookup(AfterTurns(g, turns).value.w.store.steps, r) == Lookup(g.w.store.steps, r)
    decreases |turns|
  {
    if |turns| > 0 {
      var before, last := turns[..|turns| - 1], turns[|turns| - 1];
      DescendantEntryStays(defs, g, before, r);
      var start :| AfterTurns(Planted(defs), start) == Some(g);
      TurnsAreReached(defs, start);
      GroveAlong(g, before);
      TurnKeepsEntry(AfterTurns(g, before).value, last, r);
    }
  }
}
