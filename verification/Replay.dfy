/**
 Second layer of the invariant: what a run is given is what the journal says. Completed entries
 never change, and a completed instance has the output that its workflow has under its journal.
 */
module Replay {
  import opened Options
  import opened Storage
  import opened Workflows
  import opened Accounts
  import opened Protocol
  import opened Ownership

  // ---- Histories ---------------------------------------------------------------------------

  lemma FaithfulExtend(j: Steps, i: Id, wf: Workflow, h: History, seen: Seen)
    requires Faithful(j, i, wf, h)
    requires Gives(j, i, wf(h), seen)
    ensures Faithful(j, i, wf, h + [seen])
  {
    var h' := h + [seen];
    forall n | 0 <= n < |h'| ensures Gives(j, i, wf(h'[..n]), h'[n]) {
      assert h'[..n] == h[..n];
      if n == |h| { assert h[..n] == h; }
    }
  }

  lemma FaithfulIsConsistent(j: Steps, i: Id, wf: Workflow, h: History)
    requires Faithful(j, i, wf, h) && Determined(j, i, wf, h)
    ensures Consistent(j, i, wf, h)
  {
  }

  lemma NoErrorsIsDetermined(j: Steps, i: Id, wf: Workflow, h: History)
    requires NoErrors(h)
    ensures Determined(j, i, wf, h)
  {
  }

  lemma ConsistentPrefix(j: Steps, i: Id, wf: Workflow, h: History, n: nat)
    requires Consistent(j, i, wf, h) && n <= |h|
    ensures Consistent(j, i, wf, h[..n])
  {
    forall m | 0 <= m < n ensures Fed(j, i, wf(h[..n][..m])) == Some(h[..n][m]) { assert h[..n][..m] == h[..m]; }
  }

  /** A journal determines the run: of two consistent histories, one is a prefix of the other. */
  lemma {:induction false} ConsistentComparable(j: Steps, i: Id, wf: Workflow, a: History, b: History)
    requires Consistent(j, i, wf, a) && Consistent(j, i, wf, b) && |a| <= |b|
    ensures a == b[..|a|]
  {
    if |a| > 0 {
      var n := |a| - 1;
      ConsistentPrefix(j, i, wf, a, n);
      ConsistentComparable(j, i, wf, a[..n], b);
      assert Fed(j, i, wf(a[..n])) == Some(a[n]) && Fed(j, i, wf(b[..n])) == Some(b[n]);
      assert a == a[..n] + [a[n]];
    }
  }

  /** The longer of two runs that the journal feeds goes on as it fed the shorter one. */
  lemma PrefixFeeds(j: Steps, i: Id, wf: Workflow, a: History, b: History)
    requires Consistent(j, i, wf, a) && Consistent(j, i, wf, b) && |a| < |b|
    ensures Fed(j, i, wf(a)) == Some(b[|a|])
  {
    ConsistentComparable(j, i, wf, a, b);
  }

  /** Two runs that the journal feeds, both to where it has nothing more to give, are one run. */
  lemma OneEnd(j: Steps, i: Id, wf: Workflow, a: History, b: History)
    requires Consistent(j, i, wf, a) && Consistent(j, i, wf, b)
    requires Fed(j, i, wf(a)).None? && Fed(j, i, wf(b)).None?
    ensures a == b
  {
    if |a| < |b| {
      PrefixFeeds(j, i, wf, a, b);
    } else if |b| < |a| {
      PrefixFeeds(j, i, wf, b, a);
    } else {
      ConsistentComparable(j, i, wf, a, b);
    }
  }

  /** `Denote` is well defined: the output does not depend on the choice of history. */
  lemma DenoteUnique(j: Steps, i: Id, wf: Workflow, h: History, out: Value)
    requires Denotes(j, i, wf, h, out)
    ensures Denote(j, i, wf) == Done(out)
  {
    forall h2, out2 | Denotes(j, i, wf, h2, out2) ensures out2 == out { OneEnd(j, i, wf, h, h2); }
  }

  /** A journal that leads the workflow to its end leaves nothing open. */
  lemma EndLeavesNothingOpen(j: Steps, i: Id, wf: Workflow, h: History)
    requires Consistent(j, i, wf, h) && (wf(h).Return? || wf(h).Throw?)
    ensures !Opens(j, i, wf)
  {
    forall g | OpenAt(j, i, wf, g) ensures false { OneEnd(j, i, wf, g, h); }
  }

  /** A journal that leaves something open leads the workflow to no end. */
  lemma OpenMeansNothing(j: Steps, i: Id, wf: Workflow)
    requires Opens(j, i, wf)
    ensures Denote(j, i, wf) == NotDone && forall e :: !FailsWith(j, i, wf, e)
  {
    forall h, out ensures !Denotes(j, i, wf, h, out) {
      if Denotes(j, i, wf, h, out) { EndLeavesNothingOpen(j, i, wf, h); }
    }
    forall e ensures !FailsWith(j, i, wf, e) {
      forall h | Consistent(j, i, wf, h) && wf(h) == Throw(e) ensures false { EndLeavesNothingOpen(j, i, wf, h); }
    }
  }

  // ---- Journals that only grow -------------------------------------------------------------

  /** Nothing that is Completed under a user or fan-out key of `i` is lost or changed, and the input stays. */
  ghost predicate Grows(i: Id, j: Steps, j': Steps) {
    && Lookup(j', Ref(i, Input)) == Lookup(j, Ref(i, Input))
    && forall r: Ref :: r.id == i && !r.key.Output? && IsCompleted(j, r) ==> r in j' && j'[r] == j[r]
  }

  lemma FaithfulGrows(j: Steps, j': Steps, i: Id, wf: Workflow, h: History)
    requires Faithful(j, i, wf, h) && Grows(i, j, j')
    ensures Faithful(j', i, wf, h)
  {
  }

  lemma BodyGrows(defn: Definition, j: Steps, j': Steps, i: Id)
    requires Lookup(j', Ref(i, Input)) == Lookup(j, Ref(i, Input))
    ensures BodyOf(defn, j', i) == BodyOf(defn, j, i)
  {
  }

  // ---- The invariant -----------------------------------------------------------------------

  /** The task does, or is about to do, something that the journal does not answer for. */
  predicate AtWork(pc: Pc) {
    pc.InClosure? || pc.InFanOut? || pc.Saving? || pc.Suspending? || (pc.Finishing? && pc.result.SuspendedAt?)
  }

  ghost predicate OpenEntry(j: Steps, i: Id, op: Op) {
    op.IsJournaled() && LegalOp(op) && !IsCompleted(j, Ref(i, op.JournalKey()))
  }

  /** What holds of a task at its program counter. `op` is the operation it is at. */
  ghost predicate PcOk(j: Steps, i: Id, op: Op, pc: Pc) {
    match pc
    case At(_) => true
    case InClosure(_, _) => op.Step? && OpenEntry(j, i, op) && !Waits(j, i, op.key)
    case InFanOut(_) => op.FanOut? && OpenEntry(j, i, op)
    case Saving(_, data, seen) =>
      && (op.Step? || op.FanOut?) && OpenEntry(j, i, op) && !data.Suspended?
      && (op.Step? ==> !Waits(j, i, op.key))
      && (data.Completed? ==> seen == Got(data.result) && data.result.ty == op.Tag())
      && (data.Failed? ==> op.Step? && seen == Caught(data.error))
    case Suspending(_, deadline) =>
      && (op.Suspend? || op.Timer?) && OpenEntry(j, i, op) && (deadline.Some? <==> op.Timer?)
      && !Waits(j, i, op.key) && (op.Timer? ==> ValidUserKey(op.key))
    case Outputting(_) => op.Return?
    case Finishing(_, Success) => op.Return? && Lookup(j, Ref(i, Output)) == Some(Completed(op.out, None))
    case Finishing(_, SuspendedAt(key)) => (op.Suspend? || op.Timer?) && op.key == key
    case Finishing(_, Failure(e)) => op == Throw(e)
  }

  ghost predicate TaskOk(th: Thread, defs: map<string, Definition>, j: Steps) {
    th.Worker? ==>
      && th.id.wf in defs
      && th.prog == BodyOf(defs[th.id.wf], j, th.id)
      && Faithful(j, th.id, th.prog, th.pc.h)
      && PcOk(j, th.id, th.prog(th.pc.h), th.pc)
  }

  ghost predicate TasksOk(ts: Threads, defs: map<string, Definition>, j: Steps) {
    forall t :: t in ts ==> TaskOk(ts[t], defs, j)
  }

  /** `h` is the history of a run of `i` that returned, and the journal still bears it out. */
  ghost predicate Returned(defs: map<string, Definition>, j: Steps, i: Id, h: History) {
    && TopLevel(i) && i.wf in defs
    && var wf := BodyOf(defs[i.wf], j, i);
       Faithful(j, i, wf, h) && wf(h).Return?
  }

  ghost predicate FinalsOk(defs: map<string, Definition>, j: Steps, final: map<Id, History>) {
    forall i :: i in final ==> Returned(defs, j, i, final[i])
  }

  ghost predicate OutputOk(defs: map<string, Definition>, j: Steps, i: Id, h: History) {
    i.wf in defs && var op := BodyOf(defs[i.wf], j, i)(h);
    op.Return? && Lookup(j, Ref(i, Output)) == Some(Completed(op.out, None))
  }

  ghost predicate OutputsOk(defs: map<string, Definition>, j: Steps, meta: Metas, final: map<Id, History>) {
    forall i :: i in meta && TopLevel(i) && meta[i].status.Finished? ==> i in final && OutputOk(defs, j, i, final[i])
  }

  ghost predicate SightingsOk(j: Steps, seen: set<Sighting>) {
    forall s :: s in seen ==>
      TopLevel(s.ref.id) && !s.ref.key.Output? && IsCompleted(j, s.ref) && j[s.ref].result == s.value
  }

  ghost predicate InputsOk(j: Steps, inputs: map<Id, Value>) {
    forall i :: i in inputs ==> TopLevel(i) && Lookup(j, Ref(i, Input)) == Some(Completed(inputs[i], None))
  }

  ghost predicate Replaying(w: World) {
    && TasksOk(w.threads, w.defs, w.store.steps)
    && FinalsOk(w.defs, w.store.steps, w.log.final)
    && w.log.final.Keys <= w.log.used
    && OutputsOk(w.defs, w.store.steps, w.store.meta, w.log.final)
    && SightingsOk(w.store.steps, w.log.seen)
    && InputsOk(w.store.steps, w.log.inputs)
  }

  // ---- One instance's journal changes ------------------------------------------------------

  lemma TaskKept(th: Thread, defs: map<string, Definition>, j: Steps, j': Steps, i: Id)
    requires TaskOk(th, defs, j) && OnlyStepsOf(i, j, j') && (th.Worker? ==> th.id != i)
    ensures TaskOk(th, defs, j')
  {
  }

  /** The journal of `i` grows, or `i` is new; no other journal changes. Every record survives. */
  lemma RecordsKept(w: World, j': Steps, i: Id)
    requires Replaying(w) && Owning(w) && OnlyStepsOf(i, w.store.steps, j')
    requires TopLevel(i) ==> i !in w.log.used || Grows(i, w.store.steps, j')
    ensures FinalsOk(w.defs, j', w.log.final)
    ensures SightingsOk(j', w.log.seen) && InputsOk(j', w.log.inputs)
  {
    var j := w.store.steps;
    forall k | k in w.log.final ensures Returned(w.defs, j', k, w.log.final[k]) {
      assert Returned(w.defs, j, k, w.log.final[k]);
      assert Grows(k, j, j');
      BodyGrows(w.defs[k.wf], j, j', k);
      FaithfulGrows(j, j', k, BodyOf(w.defs[k.wf], j, k), w.log.final[k]);
    }
    forall k | k in w.log.inputs ensures k != i || Grows(k, j, j') {
      assert Ref(k, Input) in j;
    }
  }

  lemma OutputsKept(w: World, j': Steps, meta': Metas, i: Id)
    requires Replaying(w) && OnlyStepsOf(i, w.store.steps, j')
    requires forall k :: k != i && TopLevel(k) && k in meta' ==> k in w.store.meta && meta'[k] == w.store.meta[k]
    requires !TopLevel(i) || i !in meta' || !meta'[i].status.Finished?
    ensures OutputsOk(w.defs, j', meta', w.log.final)
  {
    forall k | k in meta' && TopLevel(k) && meta'[k].status.Finished?
      ensures k in w.log.final && OutputOk(w.defs, j', k, w.log.final[k])
    {
      BodyGrows(w.defs[k.wf], w.store.steps, j', k);
    }
  }

  lemma TasksKept(ts: Threads, ts': Threads, defs: map<string, Definition>, j: Steps, j': Steps, t: nat, i: Id)
    requires TasksOk(ts, defs, j) && OthersKept(ts, ts', t) && OnlyStepsOf(i, j, j')
    requires t in ts' ==> TaskOk(ts'[t], defs, j')
    requires forall u :: u in ts' && u != t && ts'[u].Worker? ==> ts'[u].id != i
    ensures TasksOk(ts', defs, j')
  {
    forall u | u in ts' ensures TaskOk(ts'[u], defs, j') {
      if u != t { TaskKept(ts[u], defs, j, j', i); }
    }
  }

  lemma OwnerIsAlone(w: World, t: nat, i: Id)
    requires Owning(w) && t in w.threads && Owns(w.threads[t], i)
    ensures TopLevel(i) && IsRunning(w.store.meta, i)
    ensures forall u :: u in w.threads && u != t && w.threads[u].Worker? ==> w.threads[u].id != i
  {
  }

  lemma UnownedHasNoTask(w: World, i: Id)
    requires !Owned(w, i)
    ensures forall u :: u in w.threads && w.threads[u].Worker? ==> w.threads[u].id != i
  {
  }

  // ---- Steps that leave the tables alone ---------------------------------------------------

  /** Performing an operation gives what the journal makes of it, and executes exactly what is open. */
  lemma PerformFeeds(j: Steps, now: nat, i: Id, h: History, op: Op)
    requires LegalOp(op) && (op.IsJournaled() || op.SetStatus?)
    ensures
      var pc := PerformEffect(j, now, i, h, op).pc;
      if Fed(j, i, op).Some? then pc == At(h + [Fed(j, i, op).value]) else AtWork(pc) && pc.h == h
  {
  }

  lemma PerformOk(j: Steps, now: nat, i: Id, wf: Workflow, h: History)
    requires Faithful(j, i, wf, h) && LegalOp(wf(h))
    ensures var e := PerformEffect(j, now, i, h, wf(h));
            && Faithful(j, i, wf, e.pc.h)
            && PcOk(j, i, wf(e.pc.h), e.pc)
            && (e.given.Some? ==>
                  wf(h).IsJournaled() && IsCompleted(j, Ref(i, wf(h).JournalKey())) &&
                  j[Ref(i, wf(h).JournalKey())].result == e.given.value)
  {
    var e := PerformEffect(j, now, i, h, wf(h));
    if e.pc.h != h { FaithfulExtend(j, i, wf, h, e.pc.h[|h|]); }
  }

  lemma ClosureOk(j: Steps, i: Id, wf: Workflow, h: History, n: nat, status: Option<string>, o: Outcome)
    requires Faithful(j, i, wf, h) && PcOk(j, i, wf(h), InClosure(h, n)) && (o.Okay? ==> o.value.ty == wf(h).Tag())
    ensures var pc := ClosurePc(h, n, wf(h).maxRetries, status, o); Faithful(j, i, wf, pc.h) && PcOk(j, i, wf(pc.h), pc)
  {
    FaithfulExtend(j, i, wf, h, Caught(TIMED_OUT));
  }

  lemma FanOutOk(w: World, t: nat, o: Outcome)
    requires TaskEnabled(w, t, Gather(o)) && TaskOk(w.threads[t], w.defs, w.store.steps)
    ensures t in FanOutReturns(w, t, o).threads && TaskOk(FanOutReturns(w, t, o).threads[t], w.defs, w.store.steps)
  {
    var th := w.threads[t];
    if o.Permanent? { FaithfulExtend(w.store.steps, th.id, th.prog, th.pc.h, Caught(o.error)); }
  }

  lemma QuietTaskStep(w: World, t: nat, a: TaskAction)
    requires Owning(w) && Replaying(w) && TaskEnabled(w, t, a)
    requires a.ReadInput? || a.Perform? || a.ClosureReturn? || a.Gather? || a.Announce? || a.Panic?
    ensures Replaying(TaskNext(w, t, a))
  {
    var w', th, j := TaskNext(w, t, a), w.threads[t], w.store.steps;
    match a {
      case Perform =>
        PerformOk(j, w.now, th.id, th.prog, th.pc.h);
        OwnerIsAlone(w, t, th.id);
      case ClosureReturn(o) =>
        ClosureOk(j, th.id, th.prog, th.pc.h, th.pc.attempt, WatchOf(w, th.id).CurrentStatus(), o);
      case Gather(o) => FanOutOk(w, t, o);
      case _ =>
    }
    assert t in w'.threads ==> TaskOk(w'.threads[t], w.defs, j);
    assert TasksOk(w'.threads, w.defs, j);
  }

  /** Whatever a task is given it is recorded to have been given. */
  lemma GivenIsSeen(w: World, t: nat, a: TaskAction)
    requires TaskEnabled(w, t, a) && IsWorker(w, t) && t in TaskNext(w, t, a).threads
    requires TaskOk(w.threads[t], w.defs, w.store.steps)
    ensures
      var th, w' := w.threads[t], TaskNext(w, t, a);
      forall v :: w'.threads[t].Worker? && w'.threads[t].pc.h == th.pc.h + [Got(v)] ==>
        CurrentOp(th).IsJournaled() && Sighting(Ref(th.id, CurrentOp(th).JournalKey()), v) in w'.log.seen
  {
    var th, w' := w.threads[t], TaskNext(w, t, a);
    if a.Perform? {
      PerformIsSeen(w.store.steps, w.now, th.id, th.pc.h, CurrentOp(th));
    } else if a.Save? {
      assert w'.threads[t].pc.h[|th.pc.h|] == th.pc.seen;
    } else {
      OthersGiveNothing(w, t, a);
    }
  }

  lemma PerformIsSeen(j: Steps, now: nat, i: Id, h: History, op: Op)
    ensures
      var e := PerformEffect(j, now, i, h, op);
      forall v :: e.pc.h == h + [Got(v)] ==> e.given == Some(v) && op.IsJournaled()
  {
    var e := PerformEffect(j, now, i, h, op);
    forall v | e.pc.h == h + [Got(v)] ensures e.given == Some(v) && op.IsJournaled() {
      assert (h + [Got(v)])[|h|] == Got(v) && e.pc.h[|h|] == Got(v);
    }
  }

  lemma OthersGiveNothing(w: World, t: nat, a: TaskAction)
    requires TaskEnabled(w, t, a) && IsWorker(w, t) && t in TaskNext(w, t, a).threads && !a.Perform? && !a.Save?
    ensures
      var th, w' := w.threads[t], TaskNext(w, t, a);
      forall v :: w'.threads[t].Worker? ==> w'.threads[t].pc.h != th.pc.h + [Got(v)]
  {
    var th, w' := w.threads[t], TaskNext(w, t, a);
    forall v | w'.threads[t].Worker? ensures w'.threads[t].pc.h != th.pc.h + [Got(v)] {
      assert (th.pc.h + [Got(v)])[|th.pc.h|] == Got(v);
    }
  }

  // ---- Steps that write --------------------------------------------------------------------

  /** A write of worker `t` to a key of its own that is not yet completed, or to the output. */
  lemma OwnWriteKeeps(w: World, t: nat, w': World, r: Ref)
    requires Owning(w) && Replaying(w) && IsWorker(w, t)
    requires r.id == w.threads[t].id && !r.key.Input? && (r.key.Output? || !IsCompleted(w.store.steps, r))
    requires r in w'.store.steps && w'.store.steps == w.store.steps[r := w'.store.steps[r]]
    requires w'.store.meta == w.store.meta && OthersKept(w.threads, w'.threads, t)
    requires w'.defs == w.defs && w'.log.final == w.log.final && w'.log.inputs == w.log.inputs
    requires w'.log.used == w.log.used
    requires t in w'.threads && TaskOk(w'.threads[t], w.defs, w'.store.steps)
    requires SightingsOk(w'.store.steps, w'.log.seen - w.log.seen)
    ensures Replaying(w')
  {
    var i, j, j' := r.id, w.store.steps, w'.store.steps;
    assert Owns(w.threads[t], i);
    OwnerIsAlone(w, t, i);
    RecordsKept(w, j', i);
    OutputsKept(w, j', w'.store.meta, i);
    TasksKept(w.threads, w'.threads, w.defs, j, j', t, i);
  }

  /** What a task that saves has been given is in the journal afterwards, unless it is an error. */
  lemma SavedIsFaithful(j: Steps, i: Id, wf: Workflow, h: History, data: StepData, seen: Seen)
    requires Faithful(j, i, wf, h) && PcOk(j, i, wf(h), Saving(h, data, seen)) && (seen.Got? || seen.Caught?)
    ensures
      var r := Ref(i, wf(h).JournalKey());
      var j' := j[r := data];
      && Grows(i, j, j') && Faithful(j', i, wf, h) && Faithful(j', i, wf, h + [seen])
      && (seen.Got? ==> data.Completed? && data.result == seen.value)
  {
    var j' := j[Ref(i, wf(h).JournalKey()) := data];
    assert Grows(i, j, j');
    FaithfulGrows(j, j', i, wf, h);
    FaithfulExtend(j', i, wf, h, seen);
  }

  lemma SaveKeepsReplaying(w: World, t: nat)
    requires Owning(w) && Replaying(w) && TaskEnabled(w, t, Save)
    ensures Replaying(SaveTxn(w, t))
  {
    var w', th := SaveTxn(w, t), w.threads[t];
    var r := Ref(th.id, CurrentOp(th).JournalKey());
    assert TaskOk(th, w.defs, w.store.steps) && PcOk(w.store.steps, th.id, CurrentOp(th), th.pc);
    assert Owns(w.threads[t], th.id);
    SavedIsFaithful(w.store.steps, th.id, th.prog, th.pc.h, th.pc.data, th.pc.seen);
    BodyGrows(w.defs[th.id.wf], w.store.steps, w'.store.steps, th.id);
    OwnWriteKeeps(w, t, w', r);
  }

  lemma SuspendKeepsReplaying(w: World, t: nat)
    requires Owning(w) && Replaying(w) && TaskEnabled(w, t, SaveSuspended)
    ensures Replaying(SuspendedTxn(w, t))
  {
    var w', th := SuspendedTxn(w, t), w.threads[t];
    var r, j' := Ref(th.id, User(CurrentOp(th).key)), w'.store.steps;
    assert PcOk(w.store.steps, th.id, th.prog(th.pc.h), th.pc);
    assert Grows(th.id, w.store.steps, j');
    BodyGrows(w.defs[th.id.wf], w.store.steps, j', th.id);
    FaithfulGrows(w.store.steps, j', th.id, th.prog, th.pc.h);
    OwnWriteKeeps(w, t, w', r);
  }

  lemma OutputKeepsReplaying(w: World, t: nat)
    requires Owning(w) && Replaying(w) && TaskEnabled(w, t, WriteOutput)
    ensures Replaying(TaskNext(w, t, WriteOutput))
  {
    var w', th := TaskNext(w, t, WriteOutput), w.threads[t];
    assert Grows(th.id, w.store.steps, w'.store.steps);
    BodyGrows(w.defs[th.id.wf], w.store.steps, w'.store.steps, th.id);
    FaithfulGrows(w.store.steps, w'.store.steps, th.id, th.prog, th.pc.h);
    OwnWriteKeeps(w, t, w', Ref(th.id, Output));
  }

  lemma ResultKeepsReplaying(w: World, t: nat)
    requires Owning(w) && Replaying(w) && TaskEnabled(w, t, WriteResult)
    ensures Replaying(ResultTxn(w, t))
  {
    var w', th, j := ResultTxn(w, t), w.threads[t], w.store.steps;
    assert TaskOk(th, w.defs, j) && PcOk(j, th.id, th.prog(th.pc.h), th.pc);
    assert Owns(th, th.id) && TopLevel(th.id) && IsRunning(w.store.meta, th.id);
    forall k | k in w'.store.meta && TopLevel(k) && w'.store.meta[k].status.Finished?
      ensures k in w'.log.final && OutputOk(w.defs, j, k, w'.log.final[k])
    {
    }
  }

  lemma ChildKeepsReplaying(w: World, t: nat, a: TaskAction)
    requires Owning(w) && Replaying(w) && TaskEnabled(w, t, a) && (a.ChildStep? || a.ChildMeta?)
    ensures Replaying(TaskNext(w, t, a))
  {
    var w' := TaskNext(w, t, a);
    var c := if a.ChildStep? then a.ref.id else a.child;
    forall u | u in w.threads && w.threads[u].Worker? ensures w.threads[u].id != c {
      assert Owns(w.threads[u], w.threads[u].id) && TopLevel(w.threads[u].id);
    }
    RecordsKept(w, w'.store.steps, c);
    OutputsKept(w, w'.store.steps, w'.store.meta, c);
    TasksKept(w.threads, w.threads, w.defs, w.store.steps, w'.store.steps, t, c);
  }

  lemma TaskKeepsReplaying(w: World, t: nat, a: TaskAction)
    requires Owning(w) && Replaying(w) && TaskEnabled(w, t, a)
    ensures Replaying(TaskNext(w, t, a))
  {
    match a
    case ChildStep(_, _) => ChildKeepsReplaying(w, t, a);
    case ChildMeta(_, _) => ChildKeepsReplaying(w, t, a);
    case Save => SaveKeepsReplaying(w, t);
    case SaveSuspended => SuspendKeepsReplaying(w, t);
    case WriteOutput => OutputKeepsReplaying(w, t);
    case WriteResult => ResultKeepsReplaying(w, t);
    case _ => QuietTaskStep(w, t, a);
  }

  /** A transaction that marks an unowned instance Running: invocation, resume or claim. */
  lemma AcquireKeepsReplaying(w: World, w': World, t: nat, i: Id)
    requires Owning(w) && Replaying(w) && TopLevel(i) && !Owned(w, i)
    requires t in w'.threads && !w'.threads[t].Worker? && OthersKept(w.threads, w'.threads, t)
    requires w'.store.meta == w.store.meta[i := Metadata(Running, None)]
    requires OnlyStepsOf(i, w.store.steps, w'.store.steps)
    requires i !in w.log.used || Grows(i, w.store.steps, w'.store.steps)
    requires w'.defs == w.defs && w'.log.final == w.log.final && w'.log.seen == w.log.seen
    requires w.log.used <= w'.log.used
    requires w'.log.inputs == w.log.inputs ||
             (i in w'.log.inputs && w'.log.inputs == w.log.inputs[i := w'.log.inputs[i]] &&
              Lookup(w'.store.steps, Ref(i, Input)) == Some(Completed(w'.log.inputs[i], None)))
    ensures Replaying(w')
  {
    UnownedHasNoTask(w, i);
    RecordsKept(w, w'.store.steps, i);
    OutputsKept(w, w'.store.steps, w'.store.meta, i);
    TasksKept(w.threads, w'.threads, w.defs, w.store.steps, w'.store.steps, t, i);
  }

  /** No task moves, no step or metadata changes. */
  lemma NoTaskMoves(w: World, w': World)
    requires Replaying(w)
    requires w'.store.steps == w.store.steps && w'.store.meta == w.store.meta && w'.defs == w.defs
    requires w'.log.final == w.log.final && w'.log.used == w.log.used
    requires w'.log.seen == w.log.seen && w'.log.inputs == w.log.inputs
    requires forall u :: u in w'.threads && w'.threads[u].Worker? ==> u in w.threads && w'.threads[u] == w.threads[u]
    ensures Replaying(w')
  {
  }

  /** A successful claim, by a signal or by the poller. */
  lemma ClaimKeepsReplaying(w: World, w': World, t: nat, i: Id, key: string, v: Value)
    requires Owning(w) && Replaying(w) && ClaimOutcome(w.store, i, key) == Claimed
    requires t in w'.threads && !w'.threads[t].Worker? && OthersKept(w.threads, w'.threads, t)
    requires w'.store == ClaimTxn(w.store, i, key, v) && w'.defs == w.defs
    requires w'.log == w.log.(claimed := w'.log.claimed, lost := w'.log.lost, polled := w'.log.polled)
    ensures Replaying(w')
  {
    UnownedWhenSuspended(w, i);
    AcquireKeepsReplaying(w, w', t, i);
  }

  lemma ApiKeepsReplaying(w: World, t: nat, a: ApiAction, w': World)
    requires Owning(w) && Replaying(w) && ApiEnabled(w, t, a) && w' == ApiNext(w, t, a)
    ensures Replaying(w')
  {
    match a
    case Invoke(id, _) => InvokeKeepsReplaying(w, t, a, w');
    case Resume(id) => AcquireKeepsReplaying(w, w', t, id);
    case Signal(id, key, v) =>
      if ClaimOutcome(w.store, id, key) == Claimed { ClaimKeepsReplaying(w, w', t, id, key, v); }
    case _ => NoTaskMoves(w, w');
  }

  lemma InvokeKeepsReplaying(w: World, t: nat, a: ApiAction, w': World)
    requires Owning(w) && Replaying(w) && ApiEnabled(w, t, a) && a.Invoke? && w' == ApiNext(w, t, a)
    ensures Replaying(w')
  {
    AcquireKeepsReplaying(w, w', t, a.id);
  }

  /** What no task step but a suspension touches: timers, the clock, and what is logged of them and of retention. */
  ghost predicate TimersLeft(w: World, w': World) {
    && w'.store.timers == w.store.timers && w'.now == w.now
    && w'.log.timerSteps == w.log.timerSteps && w'.log.lost == w.log.lost
    && w'.log.polled == w.log.polled && w'.log.rowsSet == w.log.rowsSet && w'.log.cleaned == w.log.cleaned
  }

  lemma WriteLeavesTimers(w: World, t: nat, a: TaskAction, w': World)
    requires TaskEnabled(w, t, a) && IsWrite(a) && !a.SaveSuspended? && w' == TaskNext(w, t, a)
    ensures TimersLeft(w, w')
  {
  }

  lemma PerformLeavesTimers(w: World, t: nat, w': World)
    requires TaskEnabled(w, t, Perform) && w' == PerformOp(w, t)
    ensures TimersLeft(w, w')
  {
  }

  lemma TaskLeavesTimers(w: World, t: nat, a: TaskAction, w': World)
    requires TaskEnabled(w, t, a) && !a.SaveSuspended? && w' == TaskNext(w, t, a)
    ensures TimersLeft(w, w')
  {
    if IsWrite(a) {
      WriteLeavesTimers(w, t, a, w');
    } else if a.Perform? {
      PerformLeavesTimers(w, t, w');
    }
  }

  lemma PollClaimFrame(w: World, t: nat, w': World)
    requires PollerAt(w, t, Checked) && w' == PollNext(w, t, PollClaim)
    ensures var row := w.threads[t].batch[0].row; w'.store == ClaimTxn(w.store, row.id, row.key, UNIT)
    ensures w'.log == w.log.(claimed := w'.log.claimed, lost := w'.log.lost, polled := w'.log.polled)
    ensures w'.defs == w.defs && w'.serial == w.serial && w'.now == w.now && IsPoller(w', t)
    ensures OthersKept(w.threads, w'.threads, t)
  {
  }

  lemma PollSpawnFrame(w: World, t: nat, t2: nat, w': World)
    requires PollEnabled(w, t, PollSpawn(t2)) && w' == PollNext(w, t, PollSpawn(t2))
    ensures w'.store == w.store
    ensures w'.log == w.log.(claimed := w'.log.claimed, lost := w'.log.lost, polled := w'.log.polled)
    ensures w'.defs == w.defs && w'.serial == w.serial && w'.now == w.now && IsPoller(w', t)
    ensures forall u :: u in w'.threads && w'.threads[u].Worker? ==> u in w.threads && w'.threads[u] == w.threads[u]
  {
  }

  lemma PollRowFrame(w: World, t: nat, a: PollAction, w': World)
    requires PollEnabled(w, t, a) && !a.PollClaim? && !a.PollSpawn? && w' == PollNext(w, t, a)
    ensures w'.store.steps == w.store.steps && w'.store.meta == w.store.meta
    ensures w'.log == w.log.(claimed := w'.log.claimed, lost := w'.log.lost, polled := w'.log.polled)
    ensures w'.defs == w.defs && w'.serial == w.serial && w'.now == w.now && IsPoller(w', t)
    ensures OthersKept(w.threads, w'.threads, t)
  {
  }

  /** What a poll step may touch. Only a claim changes steps and metadata. */
  lemma PollFrame(w: World, t: nat, a: PollAction, w': World)
    requires PollEnabled(w, t, a) && w' == PollNext(w, t, a)
    ensures !a.PollClaim? ==> w'.store.steps == w.store.steps && w'.store.meta == w.store.meta
    ensures a.PollClaim? ==> var row := w.threads[t].batch[0].row; w'.store == ClaimTxn(w.store, row.id, row.key, UNIT)
    ensures w'.log == w.log.(claimed := w'.log.claimed, lost := w'.log.lost, polled := w'.log.polled)
    ensures w'.defs == w.defs && IsPoller(w', t)
    ensures !a.PollSpawn? ==> OthersKept(w.threads, w'.threads, t)
    ensures forall u :: u in w'.threads && w'.threads[u].Worker? ==> u in w.threads && w'.threads[u] == w.threads[u]
    ensures w'.serial == w.serial && w'.now == w.now
  {
    match a
    case PollClaim => PollClaimFrame(w, t, w');
    case PollSpawn(t2) => PollSpawnFrame(w, t, t2, w');
    case _ => PollRowFrame(w, t, a, w');
  }

  lemma PollKeepsReplaying(w: World, t: nat, a: PollAction)
    requires Owning(w) && Replaying(w) && PollEnabled(w, t, a)
    ensures Replaying(PollNext(w, t, a))
  {
    var w' := PollNext(w, t, a);
    PollFrame(w, t, a, w');
    if a.PollClaim? {
      var row := w.threads[t].batch[0].row;
      if ClaimOutcome(w.store, row.id, row.key) == Claimed {
        ClaimKeepsReplaying(w, w', t, row.id, row.key, UNIT);
      } else {
        NoTaskMoves(w, w');
      }
    } else {
      NoTaskMoves(w, w');
    }
  }

  lemma CleanupKeepsReplaying(w: World, id: Id)
    requires Owning(w) && Replaying(w) && IsTerminal(w.store.meta, id)
    ensures Replaying(CleanupTxn(w, id))
  {
    var w', j := CleanupTxn(w, id), w.store.steps;
    var j' := w'.store.steps;
    forall k | TopLevel(k) && !Under(k, id)
      ensures Grows(k, j, j') && Lookup(j', Ref(k, Output)) == Lookup(j, Ref(k, Output))
    {
    }
    forall u | u in w.threads ensures TaskOk(w.threads[u], w.defs, j') {
      var th := w.threads[u];
      if th.Worker? {
        assert Owns(th, th.id) && TopLevel(th.id) && IsRunning(w.store.meta, th.id);
        if Under(th.id, id) { UnderTopLevel(th.id, id); }
        BodyGrows(w.defs[th.id.wf], j, j', th.id);
        FaithfulGrows(j, j', th.id, th.prog, th.pc.h);
      }
    }
    forall k | k in w'.log.final ensures Returned(w.defs, j', k, w.log.final[k]) {
      assert Returned(w.defs, j, k, w.log.final[k]);
      BodyGrows(w.defs[k.wf], j, j', k);
      FaithfulGrows(j, j', k, BodyOf(w.defs[k.wf], j, k), w.log.final[k]);
    }
    forall k | k in w'.store.meta && TopLevel(k) && w'.store.meta[k].status.Finished?
      ensures k in w'.log.final && OutputOk(w.defs, j', k, w'.log.final[k])
    {
      if Under(k, id) { UnderTopLevel(k, id); }
      BodyGrows(w.defs[k.wf], j, j', k);
    }
  }

  lemma EngineKeepsReplaying(w: World, a: EngineAction)
    requires Owning(w) && Replaying(w) && EngineEnabled(w, a)
    ensures Replaying(EngineNext(w, a))
  {
    match a
    case Cleanup(id) => CleanupKeepsReplaying(w, id);
    case RecoverOne(t, t2, id) =>
      assert Owns(w.threads[t], id);
      OutputsKept(w, w.store.steps, EngineNext(w, a).store.meta, id);
    case _ =>
  }

  lemma ReplayStep(w: World, a: Action)
    requires Owning(w) && Replaying(w) && Enabled(w, a)
    ensures Replaying(Next(w, a))
  {
    match a
    case Api(t, x) => ApiKeepsReplaying(w, t, x, ApiNext(w, t, x));
    case Task(t, x) => TaskKeepsReplaying(w, t, x);
    case Poll(t, x) => PollKeepsReplaying(w, t, x);
    case Engine(x) => EngineKeepsReplaying(w, x);
  }
}
