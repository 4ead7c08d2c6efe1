/**
 Observable status. Whatever was interrupted and replayed before, a run shows at every point the
 last status that its workflow set on the way there, or that was stored with a result it was given,
 and completes with that message.
 */
module Status {
  import opened Options
  import opened Storage
  import opened Workflows
  import opened Protocol
  import opened Ownership
  import opened Replay

  /** The last status that the workflow set in this history. */
  ghost function Shown(wf: Workflow, h: History): Watch {
    if |h| == 0 then Started
    else if wf(h[..|h| - 1]).SetStatus? then InProgress(wf(h[..|h| - 1]).msg)
    else Shown(wf, h[..|h| - 1])
  }

  /** The status that the journal has stored with the result of a step or a suspension. */
  ghost function StoredStatus(j: Steps, i: Id, op: Op): Option<string> {
    if (op.Step? || op.Suspend?) && IsCompleted(j, Ref(i, op.JournalKey()))
    then j[Ref(i, op.JournalKey())].status
    else None
  }

  /** The last status that was set in this history, or stored with a result that was given in it. */
  ghost function Shows(j: Steps, i: Id, wf: Workflow, h: History): Watch {
    if |h| == 0 then Started
    else
      var n := |h| - 1;
      var op := wf(h[..n]);
      if op.SetStatus? then InProgress(op.msg)
      else if h[n].Got? && StoredStatus(j, i, op).Some? then InProgress(StoredStatus(j, i, op).value)
      else Shows(j, i, wf, h[..n])
  }

  lemma {:induction false} ShowsIsNotFinal(j: Steps, i: Id, wf: Workflow, h: History)
    ensures !Shows(j, i, wf, h).Settled?
  {
    if |h| > 0 { ShowsIsNotFinal(j, i, wf, h[..|h| - 1]); }
  }

  lemma ShowsNext(j: Steps, i: Id, wf: Workflow, h: History, seen: Seen)
    ensures
      Shows(j, i, wf, h + [seen]) ==
        if wf(h).SetStatus? then InProgress(wf(h).msg)
        else if seen.Got? && StoredStatus(j, i, wf(h)).Some? then InProgress(StoredStatus(j, i, wf(h)).value)
        else Shows(j, i, wf, h)
  {
    assert (h + [seen])[..|h|] == h;
  }

  /** What a run has been given stays in the journal, and the status with it. */
  lemma {:induction false} ShowsGrows(j: Steps, j': Steps, i: Id, wf: Workflow, h: History)
    requires Faithful(j, i, wf, h)
    requires forall r: Ref :: r.id == i && !r.key.Output? && IsCompleted(j, r) ==> Lookup(j', r) == Lookup(j, r)
    ensures Shows(j', i, wf, h) == Shows(j, i, wf, h)
  {
    if |h| > 0 {
      var n := |h| - 1;
      assert forall m :: 0 <= m < n ==> h[..n][..m] == h[..m];
      assert Faithful(j, i, wf, h[..n]);
      ShowsGrows(j, j', i, wf, h[..n]);
      assert Gives(j, i, wf(h[..n]), h[n]);
    }
  }

  ghost predicate Clean(wf: Workflow) { Propagates(wf) && KeysOnce(wf) }

  /** What is shown is `own`, or, if a late status came, the final status of an older run. */
  predicate ShowsOr(shown: Watch, own: Watch, late: bool) {
    if late then shown.Settled? else shown == own
  }

  ghost predicate Showing(th: Thread, j: Steps, watch: map<Id, Watch>, late: set<Id>) {
    && (th.Announcing? ==> th.state.Settled?)
    && (th.Starting? ==> ShowsOr(WatchIn(watch, th.id), Started, th.id in late))
    && (th.Worker? ==> WorkerShows(th, j, WatchIn(watch, th.id), th.id in late))
  }

  ghost predicate WorkerShows(th: Thread, j: Steps, shown: Watch, late: bool)
    requires th.Worker?
  {
    var last := Shows(j, th.id, th.prog, th.pc.h);
    && (!(th.pc.Finishing? && th.pc.result.SuspendedAt?) ==> ShowsOr(shown, last, late))
    && (th.pc.Saving? && th.pc.data.Completed? && th.pc.data.status.Some? ==>
          CurrentOp(th).Step? && th.pc.data.status == last.CurrentStatus())
  }

  /** A status stored with a step is the one that was shown when the step was journaled. */
  ghost predicate StatusAt(defs: map<string, Definition>, j: Steps, r: Ref, h: History, status: Option<string>)
    requires r.id.wf in defs
  {
    var wf := BodyOf(defs[r.id.wf], j, r.id);
    && Faithful(j, r.id, wf, h) && wf(h).IsJournaled() && wf(h).JournalKey() == r.key
    && status == Shown(wf, h).CurrentStatus()
  }

  ghost predicate HasStatus(j: Steps, r: Ref) { TopLevel(r.id) && IsCompleted(j, r) && j[r].status.Some? }

  ghost predicate EntriesShow(defs: map<string, Definition>, j: Steps, writtenAt: map<Ref, History>) {
    forall r :: HasStatus(j, r) && r.id.wf in defs && Clean(BodyOf(defs[r.id.wf], j, r.id)) ==>
      r in writtenAt && StatusAt(defs, j, r, writtenAt[r], j[r].status)
  }

  ghost predicate MessagesShow(defs: map<string, Definition>, j: Steps, meta: Metas, final: map<Id, History>,
                               tainted: set<Id>)
  {
    forall i :: i in meta && TopLevel(i) && meta[i].status.Finished? && i !in tainted && i in final && i.wf in defs ==>
      var wf := BodyOf(defs[i.wf], j, i);
      meta[i].status.message == Shows(j, i, wf, final[i]).Message()
  }

  ghost predicate ThreadsShow(ts: Threads, j: Steps, watch: map<Id, Watch>, late: set<Id>) {
    forall t :: t in ts ==> Showing(ts[t], j, watch, late)
  }

  ghost predicate Reporting(w: World) {
    && ThreadsShow(w.threads, w.store.steps, w.watch, w.late)
    && EntriesShow(w.defs, w.store.steps, w.log.writtenAt)
    && MessagesShow(w.defs, w.store.steps, w.store.meta, w.log.final, w.tainted)
  }

  // ---- A step is journaled at one place only -------------------------------------------------

  /** Two places of a clean workflow that the same journal leads to, with one key, are one place. */
  lemma OnePlace(j: Steps, i: Id, wf: Workflow, a: History, b: History)
    requires Clean(wf) && Faithful(j, i, wf, a) && Faithful(j, i, wf, b)
    requires wf(a).IsJournaled() && wf(b).IsJournaled() && wf(a).JournalKey() == wf(b).JournalKey()
    ensures a == b
  {
    NoErrorsIsDetermined(j, i, wf, a);
    NoErrorsIsDetermined(j, i, wf, b);
    if |a| <= |b| {
      ConsistentComparable(j, i, wf, a, b);
      assert |a| == |b|;
    } else {
      ConsistentComparable(j, i, wf, b, a);
      assert false;
    }
  }

  lemma ShownNext(wf: Workflow, h: History, seen: Seen)
    ensures Shown(wf, h + [seen]) == if wf(h).SetStatus? then InProgress(wf(h).msg) else Shown(wf, h)
  {
  }

  /** In a clean workflow what is stored with a result is what the workflow had set by then. */
  lemma {:induction false} CleanShowsWhatWasSet(
    defs: map<string, Definition>, j: Steps, wa: map<Ref, History>, i: Id, wf: Workflow, h: History)
    requires TopLevel(i) && i.wf in defs && wf == BodyOf(defs[i.wf], j, i) && Clean(wf) && Faithful(j, i, wf, h)
    requires EntriesShow(defs, j, wa)
    ensures Shows(j, i, wf, h) == Shown(wf, h)
  {
    if |h| > 0 {
      var n := |h| - 1;
      assert forall m :: 0 <= m < n ==> h[..n][..m] == h[..m];
      assert Faithful(j, i, wf, h[..n]);
      CleanShowsWhatWasSet(defs, j, wa, i, wf, h[..n]);
      var op := wf(h[..n]);
      if h[n].Got? && StoredStatus(j, i, op).Some? {
        var r := Ref(i, op.JournalKey());
        assert HasStatus(j, r) && StatusAt(defs, j, r, wa[r], j[r].status);
        OnePlace(j, i, wf, wa[r], h[..n]);
      }
    }
  }

  // ---- The journal of one instance changes ---------------------------------------------------

  lemma EntriesKept(defs: map<string, Definition>, j: Steps, j': Steps, wa: map<Ref, History>, i: Id)
    requires EntriesShow(defs, j, wa) && OnlyStepsOf(i, j, j')
    requires TopLevel(i) ==> Grows(i, j, j') || forall r :: r in j ==> r.id != i
    requires TopLevel(i) ==> forall r: Ref :: r.id == i && HasStatus(j', r) ==> r in j && j[r] == j'[r]
    ensures EntriesShow(defs, j', wa)
  {
    forall r | HasStatus(j', r) && r.id.wf in defs && Clean(BodyOf(defs[r.id.wf], j', r.id))
      ensures r in wa && StatusAt(defs, j', r, wa[r], j'[r].status)
    {
      assert Grows(r.id, j, j') && HasStatus(j, r);
      BodyGrows(defs[r.id.wf], j, j', r.id);
      FaithfulGrows(j, j', r.id, BodyOf(defs[r.id.wf], j, r.id), wa[r]);
    }
  }

  lemma MessagesKept(w: World, j': Steps, meta': Metas, i: Id)
    requires Replaying(w) && Reporting(w) && OnlyStepsOf(i, w.store.steps, j')
    requires forall k :: k != i && TopLevel(k) && k in meta' ==> k in w.store.meta && meta'[k] == w.store.meta[k]
    requires !TopLevel(i) || i !in meta' || !meta'[i].status.Finished?
    ensures MessagesShow(w.defs, j', meta', w.log.final, w.tainted)
  {
    forall k | k in w.log.final && k != i
      ensures BodyOf(w.defs[k.wf], j', k) == BodyOf(w.defs[k.wf], w.store.steps, k)
      ensures
        var wf := BodyOf(w.defs[k.wf], j', k);
        Shows(j', k, wf, w.log.final[k]) == Shows(w.store.steps, k, wf, w.log.final[k])
    {
      assert Returned(w.defs, w.store.steps, k, w.log.final[k]);
      BodyGrows(w.defs[k.wf], w.store.steps, j', k);
      ShowsGrows(w.store.steps, j', k, BodyOf(w.defs[k.wf], j', k), w.log.final[k]);
    }
  }

  // ---- Steps of a task -------------------------------------------------------------------------

  lemma PerformShows(j: Steps, now: nat, i: Id, wf: Workflow, h: History)
    ensures var e := PerformEffect(j, now, i, h, wf(h));
            && !e.pc.Saving?
            && (!(e.pc.Finishing? && e.pc.result.SuspendedAt?) ==>
                  e.shown.GetOr(Shows(j, i, wf, h)) == Shows(j, i, wf, e.pc.h))
  {
    var e := PerformEffect(j, now, i, h, wf(h));
    if e.pc.h != h {
      assert e.pc.h == h + [e.pc.h[|h|]];
      ShowsNext(j, i, wf, h, e.pc.h[|h|]);
    }
  }

  ghost predicate OnlyStatusOf(i: Id, w: World, w': World) {
    forall k :: k != i ==> WatchIn(w'.watch, k) == WatchIn(w.watch, k) && (k in w'.late <==> k in w.late)
  }

  /** Only thread `t` moves, and only the status and the journal of `i` change, which no other run of `i` sees. */
  lemma ThreadsKept(w: World, w': World, t: nat, i: Id)
    requires Replaying(w) && ThreadsShow(w.threads, w.store.steps, w.watch, w.late)
    requires OthersKept(w.threads, w'.threads, t)
    requires OnlyStatusOf(i, w, w') && OnlyStepsOf(i, w.store.steps, w'.store.steps)
    requires
      || (w'.watch == w.watch && w'.late == w.late && w'.store.steps == w.store.steps)
      || NoOtherRun(w'.threads, t, i)
    requires t in w'.threads ==> Showing(w'.threads[t], w'.store.steps, w'.watch, w'.late)
    ensures ThreadsShow(w'.threads, w'.store.steps, w'.watch, w'.late)
  {
    forall u | u in w'.threads && u != t ensures Showing(w'.threads[u], w'.store.steps, w'.watch, w'.late) {
      var th := w.threads[u];
      if th.Worker? && w'.store.steps != w.store.steps {
        assert TaskOk(th, w.defs, w.store.steps) && th.id != i;
        ShowsGrows(w.store.steps, w'.store.steps, th.id, th.prog, th.pc.h);
      }
    }
  }

  ghost predicate NoOtherRun(ts: Threads, t: nat, i: Id) {
    forall u :: u in ts && u != t && (ts[u].Worker? || ts[u].Starting?) ==> ts[u].id != i
  }

  lemma NobodyElse(w: World, t: nat, i: Id)
    requires Owning(w) && t in w.threads && Owns(w.threads[t], i)
    ensures NoOtherRun(w.threads, t, i)
  {
  }

  ghost predicate SameStores(w: World, w': World) {
    && w'.store.steps == w.store.steps && w'.store.meta == w.store.meta && w'.defs == w.defs
    && w'.log.writtenAt == w.log.writtenAt && w'.log.final == w.log.final && w'.tainted == w.tainted
  }

  /** No table that status depends on has changed. */
  lemma StoresKept(w: World, w': World)
    requires Reporting(w) && SameStores(w, w') && ThreadsShow(w'.threads, w'.store.steps, w'.watch, w'.late)
    ensures Reporting(w')
  {
  }

  lemma OwnTask(w: World, t: nat)
    requires Owning(w) && Replaying(w) && IsWorker(w, t)
    ensures
      var th := w.threads[t];
      && TopLevel(th.id) && th.id.wf in w.defs && th.prog == BodyOf(w.defs[th.id.wf], w.store.steps, th.id)
      && Faithful(w.store.steps, th.id, th.prog, th.pc.h) && PcOk(w.store.steps, th.id, CurrentOp(th), th.pc)
      && IsRunning(w.store.meta, th.id)
  {
  }

  lemma PerformStepShows(w: World, t: nat, w': World)
    requires Owning(w) && Replaying(w) && Reporting(w) && TaskEnabled(w, t, Perform) && w' == PerformOp(w, t)
    ensures Reporting(w')
  {
    OwnTask(w, t);
    var th := w.threads[t];
    var i := th.id;
    assert Owns(th, i) && Showing(th, w.store.steps, w.watch, w.late);
    NobodyElse(w, t, i);
    PerformShows(w.store.steps, w.now, i, th.prog, th.pc.h);
    ThreadsKept(w, w', t, i);
    StoresKept(w, w');
  }

  lemma ComingBackShows(w: World, t: nat, a: TaskAction, w': World)
    requires Owning(w) && Replaying(w) && Reporting(w) && TaskEnabled(w, t, a) && w' == TaskNext(w, t, a)
    requires a.ClosureReturn? || a.Gather?
    ensures Reporting(w')
  {
    OwnTask(w, t);
    var th := w.threads[t];
    var i := th.id;
    assert Owns(th, i) && Showing(th, w.store.steps, w.watch, w.late);
    BackShows(th, w.store.steps, WatchOf(w, i), i in w.late, a, w'.threads[t].pc);
    ThreadsKept(w, w', t, i);
    StoresKept(w, w');
  }

  lemma ReadInputShows(w: World, t: nat, w': World)
    requires Reporting(w) && TaskEnabled(w, t, ReadInput) && w' == TaskNext(w, t, ReadInput)
    ensures Reporting(w')
  {
  }

  /** Where a closure or a fan-out that comes back takes its task. */
  ghost predicate ComesBack(th: Thread, shown: Watch, a: TaskAction, pc: Pc)
    requires th.Worker?
  {
    var h, op := th.pc.h, CurrentOp(th);
    match a
    case ClosureReturn(o) =>
      th.pc.InClosure? && op.Step? && pc == ClosurePc(h, th.pc.attempt, op.maxRetries, shown.CurrentStatus(), o)
    case Gather(Okay(v)) => op.FanOut? && pc == Saving(h, Completed(v, None), Got(v))
    case Gather(Permanent(e)) => op.FanOut? && pc == At(h + [Caught(e)])
    case _ => false
  }

  lemma BackShows(th: Thread, j: Steps, shown: Watch, late: bool, a: TaskAction, pc: Pc)
    requires th.Worker? && WorkerShows(th, j, shown, late) && !th.pc.Finishing? && ComesBack(th, shown, a, pc)
    ensures WorkerShows(th.(pc := pc), j, shown, late)
  {
    if pc.h != th.pc.h { ShowsNext(j, th.id, th.prog, th.pc.h, pc.h[|th.pc.h|]); }
  }

  /** What a step saves is what is shown then, so that reading it back shows the same. */
  lemma SavedStatusShows(th: Thread, j: Steps, shown: Watch, late: bool)
    requires th.Worker? && th.pc.Saving? && WorkerShows(th, j, shown, late)
    requires Faithful(j, th.id, th.prog, th.pc.h) && PcOk(j, th.id, CurrentOp(th), th.pc)
    ensures
      var j' := j[Ref(th.id, CurrentOp(th).JournalKey()) := th.pc.data];
      WorkerShows(th.(pc := At(th.pc.h + [th.pc.seen])), j', shown, late)
  {
    var j' := j[Ref(th.id, CurrentOp(th).JournalKey()) := th.pc.data];
    ShowsGrows(j, j', th.id, th.prog, th.pc.h);
    ShowsNext(j', th.id, th.prog, th.pc.h, th.pc.seen);
  }

  lemma SaveShows(w: World, t: nat, w': World)
    requires Owning(w) && Replaying(w) && Reporting(w) && TaskEnabled(w, t, Save) && w' == SaveTxn(w, t)
    ensures Reporting(w')
  {
    OwnTask(w, t);
    var th := w.threads[t];
    var i, h, r := th.id, th.pc.h, Ref(th.id, CurrentOp(th).JournalKey());
    assert Owns(th, i) && Showing(th, w.store.steps, w.watch, w.late);
    NobodyElse(w, t, i);
    SavedStatusShows(th, w.store.steps, WatchOf(w, i), i in w.late);
    ThreadsKept(w, w', t, i);
    if Clean(th.prog) { CleanShowsWhatWasSet(w.defs, w.store.steps, w.log.writtenAt, i, th.prog, h); }
    SavedEntryShows(w.defs, w.store.steps, w.log.writtenAt, th);
    MessagesKept(w, w'.store.steps, w'.store.meta, i);
  }

  lemma SavedEntryShows(defs: map<string, Definition>, j: Steps, wa: map<Ref, History>, th: Thread)
    requires EntriesShow(defs, j, wa) && th.Worker? && th.pc.Saving? && TopLevel(th.id) && th.id.wf in defs
    requires th.prog == BodyOf(defs[th.id.wf], j, th.id) && Faithful(j, th.id, th.prog, th.pc.h)
    requires PcOk(j, th.id, CurrentOp(th), th.pc)
    requires Clean(th.prog) && th.pc.data.Completed? && th.pc.data.status.Some? ==>
      th.pc.data.status == Shown(th.prog, th.pc.h).CurrentStatus()
    ensures
      var r := Ref(th.id, CurrentOp(th).JournalKey());
      EntriesShow(defs, j[r := th.pc.data], wa[r := th.pc.h])
  {
    var i, h, r := th.id, th.pc.h, Ref(th.id, CurrentOp(th).JournalKey());
    var j', wa' := j[r := th.pc.data], wa[r := h];
    forall q | HasStatus(j', q) && q.id.wf in defs && Clean(BodyOf(defs[q.id.wf], j', q.id))
      ensures q in wa' && StatusAt(defs, j', q, wa'[q], j'[q].status)
    {
      assert Grows(q.id, j, j');
      BodyGrows(defs[q.id.wf], j, j', q.id);
      if q != r { assert HasStatus(j, q); }
      FaithfulGrows(j, j', q.id, BodyOf(defs[q.id.wf], j, q.id), wa'[q]);
    }
  }

  lemma WriteShows(w: World, t: nat, a: TaskAction, w': World)
    requires Owning(w) && Replaying(w) && Reporting(w) && TaskEnabled(w, t, a) && w' == TaskNext(w, t, a)
    requires a.SaveSuspended? || a.WriteOutput?
    ensures Reporting(w')
  {
    OwnTask(w, t);
    var i := w.threads[t].id;
    assert Owns(w.threads[t], i) && Showing(w.threads[t], w.store.steps, w.watch, w.late);
    NobodyElse(w, t, i);
    OwnWriteGrows(w, t, a, w');
    ShowsGrows(w.store.steps, w'.store.steps, i, w.threads[t].prog, w.threads[t].pc.h);
    ThreadsKept(w, w', t, i);
    EntriesKept(w.defs, w.store.steps, w'.store.steps, w.log.writtenAt, i);
    MessagesKept(w, w'.store.steps, w'.store.meta, i);
  }

  lemma OwnWriteGrows(w: World, t: nat, a: TaskAction, w': World)
    requires TaskEnabled(w, t, a) && w' == TaskNext(w, t, a) && (a.SaveSuspended? || a.WriteOutput?)
    requires PcOk(w.store.steps, w.threads[t].id, CurrentOp(w.threads[t]), w.threads[t].pc)
    ensures var i := w.threads[t].id;
            && Grows(i, w.store.steps, w'.store.steps) && OnlyStepsOf(i, w.store.steps, w'.store.steps)
            && forall r: Ref :: r.id == i && HasStatus(w'.store.steps, r) ==>
                 r in w.store.steps && w.store.steps[r] == w'.store.steps[r]
  {
    var th := w.threads[t];
    if a.SaveSuspended? {
      assert w'.store.steps == w.store.steps[Ref(th.id, User(CurrentOp(th).key)) := Suspended];
    } else {
      assert w'.store.steps == w.store.steps[Ref(th.id, Output) := Completed(CurrentOp(th).out, None)];
    }
  }

  lemma ResultShows(w: World, t: nat, w': World)
    requires Owning(w) && Replaying(w) && Reporting(w) && TaskEnabled(w, t, WriteResult) && w' == ResultTxn(w, t)
    ensures Reporting(w')
  {
  }

  lemma ChildShows(w: World, t: nat, a: TaskAction, w': World)
    requires Owning(w) && Replaying(w) && Reporting(w) && TaskEnabled(w, t, a) && (a.ChildStep? || a.ChildMeta?)
    requires w' == TaskNext(w, t, a)
    ensures Reporting(w')
  {
    var c := if a.ChildStep? then a.ref.id else a.child;
    ChildKeepsThreads(w, c, w');
    EntriesKept(w.defs, w.store.steps, w'.store.steps, w.log.writtenAt, c);
    MessagesKept(w, w'.store.steps, w'.store.meta, c);
  }

  lemma ChildKeepsThreads(w: World, c: Id, w': World)
    requires Owning(w) && Replaying(w) && Reporting(w) && !TopLevel(c) && OnlyStepsOf(c, w.store.steps, w'.store.steps)
    requires w'.threads == w.threads && w'.watch == w.watch && w'.late == w.late
    ensures ThreadsShow(w'.threads, w'.store.steps, w'.watch, w'.late)
  {
    forall u | u in w.threads && w.threads[u].Worker?
      ensures Showing(w.threads[u], w'.store.steps, w'.watch, w'.late)
    {
      var th := w.threads[u];
      assert Owns(th, th.id) && TopLevel(th.id) && TaskOk(th, w.defs, w.store.steps);
      ShowsGrows(w.store.steps, w'.store.steps, th.id, th.prog, th.pc.h);
    }
  }

  lemma LeavingShows(w: World, t: nat, a: TaskAction, w': World)
    requires Reporting(w) && TaskEnabled(w, t, a) && (a.Announce? || a.Panic?) && w' == TaskNext(w, t, a)
    ensures Reporting(w')
  {
  }

  lemma TaskKeepsReporting(w: World, t: nat, a: TaskAction)
    requires Owning(w) && Replaying(w) && Reporting(w) && TaskEnabled(w, t, a)
    ensures Reporting(TaskNext(w, t, a))
  {
    var w' := TaskNext(w, t, a);
    match a
    case Save => SaveShows(w, t, w');
    case SaveSuspended => WriteShows(w, t, a, w');
    case WriteOutput => WriteShows(w, t, a, w');
    case WriteResult => ResultShows(w, t, w');
    case ChildStep(_, _) => ChildShows(w, t, a, w');
    case ChildMeta(_, _) => ChildShows(w, t, a, w');
    case Announce => LeavingShows(w, t, a, w');
    case Panic => LeavingShows(w, t, a, w');
    case Perform => PerformStepShows(w, t, w');
    case ReadInput => ReadInputShows(w, t, w');
    case _ => ComingBackShows(w, t, a, w');
  }

  // ---- Steps of callers, poller and engine -----------------------------------------------------

  lemma UnownedHasNoRun(w: World, i: Id)
    requires !Owned(w, i)
    ensures forall u :: u in w.threads && (w.threads[u].Worker? || w.threads[u].Starting?) ==> w.threads[u].id != i
  {
  }

  /** An instance gets an owner that has not started yet; its journal gains no status. */
  lemma AcquireShows(w: World, w': World, t: nat, i: Id)
    requires Owning(w) && Replaying(w) && Reporting(w) && TopLevel(i) && !Owned(w, i)
    requires w'.defs == w.defs && w'.watch == w.watch
    requires OthersKept(w.threads, w'.threads, t)
    requires t in w'.threads && !w'.threads[t].Worker? && !w'.threads[t].Starting? && !w'.threads[t].Announcing?
    requires w'.store.meta == w.store.meta[i := Metadata(Running, None)]
    requires OnlyStepsOf(i, w.store.steps, w'.store.steps)
    requires Grows(i, w.store.steps, w'.store.steps) || i !in w.log.used
    requires forall r: Ref :: r.id == i && HasStatus(w'.store.steps, r) ==>
      r in w.store.steps && w.store.steps[r] == w'.store.steps[r]
    requires w'.log.writtenAt == w.log.writtenAt && w'.log.final == w.log.final && w'.late == w.late
    requires w'.tainted == w.tainted
    ensures Reporting(w')
  {
    UnownedHasNoRun(w, i);
    ThreadsKept(w, w', t, i);
    EntriesKept(w.defs, w.store.steps, w'.store.steps, w.log.writtenAt, i);
    MessagesKept(w, w'.store.steps, w'.store.meta, i);
  }

  lemma ClaimShows(w: World, w': World, t: nat, i: Id, key: string, v: Value)
    requires Owning(w) && Replaying(w) && Reporting(w) && ClaimOutcome(w.store, i, key) == Claimed && w'.defs == w.defs
    requires w'.watch == w.watch
    requires OthersKept(w.threads, w'.threads, t)
    requires t in w'.threads && !w'.threads[t].Worker? && !w'.threads[t].Starting? && !w'.threads[t].Announcing?
    requires w'.store == ClaimTxn(w.store, i, key, v)
    requires w'.log.writtenAt == w.log.writtenAt && w'.log.final == w.log.final && w'.late == w.late
    requires w'.tainted == w.tainted
    ensures Reporting(w')
  {
    UnownedWhenSuspended(w, i);
    AcquireShows(w, w', t, i);
  }

  lemma SpawnShows(w: World, w': World, t: nat, i: Id)
    requires Owning(w) && Reporting(w) && SameStores(w, w') && w'.late == w.late - {i}
    requires t in w'.threads && w'.threads[t] == Starting(i) && w'.watch == w.watch[i := Started]
    requires forall u :: u in w'.threads && u != t ==>
      w'.threads[u].Poller? || (u in w.threads && w'.threads[u] == w.threads[u])
    requires NoOtherRun(w'.threads, t, i)
    ensures Reporting(w')
  {
  }

  lemma LaunchShows(w: World, t: nat, a: ApiAction, w': World)
    requires Owning(w) && Replaying(w) && Reporting(w) && ApiEnabled(w, t, a) && (a.Invoke? || a.Resume?)
    requires w' == ApiNext(w, t, a)
    ensures Reporting(w')
  {
    if a.Invoke? { InvokeShows(w, t, a, w'); } else { ResumeShows(w, t, a, w'); }
  }

  lemma InvokeShows(w: World, t: nat, a: ApiAction, w': World)
    requires Owning(w) && Replaying(w) && Reporting(w) && ApiEnabled(w, t, a) && a.Invoke? && w' == ApiNext(w, t, a)
    ensures Reporting(w')
  {
    AcquireShows(w, w', t, a.id);
  }

  lemma ResumeShows(w: World, t: nat, a: ApiAction, w': World)
    requires Owning(w) && Replaying(w) && Reporting(w) && ApiEnabled(w, t, a) && a.Resume? && w' == ApiNext(w, t, a)
    ensures Reporting(w')
  {
    AcquireShows(w, w', t, a.id);
  }

  lemma ApiKeepsReporting(w: World, t: nat, a: ApiAction)
    requires Owning(w) && Replaying(w) && Reporting(w) && ApiEnabled(w, t, a)
    ensures Reporting(ApiNext(w, t, a))
  {
    var w' := ApiNext(w, t, a);
    match a
    case Invoke(id, _) => LaunchShows(w, t, a, w');
    case Resume(id) => LaunchShows(w, t, a, w');
    case Signal(id, key, v) => if ClaimOutcome(w.store, id, key) == Claimed { ClaimShows(w, w', t, id, key, v); }
    case _ => HandShows(w, t, a, w');
  }

  lemma HandShows(w: World, t: nat, a: ApiAction, w': World)
    requires Owning(w) && Replaying(w) && Reporting(w) && ApiEnabled(w, t, a) && (a.DropClaim? || a.Spawn?)
    requires w' == ApiNext(w, t, a)
    ensures Reporting(w')
  {
    var i := w.threads[t].id;
    if a.DropClaim? {
      ThreadsKept(w, w', t, i);
      StoresKept(w, w');
    } else {
      assert Owns(w.threads[t], i);
      NobodyElse(w, t, i);
      SpawnShows(w, w', t, i);
    }
  }

  lemma PollLog(w: World, t: nat, a: PollAction, w': World)
    requires PollEnabled(w, t, a) && w' == PollNext(w, t, a)
    ensures !a.PollSpawn? ==> w'.watch == w.watch && t in w'.threads && w'.threads[t].Poller? && w'.late == w.late
    ensures a.PollSpawn? ==>
      var i := w.threads[t].batch[0].row.id;
      if i.wf in w.defs then
        w'.watch == w.watch[i := Started] && w'.late == w.late - {i} && w'.threads[t].Poller? &&
        w'.threads == w.threads[t := w'.threads[t]][a.t2 := Starting(i)]
      else
        w'.watch == w.watch && OthersKept(w.threads, w'.threads, t) && w'.threads[t].Poller? && w'.late == w.late
  {
  }

  lemma PollKeepsReporting(w: World, t: nat, a: PollAction)
    requires Owning(w) && Replaying(w) && Reporting(w) && PollEnabled(w, t, a)
    ensures Reporting(PollNext(w, t, a))
  {
    var w' := PollNext(w, t, a);
    PollFrame(w, t, a, w');
    PollLog(w, t, a, w');
    if a.PollClaim? && w'.store != w.store {
      var row := w.threads[t].batch[0].row;
      ClaimShows(w, w', t, row.id, row.key, UNIT);
    } else if a.PollSpawn? && w.threads[t].batch[0].row.id.wf in w.defs {
      var i := w.threads[t].batch[0].row.id;
      assert Owns(w.threads[t], i);
      NobodyElse(w, t, i);
      SpawnShows(w, w', a.t2, i);
    } else {
      ThreadsKept(w, w', t, Id("", []));
      StoresKept(w, w');
    }
  }

  lemma CleanupShows(w: World, id: Id)
    requires Owning(w) && Replaying(w) && Reporting(w) && IsTerminal(w.store.meta, id)
    ensures Reporting(CleanupTxn(w, id))
  {
    var w', j := CleanupTxn(w, id), w.store.steps;
    var j' := w'.store.steps;
    forall r | HasStatus(j', r) && r.id.wf in w.defs && Clean(BodyOf(w.defs[r.id.wf], j', r.id))
      ensures r in w.log.writtenAt && StatusAt(w.defs, j', r, w.log.writtenAt[r], j'[r].status)
    {
      assert HasStatus(j, r) && Grows(r.id, j, j');
      BodyGrows(w.defs[r.id.wf], j, j', r.id);
      FaithfulGrows(j, j', r.id, BodyOf(w.defs[r.id.wf], j, r.id), w.log.writtenAt[r]);
    }
    forall k | k in w'.log.final
      ensures BodyOf(w.defs[k.wf], j', k) == BodyOf(w.defs[k.wf], j, k)
      ensures var wf := BodyOf(w.defs[k.wf], j, k); Shows(j', k, wf, w.log.final[k]) == Shows(j, k, wf, w.log.final[k])
    {
      assert Returned(w.defs, j, k, w.log.final[k]);
      BodyGrows(w.defs[k.wf], j, j', k);
      ShowsGrows(j, j', k, BodyOf(w.defs[k.wf], j, k), w.log.final[k]);
    }
    forall u | u in w.threads && w.threads[u].Worker? ensures Showing(w.threads[u], j', w.watch, w.late) {
      var th := w.threads[u];
      assert Owns(th, th.id) && TopLevel(th.id) && IsRunning(w.store.meta, th.id) && TaskOk(th, w.defs, j);
      if Under(th.id, id) { UnderTopLevel(th.id, id); }
      ShowsGrows(j, j', th.id, th.prog, th.pc.h);
    }
  }

  lemma EngineKeepsReporting(w: World, a: EngineAction)
    requires Owning(w) && Replaying(w) && Reporting(w) && EngineEnabled(w, a)
    ensures Reporting(EngineNext(w, a))
  {
    match a
    case Cleanup(id) => CleanupShows(w, id);
    case RecoverOne(t, t2, id) =>
      var w' := EngineNext(w, a);
      assert Owns(w.threads[t], id);
      MessagesKept(w, w'.store.steps, w'.store.meta, id);
    case _ => StoresKept(w, EngineNext(w, a));
  }

  /** An instance is tainted exactly if its last run wrote its result while it showed an older run's late status. */
  lemma TaintIsExact(w: World, a: Action, i: Id)
    requires Enabled(w, a)
    ensures
      i in Next(w, a).tainted <==>
        if a.Task? && a.step.WriteResult? && w.threads[a.t].id == i then i in w.late else i in w.tainted
  {
    match a
    case Task(t, x) => TaskTaints(w, t, x, TaskNext(w, t, x), i);
    case Poll(t, x) => assert PollNext(w, t, x).tainted == w.tainted;
    case _ =>
  }

  lemma TaskTaints(w: World, t: nat, a: TaskAction, w': World, i: Id)
    requires TaskEnabled(w, t, a) && w' == TaskNext(w, t, a)
    ensures i in w'.tainted <==> if a.WriteResult? && w.threads[t].id == i then i in w.late else i in w.tainted
  {
  }

  lemma ReportingStep(w: World, a: Action)
    requires Owning(w) && Replaying(w) && Reporting(w) && Enabled(w, a)
    ensures Reporting(Next(w, a))
  {
    match a
    case Api(t, x) => ApiKeepsReporting(w, t, x);
    case Task(t, x) => TaskKeepsReporting(w, t, x);
    case Poll(t, x) => PollKeepsReporting(w, t, x);
    case Engine(x) => EngineKeepsReporting(w, x);
  }
}
