/** Building blocks for concrete runs: an engine that has started, with one task of one instance. */
module Schedules {
  import opened Options
  import opened Storage
  import opened Workflows
  import opened Protocol
  import opened Replay

  lemma ReachNext(defs: map<string, Definition>, w: World, a: Action, w': World)
    requires Reachable(defs, w) && Enabled(w, a) && w' == Next(w, a)
    ensures Reachable(defs, w')
  {
    var run :| After(Initial(defs), run) == Some(w);
    assert (run + [a])[..|run|] == run;
    assert After(Initial(defs), run + [a]) == Some(w');
  }

  lemma ReachTask(defs: map<string, Definition>, w: World, t: nat, a: TaskAction, w': World)
    requires Reachable(defs, w) && TaskEnabled(w, t, a) && w' == TaskNext(w, t, a)
    ensures Reachable(defs, w')
  {
    ReachNext(defs, w, Task(t, a), w');
  }

  lemma ReachApi(defs: map<string, Definition>, w: World, t: nat, a: ApiAction, w': World)
    requires Reachable(defs, w) && ApiEnabled(w, t, a) && w' == ApiNext(w, t, a)
    ensures Reachable(defs, w')
  {
    ReachNext(defs, w, Api(t, a), w');
  }

  const RESTING := Poller([], Resting)

  /** A reachable state, spelled out. */
  ghost predicate State(w: World, defs: map<string, Definition>, ts: map<nat, Thread>, store: Store,
                        watch: map<Id, Watch>)
  {
    && Reachable(defs, w) && w.running && w.defs == defs
    && w.threads == ts && w.store == store && w.watch == watch
  }

  /** An engine that has started, with one task (thread 2) of instance `i`, and nothing else going on. */
  ghost predicate OneTask(w: World, defs: map<string, Definition>, i: Id, th: Thread, steps: Steps, shown: Watch) {
    State(w, defs, map[0 := RESTING, 2 := th], Store(steps, map[i := Metadata(Running, None)], map[]), map[i := shown])
  }

  lemma EngineUp(defs: map<string, Definition>) returns (w: World)
    ensures State(w, defs, map[0 := RESTING], EMPTY_STORE, map[]) && w.log.used == {} && w.now == 0 && w.serial == 0
  {
    var w0 := Initial(defs);
    assert After(w0, []) == Some(w0);
    var w1 := Next(w0, Engine(Start(0, 1, true)));
    assert Recoverable(w0) == {};
    assert w1.threads[1] == Recovery({});
    ReachNext(defs, w0, Engine(Start(0, 1, true)), w1);
    w := Next(w1, Engine(RecoverDone(1)));
    ReachNext(defs, w1, Engine(RecoverDone(1)), w);
    assert w.threads == map[0 := RESTING];
  }

  /** Start an engine and invoke a workflow without input. */
  lemma Launched(defs: map<string, Definition>, i: Id) returns (w: World)
    requires TopLevel(i) && i.wf in defs && defs[i.wf].NoInput?
    ensures OneTask(w, defs, i, Worker(i, defs[i.wf].body, At([])), map[], Started)
    ensures w.now == 0 && w.serial == 0 && w.log.used == {i}
  {
    var w0 := EngineUp(defs);
    var w1 := ApiNext(w0, 2, Invoke(i, None));
    ReachApi(defs, w0, 2, Invoke(i, None), w1);
    w := Spawned(defs, i, w1, map[]);
  }

  lemma TaskMoves(defs: map<string, Definition>, i: Id, w: World, a: TaskAction, th: Thread, steps: Steps, shown: Watch)
    requires Reachable(defs, w) && w.running && w.defs == defs && TaskEnabled(w, 2, a)
    requires
      var w' := TaskNext(w, 2, a);
      && w'.running && w'.defs == defs && w'.threads == map[0 := RESTING, 2 := th]
      && w'.store == Store(steps, map[i := Metadata(Running, None)], map[]) && w'.watch == map[i := shown]
    ensures OneTask(TaskNext(w, 2, a), defs, i, th, steps, shown)
  {
    ReachTask(defs, w, 2, a, TaskNext(w, 2, a));
  }

  lemma StepEnters(defs: map<string, Definition>, i: Id, w: World, prog: Workflow, h: History, steps: Steps,
                   shown: Watch)
    returns (w': World)
    requires OneTask(w, defs, i, Worker(i, prog, At(h)), steps, shown)
    requires prog(h).Step? && LegalOp(prog(h)) && Fed(steps, i, prog(h)).None?
    ensures OneTask(w', defs, i, Worker(i, prog, InClosure(h, 0)), steps, shown)
  {
    w' := TaskNext(w, 2, Perform);
    PerformFeeds(steps, w.now, i, h, prog(h));
    assert w'.threads == map[0 := RESTING, 2 := Worker(i, prog, InClosure(h, 0))];
    TaskMoves(defs, i, w, Perform, Worker(i, prog, InClosure(h, 0)), steps, shown);
  }

  lemma ClosureSaves(defs: map<string, Definition>, i: Id, w: World, prog: Workflow, h: History, steps: Steps,
                     shown: Watch, o: Outcome, d: StepData, seen: Seen)
    returns (w': World)
    requires OneTask(w, defs, i, Worker(i, prog, InClosure(h, 0)), steps, shown)
    requires prog(h).Step? && prog(h).maxRetries == 0 && (o.Okay? ==> o.value.ty == prog(h).ty)
    requires ClosurePc(h, 0, 0, shown.CurrentStatus(), o) == Saving(h, d, seen)
    ensures OneTask(w', defs, i, Worker(i, prog, At(h + [seen])), steps[Ref(i, User(prog(h).key)) := d], shown)
  {
    var w1 := TaskNext(w, 2, ClosureReturn(o));
    assert w1.threads == map[0 := RESTING, 2 := Worker(i, prog, Saving(h, d, seen))];
    TaskMoves(defs, i, w, ClosureReturn(o), Worker(i, prog, Saving(h, d, seen)), steps, shown);
    w' := TaskNext(w1, 2, Save);
    assert w'.threads == map[0 := RESTING, 2 := Worker(i, prog, At(h + [seen]))];
    TaskMoves(defs, i, w1, Save, Worker(i, prog, At(h + [seen])), steps[Ref(i, User(prog(h).key)) := d], shown);
  }

  /** A step whose entry is open runs to its end, and is journaled with the status that is shown. */
  lemma StepSucceeds(defs: map<string, Definition>, i: Id, w: World, prog: Workflow, h: History, steps: Steps,
                     shown: Watch, v: Value)
    returns (w': World)
    requires OneTask(w, defs, i, Worker(i, prog, At(h)), steps, shown)
    requires prog(h).Step? && LegalOp(prog(h)) && Fed(steps, i, prog(h)).None?
    requires prog(h).maxRetries == 0 && v.ty == prog(h).ty
    ensures
      OneTask(w', defs, i, Worker(i, prog, At(h + [Got(v)])),
        steps[Ref(i, User(prog(h).key)) := Completed(v, shown.CurrentStatus())], shown)
  {
    var w1 := StepEnters(defs, i, w, prog, h, steps, shown);
    w' := ClosureSaves(defs, i, w1, prog, h, steps, shown, Okay(v), Completed(v, shown.CurrentStatus()), Got(v));
  }

  lemma StepFails(defs: map<string, Definition>, i: Id, w: World, prog: Workflow, h: History, steps: Steps,
                  shown: Watch, e: string)
    returns (w': World)
    requires OneTask(w, defs, i, Worker(i, prog, At(h)), steps, shown)
    requires prog(h).Step? && LegalOp(prog(h)) && Fed(steps, i, prog(h)).None? && prog(h).maxRetries == 0
    ensures
      OneTask(w', defs, i, Worker(i, prog, At(h + [Caught(e)])), steps[Ref(i, User(prog(h).key)) := Failed(e)], shown)
  {
    var w1 := StepEnters(defs, i, w, prog, h, steps, shown);
    w' := ClosureSaves(defs, i, w1, prog, h, steps, shown, Permanent(e), Failed(e), Caught(e));
  }

  /** An operation that the journal answers, or that sets a status. */
  lemma OpIsFed(defs: map<string, Definition>, i: Id, w: World, prog: Workflow, h: History, steps: Steps,
                shown: Watch, seen: Seen, shown': Watch)
    returns (w': World)
    requires OneTask(w, defs, i, Worker(i, prog, At(h)), steps, shown) && Fed(steps, i, prog(h)) == Some(seen)
    requires PerformEffect(steps, w.now, i, h, prog(h)).shown == (if shown' == shown then None else Some(shown'))
    ensures OneTask(w', defs, i, Worker(i, prog, At(h + [seen])), steps, shown')
  {
    w' := TaskNext(w, 2, Perform);
    PerformFeeds(steps, w.now, i, h, prog(h));
    assert w'.threads == map[0 := RESTING, 2 := Worker(i, prog, At(h + [seen]))];
    TaskMoves(defs, i, w, Perform, Worker(i, prog, At(h + [seen])), steps, shown');
  }

  lemma OutputIsWritten(defs: map<string, Definition>, w: World, t: nat, h: History, out: Value) returns (w': World)
    requires Reachable(defs, w) && IsWorker(w, t) && w.threads[t].pc == At(h) && w.threads[t].prog(h) == Return(out)
    ensures
      var th := w.threads[t];
      && Reachable(defs, w') && w'.defs == w.defs && w'.running == w.running && w'.watch == w.watch
      && w'.threads == w.threads[t := th.(pc := Finishing(h, Success))]
      && w'.store == PutStep(w.store, Ref(th.id, Output), Completed(out, None)) && w'.log.final == w.log.final
  {
    var w1 := TaskNext(w, t, Perform);
    ReachTask(defs, w, t, Perform, w1);
    w' := TaskNext(w1, t, WriteOutput);
    ReachTask(defs, w1, t, WriteOutput, w');
  }

  lemma TaskReturns(defs: map<string, Definition>, w: World, t: nat, h: History, out: Value) returns (w': World)
    requires Reachable(defs, w) && IsWorker(w, t) && w.threads[t].pc == At(h) && w.threads[t].prog(h) == Return(out)
    ensures Reachable(defs, w') && w'.defs == w.defs && w'.running == w.running
    ensures
      var i := w.threads[t].id;
      && t in w'.threads && w'.threads[t].Announcing? && w'.threads == w.threads[t := w'.threads[t]]
      && w'.store.steps == w.store.steps[Ref(i, Output) := Completed(out, None)]
      && i in w'.store.meta && w'.store.meta[i].status == Finished(WatchOf(w, i).Message())
      && w'.log.final == w.log.final[i := h]
  {
    var w1 := OutputIsWritten(defs, w, t, h, out);
    w' := TaskNext(w1, t, WriteResult);
    ReachTask(defs, w1, t, WriteResult, w');
  }

  lemma TaskThrows(defs: map<string, Definition>, w: World, t: nat, h: History, e: string) returns (w': World)
    requires Reachable(defs, w) && IsWorker(w, t) && w.threads[t].pc == At(h) && w.threads[t].prog(h) == Throw(e)
    ensures Reachable(defs, w') && w'.defs == w.defs && w'.store.steps == w.store.steps
    ensures
      var i := w.threads[t].id;
      i in w'.store.meta && w'.store.meta[i].status == Errored(e)
  {
    var w1 := TaskNext(w, t, Perform);
    ReachTask(defs, w, t, Perform, w1);
    w' := TaskNext(w1, t, WriteResult);
    ReachTask(defs, w1, t, WriteResult, w');
  }

  /** The task is lost, and the instance resumed. */
  lemma LostAndResumed(defs: map<string, Definition>, i: Id, w: World, th: Thread, steps: Steps, shown: Watch)
    returns (w': World)
    requires OneTask(w, defs, i, th, steps, shown) && th.Worker? && TopLevel(i) && i.wf in defs && defs[i.wf].NoInput?
    ensures OneTask(w', defs, i, Worker(i, defs[i.wf].body, At([])), steps, Started)
  {
    var w1 := TaskNext(w, 2, Panic);
    ReachTask(defs, w, 2, Panic, w1);
    assert w1.threads == map[0 := RESTING];
    var w2 := ApiNext(w1, 2, Resume(i));
    ReachApi(defs, w1, 2, Resume(i), w2);
    w' := Spawned(defs, i, w2, steps);
  }

  /** From a launched instance to its task. */
  lemma Spawned(defs: map<string, Definition>, i: Id, w: World, steps: Steps) returns (w': World)
    requires Reachable(defs, w) && w.running && w.defs == defs && w.threads == map[0 := RESTING, 2 := Launch(i)]
    requires w.store == Store(steps, map[i := Metadata(Running, None)], map[]) && w.watch.Keys <= {i}
    requires i.wf in defs && defs[i.wf].NoInput?
    ensures OneTask(w', defs, i, Worker(i, defs[i.wf].body, At([])), steps, Started)
    ensures w'.now == w.now && w'.serial == w.serial && w'.log.used == w.log.used
  {
    var w1 := ApiNext(w, 2, Spawn);
    ReachApi(defs, w, 2, Spawn, w1);
    w' := TaskNext(w1, 2, ReadInput);
    ReachTask(defs, w1, 2, ReadInput, w');
    assert w'.threads == map[0 := RESTING, 2 := Worker(i, defs[i.wf].body, At([]))];
  }
}
