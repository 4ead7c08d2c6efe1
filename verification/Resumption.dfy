/** When running a terminal instance again can execute something, and a schedule in which it does. */
module Resumption {
  import opened Options
  import opened Storage
  import opened Workflows
  import opened Accounts
  import opened Protocol
  import opened Ownership
  import opened Replay
  import opened Settled

  /** Thread `t` is a task of `i` that runs a closure or a fan-out, journals, or suspends. */
  ghost predicate ExecutesIn(w: World, t: nat, i: Id) {
    IsWorker(w, t) && w.threads[t].id == i && AtWork(w.threads[t].pc)
  }

  /** This schedule, which does not delete `i`, brings thread `t` to where it executes something for `i`. */
  ghost predicate Leads(w: World, run: seq<Action>, t: nat, i: Id) {
    After(w, run).Some? && (forall a :: a in run ==> !DeletedBy(a, i)) && ExecutesIn(After(w, run).value, t, i)
  }

  ghost predicate MayExecute(w: World, i: Id) { exists run, t :: Leads(w, run, t, i) }

  // ---- Nothing open: nothing is executed -----------------------------------------------------

  lemma {:induction false} ClosedAlong(w: World, run: seq<Action>, i: Id)
    requires Owning(w) && Replaying(w) && Closed(w, i)
    requires After(w, run).Some? && forall a :: a in run ==> !DeletedBy(a, i)
    ensures
      var w' := After(w, run).value;
      Owning(w') && Replaying(w') && Closed(w', i) && SameFeeds(w.store.steps, w'.store.steps, i)
    decreases |run|
  {
    if |run| > 0 {
      var before := run[..|run| - 1];
      ClosedAlong(w, before, i);
      var v, a := After(w, before).value, run[|run| - 1];
      OwnershipStep(v, a);
      ReplayStep(v, a);
      ClosedStep(v, a, i);
    }
  }

  lemma {:induction false} SettledAlong(w: World, run: seq<Action>, i: Id)
    requires Owning(w) && Replaying(w) && IsSettled(w, i)
    requires After(w, run).Some? && forall a :: a in run ==> !DeletedBy(a, i)
    ensures var w' := After(w, run).value; Owning(w') && Replaying(w') && IsSettled(w', i) && SameJournal(w, w', i)
    decreases |run|
  {
    if |run| > 0 {
      var before := run[..|run| - 1];
      SettledAlong(w, before, i);
      var v, a := After(w, before).value, run[|run| - 1];
      OwnershipStep(v, a);
      ReplayStep(v, a);
      SettledStep(v, a, i);
    }
  }

  lemma TerminalIsClosed(w: World, i: Id)
    requires Owning(w) && TopLevel(i) && IsTerminal(w.store.meta, i) && i.wf in w.defs
    requires !Opens(w.store.steps, i, BodyOf(w.defs[i.wf], w.store.steps, i))
    ensures Closed(w, i)
  {
    forall t | IsWorker(w, t) ensures w.threads[t].id != i { assert Owns(w.threads[t], w.threads[t].id); }
  }

  // ---- Something open: a resume comes to it --------------------------------------------------

  lemma {:induction false} FreshThread(used: set<nat>) returns (t: nat)
    ensures forall u :: u in used ==> u < t
  {
    t := 0;
    if used != {} {
      var u :| u in used;
      var s := FreshThread(used - {u});
      t := s + u + 1;
      assert forall v :: v in used ==> v == u || v in used - {u};
    }
  }

  lemma OneMore(w: World, run: seq<Action>, a: Action)
    requires After(w, run).Some? && Enabled(After(w, run).value, a)
    ensures After(w, run + [a]) == Some(Next(After(w, run).value, a))
  {
    assert (run + [a])[..|run|] == run;
  }

  ghost function OnlyPerforms(t: nat, n: nat): (run: seq<Action>)
    ensures |run| == n && forall a :: a in run ==> a == Task(t, TaskAction.Perform)
  {
    seq(n, _ => Task(t, TaskAction.Perform))
  }

  /** Feeding takes a task along the history that the journal determines. */
  lemma {:induction false} FedAlong(w: World, t: nat, i: Id, wf: Workflow, h: History)
    requires t in w.threads && w.threads[t] == Worker(i, wf, At([])) && Consistent(w.store.steps, i, wf, h)
    ensures
      var end := After(w, OnlyPerforms(t, |h|));
      end.Some? && end.value.store == w.store && t in end.value.threads && end.value.threads[t] == Worker(i, wf, At(h))
    decreases |h|
  {
    if |h| > 0 {
      var n := |h| - 1;
      ConsistentPrefix(w.store.steps, i, wf, h, n);
      FedAlong(w, t, i, wf, h[..n]);
      var v := After(w, OnlyPerforms(t, n)).value;
      assert Fed(w.store.steps, i, wf(h[..n])) == Some(h[n]);
      PerformFeeds(w.store.steps, v.now, i, h[..n], wf(h[..n]));
      assert h[..n] + [h[n]] == h;
      OneMore(w, OnlyPerforms(t, n), Task(t, TaskAction.Perform));
      assert OnlyPerforms(t, n) + [Task(t, TaskAction.Perform)] == OnlyPerforms(t, |h|);
    } else {
      assert h == [];
      assert OnlyPerforms(t, 0) == [];
    }
  }

  /** A resume, the spawn of its task, and the read of the input. */
  function Restart(t: nat, i: Id): seq<Action> {
    [Api(t, Resume(i)), Api(t, Spawn), Task(t, ReadInput)]
  }

  lemma ResumeLaunches(w: World, t: nat, i: Id, w': World)
    requires ApiEnabled(w, t, Resume(i)) && w' == ApiNext(w, t, Resume(i))
    ensures t in w'.threads && w'.threads[t] == Launch(i) && w'.store.steps == w.store.steps && w'.defs == w.defs
  {
  }

  lemma SpawnStarts(w: World, t: nat, i: Id, w': World)
    requires t in w.threads && w.threads[t] == Launch(i) && w' == ApiNext(w, t, Spawn)
    ensures t in w'.threads && w'.threads[t] == Starting(i) && w'.store.steps == w.store.steps && w'.defs == w.defs
  {
  }

  lemma Restarts(w: World, t: nat, i: Id)
    requires w.running && Quiet(w) && t !in w.threads && TopLevel(i) && i.wf in w.defs && !Owned(w, i)
    ensures
      var end := After(w, Restart(t, i));
      && end.Some? && end.value.store.steps == w.store.steps
      && t in end.value.threads && end.value.threads[t] == Worker(i, BodyOf(w.defs[i.wf], w.store.steps, i), At([]))
  {
    var w1 := ApiNext(w, t, Resume(i));
    ResumeLaunches(w, t, i, w1);
    var w2 := ApiNext(w1, t, Spawn);
    SpawnStarts(w1, t, i, w2);
    assert After(w, []) == Some(w);
    OneMore(w, [], Api(t, Resume(i)));
    OneMore(w, [Api(t, Resume(i))], Api(t, Spawn));
    assert [Api(t, Resume(i))] + [Api(t, Spawn)] + [Task(t, ReadInput)] == Restart(t, i);
    OneMore(w, [Api(t, Resume(i))] + [Api(t, Spawn)], Task(t, ReadInput));
  }

  lemma {:induction false} AfterBoth(w: World, run: seq<Action>, more: seq<Action>)
    requires After(w, run).Some?
    ensures After(w, run + more) == After(After(w, run).value, more)
    decreases |more|
  {
    if |more| == 0 {
      assert run + more == run;
    } else {
      var n := |more| - 1;
      AfterBoth(w, run, more[..n]);
      assert (run + more)[..|run + more| - 1] == run + more[..n];
    }
  }

  lemma OpenExecutes(w: World, t: nat, i: Id, wf: Workflow, h: History)
    requires t in w.threads && w.threads[t] == Worker(i, wf, At([])) && OpenAt(w.store.steps, i, wf, h)
    ensures Leads(w, OnlyPerforms(t, |h| + 1), t, i)
  {
    FedAlong(w, t, i, wf, h);
    var v := After(w, OnlyPerforms(t, |h|)).value;
    PerformFeeds(v.store.steps, v.now, i, h, wf(h));
    OneMore(w, OnlyPerforms(t, |h|), Task(t, TaskAction.Perform));
    assert OnlyPerforms(t, |h|) + [Task(t, TaskAction.Perform)] == OnlyPerforms(t, |h| + 1);
  }

  lemma OpenIsReached(w: World, i: Id)
    requires Owning(w) && w.running && Quiet(w) && TopLevel(i) && IsTerminal(w.store.meta, i) && i.wf in w.defs
    requires Opens(w.store.steps, i, BodyOf(w.defs[i.wf], w.store.steps, i))
    ensures MayExecute(w, i)
  {
    var wf := BodyOf(w.defs[i.wf], w.store.steps, i);
    var t := FreshThread(w.threads.Keys);
    assert t !in w.threads.Keys;
    var h :| OpenAt(w.store.steps, i, wf, h);
    Restarts(w, t, i);
    var v, more := After(w, Restart(t, i)).value, OnlyPerforms(t, |h| + 1);
    assert OpenAt(v.store.steps, i, wf, h);
    OpenExecutes(v, t, i, wf, h);
    AfterBoth(w, Restart(t, i), more);
    assert Leads(w, Restart(t, i) + more, t, i);
  }

  /**
   A terminal instance that is run again, in whatever way, can come to execute something if and only
   if its journal leaves something open for its workflow.
   */
  lemma ExecutesExactlyWhatIsOpen(w: World, i: Id)
    requires Owning(w) && Replaying(w) && w.running && Quiet(w)
    requires TopLevel(i) && IsTerminal(w.store.meta, i) && i.wf in w.defs
    ensures MayExecute(w, i) <==> Opens(w.store.steps, i, BodyOf(w.defs[i.wf], w.store.steps, i))
  {
    if Opens(w.store.steps, i, BodyOf(w.defs[i.wf], w.store.steps, i)) {
      OpenIsReached(w, i);
    } else {
      TerminalIsClosed(w, i);
      forall run, t | After(w, run).Some? && forall a :: a in run ==> !DeletedBy(a, i) ensures !Leads(w, run, t, i) {
        ClosedAlong(w, run, i);
      }
    }
  }
}
