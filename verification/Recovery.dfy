/** Crash recovery: `start` re-spawns every Running instance exactly once, and nothing else. */
module CrashRecovery {
  import opened Options
  import opened Storage
  import opened Workflows
  import opened Protocol
  import opened Ownership
  import opened Durability

  predicate Recovers(a: Action, i: Id) { a.Engine? && a.event.RecoverOne? && a.event.id == i }

  function Recoveries(run: seq<Action>, i: Id): nat {
    if |run| == 0 then 0
    else Recoveries(run[..|run| - 1], i) + (if Recovers(run[|run| - 1], i) then 1 else 0)
  }

  predicate Restarts(a: Action) { a.Engine? && (a.event.Crash? || a.event.Start?) }

  /** `n` re-spawns of `i` so far: with the ones still to do they make up what was recoverable. */
  ghost predicate Underway(w: World, t: nat, i: Id, n: nat, due: bool) {
    && (forall u :: u in w.threads && w.threads[u].Recovery? ==> u == t)
    && (if t in w.threads && w.threads[t].Recovery?
        then n + Indicator(i in w.threads[t].todo) == Indicator(due)
        else n == Indicator(due))
  }

  lemma TaskUnderway(w: World, u: nat, x: TaskAction, w': World, t: nat)
    requires TaskEnabled(w, u, x) && w' == TaskNext(w, u, x)
    ensures forall v :: (v in w.threads && w.threads[v].Recovery?) <==> (v in w'.threads && w'.threads[v].Recovery?)
    ensures t in w.threads && w.threads[t].Recovery? ==> w'.threads[t] == w.threads[t]
  {
  }

  lemma PollUnderway(w: World, u: nat, x: PollAction, w': World, t: nat)
    requires PollEnabled(w, u, x) && w' == PollNext(w, u, x)
    ensures forall v :: (v in w.threads && w.threads[v].Recovery?) <==> (v in w'.threads && w'.threads[v].Recovery?)
    ensures t in w.threads && w.threads[t].Recovery? ==> w'.threads[t] == w.threads[t]
  {
  }

  lemma ApiUnderway(w: World, u: nat, x: ApiAction, w': World, t: nat)
    requires ApiEnabled(w, u, x) && w' == ApiNext(w, u, x)
    ensures forall v :: (v in w.threads && w.threads[v].Recovery?) <==> (v in w'.threads && w'.threads[v].Recovery?)
    ensures t in w.threads && w.threads[t].Recovery? ==> w'.threads[t] == w.threads[t]
  {
  }

  lemma UnderwayStep(w: World, a: Action, t: nat, i: Id, n: nat, due: bool)
    requires Underway(w, t, i, n, due) && Enabled(w, a) && !Restarts(a)
    ensures Underway(Next(w, a), t, i, n + Indicator(Recovers(a, i)), due)
  {
    match a
    case Api(u, x) => ApiUnderway(w, u, x, ApiNext(w, u, x), t);
    case Task(u, x) => TaskUnderway(w, u, x, TaskNext(w, u, x), t);
    case Poll(u, x) => PollUnderway(w, u, x, PollNext(w, u, x), t);
    case _ =>
  }

  lemma {:induction false} UnderwayAlong(w: World, run: seq<Action>, t: nat, i: Id, due: bool)
    requires Underway(w, t, i, 0, due) && After(w, run).Some? && forall a :: a in run ==> !Restarts(a)
    ensures Underway(After(w, run).value, t, i, Recoveries(run, i), due)
    decreases |run|
  {
    if |run| > 0 {
      var before := run[..|run| - 1];
      UnderwayAlong(w, before, t, i, due);
      UnderwayStep(After(w, before).value, run[|run| - 1], t, i, Recoveries(before, i), due);
    }
  }

  /**
   From any state in which the engine is down, `start` re-spawns instance `i` once if it is a
   Running instance of a registered workflow and never otherwise, however its tasks interleave
   with the rest of the recovery. While the recovery lasts it has re-spawned all but what is left.
   */
  lemma RecoveryIsExact(w: World, p: nat, t: nat, run: seq<Action>, i: Id)
    requires EngineEnabled(w, Start(p, t, true))
    requires
      var up := EngineNext(w, Start(p, t, true));
      After(up, run).Some? && forall a :: a in run ==> !Restarts(a)
    ensures
      var end := After(EngineNext(w, Start(p, t, true)), run).value;
      Recoveries(run, i) +
      (if t in end.threads && end.threads[t].Recovery? then Indicator(i in end.threads[t].todo) else 0)
      == Indicator(TopLevel(i) && IsRunning(w.store.meta, i) && i.wf in w.defs)
  {
    UnderwayAlong(EngineNext(w, Start(p, t, true)), run, t, i, i in Recoverable(w));
  }

  /**
   A crash loses no work: whatever thread is about to run, or to spawn a run of, an instance when
   the crash comes, the next `start` finds the instance.
   */
  lemma InterruptedIsRecoverable(defs: map<string, Definition>, w: World, t: nat, i: Id, exit: bool)
    requires Reachable(defs, w) && t in w.threads && Owns(w.threads[t], i) && i.wf in w.defs
    ensures i in Recoverable(Next(w, Engine(Crash(exit))))
  {
    InvReachable(defs, w);
    assert TopLevel(i) && IsRunning(w.store.meta, i);
    assert Next(w, Engine(Crash(exit))).store.meta == w.store.meta;
  }
}
