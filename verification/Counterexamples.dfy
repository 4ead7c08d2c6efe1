/** Runs that show why the main results need their conditions. */
module Counterexamples {
  import opened Options
  import opened Storage
  import opened Workflows
  import opened Protocol
  import opened Ownership
  import opened Replay
  import opened Settled
  import opened Status
  import opened Resumption
  import opened Durability
  import opened Schedules

  // ---- A workflow that swallows a step error ---------------------------------------------------

  /** Run one step; return unit whether or not it worked. */
  function Swallows(h: History): Op {
    if |h| == 0 then Step("s", "()", 0) else Return(UNIT)
  }

  const SWALLOWING: map<string, Definition> := map["w" := NoInput(Swallows)]

  /** The step fails, the workflow returns, and the instance is Completed. */
  lemma CompletedAnyway(i: Id) returns (w: World)
    requires TopLevel(i) && i.wf == "w"
    ensures Reachable(SWALLOWING, w) && w.defs == SWALLOWING && w.running
    ensures i in w.store.meta && w.store.meta[i].status.Finished?
    ensures w.store.steps == map[Ref(i, User("s")) := Failed("e"), Ref(i, Output) := Completed(UNIT, None)]
    ensures 2 in w.threads && w.threads[2].Announcing? && w.threads == map[0 := RESTING, 2 := w.threads[2]]
  {
    var w0 := Launched(SWALLOWING, i);
    var w1 := StepFails(SWALLOWING, i, w0, Swallows, [], map[], Started, "e");
    w := TaskReturns(SWALLOWING, w1, 2, [] + [Caught("e")], UNIT);
  }

  lemma NeverReturns(j: Steps, i: Id, h: History, out: Value)
    requires Fed(j, i, Swallows([])).None?
    ensures !Denotes(j, i, Swallows, h, out)
  {
    assert |h| > 0 ==> h[..0] == [];
  }

  /**
   Without the condition on errors replay does not preserve meaning: this instance is Completed,
   but its workflow, fed from the final journal, never returns.
   */
  lemma SwallowedErrorLosesMeaning(i: Id) returns (w: World)
    requires TopLevel(i) && i.wf == "w"
    ensures Reachable(SWALLOWING, w) && w.defs == SWALLOWING
    ensures i in w.store.meta && w.store.meta[i].status.Finished?
    ensures Lookup(w.store.steps, Ref(i, Output)) == Some(Completed(UNIT, None))
    ensures Denote(w.store.steps, i, BodyOf(w.defs["w"], w.store.steps, i)) == NotDone
  {
    w := CompletedAnyway(i);
    forall h, out ensures !Denotes(w.store.steps, i, Swallows, h, out) {
      NeverReturns(w.store.steps, i, h, out);
    }
  }

  lemma InClosureAgain(i: Id, w: World)
    requires 3 in w.threads && w.threads[3] == Worker(i, Swallows, At([]))
    requires Lookup(w.store.steps, Ref(i, User("s"))) == Some(Failed("e"))
    ensures TaskEnabled(w, 3, Perform)
    ensures
      var w' := TaskNext(w, 3, Perform);
      TaskEnabled(w', 3, ClosureReturn(Okay(UNIT))) && w'.threads[3].id == i
  {
    PerformFeeds(w.store.steps, w.now, i, [], Swallows([]));
  }

  /**
   And without it a completed instance that is resumed runs a step again: from this Completed state
   the schedule comes to where the closure of the step can return.
   */
  lemma SwallowedErrorRunsAgain(i: Id) returns (w: World, run: seq<Action>)
    requires TopLevel(i) && i.wf == "w"
    ensures Reachable(SWALLOWING, w) && i in w.store.meta && w.store.meta[i].status.Finished?
    ensures forall a :: a in run ==> !DeletedBy(a, i)
    ensures
      var end := After(w, run);
      end.Some? && TaskEnabled(end.value, 3, ClosureReturn(Okay(UNIT))) && end.value.threads[3].id == i
  {
    w := CompletedAnyway(i);
    Restarts(w, 3, i);
    InClosureAgain(i, After(w, Restart(3, i)).value);
    OneMore(w, Restart(3, i), Task(3, Perform));
    run := Restart(3, i) + [Task(3, Perform)];
  }

  // ---- A workflow that tries a failed step again ------------------------------------------------

  const AGAIN := Data("()", "again")

  /** Run one step, and when it fails run it once more; return something else then. */
  function Retries(h: History): Op {
    if |h| == 0 || (|h| == 1 && h[0].Caught?) then Step("s", "()", 0)
    else Return(if h[0].Caught? then AGAIN else UNIT)
  }

  const RETRYING: map<string, Definition> := map["w" := NoInput(Retries)]

  lemma SecondTryWorks(i: Id) returns (w: World)
    requires TopLevel(i) && i.wf == "w"
    ensures Reachable(RETRYING, w) && w.defs == RETRYING && w.running && Quiet(w)
    ensures i in w.store.meta && w.store.meta[i].status.Finished?
    ensures i in w.log.final && w.log.final[i] == [Caught("e"), Got(UNIT)]
    ensures Lookup(w.store.steps, Ref(i, User("s"))) == Some(Completed(UNIT, None))
    ensures Lookup(w.store.steps, Ref(i, Output)) == Some(Completed(AGAIN, None))
  {
    var w0 := Launched(RETRYING, i);
    var w1 := StepFails(RETRYING, i, w0, Retries, [], map[], Started, "e");
    assert [] + [Caught("e")] == [Caught("e")];
    var steps: Steps := map[Ref(i, User("s")) := Failed("e")];
    var w2 := StepSucceeds(RETRYING, i, w1, Retries, [Caught("e")], steps, Started, UNIT);
    w := TaskReturns(RETRYING, w2, 2, [Caught("e")] + [Got(UNIT)], AGAIN);
  }

  /** Where the second try has worked, the journal leads straight to the end. */
  lemma OneTryIsEnough(i: Id, j: Steps)
    requires Lookup(j, Ref(i, User("s"))) == Some(Completed(UNIT, None))
    ensures Denotes(j, i, Retries, [Got(UNIT)], UNIT)
  {
    assert [Got(UNIT)][..0] == [];
  }

  /**
   An undetermined error alone decides nothing when a key is used twice: the last run of this instance
   was given one, but the journal has been completed since, and running the instance again only replays.
   */
  lemma RetriedErrorOnlyReplays(i: Id) returns (w: World)
    requires TopLevel(i) && i.wf == "w"
    ensures Reachable(RETRYING, w) && i in w.store.meta && w.store.meta[i].status.Finished?
    ensures w.running && Quiet(w) && !EndedDetermined(w, i) && !MayExecute(w, i)
  {
    w := SecondTryWorks(i);
    var j, h := w.store.steps, w.log.final[i];
    assert h[..0] == [] && Fed(j, i, Retries(h[..0])) == Some(Got(UNIT));
    OneTryIsEnough(i, j);
    EndLeavesNothingOpen(j, i, Retries, [Got(UNIT)]);
    ResumeExecutesWhatIsOpen(RETRYING, w, i);
  }

  /**
   And then a journal that leaves nothing open need not lead to what the last run returned: this run remembers
   the error of its first try, and the journal does not.
   */
  lemma RetriedErrorChangesMeaning(i: Id) returns (w: World)
    requires TopLevel(i) && i.wf == "w"
    ensures Reachable(RETRYING, w) && i in w.store.meta && w.store.meta[i].status.Finished?
    ensures w.defs == RETRYING && !NoKeyRetried(Retries)
    ensures !Opens(w.store.steps, i, Retries) && Denote(w.store.steps, i, Retries) == Done(UNIT)
    ensures Lookup(w.store.steps, Ref(i, Output)) == Some(Completed(AGAIN, None)) && AGAIN != UNIT
  {
    w := SecondTryWorks(i);
    OneTryIsEnough(i, w.store.steps);
    EndLeavesNothingOpen(w.store.steps, i, Retries, [Got(UNIT)]);
    DenoteUnique(w.store.steps, i, Retries, [Got(UNIT)], UNIT);
    var h: History := [Caught("e")];
    assert h[..0] == [] && SameKey(Retries(h[..0]), Retries(h));
  }

  /** Run one step, and when it fails run it once more; but give up then all the same. */
  function Complains(h: History): Op {
    if |h| == 0 || (|h| == 1 && h[0].Caught?) then Step("s", "()", 0)
    else if h[0].Caught? then Throw("tried twice")
    else Return(UNIT)
  }

  const COMPLAINING: map<string, Definition> := map["w" := NoInput(Complains)]

  lemma ThrowsAfterSecondTry(i: Id) returns (w: World)
    requires TopLevel(i) && i.wf == "w"
    ensures Reachable(COMPLAINING, w) && w.defs == COMPLAINING
    ensures i in w.store.meta && w.store.meta[i].status == Errored("tried twice")
    ensures Lookup(w.store.steps, Ref(i, User("s"))) == Some(Completed(UNIT, None))
  {
    var w0 := Launched(COMPLAINING, i);
    var w1 := StepFails(COMPLAINING, i, w0, Complains, [], map[], Started, "e");
    assert [] + [Caught("e")] == [Caught("e")];
    var steps: Steps := map[Ref(i, User("s")) := Failed("e")];
    var w2 := StepSucceeds(COMPLAINING, i, w1, Complains, [Caught("e")], steps, Started, UNIT);
    w := TaskThrows(COMPLAINING, w2, 2, [Caught("e")] + [Got(UNIT)], "tried twice");
  }

  /**
   So it is with failures: this instance has failed and its journal leaves nothing open, but leads the workflow
   to a return.
   */
  lemma RetriedErrorIsForgotten(i: Id) returns (w: World)
    requires TopLevel(i) && i.wf == "w"
    ensures Reachable(COMPLAINING, w) && w.defs == COMPLAINING
    ensures i in w.store.meta && w.store.meta[i].status == Errored("tried twice")
    ensures !Opens(w.store.steps, i, Complains) && Denote(w.store.steps, i, Complains) == Done(UNIT)
    ensures forall e :: !FailsWith(w.store.steps, i, Complains, e)
  {
    w := ThrowsAfterSecondTry(i);
    var j := w.store.steps;
    assert [Got(UNIT)][..0] == [];
    assert Denotes(j, i, Complains, [Got(UNIT)], UNIT);
    EndLeavesNothingOpen(j, i, Complains, [Got(UNIT)]);
    DenoteUnique(j, i, Complains, [Got(UNIT)], UNIT);
    forall h | Consistent(j, i, Complains, h) ensures !Complains(h).Throw? {
      if Complains(h).Throw? { OneEnd(j, i, Complains, h, [Got(UNIT)]); }
    }
  }

  // ---- A late final status -----------------------------------------------------------------------

  /** Wait for a signal, then return; no status is ever set. */
  function Waiting(h: History): Op {
    if |h| == 0 then Suspend("k", "()") else Return(UNIT)
  }

  const WAITING: map<string, Definition> := map["w" := NoInput(Waiting)]

  lemma StepSuspends(i: Id, w: World) returns (w': World)
    requires OneTask(w, WAITING, i, Worker(i, Waiting, At([])), map[], Started)
    ensures
      OneTask(w', WAITING, i, Worker(i, Waiting, Finishing([], SuspendedAt("k"))),
        map[Ref(i, User("k")) := Suspended], Settled(Some("k")))
  {
    var w1 := TaskNext(w, 2, Perform);
    ReachTask(WAITING, w, 2, Perform, w1);
    assert w1.threads[2] == Worker(i, Waiting, Suspending([], None));
    w' := TaskNext(w1, 2, SaveSuspended);
    ReachTask(WAITING, w1, 2, SaveSuspended, w');
    assert w'.threads == map[0 := RESTING, 2 := Worker(i, Waiting, Finishing([], SuspendedAt("k")))];
  }

  lemma TaskSuspends(i: Id, w: World) returns (w': World)
    requires OneTask(w, WAITING, i, Worker(i, Waiting, At([])), map[], Started)
    ensures
      State(w', WAITING, map[0 := RESTING, 2 := Announcing(i, Settled(Some("k")))],
        Store(map[Ref(i, User("k")) := Suspended], map[i := Metadata(SuspendedOn("k"), None)], map[]),
        map[i := Settled(Some("k"))])
  {
    var w1 := StepSuspends(i, w);
    w' := TaskNext(w1, 2, WriteResult);
    ReachTask(WAITING, w1, 2, WriteResult, w');
    assert w'.threads == map[0 := RESTING, 2 := Announcing(i, Settled(Some("k")))];
  }

  /** A signal is delivered, and its run starts, before the old task has sent its last status. */
  lemma SignalledEarly(i: Id, w: World) returns (w': World)
    requires TopLevel(i) && i.wf == "w"
    requires
      State(w, WAITING, map[0 := RESTING, 2 := Announcing(i, Settled(Some("k")))],
        Store(map[Ref(i, User("k")) := Suspended], map[i := Metadata(SuspendedOn("k"), None)], map[]),
        map[i := Settled(Some("k"))])
    ensures
      State(w', WAITING, map[0 := RESTING, 2 := Announcing(i, Settled(Some("k"))), 3 := Worker(i, Waiting, At([]))],
        Store(map[Ref(i, User("k")) := Completed(UNIT, None)], map[i := Metadata(Running, None)], map[]),
        map[i := Started])
  {
    var w1 := Signalled(i, w);
    var w2 := ApiNext(w1, 3, Spawn);
    ReachApi(WAITING, w1, 3, Spawn, w2);
    w' := TaskNext(w2, 3, ReadInput);
    ReachTask(WAITING, w2, 3, ReadInput, w');
    assert w'.threads == map[0 := RESTING, 2 := Announcing(i, Settled(Some("k"))), 3 := Worker(i, Waiting, At([]))];
  }

  lemma Signalled(i: Id, w: World) returns (w': World)
    requires TopLevel(i)
    requires
      State(w, WAITING, map[0 := RESTING, 2 := Announcing(i, Settled(Some("k")))],
        Store(map[Ref(i, User("k")) := Suspended], map[i := Metadata(SuspendedOn("k"), None)], map[]),
        map[i := Settled(Some("k"))])
    ensures
      State(w', WAITING, map[0 := RESTING, 2 := Announcing(i, Settled(Some("k"))), 3 := Claimant(i)],
        Store(map[Ref(i, User("k")) := Completed(UNIT, None)], map[i := Metadata(Running, None)], map[]),
        map[i := Settled(Some("k"))])
  {
    w' := ApiNext(w, 3, Signal(i, "k", UNIT));
    ReachApi(WAITING, w, 3, Signal(i, "k", UNIT), w');
    assert w'.threads == map[0 := RESTING, 2 := Announcing(i, Settled(Some("k"))), 3 := Claimant(i)];
  }

  /**
   Without the condition on late statuses the Completed message can be another run's: this workflow
   never sets a status, but completes with the message of its own suspension.
   */
  lemma LateStatusReplacesMessage(i: Id) returns (w: World)
    requires TopLevel(i) && i.wf == "w"
    ensures Reachable(WAITING, w) && i in w.store.meta && w.store.meta[i].status == Finished(Some("k"))
    ensures forall h :: Shown(Waiting, h).Message() == None
  {
    var w0 := Launched(WAITING, i);
    var w1 := TaskSuspends(i, w0);
    var w2 := SignalledEarly(i, w1);
    var w3 := ReplaysSignal(i, w2);
    var w4 := TaskNext(w3, 2, Announce);
    ReachTask(WAITING, w3, 2, Announce, w4);
    w := TaskReturns(WAITING, w4, 3, [Got(UNIT)], UNIT);
    forall h ensures Shown(Waiting, h).Message() == None { NothingShown(h); }
  }

  lemma ReplaysSignal(i: Id, w: World) returns (w': World)
    requires
      State(w, WAITING, map[0 := RESTING, 2 := Announcing(i, Settled(Some("k"))), 3 := Worker(i, Waiting, At([]))],
        Store(map[Ref(i, User("k")) := Completed(UNIT, None)], map[i := Metadata(Running, None)], map[]),
        map[i := Started])
    ensures Reachable(WAITING, w') && w'.store == w.store
    ensures w'.threads == w.threads[3 := Worker(i, Waiting, At([Got(UNIT)]))]
  {
    w' := TaskNext(w, 3, Perform);
    ReachTask(WAITING, w, 3, Perform, w');
    assert [] + [Got(UNIT)] == [Got(UNIT)];
  }

  lemma {:induction false} NothingShown(h: History)
    ensures Shown(Waiting, h) == Started
  {
    if |h| > 0 { NothingShown(h[..|h| - 1]); }
  }

  // ---- A step key that is used twice ---------------------------------------------------------------

  /** Two statuses, each followed by a step, but both steps have the same key. */
  function Reusing(h: History): Op {
    if |h| == 0 then SetStatus("a")
    else if |h| == 2 then SetStatus("b")
    else if |h| < 4 then Step("s", "()", 0)
    else Return(UNIT)
  }

  const REUSING: map<string, Definition> := map["w" := NoInput(Reusing)]

  const FIRST_HALF: History := [Nothing, Got(UNIT)]

  /**
   Without the condition on keys the Completed message can be an older status: the second step finds
   the entry of the first and restores the status that was stored with it.
   */
  lemma ReusedKeyRestoresOldStatus(i: Id) returns (w: World)
    requires TopLevel(i) && i.wf == "w"
    ensures Reachable(REUSING, w) && i in w.store.meta && w.store.meta[i].status == Finished(Some("a"))
    ensures Shown(Reusing, FIRST_HALF + [Nothing, Got(UNIT)]) == InProgress("b")
    ensures Reusing(FIRST_HALF + [Nothing, Got(UNIT)]).Return?
  {
    var w0 := Launched(REUSING, i);
    var w1 := OpIsFed(REUSING, i, w0, Reusing, [], map[], Started, Nothing, InProgress("a"));
    var w2 := StepSucceeds(REUSING, i, w1, Reusing, [] + [Nothing], map[], InProgress("a"), UNIT);
    assert [] + [Nothing] + [Got(UNIT)] == FIRST_HALF;
    var steps: Steps := map[Ref(i, User("s")) := Completed(UNIT, Some("a"))];
    var w3 := OpIsFed(REUSING, i, w2, Reusing, FIRST_HALF, steps, InProgress("a"), Nothing, InProgress("b"));
    var h := FIRST_HALF + [Nothing];
    var w4 := OpIsFed(REUSING, i, w3, Reusing, h, steps, InProgress("b"), Got(UNIT), InProgress("a"));
    var h' := h + [Got(UNIT)];
    w := TaskReturns(REUSING, w4, 2, h', UNIT);
    ShownNext(Reusing, h, Got(UNIT));
    ShownNext(Reusing, FIRST_HALF, Nothing);
    assert h' == FIRST_HALF + [Nothing, Got(UNIT)];
  }

  // ---- A swallowed error and a stored status -------------------------------------------------------

  /** Step "a", a status if it fails, and step "b". No key is used twice. */
  function Branches(h: History): Op {
    if |h| == 0 then Step("a", "()", 0)
    else if h[0].Caught? && |h| == 1 then SetStatus("x")
    else if |h| == (if h[0].Caught? then 2 else 1) then Step("b", "()", 0)
    else Return(UNIT)
  }

  const BRANCHING: map<string, Definition> := map["w" := NoInput(Branches)]

  function BranchSteps(i: Id): Steps {
    map[Ref(i, User("a")) := Failed("e"), Ref(i, User("b")) := Completed(UNIT, Some("x"))]
  }

  /** In the first run "a" fails, so that "b" is journaled with a status; then the task is lost. */
  lemma FirstRun(i: Id) returns (w: World)
    requires TopLevel(i) && i.wf == "w"
    ensures OneTask(w, BRANCHING, i, Worker(i, Branches, At([])), BranchSteps(i), Started)
  {
    var w0 := Launched(BRANCHING, i);
    var w1 := StepFails(BRANCHING, i, w0, Branches, [], map[], Started, "e");
    var steps: Steps := map[Ref(i, User("a")) := Failed("e")];
    var h := [] + [Caught("e")];
    var w2 := OpIsFed(BRANCHING, i, w1, Branches, h, steps, Started, Nothing, InProgress("x"));
    var w3 := StepSucceeds(BRANCHING, i, w2, Branches, h + [Nothing], steps, InProgress("x"), UNIT);
    assert steps[Ref(i, User("b")) := Completed(UNIT, Some("x"))] == BranchSteps(i);
    var th := Worker(i, Branches, At(h + [Nothing] + [Got(UNIT)]));
    w := LostAndResumed(BRANCHING, i, w3, th, BranchSteps(i), InProgress("x"));
  }

  lemma BranchKeysOnce()
    ensures KeysOnce(Branches)
  {
  }

  /**
   A run that meets an entry which an older run reached through an error shows, and completes with,
   a status that it never set, although no key is used twice.
   */
  lemma SwallowedErrorRestoresStatus(i: Id) returns (w: World)
    requires TopLevel(i) && i.wf == "w"
    ensures KeysOnce(Branches)
    ensures Reachable(BRANCHING, w) && i in w.store.meta && w.store.meta[i].status == Finished(Some("x"))
    ensures i in w.log.final && Shown(Branches, w.log.final[i]).Message() == None
  {
    BranchKeysOnce();
    var w1 := FirstRun(i);
    var w2 := StepSucceeds(BRANCHING, i, w1, Branches, [], BranchSteps(i), Started, UNIT);
    var h := [] + [Got(UNIT)];
    var steps := BranchSteps(i)[Ref(i, User("a")) := Completed(UNIT, None)];
    var w3 := OpIsFed(BRANCHING, i, w2, Branches, h, steps, Started, Got(UNIT), InProgress("x"));
    w := TaskReturns(BRANCHING, w3, 2, h + [Got(UNIT)], UNIT);
    ShownNext(Branches, h, Got(UNIT));
    ShownNext(Branches, [], Got(UNIT));
  }
}
