/**
 One run of a workflow task, from its input to its last write, with nobody else writing the
 instance. A run that resumes is silent for exactly as long as it only replays.
 */
module Runs {
  import opened Options
  import opened Storage
  import opened Workflows
  import opened Keys
  import opened Tables
  import opened Protocol
  import opened Ownership
  import opened Replay
  import opened Retry
  import opened Collectors
  import opened Contexts

  /** What the world outside does in this run: closures, joined children, and the clock. */
  datatype Script = Script(
    closures: History -> nat -> Outcome,
    backoff: Backoff,
    joins: History -> seq<Joined>,
    clock: History -> nat)

  ghost predicate Plays(script: Script, prog: Workflow) {
    forall h: History ::
      && (prog(h).Step? ==> forall n :: script.closures(h)(n).Okay? ==> script.closures(h)(n).value.ty == prog(h).ty)
      && (prog(h).FanOut? ==> JoinsEach(script.joins(h), |prog(h).kids|))
  }

  /** The builders of operations assert this; a retry count is a u32. */
  predicate Legal(op: Op) { LegalOp(op) && (op.Step? ==> op.maxRetries <= U32_MAX) }

  /**
   What the builder of an operation refuses: a step or suspension whose key has a slash or begins with an
   underscore, a fan-out whose key has a slash; and a retry count is a u32.
   */
  ghost predicate Refused(op: Op) {
    || ((op.Step? || op.Suspend?) && ('/' in op.key || "_" <= op.key))
    || (op.FanOut? && '/' in op.key)
    || (op.Step? && op.maxRetries > 0xFFFF_FFFF)
  }

  lemma RefusedIsIllegal(op: Op)
    ensures Refused(op) <==> !Legal(op)
  {
  }

  ghost predicate NoneRefused(prog: Workflow, h: History) { forall n :: 0 <= n < |h| ==> !Refused(prog(h[..n])) }

  lemma NoneRefusedNext(prog: Workflow, h: History, seen: Seen)
    requires NoneRefused(prog, h) && !Refused(prog(h))
    ensures NoneRefused(prog, h + [seen])
  {
    var h' := h + [seen];
    forall n | 0 <= n < |h'| ensures !Refused(prog(h'[..n])) {
      assert h'[..n] == h[..n];
      if n == |h| { assert h[..n] == h; }
    }
  }

  datatype RunEnd = Ended(result: RunResult) | CutShort | Panics

  /** The statuses that the workflow set from position `awake` on. */
  ghost function StatusesFrom(prog: Workflow, h: History, awake: nat): seq<Watch> {
    if |h| <= awake then []
    else
      StatusesFrom(prog, h[..|h| - 1], awake) +
      if prog(h[..|h| - 1]).SetStatus? then [InProgress(prog(h[..|h| - 1]).msg)] else []
  }

  /** The journal answers the operation, and not with a signal: performing it wakes nobody up. */
  ghost predicate Silent(j: Steps, i: Id, op: Op) {
    Fed(j, i, op).Some? && !(op.Suspend? && Fed(j, i, op).value.Got?)
  }

  /**
   `awake` is where a run with this history, over the journal `j` that it found, stopped replaying:
   the first operation that was executed, because its entry was open, or that was given a signal.
   */
  ghost predicate WakesAt(j: Steps, i: Id, prog: Workflow, h: History, awake: nat) {
    && awake <= |h|
    && (forall n :: 0 <= n < awake ==> Silent(j, i, prog(h[..n])) && Fed(j, i, prog(h[..n])) == Some(h[n]))
    && (awake < |h| ==> !Silent(j, i, prog(h[..awake])))
  }

  lemma {:induction false} AfterClosureOk(
    j: Steps, i: Id, wf: Workflow, h: History, n: nat, status: Option<string>, oracle: nat -> Outcome)
    requires Faithful(j, i, wf, h) && PcOk(j, i, wf(h), InClosure(h, n)) && n < Attempts(wf(h).maxRetries)
    requires forall m :: oracle(m).Okay? ==> oracle(m).value.ty == wf(h).ty
    ensures
      var pc := PcAfterClosure(h, n, wf(h).maxRetries, status, oracle);
      Faithful(j, i, wf, pc.h) && PcOk(j, i, wf(pc.h), pc) && (pc.Saving? ==> pc.h == h)
    decreases Attempts(wf(h).maxRetries) - n
  {
    ClosureOk(j, i, wf, h, n, status, oracle(n));
    if ClosurePc(h, n, wf(h).maxRetries, status, oracle(n)).InClosure? {
      AfterClosureOk(j, i, wf, h, n + 1, status, oracle);
    }
  }

  lemma StepExtends(j: Steps, i: Id, wf: Workflow, h: History, oracle: nat -> Outcome, shown: Watch,
                    seen: Seen, j': Steps)
    requires Faithful(j, i, wf, h) && wf(h).Step? && PcOk(j, i, wf(h), InClosure(h, 0))
    requires Attempts(wf(h).maxRetries) > 0
    requires forall m :: oracle(m).Okay? ==> oracle(m).value.ty == wf(h).ty
    requires StepRan(j, i, h, wf(h), oracle, shown, seen, j')
    ensures Faithful(j', i, wf, h + [seen])
  {
    AfterClosureOk(j, i, wf, h, 0, shown.CurrentStatus(), oracle);
    if PcAfterClosure(h, 0, wf(h).maxRetries, shown.CurrentStatus(), oracle).Saving? {
      assert Grows(i, j, j');
      FaithfulGrows(j, j', i, wf, h);
      FaithfulExtend(j', i, wf, h, seen);
    }
  }

  lemma FanOutExtends(j: Steps, i: Id, wf: Workflow, h: History, seen: Seen, j': Steps)
    requires Faithful(j, i, wf, h) && PcOk(j, i, wf(h), InFanOut(h))
    requires seen.Caught? || (seen.Got? && seen.value.ty == wf(h).ty)
    requires j' == if seen.Got? then j[Ref(i, FanOutKey(wf(h).key)) := Completed(seen.value, None)] else j
    ensures Faithful(j', i, wf, h + [seen])
  {
    assert Grows(i, j, j');
    FaithfulGrows(j, j', i, wf, h);
    FaithfulExtend(j', i, wf, h, seen);
  }

  /** `told` is what subscribers were told in a run that has come to `h`: every status set since it woke up. */
  ghost predicate Told(j: Steps, i: Id, prog: Workflow, h: History, awake: nat, told: seq<Watch>, replaying: bool) {
    && WakesAt(j, i, prog, h, awake) && told == StatusesFrom(prog, h, awake) && (replaying <==> awake == |h|)
    && NoneRefused(prog, h)
  }

  lemma ToldNext(j: Steps, i: Id, prog: Workflow, h: History, awake: nat, told: seq<Watch>, replaying: bool,
                 seen: Seen, replaying': bool)
    requires Told(j, i, prog, h, awake, told, replaying) && !Refused(prog(h))
    requires replaying' <==> replaying && Silent(j, i, prog(h))
    requires replaying' ==> Fed(j, i, prog(h)) == Some(seen)
    ensures Told(j, i, prog, h + [seen], if replaying' then |h| + 1 else awake,
                 told + if prog(h).SetStatus? && !replaying then [InProgress(prog(h).msg)] else [], replaying')
  {
    var h' := h + [seen];
    assert h'[..|h|] == h && h[..|h|] == h;
    assert forall n :: 0 <= n < |h| ==> h'[..n] == h[..n];
    NoneRefusedNext(prog, h, seen);
  }

  lemma StillFaithful(j: Steps, j': Steps, i: Id, prog: Workflow, h: History)
    requires Faithful(j, i, prog, h) && Grows(i, j, j')
    ensures Faithful(j', i, prog, h)
  {
  }

  /**
   An operation that the journal answers is fed from it, and changes nothing; and the run goes on
   replaying exactly as long as its operations are silent. None: the run ends here.
   */
  ghost predicate Keeps(s: Store, s': Store, i: Id, op: Op, seen: Option<Seen>, replaying: bool, replaying': bool) {
    && (Fed(s.steps, i, op).Some? ==> seen == Fed(s.steps, i, op) && s' == s)
    && (seen.None? ==> Fed(s.steps, i, op).None?)
    && (seen.Some? ==> (replaying' <==> replaying && Silent(s.steps, i, op)))
  }

  lemma ToldKeeps(
    found: Steps, s: Store, s': Store, i: Id, prog: Workflow, h: History, awake: nat, told: seq<Watch>,
    replaying: bool, seen: Option<Seen>, replaying': bool)
    requires Told(found, i, prog, h, awake, told, replaying) && Legal(prog(h))
    requires Keeps(s, s', i, prog(h), seen, replaying, replaying') && (replaying ==> s.steps == found)
    ensures seen.Some? ==>
      && (replaying' ==> s'.steps == found)
      && Told(found, i, prog, h + [seen.value], if replaying' then |h| + 1 else awake,
           told + if prog(h).SetStatus? && !replaying then [InProgress(prog(h).msg)] else [], replaying')
  {
    RefusedIsIllegal(prog(h));
    if seen.Some? { ToldNext(found, i, prog, h, awake, told, replaying, seen.value, replaying'); }
  }

  /** A step of the run. None is the panic on the largest retry count. */
  method PerformStep(ctx: Context, prog: Workflow, script: Script, h: History) returns (seen: Option<Seen>)
    requires ctx.Valid() && Plays(script, prog) && Legal(prog(h)) && prog(h).Step?
    requires Faithful(ctx.db.model.steps, ctx.id, prog, h)
    modifies ctx.db, ctx.tx, ctx`replaying
    ensures ctx.Valid() && ctx.tx.notices == old(ctx.tx.notices)
    ensures seen.Some? ==> Faithful(ctx.db.model.steps, ctx.id, prog, h + [seen.value])
    ensures seen.None? ==> ctx.db.model == old(ctx.db.model) && prog(h).maxRetries == U32_MAX
    ensures Keeps(old(ctx.db.model), ctx.db.model, ctx.id, prog(h), seen, old(ctx.replaying), ctx.replaying)
  {
    var op := prog(h);
    ghost var j, shown := ctx.db.model.steps, ctx.tx.value;
    PerformOk(j, 0, ctx.id, prog, h);
    PerformFeeds(j, 0, ctx.id, h, op);
    seen := ctx.RunStep(op.key, op.ty, Custom(RetryPolicy(op.maxRetries, script.backoff)), script.closures(h), h);
    ghost var e := PerformEffect(j, 0, ctx.id, h, op);
    if e.pc.InClosure? {
      if seen.Some? { StepExtends(j, ctx.id, prog, h, script.closures(h), shown, seen.value, ctx.db.model.steps); }
    } else {
      assert seen.value == e.pc.h[|h|];
    }
  }

  /** A suspension or a timer is set, or still waits, or gives the journaled value. */
  lemma WaitCases(j: Steps, now: nat, i: Id, wf: Workflow, h: History)
    requires Faithful(j, i, wf, h) && LegalOp(wf(h)) && (wf(h).Suspend? || wf(h).Timer?)
    ensures
      var pc, key := PerformEffect(j, now, i, h, wf(h)).pc, wf(h).key;
      && (pc.Suspending? || pc.Finishing? || pc.At?)
      && (pc.Suspending? ==> var j' := j[Ref(i, User(key)) := Suspended]; Faithful(j', i, wf, h) && Waits(j', i, key))
      && (pc.Finishing? ==> Waits(j, i, key))
      && (pc.At? <==> Fed(j, i, wf(h)).Some?)
      && (pc.At? ==> pc.h == h + [Fed(j, i, wf(h)).value] && Faithful(j, i, wf, pc.h))
      && (forall seen :: pc == At(h + [seen]) ==> Fed(j, i, wf(h)) == Some(seen))
  {
    PerformOk(j, now, i, wf, h);
    PerformFeeds(j, now, i, h, wf(h));
    var e := PerformEffect(j, now, i, h, wf(h));
    forall seen | e.pc == At(h + [seen]) ensures Fed(j, i, wf(h)) == Some(seen) { assert (h + [seen])[|h|] == seen; }
    if e.pc.Suspending? { StillFaithful(j, j[Ref(i, User(wf(h).key)) := Suspended], i, wf, h); }
  }

  /** A suspension of the run. None: the run is to be suspended. */
  method PerformSuspend(ctx: Context, prog: Workflow, h: History) returns (seen: Option<Seen>)
    requires ctx.Valid() && Legal(prog(h)) && prog(h).Suspend?
    requires Faithful(ctx.db.model.steps, ctx.id, prog, h)
    modifies ctx.db, ctx.tx, ctx`replaying
    ensures ctx.Valid() && ctx.tx.notices == old(ctx.tx.notices)
    ensures seen.Some? ==>
      Faithful(ctx.db.model.steps, ctx.id, prog, h + [seen.value]) && ctx.db.model == old(ctx.db.model)
    ensures seen.None? ==>
      Waits(ctx.db.model.steps, ctx.id, prog(h).key) && Faithful(ctx.db.model.steps, ctx.id, prog, h)
    ensures Keeps(old(ctx.db.model), ctx.db.model, ctx.id, prog(h), seen, old(ctx.replaying), ctx.replaying)
  {
    var op := prog(h);
    WaitCases(ctx.db.model.steps, 0, ctx.id, prog, h);
    seen := ctx.ExecuteSuspend(op.key, op.ty, None, h);
  }

  /** A timer of the run. None: the run is to be suspended. */
  method PerformTimer(ctx: Context, prog: Workflow, script: Script, h: History) returns (seen: Option<Seen>)
    requires ctx.Valid() && prog(h).Timer?
    requires Faithful(ctx.db.model.steps, ctx.id, prog, h)
    modifies ctx.db, ctx.tx, ctx.timerSerial
    ensures ctx.Valid() && ctx.tx.notices == old(ctx.tx.notices)
    ensures seen.Some? ==>
      Faithful(ctx.db.model.steps, ctx.id, prog, h + [seen.value]) && ctx.db.model == old(ctx.db.model)
    ensures seen.None? ==>
      Waits(ctx.db.model.steps, ctx.id, prog(h).key) && Faithful(ctx.db.model.steps, ctx.id, prog, h)
    ensures Keeps(old(ctx.db.model), ctx.db.model, ctx.id, prog(h), seen, ctx.replaying, ctx.replaying)
  {
    var op := prog(h);
    WaitCases(ctx.db.model.steps, script.clock(h), ctx.id, prog, h);
    seen := ctx.SetTimer(op.key, op.duration, script.clock(h), h);
  }

  method PerformFanOut(ctx: Context, prog: Workflow, script: Script, h: History) returns (seen: Seen)
    requires ctx.Valid() && Plays(script, prog) && Legal(prog(h)) && prog(h).FanOut?
    requires Faithful(ctx.db.model.steps, ctx.id, prog, h)
    modifies ctx.db, ctx`replaying
    ensures ctx.Valid() && Faithful(ctx.db.model.steps, ctx.id, prog, h + [seen])
    ensures Keeps(old(ctx.db.model), ctx.db.model, ctx.id, prog(h), Some(seen), old(ctx.replaying), ctx.replaying)
  {
    var op := prog(h);
    ghost var j := ctx.db.model.steps;
    PerformOk(j, 0, ctx.id, prog, h);
    PerformFeeds(j, 0, ctx.id, h, op);
    seen := ctx.RunFanOut(op.key, op.ty, op.failFast, |op.kids|, script.joins(h), h, op);
    if PerformEffect(j, 0, ctx.id, h, op).pc.InFanOut? {
      FanOutExtends(j, ctx.id, prog, h, seen, ctx.db.model.steps);
    } else {
      assert (h + [seen])[|h|] == seen;
    }
  }

  /** One operation of the run. None: the run ends here. */
  method Perform(ctx: Context, prog: Workflow, script: Script, h: History) returns (seen: Option<Seen>)
    requires ctx.Valid() && Plays(script, prog) && Legal(prog(h)) && !prog(h).Return? && !prog(h).Throw?
    requires Faithful(ctx.db.model.steps, ctx.id, prog, h)
    modifies ctx.db, ctx.tx, ctx.timerSerial, ctx`replaying
    ensures ctx.Valid()
    ensures Faithful(ctx.db.model.steps, ctx.id, prog, if seen.Some? then h + [seen.value] else h)
    ensures seen.None? ==>
      if prog(h).Step? then prog(h).maxRetries == U32_MAX && ctx.db.model == old(ctx.db.model)
      else (prog(h).Suspend? || prog(h).Timer?) && Waits(ctx.db.model.steps, ctx.id, prog(h).key)
    ensures ctx.tx.notices == old(ctx.tx.notices) +
      if prog(h).SetStatus? && !old(ctx.replaying) then [InProgress(prog(h).msg)] else []
    ensures Keeps(old(ctx.db.model), ctx.db.model, ctx.id, prog(h), seen, old(ctx.replaying), ctx.replaying)
  {
    if prog(h).SetStatus? {
      ctx.SetStatus(prog(h).msg);
      FaithfulExtend(ctx.db.model.steps, ctx.id, prog, h, Nothing);
      seen := Some(Nothing);
    } else if prog(h).Step? {
      seen := PerformStep(ctx, prog, script, h);
    } else if prog(h).Suspend? {
      seen := PerformSuspend(ctx, prog, h);
    } else if prog(h).Timer? {
      seen := PerformTimer(ctx, prog, script, h);
    } else {
      var s := PerformFanOut(ctx, prog, script, h);
      seen := Some(s);
    }
  }

  /**
   One operation of the run, with what its subscribers were told so far. `found` is the journal that the run
   found, `before` what subscribers were told before it.
   */
  method PerformNext(ctx: Context, prog: Workflow, script: Script, h: History, ghost found: Steps, ghost awake: nat,
                     ghost before: seq<Watch>, ghost told: seq<Watch>)
    returns (seen: Option<Seen>, ghost awake': nat, ghost told': seq<Watch>)
    requires ctx.Valid() && Plays(script, prog) && Legal(prog(h)) && !prog(h).Return? && !prog(h).Throw?
    requires Faithful(ctx.db.model.steps, ctx.id, prog, h) && Told(found, ctx.id, prog, h, awake, told, ctx.replaying)
    requires ctx.tx.notices == before + told && (ctx.replaying ==> ctx.db.model.steps == found)
    modifies ctx.db, ctx.tx, ctx.timerSerial, ctx`replaying
    ensures ctx.Valid() && ctx.tx.notices == before + told'
    ensures seen.Some? ==>
      && (ctx.replaying ==> ctx.db.model.steps == found)
      && Faithful(ctx.db.model.steps, ctx.id, prog, h + [seen.value])
      && Told(found, ctx.id, prog, h + [seen.value], awake', told', ctx.replaying)
    ensures seen.None? ==>
      && Faithful(ctx.db.model.steps, ctx.id, prog, h) && awake' == awake && told' == told
      && if prog(h).Step? then prog(h).maxRetries == U32_MAX && Fed(ctx.db.model.steps, ctx.id, prog(h)).None?
         else (prog(h).Suspend? || prog(h).Timer?) && Waits(ctx.db.model.steps, ctx.id, prog(h).key)
  {
    ghost var s, replaying := ctx.db.model, ctx.replaying;
    ghost var more := if prog(h).SetStatus? && !replaying then [InProgress(prog(h).msg)] else [];
    assert before + told + more == before + (told + more);
    seen := Perform(ctx, prog, script, h);
    ToldKeeps(found, s, ctx.db.model, ctx.id, prog, h, awake, told, replaying, seen, ctx.replaying);
    awake', told' := awake, told;
    if seen.Some? {
      told' := told + more;
      if ctx.replaying { awake' := |h| + 1; }
    }
  }

  /** The output is written before the run counts as successful. */
  method Finish(ctx: Context, prog: Workflow, h: History)
    requires ctx.Valid() && prog(h).Return? && Faithful(ctx.db.model.steps, ctx.id, prog, h)
    modifies ctx.db
    ensures ctx.Valid() && Faithful(ctx.db.model.steps, ctx.id, prog, h)
    ensures Lookup(ctx.db.model.steps, Ref(ctx.id, Output)) == Some(Completed(prog(h).out, None))
  {
    ghost var j := ctx.db.model.steps;
    StillFaithful(j, j[Ref(ctx.id, Output) := Completed(prog(h).out, None)], ctx.id, prog, h);
    ctx.WriteOutput(prog(h).out);
  }

  /** How a run can end whose next operation is `op`. */
  ghost predicate EndsAs(j: Steps, i: Id, op: Op, end: RunEnd) {
    match end
    case Ended(Success) => op.Return? && Lookup(j, Ref(i, Output)) == Some(Completed(op.out, None))
    case Ended(SuspendedAt(key)) => (op.Suspend? || op.Timer?) && op.key == key && Waits(j, i, key)
    case Ended(Failure(e)) => op == Throw(e)
    case CutShort => true
    case Panics => Refused(op) || (op.Step? && op.maxRetries == U32_MAX && Fed(j, i, op).None?)
  }

  /**
   Runs the workflow function for at most `maxOps` operations. `awake` is the first operation that was
   executed or was given a signal. Subscribers are woken for exactly the statuses that the workflow
   sets from there on. A panic is an operation that its builder refuses, or a step with the largest
   retry count whose entry is open.
   */
  method RunWorkflow(ctx: Context, prog: Workflow, script: Script, maxOps: nat)
    returns (h: History, end: RunEnd, ghost awake: nat)
    requires ctx.Valid() && Plays(script, prog) && ctx.replaying
    modifies ctx.db, ctx.tx, ctx.timerSerial, ctx`replaying
    ensures ctx.Valid() && Faithful(ctx.db.model.steps, ctx.id, prog, h)
    ensures WakesAt(old(ctx.db.model.steps), ctx.id, prog, h, awake)
    ensures ctx.tx.notices == old(ctx.tx.notices) + StatusesFrom(prog, h, awake)
    ensures EndsAs(ctx.db.model.steps, ctx.id, prog(h), end) && (end.CutShort? ==> |h| == maxOps)
    ensures NoneRefused(prog, h)
  {
    h, awake := [], 0;
    var ops := 0;
    ghost var told := [];
    while ops < maxOps
      invariant 0 <= ops == |h| <= maxOps
      invariant ctx.Valid() && Faithful(ctx.db.model.steps, ctx.id, prog, h)
      invariant Told(old(ctx.db.model.steps), ctx.id, prog, h, awake, told, ctx.replaying)
      invariant ctx.replaying ==> ctx.db.model.steps == old(ctx.db.model.steps)
      invariant ctx.tx.notices == old(ctx.tx.notices) + told
    {
      var op := prog(h);
      if op.Return? {
        Finish(ctx, prog, h);
        end := Ended(Success);
        return;
      }
      if op.Throw? {
        end := Ended(Failure(op.error));
        return;
      }
      RefusedIsIllegal(op);
      if !Legal(op) {
        end := Panics;
        return;
      }
      var seen;
      seen, awake, told :=
        PerformNext(ctx, prog, script, h, old(ctx.db.model.steps), awake, old(ctx.tx.notices), told);
      if seen.None? {
        end := if op.Step? then Panics else Ended(SuspendedAt(op.key));
        return;
      }
      h := h + [seen.value];
      ops := ops + 1;
    }
    end := CutShort;
  }

  /**
   A whole task: input, workflow, output, metadata, final status. Nobody is woken before the first
   operation that is executed or given a signal; the final status is the only thing that subscribers
   are woken for besides the statuses set from there on.
   */
  method RunTask(ctx: Context, prog: Workflow, script: Script, maxOps: nat, nowMillis: nat)
    returns (h: History, end: RunEnd, ghost awake: nat)
    requires ctx.Valid() && Plays(script, prog) && ctx.replaying
    modifies ctx.db, ctx.tx, ctx.timerSerial, ctx`replaying
    ensures ctx.Valid() && Faithful(ctx.db.model.steps, ctx.id, prog, h)
    ensures WakesAt(old(ctx.db.model.steps), ctx.id, prog, h, awake)
    ensures ctx.tx.notices ==
      old(ctx.tx.notices) + StatusesFrom(prog, h, awake) + if end.Ended? then [ctx.tx.value] else []
    ensures (end.CutShort? ==> |h| == maxOps) && (!end.Ended? ==> EndsAs(ctx.db.model.steps, ctx.id, prog(h), end))
    ensures NoneRefused(prog, h)
    ensures end.Ended? ==>
      && ctx.id in ctx.db.model.meta && ctx.tx.value.Settled?
      && match end.result
         case Success =>
           && ctx.db.model.meta[ctx.id].status == Finished(ctx.tx.value.last) && prog(h).Return?
           && Lookup(ctx.db.model.steps, Ref(ctx.id, Output)) == Some(Completed(prog(h).out, None))
         case SuspendedAt(key) => ClaimOutcome(ctx.db.model, ctx.id, key) == Claimed && ctx.tx.value.last.Some?
         case Failure(e) =>
           ctx.db.model.meta[ctx.id].status == Errored(e) && ctx.tx.value == Settled(Some(e)) && prog(h) == Throw(e)
  {
    h, end, awake := RunWorkflow(ctx, prog, script, maxOps);
    match end {
      case Ended(result) => ctx.HandleResult(result, nowMillis);
      case _ =>
    }
  }
}
