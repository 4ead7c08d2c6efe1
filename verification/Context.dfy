/**
 The context that a workflow function is given, in the form it has: an object that reads the
 journal, writes it on a miss, and keeps quiet as long as it only replays. Every method is tied to
 the step functions of the protocol.
 */
module Contexts {
  import opened Options
  import opened Storage
  import opened Workflows
  import opened Keys
  import opened Accounts
  import opened Tables
  import opened Protocol
  import opened Retry
  import opened Collectors

  /** A watch channel. `notices` are the values that subscribers were woken up for. */
  class StatusChannel {
    var value: Watch
    ghost var notices: seq<Watch>

    constructor ()
      ensures value == Started && notices == []
    {
      value, notices := Started, [];
    }

    method Send(v: Watch)
      modifies this
      ensures value == v && notices == old(notices) + [v]
    {
      value, notices := v, notices + [v];
    }

    /** Changes the value without waking anyone up. */
    method Replace(v: Watch)
      modifies this
      ensures value == v && notices == old(notices)
    {
      value := v;
    }
  }

  /** The counter that makes timer row keys unique within a process. An atomic u64 wraps. */
  class TimerSerial {
    var next: nat

    constructor ()
      ensures next == 0
    {
      next := 0;
    }

    method Take() returns (serial: nat)
      modifies this
      ensures serial == old(next) && next == if old(next) < U64_MAX then old(next) + 1 else 0
    {
      serial := next;
      next := if next < U64_MAX then next + 1 else 0;
    }
  }

  datatype RetryOverride = Inherit | Disabled | Custom(policy: RetryPolicy)

  datatype InputResult = Present(value: Value) | Absent | Mismatch

  datatype Found = Hit(seen: Seen, status: Option<string>) | Waiting | Miss

  /** The outcome of a look-up is what performing the operation does. */
  ghost predicate FoundAs(e: Performed, h: History, op: Op, nowMillis: nat, found: Found)
    requires op.Suspend? || op.Timer?
  {
    match found
    case Hit(seen, status) =>
      && e.pc == At(h + [seen])
      && (op.Suspend? ==> e.shown == if status.Some? then Some(InProgress(status.value)) else None)
    case Waiting => e.pc.Finishing?
    case Miss => e.pc == Suspending(h, if op.Timer? then Some(nowMillis + op.duration) else None)
  }

  ghost function BodyFrom(input: InputResult, bodyFor: Value -> Workflow): Workflow {
    match input
    case Present(v) => bodyFor(v)
    case Absent => InputMissing
    case Mismatch => InputMismatch
  }

  /** Instance ids of the children of a fan-out. */
  function ChildInstances(instance: string, key: string, count: nat): (ids: seq<string>)
    ensures |ids| == count
  {
    seq(count, n requires 0 <= n < count => instance + "/" + key + "-" + Decimal(n))
  }

  lemma ChildInstanceIs(i: Id, key: string, count: nat, n: nat)
    requires ValidId(i) && n < count
    ensures ChildInstances(Instance(i), key, count)[n] == Instance(Child(i, key, n))
  {
    JoinAppend(i.path, [ChildComponent(key, n)]);
    assert Instance(i) + "/" + key + "-" + Decimal(n) == Instance(i) + "/" + ChildComponent(key, n);
  }

  function ChildIds(i: Id, key: string, count: nat): (ids: seq<Id>)
    ensures |ids| == count && forall n :: 0 <= n < count ==> ids[n] == Child(i, key, n)
  {
    seq(count, n requires 0 <= n < count => Child(i, key, n))
  }

  /** A step that ran to its end, in one go, from journal `j` showing `shown`, is what the protocol makes of it. */
  ghost predicate StepRan(j: Steps, i: Id, h: History, op: Op, oracle: nat -> Outcome, shown: Watch,
                          seen: Seen, j': Steps)
    requires op.Step? && Attempts(op.maxRetries) > 0
  {
    var pc := PcAfterClosure(h, 0, op.maxRetries, shown.CurrentStatus(), oracle);
    if pc.Saving? then j' == j[Ref(i, User(op.key)) := pc.data] && seen == pc.seen
    else j' == j && pc == At(h + [seen])
  }

  /** What `timer` does: set the timer, still wait for it, or return. Each state is tables, status shown and serial. */
  ghost predicate TimerTaken(pc: Pc, i: Id, key: string, h: History, seen: Option<Seen>,
                             before: (Store, Watch, nat), after: (Store, Watch, nat))
  {
    match pc
    case Suspending(_, deadline) =>
      && seen.None? && deadline.Some? && after.2 == (if before.2 < U64_MAX then before.2 + 1 else 0)
      && after.1 == Settled(Some("timer " + key + " (deadline " + Decimal(deadline.value) + ")"))
      && after.0.steps == before.0.steps[Ref(i, User(key)) := Suspended] && after.0.meta == before.0.meta
      && after.0.timers == before.0.timers[TimerKey(deadline.value, before.2) := TimerRow(i, key)]
    case Finishing(_, _) => seen.None? && after == before
    case _ => seen.Some? && pc == At(h + [seen.value]) && after == before
  }

  /** What `timer` leaves in the tables, and of the serial, is what the state machine's suspension does. */
  lemma TimerFollowsProtocol(w: World, t: nat, seen: Option<Seen>, shown: Watch, after: (Store, Watch, nat))
    requires TaskEnabled(w, t, SaveSuspended) && w.threads[t].pc.deadline.Some? && w.serial < U64_MAX
    requires
      var th := w.threads[t];
      TimerTaken(th.pc, th.id, CurrentOp(th).key, th.pc.h, seen, (w.store, shown, w.serial), after)
    ensures after.0 == SuspendedTxn(w, t).store && after.2 == SuspendedTxn(w, t).serial
  {
  }

  /** The step has not come to anything yet, or has failed. */
  ghost predicate IsOpen(steps: Steps, r: Ref) { r !in steps || steps[r].Failed? }

  lemma OpenTimerIsSet(j: Steps, nowMillis: nat, i: Id, h: History, key: string, duration: nat)
    requires ValidUserKey(key) && IsOpen(j, Ref(i, User(key)))
    ensures PerformEffect(j, nowMillis, i, h, Op.Timer(key, duration)).pc == Suspending(h, Some(nowMillis + duration))
  {
  }

  /** A timer was set: it suspends its step, for whichever instance and deadline. */
  ghost predicate SetsATimer(
    i: Id, key: string, deadline: nat, before: (Store, Watch, nat), after: (Store, Watch, nat)) {
    TimerTaken(Suspending([], Some(deadline)), i, key, [], None, before, after)
  }

  /** Two timers that are set one after the other, even for the same moment, have rows of their own, and both stand. */
  lemma TwoTimersTwoRows(i: Id, key: string, d: nat, k: Id, key2: string, d2: nat,
                         a: (Store, Watch, nat), b: (Store, Watch, nat), shown: Watch, c: (Store, Watch, nat))
    requires a.2 < U64_MAX && SetsATimer(i, key, d, a, b) && SetsATimer(k, key2, d2, (b.0, shown, b.2), c)
    ensures
      exists m, n :: m != n && Lookup(c.0.timers, m) == Some(TimerRow(i, key)) && m.deadline == d &&
        Lookup(c.0.timers, n) == Some(TimerRow(k, key2)) && n.deadline == d2
  {
    var m, n := TimerKey(d, a.2), TimerKey(d2, b.2);
    assert m != n;
    assert Lookup(c.0.timers, m) == Some(TimerRow(i, key)) && Lookup(c.0.timers, n) == Some(TimerRow(k, key2));
  }

  /** One attempt of a closure decides how its step ends: `entry` is what is journaled, if anything. */
  ghost predicate AttemptEnds(o: Outcome, status: Option<string>, seen: Seen, entry: Option<StepData>) {
    match o
    case Okay(v) => seen == Got(v) && entry == Some(StepData.Completed(v, status))
    case Permanent(e) => seen == Caught(e) && entry == Some(StepData.Failed(e))
    case Retryable(e) => seen == Caught(e) && entry == Some(StepData.Failed(e))
    case TimedOut => seen == Caught(TIMED_OUT) && entry == None
  }

  /**
   With `retries` retries allowed the first attempt that does not ask for another decides, or the last one
   allowed. `before` and `after` are the tables.
   */
  ghost predicate StepEnds(retries: nat, oracle: nat -> Outcome, status: Option<string>, r: Ref,
                           seen: Seen, before: Steps, after: Steps)
  {
    forall n :: 0 <= n <= retries && (forall m :: 0 <= m < n ==> oracle(m).Retryable?)
                && (oracle(n).Retryable? ==> n == retries) ==>
      exists entry :: AttemptEnds(oracle(n), status, seen, entry) &&
        after == if entry.Some? then before[r := entry.value] else before
  }

  lemma ClosureEnds(retries: nat, oracle: nat -> Outcome, status: Option<string>, attempts: nat, finish: Finish, r: Ref,
                    before: Steps, after: Steps)
    requires 0 < attempts <= retries + 1 && forall n :: 0 <= n < attempts - 1 ==> oracle(n).Retryable?
    requires finish == FinishOf(oracle(attempts - 1), status)
    requires oracle(attempts - 1).Retryable? ==> attempts == retries + 1
    requires after == if finish.Journaled? then before[r := finish.entry] else before
    ensures StepEnds(retries, oracle, status, r, finish.seen, before, after)
  {
    var entry := if finish.Journaled? then Some(finish.entry) else None;
    assert AttemptEnds(oracle(attempts - 1), status, finish.seen, entry);
    forall n | 0 <= n <= retries && (forall m :: 0 <= m < n ==> oracle(m).Retryable?)
               && (oracle(n).Retryable? ==> n == retries)
      ensures n == attempts - 1
    {
    }
  }

  /** A step that succeeds within its retries gives its value, and journals it with the status then shown. */
  lemma RetriedStepSucceeds(retries: nat, oracle: nat -> Outcome, status: Option<string>, r: Ref,
                            seen: Seen, before: Steps, after: Steps, n: nat)
    requires StepEnds(retries, oracle, status, r, seen, before, after) && n <= retries
    requires oracle(n).Okay? && forall m :: 0 <= m < n ==> oracle(m).Retryable?
    ensures seen == Got(oracle(n).value) && Lookup(after, r) == Some(StepData.Completed(oracle(n).value, status))
  {
  }

  /** How many retries a step has: those of its own policy, or none, or those of the engine's default, if it has one. */
  ghost function RetriesOf(override: RetryOverride, default: Option<RetryPolicy>): nat {
    match override
    case Custom(p) => p.maxRetries
    case Disabled => 0
    case Inherit => if default.Some? then default.value.maxRetries else 0
  }

  /**
   What joining the children gives: their vector in item order if none of them ends the fan-out, and
   otherwise the error of the first one that does.
   */
  ghost predicate GatheredAs(joined: seq<Joined>, failFast: bool, ids: seq<Id>, ty: string, seen: Seen) {
    if forall n :: 0 <= n < |joined| ==> !Stops(failFast, joined[n]) then
      seen.Got? && seen.value.Slots? && seen.value.ty == ty && InItemOrder(joined, ids, seen.value.slots)
    else
      seen.Caught? && GivesUpWith(joined, failFast, seen.error)
  }

  /** A vector is journaled; an error is not. */
  ghost function Journaling(s: Store, r: Ref, seen: Seen): Store {
    if seen.Got? then PutStep(s, r, Completed(seen.value, None)) else s
  }

  class Context {
    const wf: string
    const instance: string
    const db: Database
    const tx: StatusChannel
    const timerSerial: TimerSerial
    const defaultRetry: Option<RetryPolicy>
    const id: Id
    var replaying: bool

    ghost predicate Valid()
      reads this, db, timerSerial
    {
      && db.Valid() && ValidId(id) && wf == id.wf && instance == Instance(id) && timerSerial.next <= U64_MAX
      && (defaultRetry.Some? ==> defaultRetry.value.maxRetries <= U32_MAX)
    }

    constructor (wf: string, instance: string, db: Database, tx: StatusChannel, timerSerial: TimerSerial,
                 defaultRetry: Option<RetryPolicy>, id: Id)
      requires db.Valid() && ValidId(id) && wf == id.wf && instance == Instance(id) && timerSerial.next <= U64_MAX
      requires defaultRetry.Some? ==> defaultRetry.value.maxRetries <= U32_MAX
      ensures Valid() && replaying
      ensures this.wf == wf && this.instance == instance && this.db == db && this.tx == tx
      ensures this.timerSerial == timerSerial && this.defaultRetry == defaultRetry && this.id == id
    {
      this.wf, this.instance, this.db, this.tx := wf, instance, db, tx;
      this.timerSerial, this.defaultRetry, this.id := timerSerial, defaultRetry, id;
      replaying := true;
    }

    function EffectiveRetry(override: RetryOverride): Option<RetryPolicy> {
      match override
      case Inherit => defaultRetry
      case Disabled => None
      case Custom(policy) => Some(policy)
    }

    /** The status is replaced silently as long as the run only replays. */
    method SetStatus(msg: string)
      modifies tx
      ensures tx.value == InProgress(msg)
      ensures tx.notices == old(tx.notices) + if replaying then [] else [InProgress(msg)]
    {
      if replaying { tx.Replace(InProgress(msg)); } else { tx.Send(InProgress(msg)); }
    }

    method ReadInput(ty: string) returns (input: InputResult)
      requires Valid()
      ensures forall bodyFor: Value -> Workflow ::
        BodyOf(WithInput(ty, bodyFor), db.model.steps, id) == BodyFrom(input, bodyFor)
    {
      var d := db.ReadStep(wf, instance, "_input", Ref(id, Input));
      match d {
        case Some(Completed(v, _)) => input := if v.ty == ty then Present(v) else Mismatch;
        case _ => input := Absent;
      }
    }

    /**
     A durable step. A journaled result is returned without running the closure, and restores the
     status that was shown when it was journaled. Otherwise the closure runs, with retries, and its
     result is journaled. None is the panic on the largest retry count.
     */
    method RunStep(key: string, ty: string, override: RetryOverride, oracle: nat -> Outcome, ghost h: History)
      returns (seen: Option<Seen>)
      requires Valid() && ValidUserKey(key) && RetriesOf(override, defaultRetry) <= U32_MAX
      modifies db, tx, this`replaying
      ensures Valid() && tx.notices == old(tx.notices)
      ensures
        var op := Op.Step(key, ty, RetriesOf(override, defaultRetry));
        var e := PerformEffect(old(db.model.steps), 0, id, h, op);
        if !e.pc.InClosure? then
          && seen.Some? && e.pc == At(h + [seen.value]) && db.model == old(db.model)
          && tx.value == e.shown.GetOr(old(tx.value)) && replaying == old(replaying)
        else
          && !replaying && tx.value == old(tx.value) && (seen.None? <==> op.maxRetries == U32_MAX)
          && db.model == old(db.model).(steps := db.model.steps)
          && (seen.None? ==> db.model == old(db.model))
          && (seen.Some? ==>
                StepRan(old(db.model.steps), id, h, op, oracle, old(tx.value), seen.value, db.model.steps) &&
                StepEnds(op.maxRetries, oracle, old(tx.value).CurrentStatus(), Ref(id, User(key)), seen.value,
                  old(db.model.steps), db.model.steps))
    {
      var cached := db.ReadStep(wf, instance, key, Ref(id, User(key)));
      match cached {
        case Some(Completed(v, status)) =>
          if v.ty != ty { return Some(Caught("type mismatch")); }
          if status.Some? { tx.Replace(InProgress(status.value)); }
          return Some(Got(v));
        case Some(Suspended) => return Some(Caught("suspended step conflict"));
        case _ =>
      }
      seen := ExecuteStep(key, ty, override, oracle, h);
    }

    /** Runs the closure of a step that has no result yet, and journals how it ends. */
    method ExecuteStep(key: string, ty: string, override: RetryOverride, oracle: nat -> Outcome, ghost h: History)
      returns (seen: Option<Seen>)
      requires Valid() && ValidUserKey(key) && RetriesOf(override, defaultRetry) <= U32_MAX
      modifies db, this`replaying
      ensures Valid() && !replaying
      ensures seen.None? <==> RetriesOf(override, defaultRetry) == U32_MAX
      ensures db.model == old(db.model).(steps := db.model.steps) && (seen.None? ==> db.model == old(db.model))
      ensures seen.Some? ==>
        var op := Op.Step(key, ty, RetriesOf(override, defaultRetry));
        && Attempts(op.maxRetries) > 0
        && StepRan(old(db.model.steps), id, h, op, oracle, tx.value, seen.value, db.model.steps)
        && StepEnds(op.maxRetries, oracle, tx.value.CurrentStatus(), Ref(id, User(key)), seen.value,
             old(db.model.steps), db.model.steps)
    {
      replaying := false;
      var finish, attempts, slept := RunClosure(oracle, EffectiveRetry(override), tx.value.CurrentStatus(), h);
      match finish {
        case Journaled(entry, s) =>
          db.WriteStep(wf, instance, key, entry, Ref(id, User(key)));
          seen := Some(s);
        case Unjournaled(s) => seen := Some(s);
        case Overflowed => return None;
      }
      ClosureEnds(RetriesOf(override, defaultRetry), oracle, tx.value.CurrentStatus(), attempts, finish,
        Ref(id, User(key)), old(db.model.steps), db.model.steps);
    }

    /** What the journal has for a suspension or a timer: a result, a wait that goes on, or nothing. */
    method FindWait(key: string, ty: string, ghost nowMillis: nat, ghost h: History, ghost op: Op)
      returns (found: Found)
      requires Valid() && ValidUserKey(key) && (op.Suspend? || op.Timer?) && op.key == key && op.Tag() == ty
      ensures FoundAs(PerformEffect(db.model.steps, nowMillis, id, h, op), h, op, nowMillis, found)
    {
      var cached := db.ReadStep(wf, instance, key, Ref(id, User(key)));
      match cached {
        case Some(Completed(v, status)) =>
          found := if v.ty != ty then Hit(Caught("type mismatch"), None) else Hit(Got(v), status);
        case Some(Suspended) => found := Waiting;
        case _ => found := Miss;
      }
    }

    /** Waits for a signal. None: the run is to be suspended. */
    method ExecuteSuspend(key: string, ty: string, status: Option<string>, ghost h: History)
      returns (seen: Option<Seen>)
      requires Valid() && ValidUserKey(key)
      modifies db, tx, this`replaying
      ensures Valid() && tx.notices == old(tx.notices)
      ensures
        var e := PerformEffect(old(db.model.steps), 0, id, h, Op.Suspend(key, ty));
        match e.pc
        case Suspending(_, _) =>
          && seen.None? && db.model == SuspendTxn(old(db.model), id, key, None)
          && tx.value == Settled(Some(status.GetOr(key))) && replaying == old(replaying)
        case Finishing(_, _) =>
          seen.None? && db.model == old(db.model) && tx.value == old(tx.value) && replaying == old(replaying)
        case _ =>
          && seen.Some? && e.pc == At(h + [seen.value]) && db.model == old(db.model)
          && tx.value == e.shown.GetOr(old(tx.value)) && replaying == (old(replaying) && !seen.value.Got?)
    {
      var found := FindWait(key, ty, 0, h, Op.Suspend(key, ty));
      match found {
        case Hit(s, restored) =>
          if s.Got? { replaying := false; }
          if restored.Some? { tx.Replace(InProgress(restored.value)); }
          return Some(s);
        case Waiting => return None;
        case Miss =>
          WriteSuspended(key, status);
          return None;
      }
    }

    method WriteSuspended(key: string, status: Option<string>)
      requires Valid() && ValidUserKey(key)
      modifies db, tx
      ensures Valid() && db.model == SuspendTxn(old(db.model), id, key, None)
      ensures tx.notices == old(tx.notices) && tx.value == Settled(Some(status.GetOr(key)))
    {
      db.WriteStep(wf, instance, key, Suspended, Ref(id, User(key)));
      tx.Replace(Settled(Some(status.GetOr(key))));
    }

    /** What a timer does under a legal key, `pc` being where the protocol takes it. */
    method AwaitTimer(key: string, duration: nat, nowMillis: nat, ghost h: History, ghost pc: Pc)
      returns (seen: Option<Seen>)
      requires Valid() && ValidUserKey(key)
      requires pc == PerformEffect(db.model.steps, nowMillis, id, h, Op.Timer(key, duration)).pc
      modifies db, tx, timerSerial
      ensures Valid() && tx.notices == old(tx.notices)
      ensures
        TimerTaken(pc, id, key, h, seen, old((db.model, tx.value, timerSerial.next)),
          (db.model, tx.value, timerSerial.next))
    {
      var found := FindWait(key, UNIT.ty, nowMillis, h, Op.Timer(key, duration));
      match found {
        case Hit(s, _) => return Some(s);
        case Waiting => return None;
        case Miss =>
          WriteTimer(key, nowMillis + duration);
          return None;
      }
    }

    /** Sleeps durably: the Suspended entry and the timer row are one transaction. */
    method SetTimer(key: string, duration: nat, nowMillis: nat, ghost h: History) returns (seen: Option<Seen>)
      requires Valid()
      modifies db, tx, timerSerial
      ensures Valid() && tx.notices == old(tx.notices)
      ensures
        TimerTaken(PerformEffect(old(db.model.steps), nowMillis, id, h, Op.Timer(key, duration)).pc, id, key, h, seen,
          old((db.model, tx.value, timerSerial.next)), (db.model, tx.value, timerSerial.next))
      ensures ValidUserKey(key) && IsOpen(old(db.model.steps), Ref(id, User(key))) ==>
        TimerTaken(Suspending(h, Some(nowMillis + duration)), id, key, h, seen,
          old((db.model, tx.value, timerSerial.next)), (db.model, tx.value, timerSerial.next))
    {
      if !ValidUserKey(key) { return Some(Caught("invalid key")); }
      ghost var pc := PerformEffect(db.model.steps, nowMillis, id, h, Op.Timer(key, duration)).pc;
      if IsOpen(db.model.steps, Ref(id, User(key))) {
        OpenTimerIsSet(db.model.steps, nowMillis, id, h, key, duration);
      }
      seen := AwaitTimer(key, duration, nowMillis, h, pc);
    }

    /** The transaction of a timer that is set for the first time. */
    method WriteTimer(key: string, deadline: nat)
      requires Valid() && ValidUserKey(key)
      modifies db, tx, timerSerial
      ensures Valid() && tx.notices == old(tx.notices)
      ensures tx.value == Settled(Some("timer " + key + " (deadline " + Decimal(deadline) + ")"))
      ensures db.model == SuspendTxn(old(db.model), id, key, Some(TimerKey(deadline, old(timerSerial.next))))
      ensures timerSerial.next == if old(timerSerial.next) < U64_MAX then old(timerSerial.next) + 1 else 0
    {
      var serial := timerSerial.Take();
      db.SetTimer(wf, instance, key, TimerKey(deadline, serial), id);
      tx.Replace(Settled(Some("timer " + key + " (deadline " + Decimal(deadline) + ")")));
    }

    /**
     A fan-out over `count` items. A journaled vector is returned without starting a child.
     `joined` is what joining the children brings, in the order in which they finish.
     */
    method RunFanOut(key: string, ty: string, failFast: bool, count: nat, joined: seq<Joined>, ghost h: History,
                     ghost op: Op)
      returns (seen: Seen)
      requires Valid() && SlashFree(key) && JoinsEach(joined, count)
      requires op.FanOut? && op.key == key && op.ty == ty && op.failFast == failFast && |op.kids| == count
      modifies db, this`replaying
      ensures Valid()
      ensures
        var e := PerformEffect(old(db.model.steps), 0, id, h, op);
        if e.pc.InFanOut? then
          && !replaying && GatheredAs(joined, failFast, ChildIds(id, key, count), ty, seen)
          && db.model == Journaling(old(db.model), Ref(id, FanOutKey(key)), seen)
        else
          e.pc == At(h + [seen]) && db.model == old(db.model) && replaying == old(replaying)
    {
      var cached := db.ReadStep(wf, instance, "_fanout:" + key, Ref(id, FanOutKey(key)));
      match cached {
        case Some(Completed(v, _)) => return if v.ty != ty then Caught("type mismatch") else Got(v);
        case _ =>
      }
      seen := ExecuteFanOut(key, ty, failFast, count, joined);
    }

    /** Collects the joined children of a fan-out that has no result yet, and journals the vector. */
    method ExecuteFanOut(key: string, ty: string, failFast: bool, count: nat, joined: seq<Joined>) returns (seen: Seen)
      requires Valid() && SlashFree(key) && JoinsEach(joined, count)
      modifies db, this`replaying
      ensures Valid() && !replaying && GatheredAs(joined, failFast, ChildIds(id, key, count), ty, seen)
      ensures db.model == Journaling(old(db.model), Ref(id, FanOutKey(key)), seen)
    {
      replaying := false;
      var ids := ChildIds(id, key, count);
      if failFast {
        var r := CollectFailFast(joined, count);
        match r {
          case Error(e) => return Caught(e);
          case All(values) => seen := Got(Slots(ty, seq(count, n requires 0 <= n < |values| => Won(values[n]))));
        }
      } else {
        var r := CollectAll(joined, count, ids);
        match r {
          case Error(e) => return Caught(e);
          case All(slots) => seen := Got(Slots(ty, slots));
        }
      }
      db.WriteStep(wf, instance, "_fanout:" + key, Completed(seen.value, None), Ref(id, FanOutKey(key)));
    }

    method WriteOutput(out: Value)
      requires Valid()
      modifies db
      ensures Valid() && db.model == PutStep(old(db.model), Ref(id, Output), Completed(out, None))
    {
      db.WriteStep(wf, instance, "_output", Completed(out, None), Ref(id, Output));
    }

    /** The output of a finished run, if there is one of this type. */
    method ReadOutput(ty: string) returns (out: Option<Value>)
      requires Valid()
      ensures out.Some? <==>
        IsCompleted(db.model.steps, Ref(id, Output)) && db.model.steps[Ref(id, Output)].result.ty == ty
      ensures out.Some? ==> out.value == db.model.steps[Ref(id, Output)].result
    {
      var d := db.ReadStep(wf, instance, "_output", Ref(id, Output));
      match d {
        case Some(Completed(v, _)) => out := if v.ty == ty then Some(v) else None;
        case _ => out := None;
      }
    }

    /** The last writes of a task: its metadata, then its final status, which wakes subscribers up. */
    method HandleResult(result: RunResult, nowMillis: nat)
      requires Valid()
      modifies db, tx
      ensures Valid()
      ensures tx.notices == old(tx.notices) + [tx.value]
      ensures
        var last, now := old(tx.value).Message(), nowMillis / 1000;
        match result
        case Success =>
          && db.model == PutMeta(old(db.model), id, Metadata(Finished(last), Some(now)))
          && tx.value == Settled(last)
        case SuspendedAt(key) =>
          && db.model == PutMeta(old(db.model), id, Metadata(SuspendedOn(key), None))
          && tx.value == Settled(Some(if last.Some? then last.value else key))
        case Failure(e) =>
          && db.model == PutMeta(old(db.model), id, Metadata(Errored(e), Some(now)))
          && tx.value == Settled(Some(e))
    {
      var last := tx.value.Message();
      db.WriteMetadata(wf, instance, NewMetadata(StatusOf(result, last), nowMillis / 1000), id);
      tx.Send(FinalWatch(result, last));
    }
  }
}
