/**
 The durable-execution protocol as a state machine. One write transaction, or one read, is one
 action; actions of all threads interleave freely. A crash drops the threads and keeps the store.
 */
module Protocol {
  import opened Options
  import opened Storage
  import opened Workflows
  import opened Keys
  import opened Accounts

  /** Where a workflow task is. `h` is what its workflow has been given in this run. */
  datatype Pc =
    | At(h: History)
    | InClosure(h: History, attempt: nat)
    | InFanOut(h: History)
    | Saving(h: History, data: StepData, seen: Seen)
    | Suspending(h: History, deadline: Option<nat>)
    | Outputting(h: History)
    | Finishing(h: History, result: RunResult)

  datatype RunResult = Success | SuspendedAt(key: string) | Failure(error: string)

  datatype Expired = Expired(k: TimerKey, row: TimerRow)

  /** Where the poller is with the first row of its batch. */
  datatype PollPc = Resting | Removed | Checked | Fired

  datatype Thread =
    | Launch(id: Id)                                // metadata is Running, task not yet spawned
    | Claimant(id: Id)                              // signal whose claim committed, task not yet spawned
    | Starting(id: Id)                              // task spawned, input not yet read
    | Worker(id: Id, prog: Workflow, pc: Pc)        // workflow task
    | Announcing(id: Id, state: Watch)              // task after its metadata write, before its last send
    | Poller(batch: seq<Expired>, stage: PollPc)
    | Recovery(todo: set<Id>)                       // `start` re-spawning what was Running

  /** The value of an instance's watch channel. */
  datatype Watch = Started | InProgress(msg: string) | Settled(last: Option<string>)
  {
    function Message(): Option<string> {
      match this
      case Started => None
      case InProgress(m) => Some(m)
      case Settled(m) => m
    }

    function CurrentStatus(): Option<string> {
      if InProgress? then Some(msg) else None
    }
  }

  /** What a step closure comes back with. */
  datatype Outcome = Okay(value: Value) | Permanent(error: string) | Retryable(error: string) | TimedOut

  /** Why a poll let go of a timer row without claiming its step. */
  datatype Loss = Skipped | Outrun | Aborted | CutOff | Overwritten

  datatype Sighting = Sighting(ref: Ref, value: Value)

  datatype LostTimer = LostTimer(ref: Ref, why: Loss)

  /** History variables. The protocol uses them for one thing only: an invocation takes an id that is new. */
  datatype Log = Log(
    used: set<Id>,                  // instances that were ever invoked or resumed
    inputs: map<Id, Value>,         // inputs given at invocation
    seen: set<Sighting>,            // journal values that some run was given
    final: map<Id, History>,        // history of the last run that completed
    writtenAt: map<Ref, History>,   // history at which a step result was journaled
    parked: map<Id, nat>,           // Suspended metadata writes
    claimed: map<Id, nat>,          // successful claims
    timerSteps: set<Ref>,           // steps that were suspended together with a timer row
    rowsSet: map<TimerKey, nat>,       // insertions of a timer row
    polled: map<TimerKey, nat>,     // removals of a timer row by a poll
    lost: set<LostTimer>,
    cleaned: set<Id>,               // instances deleted by retention
    mishaps: set<Mishap>)           // failures that were journaled, or recorded of a child

  datatype World = World(
    store: Store,
    defs: map<string, Definition>,
    now: nat,
    serial: nat,
    running: bool,
    threads: map<nat, Thread>,
    watch: map<Id, Watch>,
    late: set<Id>,                  // history: instances that now show the late final status of an older run
    tainted: set<Id>,               // history: instances that completed while they showed such a status
    log: Log)

  /** Calls on the engine handle, by any number of callers. */
  datatype ApiAction =
    | Invoke(id: Id, input: Option<Value>)
    | Resume(id: Id)
    | Signal(id: Id, key: string, payload: Value)
    | DropClaim
    | Spawn

  /** Steps of a workflow task. ChildStep and ChildMeta are writes of its inline fan-out children. */
  datatype TaskAction =
    | ReadInput
    | Perform
    | ClosureReturn(outcome: Outcome)
    | ChildStep(ref: Ref, data: StepData)
    | ChildMeta(child: Id, m: Metadata)
    | Gather(outcome: Outcome)
    | Save
    | SaveSuspended
    | WriteOutput
    | WriteResult
    | Announce
    | Panic

  predicate IsWrite(a: TaskAction) {
    a.Save? || a.SaveSuspended? || a.WriteOutput? || a.WriteResult? || a.ChildStep? || a.ChildMeta?
  }

  datatype PollAction =
    | Collect(batch: seq<Expired>)
    | RemoveRow
    | CheckMeta
    | PollClaim
    | PollSpawn(t2: nat)

  datatype EngineAction =
    | Tick(millis: nat)
    | Cleanup(id: Id)
    | Stop
    | Crash(exit: bool)
    | Start(poller: nat, recovery: nat, recover: bool)
    | RecoverOne(recovery: nat, t2: nat, id: Id)
    | RecoverDone(recovery: nat)

  datatype Action =
    | Api(t: nat, call: ApiAction)
    | Task(t: nat, step: TaskAction)
    | Poll(t: nat, poll: PollAction)
    | Engine(event: EngineAction)

  const EMPTY_LOG := Log({}, map[], {}, map[], map[], map[], map[], {}, map[], map[], {}, {}, {})

  ghost function Initial(defs: map<string, Definition>): World {
    World(EMPTY_STORE, defs, 0, 0, false, map[], map[], {}, {}, EMPTY_LOG)
  }

  /** The thread may still change the journal or the metadata of top-level instance `i`. */
  ghost predicate Owns(th: Thread, i: Id) {
    match th
    case Announcing(_, _) => false
    case Poller(batch, stage) => stage.Fired? && |batch| > 0 && batch[0].row.id == i
    case Recovery(todo) => i in todo
    case _ => th.id == i
  }

  ghost predicate Owned(w: World, i: Id) {
    exists t :: t in w.threads && Owns(w.threads[t], i)
  }

  /** No `start` is in progress; it holds the engine exclusively. */
  ghost predicate Quiet(w: World) {
    forall t :: t in w.threads ==> !w.threads[t].Recovery?
  }

  ghost predicate IsWorker(w: World, t: nat) { t in w.threads && w.threads[t].Worker? }

  ghost predicate IsPoller(w: World, t: nat) { t in w.threads && w.threads[t].Poller? }

  ghost function CurrentOp(th: Thread): Op
    requires th.Worker?
  {
    th.prog(th.pc.h)
  }

  /** The u32 attempt count: `max_retries + 1` wraps. */
  function Attempts(maxRetries: nat): nat { (maxRetries + 1) % 0x1_0000_0000 }

  ghost function BookOf(w: World): Book { Book(w.store.steps, w.store.meta, w.log.cleaned, w.log.mishaps) }

  function WatchIn(watch: map<Id, Watch>, i: Id): Watch { if i in watch then watch[i] else Started }

  function WatchOf(w: World, i: Id): Watch { WatchIn(w.watch, i) }

  ghost predicate ApiEnabled(w: World, t: nat, a: ApiAction) {
    match a
    case Invoke(id, _) =>
      w.running && Quiet(w) && t !in w.threads && TopLevel(id) && id.wf in w.defs && id !in w.log.used
    case Resume(id) =>
      w.running && Quiet(w) && t !in w.threads && TopLevel(id) && id.wf in w.defs && !Owned(w, id)
    case Signal(id, key, _) => Quiet(w) && t !in w.threads && TopLevel(id)
    case DropClaim => t in w.threads && w.threads[t].Claimant?
    case Spawn =>
      && t in w.threads
      && (w.threads[t].Launch? || (w.threads[t].Claimant? && w.running && w.threads[t].id.wf in w.defs))
  }

  ghost predicate TaskEnabled(w: World, t: nat, a: TaskAction) {
    match a
    case ReadInput => t in w.threads && w.threads[t].Starting? && w.threads[t].id.wf in w.defs
    case Perform =>
      IsWorker(w, t) && w.threads[t].pc.At? && LegalOp(CurrentOp(w.threads[t]))
    case ClosureReturn(o) =>
      && IsWorker(w, t) && w.threads[t].pc.InClosure?
      && var op := CurrentOp(w.threads[t]);
         op.Step? && w.threads[t].pc.attempt < Attempts(op.maxRetries) && (o.Okay? ==> o.value.ty == op.ty)
    case ChildStep(r, _) =>
      && IsWorker(w, t) && w.threads[t].pc.InFanOut? && Under(r.id, w.threads[t].id) && !TopLevel(r.id)
      && CurrentOp(w.threads[t]).FanOut? && OfChild(w.threads[t].id, CurrentOp(w.threads[t]), r.id)
    case ChildMeta(c, m) =>
      && IsWorker(w, t) && w.threads[t].pc.InFanOut? && Under(c, w.threads[t].id) && !TopLevel(c)
      && CurrentOp(w.threads[t]).FanOut? && OfChild(w.threads[t].id, CurrentOp(w.threads[t]), c)
      && !m.status.SuspendedOn? && IsStamped(m)
    case Gather(o) =>
      && IsWorker(w, t) && w.threads[t].pc.InFanOut?
      && var op := CurrentOp(w.threads[t]);
         && op.FanOut? && (o.Okay? ==> o.value.ty == op.ty) && (o.Okay? || o.Permanent?)
         && (o.Permanent? ==> ChildsError(BookOf(w), w.threads[t].id, op, o.error))
    case Save => IsWorker(w, t) && w.threads[t].pc.Saving? && CurrentOp(w.threads[t]).IsJournaled()
    case SaveSuspended =>
      && IsWorker(w, t) && w.threads[t].pc.Suspending?
      && (CurrentOp(w.threads[t]).Suspend? || CurrentOp(w.threads[t]).Timer?)
    case WriteOutput => IsWorker(w, t) && w.threads[t].pc.Outputting? && CurrentOp(w.threads[t]).Return?
    case WriteResult => IsWorker(w, t) && w.threads[t].pc.Finishing?
    case Announce => t in w.threads && w.threads[t].Announcing?
    case Panic => t in w.threads && (w.threads[t].Worker? || w.threads[t].Starting?)
  }

  /** The poller is at `stage` with the first row of a batch. */
  ghost predicate PollerAt(w: World, t: nat, stage: PollPc) {
    IsPoller(w, t) && |w.threads[t].batch| > 0 && w.threads[t].stage == stage
  }

  ghost predicate PollEnabled(w: World, t: nat, a: PollAction) {
    match a
    case Collect(batch) => IsPoller(w, t) && w.threads[t] == Poller([], Resting) && Quiet(w) && IsBatch(w, batch)
    case RemoveRow => PollerAt(w, t, Resting)
    case CheckMeta => PollerAt(w, t, Removed)
    case PollClaim => PollerAt(w, t, Checked)
    case PollSpawn(t2) => PollerAt(w, t, Fired) && t2 !in w.threads
  }

  ghost predicate EngineEnabled(w: World, a: EngineAction) {
    match a
    case Tick(_) => true
    case Cleanup(id) => Quiet(w) && IsTerminal(w.store.meta, id)
    case Stop => Quiet(w)
    case Crash(_) => true
    case Start(p, t, _) => !w.running && w.threads == map[] && p != t
    case RecoverOne(t, t2, id) =>
      t in w.threads && w.threads[t].Recovery? && id in w.threads[t].todo && t2 !in w.threads
    case RecoverDone(t) => t in w.threads && w.threads[t] == Recovery({})
  }

  ghost predicate Enabled(w: World, a: Action) {
    match a
    case Api(t, x) => ApiEnabled(w, t, x)
    case Task(t, x) => TaskEnabled(w, t, x)
    case Poll(t, x) => PollEnabled(w, t, x)
    case Engine(x) => EngineEnabled(w, x)
  }

  /** A listing, in some order, of exactly the rows whose deadline has passed. */
  ghost predicate IsBatch(w: World, batch: seq<Expired>) {
    && (forall n :: 0 <= n < |batch| ==>
          batch[n].k in w.store.timers && batch[n].k.deadline <= w.now && batch[n].row == w.store.timers[batch[n].k])
    && (forall m, n :: 0 <= m < n < |batch| ==> batch[m].k != batch[n].k)
    && (forall k :: k in w.store.timers && k.deadline <= w.now ==> exists n :: 0 <= n < |batch| && batch[n].k == k)
  }

  /** The instances that `start` re-spawns. Inline child ids are taken out, see the README. */
  ghost function Recoverable(w: World): set<Id> {
    set i | i in w.store.meta && TopLevel(i) && IsRunning(w.store.meta, i) && i.wf in w.defs
  }

  ghost function SetThread(w: World, t: nat, th: Thread): World { w.(threads := w.threads[t := th]) }

  ghost function DropThread(w: World, t: nat): World { w.(threads := w.threads - {t}) }

  ghost function Goto(w: World, t: nat, pc: Pc): World
    requires IsWorker(w, t)
  {
    SetThread(w, t, w.threads[t].(pc := pc))
  }

  function LossOf(row: TimerRow, why: Loss): LostTimer { LostTimer(Ref(row.id, User(row.key)), why) }

  ghost function LoseRow(log: Log, row: TimerRow, why: Loss): Log { log.(lost := log.lost + {LossOf(row, why)}) }

  /** What performing an operation does to its task: the next program counter, a status shown, a value given. */
  datatype Performed = Performed(pc: Pc, shown: Option<Watch>, given: Option<Value>)

  /** A journaled operation reads its entry and branches on it. */
  ghost function PerformJournaled(j: Steps, now: nat, i: Id, h: History, op: Op): Performed
    requires op.IsJournaled()
  {
    var r := Ref(i, op.JournalKey());
    if IsCompleted(j, r) then
      if j[r].result.ty != op.Tag() then Performed(At(h + [Caught("type mismatch")]), None, None)
      else
        Performed(
          At(h + [Got(j[r].result)]),
          if (op.Step? || op.Suspend?) && j[r].status.Some? then Some(InProgress(j[r].status.value)) else None,
          Some(j[r].result))
    else if Lookup(j, r) == Some(Suspended) && op.Step? then
      Performed(At(h + [Caught("suspended step conflict")]), None, None)
    else if Lookup(j, r) == Some(Suspended) && !op.FanOut? then
      Performed(Finishing(h, SuspendedAt(op.key)), None, None)
    else
      match op
      case Step(_, _, _) => Performed(InClosure(h, 0), None, None)
      case Suspend(_, _) => Performed(Suspending(h, None), None, None)
      case Timer(_, d) => Performed(Suspending(h, Some(now + d)), None, None)
      case _ => Performed(InFanOut(h), None, None)
  }

  ghost function PerformEffect(j: Steps, now: nat, i: Id, h: History, op: Op): Performed {
    match op
    case Return(_) => Performed(Outputting(h), None, None)
    case Throw(e) => Performed(Finishing(h, Failure(e)), None, None)
    case SetStatus(m) => Performed(At(h + [Nothing]), Some(InProgress(m)), None)
    case _ =>
      if op.Timer? && !ValidUserKey(op.key) then Performed(At(h + [Caught("invalid key")]), None, None)
      else PerformJournaled(j, now, i, h, op)
  }

  ghost function PerformOp(w: World, t: nat): World
    requires TaskEnabled(w, t, Perform)
  {
    var i, op := w.threads[t].id, CurrentOp(w.threads[t]);
    var e := PerformEffect(w.store.steps, w.now, i, w.threads[t].pc.h, op);
    w.(threads := w.threads[t := w.threads[t].(pc := e.pc)],
       watch := if e.shown.Some? then w.watch[i := e.shown.value] else w.watch,
       late := if e.shown.Some? then w.late - {i} else w.late,
       log := if e.given.Some? then See(w.log, Ref(i, op.JournalKey()), e.given.value) else w.log)
  }

  ghost function See(log: Log, r: Ref, v: Value): Log { log.(seen := log.seen + {Sighting(r, v)}) }

  /** One attempt of a step closure comes back. `status` is what the instance last reported. */
  ghost function ClosurePc(h: History, n: nat, maxRetries: nat, status: Option<string>, o: Outcome): Pc {
    match o
    case Okay(v) => Saving(h, Completed(v, status), Got(v))
    case Permanent(e) => Saving(h, Failed(e), Caught(e))
    case Retryable(e) =>
      if n + 1 >= Attempts(maxRetries) then Saving(h, Failed(e), Caught(e)) else InClosure(h, n + 1)
    case TimedOut => At(h + [Caught(TIMED_OUT)])
  }

  ghost function ClosureReturns(w: World, t: nat, o: Outcome): World
    requires TaskEnabled(w, t, ClosureReturn(o))
  {
    var th := w.threads[t];
    Goto(w, t, ClosurePc(th.pc.h, th.pc.attempt, CurrentOp(th).maxRetries, WatchOf(w, th.id).CurrentStatus(), o))
  }

  ghost function FanOutReturns(w: World, t: nat, o: Outcome): World
    requires IsWorker(w, t) && (o.Okay? || o.Permanent?)
  {
    var h := w.threads[t].pc.h;
    match o
    case Okay(v) => Goto(w, t, Saving(h, Completed(v, None), Got(v)))
    case _ => Goto(w, t, At(h + [Caught(o.error)]))
  }

  ghost function SaveTxn(w: World, t: nat): World
    requires TaskEnabled(w, t, Save)
  {
    var th := w.threads[t];
    var r := Ref(th.id, CurrentOp(th).JournalKey());
    var log := if th.pc.seen.Got? then See(w.log, r, th.pc.seen.value) else w.log;
    w.(threads := w.threads[t := th.(pc := At(th.pc.h + [th.pc.seen]))],
       store := PutStep(w.store, r, th.pc.data),
       log := log.(
         writtenAt := log.writtenAt[r := th.pc.h],
         mishaps := log.mishaps + InEntry(r, th.pc.data)))
  }

  /** The log of a suspension: the timer row it inserts, and a row it may overwrite. */
  ghost function LogSuspension(log: Log, r: Ref, timer: Option<TimerKey>, timers: map<TimerKey, TimerRow>): Log {
    log.(
      timerSteps := if timer.Some? then log.timerSteps + {r} else log.timerSteps,
      rowsSet := if timer.Some? then Bump(log.rowsSet, timer.value) else log.rowsSet,
      lost := if timer.Some? && timer.value in timers
              then log.lost + {LossOf(timers[timer.value], Overwritten)} else log.lost)
  }

  ghost function SuspendedTxn(w: World, t: nat): World
    requires TaskEnabled(w, t, SaveSuspended)
  {
    var th := w.threads[t];
    var key := CurrentOp(th).key;
    var timer := if th.pc.deadline.Some? then Some(TimerKey(th.pc.deadline.value, w.serial)) else None;
    w.(threads := w.threads[t := th.(pc := Finishing(th.pc.h, SuspendedAt(key)))],
       watch := w.watch[th.id := Settled(Some(key))],
       store := SuspendTxn(w.store, th.id, key, timer),
       serial := if timer.Some? then w.serial + 1 else w.serial,
       late := w.late - {th.id},
       log := LogSuspension(w.log, Ref(th.id, User(key)), timer, w.store.timers))
  }

  function StatusOf(result: RunResult, last: Option<string>): MetadataStatus {
    match result
    case Success => Finished(last)
    case SuspendedAt(key) => SuspendedOn(key)
    case Failure(e) => Errored(e)
  }

  function FinalWatch(result: RunResult, last: Option<string>): Watch {
    match result
    case Success => Settled(last)
    case SuspendedAt(key) => Settled(Some(if last.Some? then last.value else key))
    case Failure(e) => Settled(Some(e))
  }

  ghost function LogResult(log: Log, i: Id, h: History, result: RunResult): Log {
    match result
    case Success => log.(final := log.final[i := h])
    case SuspendedAt(_) => log.(parked := Bump(log.parked, i))
    case Failure(_) => log
  }

  ghost function ResultTxn(w: World, t: nat): World
    requires TaskEnabled(w, t, WriteResult)
  {
    var i, pc := w.threads[t].id, w.threads[t].pc;
    var last := WatchOf(w, i).Message();
    w.(threads := w.threads[t := Announcing(i, FinalWatch(pc.result, last))],
       store := PutMeta(w.store, i, NewMetadata(StatusOf(pc.result, last), w.now / 1000)),
       tainted := if i in w.late then w.tainted + {i} else w.tainted - {i},
       log := LogResult(w.log, i, pc.h, pc.result))
  }

  ghost function AnnounceState(w: World, t: nat): World
    requires TaskEnabled(w, t, Announce)
  {
    var i := w.threads[t].id;
    w.(threads := w.threads - {t},
       watch := w.watch[i := w.threads[t].state],
       late := if Owned(w, i) then w.late + {i} else w.late)
  }

  ghost function SignalTxn(w: World, t: nat, id: Id, key: string, v: Value): World {
    if ClaimOutcome(w.store, id, key) == Claimed then
      w.(threads := w.threads[t := Claimant(id)],
         store := ClaimTxn(w.store, id, key, v),
         log := w.log.(claimed := Bump(w.log.claimed, id)))
    else
      w
  }

  /** A poll removes a row by its key. The row may be gone, or be another one by now. */
  ghost function LogRemoval(log: Log, e: Expired, timers: map<TimerKey, TimerRow>): Log {
    if e.k !in timers then log
    else
      var log1 := log.(polled := Bump(log.polled, e.k));
      if timers[e.k] != e.row then LoseRow(log1, timers[e.k], Overwritten) else log1
  }

  /** What a poll step does: the rest of the batch, the tables, the log, and whether a task is spawned. */
  datatype Polled = Polled(batch: seq<Expired>, stage: PollPc, store: Store, log: Log, spawns: bool)

  ghost function PollClaimEffect(s: Store, log: Log, batch: seq<Expired>): Polled
    requires |batch| > 0
  {
    var row := batch[0].row;
    match ClaimOutcome(s, row.id, row.key)
    case Claimed =>
      Polled(batch, Fired, ClaimTxn(s, row.id, row.key, UNIT), log.(claimed := Bump(log.claimed, row.id)), false)
    case Superseded => Polled(batch[1..], Resting, s, LoseRow(log, row, Outrun), false)
    case _ => Polled([], Resting, s, LoseRow(log, row, Aborted), false)
  }

  /**
   After Skipped and Outrun the poll goes on with the next row. Any other error ends it, and the
   rows it has not reached stay in the table.
   */
  ghost function PollEffect(s: Store, log: Log, defs: map<string, Definition>, batch: seq<Expired>, a: PollAction)
    : Polled
    requires a.Collect? || |batch| > 0
  {
    match a
    case Collect(due) => Polled(due, Resting, s, log, false)
    case RemoveRow => Polled(batch, Removed, RemoveTimer(s, batch[0].k), LogRemoval(log, batch[0], s.timers), false)
    case CheckMeta =>
      if IsSuspended(s.meta, batch[0].row.id) then Polled(batch, Checked, s, log, false)
      else Polled(batch[1..], Resting, s, LoseRow(log, batch[0].row, Skipped), false)
    case PollClaim => PollClaimEffect(s, log, batch)
    case PollSpawn(_) =>
      if batch[0].row.id.wf in defs then Polled(batch[1..], Resting, s, log, true)
      else Polled([], Resting, s, log, false)
  }

  /** Timer rows that a poller has removed but not yet claimed. */
  ghost function InHand(w: World): set<LostTimer> {
    set t | t in w.threads && w.threads[t].Poller? && |w.threads[t].batch| > 0 &&
            (w.threads[t].stage.Removed? || w.threads[t].stage.Checked?)
          :: LostTimer(Ref(w.threads[t].batch[0].row.id, User(w.threads[t].batch[0].row.key)), CutOff)
  }

  ghost function CleanupTxn(w: World, id: Id): World {
    w.(store := DeleteTxn(w.store, id),
       log := w.log.(
         inputs := (map i | i in w.log.inputs && !Under(i, id) :: w.log.inputs[i]),
         seen := (set s | s in w.log.seen && !Under(s.ref.id, id)),
         final := (map i | i in w.log.final && !Under(i, id) :: w.log.final[i]),
         timerSteps := (set r | r in w.log.timerSteps && !Under(r.id, id)),
         lost := (set l | l in w.log.lost && !Under(l.ref.id, id)),
         cleaned := w.log.cleaned + {id}))
  }

  ghost function ApiNext(w: World, t: nat, a: ApiAction): World
    requires ApiEnabled(w, t, a)
  {
    match a
    case Invoke(id, input) =>
      w.(threads := w.threads[t := Launch(id)],
         store := SpawnTxn(w.store, id, input),
         log := w.log.(
           used := w.log.used + {id},
           inputs := if input.Some? then w.log.inputs[id := input.value] else w.log.inputs))
    case Resume(id) =>
      w.(threads := w.threads[t := Launch(id)],
         store := SpawnTxn(w.store, id, None),
         log := w.log.(used := w.log.used + {id}))
    case Signal(id, key, v) => SignalTxn(w, t, id, key, v)
    case DropClaim => DropThread(w, t)
    case Spawn =>
      var id := w.threads[t].id;
      w.(threads := w.threads[t := Starting(id)], watch := w.watch[id := Started], late := w.late - {id})
  }

  ghost function TaskNext(w: World, t: nat, a: TaskAction): World
    requires TaskEnabled(w, t, a)
  {
    match a
    case ReadInput =>
      var i := w.threads[t].id;
      SetThread(w, t, Worker(i, BodyOf(w.defs[i.wf], w.store.steps, i), At([])))
    case Perform => PerformOp(w, t)
    case ClosureReturn(o) => ClosureReturns(w, t, o)
    case ChildStep(r, d) =>
      w.(store := PutStep(w.store, r, d), log := w.log.(mishaps := w.log.mishaps + InEntry(r, d)))
    case ChildMeta(c, m) =>
      w.(store := PutMeta(w.store, c, m), log := w.log.(mishaps := w.log.mishaps + InRecord(c, m)))
    case Gather(o) => FanOutReturns(w, t, o)
    case Save => SaveTxn(w, t)
    case SaveSuspended => SuspendedTxn(w, t)
    case WriteOutput =>
      var i, pc, op := w.threads[t].id, w.threads[t].pc, CurrentOp(w.threads[t]);
      w.(threads := w.threads[t := w.threads[t].(pc := Finishing(pc.h, Success))],
         store := PutStep(w.store, Ref(i, Output), Completed(op.out, None)))
    case WriteResult => ResultTxn(w, t)
    case Announce => AnnounceState(w, t)
    case Panic => DropThread(w, t)
  }

  ghost function PollNext(w: World, t: nat, a: PollAction): World
    requires PollEnabled(w, t, a)
  {
    var batch := w.threads[t].batch;
    var e := PollEffect(w.store, w.log, w.defs, batch, a);
    var w' := w.(threads := w.threads[t := Poller(e.batch, e.stage)], store := e.store, log := e.log);
    if a.PollSpawn? && e.spawns then
      var id := batch[0].row.id;
      w'.(threads := w'.threads[a.t2 := Starting(id)], watch := w.watch[id := Started], late := w.late - {id})
    else w'
  }

  ghost function EngineNext(w: World, a: EngineAction): World
    requires EngineEnabled(w, a)
  {
    match a
    case Tick(d) => w.(now := w.now + d)
    case Cleanup(id) => CleanupTxn(w, id)
    case Stop => w.(running := false)
    case Crash(exit) =>
      w.(threads := map[], running := false,
         serial := if exit then 0 else w.serial,
         watch := if exit then map[] else w.watch,
         log := w.log.(lost := w.log.lost + InHand(w)))
    case Start(p, t, recover) =>
      w.(running := true,
         threads := map[p := Poller([], Resting), t := Recovery(if recover then Recoverable(w) else {})])
    case RecoverOne(t, t2, id) =>
      w.(threads := w.threads[t := Recovery(w.threads[t].todo - {id})][t2 := Launch(id)],
         store := SpawnTxn(w.store, id, None))
    case RecoverDone(t) => DropThread(w, t)
  }

  ghost function Next(w: World, a: Action): World
    requires Enabled(w, a)
  {
    match a
    case Api(t, x) => ApiNext(w, t, x)
    case Task(t, x) => TaskNext(w, t, x)
    case Poll(t, x) => PollNext(w, t, x)
    case Engine(x) => EngineNext(w, x)
  }

  /** Retention deletes `i`, alone or with an instance that it lies under. */
  predicate DeletedBy(a: Action, i: Id) { a.Engine? && a.event.Cleanup? && Under(i, a.event.id) }

  /** The world after a finite schedule, None when some action is not enabled where it is taken. */
  ghost function After(w: World, run: seq<Action>): Option<World> {
    if |run| == 0 then Some(w)
    else
      var before := After(w, run[..|run| - 1]);
      var a := run[|run| - 1];
      if before.Some? && Enabled(before.value, a) then Some(Next(before.value, a)) else None
  }

  ghost predicate Reachable(defs: map<string, Definition>, w: World) {
    exists run :: After(Initial(defs), run) == Some(w)
  }
}
