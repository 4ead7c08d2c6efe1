/**
 The engine object: its running flag, its tasks and its status senders, and the calls that change
 them. A call that is refused changes nothing; a start re-spawns exactly what was Running.
 */
module Engines {
  import opened Options
  import opened Storage
  import opened Workflows
  import opened Keys
  import opened Retention
  import opened Tables
  import opened Protocol

  datatype Answer = Accepted | NotStarted | WorkflowNotFound | InvalidKey | Refused(why: ClaimResult)

  /** A spawned task, by the strings that it was given. */
  type Task = (string, string)

  function TaskOf(i: Id): Task { (i.wf, Instance(i)) }

  // ---- What a poll does to the tables, row by row ------------------------------------------------

  ghost function PollRow(s: Store, e: Expired): Store {
    var s1 := RemoveTimer(s, e.k);
    if IsSuspended(s1.meta, e.row.id) then ClaimTxn(s1, e.row.id, e.row.key, UNIT) else s1
  }

  ghost function PollRows(s: Store, batch: seq<Expired>): Store
    decreases |batch|
  {
    if |batch| == 0 then s else PollRow(PollRows(s, batch[..|batch| - 1]), batch[|batch| - 1])
  }

  /** The rows of the batch are gone, all other rows are there; only claims touch steps and metadata. */
  lemma {:induction false} PollTakesRows(s: Store, batch: seq<Expired>)
    ensures PollRows(s, batch).timers == s.timers - (set n | 0 <= n < |batch| :: batch[n].k)
    ensures forall i :: IsSuspended(PollRows(s, batch).meta, i) ==> IsSuspended(s.meta, i)
    ensures forall i :: Lookup(PollRows(s, batch).meta, i) != Lookup(s.meta, i) ==>
      IsSuspended(s.meta, i) && Lookup(PollRows(s, batch).meta, i) == Some(Metadata(Running, None))
    decreases |batch|
  {
    if |batch| > 0 {
      var n := |batch| - 1;
      PollTakesRows(s, batch[..n]);
      assert forall m :: 0 <= m < n ==> batch[..n][m] == batch[m];
      assert (set m | 0 <= m < |batch| :: batch[m].k) == (set m | 0 <= m < n :: batch[..n][m].k) + {batch[n].k};
    }
  }

  /** No due timer is overslept: the poll wakes every instance that waits for one of its rows. */
  lemma {:induction false} PollWakes(s: Store, batch: seq<Expired>, n: nat)
    requires n < |batch| && ClaimOutcome(s, batch[n].row.id, batch[n].row.key) == Claimed
    ensures IsRunning(PollRows(s, batch).meta, batch[n].row.id)
    decreases |batch|
  {
    var last, i := |batch| - 1, batch[n].row.id;
    PollTakesRows(s, batch[..last]);
    if n < last {
      PollWakes(s, batch[..last], n);
    } else if IsSuspended(PollRows(s, batch[..last]).meta, i) {
      StillClaimable(s, batch[..last], i, batch[n].row.key);
    } else {
      assert Lookup(PollRows(s, batch[..last]).meta, i) == Some(Metadata(Running, None));
    }
  }

  /** As long as nobody has claimed the instance, its suspended steps stay as they are. */
  lemma {:induction false} StillClaimable(s: Store, batch: seq<Expired>, i: Id, key: string)
    requires ClaimOutcome(s, i, key) == Claimed && IsSuspended(PollRows(s, batch).meta, i)
    ensures ClaimOutcome(PollRows(s, batch), i, key) == Claimed
    decreases |batch|
  {
    if |batch| > 0 { StillClaimable(s, batch[..|batch| - 1], i, key); }
  }

  lemma ClaimIgnoresTimers(s: Store, k: TimerKey, row: TimerRow)
    ensures ClaimOutcome(RemoveTimer(s, k), row.id, row.key) == ClaimOutcome(s, row.id, row.key)
  {
  }

  /** An error other than a lost claim ends the poll: the step is gone, or claimed for an unregistered workflow. */
  predicate StopsAt(s: Store, row: TimerRow, workflows: map<string, Definition>) {
    IsSuspended(s.meta, row.id) &&
    match ClaimOutcome(s, row.id, row.key)
    case Claimed => row.id.wf !in workflows
    case Superseded => false
    case _ => true
  }

  predicate PassedOver(answer: Option<Answer>) {
    answer.None? || answer.value == Accepted || answer.value == Refused(Superseded)
  }

  predicate Wakes(s: Store, row: TimerRow, workflows: map<string, Definition>) {
    ClaimOutcome(s, row.id, row.key) == Claimed && row.id.wf in workflows
  }

  /** What the state machine makes of the first row of a batch when nobody else acts in between. */
  ghost function PollAlone(s: Store, log: Log, workflows: map<string, Definition>, batch: seq<Expired>): Polled
    requires |batch| > 0
  {
    var removed := PollEffect(s, log, workflows, batch, RemoveRow);
    var checked := PollEffect(removed.store, removed.log, workflows, removed.batch, CheckMeta);
    if !checked.stage.Checked? then checked
    else
      var claimed := PollEffect(checked.store, checked.log, workflows, checked.batch, PollClaim);
      if claimed.stage.Fired? then PollEffect(claimed.store, claimed.log, workflows, claimed.batch, PollSpawn(0))
      else claimed
  }

  /** The engine's poll of a row is that of the state machine: the tables, the task, and whether rows are left. */
  lemma PollFollowsProtocol(s: Store, log: Log, workflows: map<string, Definition>, batch: seq<Expired>)
    requires |batch| > 0
    ensures
      var e := PollAlone(s, log, workflows, batch);
      && e.stage.Resting? && e.store == PollRow(s, batch[0])
      && (e.spawns <==> Wakes(s, batch[0].row, workflows))
      && e.batch == if StopsAt(s, batch[0].row, workflows) then [] else batch[1..]
  {
    ClaimIgnoresTimers(s, batch[0].k, batch[0].row);
  }

  /** The tasks that polling these rows spawns, in order. */
  ghost function PolledTasks(s: Store, batch: seq<Expired>, workflows: map<string, Definition>): seq<Task>
    decreases |batch|
  {
    if |batch| == 0 then []
    else
      var n := |batch| - 1;
      PolledTasks(s, batch[..n], workflows) +
      if Wakes(PollRows(s, batch[..n]), batch[n].row, workflows) then [TaskOf(batch[n].row.id)] else []
  }

  /** Polling got as far as row `done`, and no row before that ended it. */
  ghost predicate PassesOver(s: Store, batch: seq<Expired>, done: nat, workflows: map<string, Definition>) {
    done <= |batch| && forall n :: 0 <= n < done ==> !StopsAt(PollRows(s, batch[..n]), batch[n].row, workflows)
  }

  lemma PassesOverNext(s: Store, batch: seq<Expired>, n: nat, workflows: map<string, Definition>)
    requires n < |batch| && PassesOver(s, batch, n, workflows)
    requires !StopsAt(PollRows(s, batch[..n]), batch[n].row, workflows)
    ensures PassesOver(s, batch, n + 1, workflows)
  {
  }

  /** Row `done - 1` ended the poll, and no row before it. */
  ghost predicate EndsBefore(s: Store, batch: seq<Expired>, done: nat, workflows: map<string, Definition>) {
    && 0 < done <= |batch| && PassesOver(s, batch, done - 1, workflows)
    && StopsAt(PollRows(s, batch[..done - 1]), batch[done - 1].row, workflows)
  }

  /** The rows of `batch` have been polled: the tables are `s'`, and the list of tasks has grown from `before`. */
  ghost predicate HasPolled(s: Store, batch: seq<Expired>, workflows: map<string, Definition>, s': Store,
                            before: seq<Task>, after: seq<Task>)
  {
    s' == PollRows(s, batch) && after == before + PolledTasks(s, batch, workflows)
  }

  lemma HasPolledNext(s: Store, batch: seq<Expired>, n: nat, workflows: map<string, Definition>, before: seq<Task>)
    requires n < |batch|
    ensures
      var s1 := PollRows(s, batch[..n]);
      var woken := if Wakes(s1, batch[n].row, workflows) then [TaskOf(batch[n].row.id)] else [];
      HasPolled(s, batch[..n + 1], workflows, PollRow(s1, batch[n]), before,
        before + PolledTasks(s, batch[..n], workflows) + woken)
  {
    assert batch[..n + 1][..n] == batch[..n];
  }

  /** A listing of exactly the rows that are due, each once. */
  ghost predicate IsDueListing(timers: map<TimerKey, TimerRow>, nowMillis: nat, batch: seq<Expired>) {
    && (forall n :: 0 <= n < |batch| ==>
          batch[n].k in timers && batch[n].k.deadline <= nowMillis && batch[n].row == timers[batch[n].k])
    && (forall k :: k in timers && k.deadline <= nowMillis ==> exists n :: 0 <= n < |batch| && batch[n].k == k)
    && (forall m, n :: 0 <= m < n < |batch| ==> batch[m].k != batch[n].k)
  }

  lemma DueListing(timers: map<TimerKey, TimerRow>, nowMillis: nat, expired: seq<(TimerKey, TimerEntry)>,
                   batch: seq<Expired>)
    requires |batch| == |expired|
    requires forall n :: 0 <= n < |batch| ==>
      && expired[n].0 in timers && expired[n].0.deadline <= nowMillis
      && batch[n] == Expired(expired[n].0, timers[expired[n].0])
    requires forall k :: k in timers && k.deadline <= nowMillis ==> exists n :: 0 <= n < |expired| && expired[n].0 == k
    requires forall m, n :: 0 <= m < n < |expired| ==> expired[m].0 != expired[n].0
    ensures IsDueListing(timers, nowMillis, batch)
  {
  }

  function TasksOf(ids: seq<Id>): (tasks: seq<Task>)
    ensures |tasks| == |ids| && forall n :: 0 <= n < |ids| ==> tasks[n] == TaskOf(ids[n])
  {
    seq(|ids|, n requires 0 <= n < |ids| => TaskOf(ids[n]))
  }

  predicate Distinct(ids: seq<Id>) { forall m, n :: 0 <= m < n < |ids| ==> ids[m] != ids[n] }

  /** A listing of instances of one workflow. */
  ghost predicate RowsOf(meta: Metas, wf: string, rows: seq<(string, Metadata)>, ids: seq<Id>) {
    && |rows| == |ids|
    && forall n :: 0 <= n < |ids| ==>
         ids[n] in meta && ValidId(ids[n]) && ids[n].wf == wf && rows[n] == (Instance(ids[n]), meta[ids[n]])
  }

  /** The Running ones, in order. */
  function RunningOf(meta: Metas, ids: seq<Id>): seq<Id> {
    if |ids| == 0 then []
    else
      var last := ids[|ids| - 1];
      RunningOf(meta, ids[..|ids| - 1]) + if IsRunning(meta, last) then [last] else []
  }

  lemma {:induction false} RunningOfIs(meta: Metas, ids: seq<Id>)
    requires Distinct(ids)
    ensures forall i :: i in RunningOf(meta, ids) <==> i in ids && IsRunning(meta, i)
    ensures Distinct(RunningOf(meta, ids))
  {
    if |ids| > 0 {
      var front, last := ids[..|ids| - 1], ids[|ids| - 1];
      RunningOfIs(meta, front);
      assert last !in front;
      assert ids == front + [last];
    }
  }

  lemma RowOf(meta: Metas, wf: string, rows: seq<(string, Metadata)>, ids: seq<Id>, n: nat)
    requires RowsOf(meta, wf, rows, ids) && n < |rows|
    ensures n < |ids| && ValidId(ids[n]) && TaskOf(ids[n]) == (wf, rows[n].0)
    ensures rows[n].1.status == Running <==> IsRunning(meta, ids[n])
  {
  }

  lemma RunningTasksNext(before: seq<Task>, meta: Metas, ids: seq<Id>, n: nat)
    requires n < |ids|
    ensures before + TasksOf(RunningOf(meta, ids[..n + 1])) ==
            before + TasksOf(RunningOf(meta, ids[..n])) + if IsRunning(meta, ids[n]) then [TaskOf(ids[n])] else []
  {
    assert ids[..n + 1][..n] == ids[..n];
  }

  /** `spawned` are the Running instances of the workflows seen so far, each once. */
  ghost predicate AllRunningOf(meta: Metas, names: set<string>, spawned: seq<Id>) {
    Distinct(spawned) && forall i :: i in spawned <==> IsRunning(meta, i) && i.wf in names
  }

  lemma AllRunningNext(before: seq<Task>, meta: Metas, all: set<string>, todo: set<string>, spawned: seq<Id>,
                       wf: string, more: seq<Id>)
    requires AllRunningOf(meta, all - todo, spawned) && wf in todo && todo <= all && AllRunningOf(meta, {wf}, more)
    ensures AllRunningOf(meta, all - (todo - {wf}), spawned + more)
    ensures before + TasksOf(spawned + more) == before + TasksOf(spawned) + TasksOf(more)
  {
  }

  lemma AlreadyRunning(s: Store, i: Id)
    requires Stamped(s.meta) && IsRunning(s.meta, i)
    ensures SpawnTxn(s, i, None) == s
  {
  }

  /** The sending end of a watch channel, and how often its subscribers have been woken through it. */
  datatype Sender = Sender(channel: nat, value: Watch, wakeups: nat)

  /**
   The instance has a sender that shows Started: the one it had, without a subscriber being woken, or
   one with a channel of its own. The other senders are as they were.
   */
  ghost predicate SenderReady(before: map<string, Sender>, after: map<string, Sender>, instance: string) {
    && after.Keys == before.Keys + {instance} && after[instance].value == Started
    && (forall name :: name in before && name != instance ==> after[name] == before[name])
    && (if instance in before then
          after[instance].channel == before[instance].channel && after[instance].wakeups == before[instance].wakeups
        else
          && after[instance].wakeups == 0
          && forall name :: name in before ==> before[name].channel != after[instance].channel)
  }

  class Engine {
    const db: Database
    const workflows: map<string, Definition>
    var running: bool
    var tasks: seq<Task>
    var senders: map<string, Sender>
    var channels: nat

    ghost predicate Valid()
      reads this, db
    {
      && db.Valid() && (forall wf :: wf in workflows ==> SlashFree(wf))
      && forall name :: name in senders ==> senders[name].channel < channels
    }

    constructor (db: Database, workflows: map<string, Definition>)
      requires db.Valid() && forall wf :: wf in workflows ==> SlashFree(wf)
      ensures Valid() && !running && tasks == [] && senders == map[] && this.db == db && this.workflows == workflows
    {
      this.db, this.workflows := db, workflows;
      running, tasks, senders, channels := false, [], map[], 0;
    }

    /** A sender for the instance that shows Started: an existing one is kept, and reset silently. */
    method GetOrCreateSender(instance: string)
      requires Valid()
      modifies this`senders, this`channels
      ensures Valid() && SenderReady(old(senders), senders, instance)
    {
      if instance in senders {
        senders := senders[instance := senders[instance].(value := Started)];
        return;
      }
      senders := senders[instance := Sender(channels, Started, 0)];
      channels := channels + 1;
    }

    method Spawn(wf: string, instance: string)
      requires Valid()
      modifies this`senders, this`channels, this`tasks
      ensures Valid() && tasks == old(tasks) + [(wf, instance)]
      ensures SenderReady(old(senders), senders, instance)
    {
      GetOrCreateSender(instance);
      tasks := tasks + [(wf, instance)];
    }

    /** Starts a run of an instance, for an invocation, a resume or a recovery. */
    method SpawnWorkflow(wf: string, instance: string, input: Option<Value>, ghost i: Id) returns (answer: Answer)
      requires Valid() && (SlashFree(wf) ==> ValidId(i) && i.wf == wf && Instance(i) == instance)
      modifies this`senders, this`channels, this`tasks, db
      ensures Valid()
      ensures answer.Accepted? <==> SlashFree(wf) && running && wf in workflows
      ensures answer.Accepted? ==>
        && db.model == SpawnTxn(old(db.model), i, input) && tasks == old(tasks) + [(wf, instance)]
        && SenderReady(old(senders), senders, instance)
      ensures !answer.Accepted? ==>
        db.model == old(db.model) && tasks == old(tasks) && senders == old(senders)
    {
      if '/' in wf { return InvalidKey; }
      if !running { return NotStarted; }
      if wf !in workflows { return WorkflowNotFound; }
      db.MarkRunning(wf, instance, input, i);
      Spawn(wf, instance);
      answer := Accepted;
    }

    method Resume(wf: string, instance: string) returns (answer: Answer)
      requires Valid() && SlashFree(wf)
      modifies this`senders, this`channels, this`tasks, db
      ensures Valid()
      ensures answer.Accepted? <==> SlashFree(instance) && running && wf in workflows
      ensures answer.Accepted? ==>
        && db.model == PutMeta(old(db.model), Id(wf, [instance]), Metadata(Running, None))
        && tasks == old(tasks) + [(wf, instance)] && SenderReady(old(senders), senders, instance)
      ensures !answer.Accepted? ==>
        db.model == old(db.model) && tasks == old(tasks) && senders == old(senders)
    {
      if '/' in instance { return InvalidKey; }
      answer := SpawnWorkflow(wf, instance, None, Id(wf, [instance]));
    }

    /**
     Delivers a signal. The claim is committed before the engine looks whether it still runs: if it
     does not, the instance is left Running without a task, and the next start picks it up.
     */
    method Signal(wf: string, instance: string, key: string, payload: Value) returns (answer: Answer)
      requires Valid() && SlashFree(wf) && ValidUserKey(key)
      modifies this`senders, this`channels, this`tasks, db
      ensures Valid()
      ensures
        var i := Id(wf, [instance]);
        if !SlashFree(instance) then
          answer == InvalidKey && db.model == old(db.model) && tasks == old(tasks)
        else if ClaimOutcome(old(db.model), i, key) != Claimed then
          answer == Refused(ClaimOutcome(old(db.model), i, key)) && db.model == old(db.model) && tasks == old(tasks)
        else
          && Delivered(old(db.model), db.model, i, key, payload)
          && answer == (if !running then NotStarted else if wf !in workflows then WorkflowNotFound else Accepted)
          && tasks == old(tasks) + if answer.Accepted? then [(wf, instance)] else []
      ensures if answer.Accepted? then SenderReady(old(senders), senders, instance) else senders == old(senders)
    {
      if '/' in instance { return InvalidKey; }
      var claim := db.ClaimSuspendedStep(wf, instance, key, payload, Id(wf, [instance]));
      if claim != Claimed { return Refused(claim); }
      answer := SpawnClaimed(wf, instance);
    }

    /** What follows a claim. */
    method SpawnClaimed(wf: string, instance: string) returns (answer: Answer)
      requires Valid()
      modifies this`senders, this`channels, this`tasks
      ensures Valid()
      ensures answer == if !running then NotStarted else if wf !in workflows then WorkflowNotFound else Accepted
      ensures tasks == old(tasks) + if answer.Accepted? then [(wf, instance)] else []
      ensures if answer.Accepted? then SenderReady(old(senders), senders, instance) else senders == old(senders)
    {
      if !running { return NotStarted; }
      answer := SpawnRegistered(wf, instance);
    }

    method SpawnRegistered(wf: string, instance: string) returns (answer: Answer)
      requires Valid()
      modifies this`senders, this`channels, this`tasks
      ensures Valid()
      ensures answer == if wf !in workflows then WorkflowNotFound else Accepted
      ensures tasks == old(tasks) + if answer.Accepted? then [(wf, instance)] else []
      ensures if answer.Accepted? then SenderReady(old(senders), senders, instance) else senders == old(senders)
    {
      if wf !in workflows { return WorkflowNotFound; }
      Spawn(wf, instance);
      answer := Accepted;
    }

    // ---- Start ---------------------------------------------------------------------------------

    /** Marking a Running instance Running again changes nothing. */
    method ResumeInstance(wf: string, instance: string, ghost i: Id)
      requires Valid() && running && wf in workflows && Stamped(db.model.meta)
      requires ValidId(i) && TaskOf(i) == (wf, instance) && IsRunning(db.model.meta, i)
      modifies this`senders, this`channels, this`tasks, db
      ensures Valid() && db.model == old(db.model)
      ensures tasks == old(tasks) + [TaskOf(i)]
    {
      AlreadyRunning(db.model, i);
      var answer := SpawnWorkflow(wf, instance, None, i);
    }

    method ResumeRows(wf: string, rows: seq<(string, Metadata)>, ghost ids: seq<Id>)
      requires Valid() && running && wf in workflows && Stamped(db.model.meta) && RowsOf(db.model.meta, wf, rows, ids)
      modifies this`senders, this`channels, this`tasks, db
      ensures Valid() && db.model == old(db.model)
      ensures tasks == old(tasks) + TasksOf(RunningOf(db.model.meta, ids))
    {
      ghost var model, before := db.model, tasks;
      for n := 0 to |rows|
        invariant Valid() && db.model == model
        invariant tasks == before + TasksOf(RunningOf(model.meta, ids[..n]))
      {
        RunningTasksNext(before, model.meta, ids, n);
        RowOf(model.meta, wf, rows, ids, n);
        if rows[n].1.status == Running { ResumeInstance(wf, rows[n].0, ids[n]); }
      }
      assert ids[..|rows|] == ids;
    }

    method ResumeWorkflow(wf: string) returns (ghost spawned: seq<Id>)
      requires Valid() && running && wf in workflows && Stamped(db.model.meta)
      modifies this`senders, this`channels, this`tasks, db
      ensures Valid() && db.model == old(db.model)
      ensures tasks == old(tasks) + TasksOf(spawned) && AllRunningOf(db.model.meta, {wf}, spawned)
    {
      var rows;
      ghost var ids;
      rows, ids := db.ListMetadata(wf);
      spawned := RunningOf(db.model.meta, ids);
      RunningOfIs(db.model.meta, ids);
      ResumeRows(wf, rows, ids);
    }

    /** Re-spawns every Running instance of every registered workflow, each exactly once. */
    method ResumeRunningInstances() returns (ghost spawned: seq<Id>)
      requires Valid() && running && Stamped(db.model.meta)
      modifies this`senders, this`channels, this`tasks, db
      ensures Valid() && db.model == old(db.model)
      ensures tasks == old(tasks) + TasksOf(spawned) && AllRunningOf(db.model.meta, workflows.Keys, spawned)
    {
      spawned := [];
      ghost var model := db.model;
      var names := workflows.Keys;
      while names != {}
        invariant names <= workflows.Keys
        invariant Valid() && db.model == model
        invariant tasks == old(tasks) + TasksOf(spawned) && AllRunningOf(model.meta, workflows.Keys - names, spawned)
      {
        var wf :| wf in names;
        ghost var more := ResumeWorkflow(wf);
        AllRunningNext(old(tasks), model.meta, workflows.Keys, names, spawned, wf, more);
        spawned := spawned + more;
        names := names - {wf};
      }
    }

    /** `resumeOnStart` is the engine's setting. The pollers that a start also spawns are not listed in `tasks`. */
    method Start(resumeOnStart: bool) returns (ghost spawned: seq<Id>)
      requires Valid() && !running && Stamped(db.model.meta)
      modifies this, db
      ensures Valid() && running && db.model == old(db.model)
      ensures tasks == old(tasks) + TasksOf(spawned)
      ensures AllRunningOf(db.model.meta, if resumeOnStart then workflows.Keys else {}, spawned)
    {
      running := true;
      spawned := [];
      if resumeOnStart { spawned := ResumeRunningInstances(); }
    }

    // ---- Timers --------------------------------------------------------------------------------

    /** Completes a timer's step with unit. */
    method ClaimTimer(entry: TimerEntry, ghost row: TimerRow) returns (claim: ClaimResult)
      requires Valid() && EntryTie(entry, row)
      modifies db
      ensures Valid() && db.model == ClaimTxn(old(db.model), row.id, row.key, UNIT)
      ensures claim == ClaimOutcome(old(db.model), row.id, row.key)
    {
      claim := db.ClaimSuspendedStep(entry.workflow, entry.instance, entry.key, UNIT, row.id);
    }

    /** Completes a timer's step with unit, as a signal does, and starts the instance. */
    method SignalTimer(entry: TimerEntry, ghost row: TimerRow) returns (answer: Answer)
      requires Valid() && EntryTie(entry, row)
      modifies this`senders, this`channels, this`tasks, db
      ensures Valid() && db.model == ClaimTxn(old(db.model), row.id, row.key, UNIT)
      ensures
        var claim := ClaimOutcome(old(db.model), row.id, row.key);
        answer == if claim != Claimed then Refused(claim)
                  else if row.id.wf !in workflows then WorkflowNotFound else Accepted
      ensures tasks == old(tasks) + if answer.Accepted? then [TaskOf(row.id)] else []
    {
      var claim := ClaimTimer(entry, row);
      if claim != Claimed { return Refused(claim); }
      answer := SpawnRegistered(entry.workflow, entry.instance);
    }

    /** One due timer: its row goes first; then its step is claimed if the instance still waits. */
    method PollTimer(k: TimerKey, entry: TimerEntry, ghost row: TimerRow) returns (answer: Option<Answer>)
      requires Valid() && EntryTie(entry, row)
      modifies this`senders, this`channels, this`tasks, db
      ensures Valid() && db.model == PollRow(old(db.model), Expired(k, row))
      ensures answer.None? <==> !IsSuspended(old(db.model).meta, row.id)
      ensures tasks == old(tasks) + if Wakes(old(db.model), row, workflows) then [TaskOf(row.id)] else []
      ensures PassedOver(answer) <==> !StopsAt(old(db.model), row, workflows)
      ensures k !in db.model.timers
      ensures ClaimOutcome(old(db.model), row.id, row.key) == Claimed ==>
        Lookup(db.model.steps, Ref(row.id, User(row.key))) == Some(Completed(UNIT, None))
    {
      ghost var model := db.model;
      db.DropTimer(k);
      var suspended := IsStillSuspended(entry, row);
      if suspended {
        var a := SignalTimer(entry, row);
        ClaimIgnoresTimers(model, k, row);
        answer := Some(a);
      } else {
        answer := None;
      }
    }

    method IsStillSuspended(entry: TimerEntry, ghost row: TimerRow) returns (suspended: bool)
      requires Valid() && EntryTie(entry, row)
      ensures suspended <==> IsSuspended(db.model.meta, row.id)
    {
      var meta := db.ReadMetadata(entry.workflow, entry.instance, row.id);
      suspended := meta.Some? && meta.value.status.SuspendedOn?;
    }

    /** The rows of a listing, one after the other, up to the first error that is not a lost claim. */
    method PollListed(expired: seq<(TimerKey, TimerEntry)>, ghost batch: seq<Expired>)
      returns (ok: bool, ghost done: nat)
      requires Valid() && |batch| == |expired|
      requires forall n :: 0 <= n < |batch| ==> batch[n].k == expired[n].0 && EntryTie(expired[n].1, batch[n].row)
      modifies this`senders, this`channels, this`tasks, db
      ensures Valid() && done <= |batch|
      ensures HasPolled(old(db.model), batch[..done], workflows, db.model, old(tasks), tasks)
      ensures ok ==> done == |batch| && PassesOver(old(db.model), batch, done, workflows)
      ensures !ok ==> EndsBefore(old(db.model), batch, done, workflows)
    {
      done, ok := 0, true;
      ghost var model, before := db.model, tasks;
      for n := 0 to |expired|
        invariant done == n && Valid() && HasPolled(model, batch[..n], workflows, db.model, before, tasks)
        invariant PassesOver(model, batch, n, workflows)
      {
        ghost var row := batch[n].row;
        var answer := PollTimer(expired[n].0, expired[n].1, row);
        HasPolledNext(model, batch, n, workflows, before);
        done := n + 1;
        if !PassedOver(answer) {
          ok := false;
          return;
        }
        PassesOverNext(model, batch, n, workflows);
      }
    }

    /**
     One poll: the due rows, one after the other. A superseded claim is passed over; any other error
     ends the poll, and the rows that it has not reached stay.
     */
    method PollTimers(nowMillis: nat) returns (ok: bool, ghost batch: seq<Expired>, ghost done: nat)
      requires Valid()
      modifies this`senders, this`channels, this`tasks, db
      ensures Valid() && IsDueListing(old(db.model).timers, nowMillis, batch)
      ensures done <= |batch| && HasPolled(old(db.model), batch[..done], workflows, db.model, old(tasks), tasks)
      ensures ok ==> done == |batch| && PassesOver(old(db.model), batch, done, workflows)
      ensures !ok ==> EndsBefore(old(db.model), batch, done, workflows)
    {
      var expired := db.CollectExpiredTimers(nowMillis);
      ghost var model := db.model;
      batch := seq(|expired|, n requires 0 <= n < |expired| && expired[n].0 in model.timers =>
        Expired(expired[n].0, model.timers[expired[n].0]));
      DueListing(model.timers, nowMillis, expired, batch);
      ok, done := PollListed(expired, batch);
    }
  }
}
