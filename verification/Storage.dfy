/** Plain option type used across the project. */
module Options {
  datatype Option<+T> = None | Some(value: T)
  {
    function GetOr(fallback: T): T { if Some? then value else fallback }
  }

  function Lookup<K, V>(m: map<K, V>, k: K): (v: Option<V>)
    ensures v.Some? <==> k in m
  {
    if k in m then Some(m[k]) else None
  }

  function Count<K>(m: map<K, nat>, k: K): nat {
    if k in m then m[k] else 0
  }

  function Indicator(b: bool): nat { if b then 1 else 0 }

  function Bump<K>(m: map<K, nat>, k: K): map<K, nat> {
    m[k := Count(m, k) + 1]
  }
}

/**
 The three persistent tables and the write transactions on them.

 Keys are structured here: an instance id is a workflow name and a path (one component for a
 top-level instance, one more for every level of fan-out). Database.dfy holds the same tables
 under the composite string keys that are really stored, and relates the two.
 */
module Storage {
  import opened Options

  /** A serialized payload. The type tag is the part of the envelope that is checked on reading. */
  datatype Value =
    | Data(ty: string, bytes: string)
    | Slots(ty: string, slots: seq<Slot>)

  /** One position of a fan-out result. */
  datatype Slot = Won(value: Value) | Lost(child: Id, message: string)

  datatype Id = Id(wf: string, path: seq<string>)

  datatype StepKey = User(name: string) | FanOutKey(name: string) | Input | Output

  datatype Ref = Ref(id: Id, key: StepKey)

  datatype StepData =
    | Completed(result: Value, status: Option<string>)
    | Suspended
    | Failed(error: string)

  datatype MetadataStatus =
    | Running
    | SuspendedOn(key: string)
    | Finished(message: Option<string>)
    | Errored(error: string)
  {
    predicate IsTerminal() { Finished? || Errored? }
  }

  datatype Metadata = Metadata(status: MetadataStatus, completedAt: Option<nat>)

  /** A record as it is made: exactly the terminal ones carry a time. */
  predicate IsStamped(m: Metadata) { m.completedAt.Some? <==> m.status.IsTerminal() }

  function NewMetadata(status: MetadataStatus, nowSecs: nat): (m: Metadata)
    ensures m.status == status && IsStamped(m) && (status.IsTerminal() ==> m.completedAt == Some(nowSecs))
  {
    Metadata(status, if status.IsTerminal() then Some(nowSecs) else None)
  }

  datatype TimerKey = TimerKey(deadline: nat, serial: nat)

  datatype TimerRow = TimerRow(id: Id, key: string)

  datatype Store = Store(
    steps: Steps,
    meta: Metas,
    timers: map<TimerKey, TimerRow>)

  const EMPTY_STORE := Store(map[], map[], map[])

  const UNIT := Data("()", "")

  predicate TopLevel(i: Id) { |i.path| == 1 }

  /** `c` is `i` itself or one of its (nested) fan-out children. */
  predicate Under(c: Id, i: Id) { c.wf == i.wf && i.path <= c.path }

  type Steps = map<Ref, StepData>

  type Metas = map<Id, Metadata>

  predicate IsRunning(meta: Metas, i: Id) { i in meta && meta[i].status.Running? }

  predicate IsSuspended(meta: Metas, i: Id) { i in meta && meta[i].status.SuspendedOn? }

  predicate IsTerminal(meta: Metas, i: Id) { i in meta && meta[i].status.IsTerminal() }

  predicate IsCompleted(steps: Steps, r: Ref) { r in steps && steps[r].Completed? }

  function PutStep(s: Store, r: Ref, d: StepData): Store {
    s.(steps := s.steps[r := d])
  }

  function PutMeta(s: Store, i: Id, m: Metadata): Store {
    s.(meta := s.meta[i := m])
  }

  function RemoveTimer(s: Store, k: TimerKey): Store {
    s.(timers := s.timers - {k})
  }

  datatype ClaimResult = Claimed | StepMissing | Superseded | MetadataMissing

  /** The checks of a claim, in the order in which the transaction makes them. */
  function ClaimOutcome(s: Store, i: Id, key: string): ClaimResult {
    var r := Ref(i, User(key));
    if r !in s.steps then StepMissing
    else if s.steps[r] != Suspended then Superseded
    else if i !in s.meta then MetadataMissing
    else if !s.meta[i].status.SuspendedOn? then Superseded
    else Claimed
  }

  /** Claim a suspended step: complete it with `v` and mark the instance Running. */
  function ClaimTxn(s: Store, i: Id, key: string, v: Value): Store {
    if ClaimOutcome(s, i, key) == Claimed
    then PutMeta(PutStep(s, Ref(i, User(key)), Completed(v, None)), i, Metadata(Running, None))
    else s
  }

  /** The tables after `v` was delivered to the suspended step: completed with it, and the instance Running. */
  ghost predicate Delivered(s: Store, s': Store, i: Id, key: string, v: Value) {
    && s'.steps == s.steps[Ref(i, User(key)) := Completed(v, None)]
    && s'.meta == s.meta[i := Metadata(Running, None)] && s'.timers == s.timers
  }

  /** The transaction of an invocation or a resume. */
  function SpawnTxn(s: Store, i: Id, input: Option<Value>): Store {
    var s' := PutMeta(s, i, Metadata(Running, None));
    if input.Some? then PutStep(s', Ref(i, Input), Completed(input.value, None)) else s'
  }

  /** A Suspended step entry, with its timer row in the same transaction when it is a timer. */
  function SuspendTxn(s: Store, i: Id, key: string, timer: Option<TimerKey>): Store {
    var s' := PutStep(s, Ref(i, User(key)), Suspended);
    if timer.Some? then s'.(timers := s'.timers[timer.value := TimerRow(i, key)]) else s'
  }

  /** Retention's deletion of one instance: metadata, step subtree, the instance's own timers. */
  function DeleteTxn(s: Store, i: Id): Store {
    Store(
      map r | r in s.steps && !Under(r.id, i) :: s.steps[r],
      s.meta - {i},
      map k | k in s.timers && s.timers[k].id != i :: s.timers[k])
  }
}
