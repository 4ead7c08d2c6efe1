/**
 Workflows as strategies. A workflow function is deterministic code that calls the engine and
 gets results back; what it does next depends only on the results it has seen in this run. So a
 workflow is a function from that history to the next operation. It may loop for ever, and it
 may look at step errors and go on.
 */
module Workflows {
  import opened Options
  import opened Storage

  type History = seq<Seen>

  type Workflow = History -> Op

  /** What an operation gave back to the workflow. */
  datatype Seen = Nothing | Got(value: Value) | Caught(error: string)

  datatype Op =
    | Return(out: Value)
    | Throw(error: string)
    | SetStatus(msg: string)
    | Step(key: string, ty: string, maxRetries: nat)
    | Suspend(key: string, ty: string)
    | Timer(key: string, duration: nat)
    | FanOut(key: string, ty: string, failFast: bool, limit: Option<nat>, kids: seq<Workflow>)
  {
    predicate IsJournaled() { Step? || Suspend? || Timer? || FanOut? }

    /** The key under which the result of this operation is journaled. */
    function JournalKey(): StepKey
      requires IsJournaled()
    {
      if FanOut? then FanOutKey(key) else User(key)
    }

    /** The type tag that the reader of the journal entry insists on. */
    function Tag(): string
      requires IsJournaled()
    {
      if Timer? then UNIT.ty else ty
    }
  }

  /** How a registered workflow gets its body: from nothing, or from the stored input. */
  datatype Definition = NoInput(body: Workflow) | WithInput(ty: string, bodyFor: Value -> Workflow)

  function InputMissing(h: History): Op { Throw("input missing") }

  function InputMismatch(h: History): Op { Throw("type mismatch for step '_input'") }

  /** The body that a run of instance `i` executes, given what the journal holds under `_input`. */
  ghost function BodyOf(defn: Definition, j: Steps, i: Id): Workflow {
    match defn
    case NoInput(body) => body
    case WithInput(ty, bodyFor) =>
      if !IsCompleted(j, Ref(i, Input)) then
        InputMissing
      else if j[Ref(i, Input)].result.ty != ty then
        InputMismatch
      else
        bodyFor(j[Ref(i, Input)].result)
  }

  /** Keys with '/' would break the composite keys; a leading '_' is the engine's own. */
  predicate ValidUserKey(k: string) { '/' !in k && !(|k| > 0 && k[0] == '_') }

  /** The builders of operations assert these; a timer checks its key when it runs. */
  predicate LegalOp(op: Op) {
    && (op.Step? || op.Suspend? ==> ValidUserKey(op.key))
    && (op.FanOut? ==> '/' !in op.key)
  }

  /**
   What the journal makes of `op`, without anything being executed: nothing to give, the journaled
   value, or an error that the journal determines. None when the entry is open, so that something
   would have to be executed or waited for, and for an operation that ends the run.
   */
  ghost function Fed(j: Steps, i: Id, op: Op): Option<Seen> {
    if op.SetStatus? then Some(Nothing)
    else if !op.IsJournaled() || !LegalOp(op) then None
    else if op.Timer? && !ValidUserKey(op.key) then Some(Caught("invalid key"))
    else FedFromEntry(Lookup(j, Ref(i, op.JournalKey())), op)
  }

  function FedFromEntry(entry: Option<StepData>, op: Op): Option<Seen>
    requires op.IsJournaled()
  {
    match entry
    case Some(Completed(v, _)) => Some(if v.ty == op.Tag() then Got(v) else Caught("type mismatch"))
    case Some(Suspended) => if op.Step? then Some(Caught("suspended step conflict")) else None
    case _ => None
  }

  /** The history of a run that took every result from the journal of instance `i`. */
  ghost predicate Consistent(j: Steps, i: Id, wf: Workflow, h: History) {
    forall n :: 0 <= n < |h| ==> Fed(j, i, wf(h[..n])) == Some(h[n])
  }

  /** What an operation may have given a run whose journal is now `j`: an error may have been undone since. */
  ghost predicate Gives(j: Steps, i: Id, op: Op, seen: Seen) {
    Fed(j, i, op) == Some(seen) || (seen.Caught? && (op.Step? || op.FanOut?) && LegalOp(op))
  }

  /** As Consistent, but the run may also have been given errors that the journal does not determine. */
  ghost predicate Faithful(j: Steps, i: Id, wf: Workflow, h: History) {
    forall n :: 0 <= n < |h| ==> Gives(j, i, wf(h[..n]), h[n])
  }

  /** Every error in the history is one that the journal determines. */
  ghost predicate Determined(j: Steps, i: Id, wf: Workflow, h: History) {
    forall n :: 0 <= n < |h| && h[n].Caught? ==> Fed(j, i, wf(h[..n])) == Some(h[n])
  }

  predicate NoErrors(h: History) { forall n :: 0 <= n < |h| ==> !h[n].Caught? }

  /** The workflow hands every error it is given straight to its caller, as `?` does. */
  ghost predicate Propagates(wf: Workflow) {
    forall h: History :: !NoErrors(h) ==> wf(h).Throw?
  }

  /** Both operations are journaled, under one key. */
  predicate SameKey(a: Op, b: Op) { a.IsJournaled() && b.IsJournaled() && a.JournalKey() == b.JournalKey() }

  /** No journal key is used twice on the way through the workflow. */
  ghost predicate KeysOnce(wf: Workflow) {
    forall h: History, n: nat :: n < |h| ==> !SameKey(wf(h[..n]), wf(h))
  }

  /** No journal key is used again in a run after it gave an error. */
  ghost predicate NoKeyRetried(wf: Workflow) {
    forall h: History, n: nat :: n < |h| && h[n].Caught? ==> !SameKey(wf(h[..n]), wf(h))
  }

  /** Fed from the journal, the workflow comes to `h`, and its next operation would be executed or waited for. */
  ghost predicate OpenAt(j: Steps, i: Id, wf: Workflow, h: History) {
    Consistent(j, i, wf, h) && wf(h).IsJournaled() && LegalOp(wf(h)) && Fed(j, i, wf(h)).None?
  }

  ghost predicate Opens(j: Steps, i: Id, wf: Workflow) { exists h :: OpenAt(j, i, wf, h) }

  /** Fed from the journal, the workflow ends with `error`. */
  ghost predicate FailsWith(j: Steps, i: Id, wf: Workflow, error: string) {
    exists h :: Consistent(j, i, wf, h) && wf(h) == Throw(error)
  }

  /**
   The meaning of a workflow under a journal: run it, feeding every operation the journaled value
   of its key. It is done with `out` when some history fed that way leads to `Return(out)`.
   */
  ghost predicate Denotes(j: Steps, i: Id, wf: Workflow, h: History, out: Value) {
    Consistent(j, i, wf, h) && wf(h) == Return(out)
  }

  datatype Meaning = Done(out: Value) | NotDone

  ghost function Denote(j: Steps, i: Id, wf: Workflow): Meaning {
    if exists h, out :: Denotes(j, i, wf, h, out) then
      var h, out :| Denotes(j, i, wf, h, out);
      Done(out)
    else
      NotDone
  }
}
