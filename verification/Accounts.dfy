/**
 Where errors come from. A step that fails leaves a Failed entry, a step that times out leaves its entry
 open, and a fan-out fails with the error of a child, whose record says so. Every other error is one that
 the journal determines. The tables account for an error until its key is used again in the same run; from
 then on only the past does.
 */
module Accounts {
  import opened Options
  import opened Storage
  import opened Workflows
  import opened Keys

  /** An entry of a step that was once Failed, or a record of a child that was once Errored. */
  datatype Mishap = StepFailed(r: Ref, error: string) | ChildEnded(c: Id, message: string)

  /**
   What the tables hold of steps and records; which instances retention has deleted, and which failures
   were ever written, are history.
   */
  datatype Book = Book(steps: Steps, meta: Metas, gone: set<Id>, past: set<Mishap>)

  function InEntry(r: Ref, d: StepData): set<Mishap> { if d.Failed? then {StepFailed(r, d.error)} else {} }

  function InRecord(c: Id, m: Metadata): set<Mishap> {
    if m.status.Errored? then {ChildEnded(c, m.status.error)} else {}
  }

  const TIMED_OUT := "timeout"

  const PANICKED := "child task panicked"

  /** `c` is a proper descendant of `i`. */
  predicate Below(c: Id, i: Id) { Under(c, i) && c != i }

  /** `c` is a child of the fan-out `op` of `i`, or a descendant of one. */
  ghost predicate OfChild(i: Id, op: Op, c: Id)
    requires op.FanOut?
  {
    exists n: nat :: n < |op.kids| && Under(c, Child(i, op.key, n))
  }

  /** The message that the record of a failed child carries. */
  function ChildFailure(c: Id, error: string): (message: string)
    ensures |error| <= |message| && message[|message| - |error|..] == error
  {
    "step '" + Instance(c) + "' failed: " + error
  }

  /** The record of `c` says that it ended with `error`, or said so before retention took it. */
  predicate ChildFailed(b: Book, c: Id, error: string) {
    && ChildEnded(c, ChildFailure(c, error)) in b.past
    && (if c in b.meta then b.meta[c].status == Errored(ChildFailure(c, error)) else c in b.gone)
  }

  /** A fan-out that gives up has the error of one of its children. */
  ghost predicate ChildsError(b: Book, i: Id, op: Op, error: string)
    requires op.FanOut?
  {
    error == PANICKED || exists n: nat :: n < |op.kids| && ChildFailed(b, Child(i, op.key, n), error)
  }

  /** `op` gave this error at some time: as a timeout or a panic, or as a failure that was written then. */
  ghost predicate Happened(b: Book, i: Id, op: Op, error: string) {
    match op
    case Step(key, _, _) => error == TIMED_OUT || StepFailed(Ref(i, User(key)), error) in b.past
    case FanOut(key, _, _, _, kids) =>
      error == PANICKED ||
      exists n: nat :: n < |kids| && ChildEnded(Child(i, key, n), ChildFailure(Child(i, key, n), error)) in b.past
    case _ => false
  }

  /** The error that `op` gave has left its entry open, and is the one that the tables show. */
  ghost predicate Explains(b: Book, i: Id, op: Op, error: string) {
    && op.IsJournaled() && LegalOp(op) && Fed(b.steps, i, op).None? && Happened(b, i, op, error)
    && match op
       case Step(key, _, _) => error == TIMED_OUT || Lookup(b.steps, Ref(i, User(key))) == Some(Failed(error))
       case FanOut(_, _, _, _, _) => ChildsError(b, i, op, error)
       case _ => false
  }

  ghost predicate AccountedFor(b: Book, i: Id, op: Op, error: string) {
    Fed(b.steps, i, op) == Some(Caught(error)) || Explains(b, i, op, error)
  }

  /** After giving what is in position `n`, the key of that operation is used again in this run. */
  ghost predicate UsedAgain(wf: Workflow, h: History, n: nat)
    requires n <= |h|
  {
    exists m :: n < m <= |h| && SameKey(wf(h[..n]), wf(h[..m]))
  }

  /** The tables account for the error in position `n`, or the past does and its key has been used again. */
  ghost predicate Stands(b: Book, i: Id, wf: Workflow, h: History, n: nat)
    requires n < |h| && h[n].Caught?
  {
    || AccountedFor(b, i, wf(h[..n]), h[n].error)
    || (UsedAgain(wf, h, n) && Happened(b, i, wf(h[..n]), h[n].error))
  }

  ghost predicate ErrorsStand(b: Book, i: Id, wf: Workflow, h: History) {
    forall n :: 0 <= n < |h| && h[n].Caught? ==> Stands(b, i, wf, h, n)
  }

  /** The run of `wf` with history `h` is borne out by the tables. */
  ghost predicate BorneOut(b: Book, i: Id, wf: Workflow, h: History) {
    Faithful(b.steps, i, wf, h) && ErrorsStand(b, i, wf, h)
  }

  // ---- Tables that change ----------------------------------------------------------------------

  /** The entries that a run of `i` reads. */
  ghost predicate SameFeeds(j: Steps, j': Steps, i: Id) {
    forall r: Ref :: r.id == i && !r.key.Output? ==> Lookup(j', r) == Lookup(j, r)
  }

  /** What accounts for runs of `i` has not changed, save that retention may have taken records of children. */
  ghost predicate SameAccount(b: Book, b': Book, i: Id) {
    && SameFeeds(b.steps, b'.steps, i) && b.gone <= b'.gone && b.past <= b'.past
    && forall c :: Below(c, i) ==> Lookup(b'.meta, c) == Lookup(b.meta, c) || (c !in b'.meta && c in b'.gone)
  }

  lemma PastStays(b: Book, b': Book, i: Id, op: Op, error: string)
    requires Happened(b, i, op, error) && b.past <= b'.past
    ensures Happened(b', i, op, error)
  {
  }

  lemma AccountKept(b: Book, b': Book, i: Id, op: Op, error: string)
    requires AccountedFor(b, i, op, error) && SameAccount(b, b', i)
    ensures AccountedFor(b', i, op, error)
  {
  }

  lemma StandsKept(b: Book, b': Book, i: Id, wf: Workflow, h: History)
    requires ErrorsStand(b, i, wf, h) && SameAccount(b, b', i)
    ensures ErrorsStand(b', i, wf, h)
  {
    forall n | 0 <= n < |h| && h[n].Caught? ensures Stands(b', i, wf, h, n) {
      assert Stands(b, i, wf, h, n);
      if AccountedFor(b, i, wf(h[..n]), h[n].error) {
        AccountKept(b, b', i, wf(h[..n]), h[n].error);
      } else {
        PastStays(b, b', i, wf(h[..n]), h[n].error);
      }
    }
  }

  lemma BorneOutKept(b: Book, b': Book, i: Id, wf: Workflow, h: History)
    requires BorneOut(b, i, wf, h) && SameAccount(b, b', i)
    ensures BorneOut(b', i, wf, h)
  {
    StandsKept(b, b', i, wf, h);
  }

  lemma UsedAgainStays(wf: Workflow, h: History, seen: Seen, n: nat)
    requires n <= |h| && UsedAgain(wf, h, n)
    ensures UsedAgain(wf, h + [seen], n)
  {
    var m :| n < m <= |h| && SameKey(wf(h[..n]), wf(h[..m]));
    assert (h + [seen])[..n] == h[..n] && (h + [seen])[..m] == h[..m];
  }

  lemma StandsExtend(b: Book, i: Id, wf: Workflow, h: History, seen: Seen)
    requires ErrorsStand(b, i, wf, h) && (seen.Caught? ==> AccountedFor(b, i, wf(h), seen.error))
    ensures ErrorsStand(b, i, wf, h + [seen])
  {
    var h' := h + [seen];
    forall n | 0 <= n < |h'| && h'[n].Caught? ensures Stands(b, i, wf, h', n) {
      assert h'[..n] == h[..n];
      if n == |h| {
        assert h[..n] == h;
      } else {
        assert Stands(b, i, wf, h, n);
        if UsedAgain(wf, h, n) { UsedAgainStays(wf, h, seen, n); }
      }
    }
  }

  /** The entry may still be written: it answers no operation that uses its key. */
  predicate MayWrite(j: Steps, i: Id, op: Op)
    requires op.IsJournaled()
  {
    var r := Ref(i, op.JournalKey());
    !IsCompleted(j, r) && (Lookup(j, r) == Some(Suspended) ==> op.FanOut?)
  }

  /** The tables have changed only under the key of the next operation, which was open. */
  ghost predicate OnlyUnder(b: Book, b': Book, i: Id, op: Op)
    requires op.IsJournaled()
  {
    && (forall r: Ref :: r.id == i && !r.key.Output? && (r.key != op.JournalKey() || !MayWrite(b.steps, i, op)) ==>
          Lookup(b'.steps, r) == Lookup(b.steps, r))
    && b.gone <= b'.gone && b.past <= b'.past
    && forall key, n: nat :: !(op.FanOut? && op.key == key) ==>
         Lookup(b'.meta, Child(i, key, n)) == Lookup(b.meta, Child(i, key, n))
  }

  lemma AccountBeside(b: Book, b': Book, i: Id, op: Op, error: string, other: Op)
    requires AccountedFor(b, i, op, error) && other.IsJournaled() && OnlyUnder(b, b', i, other) && !SameKey(op, other)
    ensures AccountedFor(b', i, op, error)
  {
  }

  /** What becomes of an error when its key is used again. */
  lemma AccountUsed(b: Book, b': Book, i: Id, op: Op, error: string, other: Op)
    requires AccountedFor(b, i, op, error) && other.IsJournaled() && OnlyUnder(b, b', i, other) && SameKey(op, other)
    ensures AccountedFor(b', i, op, error) || Happened(b', i, op, error)
  {
  }

  lemma WriteStands(b: Book, b': Book, i: Id, wf: Workflow, h: History)
    requires ErrorsStand(b, i, wf, h) && wf(h).IsJournaled() && OnlyUnder(b, b', i, wf(h))
    ensures ErrorsStand(b', i, wf, h)
  {
    forall n | 0 <= n < |h| && h[n].Caught? ensures Stands(b', i, wf, h, n) {
      var op, e := wf(h[..n]), h[n].error;
      assert Stands(b, i, wf, h, n) && h[..|h|] == h;
      if !AccountedFor(b, i, op, e) {
        PastStays(b, b', i, op, e);
      } else if SameKey(op, wf(h)) {
        AccountUsed(b, b', i, op, e, wf(h));
      } else {
        AccountBeside(b, b', i, op, e, wf(h));
      }
    }
  }

  // ---- Workflows that try nothing again --------------------------------------------------------

  /** A workflow that passes errors on, or that uses no key twice, uses no key again after it gave an error. */
  lemma NeverRetries(wf: Workflow)
    requires Propagates(wf) || KeysOnce(wf)
    ensures NoKeyRetried(wf)
  {
  }

  lemma NeverUsedAgain(wf: Workflow, h: History, n: nat)
    requires NoKeyRetried(wf) && n < |h| && h[n].Caught?
    ensures !UsedAgain(wf, h, n)
  {
    forall m | n < m <= |h| ensures !SameKey(wf(h[..n]), wf(h[..m])) {
      assert h[..m][..n] == h[..n] && h[..m][n] == h[n];
    }
  }
}
