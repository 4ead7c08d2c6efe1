/** Claims are exclusive: one suspension is claimed at most once, whoever tries and however often. */
module Claims {
  import opened Options
  import opened Storage
  import opened Workflows
  import opened Protocol
  import opened Ownership

  datatype Attempt = Attempt(key: string, payload: Value)

  /** Claims on one instance, made one after the other. */
  function ClaimAll(s: Store, i: Id, attempts: seq<Attempt>): Store
    decreases |attempts|
  {
    if |attempts| == 0 then s
    else ClaimAll(ClaimTxn(s, i, attempts[0].key, attempts[0].payload), i, attempts[1..])
  }

  function Outcomes(s: Store, i: Id, attempts: seq<Attempt>): (rs: seq<ClaimResult>)
    ensures |rs| == |attempts|
    decreases |attempts|
  {
    if |attempts| == 0 then []
    else
      [ClaimOutcome(s, i, attempts[0].key)] +
      Outcomes(ClaimTxn(s, i, attempts[0].key, attempts[0].payload), i, attempts[1..])
  }

  /** Once the instance is Running every claim is refused and leaves the tables as they are. */
  lemma {:induction false} AllRefused(s: Store, i: Id, attempts: seq<Attempt>)
    requires !IsSuspended(s.meta, i)
    ensures forall n :: 0 <= n < |attempts| ==> Outcomes(s, i, attempts)[n] != Claimed
    ensures ClaimAll(s, i, attempts) == s
    decreases |attempts|
  {
    if |attempts| > 0 { AllRefused(s, i, attempts[1..]); }
  }

  /**
   Of any claims on one instance, for any keys and with any payloads, at most one succeeds, and
   the tables end up as that one leaves them.
   */
  lemma {:induction false} AtMostOneClaim(s: Store, i: Id, attempts: seq<Attempt>) returns (winner: Option<nat>)
    ensures winner.Some? ==> winner.value < |attempts|
    ensures winner.Some? ==>
      ClaimAll(s, i, attempts) == ClaimTxn(s, i, attempts[winner.value].key, attempts[winner.value].payload)
    ensures winner.None? ==> ClaimAll(s, i, attempts) == s
    ensures forall n :: 0 <= n < |attempts| ==> (Outcomes(s, i, attempts)[n] == Claimed <==> winner == Some(n))
    decreases |attempts|
  {
    if |attempts| == 0 {
      winner := None;
    } else if ClaimOutcome(s, i, attempts[0].key) == Claimed {
      AllRefused(ClaimTxn(s, i, attempts[0].key, attempts[0].payload), i, attempts[1..]);
      winner := Some(0);
    } else {
      var rest := AtMostOneClaim(s, i, attempts[1..]);
      winner := if rest.Some? then Some(rest.value + 1) else None;
      if rest.Some? { assert attempts[winner.value] == attempts[1..][rest.value]; }
    }
  }

  /** Concurrent claims on the suspended step: the first commit wins, all others are superseded. */
  lemma {:induction false} FirstClaimWins(s: Store, i: Id, key: string, attempts: seq<Attempt>)
    requires IsSuspended(s.meta, i) && Waits(s.steps, i, key)
    requires |attempts| > 0 && forall n :: 0 <= n < |attempts| ==> attempts[n].key == key
    ensures Outcomes(s, i, attempts)[0] == Claimed
    ensures forall n :: 0 < n < |attempts| ==> Outcomes(s, i, attempts)[n] == Superseded
    ensures ClaimAll(s, i, attempts) == ClaimTxn(s, i, key, attempts[0].payload)
  {
    var s' := ClaimTxn(s, i, key, attempts[0].payload);
    AllRefused(s', i, attempts[1..]);
    SupersededAll(s', i, key, attempts[1..]);
    forall n | 0 < n < |attempts| ensures Outcomes(s, i, attempts)[n] == Superseded {
      assert Outcomes(s, i, attempts)[n] == Outcomes(s', i, attempts[1..])[n - 1];
    }
  }

  lemma {:induction false} SupersededAll(s: Store, i: Id, key: string, attempts: seq<Attempt>)
    requires IsCompleted(s.steps, Ref(i, User(key)))
    requires forall n :: 0 <= n < |attempts| ==> attempts[n].key == key
    ensures forall n :: 0 <= n < |attempts| ==> Outcomes(s, i, attempts)[n] == Superseded
    decreases |attempts|
  {
    if |attempts| > 0 { SupersededAll(s, i, key, attempts[1..]); }
  }

  // ---- Whole runs ------------------------------------------------------------------------------

  /** Suspensions are paid out: each was ended by a claim or by one of `n` resumes, or still lasts. */
  ghost predicate Balance(w: World, i: Id, n: nat) {
    Count(w.log.parked, i) == Count(w.log.claimed, i) + n + Indicator(IsSuspended(w.store.meta, i))
  }

  /** A resume that ends a suspension without a claim. */
  predicate Revives(w: World, a: Action, i: Id) {
    a.Api? && a.call == Resume(i) && IsSuspended(w.store.meta, i)
  }

  ghost predicate SameCounts(w: World, w': World) {
    w'.log.claimed == w.log.claimed && w'.log.parked == w.log.parked
  }

  predicate TouchesJournal(a: TaskAction) { a.Perform? || a.Save? || a.SaveSuspended? || a.WriteOutput? }

  lemma JournalFrame(w: World, t: nat, a: TaskAction, w': World)
    requires TaskEnabled(w, t, a) && TouchesJournal(a) && w' == TaskNext(w, t, a)
    ensures SameCounts(w, w') && w'.store.meta == w.store.meta
  {
  }

  lemma OtherFrame(w: World, t: nat, a: TaskAction, w': World)
    requires TaskEnabled(w, t, a) && !TouchesJournal(a) && !a.WriteResult? && w' == TaskNext(w, t, a)
    ensures SameCounts(w, w')
    ensures !a.ChildMeta? ==> w'.store.meta == w.store.meta
    ensures a.ChildMeta? ==>
      w'.store.meta == w.store.meta[a.child := a.m] && !a.m.status.SuspendedOn? && !TopLevel(a.child)
  {
  }

  lemma ResultBalances(w: World, t: nat, w': World, i: Id, n: nat)
    requires Owning(w) && Balance(w, i, n) && TaskEnabled(w, t, WriteResult) && w' == ResultTxn(w, t)
    ensures Balance(w', i, n)
  {
  }

  lemma TaskBalances(w: World, t: nat, a: TaskAction, w': World, i: Id, n: nat)
    requires Owning(w) && Balance(w, i, n) && TaskEnabled(w, t, a) && w' == TaskNext(w, t, a)
    ensures Balance(w', i, n)
  {
    if a.WriteResult? {
      ResultBalances(w, t, w', i, n);
    } else {
      if TouchesJournal(a) { JournalFrame(w, t, a, w'); } else { OtherFrame(w, t, a, w'); }
      assert a.ChildMeta? ==> !IsSuspended(w.store.meta, a.child);
    }
  }

  lemma ClaimBalances(w: World, w': World, id: Id, key: string, v: Value, i: Id, n: nat)
    requires Balance(w, i, n) && ClaimOutcome(w.store, id, key) == Claimed && w'.store == ClaimTxn(w.store, id, key, v)
    requires w'.log.claimed == Bump(w.log.claimed, id) && w'.log.parked == w.log.parked
    ensures Balance(w', i, n)
  {
  }

  lemma PollClaimBalances(w: World, t: nat, w': World, i: Id, n: nat)
    requires Balance(w, i, n) && PollerAt(w, t, Checked) && w' == PollNext(w, t, PollClaim)
    ensures Balance(w', i, n)
  {
    var row := w.threads[t].batch[0].row;
    if ClaimOutcome(w.store, row.id, row.key) == Claimed { ClaimBalances(w, w', row.id, row.key, UNIT, i, n); }
  }

  lemma PollCounts(w: World, t: nat, a: PollAction, w': World)
    requires PollEnabled(w, t, a) && !a.PollClaim? && w' == PollNext(w, t, a)
    ensures SameCounts(w, w') && w'.store.meta == w.store.meta
  {
  }

  lemma PollBalances(w: World, t: nat, a: PollAction, w': World, i: Id, n: nat)
    requires Balance(w, i, n) && PollEnabled(w, t, a) && w' == PollNext(w, t, a)
    ensures Balance(w', i, n)
  {
    if a.PollClaim? { PollClaimBalances(w, t, w', i, n); } else { PollCounts(w, t, a, w'); }
  }

  lemma ApiBalances(w: World, t: nat, a: ApiAction, w': World, i: Id, n: nat)
    requires Owning(w) && Balance(w, i, n) && ApiEnabled(w, t, a) && w' == ApiNext(w, t, a)
    ensures Balance(w', i, n + Indicator(Revives(w, Api(t, a), i)))
  {
  }

  lemma EngineBalances(w: World, a: EngineAction, w': World, i: Id, n: nat)
    requires Owning(w) && Balance(w, i, n) && EngineEnabled(w, a) && w' == EngineNext(w, a)
    ensures Balance(w', i, n)
  {
    if a.RecoverOne? { assert Owns(w.threads[a.recovery], a.id); }
  }

  lemma StepBalances(w: World, a: Action, i: Id, n: nat)
    requires Owning(w) && Balance(w, i, n) && Enabled(w, a)
    ensures Balance(Next(w, a), i, n + Indicator(Revives(w, a, i)))
  {
    match a
    case Api(t, x) => ApiBalances(w, t, x, ApiNext(w, t, x), i, n);
    case Task(t, x) => TaskBalances(w, t, x, TaskNext(w, t, x), i, n);
    case Poll(t, x) => PollBalances(w, t, x, PollNext(w, t, x), i, n);
    case Engine(x) => EngineBalances(w, x, EngineNext(w, x), i, n);
  }

  /** How often a run resumed the instance out of a suspension. */
  ghost function Revivals(w: World, run: seq<Action>, i: Id): nat
    requires After(w, run).Some?
    decreases |run|
  {
    if |run| == 0 then 0
    else
      var before := run[..|run| - 1];
      Revivals(w, before, i) + Indicator(Revives(After(w, before).value, run[|run| - 1], i))
  }

  lemma {:induction false} BalanceAlong(w: World, run: seq<Action>, i: Id)
    requires Owning(w) && Balance(w, i, 0) && After(w, run).Some?
    ensures Balance(After(w, run).value, i, Revivals(w, run, i))
    decreases |run|
  {
    if |run| > 0 {
      var before := run[..|run| - 1];
      BalanceAlong(w, before, i);
      OwnershipAlways(w, before);
      StepBalances(After(w, before).value, run[|run| - 1], i, Revivals(w, before, i));
    }
  }

  /**
   Conservation over whole runs: every Suspended metadata write of an instance has been ended by
   exactly one claim or one resume, except for one while the instance is suspended.
   */
  lemma SuspensionsBalance(defs: map<string, Definition>, run: seq<Action>, i: Id)
    requires After(Initial(defs), run).Some?
    ensures
      var w := After(Initial(defs), run).value;
      Count(w.log.parked, i) ==
        Count(w.log.claimed, i) + Revivals(Initial(defs), run, i) + (if IsSuspended(w.store.meta, i) then 1 else 0)
  {
    BalanceAlong(Initial(defs), run, i);
  }

  /**
   A claim succeeds exactly on a waiting step of a suspended instance. It then completes that step with the
   value it brings, turns Suspended into Running, and touches nothing else; a refused one changes no table.
   */
  lemma ClaimFlips(s: Store, i: Id, key: string, v: Value)
    ensures ClaimOutcome(s, i, key) == Claimed <==> IsSuspended(s.meta, i) && Waits(s.steps, i, key)
    ensures
      var s' := ClaimTxn(s, i, key, v);
      if ClaimOutcome(s, i, key) == Claimed then Delivered(s, s', i, key, v) else s' == s
  {
  }
}
