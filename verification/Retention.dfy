/** Which instances a retention pass removes, and what it leaves. */
module Retention {
  import opened Options
  import opened Storage

  const NANOS_PER_SEC := 1_000_000_000

  /** Retention periods in nanoseconds: per workflow, else the default. */
  datatype Policy = Policy(fallback: nat, overrides: map<string, nat>) {
    function PeriodSecs(wf: string): nat {
      (if wf in overrides then overrides[wf] else fallback) / NANOS_PER_SEC
    }
  }

  function SaturatingSub(a: nat, b: nat): nat { if a >= b then a - b else 0 }

  predicate IsExpired(wf: string, m: Metadata, nowSecs: nat, policy: Policy) {
    m.completedAt.Some? && SaturatingSub(nowSecs, m.completedAt.value) >= policy.PeriodSecs(wf)
  }

  /** Since the record was completed the period of its workflow has passed, in whole seconds; or it has none. */
  ghost predicate Overdue(wf: string, m: Metadata, nowSecs: nat, policy: Policy) {
    var nanos := if wf in policy.overrides then policy.overrides[wf] else policy.fallback;
    m.completedAt.Some? && (nanos < 1_000_000_000 || nowSecs >= m.completedAt.value + nanos / 1_000_000_000)
  }

  lemma ExpiredIsOverdue(wf: string, m: Metadata, nowSecs: nat, policy: Policy)
    ensures IsExpired(wf, m, nowSecs, policy) <==> Overdue(wf, m, nowSecs, policy)
  {
  }

  ghost function ExpiredIds(s: Store, nowSecs: nat, policy: Policy): set<Id> {
    set i | i in s.meta && Overdue(i.wf, s.meta[i], nowSecs, policy)
  }

  ghost predicate Beneath(c: Id, gone: set<Id>) { exists i :: i in gone && Under(c, i) }

  /** The tables without the instances `gone`: no metadata, no step of their subtrees, no timer of theirs. */
  ghost function Without(s: Store, gone: set<Id>): Store {
    Store(
      map r | r in s.steps && !Beneath(r.id, gone) :: s.steps[r],
      s.meta - gone,
      map k | k in s.timers && s.timers[k].id !in gone :: s.timers[k])
  }

  lemma DeleteNext(s: Store, gone: set<Id>, i: Id)
    ensures DeleteTxn(Without(s, gone), i) == Without(s, gone + {i})
  {
  }

  /** Every record was made by NewMetadata: exactly the terminal ones carry a time. */
  ghost predicate Stamped(meta: Metas) {
    forall i :: i in meta ==> |i.path| > 0 && IsStamped(meta[i])
  }

  /** One pass is exact on metadata: terminal instances whose period has passed go, all others stay as they are. */
  lemma PassIsExact(s: Store, nowSecs: nat, policy: Policy, i: Id)
    requires Stamped(s.meta) && i in s.meta
    ensures
      var s' := Without(s, ExpiredIds(s, nowSecs, policy));
      var nanos := if i.wf in policy.overrides then policy.overrides[i.wf] else policy.fallback;
      && (i !in s'.meta <==>
            (s.meta[i].status.Finished? || s.meta[i].status.Errored?) &&
            (nanos < 1_000_000_000 || nowSecs >= s.meta[i].completedAt.value + nanos / 1_000_000_000))
      && (i in s'.meta ==> s'.meta[i] == s.meta[i])
      && (i !in s'.meta ==> (forall r: Ref :: Under(r.id, i) ==> r !in s'.steps) &&
                            (forall k :: k in s'.timers ==> s'.timers[k].id != i))
  {
  }

  /**
   A live top-level instance is untouched: its metadata, its own steps and its timers stay, and so
   do the steps of its descendants as long as none of these has expired itself.
   */
  lemma LiveInstanceUntouched(s: Store, nowSecs: nat, policy: Policy, i: Id)
    requires Stamped(s.meta) && TopLevel(i) && (IsRunning(s.meta, i) || IsSuspended(s.meta, i))
    ensures
      var gone := ExpiredIds(s, nowSecs, policy);
      var s' := Without(s, gone);
      && Lookup(s'.meta, i) == Lookup(s.meta, i)
      && (forall r: Ref :: r.id == i ==> Lookup(s'.steps, r) == Lookup(s.steps, r))
      && (forall k :: k in s.timers && s.timers[k].id == i ==> Lookup(s'.timers, k) == Lookup(s.timers, k))
      && (forall r: Ref :: Under(r.id, i) && r !in s'.steps && r in s.steps ==>
            exists c :: c in gone && c != i && Under(c, i))
  {
    var gone := ExpiredIds(s, nowSecs, policy);
    assert i !in gone;
    forall c | c in gone ensures !Under(i, c) {
      assert c.path <= i.path ==> c.path == i.path;
    }
    forall r: Ref | Under(r.id, i) && Beneath(r.id, gone)
      ensures r.id != i && exists c :: c in gone && c != i && Under(c, i)
    {
      var c :| c in gone && Under(r.id, c);
      assert |c.path| > 0 && c.path[0] == r.id.path[0] == i.path[0];
      assert i.path == [i.path[0]];
      assert i.path == c.path[..1];
    }
  }

  /**
   An inline child runs under its parent's workflow name. If it finished no later than its parent,
   the pass that takes the parent takes the child as well.
   */
  lemma FamilyExpiresTogether(s: Store, nowSecs: nat, policy: Policy, parent: Id, child: Id)
    requires parent in ExpiredIds(s, nowSecs, policy)
    requires child in s.meta && child.wf == parent.wf && s.meta[child].completedAt.Some?
    requires s.meta[child].completedAt.value <= s.meta[parent].completedAt.value
    ensures child in ExpiredIds(s, nowSecs, policy)
  {
  }
}
