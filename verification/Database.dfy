/**
 The tables as they are stored: string keys, updated in place. Each method is one transaction or
 one read. The ghost field `model` holds the same tables under structured keys, and every method
 is specified by its effect on it.
 */
module Tables {
  import opened Options
  import opened Storage
  import opened Workflows
  import opened Keys
  import opened Retention

  const U64_MAX := 0xFFFF_FFFF_FFFF_FFFF

  datatype TimerEntry = TimerEntry(workflow: string, instance: string, key: string)

  // ---- Tables under string keys and under structured keys ------------------------------------

  ghost predicate StepsTie(t: map<string, StepData>, m: Steps) {
    && (forall r :: r in m ==> ValidRef(r) && Lookup(t, StepKeyOf(r)) == Some(m[r]))
    && (forall k :: k in t ==> exists r :: r in m && StepKeyOf(r) == k)
  }

  ghost predicate MetasTie(t: map<string, Metadata>, m: Metas) {
    && (forall i :: i in m ==> ValidId(i) && Lookup(t, MetaKey(i)) == Some(m[i]))
    && (forall k :: k in t ==> exists i :: i in m && MetaKey(i) == k)
  }

  ghost predicate EntryTie(e: TimerEntry, row: TimerRow) {
    ValidId(row.id) && ValidUserKey(row.key) && e == TimerEntry(row.id.wf, Instance(row.id), row.key)
  }

  ghost predicate TimersTie(t: map<TimerKey, TimerEntry>, m: map<TimerKey, TimerRow>) {
    t.Keys == m.Keys && forall k :: k in m ==> k.serial <= U64_MAX && EntryTie(t[k], m[k])
  }

  lemma StepLookup(t: map<string, StepData>, m: Steps, r: Ref)
    requires StepsTie(t, m) && ValidRef(r)
    ensures Lookup(t, StepKeyOf(r)) == Lookup(m, r)
  {
    if StepKeyOf(r) in t {
      var q :| q in m && StepKeyOf(q) == StepKeyOf(r);
      StepKeyInjective(q, r);
    }
  }

  lemma MetaLookup(t: map<string, Metadata>, m: Metas, i: Id)
    requires MetasTie(t, m) && ValidId(i)
    ensures Lookup(t, MetaKey(i)) == Lookup(m, i)
  {
    if MetaKey(i) in t {
      var q :| q in m && MetaKey(q) == MetaKey(i);
      MetaKeyInjective(q, i);
    }
  }

  /** A write under one composite key changes what is read under no other. */
  lemma StepPut(t: map<string, StepData>, m: Steps, r: Ref, d: StepData)
    requires StepsTie(t, m) && ValidRef(r)
    ensures StepsTie(t[StepKeyOf(r) := d], m[r := d])
  {
    var t', m' := t[StepKeyOf(r) := d], m[r := d];
    forall q | q in m' ensures ValidRef(q) && Lookup(t', StepKeyOf(q)) == Some(m'[q]) {
      if StepKeyOf(q) == StepKeyOf(r) { StepKeyInjective(q, r); }
    }
    forall k | k in t' ensures exists q :: q in m' && StepKeyOf(q) == k {
      if k != StepKeyOf(r) {
        var q :| q in m && StepKeyOf(q) == k;
        assert q in m';
      } else {
        assert r in m';
      }
    }
  }

  lemma MetaPut(t: map<string, Metadata>, m: Metas, i: Id, d: Metadata)
    requires MetasTie(t, m) && ValidId(i)
    ensures MetasTie(t[MetaKey(i) := d], m[i := d])
  {
    var t', m' := t[MetaKey(i) := d], m[i := d];
    forall q | q in m' ensures ValidId(q) && Lookup(t', MetaKey(q)) == Some(m'[q]) {
      if MetaKey(q) == MetaKey(i) { MetaKeyInjective(q, i); }
    }
    forall k | k in t' ensures exists q :: q in m' && MetaKey(q) == k {
      if k != MetaKey(i) {
        var q :| q in m && MetaKey(q) == k;
        assert q in m';
      } else {
        assert i in m';
      }
    }
  }

  lemma MetaRemove(t: map<string, Metadata>, m: Metas, i: Id)
    requires MetasTie(t, m) && ValidId(i)
    ensures MetasTie(t - {MetaKey(i)}, m - {i})
  {
    var t', m' := t - {MetaKey(i)}, m - {i};
    forall q | q in m' ensures ValidId(q) && Lookup(t', MetaKey(q)) == Some(m'[q]) {
      if MetaKey(q) == MetaKey(i) { MetaKeyInjective(q, i); }
    }
    forall k | k in t' ensures exists q :: q in m' && MetaKey(q) == k {
      var q :| q in m && MetaKey(q) == k;
      assert q in m';
    }
  }

  lemma StepsRemoved(t: map<string, StepData>, t': map<string, StepData>, m: Steps, i: Id)
    requires StepsTie(t, m) && ValidId(i)
    requires t' == map k | k in t && !InRange(k, MetaKey(i) + "/", MetaKey(i) + "0") :: t[k]
    ensures StepsTie(t', map r | r in m && !Under(r.id, i) :: m[r])
  {
    var m' := map r | r in m && !Under(r.id, i) :: m[r];
    forall r | r in m' ensures ValidRef(r) && Lookup(t', StepKeyOf(r)) == Some(m'[r]) {
      StepRangeIsSubtree(i, r);
      assert Lookup(t, StepKeyOf(r)) == Some(m[r]);
    }
    forall k | k in t' ensures exists r :: r in m' && StepKeyOf(r) == k {
      var r :| r in m && StepKeyOf(r) == k;
      StepRangeIsSubtree(i, r);
      assert r in m';
    }
  }

  lemma TimersRemoved(t: map<TimerKey, TimerEntry>, t': map<TimerKey, TimerEntry>, m: map<TimerKey, TimerRow>, i: Id)
    requires TimersTie(t, m) && ValidId(i)
    requires t' == map k | k in t && !(t[k].workflow == i.wf && t[k].instance == Instance(i)) :: t[k]
    ensures TimersTie(t', map k | k in m && m[k].id != i :: m[k])
  {
    forall k | k in m && t[k].workflow == i.wf && t[k].instance == Instance(i) ensures m[k].id == i {
      if m[k].id != i { InstanceInjective(m[k].id, i); }
    }
  }

  /** `results` lists instances of `wf`, each once and none of `todo`; the rest are in `todo`. */
  ghost predicate Listed(m: Metas, wf: string, results: seq<(string, Metadata)>, ids: seq<Id>, todo: set<string>) {
    && |ids| == |results|
    && (forall n :: 0 <= n < |ids| ==>
          ids[n] in m && ids[n].wf == wf && results[n] == (Instance(ids[n]), m[ids[n]]) && MetaKey(ids[n]) !in todo)
    && (forall i :: i in m && i.wf == wf ==> i in ids || MetaKey(i) in todo)
    && (forall n, n' :: 0 <= n < n' < |ids| ==> results[n].0 != results[n'].0)
  }

  lemma ListedNext(m: Metas, wf: string, results: seq<(string, Metadata)>, ids: seq<Id>, todo: set<string>, i: Id)
    requires Listed(m, wf, results, ids, todo) && i in m && i.wf == wf && MetaKey(i) in todo
    requires forall j :: j in m ==> ValidId(j)
    ensures Listed(m, wf, results + [(Instance(i), m[i])], ids + [i], todo - {MetaKey(i)})
  {
    var ids', todo' := ids + [i], todo - {MetaKey(i)};
    forall n | 0 <= n < |ids| ensures results[n].0 != Instance(i) {
      assert ids[n] != i;
      InstanceInjective(ids[n], i);
    }
    forall j | j in m && j.wf == wf ensures j in ids' || MetaKey(j) in todo' {
      if MetaKey(j) == MetaKey(i) { MetaKeyInjective(i, j); }
      assert ids'[|ids|] == i;
    }
  }

  /** The order of timer keys in their table. */
  predicate TimerNotAfter(a: TimerKey, b: TimerKey) {
    a.deadline < b.deadline || (a.deadline == b.deadline && a.serial <= b.serial)
  }

  /** Rows of names and the instances that they name. */
  ghost predicate Identified(rows: seq<(string, string)>, ids: seq<Id>) {
    && |rows| == |ids|
    && forall n :: 0 <= n < |ids| ==> ValidId(ids[n]) && rows[n] == (ids[n].wf, Instance(ids[n]))
  }

  ghost function NamesOf(ids: set<Id>): set<(string, string)> { set i | i in ids :: (i.wf, Instance(i)) }

  lemma NamesFound(rows: seq<(string, string)>, ids: seq<Id>, all: set<Id>)
    requires Identified(rows, ids) && forall i :: i in ids <==> i in all
    ensures (set row | row in rows) == NamesOf(all)
  {
    forall row | row in rows ensures row in NamesOf(all) {
      var n :| 0 <= n < |rows| && rows[n] == row;
      assert ids[n] in all;
    }
    forall i | i in all ensures (i.wf, Instance(i)) in rows {
      var n :| 0 <= n < |ids| && ids[n] == i;
      assert rows[n] == (i.wf, Instance(i));
    }
  }

  lemma IdentifiedNext(rows: seq<(string, string)>, ids: seq<Id>, i: Id)
    requires Identified(rows, ids) && ValidId(i)
    ensures Identified(rows + [(i.wf, Instance(i))], ids + [i])
  {
  }

  /** A scan has found the instances of `all` whose key is not in `todo`, each once. */
  ghost predicate Found(ids: seq<Id>, all: set<Id>, todo: set<string>) {
    && (forall n :: 0 <= n < |ids| ==> ids[n] in all && MetaKey(ids[n]) !in todo)
    && (forall i :: i in all ==> i in ids || MetaKey(i) in todo)
    && (forall n, n' :: 0 <= n < n' < |ids| ==> ids[n] != ids[n'])
  }

  lemma FoundNext(m: Metas, ids: seq<Id>, all: set<Id>, todo: set<string>, i: Id)
    requires Found(ids, all, todo) && all <= m.Keys && i in m && (forall j :: j in m ==> ValidId(j))
    requires MetaKey(i) in todo
    ensures i in all ==> Found(ids + [i], all, todo - {MetaKey(i)})
    ensures i !in all ==> Found(ids, all, todo - {MetaKey(i)})
  {
    forall j | j in all && j != i ensures MetaKey(j) != MetaKey(i) {
      if MetaKey(j) == MetaKey(i) { MetaKeyInjective(i, j); }
    }
    assert (ids + [i])[|ids|] == i;
    forall j | j in ids ensures j in ids + [i] { }
  }

  class Database {
    var steps: map<string, StepData>
    var metas: map<string, Metadata>
    var timers: map<TimerKey, TimerEntry>
    ghost var model: Store

    ghost predicate Valid()
      reads this
    {
      StepsTie(steps, model.steps) && MetasTie(metas, model.meta) && TimersTie(timers, model.timers)
    }

    constructor ()
      ensures Valid() && model == EMPTY_STORE
    {
      steps, metas, timers, model := map[], map[], map[], EMPTY_STORE;
    }

    // ---- Single entries ----------------------------------------------------------------------

    method ReadStep(wf: string, instance: string, key: string, ghost r: Ref) returns (d: Option<StepData>)
      requires Valid() && ValidRef(r) && wf == r.id.wf && instance == Instance(r.id) && key == KeyName(r.key)
      ensures d == Lookup(model.steps, r)
    {
      var compositeKey := wf + "/" + instance + "/" + key;
      StepLookup(steps, model.steps, r);
      d := Lookup(steps, compositeKey);
    }

    method WriteStep(wf: string, instance: string, key: string, d: StepData, ghost r: Ref)
      requires Valid() && ValidRef(r) && wf == r.id.wf && instance == Instance(r.id) && key == KeyName(r.key)
      modifies this
      ensures Valid() && model == PutStep(old(model), r, d)
    {
      var compositeKey := wf + "/" + instance + "/" + key;
      StepPut(steps, model.steps, r, d);
      steps := steps[compositeKey := d];
      model := PutStep(model, r, d);
    }

    method ReadMetadata(wf: string, instance: string, ghost i: Id) returns (m: Option<Metadata>)
      requires Valid() && ValidId(i) && wf == i.wf && instance == Instance(i)
      ensures m == Lookup(model.meta, i)
    {
      MetaLookup(metas, model.meta, i);
      m := Lookup(metas, wf + "/" + instance);
    }

    method WriteMetadata(wf: string, instance: string, m: Metadata, ghost i: Id)
      requires Valid() && ValidId(i) && wf == i.wf && instance == Instance(i)
      modifies this
      ensures Valid() && model == PutMeta(old(model), i, m)
    {
      MetaPut(metas, model.meta, i, m);
      metas := metas[wf + "/" + instance := m];
      model := PutMeta(model, i, m);
    }

    // ---- Transactions ------------------------------------------------------------------------

    /** Complete a suspended step and mark its instance Running, or say why not and change nothing. */
    method ClaimSuspendedStep(wf: string, instance: string, key: string, v: Value, ghost i: Id)
      returns (result: ClaimResult)
      requires Valid() && ValidId(i) && wf == i.wf && instance == Instance(i) && ValidUserKey(key)
      modifies this
      ensures Valid() && result == ClaimOutcome(old(model), i, key) && model == ClaimTxn(old(model), i, key, v)
      ensures result == StepMissing <==> Ref(i, User(key)) !in old(model).steps
      ensures result == MetadataMissing <==>
        Lookup(old(model).steps, Ref(i, User(key))) == Some(Suspended) && i !in old(model).meta
      ensures result == Claimed <==>
        Lookup(old(model).steps, Ref(i, User(key))) == Some(Suspended) && IsSuspended(old(model).meta, i)
      ensures if result == Claimed then Delivered(old(model), model, i, key, v) else model == old(model)
    {
      var compositeKey, metaKey := wf + "/" + instance + "/" + key, wf + "/" + instance;
      ghost var r := Ref(i, User(key));
      StepLookup(steps, model.steps, r);
      MetaLookup(metas, model.meta, i);
      if compositeKey !in steps {
        result := StepMissing;
      } else if steps[compositeKey] != Suspended {
        result := Superseded;
      } else if metaKey !in metas {
        result := MetadataMissing;
      } else if !metas[metaKey].status.SuspendedOn? {
        result := Superseded;
      } else {
        WriteStep(wf, instance, key, Completed(v, None), r);
        WriteMetadata(wf, instance, Metadata(Running, None), i);
        result := Claimed;
      }
    }

    /** The transaction of an invocation (with or without input) and of a resume. */
    method MarkRunning(wf: string, instance: string, input: Option<Value>, ghost i: Id)
      requires Valid() && ValidId(i) && wf == i.wf && instance == Instance(i)
      modifies this
      ensures Valid() && model == SpawnTxn(old(model), i, input)
    {
      WriteMetadata(wf, instance, Metadata(Running, None), i);
      if input.Some? { WriteStep(wf, instance, "_input", Completed(input.value, None), Ref(i, Input)); }
    }

    /** A Suspended entry together with its timer row. */
    method SetTimer(wf: string, instance: string, key: string, k: TimerKey, ghost i: Id)
      requires Valid() && ValidId(i) && wf == i.wf && instance == Instance(i) && ValidUserKey(key)
      requires k.serial <= U64_MAX
      modifies this
      ensures Valid() && model == SuspendTxn(old(model), i, key, Some(k))
    {
      WriteStep(wf, instance, key, Suspended, Ref(i, User(key)));
      timers := timers[k := TimerEntry(wf, instance, key)];
      model := model.(timers := model.timers[k := TimerRow(i, key)]);
    }

    method DropTimer(k: TimerKey)
      requires Valid()
      modifies this
      ensures Valid() && model == RemoveTimer(old(model), k)
    {
      timers := timers - {k};
      model := RemoveTimer(model, k);
    }

    // ---- Scans -------------------------------------------------------------------------------

    /**
     All instances of a workflow, by one range scan: each exactly once, with its id recovered
     exactly. The prefix can always be stripped.
     */
    method ListMetadata(wf: string) returns (results: seq<(string, Metadata)>, ghost ids: seq<Id>)
      requires Valid() && SlashFree(wf)
      ensures |ids| == |results|
      ensures forall n :: 0 <= n < |ids| ==>
        && ids[n] in model.meta && ValidId(ids[n]) && ids[n].wf == wf
        && results[n] == (Instance(ids[n]), model.meta[ids[n]])
      ensures forall i :: i in model.meta && i.wf == wf ==> i in ids
      ensures forall m, n :: 0 <= m < n < |results| ==> results[m].0 != results[n].0
    {
      var prefix, end := wf + "/", wf + "0";
      var todo := set k | k in metas && InRange(k, prefix, end);
      results, ids := [], [];
      forall i | i in model.meta && i.wf == wf ensures MetaKey(i) in todo { MetaRangeIsWorkflow(wf, i); }
      while todo != {}
        invariant todo <= metas.Keys && forall k :: k in todo ==> InRange(k, prefix, end)
        invariant Listed(model.meta, wf, results, ids, todo)
      {
        var fullKey :| fullKey in todo;
        ghost var i :| i in model.meta && MetaKey(i) == fullKey;
        MetaRangeIsWorkflow(wf, i);
        assert prefix <= fullKey;
        ListedNext(model.meta, wf, results, ids, todo, i);
        results, ids := results + [(fullKey[|prefix|..], metas[fullKey])], ids + [i];
        todo := todo - {fullKey};
      }
    }

    /** The rows whose deadline has passed, each once. */
    method CollectExpiredTimers(nowMillis: nat) returns (expired: seq<(TimerKey, TimerEntry)>)
      requires Valid()
      ensures forall n :: 0 <= n < |expired| ==>
        var (k, e) := expired[n];
        k in model.timers && k.deadline <= nowMillis && EntryTie(e, model.timers[k])
      ensures forall k :: k in model.timers && k.deadline <= nowMillis ==>
        exists n :: 0 <= n < |expired| && expired[n].0 == k
      ensures forall m, n :: 0 <= m < n < |expired| ==> expired[m].0 != expired[n].0
    {
      var todo := set k | k in timers && TimerNotAfter(k, TimerKey(nowMillis, U64_MAX));
      expired := [];
      while todo != {}
        invariant todo <= timers.Keys && forall k :: k in todo ==> k.deadline <= nowMillis
        invariant forall n :: 0 <= n < |expired| ==>
          expired[n].0 in timers && expired[n].0.deadline <= nowMillis && expired[n].1 == timers[expired[n].0] &&
          expired[n].0 !in todo
        invariant forall k :: k in timers && k.deadline <= nowMillis ==>
          k in todo || exists n :: 0 <= n < |expired| && expired[n].0 == k
        invariant forall m, n :: 0 <= m < n < |expired| ==> expired[m].0 != expired[n].0
      {
        var k :| k in todo;
        ghost var before := expired;
        expired := expired + [(k, timers[k])];
        assert expired[|before|].0 == k;
        forall k2 | k2 in timers && k2.deadline <= nowMillis && k2 != k && k2 !in todo
          ensures exists n :: 0 <= n < |expired| && expired[n].0 == k2
        {
          var n :| 0 <= n < |before| && before[n].0 == k2;
          assert expired[n].0 == k2;
        }
        todo := todo - {k};
      }
    }

    // ---- Retention ---------------------------------------------------------------------------

    method CollectExpiredMetadata(nowSecs: nat, policy: Policy)
      returns (expired: seq<(string, string)>, ghost ids: seq<Id>)
      requires Valid()
      ensures Identified(expired, ids)
      ensures forall i :: i in ids <==> i in ExpiredIds(model, nowSecs, policy)
      ensures (set row | row in expired) == NamesOf(ExpiredIds(model, nowSecs, policy))
      ensures forall m, n :: 0 <= m < n < |ids| ==> ids[m] != ids[n]
    {
      var todo := metas.Keys;
      expired, ids := [], [];
      while todo != {}
        invariant todo <= metas.Keys
        invariant Identified(expired, ids)
        invariant Found(ids, ExpiredIds(model, nowSecs, policy), todo)
      {
        var fullKey :| fullKey in todo;
        ghost var i :| i in model.meta && MetaKey(i) == fullKey;
        SplitOnceFirst(i.wf, Instance(i));
        FoundNext(model.meta, ids, ExpiredIds(model, nowSecs, policy), todo, i);
        var parts := SplitOnce(fullKey);
        assert parts == Some((i.wf, Instance(i))) && metas[fullKey] == model.meta[i];
        if parts.Some? {
          var (wf, instance) := parts.value;
          ExpiredIsOverdue(wf, metas[fullKey], nowSecs, policy);
          if IsExpired(wf, metas[fullKey], nowSecs, policy) {
            IdentifiedNext(expired, ids, i);
            expired, ids := expired + [(wf, instance)], ids + [i];
          }
        }
        todo := todo - {fullKey};
      }
      NamesFound(expired, ids, ExpiredIds(model, nowSecs, policy));
    }

    /** One instance goes in one transaction: its metadata, the step range of its id, its timers. */
    method DeleteInstanceData(wf: string, instance: string, ghost i: Id)
      requires Valid() && ValidId(i) && wf == i.wf && instance == Instance(i)
      modifies this
      ensures Valid() && model == DeleteTxn(old(model), i)
    {
      MetaRemove(metas, model.meta, i);
      metas := metas - {wf + "/" + instance};
      var prefix, end := wf + "/" + instance + "/", wf + "/" + instance + "0";
      var steps' := map k | k in steps && !InRange(k, prefix, end) :: steps[k];
      StepsRemoved(steps, steps', model.steps, i);
      steps := steps';
      var timers' := map k | k in timers && !(timers[k].workflow == wf && timers[k].instance == instance) :: timers[k];
      TimersRemoved(timers, timers', model.timers, i);
      timers := timers';
      model := DeleteTxn(model, i);
    }

    /** A pass of retention: all that is expired when it starts goes, and nothing else. */
    method CleanupExpired(nowSecs: nat, policy: Policy) returns (cleaned: nat)
      requires Valid()
      modifies this
      ensures Valid() && model == Without(old(model), ExpiredIds(old(model), nowSecs, policy))
      ensures cleaned == |ExpiredIds(old(model), nowSecs, policy)|
      ensures forall i :: i in old(model).meta ==>
        (i in model.meta <==> !Overdue(i.wf, old(model).meta[i], nowSecs, policy))
    {
      var expired;
      ghost var ids;
      expired, ids := CollectExpiredMetadata(nowSecs, policy);
      cleaned := 0;
      ghost var before, gone := model, {};
      while cleaned < |expired|
        invariant 0 <= cleaned <= |expired| && Valid()
        invariant gone == (set n | 0 <= n < cleaned :: ids[n]) && |gone| == cleaned
        invariant model == Without(before, gone)
      {
        DeleteNext(before, gone, ids[cleaned]);
        DeleteInstanceData(expired[cleaned].0, expired[cleaned].1, ids[cleaned]);
        gone := gone + {ids[cleaned]};
        cleaned := cleaned + 1;
      }
      assert gone == ExpiredIds(before, nowSecs, policy);
    }
  }
}
