/**
 Composite string keys. A step is stored under `workflow/instance/key`, a workflow's metadata
 under `workflow/instance`, and a nested child's instance id is `parent/fanoutkey-index`. Keys
 are ordered by code point, which for strings is also the order of their UTF-8 bytes.
 */
module Keys {
  import opened Options
  import opened Storage
  import opened Workflows

  // ---- Ranges -------------------------------------------------------------------------------

  /** Strict lexicographic order. */
  predicate Less(a: string, b: string) {
    |b| > 0 && (|a| == 0 || a[0] < b[0] || (a[0] == b[0] && Less(a[1..], b[1..])))
  }

  /** The half-open range `lo..hi` of a table. */
  predicate InRange(k: string, lo: string, hi: string) { !Less(k, lo) && Less(k, hi) }

  /** '0' follows '/' directly, so the range from `p/` to `p0` is the set of keys with prefix `p/`. */
  lemma {:induction false} RangeIsPrefix(p: string, k: string)
    ensures InRange(k, p + "/", p + "0") <==> p + "/" <= k
  {
    if |p| == 0 {
      assert p + "/" == "/" && p + "0" == "0" && "/"[1..] == "" && "0"[1..] == "";
      if |k| > 0 {
        assert !Less(k[1..], "");
        assert Less(k, "/") <==> k[0] < '/';
        assert Less(k, "0") <==> k[0] < '0';
        assert "/" <= k <==> k[0] == '/';
        assert '/' <= k[0] < '0' <==> k[0] == '/';
      }
    } else if |k| > 0 {
      assert (p + "/")[1..] == p[1..] + "/" && (p + "0")[1..] == p[1..] + "0";
      RangeIsPrefix(p[1..], k[1..]);
      if k[0] == p[0] && p[1..] + "/" <= k[1..] {
        assert k == [k[0]] + k[1..] && p + "/" == [p[0]] + (p[1..] + "/");
      }
      if p + "/" <= k {
        assert (p + "/")[0] == k[0];
        assert p[1..] + "/" == k[1..][..|p|];
      }
    }
  }

  // ---- Components ---------------------------------------------------------------------------

  predicate SlashFree(s: string) { '/' !in s }

  predicate SlashFreeParts(parts: seq<string>) { forall n :: 0 <= n < |parts| ==> SlashFree(parts[n]) }

  function Join(parts: seq<string>): string
    requires |parts| > 0
  {
    if |parts| == 1 then parts[0] else parts[0] + "/" + Join(parts[1..])
  }

  /** Reading a composite key back. */
  function Split(s: string): (parts: seq<string>)
    ensures |parts| > 0
  {
    if |s| == 0 then [""]
    else if s[0] == '/' then [""] + Split(s[1..])
    else
      var rest := Split(s[1..]);
      [[s[0]] + rest[0]] + rest[1..]
  }

  lemma {:induction false} SplitFirst(a: string, s: string)
    requires SlashFree(a)
    ensures Split(a) == [a] && Split(a + "/" + s) == [a] + Split(s)
  {
    if |a| == 0 {
      assert a + "/" + s == "/" + s;
    } else {
      SplitFirst(a[1..], s);
      assert (a + "/" + s)[1..] == a[1..] + "/" + s && a == [a[0]] + a[1..];
    }
  }

  /** Appending `/s` to a composite key appends the components of `s`. */
  lemma {:induction false} SplitAppend(parts: seq<string>, s: string)
    requires |parts| > 0 && SlashFreeParts(parts)
    ensures Split(Join(parts) + "/" + s) == parts + Split(s)
  {
    if |parts| == 1 {
      SplitFirst(parts[0], s);
    } else {
      var rest := Join(parts[1..]);
      SplitAppend(parts[1..], s);
      SplitFirst(parts[0], rest + "/" + s);
      calc {
        Split(Join(parts) + "/" + s);
        { assert Join(parts) + "/" + s == parts[0] + "/" + (rest + "/" + s); }
        [parts[0]] + Split(rest + "/" + s);
        [parts[0]] + (parts[1..] + Split(s));
        { assert [parts[0]] + parts[1..] == parts; }
        parts + Split(s);
      }
    }
  }

  /** Components without '/' are recovered exactly. */
  lemma {:induction false} SplitJoin(parts: seq<string>)
    requires |parts| > 0 && SlashFreeParts(parts)
    ensures Split(Join(parts)) == parts
  {
    SplitFirst(parts[0], "");
    if |parts| > 1 {
      SplitJoin(parts[1..]);
      SplitFirst(parts[0], Join(parts[1..]));
    }
  }

  lemma {:induction false} JoinAppend(p: seq<string>, q: seq<string>)
    requires |p| > 0 && |q| > 0
    ensures Join(p + q) == Join(p) + "/" + Join(q)
  {
    if |p| == 1 {
      assert (p + q)[1..] == q;
    } else {
      JoinAppend(p[1..], q);
      assert (p + q)[1..] == p[1..] + q;
    }
  }

  lemma KeyPrefixSplits(p: seq<string>, q: seq<string>)
    requires |p| > 0 && |q| > 0 && SlashFreeParts(p) && SlashFreeParts(q) && Join(p) + "/" <= Join(q)
    ensures p < q
  {
    var t := Join(q)[|Join(p)| + 1..];
    assert Join(q) == Join(p) + "/" + t;
    SplitAppend(p, t);
    SplitJoin(q);
    assert q == p + Split(t);
  }

  lemma {:induction false} PrefixJoins(p: seq<string>, q: seq<string>)
    requires |p| > 0 && p < q
    ensures Join(p) + "/" <= Join(q)
  {
    assert q == p + q[|p|..];
    JoinAppend(p, q[|p|..]);
  }

  /** A string prefix that ends at a '/' is a prefix in components, and the other way round. */
  lemma PrefixOfKeys(p: seq<string>, q: seq<string>)
    requires |p| > 0 && |q| > 0 && SlashFreeParts(p) && SlashFreeParts(q)
    ensures Join(p) + "/" <= Join(q) <==> p < q
  {
    if Join(p) + "/" <= Join(q) { KeyPrefixSplits(p, q); }
    if p < q { PrefixJoins(p, q); }
  }

  // ---- The keys of the tables ---------------------------------------------------------------

  predicate ValidId(i: Id) { SlashFree(i.wf) && |i.path| > 0 && SlashFreeParts(i.path) }

  predicate ValidKey(k: StepKey) {
    match k
    case User(name) => ValidUserKey(name)
    case FanOutKey(name) => SlashFree(name)
    case _ => true
  }

  predicate ValidRef(r: Ref) { ValidId(r.id) && ValidKey(r.key) }

  function KeyName(k: StepKey): string {
    match k
    case User(name) => name
    case FanOutKey(name) => "_fanout:" + name
    case Input => "_input"
    case Output => "_output"
  }

  function Instance(i: Id): string { if |i.path| == 0 then "" else Join(i.path) }

  function MetaKey(i: Id): string { i.wf + "/" + Instance(i) }

  function StepKeyOf(r: Ref): string { r.id.wf + "/" + Instance(r.id) + "/" + KeyName(r.key) }

  function PartsOf(i: Id): seq<string> { [i.wf] + i.path }

  lemma MetaKeyParts(i: Id)
    requires ValidId(i)
    ensures MetaKey(i) == Join(PartsOf(i)) && SlashFreeParts(PartsOf(i)) && Split(MetaKey(i)) == PartsOf(i)
  {
    JoinAppend([i.wf], i.path);
    SplitJoin(PartsOf(i));
  }

  lemma StepKeyParts(r: Ref)
    requires ValidRef(r)
    ensures var parts := PartsOf(r.id) + [KeyName(r.key)];
            StepKeyOf(r) == Join(parts) && SlashFreeParts(parts) && Split(StepKeyOf(r)) == parts
  {
    MetaKeyParts(r.id);
    JoinAppend(PartsOf(r.id), [KeyName(r.key)]);
    SplitJoin(PartsOf(r.id) + [KeyName(r.key)]);
  }

  /** User keys, fan-out keys, `_input` and `_output` never stand for one another. */
  lemma KeyNameInjective(a: StepKey, b: StepKey)
    requires ValidKey(a) && ValidKey(b) && a != b
    ensures KeyName(a) != KeyName(b)
  {
    assert "_fanout:"[1] == 'f' && "_input"[1] == 'i' && "_output"[1] == 'o';
    if a.FanOutKey? && b.FanOutKey? { assert a.name == KeyName(a)[8..] && b.name == KeyName(b)[8..]; }
    if a.FanOutKey? { assert KeyName(a)[0] == '_' && KeyName(a)[1] == 'f'; }
    if b.FanOutKey? { assert KeyName(b)[0] == '_' && KeyName(b)[1] == 'f'; }
  }

  lemma MetaKeyInjective(a: Id, b: Id)
    requires ValidId(a) && ValidId(b) && MetaKey(a) == MetaKey(b)
    ensures a == b
  {
    MetaKeyParts(a);
    MetaKeyParts(b);
    assert a.wf == PartsOf(a)[0] && b.wf == PartsOf(b)[0] && a.path == PartsOf(a)[1..] && b.path == PartsOf(b)[1..];
  }

  /** Step keys are unambiguous, nested children included: workflow, instance and key are all recovered. */
  lemma StepKeyInjective(a: Ref, b: Ref)
    requires ValidRef(a) && ValidRef(b) && StepKeyOf(a) == StepKeyOf(b)
    ensures a == b
  {
    StepKeyParts(a);
    StepKeyParts(b);
    var pa, pb := PartsOf(a.id) + [KeyName(a.key)], PartsOf(b.id) + [KeyName(b.key)];
    assert pa[|pa| - 1] == pb[|pb| - 1] && pa[..|pa| - 1] == PartsOf(a.id) && pb[..|pb| - 1] == PartsOf(b.id);
    assert a.id.wf == PartsOf(a.id)[0] && b.id.wf == PartsOf(b.id)[0];
    assert a.id.path == PartsOf(a.id)[1..] && b.id.path == PartsOf(b.id)[1..];
    if a.key != b.key { KeyNameInjective(a.key, b.key); }
  }

  lemma InstanceInjective(a: Id, b: Id)
    requires ValidId(a) && ValidId(b) && a.wf == b.wf && a != b
    ensures Instance(a) != Instance(b)
  {
    if MetaKey(a) == MetaKey(b) { MetaKeyInjective(a, b); }
  }

  /** The step range of an instance holds exactly the steps of the instance and of its descendants. */
  lemma StepRangeIsSubtree(i: Id, r: Ref)
    requires ValidId(i) && ValidRef(r)
    ensures InRange(StepKeyOf(r), MetaKey(i) + "/", MetaKey(i) + "0") <==> Under(r.id, i)
  {
    RangeIsPrefix(MetaKey(i), StepKeyOf(r));
    MetaKeyParts(i);
    StepKeyParts(r);
    var q := PartsOf(r.id) + [KeyName(r.key)];
    PrefixOfKeys(PartsOf(i), q);
    if PartsOf(i) < q {
      assert PartsOf(i)[0] == q[0] == r.id.wf;
      assert i.path == PartsOf(i)[1..] == q[1..|PartsOf(i)|] == r.id.path[..|i.path|];
    }
    if Under(r.id, i) {
      assert q[..|PartsOf(i)|] == PartsOf(i);
    }
  }

  /** The metadata range of a workflow holds exactly its instances, and the id follows the prefix. */
  lemma MetaRangeIsWorkflow(wf: string, i: Id)
    requires SlashFree(wf) && ValidId(i)
    ensures InRange(MetaKey(i), wf + "/", wf + "0") <==> i.wf == wf
    ensures i.wf == wf ==> MetaKey(i)[|wf| + 1..] == Instance(i)
  {
    RangeIsPrefix(wf, MetaKey(i));
    MetaKeyParts(i);
    PrefixOfKeys([wf], PartsOf(i));
    assert Join([wf]) == wf;
    if [wf] < PartsOf(i) { assert [wf][0] == PartsOf(i)[0]; }
    if i.wf == wf { assert PartsOf(i)[..1] == [wf]; }
  }

  // ---- Splitting a metadata key at its first '/' ---------------------------------------------

  function SplitOnce(s: string): Option<(string, string)> {
    if |s| == 0 then None
    else if s[0] == '/' then Some(("", s[1..]))
    else
      match SplitOnce(s[1..])
      case None => None
      case Some((a, b)) => Some(([s[0]] + a, b))
  }

  lemma {:induction false} SplitOnceFirst(a: string, s: string)
    requires SlashFree(a)
    ensures SplitOnce(a + "/" + s) == Some((a, s))
  {
    if |a| == 0 {
      assert a + "/" + s == "/" + s && ("/" + s)[1..] == s;
    } else {
      SplitOnceFirst(a[1..], s);
      assert (a + "/" + s)[1..] == a[1..] + "/" + s && a == [a[0]] + a[1..];
    }
  }

  // ---- Fan-out children ---------------------------------------------------------------------

  const DIGITS := "0123456789"

  function Decimal(n: nat): (s: string)
    ensures |s| > 0 && '-' !in s && '/' !in s
  {
    if n < 10 then [DIGITS[n]] else Decimal(n / 10) + [DIGITS[n % 10]]
  }

  function DigitValue(c: char): int { (c as int) - ('0' as int) }

  function DecimalValue(s: string): int {
    if |s| == 0 then 0 else DecimalValue(s[..|s| - 1]) * 10 + DigitValue(s[|s| - 1])
  }

  lemma {:induction false} DecimalRoundTrip(n: nat)
    ensures DecimalValue(Decimal(n)) == n
  {
    var s := Decimal(n);
    assert DigitValue(DIGITS[n % 10]) == n % 10;
    if n >= 10 {
      DecimalRoundTrip(n / 10);
      assert s[..|s| - 1] == Decimal(n / 10);
    }
  }

  function LastDash(s: string): (at: int)
    ensures -1 <= at < |s|
  {
    if |s| == 0 then -1 else if s[|s| - 1] == '-' then |s| - 1 else LastDash(s[..|s| - 1])
  }

  lemma {:induction false} LastDashAt(a: string, d: string)
    requires '-' !in d
    ensures LastDash(a + "-" + d) == |a|
  {
    var s := a + "-" + d;
    if |d| > 0 {
      assert s[..|s| - 1] == a + "-" + d[..|d| - 1] && s[|s| - 1] == d[|d| - 1];
      LastDashAt(a, d[..|d| - 1]);
    }
  }

  /** The path component of child `index` of the fan-out `key`. */
  function ChildComponent(key: string, index: nat): string { key + "-" + Decimal(index) }

  function Child(i: Id, key: string, index: nat): Id { Id(i.wf, i.path + [ChildComponent(key, index)]) }

  lemma ChildIsValid(i: Id, key: string, index: nat)
    requires ValidId(i) && SlashFree(key)
    ensures ValidId(Child(i, key, index)) && Under(Child(i, key, index), i)
  {
  }

  /**
   Parent, fan-out key and index are recovered from a child's id, however deep it is nested and
   whatever dashes or digits the key contains.
   */
  lemma ChildInjective(i: Id, key: string, m: nat, i2: Id, key2: string, n: nat)
    requires Child(i, key, m) == Child(i2, key2, n)
    ensures i == i2 && key == key2 && m == n
  {
    var p, p2 := i.path + [ChildComponent(key, m)], i2.path + [ChildComponent(key2, n)];
    assert p[|p| - 1] == p2[|p2| - 1] && p[..|p| - 1] == i.path && p2[..|p2| - 1] == i2.path;
    var c, c2 := ChildComponent(key, m), ChildComponent(key2, n);
    LastDashAt(key, Decimal(m));
    LastDashAt(key2, Decimal(n));
    assert key == c[..|key|] && key2 == c2[..|key2|];
    assert c[|key| + 1..] == Decimal(m) && c2[|key2| + 1..] == Decimal(n);
    DecimalRoundTrip(m);
    DecimalRoundTrip(n);
  }
}
