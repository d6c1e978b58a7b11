/**
 * Per-request environment overrides: the allow-list filter and the scoped
 * set-then-restore of `os.environ` around a request.
 */
module EnvManager {
  import opened Outcomes
  import opened Text
  import opened Dicts
  import opened ProcessEnv

  /** The only variables a request may override. */
  const AllowedVars: set<string> := {"ARIZE_SPACE_ID", "ARIZE_MODEL_ID", "ARIZE_API_KEY", "OPENAI_API_KEY"}

  /** The filter condition of the dict comprehension: allowed key, a value, not blank. */
  predicate Passes(item: (string, Option<string>)) {
    item.0 in AllowedVars && item.1.Some? && !AllSpace(item.1.value)
  }

  /** The surviving items, in their original order and with their values unstripped. */
  function Filter(d: Dict<Option<string>>): (r: Dict<string>)
    ensures |r| <= |d|
    ensures forall i :: 0 <= i < |r| ==> r[i].0 in AllowedVars && !AllSpace(r[i].1) && (r[i].0, Some(r[i].1)) in d
    ensures UniqueKeys(d) ==> UniqueKeys(r)
  {
    if |d| == 0 then []
    else
      var rest := Filter(d[1..]);
      assert forall i :: 0 <= i < |rest| ==> (rest[i].0, Some(rest[i].1)) in d by {
        forall i | 0 <= i < |rest| ensures (rest[i].0, Some(rest[i].1)) in d {
          var j :| 0 <= j < |d[1..]| && d[1..][j] == (rest[i].0, Some(rest[i].1));
          assert d[j + 1] == d[1..][j];
        }
      }
      if Passes(d[0]) then [(d[0].0, d[0].1.value)] + rest else rest
  }

  /** Every item that passes the filter is kept, and nothing else is. */
  lemma {:induction false} FilterKeepsExactly(d: Dict<Option<string>>, k: string, v: string)
    ensures (k, v) in Filter(d) <==> (k, Some(v)) in d && k in AllowedVars && !AllSpace(v)
  {
    if |d| > 0 {
      FilterKeepsExactly(d[1..], k, v);
      assert (k, Some(v)) in d <==> d[0] == (k, Some(v)) || (k, Some(v)) in d[1..] by {
        assert d == [d[0]] + d[1..];
      }
    }
  }

  /** An item passes exactly when it survives. */
  lemma {:induction false} FilterEmpty(d: Dict<Option<string>>)
    ensures Filter(d) == [] <==> forall i :: 0 <= i < |d| ==> !Passes(d[i])
  {
    if |d| > 0 {
      FilterEmpty(d[1..]);
      assert forall i :: 1 <= i < |d| ==> d[i] == d[1..][i - 1];
    }
  }

  /**
   * `validate_env_overrides`: `None` for a missing or empty dict and when no
   * item survives the filter, else the surviving items.
   */
  function ValidateEnvOverrides(overrides: Option<Dict<Option<string>>>): (r: Option<Dict<string>>)
    ensures overrides.None? || overrides.value == [] ==> r.None?
    ensures r.Some? ==> r.value != [] && r.value == Filter(overrides.value)
    ensures overrides.Some? && r.None? ==> forall i :: 0 <= i < |overrides.value| ==> !Passes(overrides.value[i])
  {
    if overrides.None? || overrides.value == [] then None
    else
      var filtered := Filter(overrides.value);
      FilterEmpty(overrides.value);
      if filtered == [] then None else Some(filtered)
  }

  /** One item in front: it is kept exactly when it passes. */
  lemma FilterCons(x: (string, Option<string>), d: Dict<Option<string>>)
    ensures Filter([x] + d) == (if Passes(x) then [(x.0, x.1.value)] else []) + Filter(d)
  {
    assert ([x] + d)[0] == x;
    assert ([x] + d)[1..] == d;
  }

  lemma FilterConsConcat(x: (string, Option<string>), rest: Dict<Option<string>>, b: Dict<Option<string>>)
    requires Filter(rest + b) == Filter(rest) + Filter(b)
    ensures Filter([x] + (rest + b)) == Filter([x] + rest) + Filter(b)
  {
    FilterCons(x, rest + b);
    FilterCons(x, rest);
  }

  /** Filtering a concatenation filters each part, so the survivors keep their input order. */
  lemma {:induction false} FilterConcat(a: Dict<Option<string>>, b: Dict<Option<string>>)
    ensures Filter(a + b) == Filter(a) + Filter(b)
  {
    if |a| == 0 {
      assert a + b == b;
    } else {
      var x, rest := a[0], a[1..];
      FilterConcat(rest, b);
      FilterConsConcat(x, rest, b);
      assert a == [x] + rest;
      assert a + b == [x] + (rest + b);
    }
  }

  /**
   * A validated result as the argument type of `temporary_env_vars`: every
   * item has a value, so the scope assigns and records every validated key,
   * in order.
   */
  function AsOverrides(validated: Option<Dict<string>>): (r: Option<Dict<Option<string>>>)
    ensures r.Some? <==> validated.Some?
    ensures validated.Some? ==> Touched(r.value) == Keys(validated.value)
  {
    match validated
    case None => None
    case Some(d) =>
      var o := seq(|d|, i requires 0 <= i < |d| => (d[i].0, Some(d[i].1)));
      TouchedAllValued(o, d);
      Some(o)
  }

  /** When every item has a value, the touched keys are all the keys. */
  lemma {:induction false} TouchedAllValued(o: Dict<Option<string>>, d: Dict<string>)
    requires |o| == |d|
    requires forall i :: 0 <= i < |o| ==> o[i] == (d[i].0, Some(d[i].1))
    ensures Touched(o) == Keys(d)
  {
    if |o| > 0 {
      var n := |o| - 1;
      TouchedAllValued(o[..n], d[..n]);
      assert Keys(d) == Keys(d[..n]) + [d[n].0];
    }
  }

  lemma AsOverridesUnique(validated: Option<Dict<string>>)
    requires validated.Some? ==> UniqueKeys(validated.value)
    ensures var r := AsOverrides(validated); r.Some? ==> UniqueKeys(r.value)
  {
  }

  // ---------------------------------------------------------------------------
  // `temporary_env_vars`
  // ---------------------------------------------------------------------------

  /** What the context manager remembers between entry and exit. */
  datatype Scope = Scope(original: map<string, Option<string>>, toRestore: seq<string>)

  predicate ScopeWellFormed(sc: Scope) {
    forall k :: k in sc.toRestore ==> k in sc.original
  }

  /** The items of an optional dict; `None` iterates like `{}`. */
  function Items(overrides: Option<Dict<Option<string>>>): Dict<Option<string>> {
    if overrides.None? then [] else overrides.value
  }

  /** The setting loop stops at an item whose assignment `os.environ` refuses. */
  predicate Refused(item: (string, Option<string>)) {
    item.1.Some? && !PutEnvAccepts(item.0, item.1.value)
  }

  /** Index of the first refused item, or `|d|` when all are accepted. */
  function StopAt(d: Dict<Option<string>>): (n: nat)
    ensures n <= |d|
    ensures forall j :: 0 <= j < n ==> !Refused(d[j])
    ensures n < |d| ==> Refused(d[n])
  {
    if |d| == 0 then 0
    else if Refused(d[0]) then 0
    else 1 + StopAt(d[1..])
  }

  /** The keys given a value, in iteration order. */
  function Touched(d: Dict<Option<string>>): (ks: seq<string>)
    ensures forall k :: k in ks <==> exists i :: 0 <= i < |d| && d[i].0 == k && d[i].1.Some?
  {
    if |d| == 0 then []
    else
      var init := Touched(d[..|d| - 1]);
      assert forall i :: 0 <= i < |d| - 1 ==> d[..|d| - 1][i] == d[i];
      if d[|d| - 1].1.Some? then init + [d[|d| - 1].0] else init
  }

  /** The environment after every item of `d` with a value has been assigned, in order. */
  function Applied(vars: map<string, string>, d: Dict<Option<string>>): map<string, string> {
    if |d| == 0 then vars
    else
      var w := Applied(vars, d[..|d| - 1]);
      var last := d[|d| - 1];
      if last.1.Some? then w[last.0 := last.1.value] else w
  }

  /** `original_values`: each recorded key's value before the call, `None` when unset. */
  function Originals(vars: map<string, string>, ks: seq<string>): (o: map<string, Option<string>>)
    ensures forall k :: k in o <==> k in ks
    ensures forall k :: k in o ==> o[k] == Lookup(vars, k)
  {
    map k | k in ks :: Lookup(vars, k)
  }

  /** The scope left by entry: the accepted keys, plus the refused one, which was recorded first. */
  function EnterScope(vars: map<string, string>, d: Dict<Option<string>>): Scope {
    var n := StopAt(d);
    var ks := Touched(d[..n]) + (if n < |d| then [d[n].0] else []);
    Scope(Originals(vars, ks), ks)
  }

  /** The environment left by entry. */
  function EnterVars(vars: map<string, string>, d: Dict<Option<string>>): map<string, string> {
    Applied(vars, d[..StopAt(d)])
  }

  /** The `finally` loop: pop what was unset, put back what was set. */
  function RestoreKeys(vars: map<string, string>, original: map<string, Option<string>>, ks: seq<string>): map<string, string>
    requires forall k :: k in ks ==> k in original
  {
    if |ks| == 0 then vars
    else
      var w := RestoreKeys(vars, original, ks[..|ks| - 1]);
      var k := ks[|ks| - 1];
      match original[k]
      case None => w - {k}
      case Some(v) => w[k := v]
  }

  /**
   * Inside the body: a key given a value holds that value, a key given `None`
   * and every key not named keep what they held before.
   */
  lemma {:induction false} AppliedLookup(vars: map<string, string>, d: Dict<Option<string>>, k: string)
    requires UniqueKeys(d)
    ensures var g := Get(d, k); Lookup(Applied(vars, d), k) == if g.Some? && g.value.Some? then g.value else Lookup(vars, k)
  {
    if |d| > 0 {
      var init := d[..|d| - 1];
      assert UniqueKeys(init);
      AppliedLookup(vars, init, k);
      var last := d[|d| - 1];
      assert forall i :: 0 <= i < |init| ==> init[i] == d[i];
      if last.0 == k {
        assert !HasKey(init, k);
      } else {
        assert HasKey(d, k) ==> HasKey(init, k);
        if HasKey(init, k) {
          var i :| 0 <= i < |init| && init[i].0 == k;
          assert Get(d, k) == Some(d[i].1);
        }
      }
    }
  }

  /** After exit, a restored key holds its recorded value; every other key is as the body left it. */
  lemma {:induction false} RestoreLookup(vars: map<string, string>, original: map<string, Option<string>>, ks: seq<string>, k: string)
    requires forall x :: x in ks ==> x in original
    ensures Lookup(RestoreKeys(vars, original, ks), k) == if k in ks then original[k] else Lookup(vars, k)
  {
    if |ks| > 0 {
      var init := ks[..|ks| - 1];
      assert forall x :: x in init ==> x in ks;
      RestoreLookup(vars, original, init, k);
      assert k in ks <==> k in init || k == ks[|ks| - 1] by {
        assert ks == init + [ks[|ks| - 1]];
      }
    }
  }

  lemma MapsEqualByLookup(a: map<string, string>, b: map<string, string>)
    requires forall k :: Lookup(a, k) == Lookup(b, k)
    ensures a == b
  {
    assert forall k :: k in a <==> Lookup(a, k).Some?;
  }

  /**
   * On every exit path, whatever the body did to the environment, each key the
   * entry touched (including one whose assignment was refused) is back to its
   * value before entry, or absent if it was absent; keys not touched keep
   * what the body left.
   */
  lemma {:induction false} ExitRestoresTouched(before: map<string, string>, d: Dict<Option<string>>, afterBody: map<string, string>, k: string)
    ensures var sc := EnterScope(before, d);
      Lookup(RestoreKeys(afterBody, sc.original, sc.toRestore), k) ==
        if k in sc.toRestore then Lookup(before, k) else Lookup(afterBody, k)
  {
    var sc := EnterScope(before, d);
    RestoreLookup(afterBody, sc.original, sc.toRestore, k);
  }

  /** When the body leaves the environment alone, entry then exit is the identity. */
  lemma {:induction false} EnterExitRoundTrip(before: map<string, string>, d: Dict<Option<string>>)
    requires UniqueKeys(d)
    ensures var sc := EnterScope(before, d);
      RestoreKeys(EnterVars(before, d), sc.original, sc.toRestore) == before
  {
    var n := StopAt(d);
    var p := d[..n];
    var sc := EnterScope(before, d);
    var inside := EnterVars(before, d);
    assert UniqueKeys(p);
    forall k
      ensures Lookup(RestoreKeys(inside, sc.original, sc.toRestore), k) == Lookup(before, k)
    {
      RestoreLookup(inside, sc.original, sc.toRestore, k);
      if k !in sc.toRestore {
        AppliedLookup(before, p, k);
        assert k !in Touched(p);
        var g := Get(p, k);
        assert g.Some? ==> (k, g.value) in p;
        assert g.Some? ==> g.value.None?;
      }
    }
    MapsEqualByLookup(RestoreKeys(inside, sc.original, sc.toRestore), before);
  }

  /**
   * When the body changes no variable but `h`, exit leaves every variable but
   * `h` as it was before entry.
   */
  lemma {:induction false} ExitRestoresAllBut(before: map<string, string>, d: Dict<Option<string>>, afterBody: map<string, string>, h: string)
    requires UniqueKeys(d)
    requires forall k :: k != h ==> Lookup(afterBody, k) == Lookup(EnterVars(before, d), k)
    ensures var sc := EnterScope(before, d);
      forall k :: k != h ==> Lookup(RestoreKeys(afterBody, sc.original, sc.toRestore), k) == Lookup(before, k)
  {
    var sc := EnterScope(before, d);
    var inside := EnterVars(before, d);
    EnterExitRoundTrip(before, d);
    forall k | k != h
      ensures Lookup(RestoreKeys(afterBody, sc.original, sc.toRestore), k) == Lookup(before, k)
    {
      ExitRestoresTouched(before, d, afterBody, k);
      RestoreLookup(inside, sc.original, sc.toRestore, k);
    }
  }

  /** One turn of the setting loop, in terms of the prefix already processed. */
  lemma EnterStep(before: map<string, string>, d: Dict<Option<string>>, i: nat)
    requires i < |d| && UniqueKeys(d)
    ensures Touched(d[..i + 1]) == Touched(d[..i]) + (if d[i].1.Some? then [d[i].0] else [])
    ensures Applied(before, d[..i + 1]) ==
      if d[i].1.Some? then Applied(before, d[..i])[d[i].0 := d[i].1.value] else Applied(before, d[..i])
    ensures Lookup(Applied(before, d[..i]), d[i].0) == Lookup(before, d[i].0)
  {
    assert d[..i + 1][..i] == d[..i];
    assert UniqueKeys(d[..i]);
    AppliedLookup(before, d[..i], d[i].0);
    assert !HasKey(d[..i], d[i].0);
  }

  lemma OriginalsExtend(vars: map<string, string>, ks: seq<string>, k: string)
    ensures Originals(vars, ks + [k]) == Originals(vars, ks)[k := Lookup(vars, k)]
  {
  }

  /**
   * Entry of `temporary_env_vars`: with no overrides nothing changes; otherwise
   * each item with a value is recorded, queued for restoration and assigned, in
   * order, until `os.environ` refuses one (`failed`), which has been recorded
   * and queued already.
   */
  method Enter(env: Environment, overrides: Option<Dict<Option<string>>>) returns (scope: Scope, failed: bool)
    requires UniqueKeys(Items(overrides))
    modifies env
    ensures overrides.None? || overrides.value == [] ==> env.vars == old(env.vars) && scope.toRestore == [] && !failed
    ensures env.vars == EnterVars(old(env.vars), Items(overrides))
    ensures scope == EnterScope(old(env.vars), Items(overrides))
    ensures failed <==> StopAt(Items(overrides)) < |Items(overrides)|
  {
    if overrides.None? || overrides.value == [] {
      return Scope(map[], []), false;
    }
    var d := overrides.value;
    var original: map<string, Option<string>> := map[];
    var toRestore: seq<string> := [];
    failed := false;
    var i := 0;
    while i < |d|
      invariant 0 <= i <= |d|
      invariant forall j :: 0 <= j < i ==> !Refused(d[j])
      invariant env.vars == Applied(old(env.vars), d[..i])
      invariant toRestore == Touched(d[..i])
      invariant original == Originals(old(env.vars), toRestore)
    {
      var (key, value) := d[i];
      EnterStep(old(env.vars), d, i);
      if value.Some? {
        original := original[key := Lookup(env.vars, key)];
        OriginalsExtend(old(env.vars), toRestore, key);
        toRestore := toRestore + [key];
        if !PutEnvAccepts(key, value.value) {
          failed := true;
          break;
        }
        env.vars := env.vars[key := value.value];
      }
      i := i + 1;
    }
    assert failed ==> i == StopAt(d);
    assert !failed ==> i == |d| && d[..i] == d;
    scope := Scope(original, toRestore);
  }

  /** The `finally` block of `temporary_env_vars`. */
  method Exit(env: Environment, scope: Scope)
    requires ScopeWellFormed(scope)
    modifies env
    ensures env.vars == RestoreKeys(old(env.vars), scope.original, scope.toRestore)
  {
    var i := 0;
    while i < |scope.toRestore|
      invariant 0 <= i <= |scope.toRestore|
      invariant env.vars == RestoreKeys(old(env.vars), scope.original, scope.toRestore[..i])
    {
      var key := scope.toRestore[i];
      assert scope.toRestore[..i + 1][..i] == scope.toRestore[..i];
      match scope.original[key] {
        case None => env.vars := env.vars - {key};
        case Some(v) => env.vars := env.vars[key := v];
      }
      i := i + 1;
    }
    assert scope.toRestore[..i] == scope.toRestore;
  }

  lemma EnterScopeWellFormed(vars: map<string, string>, d: Dict<Option<string>>)
    ensures ScopeWellFormed(EnterScope(vars, d))
  {
  }
}
