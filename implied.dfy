/** The implied-argument merge behind intLogger.With (intlogger.go) and
    sinkLogger.With (multisink_logger.go): the parent's pairs and the new
    pairs go into a map keyed by string, in order, so a later pair replaces
    an earlier one; the keys are collected (the parent's all, a new key
    only the first time it is seen), sorted, and laid out again as
    key/value pairs. */
module Implied {
  import opened GoStrings
  import opened Values

  /** The key of pair `g`, read with the `.(string)` type assertion. A
      non-string key makes that assertion panic; StringKeys rules it out. */
  function KeyOf(pairs: seq<Value>, g: nat): string
    requires 2 * g < |pairs|
  {
    if pairs[2 * g].Str? then pairs[2 * g].s else ""
  }

  /** Whole pairs, each with a string key: what the merge loops demand of
      both argument lists. */
  predicate StringKeys(pairs: seq<Value>) {
    |pairs| % 2 == 0 && forall g :: 0 <= g < |pairs| / 2 ==> KeyIsString(pairs, g)
  }

  predicate KeyIsString(pairs: seq<Value>, g: nat)
    requires 2 * g < |pairs|
  {
    pairs[2 * g].Str?
  }

  /** A Go map read: the zero value (nil) for a missing key. */
  function Lookup(m: map<string, Value>, k: string): Value {
    if k in m then m[k] else Nil
  }

  /** The first `n` pairs assigned into `m` one after the other
      (`result[key] = ...`). */
  function Assign(m: map<string, Value>, pairs: seq<Value>, n: nat): map<string, Value>
    requires 2 * n <= |pairs|
  {
    if n == 0 then m
    else Assign(m, pairs, n - 1)[KeyOf(pairs, n - 1) := pairs[2 * n - 1]]
  }

  /** The keys of the first `n` pairs, in order, repeats included. */
  function KeysIn(pairs: seq<Value>, n: nat): (r: seq<string>)
    requires 2 * n <= |pairs|
    ensures |r| == n && forall g :: 0 <= g < n ==> r[g] == KeyOf(pairs, g)
  {
    if n == 0 then [] else KeysIn(pairs, n - 1) + [KeyOf(pairs, n - 1)]
  }

  /** The keys the second loop appends: a pair's key when the map does not
      hold it yet. */
  function NewKeys(m: map<string, Value>, pairs: seq<Value>, n: nat): seq<string>
    requires 2 * n <= |pairs|
  {
    if n == 0 then []
    else if KeyOf(pairs, n - 1) in Assign(m, pairs, n - 1) then NewKeys(m, pairs, n - 1)
    else NewKeys(m, pairs, n - 1) + [KeyOf(pairs, n - 1)]
  }

  /** The third loop: each key followed by its value in the map. */
  function Layout(keys: seq<string>, m: map<string, Value>): (r: seq<Value>)
    ensures |r| == 2 * |keys|
    ensures forall i :: 0 <= i < |keys| ==> r[2 * i] == Str(keys[i]) && r[2 * i + 1] == Lookup(m, keys[i])
  {
    if |keys| == 0 then []
    else Layout(keys[..|keys| - 1], m) + [Str(keys[|keys| - 1]), Lookup(m, keys[|keys| - 1])]
  }

  /** The map after both reading loops. */
  function MergedMap(implied: seq<Value>, args: seq<Value>): map<string, Value>
    requires |implied| % 2 == 0 && |args| % 2 == 0
  {
    Assign(Assign(map[], implied, |implied| / 2), args, |args| / 2)
  }

  /** The key list before sorting. */
  function MergedKeys(implied: seq<Value>, args: seq<Value>): seq<string>
    requires |implied| % 2 == 0 && |args| % 2 == 0
  {
    KeysIn(implied, |implied| / 2) + NewKeys(Assign(map[], implied, |implied| / 2), args, |args| / 2)
  }

  /** The implied arguments of the derived logger, for paired `args`. */
  function Merged(implied: seq<Value>, args: seq<Value>): seq<Value>
    requires |implied| % 2 == 0 && |args| % 2 == 0
  {
    Layout(SortStrings(MergedKeys(implied, args)), MergedMap(implied, args))
  }

  /** intLogger.With on any argument count: a dangling last value is kept
      after the sorted pairs under MissingKey, unless it is nil. */
  function WithImplied(implied: seq<Value>, args: seq<Value>): seq<Value>
    requires |implied| % 2 == 0
  {
    var n := |args|;
    if n % 2 == 0 then Merged(implied, args)
    else if args[n - 1] == Nil then Merged(implied, args[..n - 1])
    else Merged(implied, args[..n - 1]) + [Str(MissingKey), args[n - 1]]
  }

  predicate Distinct(s: seq<string>) {
    forall i, j :: 0 <= i < j < |s| ==> s[i] != s[j]
  }

  // ---- the merge loops ----

  /** With's three loops: read the parent's pairs, read the new pairs,
      sort the keys and lay the pairs out again. */
  method MergeImplied(implied: seq<Value>, args: seq<Value>) returns (out: seq<Value>)
    requires StringKeys(implied) && StringKeys(args)
    ensures out == Merged(implied, args)
  {
    var keys, result := ReadImplied(implied);
    keys, result := ReadArgs(keys, result, args);
    var sorted := SortStrings(keys);
    out := LayOut(sorted, result);
  }

  /** The first loop: every parent key in order, and the parent's map. */
  method ReadImplied(implied: seq<Value>) returns (keys: seq<string>, result: map<string, Value>)
    requires StringKeys(implied)
    ensures keys == KeysIn(implied, |implied| / 2) && result == Assign(map[], implied, |implied| / 2)
  {
    result := map[];
    keys := [];
    var i := 0;
    ghost var g := 0;
    while i < |implied|
      invariant i == 2 * g && i <= |implied|
      invariant keys == KeysIn(implied, g) && result == Assign(map[], implied, g)
    {
      assert KeyIsString(implied, g);
      var key := implied[i].s;
      keys := keys + [key];
      result := result[key := implied[i + 1]];
      i := i + 2;
      g := g + 1;
    }
  }

  /** The second loop: a new key is appended the first time the map lacks
      it, and every pair is assigned. */
  method ReadArgs(start: seq<string>, base: map<string, Value>, args: seq<Value>)
    returns (keys: seq<string>, result: map<string, Value>)
    requires StringKeys(args)
    ensures keys == start + NewKeys(base, args, |args| / 2) && result == Assign(base, args, |args| / 2)
  {
    keys := start;
    result := base;
    var i := 0;
    ghost var g := 0;
    while i < |args|
      invariant i == 2 * g && i <= |args|
      invariant keys == start + NewKeys(base, args, g) && result == Assign(base, args, g)
    {
      assert KeyIsString(args, g);
      var key := args[i].s;
      if key !in result {
        keys := keys + [key];
      }
      result := result[key := args[i + 1]];
      i := i + 2;
      g := g + 1;
    }
  }

  /** The third loop: each sorted key, then its value in the map. */
  method LayOut(sorted: seq<string>, result: map<string, Value>) returns (out: seq<Value>)
    ensures out == Layout(sorted, result)
  {
    out := [];
    var j := 0;
    while j < |sorted|
      invariant j <= |sorted|
      invariant out == Layout(sorted[..j], result)
    {
      var k := sorted[j];
      var v := if k in result then result[k] else Nil;
      assert sorted[..j + 1][..j] == sorted[..j];
      out := out + [Str(k), v];
      j := j + 1;
    }
    assert sorted[..j] == sorted;
  }

  // ---- properties of the map and the key lists ----

  /** The map holds exactly the keys it started with and the pairs' keys. */
  lemma {:induction false} AssignKeys(m: map<string, Value>, pairs: seq<Value>, n: nat, k: string)
    requires 2 * n <= |pairs|
    ensures k in Assign(m, pairs, n) <==> k in m || k in KeysIn(pairs, n)
  {
    if n > 0 {
      AssignKeys(m, pairs, n - 1, k);
    }
  }

  /** The last pair with a given key decides its value. */
  lemma {:induction false} AssignLastWins(m: map<string, Value>, pairs: seq<Value>, n: nat, g: nat)
    requires 2 * n <= |pairs| && g < n
    requires forall h :: g < h < n ==> KeyOf(pairs, h) != KeyOf(pairs, g)
    ensures Lookup(Assign(m, pairs, n), KeyOf(pairs, g)) == pairs[2 * g + 1]
  {
    if g < n - 1 {
      AssignLastWins(m, pairs, n - 1, g);
    }
  }

  /** A key no pair names keeps its entry. */
  lemma {:induction false} AssignUntouched(m: map<string, Value>, pairs: seq<Value>, n: nat, k: string)
    requires 2 * n <= |pairs| && k !in KeysIn(pairs, n)
    ensures Lookup(Assign(m, pairs, n), k) == Lookup(m, k)
  {
    if n > 0 {
      assert KeysIn(pairs, n) == KeysIn(pairs, n - 1) + [KeyOf(pairs, n - 1)];
      AssignUntouched(m, pairs, n - 1, k);
    }
  }

  /** A key is appended by the second loop exactly when some pair names
      it and the map did not hold it at the start. */
  lemma {:induction false} NewKeysMember(m: map<string, Value>, pairs: seq<Value>, n: nat, k: string)
    requires 2 * n <= |pairs|
    ensures k in NewKeys(m, pairs, n) <==> k in KeysIn(pairs, n) && k !in m
  {
    if n > 0 {
      NewKeysMember(m, pairs, n - 1, k);
      var key := KeyOf(pairs, n - 1);
      assert KeysIn(pairs, n) == KeysIn(pairs, n - 1) + [key];
      AssignKeys(m, pairs, n - 1, key);
    }
  }

  /** Every appended key is in the map by then. */
  lemma {:induction false} NewKeysAssigned(m: map<string, Value>, pairs: seq<Value>, n: nat, k: string)
    requires 2 * n <= |pairs|
    ensures k in NewKeys(m, pairs, n) ==> k in Assign(m, pairs, n)
  {
    if n > 0 && k != KeyOf(pairs, n - 1) {
      NewKeysAssigned(m, pairs, n - 1, k);
    }
  }

  /** Appending a string not yet present keeps a list repeat-free. */
  lemma DistinctSnoc(s: seq<string>, x: string)
    requires Distinct(s) && x !in s
    ensures Distinct(s + [x])
  {
    forall i, j | 0 <= i < j < |s + [x]|
      ensures (s + [x])[i] != (s + [x])[j]
    {
      assert (s + [x])[i] == s[i];
      if j < |s| {
        assert (s + [x])[j] == s[j];
      }
    }
  }

  /** Each key is appended at most once. */
  lemma {:induction false} NewKeysDistinct(m: map<string, Value>, pairs: seq<Value>, n: nat)
    requires 2 * n <= |pairs|
    ensures Distinct(NewKeys(m, pairs, n))
  {
    if n > 0 {
      NewKeysDistinct(m, pairs, n - 1);
      var key := KeyOf(pairs, n - 1);
      var prev := NewKeys(m, pairs, n - 1);
      if key !in Assign(m, pairs, n - 1) {
        NewKeysAssigned(m, pairs, n - 1, key);
        DistinctSnoc(prev, key);
      }
    }
  }

  /** The keys the second loop appends are the pairs' keys the map did not
      hold at the start, each once. */
  lemma NewKeysExactly(m: map<string, Value>, pairs: seq<Value>, n: nat)
    requires 2 * n <= |pairs|
    ensures forall k :: k in NewKeys(m, pairs, n) <==> k in KeysIn(pairs, n) && k !in m
    ensures Distinct(NewKeys(m, pairs, n))
  {
    forall k
      ensures k in NewKeys(m, pairs, n) <==> k in KeysIn(pairs, n) && k !in m
    {
      NewKeysMember(m, pairs, n, k);
    }
    NewKeysDistinct(m, pairs, n);
  }

  lemma {:induction false} DistinctCount(s: seq<string>, x: string)
    requires Distinct(s)
    ensures multiset(s)[x] <= 1
  {
    if |s| > 0 {
      var init := s[..|s| - 1];
      assert s == init + [s[|s| - 1]];
      assert Distinct(init);
      DistinctCount(init, x);
      if x == s[|s| - 1] {
        assert x !in init;
      }
    }
  }

  /** A permutation of a sequence without repeats has none either. */
  lemma DistinctPermutation(a: seq<string>, b: seq<string>)
    requires multiset(a) == multiset(b) && Distinct(a)
    ensures Distinct(b)
  {
    forall i, j | 0 <= i < j < |b| ensures b[i] != b[j] {
      DistinctCount(a, b[i]);
      assert b == b[..j] + b[j..];
      assert b[..j][i] == b[i] && b[j..][0] == b[j];
      assert b[i] in multiset(b[..j]) && b[j] in multiset(b[j..]);
    }
  }

  // ---- properties of the merge ----

  /** The merged pairs are laid out under the sorted key list. */
  lemma MergedLayout(implied: seq<Value>, args: seq<Value>)
    requires |implied| % 2 == 0 && |args| % 2 == 0
    ensures var out := Merged(implied, args);
            && |out| % 2 == 0
            && KeysIn(out, |out| / 2) == SortStrings(MergedKeys(implied, args))
            && forall g :: 0 <= g < |out| / 2 ==> out[2 * g + 1] == Lookup(MergedMap(implied, args), KeyOf(out, g))
  {
    var sorted := SortStrings(MergedKeys(implied, args));
    var out := Merged(implied, args);
    assert |out| / 2 == |sorted|;
    assert KeysIn(out, |out| / 2) == sorted;
  }

  /** With: every key position of the result holds a string, so the result
      can itself be merged again. */
  lemma MergedStringKeys(implied: seq<Value>, args: seq<Value>)
    requires |implied| % 2 == 0 && |args| % 2 == 0
    ensures StringKeys(Merged(implied, args))
  {
    LayoutStringKeys(SortStrings(MergedKeys(implied, args)), MergedMap(implied, args));
  }

  /** Every key position of a layout holds a string. */
  lemma LayoutStringKeys(keys: seq<string>, m: map<string, Value>)
    ensures StringKeys(Layout(keys, m))
  {
    var out := Layout(keys, m);
    forall g | 0 <= g < |out| / 2 ensures KeyIsString(out, g) {
      assert out[2 * g] == Str(keys[g]);
    }
  }

  /** With: the result's keys are in ascending order. */
  lemma MergedSorted(implied: seq<Value>, args: seq<Value>)
    requires |implied| % 2 == 0 && |args| % 2 == 0
    ensures var out := Merged(implied, args); Sorted(KeysIn(out, |out| / 2))
  {
    MergedLayout(implied, args);
    SortStringsSorted(MergedKeys(implied, args));
  }

  /** The sorted key list holds the parent's keys and the new keys. */
  lemma SortedKeysHold(implied: seq<Value>, args: seq<Value>, k: string)
    requires |implied| % 2 == 0 && |args| % 2 == 0
    ensures k in SortStrings(MergedKeys(implied, args)) <==>
            k in KeysIn(implied, |implied| / 2) || k in KeysIn(args, |args| / 2)
  {
    var keys := MergedKeys(implied, args);
    assert k in SortStrings(keys) <==> k in keys by {
      assert k in SortStrings(keys) <==> k in multiset(SortStrings(keys));
    }
    var base := Assign(map[], implied, |implied| / 2);
    NewKeysExactly(base, args, |args| / 2);
    AssignKeys(map[], implied, |implied| / 2, k);
  }

  /** A key of the list appears in the laid-out pairs, with its value. */
  lemma InLayout(keys: seq<string>, m: map<string, Value>, k: string) returns (i: nat)
    requires k in keys
    ensures var out := Layout(keys, m);
            i < |out| / 2 && KeyOf(out, i) == k && out[2 * i + 1] == Lookup(m, k)
  {
    var out := Layout(keys, m);
    i :| 0 <= i < |keys| && keys[i] == k;
    assert out[2 * i] == Str(k);
  }

  /** With: the result's keys are the parent's keys and the new keys. */
  lemma MergedKeySet(implied: seq<Value>, args: seq<Value>, k: string)
    requires |implied| % 2 == 0 && |args| % 2 == 0
    ensures var out := Merged(implied, args);
            k in KeysIn(out, |out| / 2) <==> k in KeysIn(implied, |implied| / 2) || k in KeysIn(args, |args| / 2)
  {
    MergedLayout(implied, args);
    SortedKeysHold(implied, args, k);
  }

  /** With: a parent without repeated keys gives a result without repeated
      keys; a new key already present is not added again. */
  lemma MergedDistinct(implied: seq<Value>, args: seq<Value>)
    requires |implied| % 2 == 0 && |args| % 2 == 0
    requires Distinct(KeysIn(implied, |implied| / 2))
    ensures var out := Merged(implied, args); Distinct(KeysIn(out, |out| / 2))
  {
    MergedLayout(implied, args);
    var old_ := KeysIn(implied, |implied| / 2);
    var base := Assign(map[], implied, |implied| / 2);
    var added := NewKeys(base, args, |args| / 2);
    NewKeysExactly(base, args, |args| / 2);
    forall k | k in old_ ensures k in base {
      AssignKeys(map[], implied, |implied| / 2, k);
    }
    var keys := old_ + added;
    forall i, j | 0 <= i < j < |keys| ensures keys[i] != keys[j] {
      if j >= |old_| && i < |old_| {
        assert keys[j] in added && keys[i] in old_;
      }
    }
    DistinctPermutation(keys, SortStrings(keys));
  }

  /** With: the value of the last new pair with a key is the value that key
      gets, whatever the parent held. */
  lemma MergedNewWins(implied: seq<Value>, args: seq<Value>, g: nat)
    requires |implied| % 2 == 0 && |args| % 2 == 0 && g < |args| / 2
    requires forall h :: g < h < |args| / 2 ==> KeyOf(args, h) != KeyOf(args, g)
    ensures var out := Merged(implied, args);
            exists i :: 0 <= i < |out| / 2 && KeyOf(out, i) == KeyOf(args, g) && out[2 * i + 1] == args[2 * g + 1]
  {
    var k := KeyOf(args, g);
    var m := MergedMap(implied, args);
    assert Lookup(m, k) == args[2 * g + 1] by {
      AssignLastWins(Assign(map[], implied, |implied| / 2), args, |args| / 2, g);
    }
    assert k in SortStrings(MergedKeys(implied, args)) by {
      assert k == KeysIn(args, |args| / 2)[g];
      SortedKeysHold(implied, args, k);
    }
    var i := InLayout(SortStrings(MergedKeys(implied, args)), m, k);
    var out := Merged(implied, args);
    assert KeyOf(out, i) == k && out[2 * i + 1] == args[2 * g + 1];
  }

  /** With: a parent key that no new pair names keeps the parent's value. */
  lemma MergedKeepsParent(implied: seq<Value>, args: seq<Value>, h: nat)
    requires |implied| % 2 == 0 && |args| % 2 == 0 && h < |implied| / 2
    requires forall j :: h < j < |implied| / 2 ==> KeyOf(implied, j) != KeyOf(implied, h)
    requires KeyOf(implied, h) !in KeysIn(args, |args| / 2)
    ensures var out := Merged(implied, args);
            exists i :: 0 <= i < |out| / 2 && KeyOf(out, i) == KeyOf(implied, h) && out[2 * i + 1] == implied[2 * h + 1]
  {
    var k := KeyOf(implied, h);
    var base := Assign(map[], implied, |implied| / 2);
    var m := MergedMap(implied, args);
    assert Lookup(m, k) == implied[2 * h + 1] by {
      AssignLastWins(map[], implied, |implied| / 2, h);
      AssignUntouched(base, args, |args| / 2, k);
    }
    assert k in SortStrings(MergedKeys(implied, args)) by {
      assert k == KeysIn(implied, |implied| / 2)[h];
      SortedKeysHold(implied, args, k);
    }
    var i := InLayout(SortStrings(MergedKeys(implied, args)), m, k);
    var out := Merged(implied, args);
    assert KeyOf(out, i) == k && out[2 * i + 1] == implied[2 * h + 1];
  }

  /** A whole pair with a string key can be added without breaking
      StringKeys. */
  lemma StringKeysAppend(pairs: seq<Value>, k: string, v: Value)
    requires StringKeys(pairs)
    ensures StringKeys(pairs + [Str(k), v])
  {
    var r := pairs + [Str(k), v];
    forall g | 0 <= g < |r| / 2 ensures KeyIsString(r, g) {
      if g < |pairs| / 2 {
        assert KeyIsString(pairs, g);
      }
    }
  }

  /** intLogger.With with an odd count: the sorted pairs come first; a
      non-nil dangling value follows as the value of MissingKey; a nil one
      leaves no trace. */
  lemma WithDanglingValue(implied: seq<Value>, pairs: seq<Value>, extra: Value)
    requires |implied| % 2 == 0 && |pairs| % 2 == 0
    ensures var r := WithImplied(implied, pairs + [extra]);
            && (extra != Nil ==> r == Merged(implied, pairs) + [Str(MissingKey), extra])
            && (extra == Nil ==> r == Merged(implied, pairs))
  {
    var args := pairs + [extra];
    assert |args| % 2 == 1;
    assert args[..|args| - 1] == pairs;
  }
}
