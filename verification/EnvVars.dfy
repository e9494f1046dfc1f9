/** Merging the environment variables that users set into the ones that the operator generates. */
module EnvVars {
  import opened Kube

  // ---------- Specification ----------

  predicate HasName(env: seq<EnvVar>, name: string) {
    exists i :: 0 <= i < |env| && env[i].name == name
  }

  function Replaced(env: seq<EnvVar>, v: EnvVar): (r: seq<EnvVar>)
    ensures |r| == |env|
    ensures forall i :: 0 <= i < |r| ==> r[i] == if env[i].name == v.name then v else env[i]
  {
    seq(|env|, i requires 0 <= i < |env| => if env[i].name == v.name then v else env[i])
  }

  function Put(env: seq<EnvVar>, v: EnvVar): seq<EnvVar> {
    if HasName(env, v.name) then Replaced(env, v) else env + [v]
  }

  function Merge(original: seq<EnvVar>, added: seq<EnvVar>): seq<EnvVar> {
    if added == [] then original else Put(Merge(original, added[..|added| - 1]), added[|added| - 1])
  }

  /** The last variable with the name of `v`, or `v` itself. */
  function Last(added: seq<EnvVar>, v: EnvVar): EnvVar {
    if added == [] then v
    else if added[|added| - 1].name == v.name then added[|added| - 1]
    else Last(added[..|added| - 1], v)
  }

  function Updated(env: seq<EnvVar>, added: seq<EnvVar>): (r: seq<EnvVar>)
    ensures |r| == |env|
    ensures forall i :: 0 <= i < |r| ==> r[i] == Last(added, env[i])
  {
    seq(|env|, i requires 0 <= i < |env| => Last(added, env[i]))
  }

  /** The first occurrence of every name that the original lacks. */
  function Newcomers(original: seq<EnvVar>, added: seq<EnvVar>): seq<EnvVar> {
    if added == [] then []
    else
      var front, v := Newcomers(original, added[..|added| - 1]), added[|added| - 1];
      if HasName(original + front, v.name) then front else front + [v]
  }

  ghost predicate Unique(env: seq<EnvVar>) {
    forall i, j :: 0 <= i < j < |env| ==> env[i].name != env[j].name
  }

  // ---------- In place ----------

  method MergeEnvVars(original: seq<EnvVar>, added: seq<EnvVar>) returns (env: seq<EnvVar>)
    ensures env == Merge(original, added)
  {
    env := original;
    for i := 0 to |added|
      invariant env == Merge(original, added[..i])
    {
      var v := added[i];
      var replaced := false;
      ghost var before := env;
      for position := 0 to |env|
        invariant |env| == |before|
        invariant env[..position] == Replaced(before, v)[..position]
        invariant env[position..] == before[position..]
        invariant replaced <==> exists k :: 0 <= k < position && before[k].name == v.name
      {
        assert env[position] == env[position..][0] == before[position];
        if env[position].name == v.name {
          env := env[position := v];
          replaced := true;
        }
      }
      assert replaced <==> HasName(before, v.name);
      if !replaced {
        assert env == before;
        env := env + [v];
      }
      assert added[..i + 1][..i] == added[..i];
    }
    assert added[..|added|] == added;
  }

  // ---------- What a merge is ----------

  lemma {:induction false} LastName(added: seq<EnvVar>, v: EnvVar)
    ensures Last(added, v).name == v.name
  {
    if added != [] {
      LastName(added[..|added| - 1], v);
    }
  }

  lemma SameNames(a: seq<EnvVar>, b: seq<EnvVar>, name: string)
    requires |a| == |b| && forall i :: 0 <= i < |a| ==> a[i].name == b[i].name
    ensures HasName(a, name) == HasName(b, name)
  {
    if i :| 0 <= i < |a| && a[i].name == name {
      assert b[i].name == name;
    }
    if i :| 0 <= i < |b| && b[i].name == name {
      assert a[i].name == name;
    }
  }

  lemma UpdatedNames(env: seq<EnvVar>, added: seq<EnvVar>, name: string)
    ensures HasName(Updated(env, added), name) == HasName(env, name)
    ensures forall i :: 0 <= i < |env| ==> Updated(env, added)[i].name == env[i].name
  {
    forall i | 0 <= i < |env| ensures Updated(env, added)[i].name == env[i].name {
      LastName(added, env[i]);
    }
    SameNames(Updated(env, added), env, name);
  }

  lemma {:induction false} LastOfNewName(added: seq<EnvVar>, v: EnvVar)
    requires !HasName(added, v.name)
    ensures Last(added, v) == v
  {
    if added != [] {
      assert added[|added| - 1].name != v.name;
      assert forall i :: 0 <= i < |added| - 1 ==> added[..|added| - 1][i] == added[i];
      LastOfNewName(added[..|added| - 1], v);
    }
  }

  lemma {:induction false} AllNamesPresent(original: seq<EnvVar>, added: seq<EnvVar>, name: string)
    ensures HasName(original + Newcomers(original, added), name) <==> HasName(original, name) || HasName(added, name)
  {
    if added == [] {
      assert original + [] == original;
    } else {
      var front, v := added[..|added| - 1], added[|added| - 1];
      AllNamesPresent(original, front, name);
      AllNamesPresent(original, front, v.name);
      HasNameJoins(front, [v], name);
      assert front + [v] == added;
      HasNameJoins(original + Newcomers(original, front), [v], name);
      assert original + (Newcomers(original, front) + [v]) == (original + Newcomers(original, front)) + [v];
      HasNameOfOne(v, name);
    }
  }

  lemma HasNameOfOne(v: EnvVar, name: string)
    ensures HasName([v], name) <==> v.name == name
  {
    if v.name == name {
      assert [v][0].name == name;
    }
  }

  lemma HasNameJoins(a: seq<EnvVar>, b: seq<EnvVar>, name: string)
    ensures HasName(a + b, name) <==> HasName(a, name) || HasName(b, name)
  {
    if i :| 0 <= i < |a| && a[i].name == name {
      assert (a + b)[i].name == name;
    }
    if i :| 0 <= i < |b| && b[i].name == name {
      assert (a + b)[|a| + i].name == name;
    }
    if i :| 0 <= i < |a + b| && (a + b)[i].name == name {
      assert if i < |a| then a[i].name == name else b[i - |a|].name == name;
    }
  }

  /** The merge keeps the original positions, appends new names in the order of their first occurrence, and
      gives every variable its last value. */
  lemma {:induction false} MergeIs(original: seq<EnvVar>, added: seq<EnvVar>)
    ensures Merge(original, added) == Updated(original + Newcomers(original, added), added)
  {
    if added == [] {
      assert original + [] == original;
    } else {
      var front, v := added[..|added| - 1], added[|added| - 1];
      MergeIs(original, front);
      var all := original + Newcomers(original, front);
      UpdatedNames(all, front, v.name);
      if HasName(all, v.name) {
        assert Merge(original, added) == Updated(all, added);
      } else {
        AllNamesPresent(original, front, v.name);
        assert original + Newcomers(original, added) == all + [v];
        assert Merge(original, added) == Updated(all + [v], added);
      }
    }
  }

  /** Everything a user sets is in the result, with the value set last. */
  lemma UserValuesWin(original: seq<EnvVar>, added: seq<EnvVar>, v: EnvVar)
    requires v in added
    ensures HasName(Merge(original, added), v.name)
    ensures forall e :: e in Merge(original, added) && e.name == v.name ==> e == Last(added, v)
  {
    MergeIs(original, added);
    var all := original + Newcomers(original, added);
    var i :| 0 <= i < |added| && added[i] == v;
    AllNamesPresent(original, added, v.name);
    UpdatedNames(all, added, v.name);
    forall k | 0 <= k < |all| && Updated(all, added)[k].name == v.name
      ensures Updated(all, added)[k] == Last(added, v)
    {
      LastDependsOnName(added, all[k], v);
    }
  }

  lemma {:induction false} LastDependsOnName(added: seq<EnvVar>, v: EnvVar, w: EnvVar)
    requires v.name == w.name && HasName(added, v.name)
    ensures Last(added, v) == Last(added, w)
  {
    var front := added[..|added| - 1];
    if added[|added| - 1].name != v.name {
      var i :| 0 <= i < |added| && added[i].name == v.name;
      assert front[i].name == v.name;
      LastDependsOnName(front, v, w);
    }
  }

  /** Merging the same variables again changes nothing. */
  lemma MergeIsIdempotent(original: seq<EnvVar>, added: seq<EnvVar>)
    ensures Merge(Merge(original, added), added) == Merge(original, added)
  {
    var merged := Merge(original, added);
    MergeIs(original, added);
    MergeIs(merged, added);
    NoNewcomers(original, added, added);
    assert merged + [] == merged;
    forall i | 0 <= i < |merged| ensures Last(added, merged[i]) == merged[i] {
      LastTwice(added, (original + Newcomers(original, added))[i]);
    }
  }

  lemma LastTwice(added: seq<EnvVar>, v: EnvVar)
    ensures Last(added, Last(added, v)) == Last(added, v)
  {
    LastName(added, v);
    if HasName(added, v.name) {
      LastDependsOnName(added, Last(added, v), v);
    } else {
      LastOfNewName(added, v);
    }
  }

  lemma {:induction false} NoNewcomers(original: seq<EnvVar>, added: seq<EnvVar>, some: seq<EnvVar>)
    requires forall v :: v in some ==> v in added
    ensures Newcomers(Merge(original, added), some) == []
  {
    if some != [] {
      NoNewcomers(original, added, some[..|some| - 1]);
      var v := some[|some| - 1];
      UserValuesWin(original, added, v);
      assert Merge(original, added) + [] == Merge(original, added);
    }
  }

  /** Names stay unique when they were. */
  lemma {:induction false} MergeKeepsUnique(original: seq<EnvVar>, added: seq<EnvVar>)
    requires Unique(original)
    ensures Unique(Merge(original, added))
  {
    if added != [] {
      MergeKeepsUnique(original, added[..|added| - 1]);
    }
  }

  // ---------- Associativity ----------

  lemma PutHasName(env: seq<EnvVar>, v: EnvVar, name: string)
    ensures HasName(Put(env, v), name) <==> HasName(env, name) || v.name == name
  {
    if HasName(env, v.name) {
      SameNames(Replaced(env, v), env, name);
    } else {
      HasNameJoins(env, [v], name);
      HasNameOfOne(v, name);
    }
  }

  lemma PutAgain(env: seq<EnvVar>, u: EnvVar, v: EnvVar)
    requires u.name == v.name
    ensures Put(Put(env, u), v) == Put(env, v)
  {
    PutHasName(env, u, v.name);
  }

  lemma PutsCommute(env: seq<EnvVar>, u: EnvVar, v: EnvVar)
    requires u.name != v.name && HasName(env, v.name)
    ensures Put(Put(env, v), u) == Put(Put(env, u), v)
  {
    PutHasName(env, v, u.name);
    PutHasName(env, u, v.name);
  }

  lemma {:induction false} MergeHasName(original: seq<EnvVar>, added: seq<EnvVar>, name: string)
    requires HasName(added, name)
    ensures HasName(Merge(original, added), name)
  {
    var front, v := added[..|added| - 1], added[|added| - 1];
    PutHasName(Merge(original, front), v, name);
    if v.name != name {
      var i :| 0 <= i < |added| && added[i].name == name;
      assert front[i].name == name;
      MergeHasName(original, front, name);
    }
  }

  lemma PutAtEnd(front: seq<EnvVar>, u: EnvVar, v: EnvVar)
    requires HasName(front + [u], v.name)
    ensures Put(front + [u], v) ==
      (if HasName(front, v.name) then Put(front, v) else front) + [if u.name == v.name then v else u]
    ensures u.name != v.name ==> HasName(front, v.name)
  {
    HasNameJoins(front, [u], v.name);
    HasNameOfOne(u, v.name);
    if !HasName(front, v.name) {
      assert Replaced(front + [u], v) == front + [v];
    }
  }

  lemma {:induction false} MergePut(original: seq<EnvVar>, added: seq<EnvVar>, v: EnvVar)
    ensures Merge(original, Put(added, v)) == Put(Merge(original, added), v)
  {
    if !HasName(added, v.name) {
      assert (added + [v])[..|added|] == added;
    } else {
      var front, u := added[..|added| - 1], added[|added| - 1];
      assert added == front + [u];
      PutAtEnd(front, u, v);
      MergePut(original, front, v);
      hide Put, HasName;
      var merged, changed := Merge(original, front), if HasName(front, v.name) then Put(front, v) else front;
      MergeEnd(original, front, u);
      MergeEnd(original, changed, if u.name == v.name then v else u);
      if u.name == v.name {
        PutAgain(merged, v, v);
        PutAgain(merged, u, v);
      } else {
        MergeHasName(original, front, v.name);
        PutsCommute(merged, u, v);
      }
    }
  }

  lemma MergeEnd(original: seq<EnvVar>, front: seq<EnvVar>, u: EnvVar)
    ensures Merge(original, front + [u]) == Put(Merge(original, front), u)
  {
    assert (front + [u])[..|front|] == front;
  }

  /** Merging in two steps is merging the merged additions. */
  lemma {:induction false} MergeIsAssociative(a: seq<EnvVar>, b: seq<EnvVar>, c: seq<EnvVar>)
    ensures Merge(Merge(a, b), c) == Merge(a, Merge(b, c))
  {
    if c != [] {
      MergeIsAssociative(a, b, c[..|c| - 1]);
      MergePut(a, Merge(b, c[..|c| - 1]), c[|c| - 1]);
    }
  }
}
