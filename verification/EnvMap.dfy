/** `std::map<std::string, std::string>` filled by `emplace`: sorted by name, the first value of a name kept. */
module EnvMaps {
  import opened Basics
  import opened Job

  function Emplace(env: seq<EnvVar>, x: EnvVar): seq<EnvVar> {
    if env == [] then [x]
    else if env[0].name == x.name then env
    else if TextLess(x.name, env[0].name) then [x] + env
    else [env[0]] + Emplace(env[1..], x)
  }

  function EmplaceAll(env: seq<EnvVar>, xs: seq<EnvVar>): seq<EnvVar>
    decreases xs
  {
    if xs == [] then env else EmplaceAll(Emplace(env, xs[0]), xs[1..])
  }

  predicate Names(env: seq<EnvVar>, name: string) {
    exists i :: 0 <= i < |env| && env[i].name == name
  }

  lemma NamesTail(env: seq<EnvVar>, name: string)
    requires env != []
    ensures Names(env, name) <==> env[0].name == name || Names(env[1..], name)
  {
    if Names(env[1..], name) {
      var i :| 0 <= i < |env[1..]| && env[1..][i].name == name;
      assert env[i + 1].name == name;
    }
    if Names(env, name) && env[0].name != name {
      var i :| 0 <= i < |env| && env[i].name == name;
      assert env[1..][i - 1].name == name;
    }
  }

  /** Emplacing keeps the order, changes nothing for a name that is there, and adds just the new binding
      otherwise. */
  lemma {:induction false} EmplaceKeeps(env: seq<EnvVar>, x: EnvVar)
    requires SortedEnv(env)
    ensures SortedEnv(Emplace(env, x))
    ensures forall y :: y in Emplace(env, x) <==> y in env || (y == x && !Names(env, x.name))
    ensures Names(env, x.name) ==> Emplace(env, x) == env
  {
    if env != [] {
      NamesTail(env, x.name);
      TextLessTotal(x.name, env[0].name);
      assert forall i :: 0 <= i < |env[1..]| ==> env[1..][i] == env[i + 1];
      if TextLess(x.name, env[0].name) {
        EmplaceFront(env, x);
      } else if env[0].name != x.name {
        EmplaceKeeps(env[1..], x);
        EmplaceLater(env, x, Emplace(env[1..], x));
      }
    }
  }

  lemma EmplaceFront(env: seq<EnvVar>, x: EnvVar)
    requires SortedEnv(env) && env != [] && TextLess(x.name, env[0].name)
    ensures SortedEnv([x] + env) && !Names(env, x.name)
  {
    forall i | 0 <= i < |env| ensures TextLess(x.name, env[i].name) && env[i].name != x.name {
      if i > 0 {
        TextLessTransitive(x.name, env[0].name, env[i].name);
      }
      TextLessTotal(x.name, env[i].name);
    }
  }

  lemma EmplaceLater(env: seq<EnvVar>, x: EnvVar, rest: seq<EnvVar>)
    requires SortedEnv(env) && env != [] && TextLess(env[0].name, x.name) && SortedEnv(rest)
    requires forall y :: y in rest ==> y in env[1..] || y == x
    ensures SortedEnv([env[0]] + rest)
  {
    forall i | 0 <= i < |rest| ensures TextLess(env[0].name, rest[i].name) {
      assert rest[i] in rest;
      if rest[i] in env[1..] {
        var j :| 0 <= j < |env[1..]| && env[1..][j] == rest[i];
        assert env[j + 1] == rest[i];
      }
    }
  }

  /** `x` is the first binding of its name among the first `n` of `xs`. */
  predicate FirstOfName(xs: seq<EnvVar>, n: nat, x: EnvVar)
    requires n <= |xs|
  {
    exists i :: 0 <= i < n && xs[i] == x && !Names(xs[..i], x.name)
  }

  lemma FirstOfNext(xs: seq<EnvVar>, n: nat, x: EnvVar)
    requires n < |xs|
    ensures FirstOfName(xs, n + 1, x) <==> FirstOfName(xs, n, x) || (x == xs[n] && !Names(xs[..n], x.name))
  {
  }

  lemma {:induction false} NamesOfFirsts(xs: seq<EnvVar>, n: nat, env: seq<EnvVar>, name: string)
    requires n <= |xs| && forall y :: y in env <==> FirstOfName(xs, n, y)
    ensures Names(env, name) <==> Names(xs[..n], name)
  {
    if Names(env, name) {
      var k :| 0 <= k < |env| && env[k].name == name;
      assert env[k] in env;
      var i :| 0 <= i < n && xs[i] == env[k] && !Names(xs[..i], env[k].name);
      assert xs[..n][i].name == name;
    }
    if Names(xs[..n], name) {
      var i := Earliest(xs, n, name);
      assert FirstOfName(xs, n, xs[i]);
      assert xs[i] in env;
      var k :| 0 <= k < |env| && env[k] == xs[i];
    }
  }

  lemma {:induction false} Earliest(xs: seq<EnvVar>, n: nat, name: string) returns (i: nat)
    requires n <= |xs| && Names(xs[..n], name)
    ensures i < n && xs[i].name == name && !Names(xs[..i], name)
  {
    i :| 0 <= i < n && xs[..n][i].name == name;
    if Names(xs[..i], name) {
      i := Earliest(xs, i, name);
    }
  }

  lemma {:induction false} EmplaceAllAppend(env: seq<EnvVar>, xs: seq<EnvVar>, x: EnvVar)
    ensures EmplaceAll(env, xs + [x]) == Emplace(EmplaceAll(env, xs), x)
    decreases xs
  {
    if xs == [] {
      assert xs + [x] == [x] && [x][1..] == [];
      assert EmplaceAll(Emplace(env, x), []) == Emplace(env, x);
    } else {
      assert (xs + [x])[1..] == xs[1..] + [x];
      EmplaceAllAppend(Emplace(env, xs[0]), xs[1..], x);
    }
  }

  /** The map built from a list of bindings: in strictly increasing name order, exactly the first binding
      of every name. */
  lemma {:induction false} EmplaceAllSpec(xs: seq<EnvVar>, n: nat)
    requires n <= |xs|
    ensures SortedEnv(EmplaceAll([], xs[..n]))
    ensures forall y :: y in EmplaceAll([], xs[..n]) <==> FirstOfName(xs, n, y)
  {
    if n > 0 {
      EmplaceAllSpec(xs, n - 1);
      var before := EmplaceAll([], xs[..n - 1]);
      assert xs[..n - 1] + [xs[n - 1]] == xs[..n];
      EmplaceAllAppend([], xs[..n - 1], xs[n - 1]);
      EmplaceKeeps(before, xs[n - 1]);
      NamesOfFirsts(xs, n - 1, before, xs[n - 1].name);
      forall y ensures FirstOfName(xs, n, y) <==>
        FirstOfName(xs, n - 1, y) || (y == xs[n - 1] && !Names(xs[..n - 1], y.name)) {
        FirstOfNext(xs, n - 1, y);
      }
    }
  }

  lemma {:induction false} EmplaceLast(env: seq<EnvVar>, x: EnvVar)
    requires forall i :: 0 <= i < |env| ==> TextLess(env[i].name, x.name)
    ensures Emplace(env, x) == env + [x]
  {
    if env != [] {
      TextLessTotal(env[0].name, x.name);
      EmplaceLast(env[1..], x);
      assert env + [x] == [env[0]] + (env[1..] + [x]);
    }
  }

  /** Bindings that are already strictly sorted are kept as they are, and only those. */
  lemma {:induction false} SortedStays(xs: seq<EnvVar>, n: nat)
    requires SortedEnv(xs) && n <= |xs|
    ensures EmplaceAll([], xs[..n]) == xs[..n]
  {
    if n > 0 {
      SortedStays(xs, n - 1);
      assert xs[..n - 1] + [xs[n - 1]] == xs[..n];
      EmplaceAllAppend([], xs[..n - 1], xs[n - 1]);
      EmplaceLast(xs[..n - 1], xs[n - 1]);
    }
  }

  lemma SortedIffSame(xs: seq<EnvVar>)
    ensures SortedEnv(xs) <==> EmplaceAll([], xs) == xs
  {
    assert xs[..|xs|] == xs;
    EmplaceAllSpec(xs, |xs|);
    if SortedEnv(xs) {
      SortedStays(xs, |xs|);
    }
  }

  // ---- The map is never longer than the list ----

  function SizeSum(env: seq<EnvVar>): nat {
    if env == [] then 0 else 8 + |env[0].name| + |env[0].value| + SizeSum(env[1..])
  }

  lemma {:induction false} EmplaceSize(env: seq<EnvVar>, x: EnvVar)
    ensures SizeSum(Emplace(env, x)) <= SizeSum(env) + 8 + |x.name| + |x.value|
    ensures |Emplace(env, x)| <= |env| + 1
  {
    if env == [] {
      assert [x][1..] == [];
    } else if env[0].name != x.name {
      if TextLess(x.name, env[0].name) {
        assert ([x] + env)[1..] == env;
      } else {
        EmplaceSize(env[1..], x);
        assert ([env[0]] + Emplace(env[1..], x))[1..] == Emplace(env[1..], x);
      }
    }
  }

  lemma {:induction false} EmplaceAllSize(env: seq<EnvVar>, xs: seq<EnvVar>)
    ensures SizeSum(EmplaceAll(env, xs)) <= SizeSum(env) + SizeSum(xs)
    ensures |EmplaceAll(env, xs)| <= |env| + |xs|
    decreases xs
  {
    if xs != [] {
      EmplaceSize(env, xs[0]);
      EmplaceAllSize(Emplace(env, xs[0]), xs[1..]);
    }
  }
}
