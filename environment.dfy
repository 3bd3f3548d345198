/**
 * `temporary_env` in src/main.py: credential overrides written into the
 * process environment for the length of one tool call, and the environment
 * put back afterwards.
 */
module Environment {
  import opened Common
  import opened Values

  /** The process environment, `os.environ`. */
  type Environ = map<string, string>

  /** The `overrides` dictionary, in insertion order; a `None` value is `VNone`. */
  type Overrides = seq<(string, Value)>

  /** `saved_values`: each overridden key with what `os.environ.get` gave for it. */
  type SavedValues = seq<(string, Option<string>)>

  /** No key occurs twice, as in a Python dictionary. */
  predicate DistinctKeys<V>(o: seq<(string, V)>) {
    forall i, j :: 0 <= i < j < |o| ==> o[i].0 != o[j].0
  }

  /** `k` is one of the keys of `o`. */
  predicate Names<V>(o: seq<(string, V)>, k: string) {
    exists i :: 0 <= i < |o| && o[i].0 == k
  }

  /** `os.environ.get(k)` */
  function EnvGet(env: Environ, k: string): Option<string> {
    if k in env then Some(env[k]) else None
  }

  /** One step of the entry loop: a non-`None` override is written as `str(value)`. */
  function SetOne(env: Environ, k: string, v: Value): Environ {
    if v.VNone? then env else env[k := PyStr(v)]
  }

  /** The environment once every override has been applied, in order. */
  function Applied(env: Environ, o: Overrides): Environ {
    if o == [] then env else SetOne(Applied(env, o[..|o| - 1]), o[|o| - 1].0, o[|o| - 1].1)
  }

  /** What the entry loop records, read from the environment as it was on entry. */
  function Saved(env: Environ, o: Overrides): SavedValues {
    seq(|o|, i requires 0 <= i < |o| => (o[i].0, EnvGet(env, o[i].0)))
  }

  /** One step of the `finally` loop: a key that had no value is popped, any other gets its value back. */
  function RestoreOne(env: Environ, k: string, original: Option<string>): Environ {
    if original.None? then env - {k} else env[k := original.value]
  }

  /** The environment after the `finally` loop has run over `saved`, in order. */
  function Restored(env: Environ, saved: SavedValues): Environ {
    if saved == [] then env
    else RestoreOne(Restored(env, saved[..|saved| - 1]), saved[|saved| - 1].0, saved[|saved| - 1].1)
  }

  /** Two environments that answer every `get` alike are equal. */
  lemma SameEnviron(a: Environ, b: Environ)
    requires forall k :: EnvGet(a, k) == EnvGet(b, k)
    ensures a == b
  {
    forall k | k in a ensures k in b && a[k] == b[k] {
      assert EnvGet(a, k) == EnvGet(b, k);
    }
    forall k | k in b ensures k in a {
      assert EnvGet(a, k) == EnvGet(b, k);
    }
  }

  /**
   * Inside the block, a key with a non-`None` override holds `str(value)`;
   * a `None` override and every key not named in `overrides` keep what the
   * environment had.
   */
  lemma {:induction false} AppliedValue(env: Environ, o: Overrides, k: string)
    requires DistinctKeys(o)
    ensures forall i :: 0 <= i < |o| && o[i].0 == k ==>
              EnvGet(Applied(env, o), k) == if o[i].1.VNone? then EnvGet(env, k) else Some(PyStr(o[i].1))
    ensures !Names(o, k) ==> EnvGet(Applied(env, o), k) == EnvGet(env, k)
  {
    if o != [] {
      var p := o[..|o| - 1];
      AppliedValue(env, p, k);
      forall i | 0 <= i < |o| && o[i].0 == k
        ensures EnvGet(Applied(env, o), k) == if o[i].1.VNone? then EnvGet(env, k) else Some(PyStr(o[i].1))
      {
        if i < |p| {
          assert p[i] == o[i];
        } else {
          assert !Names(p, k) by {
            forall j | 0 <= j < |p| ensures p[j].0 != k {
              assert p[j] == o[j];
            }
          }
        }
      }
      if !Names(o, k) {
        assert !Names(p, k) by {
          forall j | 0 <= j < |p| ensures p[j].0 != k {
            assert p[j] == o[j];
          }
        }
      }
    }
  }

  /**
   * After the `finally` loop, a key named in `saved` has exactly the value
   * saved for it (gone when that was `None`), whatever the block did to the
   * environment meanwhile; every other key keeps its value from the block.
   */
  lemma {:induction false} RestoredValue(body: Environ, saved: SavedValues, k: string)
    requires DistinctKeys(saved)
    ensures forall i :: 0 <= i < |saved| && saved[i].0 == k ==> EnvGet(Restored(body, saved), k) == saved[i].1
    ensures !Names(saved, k) ==> EnvGet(Restored(body, saved), k) == EnvGet(body, k)
  {
    if saved != [] {
      var p := saved[..|saved| - 1];
      RestoredValue(body, p, k);
      forall i | 0 <= i < |saved| && saved[i].0 == k
        ensures EnvGet(Restored(body, saved), k) == saved[i].1
      {
        if i < |p| {
          assert p[i] == saved[i];
        }
      }
      if !Names(saved, k) {
        assert !Names(p, k) by {
          forall j | 0 <= j < |p| ensures p[j].0 != k {
            assert p[j] == saved[j];
          }
        }
      }
    }
  }

  /** `saved_values` names the same keys as `overrides`, each once. */
  lemma SavedKeys(env: Environ, o: Overrides)
    requires DistinctKeys(o)
    ensures DistinctKeys(Saved(env, o))
    ensures forall k :: Names(Saved(env, o), k) <==> Names(o, k)
  {
    var s := Saved(env, o);
    forall k ensures Names(s, k) <==> Names(o, k) {
      if Names(o, k) {
        var i :| 0 <= i < |o| && o[i].0 == k;
        assert s[i].0 == k;
      }
    }
  }

  /**
   * However the block ends and whatever it did to the environment, on exit
   * every overridden key is back to its value from before the block (removed
   * again when it had none), and every other key keeps the block's value.
   */
  lemma RestoredAfterBlock(env: Environ, o: Overrides, body: Environ, k: string)
    requires DistinctKeys(o)
    ensures Names(o, k) ==> EnvGet(Restored(body, Saved(env, o)), k) == EnvGet(env, k)
    ensures !Names(o, k) ==> EnvGet(Restored(body, Saved(env, o)), k) == EnvGet(body, k)
  {
    SavedKeys(env, o);
    RestoredValue(body, Saved(env, o), k);
    if Names(o, k) {
      var i :| 0 <= i < |o| && o[i].0 == k;
      assert Saved(env, o)[i].0 == k;
    }
  }

  /** When the block leaves the environment alone, leaving the block gives back exactly the environment it entered with. */
  lemma RoundTrip(env: Environ, o: Overrides)
    requires DistinctKeys(o)
    ensures Restored(Applied(env, o), Saved(env, o)) == env
  {
    forall k ensures EnvGet(Restored(Applied(env, o), Saved(env, o)), k) == EnvGet(env, k) {
      RestoredAfterBlock(env, o, Applied(env, o), k);
      AppliedValue(env, o, k);
    }
    SameEnviron(Restored(Applied(env, o), Saved(env, o)), env);
  }

  /** The process environment, which `temporary_env` changes in place. */
  class ProcessEnv {
    var vars: Environ

    constructor (initial: Environ)
      ensures vars == initial
    {
      vars := initial;
    }

    /** The body of `temporary_env` up to its `yield`: record each key's value, then write the override. */
    method Enter(overrides: Overrides) returns (saved: SavedValues)
      requires DistinctKeys(overrides)
      modifies this
      ensures vars == Applied(old(vars), overrides)
      ensures saved == Saved(old(vars), overrides)
    {
      saved := [];
      var i := 0;
      while i < |overrides|
        invariant 0 <= i <= |overrides|
        invariant vars == Applied(old(vars), overrides[..i])
        invariant saved == Saved(old(vars), overrides[..i])
      {
        var (key, value) := overrides[i];
        var prefix := overrides[..i];
        assert prefix + [(key, value)] == overrides[..i + 1];
        assert !Names(prefix, key) by {
          forall j | 0 <= j < i ensures prefix[j].0 != key {
            assert prefix[j] == overrides[j];
          }
        }
        AppliedValue(old(vars), prefix, key);
        saved := saved + [(key, EnvGet(vars, key))];
        if !value.VNone? {
          vars := vars[key := PyStr(value)];
        }
        i := i + 1;
      }
      assert overrides[..i] == overrides;
    }

    /** The `finally` clause of `temporary_env`. */
    method Exit(saved: SavedValues)
      modifies this
      ensures vars == Restored(old(vars), saved)
    {
      var i := 0;
      while i < |saved|
        invariant 0 <= i <= |saved|
        invariant vars == Restored(old(vars), saved[..i])
      {
        var (key, original) := saved[i];
        assert saved[..i + 1][..i] == saved[..i];
        if original.None? {
          vars := vars - {key};
        } else {
          vars := vars[key := original.value];
        }
        i := i + 1;
      }
      assert saved[..i] == saved;
    }
  }
}
