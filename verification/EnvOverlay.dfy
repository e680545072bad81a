/** The scoped overlay on `process.env` (apps/cli/src/lib/expo-config.ts). */
module EnvOverlay {
  import opened Wrappers

  type Env = map<string, string>
  type Snapshot = map<string, Option<string>>

  datatype Entry<V> = Entry(key: string, value: V)

  /** `Object.entries` of a record: every key once, in whatever order. */
  predicate IsRecord<V>(entries: seq<Entry<V>>) {
    forall i, j | 0 <= i < j < |entries| :: entries[i].key != entries[j].key
  }

  function Record<V>(entries: seq<Entry<V>>): (m: map<string, V>)
    ensures forall key :: key in m <==> exists i :: 0 <= i < |entries| && entries[i].key == key
  {
    if entries == [] then map[]
    else
      var last := entries[|entries| - 1];
      Record(entries[..|entries| - 1])[last.key := last.value]
  }

  function Get(env: Env, key: string): Option<string> {
    if key in env then Some(env[key]) else None
  }

  /** What the keys of an overlay were before it. */
  function Taken(env: Env, overlay: Env): Snapshot {
    map key | key in overlay :: Get(env, key)
  }

  /** Every key of the snapshot is as it was, absent ones absent; the rest is as in `env`. */
  function Restored(env: Env, previous: Snapshot): Env {
    map key | key in env.Keys + previous.Keys && (if key in previous then previous[key].Some? else true) ::
      if key in previous then previous[key].value else env[key]
  }

  lemma RecordNext<V>(entries: seq<Entry<V>>, i: nat)
    requires i < |entries|
    ensures Record(entries[..i + 1]) == Record(entries[..i])[entries[i].key := entries[i].value]
    ensures IsRecord(entries) ==> entries[i].key !in Record(entries[..i])
  {
    assert entries[..i + 1][..i] == entries[..i];
  }

  lemma RecordAll<V>(entries: seq<Entry<V>>)
    ensures Record(entries[..|entries|]) == Record(entries)
  {
    assert entries[..|entries|] == entries;
  }

  lemma OverlayNext(env: Env, overlay: Env, key: string, value: string)
    requires key !in overlay
    ensures (env + overlay)[key := value] == env + overlay[key := value]
    ensures Taken(env, overlay[key := value]) == Taken(env, overlay)[key := Get(env + overlay, key)]
  {
  }

  lemma RestoreNext(env: Env, previous: Snapshot, key: string, value: Option<string>)
    ensures Restored(env, previous[key := value])
         == if value.None? then Restored(env, previous) - {key} else Restored(env, previous)[key := value.value]
  {
  }

  lemma RecordAppend<V>(entries: seq<Entry<V>>, entry: Entry<V>)
    ensures Record(entries + [entry]) == Record(entries)[entry.key := entry.value]
  {
    assert (entries + [entry])[..|entries|] == entries;
  }

  class ProcessEnv {
    var vars: Env

    method ApplyEnvOverlay(entries: seq<Entry<string>>) returns (previous: seq<Entry<Option<string>>>)
      requires IsRecord(entries)
      modifies this
      ensures vars == old(vars) + Record(entries)
      ensures IsRecord(previous) && Record(previous) == Taken(old(vars), Record(entries))
    {
      previous := [];
      assert vars + map[] == vars;
      for i := 0 to |entries|
        invariant |previous| == i && forall j | 0 <= j < i :: previous[j].key == entries[j].key
        invariant vars == old(vars) + Record(entries[..i])
        invariant Record(previous) == Taken(old(vars), Record(entries[..i]))
      {
        var entry := entries[i];
        RecordNext(entries, i);
        RecordAppend(previous, Entry(entry.key, Get(vars, entry.key)));
        OverlayNext(old(vars), Record(entries[..i]), entry.key, entry.value);
        previous := previous + [Entry(entry.key, Get(vars, entry.key))];
        vars := vars[entry.key := entry.value];
      }
      RecordAll(entries);
    }

    method RestoreEnv(previous: seq<Entry<Option<string>>>)
      requires IsRecord(previous)
      modifies this
      ensures vars == Restored(old(vars), Record(previous))
    {
      assert Restored(vars, map[]) == vars;
      for i := 0 to |previous|
        invariant vars == Restored(old(vars), Record(previous[..i]))
      {
        var entry := previous[i];
        RecordNext(previous, i);
        RestoreNext(old(vars), Record(previous[..i]), entry.key, entry.value);
        if entry.value.None? {
          vars := vars - {entry.key};
        } else {
          vars := vars[entry.key := entry.value.value];
        }
      }
      RecordAll(previous);
    }

    /**
     * One bracket around a config evaluation, which may itself write variables. The
     * old environment is back exactly when the evaluation left every variable outside
     * the overlay alone; what it did to the overlaid ones is undone.
     */
    method ReadExpoConfig(entries: seq<Entry<string>>, evaluate: Env -> Env)
      requires IsRecord(entries)
      modifies this
      ensures vars == Restored(evaluate(old(vars) + Record(entries)), Taken(old(vars), Record(entries)))
      ensures vars == old(vars) <==>
                forall key | key !in Record(entries) ::
                  Get(evaluate(old(vars) + Record(entries)), key) == Get(old(vars), key)
    {
      var previous := ApplyEnvOverlay(entries);
      vars := evaluate(vars);
      RestoreEnv(previous);
      RestoredExactly(old(vars), Record(entries), evaluate(old(vars) + Record(entries)));
    }
  }

  /** A restore gives back the start exactly when nothing outside the overlay changed in between. */
  lemma RestoredExactly(env: Env, overlay: Env, now: Env)
    ensures Restored(now, Taken(env, overlay)) == env <==>
              forall key | key !in overlay :: Get(now, key) == Get(env, key)
  {
    var back := Restored(now, Taken(env, overlay));
    forall key
      ensures Get(back, key) == if key in overlay then Get(env, key) else Get(now, key)
    {
    }
    if forall key | key !in overlay :: Get(now, key) == Get(env, key) {
      forall key
        ensures Get(back, key) == Get(env, key)
      {
      }
      SameEnv(back, env);
    }
  }

  lemma SameEnv(a: Env, b: Env)
    requires forall key :: Get(a, key) == Get(b, key)
    ensures a == b
  {
    forall key
      ensures key in a <==> key in b
      ensures key in a && key in b ==> a[key] == b[key]
    {
      assert Get(a, key) == Get(b, key);
    }
  }

  /** During the bracket the environment is the old one overridden by the overlay, and after it the old one. */
  lemma BracketRestores(env: Env, overlay: Env)
    ensures forall key :: Get(env + overlay, key) == if key in overlay then Some(overlay[key]) else Get(env, key)
    ensures Restored(env + overlay, Taken(env, overlay)) == env
  {
    RestoredExactly(env, overlay, env + overlay);
  }

  // ---------------------------------------------------------------- nesting

  /** Brackets one after the other, each around more brackets. */
  datatype Nest = Done | Bracket(overlay: Env, inner: Nest, next: Nest)

  function Run(env: Env, nest: Nest): Env
    decreases nest
  {
    match nest
    case Done => env
    case Bracket(overlay, inner, next) =>
      Run(Restored(Run(env + overlay, inner), Taken(env, overlay)), next)
  }

  /** Every well-nested sequence of brackets restores the start state. */
  lemma {:induction false} NestRestores(env: Env, nest: Nest)
    ensures Run(env, nest) == env
    decreases nest
  {
    match nest
    case Done =>
    case Bracket(overlay, inner, next) =>
      NestRestores(env + overlay, inner);
      BracketRestores(env, overlay);
      NestRestores(env, next);
  }

  /** Two brackets that cross: the first to open is the first to close. */
  function Crossed(env: Env, a: Env, b: Env): Env {
    var both := env + a + b;
    Restored(Restored(both, Taken(env, a)), Taken(env + a, b))
  }

  /**
   * Brackets that cross restore the start state exactly when every variable they
   * share already had the first overlay's value; otherwise that value stays behind.
   */
  lemma CrossedRestores(env: Env, a: Env, b: Env)
    ensures Crossed(env, a, b) == env <==> forall key | key in a && key in b :: Get(env, key) == Some(a[key])
  {
    var end := Crossed(env, a, b);
    forall key
      ensures Get(end, key) == if key in a && key in b then Some(a[key]) else Get(env, key)
    {
    }
    if forall key | key in a && key in b :: Get(env, key) == Some(a[key]) {
      SameEnv(end, env);
    }
  }
}
