/** Following `extends` from profile to profile (apps/cli/src/lib/eas-profile-extends.ts). */
module ExtendsChain {
  import opened Wrappers

  datatype ChainError =
    | Cycle(at: string)
    | Missing(at: string)
    | TooDeep

  /** `names` is the requested profile, the one it extends, and so on; only the last need not exist. */
  ghost predicate Walk<P>(profiles: map<string, P>, parent: P -> Option<string>, name: string, names: seq<string>) {
    && names != [] && names[0] == name
    && forall i | 0 <= i < |names| - 1 :: names[i] in profiles && parent(profiles[names[i]]) == Some(names[i + 1])
  }

  ghost predicate DistinctProfiles<P>(profiles: map<string, P>, names: seq<string>) {
    && (forall i | 0 <= i < |names| :: names[i] in profiles)
    && (forall i, j | 0 <= i < j < |names| :: names[i] != names[j])
  }

  /** The profiles of a walk, the farthest ancestor first. */
  function RootFirst<P>(profiles: map<string, P>, names: seq<string>): (chain: seq<P>)
    requires forall i | 0 <= i < |names| :: names[i] in profiles
    ensures |chain| == |names|
    ensures forall i | 0 <= i < |names| :: chain[i] == profiles[names[|names| - 1 - i]]
  {
    seq(|names|, i requires 0 <= i < |names| => profiles[names[|names| - 1 - i]])
  }

  /** The walk ends at a profile that extends nothing, within `maxDepth` distinct profiles. */
  ghost predicate EndsWell<P>(
    profiles: map<string, P>, parent: P -> Option<string>, name: string, maxDepth: nat, names: seq<string>) {
    && Walk(profiles, parent, name, names) && DistinctProfiles(profiles, names)
    && |names| <= maxDepth
    && parent(profiles[names[|names| - 1]]) == None
  }

  /** At most `maxDepth` distinct profiles, and then a name that is one of them or is not a profile. */
  ghost predicate EndsBadly<P>(
    profiles: map<string, P>, parent: P -> Option<string>, name: string, maxDepth: nat,
    names: seq<string>, at: string) {
    && Walk(profiles, parent, name, names) && DistinctProfiles(profiles, names[..|names| - 1])
    && |names| <= maxDepth + 1
    && names[|names| - 1] == at
  }

  ghost predicate Outcome<P>(
    profiles: map<string, P>, parent: P -> Option<string>, name: string, maxDepth: nat,
    names: seq<string>, r: Result<seq<P>, ChainError>) {
    match r
    case Ok(chain) => EndsWell(profiles, parent, name, maxDepth, names) && chain == RootFirst(profiles, names)
    case Err(Cycle(at)) => EndsBadly(profiles, parent, name, maxDepth, names, at) && at in names[..|names| - 1]
    case Err(Missing(at)) => EndsBadly(profiles, parent, name, maxDepth, names, at) && at !in profiles
    case Err(TooDeep) =>
      Walk(profiles, parent, name, names) && DistinctProfiles(profiles, names) && |names| == maxDepth + 1
  }

  /** Which of the four things a walk meets first. */
  ghost predicate Resolves<P>(
    profiles: map<string, P>, parent: P -> Option<string>, name: string, maxDepth: nat, r: Result<seq<P>, ChainError>) {
    exists names :: Outcome(profiles, parent, name, maxDepth, names, r)
  }

  /** It terminates on every profile map, cyclic or not, with the outcome the walk determines. */
  method ResolveExtendsChain<P>(
    profiles: map<string, P>, parent: P -> Option<string>, profileName: string, maxDepth: nat)
    returns (r: Result<seq<P>, ChainError>)
    ensures Resolves(profiles, parent, profileName, maxDepth, r)
  {
    var chain: seq<P>, visited: set<string>, current, depth := [], {}, Some(profileName), 0;
    ghost var names: seq<string> := [];
    while current.Some?
      invariant |names| == depth <= maxDepth && visited == set n | n in names
      invariant DistinctProfiles(profiles, names) && chain == RootFirst(profiles, names)
      invariant match current
                case Some(next) => Walk(profiles, parent, profileName, names + [next])
                case None => EndsWell(profiles, parent, profileName, maxDepth, names)
      decreases maxDepth + 1 - depth
    {
      var name := current.value;
      ghost var walk := names + [name];
      assert walk[..|walk| - 1] == names;
      if name in visited {
        assert Outcome(profiles, parent, profileName, maxDepth, walk, Result<seq<P>, ChainError>.Err(Cycle(name)));
        return Err(Cycle(name));
      }
      visited := visited + {name};
      if name !in profiles {
        assert Outcome(profiles, parent, profileName, maxDepth, walk, Result<seq<P>, ChainError>.Err(Missing(name)));
        return Err(Missing(name));
      }
      chain := [profiles[name]] + chain;
      current := parent(profiles[name]);
      depth := depth + 1;
      names := walk;
      if depth > maxDepth {
        assert Outcome(profiles, parent, profileName, maxDepth, names, Result<seq<P>, ChainError>.Err(TooDeep));
        return Err(TooDeep);
      }
    }
    assert Outcome(profiles, parent, profileName, maxDepth, names, Result<seq<P>, ChainError>.Ok(chain));
    return Ok(chain);
  }

  /** `extends` names one profile, so two walks from one name agree as far as both go. */
  lemma {:induction false} WalksAgree<P>(
    profiles: map<string, P>, parent: P -> Option<string>, name: string, a: seq<string>, b: seq<string>, i: nat)
    requires Walk(profiles, parent, name, a) && Walk(profiles, parent, name, b) && i < |a| && i < |b|
    ensures a[i] == b[i]
  {
    if i > 0 {
      WalksAgree(profiles, parent, name, a, b, i - 1);
      assert parent(profiles[a[i - 1]]) == Some(a[i]) && parent(profiles[b[i - 1]]) == Some(b[i]);
    }
  }

  /** A walk that has an outcome cannot be continued to one that has an outcome as well. */
  lemma OutcomeIsLast<P>(
    profiles: map<string, P>, parent: P -> Option<string>, name: string, maxDepth: nat,
    a: seq<string>, q: Result<seq<P>, ChainError>, b: seq<string>, r: Result<seq<P>, ChainError>)
    requires Outcome(profiles, parent, name, maxDepth, a, q) && Outcome(profiles, parent, name, maxDepth, b, r)
    ensures |b| <= |a|
  {
    if |a| < |b| {
      var last := |a| - 1;
      WalksAgree(profiles, parent, name, a, b, last);
      assert b[last] in profiles && parent(profiles[b[last]]) == Some(b[last + 1]);
      if q.Err? && q.error.Cycle? {
        var i :| 0 <= i < last && a[..last][i] == q.error.at;
        WalksAgree(profiles, parent, name, a, b, i);
      }
      assert false;
    }
  }

  /**
   * The four outcomes exclude each other, so each is reported if and only if it is
   * the one the walk meets first: a cycle of at most `maxDepth` names is a cycle, a
   * longer one is too deep.
   */
  lemma OneOutcome<P>(
    profiles: map<string, P>, parent: P -> Option<string>, name: string, maxDepth: nat,
    q: Result<seq<P>, ChainError>, r: Result<seq<P>, ChainError>)
    requires Resolves(profiles, parent, name, maxDepth, q) && Resolves(profiles, parent, name, maxDepth, r)
    ensures q == r
  {
    var a :| Outcome(profiles, parent, name, maxDepth, a, q);
    var b :| Outcome(profiles, parent, name, maxDepth, b, r);
    OutcomeIsLast(profiles, parent, name, maxDepth, a, q, b, r);
    OutcomeIsLast(profiles, parent, name, maxDepth, b, r, a, q);
    forall i | 0 <= i < |a|
      ensures a[i] == b[i]
    {
      WalksAgree(profiles, parent, name, a, b, i);
    }
    assert a == b;
  }

  /** A chain without its last profile is the chain of the profile that one extends. */
  lemma ParentChain<P>(
    profiles: map<string, P>, parent: P -> Option<string>, name: string, maxDepth: nat, chain: seq<P>, base: string)
    requires Resolves(profiles, parent, name, maxDepth, Ok(chain))
    requires name in profiles && parent(profiles[name]) == Some(base)
    ensures chain != [] && chain[|chain| - 1] == profiles[name]
    ensures |chain| > 1
    ensures Resolves(profiles, parent, base, maxDepth, Result<seq<P>, ChainError>.Ok(chain[..|chain| - 1]))
  {
    var r: Result<seq<P>, ChainError> := Ok(chain);
    var names :| Outcome(profiles, parent, name, maxDepth, names, r);
    assert |names| > 1 && names[1] == base;
    var rest := names[1..];
    assert EndsWell(profiles, parent, base, maxDepth, rest);
    assert chain[..|chain| - 1] == RootFirst(profiles, rest);
    assert Outcome(profiles, parent, base, maxDepth, rest, Result<seq<P>, ChainError>.Ok(chain[..|chain| - 1]));
  }
}
