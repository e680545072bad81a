/**
 * Inheritance between build profiles and between submit profiles
 * (apps/cli/src/lib/eas-config.ts and eas-submit-config.ts): the chain is merged
 * left to right, root first, and the result is nearest-definition-wins.
 */
module EasProfiles {
  import opened Wrappers
  import opened ExtendsChain

  const MAX_EXTENDS_DEPTH: nat := 10

  /** A value of a parsed profile field. */
  datatype Setting =
    | Text(text: string)
    | Flag(flag: bool)
    | Amount(amount: real)
    | Texts(texts: seq<string>)
    | Command(command: string, cwd: Option<string>, env: Option<map<string, string>>, artifactPath: Option<string>)

  type Fields = map<string, Setting>

  datatype BuildProfile = BuildProfile(
    inherits: Option<string>,
    developmentClient: Option<Setting>,
    distribution: Option<Setting>,
    channel: Option<Setting>,
    environment: Option<Setting>,
    credentialsSource: Option<Setting>,
    autoIncrement: Option<Setting>,
    withoutCredentials: Option<Setting>,
    env: Option<Fields>,
    ios: Option<Fields>,
    android: Option<Fields>,
    custom: Option<Fields>)

  datatype SubmitProfile = SubmitProfile(inherits: Option<string>, ios: Option<Fields>, android: Option<Fields>)

  datatype ProfileError = NoSection | Chain(error: ChainError)

  // ---------------------------------------------------------------- merging

  /** `overlay ?? base`. */
  function Coalesce<T>(overlay: Option<T>, base: Option<T>): Option<T> {
    if overlay.Some? then overlay else base
  }

  function ShallowMerge(base: Option<Fields>, overlay: Option<Fields>): Option<Fields> {
    if base.None? then overlay
    else if overlay.None? then base
    else Some(base.value + overlay.value)
  }

  /** An empty `custom` section is dropped. */
  function MergeCustom(base: Option<Fields>, overlay: Option<Fields>): Option<Fields> {
    var merged := ShallowMerge(base, overlay);
    if merged.None? || merged.value == map[] then None else merged
  }

  function MergeProfile(base: BuildProfile, overlay: BuildProfile): BuildProfile {
    BuildProfile(
      overlay.inherits,
      Coalesce(overlay.developmentClient, base.developmentClient),
      Coalesce(overlay.distribution, base.distribution),
      Coalesce(overlay.channel, base.channel),
      Coalesce(overlay.environment, base.environment),
      Coalesce(overlay.credentialsSource, base.credentialsSource),
      Coalesce(overlay.autoIncrement, base.autoIncrement),
      Coalesce(overlay.withoutCredentials, base.withoutCredentials),
      ShallowMerge(base.env, overlay.env),
      ShallowMerge(base.ios, overlay.ios),
      ShallowMerge(base.android, overlay.android),
      MergeCustom(base.custom, overlay.custom))
  }

  function MergeSubmitProfile(base: SubmitProfile, overlay: SubmitProfile): SubmitProfile {
    SubmitProfile(overlay.inherits, ShallowMerge(base.ios, overlay.ios), ShallowMerge(base.android, overlay.android))
  }

  /** `chain.reduce` with `merge`: the first profile as it is, every later one on top. */
  function Reduce<P>(merge: (P, P) -> P, acc: P, rest: seq<P>): P
    decreases |rest|
  {
    if rest == [] then acc else Reduce(merge, merge(acc, rest[0]), rest[1..])
  }

  function ResolvedBuild(chain: seq<BuildProfile>): BuildProfile
    requires chain != []
  {
    Reduce(MergeProfile, chain[0], chain[1..]).(inherits := None)
  }

  function ResolvedSubmit(chain: seq<SubmitProfile>): SubmitProfile
    requires chain != []
  {
    Reduce(MergeSubmitProfile, chain[0], chain[1..]).(inherits := None)
  }

  // ---------------------------------------------------------------- nearest definition

  /** `r` is what the last element of `chain` that `look` finds something in says, if any does. */
  ghost predicate Nearest<P(!new), T(!new)>(chain: seq<P>, look: P -> Option<T>, r: Option<T>) {
    if r.None? then forall i | 0 <= i < |chain| :: look(chain[i]) == None
    else exists i | 0 <= i < |chain| :: look(chain[i]) == r && forall j | i < j < |chain| :: look(chain[j]) == None
  }

  /** What `look` sees of a merge: the overlay's answer, else the base's. */
  ghost predicate Overlays<P(!new), T(!new)>(merge: (P, P) -> P, look: P -> Option<T>) {
    forall a, b {:trigger merge(a, b)} :: look(merge(a, b)) == Coalesce(look(b), look(a))
  }

  lemma NearestExtends<P(!new), T(!new)>(done: seq<P>, next: P, look: P -> Option<T>, acc: Option<T>)
    requires Nearest(done, look, acc)
    ensures Nearest(done + [next], look, Coalesce(look(next), acc))
  {
    var all := done + [next];
    if look(next).Some? {
      assert look(all[|done|]) == look(next);
    } else if acc.Some? {
      var i :| 0 <= i < |done| && look(done[i]) == acc && forall j | i < j < |done| :: look(done[j]) == None;
      assert look(all[i]) == acc && forall j | i < j < |all| :: look(all[j]) == None;
    }
  }

  /** Whatever can be looked up key by key, the reduce gives the nearest definition of it. */
  lemma {:induction false} ReduceIsNearest<P(!new), T(!new)>(
    merge: (P, P) -> P, look: P -> Option<T>, acc: P, done: seq<P>, rest: seq<P>)
    requires Overlays(merge, look) && Nearest(done, look, look(acc))
    ensures Nearest(done + rest, look, look(Reduce(merge, acc, rest)))
    decreases |rest|
  {
    if rest == [] {
      assert done + rest == done;
    } else {
      NearestExtends(done, rest[0], look, look(acc));
      ReduceIsNearest(merge, look, merge(acc, rest[0]), done + [rest[0]], rest[1..]);
      assert done + [rest[0]] + rest[1..] == done + rest;
    }
  }

  lemma ChainIsNearest<P(!new), T(!new)>(merge: (P, P) -> P, look: P -> Option<T>, chain: seq<P>)
    requires Overlays(merge, look) && chain != []
    ensures Nearest(chain, look, look(Reduce(merge, chain[0], chain[1..])))
  {
    NearestExtends([], chain[0], look, None);
    assert [] + [chain[0]] == [chain[0]];
    ReduceIsNearest(merge, look, chain[0], [chain[0]], chain[1..]);
    assert [chain[0]] + chain[1..] == chain;
  }

  // ---------------------------------------------------------------- what can be looked up

  datatype ScalarName =
    | DevelopmentClient | Distribution | Channel | Environment
    | CredentialsSource | AutoIncrement | WithoutCredentials

  datatype SectionName = Env | Ios | Android | Custom

  function Scalar(p: BuildProfile, name: ScalarName): Option<Setting> {
    match name
    case DevelopmentClient => p.developmentClient
    case Distribution => p.distribution
    case Channel => p.channel
    case Environment => p.environment
    case CredentialsSource => p.credentialsSource
    case AutoIncrement => p.autoIncrement
    case WithoutCredentials => p.withoutCredentials
  }

  function Section(p: BuildProfile, name: SectionName): Option<Fields> {
    match name
    case Env => p.env
    case Ios => p.ios
    case Android => p.android
    case Custom => p.custom
  }

  function Field(section: Option<Fields>, key: string): Option<Setting> {
    if section.Some? && key in section.value then Some(section.value[key]) else None
  }

  function SubmitSection(p: SubmitProfile, name: SectionName): Option<Fields> {
    if name.Ios? then p.ios else if name.Android? then p.android else None
  }

  lemma MergedField(base: Option<Fields>, overlay: Option<Fields>, key: string)
    ensures Field(ShallowMerge(base, overlay), key) == Coalesce(Field(overlay, key), Field(base, key))
    ensures Field(MergeCustom(base, overlay), key) == Coalesce(Field(overlay, key), Field(base, key))
  {
    var merged := ShallowMerge(base, overlay);
    if merged.Some? && merged.value == map[] {
      assert key !in merged.value;
    }
  }

  function Present(section: Option<Fields>): Option<()> {
    if section.Some? then Some(()) else None
  }

  /** Of a `custom` section only its entries survive a merge; of the others the section itself does too. */
  function NonEmpty(section: Option<Fields>): Option<()> {
    if section.Some? && section.value != map[] then Some(()) else None
  }

  lemma MergedSections(base: Option<Fields>, overlay: Option<Fields>)
    ensures Present(ShallowMerge(base, overlay)) == Coalesce(Present(overlay), Present(base))
    ensures NonEmpty(MergeCustom(base, overlay)) == Coalesce(NonEmpty(overlay), NonEmpty(base))
  {
    if base.Some? && overlay.Some? {
      if key: string :| key in base.value {
        assert key in base.value + overlay.value;
      } else if key: string :| key in overlay.value {
        assert key in base.value + overlay.value;
      }
    }
  }

  // The things a reader can ask a profile, as lookups.

  function ScalarOf(name: ScalarName): BuildProfile -> Option<Setting> {
    (p: BuildProfile) => Scalar(p, name)
  }

  function FieldOf(name: SectionName, key: string): BuildProfile -> Option<Setting> {
    (p: BuildProfile) => Field(Section(p, name), key)
  }

  function SectionOf(name: SectionName): BuildProfile -> Option<()> {
    (p: BuildProfile) => if name.Custom? then NonEmpty(p.custom) else Present(Section(p, name))
  }

  function SubmitFieldOf(name: SectionName, key: string): SubmitProfile -> Option<Setting> {
    (p: SubmitProfile) => Field(SubmitSection(p, name), key)
  }

  function SubmitSectionOf(name: SectionName): SubmitProfile -> Option<()> {
    (p: SubmitProfile) => Present(SubmitSection(p, name))
  }

  lemma BuildOverlays(scalar: ScalarName, name: SectionName, key: string)
    ensures Overlays(MergeProfile, ScalarOf(scalar))
    ensures Overlays(MergeProfile, FieldOf(name, key))
    ensures Overlays(MergeProfile, SectionOf(name))
  {
    forall a: BuildProfile, b: BuildProfile
      ensures FieldOf(name, key)(MergeProfile(a, b)) == Coalesce(FieldOf(name, key)(b), FieldOf(name, key)(a))
      ensures SectionOf(name)(MergeProfile(a, b)) == Coalesce(SectionOf(name)(b), SectionOf(name)(a))
    {
      MergedField(Section(a, name), Section(b, name), key);
      MergedSections(Section(a, name), Section(b, name));
    }
  }

  lemma SubmitOverlays(name: SectionName, key: string)
    ensures Overlays(MergeSubmitProfile, SubmitFieldOf(name, key))
    ensures Overlays(MergeSubmitProfile, SubmitSectionOf(name))
  {
    forall a: SubmitProfile, b: SubmitProfile
      ensures SubmitFieldOf(name, key)(MergeSubmitProfile(a, b))
           == Coalesce(SubmitFieldOf(name, key)(b), SubmitFieldOf(name, key)(a))
      ensures SubmitSectionOf(name)(MergeSubmitProfile(a, b))
           == Coalesce(SubmitSectionOf(name)(b), SubmitSectionOf(name)(a))
    {
      MergedField(SubmitSection(a, name), SubmitSection(b, name), key);
      MergedSections(SubmitSection(a, name), SubmitSection(b, name));
    }
  }

  // ---------------------------------------------------------------- the resolved profile

  /** Nearest definition wins for every scalar and every key of every section, and for the sections themselves. */
  ghost predicate NearestBuild(chain: seq<BuildProfile>, p: BuildProfile) {
    && p.inherits == None
    && (forall scalar :: Nearest(chain, ScalarOf(scalar), ScalarOf(scalar)(p)))
    && (forall name, key :: Nearest(chain, FieldOf(name, key), FieldOf(name, key)(p)))
    && (forall name: SectionName :: Nearest(chain, SectionOf(name), SectionOf(name)(p)))
    && (|chain| > 1 && p.custom.Some? ==> p.custom.value != map[])
  }

  ghost predicate NearestSubmit(chain: seq<SubmitProfile>, p: SubmitProfile) {
    && p.inherits == None
    && (forall name, key :: Nearest(chain, SubmitFieldOf(name, key), SubmitFieldOf(name, key)(p)))
    && (forall name: SectionName :: Nearest(chain, SubmitSectionOf(name), SubmitSectionOf(name)(p)))
  }

  lemma {:induction false} CustomNotEmpty(acc: BuildProfile, rest: seq<BuildProfile>)
    requires rest != [] || acc.custom != Some(map[])
    ensures Reduce(MergeProfile, acc, rest).custom != Some(map[])
    decreases |rest|
  {
    if rest != [] {
      CustomNotEmpty(MergeProfile(acc, rest[0]), rest[1..]);
    }
  }

  lemma LookupIsNearest(chain: seq<BuildProfile>, scalar: ScalarName, name: SectionName, key: string)
    requires chain != []
    ensures
      var p := ResolvedBuild(chain);
      && Nearest(chain, ScalarOf(scalar), ScalarOf(scalar)(p))
      && Nearest(chain, FieldOf(name, key), FieldOf(name, key)(p))
      && Nearest(chain, SectionOf(name), SectionOf(name)(p))
  {
    BuildOverlays(scalar, name, key);
    ChainIsNearest(MergeProfile, ScalarOf(scalar), chain);
    ChainIsNearest(MergeProfile, FieldOf(name, key), chain);
    ChainIsNearest(MergeProfile, SectionOf(name), chain);
  }

  /** The resolved build profile is the nearest definition of everything in it. */
  lemma ResolvedBuildIsNearest(chain: seq<BuildProfile>)
    requires chain != []
    ensures NearestBuild(chain, ResolvedBuild(chain))
  {
    var p := ResolvedBuild(chain);
    if |chain| > 1 {
      CustomNotEmpty(chain[0], chain[1..]);
    }
    forall scalar
      ensures Nearest(chain, ScalarOf(scalar), ScalarOf(scalar)(p))
    {
      LookupIsNearest(chain, scalar, Env, "");
    }
    forall name, key
      ensures Nearest(chain, FieldOf(name, key), FieldOf(name, key)(p))
    {
      LookupIsNearest(chain, Channel, name, key);
    }
    forall name
      ensures Nearest(chain, SectionOf(name), SectionOf(name)(p))
    {
      LookupIsNearest(chain, Channel, name, "");
    }
  }

  lemma SubmitLookupIsNearest(chain: seq<SubmitProfile>, name: SectionName, key: string)
    requires chain != []
    ensures
      var p := ResolvedSubmit(chain);
      && Nearest(chain, SubmitFieldOf(name, key), SubmitFieldOf(name, key)(p))
      && Nearest(chain, SubmitSectionOf(name), SubmitSectionOf(name)(p))
  {
    SubmitOverlays(name, key);
    ChainIsNearest(MergeSubmitProfile, SubmitFieldOf(name, key), chain);
    ChainIsNearest(MergeSubmitProfile, SubmitSectionOf(name), chain);
  }

  lemma ResolvedSubmitIsNearest(chain: seq<SubmitProfile>)
    requires chain != []
    ensures NearestSubmit(chain, ResolvedSubmit(chain))
  {
    forall name, key
      ensures Nearest(chain, SubmitFieldOf(name, key), SubmitFieldOf(name, key)(ResolvedSubmit(chain)))
    {
      SubmitLookupIsNearest(chain, name, key);
    }
    forall name
      ensures Nearest(chain, SubmitSectionOf(name), SubmitSectionOf(name)(ResolvedSubmit(chain)))
    {
      SubmitLookupIsNearest(chain, name, "");
    }
  }

  // ---------------------------------------------------------------- left fold or recursion

  ghost predicate Associative<P(!new)>(merge: (P, P) -> P) {
    forall a, b, c {:trigger merge(merge(a, b), c)} :: merge(merge(a, b), c) == merge(a, merge(b, c))
  }

  lemma MergeAssociates(a: Option<Fields>, b: Option<Fields>, c: Option<Fields>)
    ensures ShallowMerge(ShallowMerge(a, b), c) == ShallowMerge(a, ShallowMerge(b, c))
    ensures MergeCustom(MergeCustom(a, b), c) == MergeCustom(a, MergeCustom(b, c))
  {
    if a.Some? && b.Some? && c.Some? {
      assert a.value + b.value + c.value == a.value + (b.value + c.value);
    }
    EmptyIsNeutral(a, b, c);
  }

  lemma EmptyIsNeutral(a: Option<Fields>, b: Option<Fields>, c: Option<Fields>)
    ensures MergeCustom(MergeCustom(a, b), c) == MergeCustom(ShallowMerge(a, b), c)
    ensures MergeCustom(a, MergeCustom(b, c)) == MergeCustom(a, ShallowMerge(b, c))
  {
    if c.Some? {
      assert map[] + c.value == c.value;
    }
    if a.Some? {
      assert a.value + map[] == a.value;
    }
  }

  /** Both merges are associative. */
  lemma MergesAssociate()
    ensures Associative(MergeProfile) && Associative(MergeSubmitProfile)
  {
    forall a: BuildProfile, b: BuildProfile, c: BuildProfile
      ensures MergeProfile(MergeProfile(a, b), c) == MergeProfile(a, MergeProfile(b, c))
    {
      MergeAssociates(a.env, b.env, c.env);
      MergeAssociates(a.ios, b.ios, c.ios);
      MergeAssociates(a.android, b.android, c.android);
      MergeAssociates(a.custom, b.custom, c.custom);
    }
    forall a: SubmitProfile, b: SubmitProfile, c: SubmitProfile
      ensures MergeSubmitProfile(MergeSubmitProfile(a, b), c) == MergeSubmitProfile(a, MergeSubmitProfile(b, c))
    {
      MergeAssociates(a.ios, b.ios, c.ios);
      MergeAssociates(a.android, b.android, c.android);
    }
  }

  /** With an associative merge a chain may be cut anywhere and the halves resolved on their own. */
  lemma {:induction false} ReduceSplits<P(!new)>(merge: (P, P) -> P, left: P, right: P, rest: seq<P>)
    requires Associative(merge)
    ensures Reduce(merge, merge(left, right), rest) == merge(left, Reduce(merge, right, rest))
    decreases |rest|
  {
    if rest != [] {
      assert merge(merge(left, right), rest[0]) == merge(left, merge(right, rest[0]));
      ReduceSplits(merge, left, merge(right, rest[0]), rest[1..]);
    }
  }

  lemma {:induction false} ReduceSnoc<P>(merge: (P, P) -> P, acc: P, rest: seq<P>, last: P)
    ensures Reduce(merge, acc, rest + [last]) == merge(Reduce(merge, acc, rest), last)
    decreases |rest|
  {
    if rest == [] {
      assert [last][1..] == [];
    } else {
      assert (rest + [last])[1..] == rest[1..] + [last];
      ReduceSnoc(merge, merge(acc, rest[0]), rest[1..], last);
    }
  }

  lemma ReduceLast<P>(merge: (P, P) -> P, chain: seq<P>)
    requires |chain| > 1
    ensures Reduce(merge, chain[0], chain[1..])
         == merge(Reduce(merge, chain[0], chain[..|chain| - 1][1..]), chain[|chain| - 1])
  {
    var n := |chain| - 1;
    assert chain[..n][1..] + [chain[n]] == chain[1..];
    ReduceSnoc(merge, chain[0], chain[..n][1..], chain[n]);
  }

  const BUILD_PARENT := (p: BuildProfile) => p.inherits
  const SUBMIT_PARENT := (p: SubmitProfile) => p.inherits

  ghost predicate BuildResolves(
    profiles: map<string, BuildProfile>, name: string, r: Result<BuildProfile, ChainError>) {
    match r
    case Ok(p) =>
      exists chain ::
        Resolves(profiles, BUILD_PARENT, name, MAX_EXTENDS_DEPTH, Ok(chain)) && chain != [] && p == ResolvedBuild(chain)
    case Err(e) => Resolves(profiles, BUILD_PARENT, name, MAX_EXTENDS_DEPTH, Err(e))
  }

  ghost predicate SubmitResolves(
    profiles: map<string, SubmitProfile>, name: string, r: Result<SubmitProfile, ChainError>) {
    match r
    case Ok(p) =>
      exists chain ::
        && Resolves(profiles, SUBMIT_PARENT, name, MAX_EXTENDS_DEPTH, Ok(chain))
        && chain != [] && p == ResolvedSubmit(chain)
    case Err(e) => Resolves(profiles, SUBMIT_PARENT, name, MAX_EXTENDS_DEPTH, Err(e))
  }

  /**
   * Inheritance is recursive: a profile that extends `base` resolves, if it does, to
   * itself merged over what `base` resolves to on its own.
   */
  lemma BuildInheritsResolved(profiles: map<string, BuildProfile>, name: string, base: string, p: BuildProfile)
    requires BuildResolves(profiles, name, Ok(p))
    requires name in profiles && profiles[name].inherits == Some(base)
    ensures exists q :: BuildResolves(profiles, base, Ok(q)) && p == MergeProfile(q, profiles[name]).(inherits := None)
  {
    var chain :|
      Resolves(profiles, BUILD_PARENT, name, MAX_EXTENDS_DEPTH, Ok(chain)) && chain != [] && p == ResolvedBuild(chain);
    ParentChain(profiles, BUILD_PARENT, name, MAX_EXTENDS_DEPTH, chain, base);
    ReduceLast(MergeProfile, chain);
    var q := ResolvedBuild(chain[..|chain| - 1]);
    assert BuildResolves(profiles, base, Ok(q));
  }

  lemma SubmitInheritsResolved(profiles: map<string, SubmitProfile>, name: string, base: string, p: SubmitProfile)
    requires SubmitResolves(profiles, name, Ok(p))
    requires name in profiles && profiles[name].inherits == Some(base)
    ensures exists q ::
              SubmitResolves(profiles, base, Ok(q)) && p == MergeSubmitProfile(q, profiles[name]).(inherits := None)
  {
    var chain :|
      && Resolves(profiles, SUBMIT_PARENT, name, MAX_EXTENDS_DEPTH, Ok(chain))
      && chain != [] && p == ResolvedSubmit(chain);
    ParentChain(profiles, SUBMIT_PARENT, name, MAX_EXTENDS_DEPTH, chain, base);
    ReduceLast(MergeSubmitProfile, chain);
    var q := ResolvedSubmit(chain[..|chain| - 1]);
    assert SubmitResolves(profiles, base, Ok(q));
  }

  method ResolveEasBuildProfile(build: Option<map<string, BuildProfile>>, profileName: string)
    returns (r: Result<BuildProfile, ProfileError>)
    ensures r == Err(NoSection) <==> build.None?
    ensures r.Ok? ==> BuildResolves(build.value, profileName, Ok(r.value))
    ensures r.Err? && r.error.Chain? ==> Resolves(build.value, BUILD_PARENT, profileName, 10, Err(r.error.error))
    ensures r.Err? && r.error.Chain? ==> BuildResolves(build.value, profileName, Err(r.error.error))
    ensures r.Ok? ==> exists chain ::
              && Resolves(build.value, BUILD_PARENT, profileName, 10, Ok(chain))
              && NearestBuild(chain, r.value)
  {
    if build.None? {
      return Err(NoSection);
    }
    var outcome := ResolveExtendsChain(build.value, BUILD_PARENT, profileName, MAX_EXTENDS_DEPTH);
    if outcome.Err? {
      return Err(Chain(outcome.error));
    }
    ResolvedBuildIsNearest(outcome.value);
    return Ok(ResolvedBuild(outcome.value));
  }

  method ResolveEasSubmitProfile(submit: Option<map<string, SubmitProfile>>, profileName: string)
    returns (r: Result<SubmitProfile, ProfileError>)
    ensures r == Err(NoSection) <==> submit.None?
    ensures r.Ok? ==> SubmitResolves(submit.value, profileName, Ok(r.value))
    ensures r.Err? && r.error.Chain? ==> Resolves(submit.value, SUBMIT_PARENT, profileName, 10, Err(r.error.error))
    ensures r.Err? && r.error.Chain? ==> SubmitResolves(submit.value, profileName, Err(r.error.error))
    ensures r.Ok? ==> exists chain ::
              Resolves(submit.value, SUBMIT_PARENT, profileName, 10, Ok(chain))
              && NearestSubmit(chain, r.value)
  {
    if submit.None? {
      return Err(NoSection);
    }
    var outcome := ResolveExtendsChain(submit.value, SUBMIT_PARENT, profileName, MAX_EXTENDS_DEPTH);
    if outcome.Err? {
      return Err(Chain(outcome.error));
    }
    ResolvedSubmitIsNearest(outcome.value);
    return Ok(ResolvedSubmit(outcome.value));
  }
}
