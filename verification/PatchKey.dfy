/** R2 keys of precomputed patches (packages/expo-protocol/src/index.ts). */
module PatchKey {

  datatype Params = Params(
    projectId: string,
    runtimeVersion: string,
    platform: string,
    fromUpdateId: string,
    toUpdateId: string)

  /** `toLowerCase`, of which only this is used: it brings in no underscore. */
  type Lower = string -> string

  ghost predicate AddsNoUnderscore(lower: Lower) {
    forall s: string {:trigger lower(s)} :: '_' in lower(s) ==> '_' in s
  }

  function PatchR2Key(p: Params, lower: Lower): string {
    "patches/" + (p.projectId + ("/" + (p.runtimeVersion + ("/" + (p.platform + ("/"
    + (lower(p.fromUpdateId) + "__" + lower(p.toUpdateId) + ".bsdiff")))))))
  }

  predicate HasDotDot(s: string) {
    exists i | 0 <= i < |s| - 1 :: s[i] == '.' && s[i + 1] == '.'
  }

  predicate Safe(segment: string) {
    segment != "" && '/' !in segment && '\\' !in segment && !HasDotDot(segment) && '\0' !in segment
  }

  predicate IsValidPatchKey(key: string, p: Params, lower: Lower) {
    && Safe(p.projectId) && Safe(p.runtimeVersion) && Safe(p.platform) && Safe(p.fromUpdateId) && Safe(p.toUpdateId)
    && key == PatchR2Key(p, lower)
  }

  /** A segment ends at the first slash. */
  lemma SameSegment(a: string, x: string, b: string, y: string)
    requires a + ("/" + x) == b + ("/" + y) && '/' !in a && '/' !in b
    ensures a == b && x == y
  {
    var s := a + ("/" + x);
    assert s[|a|] == '/' && s[|b|] == '/';
    assert |a| == |b|;
    assert s[..|a|] == a && s[..|b|] == b && s[|a| + 1..] == x && s[|b| + 1..] == y;
  }

  /** The ids read off at a later `__`: one underscore further on, or past a whole separator. */
  ghost predicate Shifted(f: string, t: string, f': string, t': string) {
    || (f' == f + "_" && t == "_" + t')
    || exists m :: f' == f + "__" + m && t == m + "__" + t'
  }

  ghost predicate SameJoin(f: string, t: string, f': string, t': string) {
    (f == f' && t == t') || Shifted(f, t, f', t') || Shifted(f', t', f, t)
  }

  lemma ShiftedJoins(f: string, t: string, f': string, t': string)
    requires Shifted(f, t, f', t')
    ensures f + "__" + t == f' + "__" + t'
  {
    if f' == f + "_" && t == "_" + t' {
      assert f + "__" + t == f + "___" + t' == f' + "__" + t';
    } else {
      var m :| f' == f + "__" + m && t == m + "__" + t';
      assert f + "__" + (m + "__" + t') == (f + "__" + m) + "__" + t';
    }
  }

  lemma LongerIsShifted(f: string, t: string, f': string, t': string)
    requires f + "__" + t == f' + "__" + t' && |f| < |f'|
    ensures Shifted(f, t, f', t')
  {
    var s := f + "__" + t;
    var d := |f'| - |f|;
    assert s[..|f'|] == f' && s[..|f|] == f && s[|f'| + 2..] == t' && s[|f| + 2..] == t;
    assert s[|f|] == '_' && s[|f| + 1] == '_' && s[|f'|] == '_' && s[|f'| + 1] == '_';
    if d == 1 {
      assert f' == f + "_";
      assert t == "_" + t';
    } else {
      var m := s[|f| + 2..|f'|];
      assert f' == f + "__" + m;
      assert t == m + "__" + t';
    }
  }

  /** When two id pairs join to one text: exactly when they are equal or one is the other read off later. */
  lemma JoinCollides(f: string, t: string, f': string, t': string)
    ensures f + "__" + t == f' + "__" + t' <==> SameJoin(f, t, f', t')
  {
    if f + "__" + t == f' + "__" + t' {
      var s := f + "__" + t;
      if |f| < |f'| {
        LongerIsShifted(f, t, f', t');
      } else if |f'| < |f| {
        LongerIsShifted(f', t', f, t);
      } else {
        assert s[..|f|] == f && s[..|f|] == f' && s[|f| + 2..] == t && s[|f| + 2..] == t';
      }
    }
    if Shifted(f, t, f', t') {
      ShiftedJoins(f, t, f', t');
    }
    if Shifted(f', t', f, t) {
      ShiftedJoins(f', t', f, t);
    }
  }

  lemma SameSuffix(a: string, b: string)
    ensures a + ".bsdiff" == b + ".bsdiff" <==> a == b
  {
    if a + ".bsdiff" == b + ".bsdiff" {
      assert (a + ".bsdiff")[..|a|] == a && (b + ".bsdiff")[..|b|] == b;
    }
  }

  lemma SamePrefix(a: string, b: string)
    requires "patches/" + a == "patches/" + b
    ensures a == b
  {
    assert ("patches/" + a)[8..] == a && ("patches/" + b)[8..] == b;
  }

  /**
   * A key accepted for two tuples: exactly when project, runtime version and platform
   * are equal and the lowercased ids are equal or one pair is the other read off at a
   * later `__`.
   */
  lemma PatchKeyCollides(key: string, p: Params, q: Params, lower: Lower)
    requires IsValidPatchKey(key, p, lower) && IsValidPatchKey(PatchR2Key(q, lower), q, lower)
    ensures IsValidPatchKey(key, q, lower) <==>
              && p.projectId == q.projectId && p.runtimeVersion == q.runtimeVersion && p.platform == q.platform
              && SameJoin(lower(p.fromUpdateId), lower(p.toUpdateId), lower(q.fromUpdateId), lower(q.toUpdateId))
  {
    var f, t, f', t' := lower(p.fromUpdateId), lower(p.toUpdateId), lower(q.fromUpdateId), lower(q.toUpdateId);
    JoinCollides(f, t, f', t');
    SameSuffix(f + "__" + t, f' + "__" + t');
    var ids, ids' := f + "__" + t + ".bsdiff", f' + "__" + t' + ".bsdiff";
    if key == PatchR2Key(q, lower) {
      Segments(p, q, ids, ids');
    }
  }

  lemma Segments(p: Params, q: Params, ids: string, ids': string)
    requires '/' !in p.projectId && '/' !in p.runtimeVersion && '/' !in p.platform
    requires '/' !in q.projectId && '/' !in q.runtimeVersion && '/' !in q.platform
    requires "patches/" + (p.projectId + ("/" + (p.runtimeVersion + ("/" + (p.platform + ("/" + ids))))))
          == "patches/" + (q.projectId + ("/" + (q.runtimeVersion + ("/" + (q.platform + ("/" + ids'))))))
    ensures p.projectId == q.projectId && p.runtimeVersion == q.runtimeVersion && p.platform == q.platform
    ensures ids == ids'
  {
    SamePrefix(p.projectId + ("/" + (p.runtimeVersion + ("/" + (p.platform + ("/" + ids))))),
      q.projectId + ("/" + (q.runtimeVersion + ("/" + (q.platform + ("/" + ids'))))));
    SameSegment(p.projectId, p.runtimeVersion + ("/" + (p.platform + ("/" + ids))),
      q.projectId, q.runtimeVersion + ("/" + (q.platform + ("/" + ids'))));
    SameSegment(p.runtimeVersion, p.platform + ("/" + ids), q.runtimeVersion, q.platform + ("/" + ids'));
    SameSegment(p.platform, ids, q.platform, ids');
  }

  /** For instance these two tuples, valid ids all, share the one key that is valid for either. */
  lemma UnderscoredIdsCollide(lower: Lower)
    requires lower("a") == "a" && lower("b__c") == "b__c" && lower("a__b") == "a__b" && lower("c") == "c"
    ensures
      var p, q := Params("p", "1", "ios", "a", "b__c"), Params("p", "1", "ios", "a__b", "c");
      p != q && IsValidPatchKey(PatchR2Key(p, lower), p, lower) && IsValidPatchKey(PatchR2Key(p, lower), q, lower)
  {
    var p, q := Params("p", "1", "ios", "a", "b__c"), Params("p", "1", "ios", "a__b", "c");
    assert p.fromUpdateId != q.fromUpdateId;
    assert "a" + "__" + "b__c" == "a__b" + "__" + "c";
  }

  /** With no underscore in the `from` ids a key belongs to one tuple, ids compared up to case. */
  lemma PatchKeyInjective(key: string, p: Params, q: Params, lower: Lower)
    requires AddsNoUnderscore(lower) && IsValidPatchKey(key, p, lower) && IsValidPatchKey(key, q, lower)
    requires '_' !in p.fromUpdateId && '_' !in q.fromUpdateId
    ensures p.projectId == q.projectId && p.runtimeVersion == q.runtimeVersion && p.platform == q.platform
    ensures lower(p.fromUpdateId) == lower(q.fromUpdateId) && lower(p.toUpdateId) == lower(q.toUpdateId)
  {
    PatchKeyCollides(key, p, q, lower);
    NoShift(lower(p.fromUpdateId), lower(p.toUpdateId), lower(q.fromUpdateId), lower(q.toUpdateId));
    NoShift(lower(q.fromUpdateId), lower(q.toUpdateId), lower(p.fromUpdateId), lower(p.toUpdateId));
  }

  lemma NoShift(f: string, t: string, f': string, t': string)
    requires '_' !in f'
    ensures !Shifted(f, t, f', t')
  {
    assert '_' in f + "_";
    assert forall m :: '_' in f + "__" + m;
  }

  // ---------------------------------------------------------------- the shape of a key

  /** The components of a path. */
  function Components(path: string): (parts: seq<string>)
    ensures parts != []
  {
    if path == "" then [""]
    else
      var rest := Components(path[1..]);
      if path[0] == '/' then [""] + rest else [[path[0]] + rest[0]] + rest[1..]
  }

  lemma {:induction false} FirstComponent(a: string, rest: string)
    requires '/' !in a
    ensures Components(a + ("/" + rest)) == [a] + Components(rest)
    ensures Components(a) == [a]
  {
    if a == "" {
      assert a + ("/" + rest) == "/" + rest && ("/" + rest)[1..] == rest;
    } else {
      assert (a + ("/" + rest))[1..] == a[1..] + ("/" + rest);
      FirstComponent(a[1..], rest);
      assert a == [a[0]] + a[1..];
    }
  }

  /** `toLowerCase` brings in no slash either. */
  ghost predicate AddsNoSlash(lower: Lower) {
    forall s: string {:trigger lower(s)} :: '/' in lower(s) ==> '/' in s
  }

  lemma FiveComponents(a: string, b: string, c: string, d: string, e: string)
    requires '/' !in a && '/' !in b && '/' !in c && '/' !in d && '/' !in e
    ensures Components(a + ("/" + (b + ("/" + (c + ("/" + (d + ("/" + e)))))))) == [a, b, c, d, e]
  {
    hide Components;
    FirstComponent(e, "");
    FirstComponent(d, e);
    FirstComponent(c, d + ("/" + e));
    FirstComponent(b, c + ("/" + (d + ("/" + e))));
    FirstComponent(a, b + ("/" + (c + ("/" + (d + ("/" + e))))));
  }

  lemma KeyText(p: Params, lower: Lower, name: string)
    requires name == lower(p.fromUpdateId) + "__" + lower(p.toUpdateId) + ".bsdiff"
    ensures PatchR2Key(p, lower)
         == "patches" + ("/" + (p.projectId + ("/" + (p.runtimeVersion + ("/" + (p.platform + ("/" + name)))))))
  {
    var rest := p.projectId + ("/" + (p.runtimeVersion + ("/" + (p.platform + ("/" + name)))));
    assert "patches/" + rest == "patches" + ("/" + rest);
  }

  /**
   * A valid key stays under `patches/`: it has exactly five components, the segments
   * of its tuple each in its own place, and none of them is empty or steps up.
   */
  lemma KeyStaysUnderPatches(key: string, p: Params, lower: Lower)
    requires AddsNoSlash(lower) && IsValidPatchKey(key, p, lower)
    ensures
      var name := lower(p.fromUpdateId) + "__" + lower(p.toUpdateId) + ".bsdiff";
      && Components(key) == ["patches", p.projectId, p.runtimeVersion, p.platform, name]
      && forall part | part in Components(key) :: part != "" && part != ".." && '/' !in part
  {
    hide Components, PatchR2Key;
    var name := lower(p.fromUpdateId) + "__" + lower(p.toUpdateId) + ".bsdiff";
    assert '/' !in name && |name| > 2;
    KeyText(p, lower, name);
    FiveComponents("patches", p.projectId, p.runtimeVersion, p.platform, name);
    StepsUp(p.projectId);
    StepsUp(p.runtimeVersion);
    StepsUp(p.platform);
  }

  lemma StepsUp(segment: string)
    requires Safe(segment)
    ensures segment != ".."
  {
    var up := "..";
    assert up[0] == '.' && up[1] == '.';
  }

  /** One safe path component, character by character. */
  ghost predicate Component(segment: string) {
    && |segment| > 0 && (forall c | c in segment :: c != '/' && c != '\\' && c as int != 0)
    && !exists a, b :: segment == a + ".." + b
  }

  lemma SafeIsComponent(segment: string)
    ensures Safe(segment) <==> Component(segment)
  {
    if HasDotDot(segment) {
      var i :| 0 <= i < |segment| - 1 && segment[i] == '.' && segment[i + 1] == '.';
      assert segment == segment[..i] + ".." + segment[i + 2..];
    }
    if a, b :| segment == a + ".." + b {
      var s := a + ".." + b;
      assert s[|a|] == '.' && s[|a| + 1] == '.';
    }
  }

  /** A key is accepted if and only if it is the tuple's own and each of the five segments is a safe component. */
  lemma AcceptedExactly(key: string, p: Params, lower: Lower)
    ensures IsValidPatchKey(key, p, lower) <==>
              && Component(p.projectId) && Component(p.runtimeVersion) && Component(p.platform)
              && Component(p.fromUpdateId) && Component(p.toUpdateId)
              && key == "patches/" + p.projectId + "/" + p.runtimeVersion + "/" + p.platform + "/"
                        + lower(p.fromUpdateId) + "__" + lower(p.toUpdateId) + ".bsdiff"
  {
    SafeIsComponent(p.projectId);
    SafeIsComponent(p.runtimeVersion);
    SafeIsComponent(p.platform);
    SafeIsComponent(p.fromUpdateId);
    SafeIsComponent(p.toUpdateId);
    KeyInOrder(p, lower);
    hide Safe, Component, PatchR2Key;
  }

  lemma KeyInOrder(p: Params, lower: Lower)
    ensures PatchR2Key(p, lower)
         == "patches/" + p.projectId + "/" + p.runtimeVersion + "/" + p.platform + "/"
            + lower(p.fromUpdateId) + "__" + lower(p.toUpdateId) + ".bsdiff"
  {
  }
}
