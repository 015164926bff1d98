/**
 * Parsed JSON documents and JSON Merge Patch (section 2 of RFC 7386).
 *
 * The overlay patcher applies an overlay's spec document to an object's
 * spec with these rules: members of the patch overwrite the target's,
 * a null member deletes, nested objects merge recursively, and anything
 * that is not an object (arrays included) replaces the target wholesale.
 */
module Json {

  /** A parsed JSON value. Numbers are integers: no spec field the model touches is fractional. */
  datatype Json =
    | Null
    | Bool(b: bool)
    | Number(n: int)
    | String(s: string)
    | Array(items: seq<Json>)
    | Object(fields: map<string, Json>)

  /** The members of `t` when it is an object; RFC 7386 treats any other target as `{}`. */
  function TargetFields(t: Json): map<string, Json> {
    if t.Object? then t.fields else map[]
  }

  /** The member `k` of `t`, or null when `t` has no such member ("undefined" in RFC 7386). */
  function Member(t: Json, k: string): Json {
    var tf := TargetFields(t);
    if k in tf then tf[k] else Null
  }

  /** MergePatch(target, patch) of section 2 of RFC 7386. */
  function MergePatch(target: Json, patch: Json): (r: Json)
    decreases patch
    // a patch that is not an object replaces the target wholesale
    ensures !patch.Object? ==> r == patch
    // an object patch always yields an object
    ensures patch.Object? ==> r.Object?
    // a null member of the patch removes that member
    ensures patch.Object? ==> forall k | k in patch.fields && patch.fields[k].Null? :: k !in r.fields
    // a target member that the patch does not mention survives unchanged
    ensures patch.Object? ==> forall k | k in TargetFields(target) && k !in patch.fields ::
              k in r.fields && r.fields[k] == TargetFields(target)[k]
    // a member the patch gives a scalar or array value is set to exactly that value
    ensures patch.Object? ==> forall k | k in patch.fields && !patch.fields[k].Null? && !patch.fields[k].Object? ::
              k in r.fields && r.fields[k] == patch.fields[k]
    // a member the patch gives an object value is merge-patched recursively into the target's member
    ensures patch.Object? ==> forall k | k in patch.fields && patch.fields[k].Object? ::
              k in r.fields && r.fields[k] == MergePatch(Member(target, k), patch.fields[k])
    // no member appears that neither the target nor the patch has
    ensures patch.Object? ==> r.fields.Keys <= TargetFields(target).Keys + patch.fields.Keys
  {
    match patch
    case Object(pf) =>
      var tf := TargetFields(target);
      Object(map k | k in tf.Keys + pf.Keys && !(k in pf && pf[k].Null?) ::
        if k in pf then (assert pf[k] in pf.Values; MergePatch(Member(target, k), pf[k])) else tf[k])
    case _ => patch
  }

  /** Applying the same merge patch twice gives what applying it once gives. */
  lemma {:induction false} MergePatchIdempotent(target: Json, patch: Json)
    ensures MergePatch(MergePatch(target, patch), patch) == MergePatch(target, patch)
    decreases patch
  {
    match patch
    case Object(pf) =>
      var once := MergePatch(target, patch);
      var twice := MergePatch(once, patch);
      forall k | k in pf && !pf[k].Null?
        ensures k in twice.fields && k in once.fields && twice.fields[k] == once.fields[k]
      {
        assert pf[k] in pf.Values;
        MergePatchIdempotent(Member(target, k), pf[k]);
        assert Member(once, k) == MergePatch(Member(target, k), pf[k]);
      }
      assert twice.fields == once.fields;
    case _ =>
  }
}
