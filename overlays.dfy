/**
 * Overlays from AgentgatewayParameters applied to the generated Kubernetes
 * objects. Each object kind may have one overlay: labels that are upserted
 * into the object's labels (the overlay wins on a shared key) and a spec
 * document merged into the object's spec as a JSON merge patch.
 */
module Overlays {
  import opened Wrappers
  import opened Json

  /** The kinds of generated object an overlay can target; any other kind is never overlaid. */
  datatype Kind = Deployment | Service | ServiceAccount | OtherKind(name: string)

  /** Metadata to merge into an object. */
  datatype ObjectMetadata = ObjectMetadata(labels: map<string, string>)

  /** One kind's overlay: optional metadata and an optional spec patch document. */
  datatype ResourceOverlay = ResourceOverlay(metadata: Option<ObjectMetadata>, spec: Option<Json>)

  /** The overlay section of AgentgatewayParameters: at most one overlay per kind. */
  datatype Overlays = Overlays(
    deployment: Option<ResourceOverlay>,
    service: Option<ResourceOverlay>,
    serviceAccount: Option<ResourceOverlay>)

  /** The overlay that applies to objects of kind `kind`, if any. */
  function OverlayFor(ovs: Overlays, kind: Kind): (r: Option<ResourceOverlay>)
    ensures kind.OtherKind? ==> r.None?
    ensures kind == Deployment ==> r == ovs.deployment
    ensures kind == Service ==> r == ovs.service
    ensures kind == ServiceAccount ==> r == ovs.serviceAccount
  {
    match kind
    case Deployment => ovs.deployment
    case Service => ovs.service
    case ServiceAccount => ovs.serviceAccount
    case OtherKind(_) => None
  }

  /** Why an overlay cannot be applied. */
  datatype PatchError = SpecPatchNotAnObject(kind: Kind)

  /**
   * An overlay whose spec patch is not a JSON object would replace the whole
   * spec by a scalar, an array or null, which no object spec can be decoded from.
   */
  predicate Rejects(ov: ResourceOverlay) {
    ov.spec.Some? && !ov.spec.value.Object?
  }

  /** The part of an object an overlay can change. */
  datatype ObjectState = ObjectState(labels: map<string, string>, spec: Json)

  /** `labels` with every entry of `overlay` inserted, replacing the value of a key both have. */
  function UpsertLabels(labels: map<string, string>, overlay: map<string, string>): (r: map<string, string>)
    ensures r.Keys == labels.Keys + overlay.Keys
    ensures forall k | k in overlay :: r[k] == overlay[k]
    ensures forall k | k in labels && k !in overlay :: r[k] == labels[k]
  {
    labels + overlay
  }

  /** The state of an object after applying the overlay `ov` (meaningful when `ov` is not rejected). */
  function Patched(ov: ResourceOverlay, s: ObjectState): (r: ObjectState)
    ensures ov.metadata.None? ==> r.labels == s.labels
    ensures ov.metadata.Some? ==> r.labels == UpsertLabels(s.labels, ov.metadata.value.labels)
    ensures ov.spec.None? ==> r.spec == s.spec
    ensures ov.spec.Some? ==> r.spec == MergePatch(s.spec, ov.spec.value)
  {
    ObjectState(
      if ov.metadata.Some? then UpsertLabels(s.labels, ov.metadata.value.labels) else s.labels,
      if ov.spec.Some? then MergePatch(s.spec, ov.spec.value) else s.spec)
  }

  /** Applying an overlay twice to an object leaves it as applying it once. */
  lemma PatchedIdempotent(ov: ResourceOverlay, s: ObjectState)
    ensures Patched(ov, Patched(ov, s)) == Patched(ov, s)
  {
    if ov.spec.Some? {
      MergePatchIdempotent(s.spec, ov.spec.value);
    }
  }

  /** The state of an object of kind `kind` after the overlays `ovs`; other kinds are left as they are. */
  function Overlaid(ovs: Overlays, kind: Kind, s: ObjectState): (r: ObjectState)
    ensures OverlayFor(ovs, kind).None? ==> r == s
    ensures OverlayFor(ovs, kind).Some? ==> r == Patched(OverlayFor(ovs, kind).value, s)
  {
    match OverlayFor(ovs, kind)
    case None => s
    case Some(ov) => Patched(ov, s)
  }

  /** Overlaying an object twice leaves it as overlaying it once. */
  lemma OverlaidIdempotent(ovs: Overlays, kind: Kind, s: ObjectState)
    ensures Overlaid(ovs, kind, Overlaid(ovs, kind, s)) == Overlaid(ovs, kind, s)
  {
    if OverlayFor(ovs, kind).Some? {
      PatchedIdempotent(OverlayFor(ovs, kind).value, s);
    }
  }

  /** The overlays for objects of kind `kind` cannot be applied. */
  predicate RejectsKind(ovs: Overlays, kind: Kind) {
    OverlayFor(ovs, kind).Some? && Rejects(OverlayFor(ovs, kind).value)
  }

  /** A generated Kubernetes object: its kind and name are fixed, its labels and spec are updated in place. */
  class KubeObject {
    const kind: Kind
    const name: string
    var labels: map<string, string>
    var spec: Json

    function State(): ObjectState
      reads this
    {
      ObjectState(labels, spec)
    }

    constructor (kind: Kind, name: string, labels: map<string, string>, spec: Json)
      ensures this.kind == kind && this.name == name
      ensures State() == ObjectState(labels, spec)
    {
      this.kind := kind;
      this.name := name;
      this.labels := labels;
      this.spec := spec;
    }

    /** Applies the overlay `ov` to this object. */
    method ApplyOverlay(ov: ResourceOverlay)
      modifies this
      ensures State() == Patched(ov, old(State()))
    {
      if ov.metadata.Some? {
        labels := UpsertLabels(labels, ov.metadata.value.labels);
      }
      if ov.spec.Some? {
        spec := MergePatch(spec, ov.spec.value);
      }
    }
  }

  /** The index of the first object whose overlay is rejected, or the length of `objs` when there is none. */
  function FirstRejected(ovs: Overlays, objs: seq<KubeObject>): (k: nat)
    ensures k <= |objs|
    ensures forall j | 0 <= j < k :: !RejectsKind(ovs, objs[j].kind)
    ensures k < |objs| ==> RejectsKind(ovs, objs[k].kind)
  {
    if objs == [] then 0
    else if RejectsKind(ovs, objs[0].kind) then 0
    else 1 + FirstRejected(ovs, objs[1..])
  }
}
