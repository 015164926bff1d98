/**
 * The AgentgatewayParameters applier and the default Helm values generator.
 *
 * The applier holds a possibly-nil parameters object. It projects the typed
 * configuration onto a Helm values record and applies the per-kind overlays
 * to generated objects; both update their targets in place, and both do
 * nothing when the parameters are nil. The generator derives the service
 * section of the default Helm values from a Gateway's addresses.
 */
module Applier {
  import opened Wrappers
  import opened Json
  import opened Addresses
  import opened HelmValues
  import opened Overlays

  /** The spec of an AgentgatewayParameters resource. */
  datatype Parameters = Parameters(configs: Configs, overlays: Overlays)

  /** Overlays with no entry for any kind. */
  const NoOverlays := Overlays(None, None, None)

  /** The overlays the applier uses: none at all for nil parameters. */
  function OverlaysOf(params: Option<Parameters>): (ovs: Overlays)
    ensures params.None? ==> ovs == NoOverlays
    ensures params.Some? ==> ovs == params.value.overlays
  {
    if params.Some? then params.value.overlays else NoOverlays
  }

  /** Without overlays every object is left as it is and nothing is rejected. */
  lemma NoOverlaysChangeNothing(kind: Kind, s: ObjectState)
    ensures Overlaid(NoOverlays, kind, s) == s
    ensures !RejectsKind(NoOverlays, kind)
  {
  }

  class ParametersApplier {
    const params: Option<Parameters>

    /** An applier for `params`; nil parameters give an applier that changes nothing. */
    constructor (params: Option<Parameters>)
      ensures this.params == params
    {
      this.params := params;
    }

    /** Projects the typed configuration onto `vals`; nil parameters leave `vals` unchanged. */
    method ApplyToHelmValues(vals: HelmGateway)
      modifies vals
      ensures params.None? ==> vals.Snapshot() == old(vals.Snapshot())
      ensures params.Some? ==> vals.Snapshot() == ApplyConfigs(params.value.configs, old(vals.Snapshot()))
    {
      if params.Some? {
        vals.Apply(params.value.configs);
      }
    }

    /**
     * Applies the overlay of each object's kind to the objects of `objs`, in
     * order, stopping at the first object whose overlay is rejected. The list
     * itself is not changed; the objects are updated in place. Each object
     * before the failure point is overlaid (once, even if it occurs several
     * times in the list), every other object is left as it was.
     */
    method ApplyOverlaysToObjects(objs: seq<KubeObject>) returns (err: Option<PatchError>)
      modifies set o | o in objs
      ensures params.None? ==> err.None? && forall i | 0 <= i < |objs| :: objs[i].State() == old(objs[i].State())
      ensures var k := FirstRejected(OverlaysOf(params), objs);
        && (err.None? <==> k == |objs|)
        && (err.Some? ==> err.value == SpecPatchNotAnObject(objs[k].kind))
        && forall i | 0 <= i < |objs| ::
             objs[i].State() == if objs[i] in objs[..k] then Overlaid(OverlaysOf(params), objs[i].kind, old(objs[i].State()))
                                else old(objs[i].State())
    {
      var ovs := OverlaysOf(params);
      err := None;
      var n := 0;
      while n < |objs|
        invariant 0 <= n <= FirstRejected(ovs, objs)
        invariant forall i | 0 <= i < |objs| ::
          objs[i].State() == if objs[i] in objs[..n] then Overlaid(ovs, objs[i].kind, old(objs[i].State()))
                             else old(objs[i].State())
      {
        var o := objs[n];
        var ov := OverlayFor(ovs, o.kind);
        if ov.Some? {
          if Rejects(ov.value) {
            err := Some(SpecPatchNotAnObject(o.kind));
            return;
          }
          OverlaidIdempotent(ovs, o.kind, old(o.State()));
          o.ApplyOverlay(ov.value);
        }
        assert objs[..n + 1] == objs[..n] + [o];
        n := n + 1;
      }
    }
  }

  /**
   * The service section of the default Helm values for a Gateway: always of
   * type LoadBalancer, with the load-balancer IP that address resolution
   * selects, or the resolution error and no values at all.
   */
  function DefaultHelmService(gw: Gateway, isIPv6: string -> bool): (r: Result<HelmService, AddressError>)
    ensures r.Success? <==> ResolveLoadBalancerIP(gw.addresses, isIPv6).Success?
    ensures r.Success? ==> r.value.serviceType == Some(LoadBalancerServiceType)
    ensures r.Success? ==> r.value.loadBalancerIP == ResolveLoadBalancerIP(gw.addresses, isIPv6).value
    ensures r.Failure? ==> r.error == ResolveLoadBalancerIP(gw.addresses, isIPv6).error
  {
    match ResolveLoadBalancerIP(gw.addresses, isIPv6)
    case Success(ip) => Success(HelmService(Some(LoadBalancerServiceType), ip))
    case Failure(e) => Failure(e)
  }

  const LoadBalancerServiceType := "LoadBalancer"
}
