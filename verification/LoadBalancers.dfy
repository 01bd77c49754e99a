/** The load balancers of a cluster's services, and the wait for new instances to appear behind them. */
module LoadBalancers {
  import opened Collections
  import opened Paging
  import opened Strings

  // ---- names ----

  /** getAWSLoadBalancerNameFromHostname: the first label without its last part, and without a leading "internal". */
  function NameFromHostname(hostname: string): Option<string> {
    var parts := Split(Split(hostname, '.')[0], '-');
    if |parts| < 2 then None
    else if parts[0] == "internal" then Some(Join(parts[1..|parts| - 1], '-'))
    else Some(Join(parts[..|parts| - 1], '-'))
  }

  /** The hostname that AWS gives to a load balancer. */
  function Hostname(internal: bool, name: string, suffix: string, domain: string): string {
    (if internal then "internal-" else "") + name + "-" + suffix + "." + domain
  }

  lemma FirstLabel(first: string, domain: string)
    requires '.' !in first
    ensures Split(first + "." + domain, '.')[0] == first
  {
    SplitAround(first, '.', domain);
    SplitWhole(first, '.');
  }

  lemma LabelParts(name: string, suffix: string)
    requires '-' !in suffix
    ensures Split(name + "-" + suffix, '-') == Split(name, '-') + [suffix]
  {
    SplitAround(name, '-', suffix);
    SplitWhole(suffix, '-');
  }

  /** The hostname of an internal load balancer parses to its name. */
  lemma InternalNameParses(name: string, suffix: string, domain: string)
    requires '.' !in name && '.' !in suffix && '-' !in suffix
    ensures NameFromHostname(Hostname(true, name, suffix, domain)) == Some(name)
  {
    var first := "internal-" + name + "-" + suffix;
    FirstLabel(first, domain);
    LabelParts("internal-" + name, suffix);
    assert "internal-" + name == "internal" + "-" + name;
    SplitAround("internal", '-', name);
    SplitWhole("internal", '-');
    var parts := Split(first, '-');
    assert parts == ["internal"] + Split(name, '-') + [suffix];
    assert parts[1..|parts| - 1] == Split(name, '-');
    JoinSplit(name, '-');
  }

  /** That of any other load balancer does so exactly when the name does not start with an "internal" of its own. */
  lemma PublicNameParsesIff(name: string, suffix: string, domain: string)
    requires '.' !in name && '.' !in suffix && '-' !in suffix
    ensures NameFromHostname(Hostname(false, name, suffix, domain)) == Some(name) <==> Split(name, '-')[0] != "internal"
  {
    var first := name + "-" + suffix;
    assert Hostname(false, name, suffix, domain) == first + "." + domain;
    FirstLabel(first, domain);
    LabelParts(name, suffix);
    var parts, own := Split(first, '-'), Split(name, '-');
    assert parts[..|parts| - 1] == own;
    assert parts[1..|parts| - 1] == own[1..];
    JoinSplit(name, '-');
    if own[0] == "internal" {
      JoinShorter(own, '-');
    }
  }

  lemma JoinShorter(parts: seq<string>, c: char)
    requires parts != [] && parts[0] != ""
    ensures |Join(parts[1..], c)| < |Join(parts, c)|
  {
  }

  /** Without a '-' in the first label there is no name, and otherwise there is one. */
  lemma NoNameIff(hostname: string)
    ensures NameFromHostname(hostname).None? <==> '-' !in Split(hostname, '.')[0]
  {
    SplitWhole(Split(hostname, '.')[0], '-');
  }

  // ---- services ----

  datatype ServiceType = ClusterIP | NodePort | LoadBalancer | ExternalName

  /** A service: `ingress` holds the hostnames its load balancer was given, if any yet. */
  datatype Service = Service(name: string, kind: ServiceType, annotations: map<string, string>, ingress: seq<string>)

  datatype ElbType = ALB | NLB | CLB | UnknownELB

  datatype TargetType = InstanceTarget | IPTarget | UnknownELBTarget

  datatype AwsLoadBalancer = AwsLoadBalancer(name: string, kind: ElbType, target: TargetType)

  const TYPE_KEY := "service.beta.kubernetes.io/aws-load-balancer-type"
  const TARGET_KEY := "service.beta.kubernetes.io/aws-load-balancer-nlb-target-type"

  /** GetLoadBalancerTypeFromService, with whether it reports an error. */
  function TypeFromService(service: Service): (ElbType, TargetType, bool) {
    var annotations := service.annotations;
    if TYPE_KEY !in annotations then (CLB, InstanceTarget, true)
    else if annotations[TYPE_KEY] == "nlb" then (NLB, InstanceTarget, true)
    else if annotations[TYPE_KEY] != "external" then (UnknownELB, UnknownELBTarget, false)
    else if TARGET_KEY !in annotations then (NLB, InstanceTarget, true)
    else if annotations[TARGET_KEY] == "instance" then (NLB, InstanceTarget, true)
    else if annotations[TARGET_KEY] == "ip" || annotations[TARGET_KEY] == "nlb-ip" then (NLB, IPTarget, true)
    else (NLB, UnknownELBTarget, false)
  }

  predicate Known(lb: AwsLoadBalancer) {
    !lb.kind.UnknownELB? && !lb.target.UnknownELBTarget?
  }

  /** What a service's load balancer is, if it has one that can be described. */
  function Describe(service: Service): Option<AwsLoadBalancer> {
    var (kind, target, ok) := TypeFromService(service);
    if service.ingress == [] || !ok then None
    else match NameFromHostname(service.ingress[0])
      case None => None
      case Some(name) => Some(AwsLoadBalancer(name, kind, target))
  }

  // ---- the same, said of the annotations ----

  ghost predicate TypeIs(service: Service, value: string) {
    var key := "service.beta.kubernetes.io/aws-load-balancer-type";
    key in service.annotations && service.annotations[key] == value
  }

  ghost predicate TargetIs(service: Service, value: string) {
    var key := "service.beta.kubernetes.io/aws-load-balancer-nlb-target-type";
    key in service.annotations && service.annotations[key] == value
  }

  ghost predicate HasNoType(service: Service) {
    "service.beta.kubernetes.io/aws-load-balancer-type" !in service.annotations
  }

  ghost predicate HasNoTarget(service: Service) {
    "service.beta.kubernetes.io/aws-load-balancer-nlb-target-type" !in service.annotations
  }

  /** The service's load balancer routes to instances: the in-tree controllers' always do, that of the AWS controller
      unless it is told otherwise. */
  ghost predicate InstanceTargeted(service: Service) {
    || HasNoType(service)
    || TypeIs(service, "nlb")
    || (TypeIs(service, "external") && (HasNoTarget(service) || TargetIs(service, "instance")))
  }

  /** It routes to pods. */
  ghost predicate IPTargeted(service: Service) {
    TypeIs(service, "external") && (TargetIs(service, "ip") || TargetIs(service, "nlb-ip"))
  }

  ghost predicate Describable(service: Service) {
    && service.ingress != [] && '-' in Split(service.ingress[0], '.')[0]
    && (InstanceTargeted(service) || IPTargeted(service))
  }

  ghost predicate IsDescribed(service: Service, lb: AwsLoadBalancer) {
    && Describable(service)
    && NameFromHostname(service.ingress[0]) == Some(lb.name)
    && lb.kind == (if HasNoType(service) then CLB else NLB)
    && (lb.target.InstanceTarget? <==> InstanceTargeted(service))
    && (lb.target.IPTarget? <==> IPTargeted(service))
  }

  /** What the program makes of a service is what its annotations and its first hostname say. */
  lemma DescribedAsAnnotated(service: Service)
    ensures Describe(service).Some? <==> Describable(service)
    ensures Describe(service).Some? ==> IsDescribed(service, Describe(service).value) && Known(Describe(service).value)
  {
    if service.ingress != [] {
      NoNameIff(service.ingress[0]);
    }
  }

  method GetAllServices(api: Listing<Service>) returns (services: Option<seq<Service>>)
    requires api.pages != [] && api.served <= |api.pages|
    ensures services.Some? <==> api.Complete()
    ensures services.Some? ==> services.value == Flatten(api.pages)
  {
    var found: seq<Service> := [];
    var token: Option<nat> := None;
    ghost var read := 0;
    while true
      invariant read < |api.pages| && read <= api.served && Listing<Service>.Position(token) == read
      invariant found == Flatten(api.pages[..read])
      decreases |api.pages| - read
    {
      var page := api.Fetch(token);
      if page.None? {
        return None;
      }
      found := found + page.value.items;
      FlattenAppend(api.pages[..read], page.value.items);
      assert api.pages[..read] + [page.value.items] == api.pages[..read + 1];
      if page.value.next.None? {
        assert api.pages[..read + 1] == api.pages;
        return Some(found);
      }
      token := page.value.next;
      read := read + 1;
    }
  }

  function LoadBalancerServices(services: seq<Service>): seq<Service> {
    Keep(services, (service: Service) => service.kind.LoadBalancer?)
  }

  /** These are the services at exactly the positions where the type is LoadBalancer, in their order. */
  lemma LoadBalancerServicesAt(services: seq<Service>) returns (at: seq<nat>)
    ensures Picks(services, at, LoadBalancerServices(services))
    ensures forall k: nat :: k < |services| ==> (services[k].kind.LoadBalancer? <==> k in at)
  {
    at := KeptAt(services, (service: Service) => service.kind.LoadBalancer?);
  }

  method FilterLoadBalancerServices(services: seq<Service>) returns (out: seq<Service>)
    ensures out == LoadBalancerServices(services)
  {
    out := [];
    for i := 0 to |services|
      invariant out == LoadBalancerServices(services[..i])
    {
      assert services[..i + 1][..i] == services[..i];
      if services[i].kind.LoadBalancer? {
        out := out + [services[i]];
      }
    }
    assert services[..|services|] == services;
  }

  ghost predicate AllDescribed(services: seq<Service>, lbs: seq<AwsLoadBalancer>) {
    |lbs| == |services| && forall i :: 0 <= i < |services| ==> IsDescribed(services[i], lbs[i])
  }

  ghost predicate AllDescribable(services: seq<Service>) {
    forall i :: 0 <= i < |services| ==> Describable(services[i])
  }

  /** GetAWSLoadBalancers: one description for every load balancer service on any page, in order, unless a page cannot
      be had or one of the services cannot be described. */
  method GetAwsLoadBalancers(api: Listing<Service>) returns (lbs: Option<seq<AwsLoadBalancer>>)
    requires api.pages != [] && api.served <= |api.pages|
    ensures lbs.Some? <==> api.Complete() && AllDescribable(LoadBalancerServices(Flatten(api.pages)))
    ensures lbs.Some? ==> AllDescribed(LoadBalancerServices(Flatten(api.pages)), lbs.value)
    ensures lbs.Some? ==> forall i :: 0 <= i < |lbs.value| ==> Known(lbs.value[i])
  {
    hide IsDescribed, Describable;
    var all := GetAllServices(api);
    if all.None? {
      return None;
    }
    var services := FilterLoadBalancerServices(all.value);
    var found: seq<AwsLoadBalancer> := [];
    for i := 0 to |services|
      invariant |found| == i && forall k :: 0 <= k < i ==> IsDescribed(services[k], found[k]) && Known(found[k])
      invariant forall k :: 0 <= k < i ==> Describable(services[k])
    {
      DescribedAsAnnotated(services[i]);
      if services[i].ingress == [] {
        return None;
      }
      var name := NameFromHostname(services[i].ingress[0]);
      if name.None? {
        return None;
      }
      var (kind, target, ok) := TypeFromService(services[i]);
      if !ok {
        return None;
      }
      found := found + [AwsLoadBalancer(name.value, kind, target)];
    }
    lbs := Some(found);
  }

  // ---- the wait ----

  datatype WaitError = Impossible(code: string) | NotRegistered(name: string)

  /** One wait for any of some instances to be registered with a load balancer. */
  datatype Wait = Wait(lb: AwsLoadBalancer, ids: seq<string>, ok: bool)

  /** The AWS calls of the wait, recorded with their outcome. */
  class Elb {
    ghost var waits: seq<Wait>

    constructor ()
      ensures waits == []
    {
      waits := [];
    }

    /** waitForAnyInstancesRegisteredToCLB and waitForAnyInstancesRegisteredToALBOrNLB. */
    method Await(lb: AwsLoadBalancer, ids: seq<string>) returns (ok: bool)
      modifies this
      ensures waits == old(waits) + [Wait(lb, ids, ok)]
    {
      ok := *;
      waits := waits + [Wait(lb, ids, ok)];
    }
  }

  /** The load balancers that route to instances, which are the ones to wait for. */
  predicate RoutesToInstances(lb: AwsLoadBalancer) {
    lb.target.InstanceTarget? && !lb.kind.UnknownELB?
  }

  function ToAwait(lbs: seq<AwsLoadBalancer>): seq<AwsLoadBalancer> {
    Keep(lbs, RoutesToInstances)
  }

  ghost predicate Awaited(waits: seq<Wait>, lbs: seq<AwsLoadBalancer>, ids: seq<string>) {
    |waits| == |lbs| && forall i :: 0 <= i < |lbs| ==> waits[i].lb == lbs[i] && waits[i].ids == ids
  }

  function Failed(waits: seq<Wait>): seq<Wait> {
    Keep(waits, (wait: Wait) => !wait.ok)
  }

  /** The waits that failed are those at exactly the positions with that outcome, in order. */
  lemma FailedAt(waits: seq<Wait>) returns (at: seq<nat>)
    ensures Picks(waits, at, Failed(waits))
    ensures forall k: nat :: k < |waits| ==> (!waits[k].ok <==> k in at)
  {
    at := KeptAt(waits, (wait: Wait) => !wait.ok);
  }

  /** One error for each failed wait, in order. */
  ghost predicate Reports(errors: seq<WaitError>, waits: seq<Wait>) {
    && |errors| == |Failed(waits)|
    && forall i :: 0 <= i < |errors| ==> errors[i] == NotRegistered(Failed(waits)[i].lb.name)
  }

  ghost predicate AllKnown(lbs: seq<AwsLoadBalancer>) {
    forall i :: 0 <= i < |lbs| ==> Known(lbs[i])
  }

  /** waitForAnyInstancesRegisteredToELB: all are awaited even after failures. The branches for unknown kinds are taken
      only for unknown kinds; an unknown target starts the list of errors anew. */
  method WaitForAnyInstancesRegistered(elb: Elb, lbs: seq<AwsLoadBalancer>, ids: seq<string>)
    returns (errors: seq<WaitError>, ghost waits: seq<Wait>)
    modifies elb
    ensures elb.waits == old(elb.waits) + waits && Awaited(waits, ToAwait(lbs), ids)
    ensures errors == [] <==>
      Failed(waits) == [] && forall i :: 0 <= i < |lbs| ==> lbs[i].target.IPTarget? || Known(lbs[i])
    ensures AllKnown(lbs) ==> Reports(errors, waits)
  {
    errors, waits := [], [];
    for i := 0 to |lbs|
      invariant elb.waits == old(elb.waits) + waits && Awaited(waits, ToAwait(lbs[..i]), ids)
      invariant errors == [] <==>
        Failed(waits) == [] && forall k :: 0 <= k < i ==> lbs[k].target.IPTarget? || Known(lbs[k])
      invariant AllKnown(lbs) ==> Reports(errors, waits)
    {
      var lb := lbs[i];
      assert lbs[..i + 1][..i] == lbs[..i];
      if lb.target.IPTarget? {
        continue;
      } else if lb.target.UnknownELBTarget? {
        errors := [Impossible("UNKNOWN_ELB_TARGET_TYPE_IN_WAIT")];
        continue;
      }
      if lb.kind.UnknownELB? {
        errors := errors + [Impossible("UNKNOWN_ELB_TYPE_IN_WAIT")];
        continue;
      }
      var ok := elb.Await(lb, ids);
      OneMoreWait(waits, Wait(lb, ids, ok));
      waits := waits + [Wait(lb, ids, ok)];
      if !ok {
        errors := errors + [NotRegistered(lb.name)];
      }
    }
    assert lbs[..|lbs|] == lbs;
  }

  lemma OneMoreWait(waits: seq<Wait>, wait: Wait)
    ensures Failed(waits + [wait]) == Failed(waits) + (if wait.ok then [] else [wait])
  {
    assert (waits + [wait])[..|waits|] == waits;
  }

  /** The waits are those for the services at exactly the positions where the load balancer routes to instances, each
      once and in order, for these instances. */
  ghost predicate WaitsFor(waits: seq<Wait>, services: seq<Service>, ids: seq<string>, at: seq<nat>) {
    && |at| == |waits|
    && (forall i :: 0 <= i < |at| ==>
          at[i] < |services| && IsDescribed(services[at[i]], waits[i].lb) && waits[i].ids == ids)
    && (forall i, j :: 0 <= i < j < |at| ==> at[i] < at[j])
    && (forall k: nat :: k < |services| ==> (InstanceTargeted(services[k]) <==> k in at))
  }

  lemma WaitsAt(waits: seq<Wait>, services: seq<Service>, lbs: seq<AwsLoadBalancer>, ids: seq<string>)
    returns (at: seq<nat>)
    requires AllDescribed(services, lbs) && Awaited(waits, ToAwait(lbs), ids)
    ensures WaitsFor(waits, services, ids, at)
  {
    at := KeptAt(lbs, RoutesToInstances);
    forall k: nat | k < |services| ensures InstanceTargeted(services[k]) <==> k in at {
      assert IsDescribed(services[k], lbs[k]);
    }
  }

  /** From the services to the verdict: the waits are exactly those for the services that route to instances, and there
      is one error for each that failed; the impossible branches are not reached. */
  method VerifyLoadBalancers(api: Listing<Service>, elb: Elb, ids: seq<string>)
    returns (listed: bool, errors: seq<WaitError>, ghost waits: seq<Wait>, ghost at: seq<nat>)
    requires api.pages != [] && api.served <= |api.pages|
    modifies elb
    ensures elb.waits == old(elb.waits) + waits
    ensures listed <==> api.Complete() && AllDescribable(LoadBalancerServices(Flatten(api.pages)))
    ensures listed ==> WaitsFor(waits, LoadBalancerServices(Flatten(api.pages)), ids, at) && Reports(errors, waits)
    ensures !listed ==> waits == []
  {
    waits, at := [], [];
    var lbs := GetAwsLoadBalancers(api);
    if lbs.None? {
      return false, [], waits, at;
    }
    errors, waits := WaitForAnyInstancesRegistered(elb, lbs.value, ids);
    at := WaitsAt(waits, LoadBalancerServices(Flatten(api.pages)), lbs.value, ids);
    listed := true;
  }
}
