/** Control V-242383: user-managed resources must not live in the default, kube-public or
    kube-node-lease namespaces.

    For each of the three namespaces, in that order, one expectation that every service there
    is an approved one; then, again for each of the three, one expectation that it holds no pods. */
module DefaultNamespaces {
  import opened Kube

  const ApprovedServices: seq<string> := ["kubernetes"]
  const Namespaces: seq<string> := ["default", "kube-public", "kube-node-lease"]

  /** Names of the services listed in one namespace, in listing order. */
  function ServiceNames(services: seq<Service>, ns: string): (names: seq<string>)
    ensures forall n :: n in names <==> exists s :: s in services && s.namespace == ns && s.name == n
    ensures |names| <= |services|
  {
    if services == [] then []
    else
      var rest := ServiceNames(services[..|services| - 1], ns);
      var last := services[|services| - 1];
      assert services == services[..|services| - 1] + [last];
      if last.namespace == ns then rest + [last.name] else rest
  }

  /** The pods listed in one namespace, in listing order. */
  function PodsIn(pods: seq<Pod>, ns: string): (r: seq<Pod>)
    ensures forall p :: p in r <==> p in pods && p.namespace == ns
    ensures |r| <= |pods|
  {
    if pods == [] then []
    else
      var rest := PodsIn(pods[..|pods| - 1], ns);
      var last := pods[|pods| - 1];
      assert pods == pods[..|pods| - 1] + [last];
      if last.namespace == ns then rest + [last] else rest
  }

  /** InSpec's `be_in`, taken as: every listed name is one of the approved ones, that is,
      `kubernetes`. A namespace without services passes. */
  predicate AllApproved(names: seq<string>)
    ensures AllApproved(names) <==> forall i :: 0 <= i < |names| ==> names[i] == "kubernetes"
    ensures names == [] ==> AllApproved(names)
  {
    forall i :: 0 <= i < |names| ==> names[i] in ApprovedServices
  }

  function ServicesDescription(ns: string): string
  {
    "Services in namespace " + ns + " name"
  }

  function PodsDescription(ns: string): string
  {
    "Pods in namespace: " + ns
  }

  /** The control body over one snapshot of the cluster's pods and services. */
  method CheckDefaultNamespaces(pods: seq<Pod>, services: seq<Service>) returns (es: seq<Expectation>)
    ensures |es| == 2 * |Namespaces|
    ensures forall i :: 0 <= i < |Namespaces| ==>
      es[i] == Expectation(ServicesDescription(Namespaces[i]), Verdict(AllApproved(ServiceNames(services, Namespaces[i]))))
    ensures forall i :: 0 <= i < |Namespaces| ==>
      es[|Namespaces| + i] == Expectation(PodsDescription(Namespaces[i]), Verdict(PodsIn(pods, Namespaces[i]) == []))
  {
    es := [];
    var i := 0;
    while i < |Namespaces|
      invariant 0 <= i <= |Namespaces|
      invariant |es| == i
      invariant forall k :: 0 <= k < i ==>
        es[k] == Expectation(ServicesDescription(Namespaces[k]), Verdict(AllApproved(ServiceNames(services, Namespaces[k]))))
    {
      var ns := Namespaces[i];
      es := es + [Expectation(ServicesDescription(ns), Verdict(AllApproved(ServiceNames(services, ns))))];
      i := i + 1;
    }
    var j := 0;
    while j < |Namespaces|
      invariant 0 <= j <= |Namespaces|
      invariant |es| == |Namespaces| + j
      invariant forall k :: 0 <= k < |Namespaces| ==>
        es[k] == Expectation(ServicesDescription(Namespaces[k]), Verdict(AllApproved(ServiceNames(services, Namespaces[k]))))
      invariant forall k :: 0 <= k < j ==>
        es[|Namespaces| + k] == Expectation(PodsDescription(Namespaces[k]), Verdict(PodsIn(pods, Namespaces[k]) == []))
    {
      var ns := Namespaces[j];
      es := es + [Expectation(PodsDescription(ns), Verdict(PodsIn(pods, ns) == []))];
      j := j + 1;
    }
  }

  /** A namespace holding only the `kubernetes` service and no pods passes both of its checks. */
  lemma CleanNamespacePasses(pods: seq<Pod>, services: seq<Service>, ns: string)
    requires forall s :: s in services && s.namespace == ns ==> s.name == "kubernetes"
    requires forall p :: p in pods ==> p.namespace != ns
    ensures Verdict(AllApproved(ServiceNames(services, ns))) == Pass
    ensures Verdict(PodsIn(pods, ns) == []) == Pass
  {
  }

  /** Any other service in the namespace fails its service check. */
  lemma UnapprovedServiceFails(services: seq<Service>, s: Service)
    requires s in services && s.namespace in Namespaces && s.name != "kubernetes"
    ensures Verdict(AllApproved(ServiceNames(services, s.namespace))) == Fail
  {
    assert s.name in ServiceNames(services, s.namespace);
  }

  lemma {:induction false} ServiceNamesAppend(first: seq<Service>, second: seq<Service>, ns: string)
    ensures ServiceNames(first + second, ns) == ServiceNames(first, ns) + ServiceNames(second, ns)
    decreases |second|
  {
    if second == [] {
      assert first + second == first;
    } else {
      var shorter := second[..|second| - 1];
      assert (first + second)[..|first + second| - 1] == first + shorter;
      ServiceNamesAppend(first, shorter, ns);
    }
  }

  lemma {:induction false} PodsInAppend(first: seq<Pod>, second: seq<Pod>, ns: string)
    ensures PodsIn(first + second, ns) == PodsIn(first, ns) + PodsIn(second, ns)
    decreases |second|
  {
    if second == [] {
      assert first + second == first;
    } else {
      var shorter := second[..|second| - 1];
      assert (first + second)[..|first + second| - 1] == first + shorter;
      PodsInAppend(first, shorter, ns);
    }
  }

  /** Resources outside the three namespaces, wherever they are listed, do not change any of
      the six verdicts: dropping them leaves every checked listing as it was. */
  lemma OtherNamespacesIgnored(before: seq<Pod>, other: seq<Pod>, after: seq<Pod>,
                               servicesBefore: seq<Service>, otherServices: seq<Service>, servicesAfter: seq<Service>,
                               ns: string)
    requires ns in Namespaces
    requires forall p :: p in other ==> p.namespace !in Namespaces
    requires forall s :: s in otherServices ==> s.namespace !in Namespaces
    ensures ServiceNames(servicesBefore + otherServices + servicesAfter, ns) == ServiceNames(servicesBefore + servicesAfter, ns)
    ensures PodsIn(before + other + after, ns) == PodsIn(before + after, ns)
  {
    OtherServicesIgnored(servicesBefore, otherServices, servicesAfter, ns);
    OtherPodsIgnored(before, other, after, ns);
  }

  lemma OtherServicesIgnored(before: seq<Service>, other: seq<Service>, after: seq<Service>, ns: string)
    requires forall s :: s in other ==> s.namespace != ns
    ensures ServiceNames(before + other + after, ns) == ServiceNames(before + after, ns)
  {
    ServiceNamesAppend(before + other, after, ns);
    ServiceNamesAppend(before, other, ns);
    ServiceNamesAppend(before, after, ns);
    NoServicesListed(other, ns);
    assert ServiceNames(before, ns) + [] == ServiceNames(before, ns);
  }

  lemma OtherPodsIgnored(before: seq<Pod>, other: seq<Pod>, after: seq<Pod>, ns: string)
    requires forall p :: p in other ==> p.namespace != ns
    ensures PodsIn(before + other + after, ns) == PodsIn(before + after, ns)
  {
    PodsInAppend(before + other, after, ns);
    PodsInAppend(before, other, ns);
    PodsInAppend(before, after, ns);
    NoPodsListed(other, ns);
    assert PodsIn(before, ns) + [] == PodsIn(before, ns);
  }

  lemma {:induction false} NoServicesListed(services: seq<Service>, ns: string)
    requires forall s :: s in services ==> s.namespace != ns
    ensures ServiceNames(services, ns) == []
  {
    if services != [] {
      var init := services[..|services| - 1];
      assert services == init + [services[|services| - 1]];
      NoServicesListed(init, ns);
    }
  }

  lemma {:induction false} NoPodsListed(pods: seq<Pod>, ns: string)
    requires forall p :: p in pods ==> p.namespace != ns
    ensures PodsIn(pods, ns) == []
  {
    if pods != [] {
      var init := pods[..|pods| - 1];
      assert pods == init + [pods[|pods| - 1]];
      NoPodsListed(init, ns);
    }
  }
}
