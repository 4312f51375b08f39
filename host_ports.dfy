/** Control V-242414: pods in user namespaces must not map privileged host ports.

    Pods outside the system namespaces are walked pod by pod, container by container and port
    by port; every port that declares a `hostPort` is tallied and raises one expectation that
    the port is at least 1024. When no host port was found at all, one further expectation
    records that the tally is empty. */
module HostPorts {
  import opened Kube
  import opened Seqs
  import opened Text

  const MinUserPort := 1024
  const NoHostPortsDescription := "Host port mapping found in pods in the user namespaces"

  /** The `where` filter of the control: the pod is in none of the system namespaces. */
  predicate InUserNamespace(pod: Pod)
  {
    pod.namespace != "kube-system" && pod.namespace != "kube-node-lease" && pod.namespace != "kube-public"
  }

  /** The listed pods that pass the filter, in listing order. */
  function UserPods(pods: seq<Pod>): (r: seq<Pod>)
    ensures forall p :: p in r <==> p in pods && InUserNamespace(p)
    ensures |r| <= |pods|
  {
    if pods == [] then []
    else
      var last := pods[|pods| - 1];
      assert pods == pods[..|pods| - 1] + [last];
      UserPods(pods[..|pods| - 1]) + if InUserNamespace(last) then [last] else []
  }

  /** One host port found: where it was declared, and its value. */
  datatype HostPortUse = HostPortUse(pod: string, namespace: string, container: string, hostPort: int)

  /** The host ports declared by a run of one container's ports; ports without one are skipped. */
  function PortUses(pod: Pod, c: Container, ports: seq<Port>): seq<HostPortUse>
  {
    if ports == [] then []
    else
      var last := ports[|ports| - 1];
      PortUses(pod, c, ports[..|ports| - 1])
        + match last.hostPort
          case None => []
          case Some(hp) => [HostPortUse(pod.name, pod.namespace, c.name, hp)]
  }

  /** The host ports of one container: none when its port list is nil. */
  function ContainerUses(pod: Pod, c: Container): seq<HostPortUse>
  {
    match c.ports
    case None => []
    case Some(ports) => PortUses(pod, c, ports)
  }

  /** The host ports of a run of one pod's containers, container after container. */
  function ContainersUses(pod: Pod, cs: seq<Container>): seq<HostPortUse>
  {
    if cs == [] then []
    else
      var last := cs[|cs| - 1];
      ContainersUses(pod, cs[..|cs| - 1]) + ContainerUses(pod, last)
  }

  /** The host ports of a run of pods, pod after pod. */
  function PodsUses(pods: seq<Pod>): seq<HostPortUse>
  {
    if pods == [] then []
    else
      var last := pods[|pods| - 1];
      PodsUses(pods[..|pods| - 1]) + ContainersUses(last, last.containers)
  }

  /** Every host port the control finds, in pod, container, port order. Each one belongs to
      a listed pod in a user namespace. */
  function HostPortUses(pods: seq<Pod>): (uses: seq<HostPortUse>)
    ensures forall u :: u in uses ==>
      exists pod :: pod in pods && InUserNamespace(pod) && u.pod == pod.name && u.namespace == pod.namespace
  {
    PodsUsesMembers(UserPods(pods));
    PodsUses(UserPods(pods))
  }

  function PortDescription(u: HostPortUse): string
  {
    "Pod: " + u.pod + " Namespace: " + u.namespace + " ContainerName: " + u.container
      + " hostPort: " + IntToString(u.hostPort)
  }

  /** The expectation raised for one host port: `cmp >= 1024`. */
  function PortExpectation(u: HostPortUse): (e: Expectation)
    ensures e.description == PortDescription(u)
    ensures e.outcome != Skip
    ensures e.outcome == Pass <==> u.hostPort >= MinUserPort
  {
    Expectation(PortDescription(u), if u.hostPort >= MinUserPort then Pass else Fail)
  }

  /** One expectation per host port found, in the same order. */
  function PortExpectations(uses: seq<HostPortUse>): (es: seq<Expectation>)
    ensures |es| == |uses|
    ensures forall i :: 0 <= i < |uses| ==> es[i] == PortExpectation(uses[i])
  {
    MapSeqShape(PortExpectation, uses);
    MapSeq(PortExpectation, uses)
  }

  function PortValue(u: HostPortUse): int
  {
    u.hostPort
  }

  /** `userspace_ports_found`: the values of the host ports found, in the same order. */
  function Tally(uses: seq<HostPortUse>): (found: seq<int>)
    ensures |found| == |uses|
    ensures forall i :: 0 <= i < |uses| ==> found[i] == uses[i].hostPort
  {
    MapSeqShape(PortValue, uses);
    MapSeq(PortValue, uses)
  }

  lemma PortExpectationsAppend(first: seq<HostPortUse>, second: seq<HostPortUse>)
    ensures PortExpectations(first + second) == PortExpectations(first) + PortExpectations(second)
    ensures Tally(first + second) == Tally(first) + Tally(second)
  {
    MapSeqAppend(PortExpectation, first, second);
    MapSeqAppend(PortValue, first, second);
  }

  /** A host port found after `uses` adds its expectation and its value at the end. */
  lemma PortExpectationsSnoc(uses: seq<HostPortUse>, u: HostPortUse)
    ensures PortExpectations(uses + [u]) == PortExpectations(uses) + [PortExpectation(u)]
    ensures Tally(uses + [u]) == Tally(uses) + [u.hostPort]
  {
    assert (uses + [u])[..|uses|] == uses;
    assert MapSeq(PortExpectation, uses + [u]) == MapSeq(PortExpectation, uses) + [PortExpectation(u)];
    assert MapSeq(PortValue, uses + [u]) == MapSeq(PortValue, uses) + [PortValue(u)];
  }

  /** The uses of the first k + 1 ports are those of the first k, then port k's, if any. */
  lemma PortUsesPrefix(pod: Pod, c: Container, ports: seq<Port>, k: nat)
    requires k < |ports|
    ensures PortUses(pod, c, ports[..k + 1]) == PortUses(pod, c, ports[..k])
      + (if ports[k].hostPort.Some? then [HostPortUse(pod.name, pod.namespace, c.name, ports[k].hostPort.value)] else [])
  {
    assert ports[..k + 1][..k] == ports[..k];
  }

  /** The innermost walk: the ports of one container. */
  method ScanPorts(pod: Pod, container: Container, ports: seq<Port>) returns (es: seq<Expectation>, found: seq<int>)
    ensures es == PortExpectations(PortUses(pod, container, ports))
    ensures found == Tally(PortUses(pod, container, ports))
  {
    es, found := [], [];
    ghost var uses: seq<HostPortUse> := [];
    var k := 0;
    while k < |ports|
      invariant 0 <= k <= |ports|
      invariant uses == PortUses(pod, container, ports[..k])
      invariant es == PortExpectations(uses) && found == Tally(uses)
    {
      var port := ports[k];
      PortUsesPrefix(pod, container, ports, k);
      if port.hostPort.Some? {
        var u := HostPortUse(pod.name, pod.namespace, container.name, port.hostPort.value);
        found := found + [port.hostPort.value];
        es := es + [PortExpectation(u)];
        PortExpectationsSnoc(uses, u);
        uses := uses + [u];
      } else {
        assert uses + [] == uses;
      }
      k := k + 1;
    }
    assert ports[..k] == ports;
  }

  /** The middle walk: the containers of one pod, skipping those whose ports are nil or empty. */
  method ScanContainers(pod: Pod) returns (es: seq<Expectation>, found: seq<int>)
    ensures es == PortExpectations(ContainersUses(pod, pod.containers))
    ensures found == Tally(ContainersUses(pod, pod.containers))
  {
    es, found := [], [];
    ghost var uses: seq<HostPortUse> := [];
    var j := 0;
    while j < |pod.containers|
      invariant 0 <= j <= |pod.containers|
      invariant uses == ContainersUses(pod, pod.containers[..j])
      invariant es == PortExpectations(uses) && found == Tally(uses)
    {
      var container := pod.containers[j];
      assert pod.containers[..j + 1][..j] == pod.containers[..j];
      assert ContainersUses(pod, pod.containers[..j + 1]) == uses + ContainerUses(pod, container);
      if container.ports.Some? && |container.ports.value| > 0 {
        var portEs, portFound := ScanPorts(pod, container, container.ports.value);
        es, found := es + portEs, found + portFound;
        PortExpectationsAppend(uses, ContainerUses(pod, container));
      } else {
        assert ContainerUses(pod, container) == [];
        assert uses + [] == uses;
      }
      uses := uses + ContainerUses(pod, container);
      j := j + 1;
    }
    assert pod.containers[..j] == pod.containers;
  }

  /** The control body over one snapshot of the cluster's pods. It returns the expectations
      raised and the final tally of host ports. */
  method CheckHostPorts(pods: seq<Pod>) returns (es: seq<Expectation>, found: seq<int>)
    ensures found == Tally(HostPortUses(pods))
    ensures es == PortExpectations(HostPortUses(pods))
      + (if found == [] then [Expectation(NoHostPortsDescription, Pass)] else [])
    ensures |es| == |found| + (if found == [] then 1 else 0)
    ensures forall i :: 0 <= i < |found| ==> (es[i].outcome == Pass <==> found[i] >= MinUserPort)
  {
    found := [];
    es := [];
    var userPods := UserPods(pods);
    ghost var uses: seq<HostPortUse> := [];
    var i := 0;
    while i < |userPods|
      invariant 0 <= i <= |userPods|
      invariant uses == PodsUses(userPods[..i])
      invariant es == PortExpectations(uses) && found == Tally(uses)
    {
      var pod := userPods[i];
      assert userPods[..i + 1][..i] == userPods[..i];
      assert PodsUses(userPods[..i + 1]) == uses + ContainersUses(pod, pod.containers);
      var podEs, podFound := ScanContainers(pod);
      es, found := es + podEs, found + podFound;
      PortExpectationsAppend(uses, ContainersUses(pod, pod.containers));
      uses := uses + ContainersUses(pod, pod.containers);
      i := i + 1;
    }
    assert userPods[..i] == userPods;
    if found == [] {
      es := es + [Expectation(NoHostPortsDescription, Verdict(found == []))];
    }
  }

  /** A port of a container yields a host-port use exactly when it declares a host port. */
  lemma {:induction false} PortUsesMembers(pod: Pod, c: Container, ports: seq<Port>)
    ensures forall u :: u in PortUses(pod, c, ports) <==>
      exists port :: port in ports && port.hostPort.Some? && u == HostPortUse(pod.name, pod.namespace, c.name, port.hostPort.value)
  {
    if ports != [] {
      var init := ports[..|ports| - 1];
      PortUsesMembers(pod, c, init);
      assert ports == init + [ports[|ports| - 1]];
    }
  }

  /** Containers whose ports are nil, and ports without a host port, contribute nothing; every
      other port contributes its host port. */
  lemma {:induction false} ContainersUsesMembers(pod: Pod, cs: seq<Container>)
    ensures forall u :: u in ContainersUses(pod, cs) <==>
      exists c, port :: c in cs && c.ports.Some? && port in c.ports.value && port.hostPort.Some?
        && u == HostPortUse(pod.name, pod.namespace, c.name, port.hostPort.value)
  {
    if cs != [] {
      var init := cs[..|cs| - 1];
      var last := cs[|cs| - 1];
      ContainersUsesMembers(pod, init);
      assert cs == init + [last];
      if last.ports.Some? {
        PortUsesMembers(pod, last, last.ports.value);
      }
    }
  }

  /** Exactly the host ports declared by containers of pods in user namespaces are found. */
  lemma {:induction false} HostPortUsesMembers(pods: seq<Pod>)
    ensures forall u :: u in HostPortUses(pods) <==>
      exists pod, c, port :: pod in pods && InUserNamespace(pod)
        && c in pod.containers && c.ports.Some? && port in c.ports.value && port.hostPort.Some?
        && u == HostPortUse(pod.name, pod.namespace, c.name, port.hostPort.value)
  {
    PodsUsesMembers(UserPods(pods));
  }

  lemma {:induction false} PodsUsesMembers(pods: seq<Pod>)
    ensures forall u :: u in PodsUses(pods) <==>
      exists pod, c, port :: pod in pods && c in pod.containers && c.ports.Some? && port in c.ports.value
        && port.hostPort.Some? && u == HostPortUse(pod.name, pod.namespace, c.name, port.hostPort.value)
  {
    if pods != [] {
      var init := pods[..|pods| - 1];
      var last := pods[|pods| - 1];
      PodsUsesMembers(init);
      ContainersUsesMembers(last, last.containers);
      assert pods == init + [last];
    }
  }

  lemma {:induction false} UserPodsAppend(first: seq<Pod>, second: seq<Pod>)
    ensures UserPods(first + second) == UserPods(first) + UserPods(second)
    decreases |second|
  {
    if second == [] {
      assert first + second == first;
    } else {
      var shorter := second[..|second| - 1];
      assert (first + second)[..|first + second| - 1] == first + shorter;
      UserPodsAppend(first, shorter);
    }
  }

  /** A pod in a system namespace, wherever it is listed, changes neither the host ports found
      nor, therefore, any expectation. */
  lemma SystemPodIgnored(before: seq<Pod>, pod: Pod, after: seq<Pod>)
    requires !InUserNamespace(pod)
    ensures HostPortUses(before + [pod] + after) == HostPortUses(before + after)
  {
    assert [pod][..0] == [];
    assert UserPods([pod]) == [];
    UserPodsAppend(before, [pod]);
    assert UserPods(before + [pod]) == UserPods(before);
    UserPodsAppend(before + [pod], after);
    UserPodsAppend(before, after);
  }

  /** The description of a host port's expectation names its pod, namespace, container and
      port value. */
  lemma PortDescriptionMentions(u: HostPortUse)
    ensures IsSubstring(u.pod, PortDescription(u))
    ensures IsSubstring(u.namespace, PortDescription(u))
    ensures IsSubstring(u.container, PortDescription(u))
    ensures IsSubstring(IntToString(u.hostPort), PortDescription(u))
  {
    FieldsMentioned("Pod: ", u.pod, " Namespace: ", u.namespace, " ContainerName: ", u.container,
      " hostPort: ", IntToString(u.hostPort));
  }

  /** Each value of a description built as label, value, label, value, ... occurs in it. */
  lemma FieldsMentioned(l1: string, v1: string, l2: string, v2: string, l3: string, v3: string, l4: string, v4: string)
    ensures var d := l1 + v1 + l2 + v2 + l3 + v3 + l4 + v4;
      IsSubstring(v1, d) && IsSubstring(v2, d) && IsSubstring(v3, d) && IsSubstring(v4, d)
  {
    var d := l1 + v1 + l2 + v2 + l3 + v3 + l4 + v4;
    assert d == l1 + v1 + (l2 + v2 + l3 + v3 + l4 + v4);
    SubstringOfConcat(l1, v1, l2 + v2 + l3 + v3 + l4 + v4);
    assert d == l1 + v1 + l2 + v2 + (l3 + v3 + l4 + v4);
    SubstringOfConcat(l1 + v1 + l2, v2, l3 + v3 + l4 + v4);
    assert d == l1 + v1 + l2 + v2 + l3 + v3 + (l4 + v4);
    SubstringOfConcat(l1 + v1 + l2 + v2 + l3, v3, l4 + v4);
    assert d == l1 + v1 + l2 + v2 + l3 + v3 + l4 + v4 + "";
    SubstringOfConcat(l1 + v1 + l2 + v2 + l3 + v3 + l4, v4, "");
  }

  /** A pod in a user namespace whose container maps host port 80 raises one failing
      expectation, so the tally is not empty and no empty-tally expectation follows. */
  lemma PrivilegedHostPortFails(pod: Pod)
    requires pod == Pod("web", "shop", [Container("nginx", Some([Port(Some(80)), Port(None)]))], [], "")
    ensures HostPortUses([pod]) == [HostPortUse("web", "shop", "nginx", 80)]
    ensures Tally(HostPortUses([pod])) == [80]
    ensures |PortExpectations(HostPortUses([pod]))| == 1
    ensures PortExpectations(HostPortUses([pod]))[0].outcome == Fail
  {
    assert [pod][..0] == [];
    assert UserPods([pod]) == [pod];
    WebPodPorts(pod);
    assert PodsUses([pod]) == [HostPortUse("web", "shop", "nginx", 80)];
  }

  /** The walk over the example pod of `PrivilegedHostPortFails`. */
  lemma WebPodPorts(pod: Pod)
    requires pod == Pod("web", "shop", [Container("nginx", Some([Port(Some(80)), Port(None)]))], [], "")
    ensures ContainersUses(pod, pod.containers) == [HostPortUse("web", "shop", "nginx", 80)]
  {
    var c := pod.containers[0];
    var use := HostPortUse("web", "shop", "nginx", 80);
    assert pod.containers[..0] == [];
    assert ContainersUses(pod, pod.containers) == ContainerUses(pod, c);
    var ports := c.ports.value;
    assert ports[..1][..0] == [];
    assert PortUses(pod, c, ports[..1]) == [use];
    assert ports[..|ports| - 1] == ports[..1];
  }
}
