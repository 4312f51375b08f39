/** The cluster snapshot a compliance run reads, and the expectations a control raises.

    A control never sees the API server directly: every `k8sobjects`/`k8sobject` query of a
    control is modelled by the fields of one consistent snapshot below, and every
    `describe`/`its`/`skip` block by one `Expectation` appended to the control's result. */
module Kube {

  datatype Option<+T> = None | Some(value: T)

  /** The outcome InSpec records for one expectation. */
  datatype Outcome = Pass | Fail | Skip

  /** One registered expectation: the text of its `describe` and what it evaluated to. */
  datatype Expectation = Expectation(description: string, outcome: Outcome)

  /** `hostPort` is absent on most container ports. */
  datatype Port = Port(hostPort: Option<int>)

  /** `ports` is absent (nil) on containers that declare no port. */
  datatype Container = Container(name: string, ports: Option<seq<Port>>)

  /** A pod as the controls see it: its containers, the image references the pod resource
      reports (`container_images`), and the rendered text of its spec (`spec.to_s`). */
  datatype Pod = Pod(
    name: string,
    namespace: string,
    containers: seq<Container>,
    images: seq<string>,
    specText: string)

  datatype Service = Service(name: string, namespace: string)

  /** One entry of a pod security policy's `fsGroup` or `supplementalGroups` ranges. */
  datatype Range = Range(min: Option<int>)

  /** A pod security policy; a missing section or list is `None`. */
  datatype Policy = Policy(
    name: string,
    runAsUserRule: Option<string>,
    fsGroupRanges: Option<seq<Range>>,
    supplementalRanges: Option<seq<Range>>)

  /** Pass exactly when the condition holds. */
  function Verdict(ok: bool): (o: Outcome)
    ensures o != Skip
    ensures o == Pass <==> ok
  {
    if ok then Pass else Fail
  }
}
