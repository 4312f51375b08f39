/** Control V-242415: secrets must not be passed to pods as environment variables.

    Every pod, in every namespace, raises one expectation that the rendering of its spec does
    not mention `secretKeyRef`; a cluster without pods raises a single Skip instead. */
module SecretRefs {
  import opened Kube
  import opened Text

  const SecretKeyRef := "secretKeyRef"
  const NoPodsMessage := "No pods found in the cluster"

  /** What the per-pod expectation is reported as: the pod resource and the inspected path. */
  function SpecDescription(pod: Pod): string
  {
    "Pod " + pod.name + " in namespace " + pod.namespace + " k8sobject.spec.to_s"
  }

  /** The control body over one snapshot of the cluster's pods (both of the control's pod
      queries read that same snapshot). */
  method CheckSecretRefs(pods: seq<Pod>) returns (es: seq<Expectation>)
    ensures pods == [] ==> es == [Expectation(NoPodsMessage, Skip)]
    ensures pods != [] ==> |es| == |pods|
    ensures pods != [] ==> forall i :: 0 <= i < |pods| ==>
      es[i] == Expectation(SpecDescription(pods[i]), Verdict(!IsSubstring(SecretKeyRef, pods[i].specText)))
    ensures (exists e :: e in es && e.outcome == Skip) <==> pods == []
  {
    es := [];
    var i := 0;
    while i < |pods|
      invariant 0 <= i <= |pods|
      invariant |es| == i
      invariant forall k :: 0 <= k < i ==>
        es[k] == Expectation(SpecDescription(pods[k]), Verdict(!IsSubstring(SecretKeyRef, pods[k].specText)))
    {
      var pod := pods[i];
      es := es + [Expectation(SpecDescription(pod), Verdict(!IsSubstring(SecretKeyRef, pod.specText)))];
      i := i + 1;
    }
    if pods == [] {
      es := es + [Expectation(NoPodsMessage, Skip)];
    }
  }

  /** A spec that mentions a secret reference anywhere fails, whatever surrounds it. */
  lemma SecretReferenceFails(pod: Pod, before: string, after: string)
    requires pod.specText == before + SecretKeyRef + after
    ensures Verdict(!IsSubstring(SecretKeyRef, pod.specText)) == Fail
  {
    SubstringOfConcat(before, SecretKeyRef, after);
  }

  /** A spec too short to hold the word passes. */
  lemma ShortSpecPasses(pod: Pod)
    requires |pod.specText| < |SecretKeyRef|
    ensures Verdict(!IsSubstring(SecretKeyRef, pod.specText)) == Pass
  {
    SubstringAt(SecretKeyRef, pod.specText);
  }
}
