/** Control V-242437: the cluster must have a pod security policy, and every policy must make
    containers run as non-root and keep group 0 out of its fsGroup and supplementalGroups ranges.

    One expectation that some policy exists; then, per policy in listing order, one for the
    runAsUser rule and, for each of fsGroup and supplementalGroups, one that the ranges list is
    present followed, only when it is, by two on the list of range minimums. */
module PodSecurityPolicies {
  import opened Kube
  import opened Seqs

  const NonRoot := "MustRunAsNonRoot"
  const ExistsDescription := "Pod Security Policies"

  /** `ranges.map(&:min)`: one entry per range, in order; a range without `min` contributes an
      absent value, not 0. */
  function Mins(ranges: seq<Range>): (mins: seq<Option<int>>)
    ensures |mins| == |ranges|
    ensures forall i :: 0 <= i < |ranges| ==> mins[i] == ranges[i].min
  {
    seq(|ranges|, i requires 0 <= i < |ranges| => ranges[i].min)
  }

  /** No range of the list has minimum 0 (a range without a minimum does not count as 0). */
  predicate NoZeroMinimum(ranges: seq<Range>)
  {
    forall i :: 0 <= i < |ranges| ==> ranges[i].min != Some(0)
  }

  /** `include 0` on the minimums holds exactly when some range has minimum 0. */
  lemma ZeroAmongMins(ranges: seq<Range>)
    ensures Some(0) in Mins(ranges) <==> !NoZeroMinimum(ranges)
  {
    var mins := Mins(ranges);
    forall k | 0 <= k < |ranges| && ranges[k].min == Some(0)
      ensures Some(0) in mins
    {
      assert mins[k] == Some(0);
    }
  }

  function RunAsUserDescription(policy: string): string
  {
    "Pod security policy " + policy + " item.spec.runAsUser.rule"
  }

  function RangesDescription(policy: string, group: string): string
  {
    "Pod security: " + policy + "; Policy " + group + " ranges"
  }

  function MinimumDescription(policy: string, group: string): string
  {
    "Pod security: " + policy + "; Policy " + group + " range minimum"
  }

  /** The checks on one group section: its ranges must be present and, when they are, the
      minimums must be non-empty and must not include 0. */
  function GroupChecks(policy: string, group: string, ranges: Option<seq<Range>>): (es: seq<Expectation>)
    ensures ranges.None? ==> es == [Expectation(RangesDescription(policy, group), Fail)]
    ensures ranges.Some? ==> |es| == 3 && es[0] == Expectation(RangesDescription(policy, group), Pass)
    ensures ranges.Some? ==>
      es[1] == Expectation(MinimumDescription(policy, group), Verdict(|ranges.value| > 0))
    ensures ranges.Some? ==>
      es[2] == Expectation(MinimumDescription(policy, group), Verdict(NoZeroMinimum(ranges.value)))
  {
    var present := Expectation(RangesDescription(policy, group), Verdict(ranges.Some?));
    if ranges.None? then [present]
    else
      var mins := Mins(ranges.value);
      ZeroAmongMins(ranges.value);
      [present,
       Expectation(MinimumDescription(policy, group), Verdict(|mins| != 0)),
       Expectation(MinimumDescription(policy, group), Verdict(Some(0) !in mins))]
  }

  /** The expectations raised for one policy, in the order the control raises them. */
  function PolicyChecks(p: Policy): (es: seq<Expectation>)
    ensures |es| == 3 + (if p.fsGroupRanges.Some? then 2 else 0) + (if p.supplementalRanges.Some? then 2 else 0)
    ensures es[0] == Expectation(RunAsUserDescription(p.name), Verdict(p.runAsUserRule == Some(NonRoot)))
  {
    [Expectation(RunAsUserDescription(p.name), Verdict(p.runAsUserRule == Some(NonRoot)))]
      + GroupChecks(p.name, "fsGroup", p.fsGroupRanges)
      + GroupChecks(p.name, "supplementalGroups", p.supplementalRanges)
  }

  /** The per-policy expectations of a listing, policy after policy. Every policy raises
      some, so there are none exactly when there is no policy. */
  function AllPolicyChecks(policies: seq<Policy>): (es: seq<Expectation>)
    ensures es == [] <==> policies == []
  {
    assert policies != [] ==> |PolicyChecks(policies[|policies| - 1])| >= 3;
    ConcatMap(PolicyChecks, policies)
  }

  /** One group section's block of the control: the presence check, then, unless the ranges
      list is nil, the two checks on its minimums. */
  method RaiseGroupChecks(policy: string, group: string, ranges: Option<seq<Range>>) returns (es: seq<Expectation>)
    ensures es == GroupChecks(policy, group, ranges)
  {
    es := [Expectation(RangesDescription(policy, group), Verdict(ranges.Some?))];
    if ranges.Some? {
      var mins := Mins(ranges.value);
      ZeroAmongMins(ranges.value);
      es := es + [Expectation(MinimumDescription(policy, group), Verdict(|mins| != 0))];
      es := es + [Expectation(MinimumDescription(policy, group), Verdict(Some(0) !in mins))];
    }
  }

  /** One policy's block of the control: the runAsUser check, then the fsGroup and the
      supplementalGroups sections. */
  method RaisePolicyChecks(policy: Policy) returns (es: seq<Expectation>)
    ensures es == PolicyChecks(policy)
  {
    var runAsUser := Expectation(RunAsUserDescription(policy.name), Verdict(policy.runAsUserRule == Some(NonRoot)));
    var fsGroup := RaiseGroupChecks(policy.name, "fsGroup", policy.fsGroupRanges);
    var supplemental := RaiseGroupChecks(policy.name, "supplementalGroups", policy.supplementalRanges);
    es := [runAsUser] + fsGroup + supplemental;
  }

  /** The loop over the policies, in listing order. */
  method RaiseAllPolicyChecks(policies: seq<Policy>) returns (es: seq<Expectation>)
    ensures es == AllPolicyChecks(policies)
  {
    es := [];
    var i := 0;
    while i < |policies|
      invariant 0 <= i <= |policies|
      invariant es == AllPolicyChecks(policies[..i])
    {
      var checks := RaisePolicyChecks(policies[i]);
      AllPolicyChecksPrefix(policies, i);
      es := es + checks;
      i := i + 1;
    }
    assert policies[..|policies|] == policies;
  }

  /** The control body over one snapshot of the cluster's pod security policies. */
  method CheckPodSecurityPolicies(policies: seq<Policy>) returns (es: seq<Expectation>)
    ensures |es| > 0 && es[0] == Expectation(ExistsDescription, Verdict(policies != []))
    ensures es == [es[0]] + AllPolicyChecks(policies)
  {
    var checks := RaiseAllPolicyChecks(policies);
    es := [Expectation(ExistsDescription, Verdict(|policies| > 0))] + checks;
  }

  /** Checks of the first i + 1 policies are those of the first i, then those of policy i. */
  lemma AllPolicyChecksPrefix(policies: seq<Policy>, i: nat)
    requires i < |policies|
    ensures AllPolicyChecks(policies[..i + 1]) == AllPolicyChecks(policies[..i]) + PolicyChecks(policies[i])
  {
    assert policies[..i + 1][..i] == policies[..i];
    assert ConcatMap(PolicyChecks, policies[..i + 1])
      == ConcatMap(PolicyChecks, policies[..i]) + PolicyChecks(policies[i]);
  }

  /** Checks of a concatenated listing are the checks of each part, in order. */
  lemma AllPolicyChecksAppend(first: seq<Policy>, second: seq<Policy>)
    ensures AllPolicyChecks(first + second) == AllPolicyChecks(first) + AllPolicyChecks(second)
  {
    ConcatMapAppend(PolicyChecks, first, second);
  }

  /** Each policy raises between three and seven expectations, so a listing of n policies
      raises between 1 + 3n and 1 + 7n in all. */
  lemma {:induction false} ReportSize(policies: seq<Policy>)
    ensures 3 * |policies| <= |AllPolicyChecks(policies)| <= 7 * |policies|
  {
    if policies != [] {
      var init := policies[..|policies| - 1];
      ReportSize(init);
      var p := policies[|policies| - 1];
      assert 3 <= |PolicyChecks(p)| <= 7;
      assert ConcatMap(PolicyChecks, policies) == ConcatMap(PolicyChecks, init) + PolicyChecks(p);
    }
  }

  /** A present but empty ranges list fails the non-empty minimum check. */
  lemma EmptyRangesFail(policy: string, group: string)
    ensures GroupChecks(policy, group, Some([]))[1].outcome == Fail
  {
  }

  /** A range whose minimum is 0 fails the minimum check. */
  lemma ZeroMinimumFails(policy: string, group: string, ranges: seq<Range>, k: nat)
    requires k < |ranges| && ranges[k].min == Some(0)
    ensures GroupChecks(policy, group, Some(ranges))[2].outcome == Fail
  {
  }

  /** A present ranges list passes both minimum checks exactly when it is non-empty and no
      range has minimum 0: ranges with a missing minimum, and negative minimums, are accepted. */
  lemma MinimumChecksPass(policy: string, group: string, ranges: seq<Range>)
    ensures var es := GroupChecks(policy, group, Some(ranges));
      es[1].outcome == Pass && es[2].outcome == Pass
      <==> |ranges| > 0 && forall i :: 0 <= i < |ranges| ==> ranges[i].min != Some(0)
  {
  }

  /** A range without a minimum is not a finding for this control as written. */
  lemma MissingMinimumAccepted(policy: string, group: string)
    ensures forall e :: e in GroupChecks(policy, group, Some([Range(None)])) ==> e.outcome == Pass
  {
    var es := GroupChecks(policy, group, Some([Range(None)]));
    assert es == [es[0], es[1], es[2]];
  }

  /** supplementalGroups is judged exactly as fsGroup: only the descriptions differ. */
  lemma SameRuleForBothGroups(policy: string, ranges: Option<seq<Range>>)
    ensures var fs := GroupChecks(policy, "fsGroup", ranges);
      var sg := GroupChecks(policy, "supplementalGroups", ranges);
      |fs| == |sg| && forall i :: 0 <= i < |fs| ==> fs[i].outcome == sg[i].outcome
  {
  }
}
