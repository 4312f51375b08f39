# Kubernetes STIG controls: evaluation logic

This project models the evaluation logic of five InSpec compliance controls from the
Kubernetes cluster STIG baseline, and proves properties of it in Dafny:

- V-242442: stale image versions. All pod images are collected and deduplicated. Each one is
  split into a name and a version at its first `:`, with `latest` as the default. Versions are
  grouped by name. Every name fails if it has more than one version.
- V-242414: privileged host ports. Pods outside `kube-system`, `kube-node-lease` and
  `kube-public` are walked pod → container → port. Every declared `hostPort` is tallied and
  must be at least 1024. An empty tally adds one more expectation.
- V-242437: pod security policies. Some policy must exist. Every policy must have the
  `runAsUser` rule `MustRunAsNonRoot`. Its `fsGroup` and `supplementalGroups` ranges must be
  present. Their minimums must be non-empty and must not include 0.
- V-242415: secrets in environment variables. Every pod's rendered spec must not mention
  `secretKeyRef`. A cluster without pods gets a single Skip.
- V-242383: user resources in the default namespaces. Three namespaces are checked: `default`,
  `kube-public` and `kube-node-lease`. Each may hold only the `kubernetes` service. None may
  hold pods.

The cluster is one abstract snapshot (`Kube`): pods with their containers, ports, images and
rendered spec text; services; and pod security policies with optional range lists. A control
is a method over that snapshot. It returns the ordered sequence of expectations it raises.
Each expectation is a description and an outcome (`Pass`, `Fail` or `Skip`).

Files: `kube.dfy` holds the snapshot and expectation datatypes. `text.dfy` holds substring
search and integer rendering. `seqs.dfy` holds generic sequence utilities (`Array#uniq`,
`Array#flatten`, and maps with their concatenation laws). There is one file per control: `image_versions.dfy`,
`host_ports.dfy`, `pod_security_policies.dfy`, `secret_refs.dfy` and `default_namespaces.dfy`.
Each control method is proved equal to a specification function, or states its result
outright. Lemmas then prove the control's properties about that function.

Where the code and the control's own check text disagree, the model follows the code. In
V-242437, the check text (controls/V-242437.rb:33-37) calls a missing range `min` a finding.
The code only rejects an empty list of minimums or a minimum equal to 0. A missing `min`
therefore passes (`PodSecurityPolicies.MissingMinimumAccepted`). V-242442 records no
expectation at all for a cluster without images, not even a Skip. V-242415's skip message is
`No pods found in the cluster`.

## Model

| member | source | states |
|---|---|---|
| `Seqs.FirstIndex` | controls/V-242442.rb:49 | the position found holds the element and no earlier position does |
| `Seqs.Uniq` | controls/V-242442.rb:49 | the deduplicated list holds exactly the elements of the input, each once, in order of first occurrence |
| `ImageVersions.CollectedImages` | controls/V-242442.rb:43-46 | the flattened collection holds exactly the images of the listed pods |
| `ImageVersions.FirstColon` | controls/V-242442.rb:54 | the position found is a `:` with no `:` before it; absent only when there is no `:` |
| `ImageVersions.ParseImage` | controls/V-242442.rb:54-55 | an empty reference has no name (Ruby's nil) and version `latest`; a reference without `:` is its own name with version `latest`; otherwise name + ":" + version is the reference and the name has no `:` |
| `ImageVersions.SplitAtFirstColon` | controls/V-242442.rb:54 | splitting `name:version` with a colon-free name gives back exactly that name and version, even when the version is empty or holds more colons |
| `ImageVersions.Record` | controls/V-242442.rb:57-61 | a reference with a name already tallied appends its version to that group; a new name starts a group of one at the end of the names; no other group changes, and a well-formed tally stays well-formed |
| `ImageVersions.TallyOf` | controls/V-242442.rb:52-62 | the tally lists each name once, its names are exactly its keys, and no group is empty |
| `ImageVersions.TallyNames` | controls/V-242442.rb:52-62 | names are tallied in order of first appearance |
| `ImageVersions.TallyVersions` | controls/V-242442.rb:53-61 | each group holds exactly the versions of the references with that name, in order; a name that is not a key has none |
| `ImageVersions.TallySize` | controls/V-242442.rb:53-62 | the group sizes sum to the number of references tallied |
| `ImageVersions.DistinctImagesCounted` | controls/V-242442.rb:43-62 | the tallied references are distinct and are exactly the pods' images, and the group sizes sum to their number |
| `Seqs.UniqIgnoresRepeats` | controls/V-242442.rb:49 | appending elements already present leaves the deduplicated list unchanged |
| `ImageVersions.RepeatedImagesCountedOnce` | controls/V-242442.rb:43-49 | a pod whose images all run elsewhere already does not change the report |
| `ImageVersions.NameExpectation` | controls/V-242442.rb:65-67 | a name's expectation fails exactly when it has more than one version, and is never a Skip |
| `ImageVersions.TallyReportShape` | controls/V-242442.rb:52-69 | one expectation per distinct name, in order of first appearance; the i-th is the expectation for the i-th name with exactly the versions of the references bearing that name |
| `ImageVersions.ReportShape` | controls/V-242442.rb:43-69 | the same for a cluster: the i-th expectation is the i-th distinct image name with all its versions, failing exactly on more than one version |
| `ImageVersions.VersionReport` | controls/V-242442.rb:43-69 | a cluster's report has one expectation per distinct image name and none of them is a Skip |
| `ImageVersions.NoImagesNoExpectations` | controls/V-242442.rb:43-69 | without pods or images nothing is collected and nothing is raised, not even a Skip |
| `ImageVersions.TallyOfSameName` | controls/V-242442.rb:53-61 | two references with one name tally one group holding both versions, in order |
| `ImageVersions.SameNameTwice` | controls/V-242442.rb:53-67 | two distinct references with one name form one group of both versions, and that name fails |
| `ImageVersions.SameNameCollide` | controls/V-242442.rb:43-69 | a cluster running exactly two distinct references with one name reports that name once, with both versions, and fails it |
| `ImageVersions.BareAndLatestCollide` | controls/V-242442.rb:49-58 | in any cluster whose pods run exactly `app` and `app:latest`, both add `latest` under `app`, so the count is 2 and it fails |
| `ImageVersions.TwoVersionsFail` | controls/V-242442.rb:43-69 | in any cluster whose pods run exactly `app:1.2` and `app:1.3`, the tally is `app: [1.2, 1.3]` and that name fails |
| `ImageVersions.BareAndLatestPodFails` | controls/V-242442.rb:43-69 | a cluster of one pod running `app` and `app:latest` reports `app` once, and it fails |
| `ImageVersions.TwoVersionPodsFail` | controls/V-242442.rb:43-69 | a cluster of two pods running `app:1.2` and `app:1.3` reports `app` once, and it fails |
| `ImageVersions.CollectImageLists` | controls/V-242442.rb:43-46 | the collection loop gathers every pod's image list, in pod order |
| `ImageVersions.TallyImages` | controls/V-242442.rb:52-62 | the in-place tally loop builds exactly the specified tally |
| `ImageVersions.RaiseNameExpectations` | controls/V-242442.rb:64-69 | the reporting loop raises the specified expectation for each name, in tally order |
| `ImageVersions.CheckImageVersions` | controls/V-242442.rb:43-69 | the control body raises exactly the specified report |
| `HostPorts.UserPods` | controls/V-242414.rb:52 | the filter keeps exactly the pods outside the three system namespaces |
| `HostPorts.UserPodsAppend` | controls/V-242414.rb:52 | the filter keeps the listing order: filtering a concatenation gives the filtered parts, in order |
| `HostPorts.HostPortUses` | controls/V-242414.rb:52-67 | every host port found belongs to a listed pod outside the system namespaces |
| `HostPorts.PortExpectation` | controls/V-242414.rb:61-64 | a port's expectation passes exactly when the host port is at least 1024 (1024 passes, 1023 fails) |
| `HostPorts.PortExpectations` | controls/V-242414.rb:60-64 | one expectation per host port found, the i-th for the i-th host port |
| `HostPorts.Tally` | controls/V-242414.rb:49-60 | `userspace_ports_found` holds one entry per host port found, the i-th being the i-th port's value |
| `HostPorts.PortExpectationsAppend` | controls/V-242414.rb:52-67 | the expectations and the tally of a concatenated walk are those of each part, in order |
| `HostPorts.PortUsesMembers` | controls/V-242414.rb:57-62 | a container's ports yield exactly the ports that declare a host port |
| `HostPorts.ContainersUsesMembers` | controls/V-242414.rb:54-62 | containers with nil ports, and ports without a host port, yield nothing; every other port yields its host port |
| `HostPorts.PodsUsesMembers` | controls/V-242414.rb:52-67 | the walk over pods yields exactly the host ports declared in their containers |
| `HostPorts.HostPortUsesMembers` | controls/V-242414.rb:52-67 | the control finds exactly the host ports declared by containers of user-namespace pods |
| `HostPorts.SystemPodIgnored` | controls/V-242414.rb:52 | a system-namespace pod, wherever it is listed, changes no host port found |
| `HostPorts.PortDescriptionMentions` | controls/V-242414.rb:61 | each port's description names the pod, namespace, container and host port value |
| `HostPorts.PrivilegedHostPortFails` | controls/V-242414.rb:52-64 | a user pod mapping host port 80 raises exactly one failing expectation, and the tally is [80] |
| `HostPorts.ScanPorts` | controls/V-242414.rb:57-65 | the port loop raises and tallies exactly the host ports of the container |
| `HostPorts.ScanContainers` | controls/V-242414.rb:54-66 | the container loop skips nil or empty port lists and raises exactly the pod's host ports |
| `HostPorts.CheckHostPorts` | controls/V-242414.rb:49-75 | the control raises one expectation per host port found, in pod → container → port order and without stopping at a failure; each passes exactly when its tally entry is at least 1024; the single always-passing empty-tally expectation comes last, and only when nothing was found |
| `PodSecurityPolicies.Mins` | controls/V-242437.rb:132 | one entry per range, in order, each that range's minimum; a missing minimum stays missing and is not read as 0 |
| `PodSecurityPolicies.ZeroAmongMins` | controls/V-242437.rb:132-134 | `include 0` on the minimums holds exactly when some range has minimum 0 |
| `PodSecurityPolicies.GroupChecks` | controls/V-242437.rb:125-136 | nil ranges give a single failing presence check; present ranges give a passing presence check, then a check that passes exactly when the list is non-empty, then one that passes exactly when no range has minimum 0 |
| `PodSecurityPolicies.RaiseGroupChecks` | controls/V-242437.rb:125-136 | the guarded block raises exactly those checks |
| `PodSecurityPolicies.PolicyChecks` | controls/V-242437.rb:121-149 | a policy raises 3 checks, plus 2 for each present ranges list; the first passes exactly when the runAsUser rule is `MustRunAsNonRoot` |
| `PodSecurityPolicies.RaisePolicyChecks` | controls/V-242437.rb:119-149 | the body of the policy loop raises exactly that policy's checks |
| `PodSecurityPolicies.AllPolicyChecks` | controls/V-242437.rb:118-150 | the per-policy checks of a listing are empty exactly when there is no policy |
| `PodSecurityPolicies.RaiseAllPolicyChecks` | controls/V-242437.rb:118-150 | the policy loop raises exactly each policy's checks, in listing order |
| `PodSecurityPolicies.CheckPodSecurityPolicies` | controls/V-242437.rb:111-150 | the first expectation passes exactly when some policy exists; it is followed by each policy's checks in listing order |
| `PodSecurityPolicies.AllPolicyChecksAppend` | controls/V-242437.rb:118-150 | the checks of a concatenated listing are each part's checks, in order |
| `PodSecurityPolicies.ReportSize` | controls/V-242437.rb:118-150 | n policies raise between 3n and 7n per-policy expectations |
| `PodSecurityPolicies.EmptyRangesFail` | controls/V-242437.rb:132-133 | a present but empty ranges list fails the non-empty check |
| `PodSecurityPolicies.ZeroMinimumFails` | controls/V-242437.rb:132-134 | a range with minimum 0 fails the minimum check |
| `PodSecurityPolicies.MinimumChecksPass` | controls/V-242437.rb:130-136 | both minimum checks pass exactly when the list is non-empty and no minimum is 0; negative minimums pass |
| `PodSecurityPolicies.MissingMinimumAccepted` | controls/V-242437.rb:132-134 | a range without `min` raises no failure |
| `PodSecurityPolicies.SameRuleForBothGroups` | controls/V-242437.rb:125-149 | supplementalGroups is judged exactly as fsGroup; only the descriptions differ |
| `SecretRefs.CheckSecretRefs` | controls/V-242415.rb:34-44 | one expectation per pod in every namespace, failing exactly when its spec text contains `secretKeyRef`; with no pods, a single Skip `No pods found in the cluster`; the Skip and per-pod expectations never occur together |
| `SecretRefs.SecretReferenceFails` | controls/V-242415.rb:36 | a spec mentioning `secretKeyRef` anywhere fails |
| `SecretRefs.ShortSpecPasses` | controls/V-242415.rb:36 | a spec shorter than the word passes |
| `Text.SubstringAt` | controls/V-242415.rb:36 | the substring search finds `sub` exactly when it occurs at some position of `s` |
| `Text.SubstringOfConcat` | controls/V-242414.rb:61 | a string is found in any text that embeds it |
| `DefaultNamespaces.ServiceNames` | controls/V-242383.rb:57-58 | the names checked are exactly those of the services in the namespace |
| `DefaultNamespaces.PodsIn` | controls/V-242383.rb:63-65 | the pods checked are exactly those in the namespace |
| `DefaultNamespaces.AllApproved` | controls/V-242383.rb:53-58 | every service name is approved exactly when each one is `kubernetes`; a namespace without services passes |
| `DefaultNamespaces.CheckDefaultNamespaces` | controls/V-242383.rb:53-67 | six expectations, whatever the cluster holds: first the service checks for `default`, `kube-public`, `kube-node-lease`, then the pod checks in the same order; a service check passes exactly when every service name is approved, a pod check exactly when the namespace has no pods |
| `DefaultNamespaces.CleanNamespacePasses` | controls/V-242383.rb:53-66 | a namespace with only the `kubernetes` service and no pods passes both checks |
| `DefaultNamespaces.UnapprovedServiceFails` | controls/V-242383.rb:53-58 | any other service in a checked namespace fails its service check |
| `DefaultNamespaces.ServiceNamesAppend` | controls/V-242383.rb:57-58 | the names listed for a concatenation of services are each part's, in order |
| `DefaultNamespaces.PodsInAppend` | controls/V-242383.rb:63-65 | the pods listed for a concatenation of pods are each part's, in order |
| `DefaultNamespaces.OtherServicesIgnored` | controls/V-242383.rb:57-58 | services of another namespace, wherever they are listed, change no service listing of the namespace |
| `DefaultNamespaces.OtherPodsIgnored` | controls/V-242383.rb:63-65 | pods of another namespace, wherever they are listed, change no pod listing of the namespace |
| `DefaultNamespaces.OtherNamespacesIgnored` | controls/V-242383.rb:54-64 | resources outside the three namespaces, wherever they are listed, change no listing that is checked |

## Left out

- Control V-242395 is not part of this model. Its only behaviour is a label-selector query, and it passes when the result is empty.
- Fetching is not modelled: `k8sobjects`, `k8sobject`, `entries`, `container_images` and `spec.to_s` are network calls and rendering in the InSpec Kubernetes resource pack. Their results are fields of one snapshot (`Kube.Pod.images`, `Kube.Pod.specText`, and so on). Of `where`, only the resource pack's lazy filtering mechanism is left out; V-242414's filter predicate itself is `HostPorts.InUserNamespace`.
- The per-entry re-fetches (controls/V-242414.rb:54, controls/V-242437.rb:119, controls/V-242442.rb:45, controls/V-242415.rb:35) and V-242415's second pod query (controls/V-242415.rb:40) are not modelled: each reads the listed entry itself from the same snapshot, so time skew between fetches is not modelled.
- Fetch and transport errors (an `Error` outcome) are not modelled. A required policy section that is missing (`fsGroup`, `supplementalGroups`, `runAsUser`) is read as nil ranges or a nil rule; the model does not raise an error.
- InSpec matchers are plain operations here. `cmp >= 1024` and `cmp > 1` are integer comparison. `cmp 'MustRunAsNonRoot'` is exact string equality, so InSpec's type coercion and case rules are not modelled. `match 'secretKeyRef'` is substring search; the pattern has no regular-expression metacharacters. `be_in` on the list of service names means every name is approved (`DefaultNamespaces.AllApproved`). `include 0` is membership of `Some(0)`.
- Expectation descriptions are only partly modelled. `describe <resource>` descriptions (V-242437 runAsUser, V-242415 per pod, V-242383 services) are rendered by the resource pack; the model builds them from the policy, pod or namespace name. The versions list in V-242442's description uses Ruby's `Array#inspect` layout without string escaping.
- The `describe`/`its`/`skip` runner, the per-control rollup, report rendering and exit codes are not modelled. Each control returns its expectation sequence instead.
- Control metadata (title, descriptions, tags, impact) is not modelled. It is prose passed through unchanged.
- `HostPorts.CheckHostPorts` also returns its final tally (`userspace_ports_found`), a local in the source, so that its contract can relate the tally to the expectations.
