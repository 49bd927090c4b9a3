# Node networking decisions: CNI config regeneration and pod network-policy helpers

This project models two pieces of node-networking logic vendored into a k3s
tree and proves properties of the model in Dafny.

**containerd CRI `UpdateRuntimeConfig`** (`runtime_config.dfy`, module
`RuntimeConfig`). When the kubelet hands the runtime the node's pod CIDRs as
one comma-separated string, the runtime may regenerate its CNI network config
from a template. The model follows the source's ladder:

- an empty string is a no-op;
- the string is split on commas and each field is trimmed in place;
- `getRoutes` turns the CIDRs into default routes (`0.0.0.0/0` if any CIDR is
  IPv4, `::/0` if any is IPv6, IPv4 first) or fails on the first CIDR that
  does not parse;
- no configured template is a no-op;
- a ready plugin is a no-op;
- a loadable existing config is a no-op;
- otherwise the template is parsed, the config directory created, the file
  `10-containerd-net.conflist` opened and the template executed with
  `{PodCIDR: cidrs[0], PodCIDRRanges: cidrs, Routes: routes}`, stopping at
  the first failure.

`getRoutes`, the split-and-trim loop and the ladder are imperative methods
(`GetRoutes`, `SplitAndTrim`, `UpdateRuntimeConfig`, `RenderTemplate`). Each
is proved equal to a specification function (`Routes`, `PodCidrList`,
`Reconcile`, `Render`), and the lemmas state what those functions promise.
The collaborators are inputs:

- `Env.parseCidr` stands for `net.ParseCIDR` plus the `IP.To4() != nil`
  family test;
- `Env.succeeds` says which collaborator calls return without error: plugin
  status, plugin load, template parse, mkdir, open, execute.

The operation returns its outcome and the sequence of collaborator calls it
made. So "no plugin query" and "no later stage runs" are statements about
that sequence.

The Go library helpers this code relies on are modelled as functions:

- `strings.Split`, `strings.Join` and `strings.TrimSpace`, with Go's
  `unicode.IsSpace` table (`go_strings.dfy`, module `GoStrings`);
- decimal digit strings for `strconv.ParseUint(_, 10, 16)` and `%d`
  (`decimal.dfy`, module `Decimal`).

**kube-router `netpol/utils.go`** (`netpol_utils.dfy`, module `NetpolUtils`):

- `isPodUpdateNetPolRelevant`: did the phase, pod IP, pod IP list, host IP or
  labels change?
- `isFinished` and `isNetPolActionable`;
- `validateNodePortRange`: a hand-written scanner for
  `^([0-9]+)[:-]([0-9]+)$`, the 65535 bound, the strict order, and the
  normalised output `"p1:p2"`;
- the per-family address lookups `getPodIPv4Address` / `getPodIPv6Address`
  (one method parametrised by the family) and `getIPsFromPods`.
  `utilsnet.IsIPv4String` / `IsIPv6String` are one classifier parameter
  `familyOf`, since no string is both.

Three points about the Go code that the model keeps exactly:

- `getRoutes` returns an ordered list: `0.0.0.0/0` (if any CIDR is IPv4)
  comes before `::/0` (if any CIDR is IPv6), and nothing else is added.
- The render steps run in a fixed order: template parse, then mkdir, then
  open, then execute; the file is closed only once it was opened.
- An error from `Status()` is treated like "not ready": both fall through
  to `Load`.

## Model

| member | source | states |
|---|---|---|
| `GoStrings.IsSpace` | vendor/github.com/containerd/containerd/pkg/cri/server/update_runtime_config.go:60 | no decimal digit, none of `.`, `:`, `/` and not the separator `,` is white space |
| `GoStrings.Split` | vendor/github.com/containerd/containerd/pkg/cri/server/update_runtime_config.go:58 | splitting on commas gives one more field than there are commas, and no field contains a comma |
| `GoStrings.JoinSplit` | vendor/github.com/containerd/containerd/pkg/cri/server/update_runtime_config.go:58 | re-joining the fields with commas gives back the original string |
| `GoStrings.SplitJoin` | vendor/github.com/containerd/containerd/pkg/cri/server/update_runtime_config.go:58 | splitting comma-free fields joined by commas gives back exactly those fields, so the fields are unique |
| `GoStrings.SplitNoSeparator` | vendor/github.com/containerd/containerd/pkg/cri/server/update_runtime_config.go:58 | a string without a comma splits into itself alone |
| `GoStrings.SplitAfterField` | vendor/github.com/containerd/containerd/pkg/cri/server/update_runtime_config.go:58 | splitting `p,t` with `p` comma-free yields `p` followed by the fields of `t` |
| `GoStrings.TrimLeftSpace` | vendor/github.com/containerd/containerd/pkg/cri/server/update_runtime_config.go:60 | the result is a suffix, everything removed is white space, and it does not start with white space |
| `GoStrings.TrimRightSpace` | vendor/github.com/containerd/containerd/pkg/cri/server/update_runtime_config.go:60 | the result is a prefix, everything removed is white space, and it does not end with white space |
| `GoStrings.TrimSpace` | vendor/github.com/containerd/containerd/pkg/cri/server/update_runtime_config.go:60 | the result is an infix neither starting nor ending with white space, and everything cut off on either side is white space |
| `GoStrings.TrimSpaceIdempotent` | vendor/github.com/containerd/containerd/pkg/cri/server/update_runtime_config.go:60 | trimming a trimmed field changes nothing |
| `GoStrings.TrimCut` | vendor/github.com/containerd/containerd/pkg/cri/server/update_runtime_config.go:60 | cutting leading white space and then trailing white space leaves an infix with only white space around it |
| `GoStrings.CidrCharNotSpace` | vendor/github.com/containerd/containerd/pkg/cri/server/update_runtime_config.go:60 | no character of an IPv4 or IPv6 CIDR (digits, hex letters `a`-`f` and `A`-`F`, `.`, `:`, `/`) is white space |
| `GoStrings.TrimCidrUnchanged` | vendor/github.com/containerd/containerd/pkg/cri/server/update_runtime_config.go:60 | trimming leaves a field made only of CIDR characters unchanged |
| `RuntimeConfig.ScanFamilies` | vendor/github.com/containerd/containerd/pkg/cri/server/update_runtime_config.go:110-120 | a failed scan names a CIDR of the list that does not parse; a set flag means some CIDR of the list parsed as that family |
| `RuntimeConfig.Routes` | vendor/github.com/containerd/containerd/pkg/cri/server/update_runtime_config.go:105-128 | a failure names a CIDR of the list that does not parse; a success has at most two routes, each `0.0.0.0/0` or `::/0` |
| `RuntimeConfig.ScanFailsAtFirstUnparsable` | vendor/github.com/containerd/containerd/pkg/cri/server/update_runtime_config.go:110-114 | the scan fails exactly when some CIDR does not parse, and reports the first such CIDR |
| `RuntimeConfig.ScanFlags` | vendor/github.com/containerd/containerd/pkg/cri/server/update_runtime_config.go:115-120 | after a successful scan, `hasV4` holds iff some CIDR is IPv4 and `hasV6` iff some CIDR is IPv6 |
| `RuntimeConfig.ScanErrorPersists` | vendor/github.com/containerd/containerd/pkg/cri/server/update_runtime_config.go:110-114 | once a prefix of the list fails, the whole list fails with the same CIDR (the early return) |
| `RuntimeConfig.FirstUnparsableExists` | vendor/github.com/containerd/containerd/pkg/cri/server/update_runtime_config.go:110-114 | if any CIDR does not parse there is a first one that does not |
| `RuntimeConfig.RoutesMeaning` | vendor/github.com/containerd/containerd/pkg/cri/server/update_runtime_config.go:105-128 | `getRoutes` succeeds iff every CIDR parses and otherwise names the first bad one; on success the routes are exactly `[0.0.0.0/0]` if some CIDR is IPv4, followed by `[::/0]` if some CIDR is IPv6, and nothing else |
| `RuntimeConfig.RoutesShape` | vendor/github.com/containerd/containerd/pkg/cri/server/update_runtime_config.go:121-127 | at most two routes, each one of the two default routes, no duplicates, `0.0.0.0/0` before `::/0`, none for an empty list |
| `RuntimeConfig.GetRoutes` | vendor/github.com/containerd/containerd/pkg/cri/server/update_runtime_config.go:105-128 | the flag-setting loop with early return computes exactly `Routes(cidrs)` |
| `RuntimeConfig.PodCidrList` | vendor/github.com/containerd/containerd/pkg/cri/server/update_runtime_config.go:58-61 | the CIDR list has one more entry than the string has commas |
| `RuntimeConfig.PodCidrListFields` | vendor/github.com/containerd/containerd/pkg/cri/server/update_runtime_config.go:58-61 | `cidrs[i]` is the trimmed i-th comma-separated field of the request string, for any way of writing it as comma-free fields |
| `RuntimeConfig.SplitAndTrim` | vendor/github.com/containerd/containerd/pkg/cri/server/update_runtime_config.go:58-61 | splitting and trimming each field in place yields `PodCidrList(podCidrs)` |
| `RuntimeConfig.FirstFailure` | vendor/github.com/containerd/containerd/pkg/cri/server/update_runtime_config.go:81-100 | the index returned is the first failing render stage: every earlier stage succeeds and that one fails |
| `RuntimeConfig.FirstFailureAt` | vendor/github.com/containerd/containerd/pkg/cri/server/update_runtime_config.go:81-100 | the first failing stage is unique |
| `RuntimeConfig.Render` | vendor/github.com/containerd/containerd/pkg/cri/server/update_runtime_config.go:79-101 | the template is always parsed first; the outcome is the generated config with the given data or a failed stage, never a skip; a failure ends with that stage or the close; the file is closed iff it was opened successfully; a generated config runs exactly the four steps and then the close |
| `RuntimeConfig.Reconcile` | vendor/github.com/containerd/containerd/pkg/cri/server/update_runtime_config.go:53-101 | the first call made, if any, is the plugin status check; an invalid CIDR fails before any call; a generated config takes exactly status, load, four render steps and the close |
| `RuntimeConfig.ReconcileCidrs` | vendor/github.com/containerd/containerd/pkg/cri/server/update_runtime_config.go:62-101 | as `Reconcile` for a known CIDR list; an invalid CIDR reported is one of the list; a generated config uses the first CIDR as pod CIDR and the whole list as ranges |
| `RuntimeConfig.RenderTemplate` | vendor/github.com/containerd/containerd/pkg/cri/server/update_runtime_config.go:79-101 | the four render steps with early returns and the deferred close behave as `Render` |
| `RuntimeConfig.UpdateRuntimeConfig` | vendor/github.com/containerd/containerd/pkg/cri/server/update_runtime_config.go:53-102 | the handler's outcome and collaborator calls are exactly those of the decision ladder `Reconcile` |
| `RuntimeConfig.EmptyPodCidrsIsNoOp` | vendor/github.com/containerd/containerd/pkg/cri/server/update_runtime_config.go:54-57 | an empty pod CIDR string succeeds with no collaborator call |
| `RuntimeConfig.InvalidCidrFailsFirst` | vendor/github.com/containerd/containerd/pkg/cri/server/update_runtime_config.go:62-65 | a CIDR that does not parse fails the request with the first such CIDR and no collaborator call, whatever the template setting |
| `RuntimeConfig.BlankFieldFails` | vendor/github.com/containerd/containerd/pkg/cri/server/update_runtime_config.go:58-65 | when `""` does not parse, a field that is blank after trimming fails the request with no collaborator call |
| `RuntimeConfig.DecisionOrder` | vendor/github.com/containerd/containerd/pkg/cri/server/update_runtime_config.go:67-81 | with valid CIDRs: no template gives success and no call; a ready plugin gives success after one status query; a loadable config gives success after status and load; otherwise status, load, then template parse |
| `RuntimeConfig.RenderStopsAtFirstFailure` | vendor/github.com/containerd/containerd/pkg/cri/server/update_runtime_config.go:81-100 | the config is generated iff every stage succeeds; a failure names the first failing stage, no later stage runs, and the file is closed iff it was opened |
| `RuntimeConfig.GeneratedConfig` | vendor/github.com/containerd/containerd/pkg/cri/server/update_runtime_config.go:94-97 | a generated config holds `PodCIDR = cidrs[0]`, `PodCIDRRanges = cidrs` and `Routes = getRoutes(cidrs)` with the family-matching default routes, and is written only when no plugin is set up and all stages succeed |
| `RuntimeConfig.SingleIpv4Cidr` | vendor/github.com/containerd/containerd/pkg/cri/server/update_runtime_config.go:58-65 | a single comma-free IPv4 CIDR without surrounding white space, such as `10.244.1.0/24` is the whole CIDR list and yields only `0.0.0.0/0` |
| `NetpolUtils.IsPodUpdateNetPolRelevant` | vendor/github.com/cloudnativelabs/kube-router/pkg/controllers/netpol/utils.go:24-30 | a relevant update always has two different pod snapshots |
| `NetpolUtils.IsNetPolActionable` | vendor/github.com/cloudnativelabs/kube-router/pkg/controllers/netpol/utils.go:32-34 | an actionable pod is not in phase Failed, Succeeded or Completed |
| `NetpolUtils.IsFinished` | vendor/github.com/cloudnativelabs/kube-router/pkg/controllers/netpol/utils.go:36-42 | a finished pod is not in phase Pending, Running or Unknown |
| `NetpolUtils.RelevantIffViewChanges` | vendor/github.com/cloudnativelabs/kube-router/pkg/controllers/netpol/utils.go:24-30 | an update is relevant iff the pod's phase, pod IP, pod IP list, host IP or labels differ |
| `NetpolUtils.RelevanceIrreflexiveSymmetric` | vendor/github.com/cloudnativelabs/kube-router/pkg/controllers/netpol/utils.go:24-30 | a pod is never a relevant update of itself, and relevance is symmetric |
| `NetpolUtils.RelevanceExamples` | vendor/github.com/cloudnativelabs/kube-router/pkg/controllers/netpol/utils.go:24-30 | changing only name, namespace or host-network is not relevant; changing labels is |
| `NetpolUtils.ActionableCases` | vendor/github.com/cloudnativelabs/kube-router/pkg/controllers/netpol/utils.go:32-42 | finished means Failed, Succeeded or Completed; a pod without IP, on the host network or finished is not actionable; a running pod with an IP off the host network is |
| `NetpolUtils.DigitRun` | vendor/github.com/cloudnativelabs/kube-router/pkg/controllers/netpol/utils.go:45 | the leading run of digits, ended by a non-digit or the end of the string |
| `NetpolUtils.RangeSyntaxAtDigitRun` | vendor/github.com/cloudnativelabs/kube-router/pkg/controllers/netpol/utils.go:45-52 | a match of the range pattern has its separator right after the leading digits, so the two groups are unique |
| `NetpolUtils.ValidateNodePortRange` | vendor/github.com/cloudnativelabs/kube-router/pkg/controllers/netpol/utils.go:44-65 | rejects what does not match `<digits>[:-]<digits>`, then a first port above 65535, then a second port above 65535, then port1 >= port2; otherwise returns `"p1:p2"` |
| `NetpolUtils.FormattedRangeAccepted` | vendor/github.com/cloudnativelabs/kube-router/pkg/controllers/netpol/utils.go:44-64 | every normal-form range `p1:p2` with p1 < p2 <= 65535 is accepted unchanged |
| `NetpolUtils.ValidateIdempotent` | vendor/github.com/cloudnativelabs/kube-router/pkg/controllers/netpol/utils.go:44-64 | validating a validated range returns it again |
| `Decimal.Value` | vendor/github.com/cloudnativelabs/kube-router/pkg/controllers/netpol/utils.go:53-60 | a leading zero does not change the value `ParseUint` reads |
| `Decimal.Format` | vendor/github.com/cloudnativelabs/kube-router/pkg/controllers/netpol/utils.go:64 | `%d` gives a non-empty digit string without leading zero whose value is the number |
| `Decimal.FormatValue` | vendor/github.com/cloudnativelabs/kube-router/pkg/controllers/netpol/utils.go:53-64 | every canonical numeral is the `%d` of its value |
| `Decimal.ValueAtLeastLead` | vendor/github.com/cloudnativelabs/kube-router/pkg/controllers/netpol/utils.go:53-60 | a canonical numeral of two or more digits is at least ten, a single digit below ten |
| `NetpolUtils.FirstOfFamily` | vendor/github.com/cloudnativelabs/kube-router/pkg/controllers/netpol/utils.go:90-106 | the index of the first address of the wanted family, or the length if none |
| `NetpolUtils.FirstOfFamilyAt` | vendor/github.com/cloudnativelabs/kube-router/pkg/controllers/netpol/utils.go:90-106 | the first address of a family is unique |
| `NetpolUtils.PodAddress` | vendor/github.com/cloudnativelabs/kube-router/pkg/controllers/netpol/utils.go:90-106 | a found address is one of the pod's addresses of the requested family; the lookup fails iff the pod has none, and the error names the pod |
| `NetpolUtils.FindPodAddress` | vendor/github.com/cloudnativelabs/kube-router/pkg/controllers/netpol/utils.go:90-106 | the scan returns the first address of the family, and fails naming the pod iff the pod has none |
| `NetpolUtils.IPsFromPods` | vendor/github.com/cloudnativelabs/kube-router/pkg/controllers/netpol/utils.go:67-88 | at most one address per pod |
| `NetpolUtils.IPsFromPodsOtherFamily` | vendor/github.com/cloudnativelabs/kube-router/pkg/controllers/netpol/utils.go:70-85 | a family other than IPv4 and IPv6 yields no addresses |
| `NetpolUtils.IPsFromPodsAppend` | vendor/github.com/cloudnativelabs/kube-router/pkg/controllers/netpol/utils.go:67-88 | addresses of concatenated pod lists concatenate, so pod order is kept |
| `NetpolUtils.IPsFromOnePod` | vendor/github.com/cloudnativelabs/kube-router/pkg/controllers/netpol/utils.go:71-84 | one pod contributes its first address of the family, or nothing when it has none |
| `NetpolUtils.GetIPsFromPods` | vendor/github.com/cloudnativelabs/kube-router/pkg/controllers/netpol/utils.go:67-88 | the appending loop with `continue` on a missing address computes exactly `IPsFromPods` |

## Left out

- `net.ParseCIDR` and `IP.To4()`: the CIDR grammar is not modelled. They are the input `Env.parseCidr: string -> Option<IpFamily>`. Because the family test is `To4() != nil`, an IPv4-mapped IPv6 network counts as IPv4. `BlankFieldFails` assumes, as a hypothesis, that `""` does not parse, as Go's parser rejects it.
- `utilsnet.IsIPv4String` / `IsIPv6String`: the IP grammar is not modelled. They are the input `familyOf`.
- Plugin status and plugin load: only whether each call returns an error is modelled. `cniLoadOptions()` and the error values are not.
- File and template I/O (`template.ParseFiles`, `os.MkdirAll`, `os.OpenFile`, `t.Execute`, `f.Close`): each is a call that succeeds or fails; file contents and the template language are not modelled. The error of `f.Close` is ignored by the source and by the model.
- File modes (0755 for the directory, 0644 for the file) are not modelled. Neither is the path cleaning of `filepath.Join`: the open call records the directory and the constant file name.
- The file is opened without `O_TRUNC`, so a shorter render can leave stale trailing bytes from an earlier one. This is not modelled, because the model has no file contents.
- Logging (`log.G`, `klog`), error-message text, `errors.Wrap`, `context`, and the CRI request/response types are not modelled. A successful response is always empty.
- `reflect.DeepEqual` on pod IP lists and labels is modelled as sequence and map equality. Go treats a nil slice or map as different from an empty one; the model cannot express nil, so it treats them as equal.
- The regular-expression engine and `strconv.ParseUint` internals: the accepted language is a digit scanner plus a bound check. The `len(matches) != 3` branch cannot be reached once the pattern matched, and has no counterpart.
- Go strings are UTF-8 byte strings. The model uses sequences of code points, so trimming of invalid UTF-8 is not modelled.
- `getPodIPv4Address` and `getPodIPv6Address` are one method, `FindPodAddress`, with the wanted family as a parameter. `podInfo` fields other than `ips` and `name` are carried but not read.
