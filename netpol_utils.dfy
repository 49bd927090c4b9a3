/**
 * kube-router network-policy helpers: which pod updates matter to the policy
 * controller, which pods it acts on, the `--service-node-port-range` check,
 * and the per-family pod address lookups.
 *
 * `utilsnet.IsIPv4String` / `IsIPv6String` are one parameter
 * `familyOf: string -> Option<AddressFamily>`: both parse the string as an IP
 * and split on `To4() != nil`, so no string is both.
 */
module NetpolUtils {
  import opened Results
  import opened Decimal

  // ---------------------------------------------------------------------------
  // Pods
  // ---------------------------------------------------------------------------

  /** The phases of `api.PodPhase`, a string type. */
  const PodPending: string := "Pending"
  const PodRunning: string := "Running"
  const PodSucceeded: string := "Succeeded"
  const PodFailed: string := "Failed"
  const PodUnknown: string := "Unknown"
  /** kube-router's own phase for completed pods. */
  const PodCompleted: string := "Completed"

  datatype PodIP = PodIP(ip: string)

  datatype PodStatus = PodStatus(phase: string, hostIP: string, podIP: string, podIPs: seq<PodIP>)

  /** The parts of `api.Pod` the helpers read, plus its identity. */
  datatype Pod = Pod(name: string, namespace: string, labels: map<string, string>, hostNetwork: bool, status: PodStatus)

  /** `isPodUpdateNetPolRelevant`: phase, pod IP, pod IP list, host IP or labels changed. */
  predicate IsPodUpdateNetPolRelevant(oldPod: Pod, newPod: Pod)
    ensures IsPodUpdateNetPolRelevant(oldPod, newPod) ==> oldPod != newPod
  {
    || newPod.status.phase != oldPod.status.phase
    || newPod.status.podIP != oldPod.status.podIP
    || newPod.status.podIPs != oldPod.status.podIPs
    || newPod.status.hostIP != oldPod.status.hostIP
    || newPod.labels != oldPod.labels
  }

  /** What network policies see of a pod. */
  datatype NetPolView = NetPolView(
    phase: string, podIP: string, podIPs: seq<PodIP>, hostIP: string, labels: map<string, string>)

  function ViewOf(pod: Pod): NetPolView {
    NetPolView(pod.status.phase, pod.status.podIP, pod.status.podIPs, pod.status.hostIP, pod.labels)
  }

  /** An update is relevant exactly when the policy view of the pod changes. */
  lemma RelevantIffViewChanges(oldPod: Pod, newPod: Pod)
    ensures IsPodUpdateNetPolRelevant(oldPod, newPod) <==> ViewOf(oldPod) != ViewOf(newPod)
  {
  }

  /** No pod is a relevant update of itself, and relevance does not depend on which snapshot is the old one. */
  lemma RelevanceIrreflexiveSymmetric(a: Pod, b: Pod)
    ensures !IsPodUpdateNetPolRelevant(a, a)
    ensures IsPodUpdateNetPolRelevant(a, b) <==> IsPodUpdateNetPolRelevant(b, a)
  {
  }

  /** Changing only the name, namespace or host-network flag is not a relevant update; changing the labels is. */
  lemma RelevanceExamples(pod: Pod, name: string, namespace: string, hostNetwork: bool, labels: map<string, string>)
    ensures !IsPodUpdateNetPolRelevant(pod, pod.(name := name, namespace := namespace, hostNetwork := hostNetwork))
    ensures labels != pod.labels ==> IsPodUpdateNetPolRelevant(pod, pod.(labels := labels))
  {
  }

  /** `isFinished`: the pod's phase is Failed, Succeeded or Completed. */
  predicate IsFinished(pod: Pod)
    ensures IsFinished(pod) ==> pod.status.phase != PodPending && pod.status.phase != PodRunning && pod.status.phase != PodUnknown
  {
    pod.status.phase == PodFailed || pod.status.phase == PodSucceeded || pod.status.phase == PodCompleted
  }

  /** `isNetPolActionable`: not finished, has a pod IP and is not on the host network. */
  predicate IsNetPolActionable(pod: Pod)
    ensures IsNetPolActionable(pod) ==> pod.status.phase != PodFailed && pod.status.phase != PodSucceeded && pod.status.phase != PodCompleted
  {
    !IsFinished(pod) && pod.status.podIP != "" && !pod.hostNetwork
  }

  /**
   * Only the three terminal phases finish a pod; a running pod with an IP off
   * the host network is actionable, and one without an IP, on the host network
   * or finished is not.
   */
  lemma ActionableCases(pod: Pod)
    ensures IsFinished(pod) <==> pod.status.phase in {PodFailed, PodSucceeded, PodCompleted}
    ensures pod.status.phase in {PodPending, PodRunning, PodUnknown} ==> !IsFinished(pod)
    ensures pod.status.podIP == "" || pod.hostNetwork || IsFinished(pod) ==> !IsNetPolActionable(pod)
    ensures pod.status.phase == PodRunning && pod.status.podIP != "" && !pod.hostNetwork ==> IsNetPolActionable(pod)
  {
  }

  // ---------------------------------------------------------------------------
  // validateNodePortRange
  // ---------------------------------------------------------------------------

  /** Largest value `strconv.ParseUint(_, 10, 16)` accepts. */
  const MaxPort: nat := 65535

  datatype PortRangeError = Malformed | FirstPortInvalid | SecondPortInvalid | PortsNotIncreasing

  /** Length of the run of digits at the start of `s`. */
  function DigitRun(s: string): (n: nat)
    ensures n <= |s| && AllDigits(s[..n])
    ensures n < |s| ==> !IsDigit(s[n])
  {
    if |s| > 0 && IsDigit(s[0]) then 1 + DigitRun(s[1..]) else 0
  }

  predicate IsRangeSeparator(c: char) {
    c == ':' || c == '-'
  }

  /** `s` matches `^([0-9]+)[:-]([0-9]+)$` with the separator at index `k`. */
  ghost predicate RangeSyntaxAt(s: string, k: int) {
    && 0 < k < |s| - 1
    && AllDigits(s[..k])
    && IsRangeSeparator(s[k])
    && AllDigits(s[k + 1..])
  }

  /** A match has its separator right after the leading digits, so it is unique. */
  lemma RangeSyntaxAtDigitRun(s: string, k: int)
    requires RangeSyntaxAt(s, k)
    ensures k == DigitRun(s)
  {
  }

  /** The normalised range `"p1:p2"`. */
  function FormatRange(p1: nat, p2: nat): string {
    Format(p1) + ":" + Format(p2)
  }

  /**
   * `validateNodePortRange`: accept `<digits>[:-]<digits>` covering the whole
   * string with both numbers at most 65535 and the first below the second,
   * and return it as `"p1:p2"`.
   */
  function ValidateNodePortRange(option: string): (r: Result<string, PortRangeError>)
    ensures (forall k :: !RangeSyntaxAt(option, k)) <==> r == Err(Malformed)
    ensures forall k :: RangeSyntaxAt(option, k) ==>
      var p1, p2 := Value(option[..k]), Value(option[k + 1..]);
      && (p1 > MaxPort ==> r == Err(FirstPortInvalid))
      && (p1 <= MaxPort && p2 > MaxPort ==> r == Err(SecondPortInvalid))
      && (p1 <= MaxPort && p2 <= MaxPort && p1 >= p2 ==> r == Err(PortsNotIncreasing))
      && (p1 < p2 <= MaxPort ==> r == Ok(FormatRange(p1, p2)))
  {
    var k := DigitRun(option);
    if !(0 < k < |option| - 1 && IsRangeSeparator(option[k]) && AllDigits(option[k + 1..])) then
      assert forall j :: RangeSyntaxAt(option, j) ==> j == k by {
        forall j | RangeSyntaxAt(option, j) ensures j == k { RangeSyntaxAtDigitRun(option, j); }
      }
      Err(Malformed)
    else
      assert RangeSyntaxAt(option, k);
      assert forall j :: RangeSyntaxAt(option, j) ==> j == k by {
        forall j | RangeSyntaxAt(option, j) ensures j == k { RangeSyntaxAtDigitRun(option, j); }
      }
      var port1 := Value(option[..k]);
      if port1 > MaxPort then Err(FirstPortInvalid)
      else
        var port2 := Value(option[k + 1..]);
        if port2 > MaxPort then Err(SecondPortInvalid)
        else if port1 >= port2 then Err(PortsNotIncreasing)
        else Ok(FormatRange(port1, port2))
  }

  /** Every range `p1 < p2 <= 65535` in normal form is accepted unchanged. */
  lemma {:induction false} FormattedRangeAccepted(p1: nat, p2: nat)
    requires p1 < p2 <= MaxPort
    ensures ValidateNodePortRange(FormatRange(p1, p2)) == Ok(FormatRange(p1, p2))
  {
    var a, b := Format(p1), Format(p2);
    var s := FormatRange(p1, p2);
    var k := |a|;
    assert s[..k] == a;
    assert s[k + 1..] == b;
    assert s[k] == ':';
    assert RangeSyntaxAt(s, k);
  }

  /** Validation is idempotent: a validated range validates to itself. */
  lemma ValidateIdempotent(option: string)
    requires ValidateNodePortRange(option).Ok?
    ensures ValidateNodePortRange(ValidateNodePortRange(option).value) == ValidateNodePortRange(option)
  {
    var k :| RangeSyntaxAt(option, k);
    FormattedRangeAccepted(Value(option[..k]), Value(option[k + 1..]));
  }

  // ---------------------------------------------------------------------------
  // Pod addresses by family
  // ---------------------------------------------------------------------------

  datatype AddressFamily = V4 | V6

  /** The values of `api.IPFamily` the lookup handles. */
  const IPv4Protocol: string := "IPv4"
  const IPv6Protocol: string := "IPv6"

  /** kube-router's cached view of a pod. */
  datatype PodInfo = PodInfo(ip: string, ips: seq<PodIP>, name: string, namespace: string, labels: map<string, string>)

  /** Index of the first address of family `want` in `ips`, or `|ips|` if there is none. */
  function FirstOfFamily(ips: seq<PodIP>, want: AddressFamily, familyOf: string -> Option<AddressFamily>): (k: nat)
    ensures k <= |ips|
    ensures forall j :: 0 <= j < k ==> familyOf(ips[j].ip) != Some(want)
    ensures k < |ips| ==> familyOf(ips[k].ip) == Some(want)
  {
    if |ips| == 0 || familyOf(ips[0].ip) == Some(want) then 0
    else 1 + FirstOfFamily(ips[1..], want, familyOf)
  }

  /** The first index with no earlier address of the family, holding one itself, is the first of the family. */
  lemma FirstOfFamilyAt(ips: seq<PodIP>, want: AddressFamily, familyOf: string -> Option<AddressFamily>, k: nat)
    requires k <= |ips|
    requires forall j :: 0 <= j < k ==> familyOf(ips[j].ip) != Some(want)
    requires k < |ips| ==> familyOf(ips[k].ip) == Some(want)
    ensures FirstOfFamily(ips, want, familyOf) == k
  {
  }

  /** What `getPodIPv4Address` / `getPodIPv6Address` return: the first address of the family, or an error naming the pod. */
  function PodAddress(pod: PodInfo, want: AddressFamily, familyOf: string -> Option<AddressFamily>): (r: Result<string, string>)
    ensures r.Ok? ==> exists k :: 0 <= k < |pod.ips| && r.value == pod.ips[k].ip && familyOf(pod.ips[k].ip) == Some(want)
    ensures r.Err? <==> forall k :: 0 <= k < |pod.ips| ==> familyOf(pod.ips[k].ip) != Some(want)
    ensures r.Err? ==> r.error == pod.name
  {
    var k := FirstOfFamily(pod.ips, want, familyOf);
    if k < |pod.ips| then Ok(pod.ips[k].ip) else Err(pod.name)
  }

  /** `getPodIPv4Address` (`want == V4`) and `getPodIPv6Address` (`want == V6`): scan the pod's addresses in order. */
  method FindPodAddress(pod: PodInfo, want: AddressFamily, familyOf: string -> Option<AddressFamily>)
    returns (r: Result<string, string>)
    ensures r == PodAddress(pod, want, familyOf)
  {
    for i := 0 to |pod.ips|
      invariant forall j :: 0 <= j < i ==> familyOf(pod.ips[j].ip) != Some(want)
    {
      if familyOf(pod.ips[i].ip) == Some(want) {
        FirstOfFamilyAt(pod.ips, want, familyOf, i);
        return Ok(pod.ips[i].ip);
      }
    }
    FirstOfFamilyAt(pod.ips, want, familyOf, |pod.ips|);
    return Err(pod.name);
  }

  /** The address family an `api.IPFamily` value asks for, if it is one the lookup handles. */
  function RequestedFamily(family: string): Option<AddressFamily> {
    if family == IPv4Protocol then Some(V4)
    else if family == IPv6Protocol then Some(V6)
    else None
  }

  /** What `getIPsFromPods` returns: each pod's first address of the family, in pod order, skipping pods without one. */
  function IPsFromPods(pods: seq<PodInfo>, family: string, familyOf: string -> Option<AddressFamily>): (ips: seq<string>)
    ensures |ips| <= |pods|
  {
    if |pods| == 0 then []
    else
      var rest := IPsFromPods(pods[..|pods| - 1], family, familyOf);
      match RequestedFamily(family)
      case None => rest
      case Some(want) =>
        match PodAddress(pods[|pods| - 1], want, familyOf)
        case Ok(ip) => rest + [ip]
        case Err(_) => rest
  }

  /** A family other than IPv4 and IPv6 yields no addresses. */
  lemma {:induction false} IPsFromPodsOtherFamily(pods: seq<PodInfo>, family: string, familyOf: string -> Option<AddressFamily>)
    requires family != IPv4Protocol && family != IPv6Protocol
    ensures IPsFromPods(pods, family, familyOf) == []
  {
    if |pods| > 0 {
      IPsFromPodsOtherFamily(pods[..|pods| - 1], family, familyOf);
    }
  }

  /** The lookup works pod by pod: the addresses of a concatenation are the concatenation of the addresses. */
  lemma {:induction false} IPsFromPodsAppend(front: seq<PodInfo>, back: seq<PodInfo>, family: string, familyOf: string -> Option<AddressFamily>)
    ensures IPsFromPods(front + back, family, familyOf) == IPsFromPods(front, family, familyOf) + IPsFromPods(back, family, familyOf)
    decreases |back|
  {
    if |back| == 0 {
      assert front + back == front;
    } else {
      var all := front + back;
      var last := back[|back| - 1];
      assert all[..|all| - 1] == front + back[..|back| - 1];
      assert all[|all| - 1] == last;
      var own: seq<string> :=
        match RequestedFamily(family)
        case None => []
        case Some(want) => (match PodAddress(last, want, familyOf) case Ok(ip) => [ip] case Err(_) => []);
      assert IPsFromPods(all, family, familyOf) == IPsFromPods(all[..|all| - 1], family, familyOf) + own;
      assert IPsFromPods(back, family, familyOf) == IPsFromPods(back[..|back| - 1], family, familyOf) + own;
      IPsFromPodsAppend(front, back[..|back| - 1], family, familyOf);
    }
  }

  /** A single pod contributes its first address of the family, or nothing. */
  lemma IPsFromOnePod(pod: PodInfo, want: AddressFamily, family: string, familyOf: string -> Option<AddressFamily>)
    requires RequestedFamily(family) == Some(want)
    ensures IPsFromPods([pod], family, familyOf) == (match PodAddress(pod, want, familyOf) case Ok(ip) => [ip] case Err(_) => [])
  {
  }

  /** `getIPsFromPods`: append each pod's address of the requested family, skipping pods without one. */
  method GetIPsFromPods(pods: seq<PodInfo>, family: string, familyOf: string -> Option<AddressFamily>)
    returns (ips: seq<string>)
    ensures ips == IPsFromPods(pods, family, familyOf)
  {
    ips := [];
    for i := 0 to |pods|
      invariant ips == IPsFromPods(pods[..i], family, familyOf)
    {
      assert pods[..i + 1][..i] == pods[..i];
      assert pods[..i + 1][i] == pods[i];
      if family == IPv4Protocol {
        var r := FindPodAddress(pods[i], V4, familyOf);
        if r.Err? {
          continue;
        }
        ips := ips + [r.value];
      } else if family == IPv6Protocol {
        var r := FindPodAddress(pods[i], V6, familyOf);
        if r.Err? {
          continue;
        }
        ips := ips + [r.value];
      }
    }
    assert pods[..|pods|] == pods;
  }
}
