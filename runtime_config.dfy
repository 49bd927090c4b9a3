/**
 * containerd CRI `UpdateRuntimeConfig`: when the kubelet hands the runtime the
 * node's pod CIDRs, regenerate the CNI network configuration from a template,
 * unless there is nothing to do or a network plugin is already set up.
 *
 * Collaborators are parameters: `Env.parseCidr` stands for `net.ParseCIDR`
 * followed by the `IP.To4() != nil` family test, and `Env.succeeds` says which
 * plugin and file-system calls return without error. The operation returns the
 * outcome together with the sequence of collaborator calls it made.
 */
module RuntimeConfig {
  import opened Results
  import opened GoStrings

  /** Name of the CNI config file containerd writes. */
  const CniConfigFileName: string := "10-containerd-net.conflist"
  /** The IPv6 default route. */
  const ZeroCidrV6: string := "::/0"
  /** The IPv4 default route. */
  const ZeroCidrV4: string := "0.0.0.0/0"

  /** Family of a parsed CIDR; an IPv4-mapped IPv6 network counts as IPv4. */
  datatype IpFamily = IPv4 | IPv6

  /** The values substituted into the CNI config template. */
  datatype CniConfigTemplate = CniConfigTemplate(podCidr: string, podCidrRanges: seq<string>, routes: seq<string>)

  // ---------------------------------------------------------------------------
  // getRoutes
  // ---------------------------------------------------------------------------

  /** The `hasV4` / `hasV6` flags of the route computation. */
  datatype Flags = Flags(hasV4: bool, hasV6: bool)

  /**
   * The flags after scanning `cidrs` from the left, or the first CIDR that
   * does not parse.
   */
  function ScanFamilies(cidrs: seq<string>, parse: string -> Option<IpFamily>): (r: Result<Flags, string>)
    ensures r.Err? ==> r.error in cidrs && parse(r.error).None?
    ensures r.Ok? && r.value.hasV4 ==> Some(IPv4) in Families(cidrs, parse)
    ensures r.Ok? && r.value.hasV6 ==> Some(IPv6) in Families(cidrs, parse)
  {
    if |cidrs| == 0 then Ok(Flags(false, false))
    else
      var last := cidrs[|cidrs| - 1];
      match ScanFamilies(cidrs[..|cidrs| - 1], parse)
      case Err(c) => Err(c)
      case Ok(flags) =>
        assert Families(cidrs, parse) == Families(cidrs[..|cidrs| - 1], parse) + [parse(last)];
        match parse(last)
        case None => Err(last)
        case Some(IPv4) => Ok(flags.(hasV4 := true))
        case Some(IPv6) => Ok(flags.(hasV6 := true))
  }

  /** The parse result of every CIDR, in order. */
  function Families(cidrs: seq<string>, parse: string -> Option<IpFamily>): (fs: seq<Option<IpFamily>>)
    ensures |fs| == |cidrs|
    ensures forall i :: 0 <= i < |cidrs| ==> fs[i] == parse(cidrs[i])
  {
    if |cidrs| == 0 then [] else Families(cidrs[..|cidrs| - 1], parse) + [parse(cidrs[|cidrs| - 1])]
  }

  /** The default routes the flags call for, IPv4 first. */
  function DefaultRoutes(flags: Flags): seq<string> {
    (if flags.hasV4 then [ZeroCidrV4] else []) + (if flags.hasV6 then [ZeroCidrV6] else [])
  }

  /** What `getRoutes(cidrs)` returns: the default routes, or the CIDR that failed to parse. */
  function Routes(cidrs: seq<string>, parse: string -> Option<IpFamily>): (r: Result<seq<string>, string>)
    ensures r.Err? ==> r.error in cidrs && parse(r.error).None?
    ensures r.Ok? ==> |r.value| <= 2 && forall x :: x in r.value ==> x == ZeroCidrV4 || x == ZeroCidrV6
  {
    match ScanFamilies(cidrs, parse)
    case Err(c) => Err(c)
    case Ok(flags) => Ok(DefaultRoutes(flags))
  }

  /** `cidrs[i]` is the first entry of `cidrs` that does not parse. */
  ghost predicate FirstUnparsableAt(cidrs: seq<string>, parse: string -> Option<IpFamily>, i: int) {
    && 0 <= i < |cidrs|
    && parse(cidrs[i]).None?
    && (forall j :: 0 <= j < i ==> parse(cidrs[j]).Some?)
  }

  /** The scan fails exactly when some entry does not parse, and it reports the first such entry. */
  lemma {:induction false} ScanFailsAtFirstUnparsable(cidrs: seq<string>, parse: string -> Option<IpFamily>)
    ensures forall i :: FirstUnparsableAt(cidrs, parse, i) ==> ScanFamilies(cidrs, parse) == Err(cidrs[i])
    ensures (forall i :: 0 <= i < |cidrs| ==> parse(cidrs[i]).Some?) ==> ScanFamilies(cidrs, parse).Ok?
  {
    if |cidrs| > 0 {
      var n := |cidrs| - 1;
      var pre := cidrs[..n];
      ScanFailsAtFirstUnparsable(pre, parse);
      forall i | FirstUnparsableAt(cidrs, parse, i)
        ensures ScanFamilies(cidrs, parse) == Err(cidrs[i])
      {
        if i < n {
          assert FirstUnparsableAt(pre, parse, i);
        } else {
          assert forall j :: 0 <= j < n ==> parse(pre[j]).Some?;
        }
      }
    }
  }

  /** On success, `hasV4` (`hasV6`) is set exactly when some entry parses as IPv4 (IPv6). */
  lemma {:induction false} ScanFlags(cidrs: seq<string>, parse: string -> Option<IpFamily>)
    requires ScanFamilies(cidrs, parse).Ok?
    ensures ScanFamilies(cidrs, parse).value.hasV4 <==> exists i :: 0 <= i < |cidrs| && parse(cidrs[i]) == Some(IPv4)
    ensures ScanFamilies(cidrs, parse).value.hasV6 <==> exists i :: 0 <= i < |cidrs| && parse(cidrs[i]) == Some(IPv6)
  {
    if |cidrs| > 0 {
      var n := |cidrs| - 1;
      var pre := cidrs[..n];
      ScanFlags(pre, parse);
      assert forall i :: 0 <= i < n ==> pre[i] == cidrs[i];
    }
  }

  /**
   * `getRoutes` fails exactly when some CIDR does not parse, naming the first;
   * otherwise the routes are exactly `0.0.0.0/0` if some CIDR is IPv4,
   * followed by `::/0` if some CIDR is IPv6, and nothing else.
   */
  lemma RoutesMeaning(cidrs: seq<string>, parse: string -> Option<IpFamily>)
    ensures Routes(cidrs, parse).Ok? <==> forall i :: 0 <= i < |cidrs| ==> parse(cidrs[i]).Some?
    ensures forall i :: FirstUnparsableAt(cidrs, parse, i) ==> Routes(cidrs, parse) == Err(cidrs[i])
    ensures Routes(cidrs, parse).Ok? ==>
      Routes(cidrs, parse).value ==
        (if exists i :: 0 <= i < |cidrs| && parse(cidrs[i]) == Some(IPv4) then [ZeroCidrV4] else [])
        + (if exists i :: 0 <= i < |cidrs| && parse(cidrs[i]) == Some(IPv6) then [ZeroCidrV6] else [])
    ensures Routes(cidrs, parse).Ok? ==>
      && (ZeroCidrV4 in Routes(cidrs, parse).value <==> exists i :: 0 <= i < |cidrs| && parse(cidrs[i]) == Some(IPv4))
      && (ZeroCidrV6 in Routes(cidrs, parse).value <==> exists i :: 0 <= i < |cidrs| && parse(cidrs[i]) == Some(IPv6))
  {
    ScanFailsAtFirstUnparsable(cidrs, parse);
    if i :| 0 <= i < |cidrs| && parse(cidrs[i]).None? {
      FirstUnparsableExists(cidrs, parse, i);
    }
    if Routes(cidrs, parse).Ok? {
      ScanFlags(cidrs, parse);
    }
  }

  /** If some entry does not parse, there is a first one that does not. */
  lemma {:induction false} FirstUnparsableExists(cidrs: seq<string>, parse: string -> Option<IpFamily>, i: int)
    requires 0 <= i < |cidrs| && parse(cidrs[i]).None?
    ensures exists k :: FirstUnparsableAt(cidrs, parse, k)
    decreases i
  {
    if forall j :: 0 <= j < i ==> parse(cidrs[j]).Some? {
      assert FirstUnparsableAt(cidrs, parse, i);
    } else {
      var j :| 0 <= j < i && parse(cidrs[j]).None?;
      FirstUnparsableExists(cidrs, parse, j);
    }
  }

  /**
   * The route list has at most two entries, holds only the two default
   * routes, has no duplicates, `0.0.0.0/0` before
   * `::/0`, and is empty for an empty CIDR list.
   */
  lemma RoutesShape(cidrs: seq<string>, parse: string -> Option<IpFamily>)
    requires Routes(cidrs, parse).Ok?
    ensures var r := Routes(cidrs, parse).value;
      && |r| <= 2
      && (forall x :: x in r ==> x == ZeroCidrV4 || x == ZeroCidrV6)
      && (forall i, j :: 0 <= i < j < |r| ==> r[i] != r[j])
      && (forall i, j :: 0 <= i < |r| && 0 <= j < |r| && r[i] == ZeroCidrV4 && r[j] == ZeroCidrV6 ==> i < j)
      && (|cidrs| == 0 ==> r == [])
  {
  }

  /** Once a prefix of the list fails to scan, the whole list fails with the same CIDR. */
  lemma {:induction false} ScanErrorPersists(cidrs: seq<string>, k: nat, parse: string -> Option<IpFamily>)
    requires k <= |cidrs| && ScanFamilies(cidrs[..k], parse).Err?
    ensures ScanFamilies(cidrs, parse) == ScanFamilies(cidrs[..k], parse)
  {
    if k < |cidrs| {
      var pre := cidrs[..|cidrs| - 1];
      assert pre[..k] == cidrs[..k];
      ScanErrorPersists(pre, k, parse);
    } else {
      assert cidrs[..k] == cidrs;
    }
  }

  /** `getRoutes`: one pass over the CIDRs setting the family flags, then the routes. */
  method GetRoutes(cidrs: seq<string>, parse: string -> Option<IpFamily>) returns (r: Result<seq<string>, string>)
    ensures r == Routes(cidrs, parse)
  {
    var hasV4, hasV6 := false, false;
    for i := 0 to |cidrs|
      invariant ScanFamilies(cidrs[..i], parse) == Ok(Flags(hasV4, hasV6))
    {
      assert cidrs[..i + 1][..i] == cidrs[..i];
      var family := parse(cidrs[i]);
      if family.None? {
        ScanErrorPersists(cidrs, i + 1, parse);
        return Err(cidrs[i]);
      }
      if family.value == IPv4 {
        hasV4 := true;
      } else {
        hasV6 := true;
      }
    }
    assert cidrs[..|cidrs|] == cidrs;
    var routes: seq<string> := [];
    if hasV4 {
      routes := routes + [ZeroCidrV4];
    }
    if hasV6 {
      routes := routes + [ZeroCidrV6];
    }
    assert routes == DefaultRoutes(Flags(hasV4, hasV6));
    return Ok(routes);
  }

  // ---------------------------------------------------------------------------
  // UpdateRuntimeConfig
  // ---------------------------------------------------------------------------

  /** The CRI plugin settings the operation reads. */
  datatype Config = Config(networkPluginConfTemplate: string, networkPluginConfDir: string)

  /** A call into a collaborator that can fail. */
  datatype Call =
    | PluginStatus
    | PluginLoad
    | ParseTemplate(template: string)
    | MkdirAll(dir: string)
    | OpenFile(dir: string, name: string)
    | Execute(data: CniConfigTemplate)
    | CloseFile

  /** The environment: CIDR parsing, and which collaborator calls succeed. */
  datatype Env = Env(parseCidr: string -> Option<IpFamily>, succeeds: Call -> bool)

  /** Why the operation returned success without rendering. */
  datatype Skip = EmptyPodCidrs | NoTemplate | PluginReady | ConfigLoaded

  datatype Failure = InvalidCidr(cidr: string) | StageFailed(stage: Call)

  datatype Outcome = Skipped(reason: Skip) | Generated(data: CniConfigTemplate) | Failed(failure: Failure)

  /** The plugin check as a three-way decision. */
  datatype PluginState = Managed | AlreadyConfigured | NeedsGeneration

  function PluginDecision(env: Env): PluginState {
    if env.succeeds(PluginStatus) then Managed
    else if env.succeeds(PluginLoad) then AlreadyConfigured
    else NeedsGeneration
  }

  /** The comma-separated fields of the request's pod CIDR string, each trimmed of white space. */
  function PodCidrList(podCidrs: string): (cidrs: seq<string>)
    ensures |cidrs| == CountOf(podCidrs, ',') + 1
  {
    var parts := Split(podCidrs, ',');
    seq(|parts|, i requires 0 <= i < |parts| => TrimSpace(parts[i]))
  }

  /**
   * For any way of writing the pod CIDR string as comma-free fields joined by
   * commas, the CIDR list is those fields trimmed, in order.
   */
  lemma PodCidrListFields(podCidrs: string, fields: seq<string>)
    requires |fields| > 0 && Join(fields, ',') == podCidrs
    requires forall i :: 0 <= i < |fields| ==> ',' !in fields[i]
    ensures |PodCidrList(podCidrs)| == |fields|
    ensures forall i :: 0 <= i < |fields| ==> PodCidrList(podCidrs)[i] == TrimSpace(fields[i])
  {
    SplitJoin(fields, ',');
  }

  /** The rendering steps in the order the operation runs them. */
  function RenderStages(config: Config, data: CniConfigTemplate): seq<Call> {
    [ ParseTemplate(config.networkPluginConfTemplate),
      MkdirAll(config.networkPluginConfDir),
      OpenFile(config.networkPluginConfDir, CniConfigFileName),
      Execute(data) ]
  }

  /** Position of `OpenFile` in `RenderStages`: once it succeeds the file is closed on return. */
  const OpenStage: nat := 2

  /** Index of the first stage that fails, or `|stages|` when all succeed. */
  function FirstFailure(stages: seq<Call>, env: Env): (k: nat)
    ensures k <= |stages|
    ensures forall j :: 0 <= j < k ==> env.succeeds(stages[j])
    ensures k < |stages| ==> !env.succeeds(stages[k])
  {
    if |stages| == 0 || !env.succeeds(stages[0]) then 0
    else 1 + FirstFailure(stages[1..], env)
  }

  /** The first failing stage is the one before which every stage succeeds and which itself fails. */
  lemma FirstFailureAt(stages: seq<Call>, env: Env, k: nat)
    requires k <= |stages|
    requires forall j :: 0 <= j < k ==> env.succeeds(stages[j])
    requires k < |stages| ==> !env.succeeds(stages[k])
    ensures FirstFailure(stages, env) == k
  {
  }

  /** Render the template: run the stages until the first failure; close the file if it was opened. */
  function Render(config: Config, data: CniConfigTemplate, env: Env): (r: (Outcome, seq<Call>))
    ensures |r.1| > 0 && r.1[0] == ParseTemplate(config.networkPluginConfTemplate)
    ensures r.0.Generated? ==> r.0.data == data && r.1 == RenderStages(config, data) + [CloseFile]
    ensures r.0.Failed? ==> r.0.failure.StageFailed? && r.1[|r.1| - 1] in {r.0.failure.stage, CloseFile}
    ensures !r.0.Skipped?
    ensures CloseFile in r.1 <==>
      OpenFile(config.networkPluginConfDir, CniConfigFileName) in r.1 && env.succeeds(OpenFile(config.networkPluginConfDir, CniConfigFileName))
  {
    var stages := RenderStages(config, data);
    var k := FirstFailure(stages, env);
    var open := OpenFile(config.networkPluginConfDir, CniConfigFileName);
    assert stages[OpenStage] == open && CloseFile !in stages;
    assert forall j :: 0 <= j < |stages| && j != OpenStage ==> stages[j] != open;
    if k < |stages| then
      assert open in stages[..k + 1] <==> k >= OpenStage;
      (Failed(StageFailed(stages[k])), if k > OpenStage then stages[..k + 1] + [CloseFile] else stages[..k + 1])
    else (Generated(data), stages + [CloseFile])
  }

  /** The decision ladder of `UpdateRuntimeConfig`, with the plugin check as one decision. */
  function Reconcile(podCidrs: string, config: Config, env: Env): (r: (Outcome, seq<Call>))
    ensures |r.1| > 0 ==> r.1[0] == PluginStatus
    ensures r.0.Failed? && r.0.failure.InvalidCidr? ==> r.1 == []
    ensures r.0.Generated? ==> |r.1| == 7 && r.1[1] == PluginLoad && r.1[6] == CloseFile
    ensures r.0.Generated? ==> r.1[2..6] == RenderStages(config, r.0.data)
  {
    if podCidrs == "" then (Skipped(EmptyPodCidrs), [])
    else ReconcileCidrs(PodCidrList(podCidrs), config, env)
  }

  /** The ladder once the CIDR list is known: routes, template setting, plugin, render. */
  function ReconcileCidrs(cidrs: seq<string>, config: Config, env: Env): (r: (Outcome, seq<Call>))
    requires |cidrs| > 0
    ensures |r.1| > 0 ==> r.1[0] == PluginStatus
    ensures r.0.Failed? && r.0.failure.InvalidCidr? ==> r.1 == [] && r.0.failure.cidr in cidrs
    ensures r.0.Generated? ==> |r.1| == 7 && r.1[1] == PluginLoad && r.1[6] == CloseFile
    ensures r.0.Generated? ==> r.1[2..6] == RenderStages(config, r.0.data)
    ensures r.0.Generated? ==> r.0.data.podCidr == cidrs[0] && r.0.data.podCidrRanges == cidrs
  {
    match Routes(cidrs, env.parseCidr)
    case Err(c) => (Failed(InvalidCidr(c)), [])
    case Ok(routes) =>
      if config.networkPluginConfTemplate == "" then (Skipped(NoTemplate), [])
      else
        match PluginDecision(env)
        case Managed => (Skipped(PluginReady), [PluginStatus])
        case AlreadyConfigured => (Skipped(ConfigLoaded), [PluginStatus, PluginLoad])
        case NeedsGeneration =>
          var rendered := Render(config, CniConfigTemplate(cidrs[0], cidrs, routes), env);
          (rendered.0, [PluginStatus, PluginLoad] + rendered.1)
  }

  /** Split the pod CIDR string on commas, then trim each field in place. */
  method SplitAndTrim(podCidrs: string) returns (cidrs: seq<string>)
    ensures cidrs == PodCidrList(podCidrs)
  {
    var parts := Split(podCidrs, ',');
    var fields := new string[|parts|](i requires 0 <= i < |parts| => parts[i]);
    for i := 0 to fields.Length
      invariant forall j :: 0 <= j < i ==> fields[j] == TrimSpace(parts[j])
      invariant forall j :: i <= j < fields.Length ==> fields[j] == parts[j]
    {
      fields[i] := TrimSpace(fields[i]);
    }
    cidrs := fields[..];
  }

  /**
   * `UpdateRuntimeConfig`: split and trim the CIDRs in place, compute the
   * routes, then return early or render, as `Reconcile` describes.
   */
  method UpdateRuntimeConfig(podCidrs: string, config: Config, env: Env) returns (outcome: Outcome, calls: seq<Call>)
    ensures (outcome, calls) == Reconcile(podCidrs, config, env)
  {
    calls := [];
    if podCidrs == "" {
      return Skipped(EmptyPodCidrs), calls;
    }
    var cidrs := SplitAndTrim(podCidrs);
    var routes := GetRoutes(cidrs, env.parseCidr);
    if routes.Err? {
      return Failed(InvalidCidr(routes.error)), calls;
    }
    var confTemplate := config.networkPluginConfTemplate;
    if confTemplate == "" {
      return Skipped(NoTemplate), calls;
    }
    calls := [PluginStatus];
    if env.succeeds(PluginStatus) {
      assert PluginDecision(env) == Managed;
      return Skipped(PluginReady), calls;
    }
    calls := calls + [PluginLoad];
    if env.succeeds(PluginLoad) {
      assert PluginDecision(env) == AlreadyConfigured;
      assert calls == [PluginStatus, PluginLoad];
      return Skipped(ConfigLoaded), calls;
    }
    var data := CniConfigTemplate(cidrs[0], cidrs, routes.value);
    assert PluginDecision(env) == NeedsGeneration;
    var renderCalls;
    outcome, renderCalls := RenderTemplate(config, data, env);
    calls := calls + renderCalls;
  }

  /**
   * The rendering part of `UpdateRuntimeConfig`: parse the template, create the
   * directory, open the file, execute the template; stop at the first failure.
   */
  method RenderTemplate(config: Config, data: CniConfigTemplate, env: Env) returns (outcome: Outcome, calls: seq<Call>)
    ensures (outcome, calls) == Render(config, data, env)
  {
    ghost var stages := RenderStages(config, data);
    var confTemplate := config.networkPluginConfTemplate;
    calls := [ParseTemplate(confTemplate)];
    if !env.succeeds(ParseTemplate(confTemplate)) {
      FirstFailureAt(stages, env, 0);
      assert calls == stages[..1];
      return Failed(StageFailed(ParseTemplate(confTemplate))), calls;
    }
    var dir := config.networkPluginConfDir;
    calls := calls + [MkdirAll(dir)];
    if !env.succeeds(MkdirAll(dir)) {
      FirstFailureAt(stages, env, 1);
      assert calls == stages[..2];
      return Failed(StageFailed(MkdirAll(dir))), calls;
    }
    calls := calls + [OpenFile(dir, CniConfigFileName)];
    if !env.succeeds(OpenFile(dir, CniConfigFileName)) {
      FirstFailureAt(stages, env, 2);
      assert calls == stages[..3];
      return Failed(StageFailed(OpenFile(dir, CniConfigFileName))), calls;
    }
    calls := calls + [Execute(data)];
    if !env.succeeds(Execute(data)) {
      FirstFailureAt(stages, env, 3);
      assert calls == stages[..4];
      return Failed(StageFailed(Execute(data))), calls + [CloseFile];
    }
    FirstFailureAt(stages, env, 4);
    assert calls == stages;
    return Generated(data), calls + [CloseFile];
  }

  // ---------------------------------------------------------------------------
  // Properties of the decision ladder
  // ---------------------------------------------------------------------------

  /** An empty pod CIDR string succeeds at once: no parsing, no plugin query, no rendering. */
  lemma EmptyPodCidrsIsNoOp(config: Config, env: Env)
    ensures Reconcile("", config, env) == (Skipped(EmptyPodCidrs), [])
  {
  }

  /**
   * A CIDR that does not parse fails the request with that CIDR (the first
   * such), before the template setting or the plugin is consulted.
   */
  lemma InvalidCidrFailsFirst(cidrs: seq<string>, config: Config, env: Env, i: int)
    requires FirstUnparsableAt(cidrs, env.parseCidr, i)
    ensures ReconcileCidrs(cidrs, config, env) == (Failed(InvalidCidr(cidrs[i])), [])
  {
    RoutesMeaning(cidrs, env.parseCidr);
  }

  /**
   * When the empty string does not parse as a CIDR, a pod CIDR string with a
   * field that is blank after trimming (as in `"10.0.0.0/16, "`) fails the
   * request even when no template is configured.
   */
  lemma BlankFieldFails(podCidrs: string, config: Config, env: Env, i: int)
    requires podCidrs != "" && env.parseCidr("") == None
    requires 0 <= i < |PodCidrList(podCidrs)| && PodCidrList(podCidrs)[i] == ""
    ensures Reconcile(podCidrs, config, env).0.Failed?
    ensures Reconcile(podCidrs, config, env).0.failure.InvalidCidr?
    ensures Reconcile(podCidrs, config, env).1 == []
  {
    var cidrs := PodCidrList(podCidrs);
    FirstUnparsableExists(cidrs, env.parseCidr, i);
    var k :| FirstUnparsableAt(cidrs, env.parseCidr, k);
    InvalidCidrFailsFirst(cidrs, config, env, k);
  }

  /**
   * With valid CIDRs: no template means success without any call; a ready
   * plugin means success after one status query; a loadable config means
   * success after the status query and the load; otherwise rendering starts
   * with parsing the template.
   */
  lemma DecisionOrder(cidrs: seq<string>, config: Config, env: Env)
    requires |cidrs| > 0 && Routes(cidrs, env.parseCidr).Ok?
    ensures config.networkPluginConfTemplate == "" ==>
      ReconcileCidrs(cidrs, config, env) == (Skipped(NoTemplate), [])
    ensures config.networkPluginConfTemplate != "" && env.succeeds(PluginStatus) ==>
      ReconcileCidrs(cidrs, config, env) == (Skipped(PluginReady), [PluginStatus])
    ensures config.networkPluginConfTemplate != "" && !env.succeeds(PluginStatus) && env.succeeds(PluginLoad) ==>
      ReconcileCidrs(cidrs, config, env) == (Skipped(ConfigLoaded), [PluginStatus, PluginLoad])
    ensures config.networkPluginConfTemplate != "" && !env.succeeds(PluginStatus) && !env.succeeds(PluginLoad) ==>
      var r := ReconcileCidrs(cidrs, config, env);
      && (r.0.Generated? || (r.0.Failed? && r.0.failure.StageFailed?))
      && |r.1| >= 3 && r.1[..3] == [PluginStatus, PluginLoad, ParseTemplate(config.networkPluginConfTemplate)]
  {
  }

  /** A render failure names the first stage that failed; no later stage runs, and the file is closed iff it was opened. */
  lemma RenderStopsAtFirstFailure(config: Config, data: CniConfigTemplate, env: Env)
    ensures var r := Render(config, data, env); var stages := RenderStages(config, data);
      && (r.0.Generated? <==> forall j :: 0 <= j < |stages| ==> env.succeeds(stages[j]))
      && (r.0.Generated? ==> r.0.data == data && r.1 == stages + [CloseFile])
      && (r.0.Failed? ==> exists k :: FailedAtStage(stages, env, k, r))
  {
    var r := Render(config, data, env);
    var stages := RenderStages(config, data);
    var k := FirstFailure(stages, env);
    if k < |stages| {
      assert FailedAtStage(stages, env, k, r);
    }
  }

  /** The render run `r` failed at stage `k`, after every earlier stage succeeded, and called nothing later. */
  ghost predicate FailedAtStage(stages: seq<Call>, env: Env, k: int, r: (Outcome, seq<Call>)) {
    && 0 <= k < |stages|
    && r.0 == Failed(StageFailed(stages[k]))
    && !env.succeeds(stages[k])
    && (forall j :: 0 <= j < k ==> env.succeeds(stages[j]))
    && r.1 == stages[..k + 1] + (if k > OpenStage then [CloseFile] else [])
  }

  /**
   * A generated config holds exactly PodCIDR = cidrs[0], PodCIDRRanges = cidrs
   * and Routes = getRoutes(cidrs), whose IPv4 and IPv6 default routes match the
   * families present; it is written only when no plugin is set up and every
   * render stage succeeded.
   */
  lemma GeneratedConfig(cidrs: seq<string>, config: Config, env: Env)
    requires |cidrs| > 0 && ReconcileCidrs(cidrs, config, env).0.Generated?
    ensures config.networkPluginConfTemplate != ""
    ensures PluginDecision(env) == NeedsGeneration
    ensures var data := ReconcileCidrs(cidrs, config, env).0.data;
      && data.podCidr == cidrs[0]
      && data.podCidrRanges == cidrs
      && Routes(cidrs, env.parseCidr) == Ok(data.routes)
      && (ZeroCidrV4 in data.routes <==> exists i :: 0 <= i < |cidrs| && env.parseCidr(cidrs[i]) == Some(IPv4))
      && (ZeroCidrV6 in data.routes <==> exists i :: 0 <= i < |cidrs| && env.parseCidr(cidrs[i]) == Some(IPv6))
      && ReconcileCidrs(cidrs, config, env).1 == [PluginStatus, PluginLoad] + RenderStages(config, data) + [CloseFile]
  {
    RoutesMeaning(cidrs, env.parseCidr);
    var data := CniConfigTemplate(cidrs[0], cidrs, Routes(cidrs, env.parseCidr).value);
    RenderStopsAtFirstFailure(config, data, env);
  }

  /**
   * A pod CIDR string without commas and without surrounding white space is
   * the whole CIDR list; if it is an IPv4 network the only route is `0.0.0.0/0`
   * (as for `"10.244.1.0/24"`).
   */
  lemma SingleIpv4Cidr(podCidr: string, parse: string -> Option<IpFamily>)
    requires podCidr != "" && ',' !in podCidr
    requires !IsSpace(podCidr[0]) && !IsSpace(podCidr[|podCidr| - 1])
    requires parse(podCidr) == Some(IPv4)
    ensures PodCidrList(podCidr) == [podCidr]
    ensures Routes(PodCidrList(podCidr), parse) == Ok([ZeroCidrV4])
  {
    SplitNoSeparator(podCidr, ',');
    assert TrimLeftSpace(podCidr) == podCidr;
    assert TrimRightSpace(podCidr) == podCidr;
    assert PodCidrList(podCidr) == [podCidr];
    assert [podCidr][..0] == [];
    assert ScanFamilies([podCidr], parse) == Ok(Flags(true, false));
    assert DefaultRoutes(Flags(true, false)) == [ZeroCidrV4];
  }
}
