/**
 * Steps 2 to 5 of the provisioning script and the script as a whole. The cloud is not
 * called: each API call's outcome is an input (a reply or the error it raises), and what the
 * script does to the cloud is the sequence of requests it issues, in order. A `ClientError`
 * carries its error code and its text (`str(e)`); any other exception is an `OtherError`.
 */
module Provision {
  import opened Wrappers
  import opened Text
  import opened Placeholders
  import opened Extract
  import opened ConfigWriter

  datatype ApiError = ClientError(code: string, message: string) | OtherError(kind: string)

  /** What one API call gives back: its value, or the exception it raises. */
  type Reply<T> = Result<T, ApiError>

  const AlreadyExists := "EntityAlreadyExists"
  const ClusterNotFound := "ClusterNotFound"
  const DuplicateRule := "InvalidPermission.Duplicate"
  const Available := "available"
  const PollSeconds: nat := 30
  const RolePath := "/"
  const RoleDescription := "Allows Redshift clusters to call AWS services on your behalf."
  const AssumeRolePolicy :=
    "{\"Statement\": [{\"Effect\": \"Allow\", \"Principal\": {\"Service\": \"redshift.amazonaws.com\"}, "
    + "\"Action\": \"sts:AssumeRole\"}], \"Version\": \"2012-10-17\"}"
  const ReadOnlyPolicy := "arn:aws:iam::aws:policy/AmazonS3ReadOnlyAccess"
  const AnyAddress := "0.0.0.0/0"
  const Tcp := "TCP"
  /** The exception Step 5 raises itself; it is not a `ClientError`. */
  const NoSecurityGroups := OtherError("No security groups found in VPC.")
  /** `['Clusters'][0]` on an empty list. */
  const NoClusterListed := OtherError("IndexError")
  /** A descriptor without the field the script reads. */
  const MissingField := OtherError("KeyError")

  datatype ClusterSpec = ClusterSpec(
    clusterType: Option<string>,
    nodeType: Option<string>,
    numberOfNodes: int,
    dbName: Option<string>,
    clusterIdentifier: Option<string>,
    masterUsername: Option<string>,
    masterUserPassword: Option<string>,
    iamRoles: seq<string>,
    publiclyAccessible: bool)

  datatype IngressRule = IngressRule(groupName: string, cidrIp: string, ipProtocol: string, fromPort: int, toPort: int)

  /** The requests the script sends, with the arguments it passes. */
  datatype Request =
    | CreateRole(path: string, roleName: Option<string>, description: string, policyDocument: string)
    | AttachRolePolicy(roleName: Option<string>, policyArn: string)
    | GetRole(roleName: Option<string>)
    | CreateCluster(spec: ClusterSpec)
    | DescribeClusters(clusterIdentifier: Option<string>)
    | Sleep(seconds: nat)
    | ListSecurityGroups(vpcId: string)
    | AuthorizeIngress(rule: IngressRule)

  /** The cluster descriptor fields the script reads; a field the reply lacks is `None`. */
  datatype ClusterProps = ClusterProps(status: Option<string>, endpointAddress: Option<string>, vpcId: Option<string>)

  datatype SecurityGroup = SecurityGroup(groupName: string)

  predicate HasCode(e: ApiError, code: string) {
    e.ClientError? && e.code == code
  }

  function CreateRoleRequest(roleName: Option<string>): Request {
    CreateRole(RolePath, roleName, RoleDescription, AssumeRolePolicy)
  }

  // ---------------------------------------------------------------- Step 2

  /** The `except` clause of Step 2 lets the script go on only when the role already exists. */
  predicate RoleCreationTolerated(create: Reply<()>) {
    create.Ok? || HasCode(create.error, AlreadyExists)
  }

  /**
   * Step 2: create the role, attach the read-only S3 policy (always, once creation did not
   * abort) and read the role's ARN.
   */
  method CreateIamRole(roleName: Option<string>, create: Reply<()>, attach: Reply<()>, getRole: Reply<string>)
    returns (roleArn: Reply<string>, issued: seq<Request>)
    ensures |issued| >= 1 && issued[0] == CreateRoleRequest(roleName)
    ensures !RoleCreationTolerated(create) ==> issued == [CreateRoleRequest(roleName)] && roleArn == Err(create.error)
    ensures RoleCreationTolerated(create) ==> |issued| >= 2 && issued[1] == AttachRolePolicy(roleName, ReadOnlyPolicy)
    ensures RoleCreationTolerated(create) && attach.Err? ==> |issued| == 2 && roleArn == Err(attach.error)
    ensures RoleCreationTolerated(create) && attach.Ok? ==>
      issued == [CreateRoleRequest(roleName), AttachRolePolicy(roleName, ReadOnlyPolicy), GetRole(roleName)] &&
      roleArn == getRole
  {
    issued := [CreateRoleRequest(roleName)];
    if create.Err? {
      if create.error.ClientError? && create.error.code == AlreadyExists {
        // the role is there already: go on
      } else {
        return Err(create.error), issued;
      }
    }
    issued := issued + [AttachRolePolicy(roleName, ReadOnlyPolicy)];
    if attach.Err? {
      return Err(attach.error), issued;
    }
    issued := issued + [GetRole(roleName)];
    roleArn := getRole;
  }

  // ---------------------------------------------------------------- Step 3

  /** Step 3: any `ClientError` from cluster creation is reported and ignored. */
  method CreateRedshiftCluster(spec: ClusterSpec, create: Reply<()>) returns (r: Result<(), ApiError>, issued: seq<Request>)
    ensures issued == [CreateCluster(spec)]
    ensures r.Ok? <==> create.Ok? || create.error.ClientError?
    ensures r.Err? ==> r.error == create.error
  {
    issued := [CreateCluster(spec)];
    if create.Err? && !create.error.ClientError? {
      return Err(create.error), issued;
    }
    r := Ok(());
  }

  // ---------------------------------------------------------------- Step 4

  /** A reply to `describe_clusters`: the listed clusters, or an exception. */
  type DescribeReply = Reply<seq<ClusterProps>>

  /** The replies after which the loop sleeps and asks again. */
  predicate KeepsWaiting(d: DescribeReply) {
    if d.Err? then HasCode(d.error, ClusterNotFound)
    else |d.value| > 0 && d.value[0].status.Some? && d.value[0].status.value != Available
  }

  /** The first reply that ends the loop, or `|ds|` when every reply keeps it waiting. */
  function FirstStop(ds: seq<DescribeReply>): (k: nat)
    ensures k <= |ds|
    ensures forall j :: 0 <= j < k ==> KeepsWaiting(ds[j])
    ensures k < |ds| ==> !KeepsWaiting(ds[k])
  {
    if ds == [] || !KeepsWaiting(ds[0]) then 0 else 1 + FirstStop(ds[1..])
  }

  datatype PollResult = Ready(props: ClusterProps) | PollFailed(error: ApiError) | StillWaiting

  /** `n` rounds of the loop that did not end it: ask, then sleep. */
  function Waits(id: Option<string>, n: nat): seq<Request> {
    if n == 0 then [] else Waits(id, n - 1) + [DescribeClusters(id), Sleep(PollSeconds)]
  }

  /**
   * Step 4: ask for the cluster until it is `available`, sleeping after every other
   * answer and after `ClusterNotFoundFault`; any other exception ends the script, among them
   * the `IndexError` of an empty cluster list and the `KeyError` of a descriptor without a
   * status. The loop
   * has no bound; here it ends with `StillWaiting` when the scripted replies run out.
   */
  method WaitForCluster(id: Option<string>, describes: seq<DescribeReply>) returns (r: PollResult, issued: seq<Request>)
    ensures r.StillWaiting? <==> FirstStop(describes) == |describes|
    ensures r.StillWaiting? ==> issued == Waits(id, |describes|)
    ensures !r.StillWaiting? ==> issued == Waits(id, FirstStop(describes)) + [DescribeClusters(id)]
    ensures r.Ready? ==>
      describes[FirstStop(describes)].Ok? && describes[FirstStop(describes)].value != [] &&
      r.props == describes[FirstStop(describes)].value[0] && r.props.status == Some(Available)
    ensures r.PollFailed? ==>
      (describes[FirstStop(describes)].Err? && r.error == describes[FirstStop(describes)].error &&
       !HasCode(r.error, ClusterNotFound)) ||
      (describes[FirstStop(describes)] == Ok([]) && r.error == NoClusterListed) ||
      (describes[FirstStop(describes)].Ok? && describes[FirstStop(describes)].value != [] &&
       describes[FirstStop(describes)].value[0].status.None? && r.error == MissingField)
  {
    var i := 0;
    issued := [];
    while i < |describes|
      invariant i <= |describes|
      invariant forall j :: 0 <= j < i ==> KeepsWaiting(describes[j])
      invariant issued == Waits(id, i)
    {
      issued := issued + [DescribeClusters(id)];
      var reply := describes[i];
      if reply.Err? {
        if !(reply.error.ClientError? && reply.error.code == ClusterNotFound) {
          return PollFailed(reply.error), issued;
        }
      } else {
        if |reply.value| == 0 {
          return PollFailed(NoClusterListed), issued;
        }
        var props := reply.value[0];
        if props.status.None? {
          return PollFailed(MissingField), issued;
        }
        if props.status.value == Available {
          return Ready(props), issued;
        }
      }
      issued := issued + [Sleep(PollSeconds)];
      i := i + 1;
    }
    r := StillWaiting;
  }

  /** How many times `x` occurs in `rs`. */
  function Count(rs: seq<Request>, x: Request): (n: nat)
    ensures n <= |rs|
  {
    if rs == [] then 0 else Count(rs[..|rs| - 1], x) + (if rs[|rs| - 1] == x then 1 else 0)
  }

  lemma {:induction false} CountAppend(a: seq<Request>, b: seq<Request>, x: Request)
    ensures Count(a + b, x) == Count(a, x) + Count(b, x)
    decreases |b|
  {
    if b == [] {
      assert a + b == a;
    } else {
      assert (a + b)[..|a + b| - 1] == a + b[..|b| - 1];
      CountAppend(a, b[..|b| - 1], x);
    }
  }

  /** Each round that does not end the loop asks once and sleeps 30 seconds once. */
  lemma {:induction false} WaitsCounts(id: Option<string>, n: nat)
    ensures Count(Waits(id, n), DescribeClusters(id)) == n
    ensures Count(Waits(id, n), Sleep(PollSeconds)) == n
    ensures |Waits(id, n)| == 2 * n
  {
    if n > 0 {
      WaitsCounts(id, n - 1);
      var pair := [DescribeClusters(id), Sleep(PollSeconds)];
      CountAppend(Waits(id, n - 1), pair, DescribeClusters(id));
      CountAppend(Waits(id, n - 1), pair, Sleep(PollSeconds));
      assert pair[..1] == [DescribeClusters(id)] && [DescribeClusters(id)][..0] == [];
    }
  }

  /**
   * When the cluster becomes available, the number of describe calls is the index of the
   * first reply that ends the loop plus one, every earlier reply was "not found" or
   * another status, and the loop slept once per earlier reply.
   */
  lemma PollCounts(id: Option<string>, describes: seq<DescribeReply>, k: nat)
    requires k < |describes| && describes[k].Ok? && describes[k].value != [] &&
      describes[k].value[0].status == Some(Available)
    requires forall j :: 0 <= j < k ==> KeepsWaiting(describes[j])
    ensures FirstStop(describes) == k
    ensures var issued := Waits(id, k) + [DescribeClusters(id)];
      Count(issued, DescribeClusters(id)) == k + 1 && Count(issued, Sleep(PollSeconds)) == k
  {
    WaitsCounts(id, k);
    CountAppend(Waits(id, k), [DescribeClusters(id)], DescribeClusters(id));
    CountAppend(Waits(id, k), [DescribeClusters(id)], Sleep(PollSeconds));
    assert [DescribeClusters(id)][..0] == [];
  }

  // ---------------------------------------------------------------- Step 5

  /** The `except` clause of Step 5 swallows a `ClientError` whose text names a duplicate rule. */
  predicate IngressTolerated(e: ApiError) {
    e.ClientError? && Contains(e.message, DuplicateRule)
  }

  /** The rule Step 5 adds to the first security group: TCP on the database port from anywhere. */
  function OpenRule(group: SecurityGroup, port: int): (rule: IngressRule)
    ensures rule.cidrIp == AnyAddress && rule.ipProtocol == Tcp && rule.groupName == group.groupName
    ensures rule.fromPort == port && rule.toPort == port
  {
    IngressRule(group.groupName, AnyAddress, Tcp, port, port)
  }

  /**
   * Step 5: list the VPC's security groups and open the database port on the first one.
   * An empty list raises an exception that is not a `ClientError`, so it is not caught.
   */
  method OpenPort(vpcId: string, port: int, groups: Reply<seq<SecurityGroup>>, authorize: Reply<()>)
    returns (r: Result<(), ApiError>, issued: seq<Request>)
    ensures |issued| >= 1 && issued[0] == ListSecurityGroups(vpcId)
    ensures groups.Err? ==>
      issued == [ListSecurityGroups(vpcId)] &&
      (r.Ok? <==> IngressTolerated(groups.error)) && (r.Err? ==> r.error == groups.error)
    ensures groups == Ok([]) ==> issued == [ListSecurityGroups(vpcId)] && r == Err(NoSecurityGroups)
    ensures groups.Ok? && groups.value != [] ==>
      issued == [ListSecurityGroups(vpcId), AuthorizeIngress(OpenRule(groups.value[0], port))] &&
      (r.Ok? <==> authorize.Ok? || IngressTolerated(authorize.error)) &&
      (r.Err? ==> r.error == authorize.error)
  {
    issued := [ListSecurityGroups(vpcId)];
    var e: ApiError;
    if groups.Err? {
      e := groups.error;
    } else if groups.value == [] {
      return Err(NoSecurityGroups), issued;
    } else {
      var defaultGroup := groups.value[0];
      issued := issued + [AuthorizeIngress(OpenRule(defaultGroup, port))];
      if authorize.Ok? {
        return Ok(()), issued;
      }
      e := authorize.error;
    }
    if e.ClientError? && Contains(e.message, DuplicateRule) {
      r := Ok(());
    } else {
      r := Err(e);
    }
  }

  // ---------------------------------------------------------------- the whole script

  /** The outcome of every API call the script can make, in the order it makes them. */
  datatype CloudScript = CloudScript(
    createRole: Reply<()>,
    attachPolicy: Reply<()>,
    getRole: Reply<string>,
    createCluster: Reply<()>,
    describes: seq<DescribeReply>,
    securityGroups: Reply<seq<SecurityGroup>>,
    authorize: Reply<()>)

  datatype RunOutcome =
    | Completed(endpoint: string, roleArn: string)
    | SettingsFailed(loadError: LoadError)
    | Raised(error: ApiError)
    | ConfigFailed(configError: ConfigError)
    | StillPolling

  /** The `create_cluster` arguments of Step 3: every setting but the port and the role name, the role, public access. */
  function ClusterRequest(s: Settings, roleArn: string): (spec: ClusterSpec)
    ensures spec.clusterType == s.clusterType && spec.nodeType == s.nodeType && spec.numberOfNodes == s.numNodes
    ensures spec.dbName == s.db && spec.clusterIdentifier == s.clusterIdentifier
    ensures spec.masterUsername == s.dbUser && spec.masterUserPassword == s.dbPassword
    ensures spec.iamRoles == [roleArn] && spec.publiclyAccessible
  {
    ClusterSpec(s.clusterType, s.nodeType, s.numNodes, s.db, s.clusterIdentifier, s.dbUser, s.dbPassword,
      [roleArn], true)
  }

  /** Step 3 goes on after a successful call or any `ClientError`. */
  predicate ClusterCreationTolerated(create: Reply<()>) {
    create.Ok? || create.error.ClientError?
  }

  /** The reply that ends the Step 4 loop lists a cluster whose status is `available`. */
  predicate ClusterReady(ds: seq<DescribeReply>) {
    var k := FirstStop(ds);
    k < |ds| && ds[k].Ok? && ds[k].value != [] && ds[k].value[0].status == Some(Available)
  }

  /** The descriptor `cluster_props` holds after the Step 4 loop. */
  function ReadyProps(ds: seq<DescribeReply>): ClusterProps
    requires ClusterReady(ds)
  {
    ds[FirstStop(ds)].value[0]
  }

  /** Step 5 goes on: the rule was added or was there already, including a tolerated error from the listing. */
  predicate IngressSucceeds(groups: Reply<seq<SecurityGroup>>, authorize: Reply<()>) {
    if groups.Err? then IngressTolerated(groups.error)
    else groups.value != [] && (authorize.Ok? || IngressTolerated(authorize.error))
  }

  /** The calls of Step 5: the listing and, when it gave a group, the rule for the first one. */
  function IngressRequests(vpcId: string, port: int, groups: Reply<seq<SecurityGroup>>): seq<Request> {
    if groups.Ok? && groups.value != [] then
      [ListSecurityGroups(vpcId), AuthorizeIngress(OpenRule(groups.value[0], port))]
    else [ListSecurityGroups(vpcId)]
  }

  /** Step 2 gives an ARN: the creation is tolerated and the attach and the lookup succeed. */
  predicate RoleReady(cloud: CloudScript) {
    RoleCreationTolerated(cloud.createRole) && cloud.attachPolicy.Ok? && cloud.getRole.Ok?
  }

  /** Steps 2 and 3 pass, so the script enters the Step 4 loop. */
  predicate ClusterStarted(cloud: CloudScript) {
    RoleReady(cloud) && ClusterCreationTolerated(cloud.createCluster)
  }

  /** The replies with which Steps 2 to 5 reach Step 6 without an exception. */
  predicate CloudSucceeds(cloud: CloudScript) {
    ClusterStarted(cloud) && ClusterReady(cloud.describes) &&
    ReadyProps(cloud.describes).endpointAddress.Some? && ReadyProps(cloud.describes).vpcId.Some? &&
    IngressSucceeds(cloud.securityGroups, cloud.authorize)
  }

  /** The calls of Steps 2 and 3 when the role's ARN is `roleArn`. */
  function StartTrace(s: Settings, roleArn: string): seq<Request> {
    [CreateRoleRequest(s.iamRoleName), AttachRolePolicy(s.iamRoleName, ReadOnlyPolicy), GetRole(s.iamRoleName),
     CreateCluster(ClusterRequest(s, roleArn))]
  }

  /** The calls of Steps 2 to 4 when the loop ends at the reply it stops on. */
  function PollTrace(s: Settings, cloud: CloudScript): seq<Request>
    requires RoleReady(cloud)
  {
    StartTrace(s, cloud.getRole.value) + Waits(s.clusterIdentifier, FirstStop(cloud.describes)) +
    [DescribeClusters(s.clusterIdentifier)]
  }

  /** The API calls of Steps 2 to 5, in order, on a run that reaches Step 6. */
  function SuccessTrace(s: Settings, cloud: CloudScript): seq<Request>
    requires CloudSucceeds(cloud)
  {
    PollTrace(s, cloud) + IngressRequests(ReadyProps(cloud.describes).vpcId.value, s.port, cloud.securityGroups)
  }

  /**
   * The exception raised by a reply that ends the Step 4 loop without `available`: the
   * reply's own error, `IndexError` for an empty list, `KeyError` for a missing status.
   */
  function PollError(d: DescribeReply): ApiError {
    if d.Err? then d.error else if d.value == [] then NoClusterListed else MissingField
  }

  /** The exception that escapes Step 5 when it does not succeed. */
  function IngressError(groups: Reply<seq<SecurityGroup>>, authorize: Reply<()>): ApiError
    requires !IngressSucceeds(groups, authorize)
  {
    if groups.Err? then groups.error else if groups.value == [] then NoSecurityGroups else authorize.error
  }

  /**
   * How a run of Steps 2 to 5 stops short of Step 6, step by step: the exception it raises
   * and the calls made up to it, or the loop still polling after every reply kept it waiting.
   */
  predicate StopsAsScripted(s: Settings, cloud: CloudScript, outcome: RunOutcome, issued: seq<Request>) {
    StopsBeforeLoop(s, cloud, outcome, issued) && StopsFromLoop(s, cloud, outcome, issued)
  }

  /** Steps 2 and 3: the first call whose reply is not tolerated raises, after the calls up to it. */
  predicate StopsBeforeLoop(s: Settings, cloud: CloudScript, outcome: RunOutcome, issued: seq<Request>) {
    var name := s.iamRoleName;
    (!RoleCreationTolerated(cloud.createRole) ==>
       outcome == Raised(cloud.createRole.error) && issued == [CreateRoleRequest(name)]) &&
    (RoleCreationTolerated(cloud.createRole) && cloud.attachPolicy.Err? ==>
       outcome == Raised(cloud.attachPolicy.error) &&
       issued == [CreateRoleRequest(name), AttachRolePolicy(name, ReadOnlyPolicy)]) &&
    (RoleCreationTolerated(cloud.createRole) && cloud.attachPolicy.Ok? && cloud.getRole.Err? ==>
       outcome == Raised(cloud.getRole.error) &&
       issued == [CreateRoleRequest(name), AttachRolePolicy(name, ReadOnlyPolicy), GetRole(name)]) &&
    (RoleReady(cloud) && !ClusterCreationTolerated(cloud.createCluster) ==>
       outcome == Raised(cloud.createCluster.error) && issued == StartTrace(s, cloud.getRole.value))
  }

  /**
   * Steps 4 and 5, once the loop is entered: still polling after every reply kept it waiting,
   * or the exception of the reply that ended it, of a missing field, or of Step 5.
   */
  predicate StopsFromLoop(s: Settings, cloud: CloudScript, outcome: RunOutcome, issued: seq<Request>) {
    var ds := cloud.describes;
    (outcome.StillPolling? <==> ClusterStarted(cloud) && FirstStop(ds) == |ds|) &&
    (ClusterStarted(cloud) && FirstStop(ds) == |ds| ==>
       issued == StartTrace(s, cloud.getRole.value) + Waits(s.clusterIdentifier, |ds|)) &&
    (ClusterStarted(cloud) && FirstStop(ds) < |ds| && !ClusterReady(ds) ==>
       outcome == Raised(PollError(ds[FirstStop(ds)])) && issued == PollTrace(s, cloud)) &&
    (ClusterStarted(cloud) && ClusterReady(ds) &&
     (ReadyProps(ds).endpointAddress.None? || ReadyProps(ds).vpcId.None?) ==>
       outcome == Raised(MissingField) && issued == PollTrace(s, cloud)) &&
    (ClusterStarted(cloud) && ClusterReady(ds) &&
     ReadyProps(ds).endpointAddress.Some? && ReadyProps(ds).vpcId.Some? &&
     !IngressSucceeds(cloud.securityGroups, cloud.authorize) ==>
       outcome == Raised(IngressError(cloud.securityGroups, cloud.authorize)) &&
       issued == PollTrace(s, cloud) + IngressRequests(ReadyProps(ds).vpcId.value, s.port, cloud.securityGroups))
  }

  /**
   * The stop conditions leave nothing open: on replies that do not reach Step 6, they fix
   * both the outcome and every call made.
   */
  lemma StopsDetermined(s: Settings, cloud: CloudScript, o1: RunOutcome, i1: seq<Request>, o2: RunOutcome, i2: seq<Request>)
    requires !CloudSucceeds(cloud)
    requires StopsAsScripted(s, cloud, o1, i1) && StopsAsScripted(s, cloud, o2, i2)
    ensures o1 == o2 && i1 == i2
  {
  }

  /** Steps 2 and 3: the role's ARN when the script goes on to the loop, and the calls made. */
  method StartCluster(s: Settings, cloud: CloudScript) returns (started: Result<string, ApiError>, issued: seq<Request>)
    ensures started.Ok? <==> ClusterStarted(cloud)
    ensures started.Ok? ==> started.value == cloud.getRole.value && issued == StartTrace(s, cloud.getRole.value)
    ensures started.Err? ==> StopsBeforeLoop(s, cloud, Raised(started.error), issued)
  {
    var roleArn, roleIssued := CreateIamRole(s.iamRoleName, cloud.createRole, cloud.attachPolicy, cloud.getRole);
    issued := roleIssued;
    if roleArn.Err? {
      return Err(roleArn.error), issued;
    }

    var created, clusterIssued := CreateRedshiftCluster(ClusterRequest(s, roleArn.value), cloud.createCluster);
    issued := issued + clusterIssued;
    if created.Err? {
      return Err(created.error), issued;
    }
    started := Ok(roleArn.value);
  }

  /**
   * Steps 4 and 5, entered after the calls `before` of Steps 2 and 3: `Completed` exactly
   * when the replies let the script reach Step 6, otherwise as `StopsFromLoop` says.
   */
  method AwaitAndOpen(s: Settings, cloud: CloudScript, before: seq<Request>) returns (outcome: RunOutcome, issued: seq<Request>)
    requires ClusterStarted(cloud) && before == StartTrace(s, cloud.getRole.value)
    ensures outcome.Completed? || outcome.Raised? || outcome.StillPolling?
    ensures outcome.Completed? <==> CloudSucceeds(cloud)
    ensures outcome.Completed? ==>
      outcome.roleArn == cloud.getRole.value &&
      outcome.endpoint == ReadyProps(cloud.describes).endpointAddress.value &&
      issued == SuccessTrace(s, cloud)
    ensures StopsFromLoop(s, cloud, outcome, issued)
  {
    var polled, pollIssued := WaitForCluster(s.clusterIdentifier, cloud.describes);
    issued := before + pollIssued;
    if polled.StillWaiting? {
      return StillPolling, issued;
    } else if polled.PollFailed? {
      return Raised(polled.error), issued;
    }
    var props := polled.props;
    if props.endpointAddress.None? {
      return Raised(MissingField), issued;
    }
    var endpoint := props.endpointAddress.value;

    if props.vpcId.None? {
      return Raised(MissingField), issued;
    }
    var ingress, ingressIssued := OpenPort(props.vpcId.value, s.port, cloud.securityGroups, cloud.authorize);
    issued := issued + ingressIssued;
    if ingress.Err? {
      return Raised(ingress.error), issued;
    }
    outcome := Completed(endpoint, cloud.getRole.value);
  }

  /**
   * Steps 2 to 5 with loaded settings: `Completed` carries the endpoint and the role's ARN
   * exactly when the replies let the script reach Step 6, and the calls made are then
   * `SuccessTrace`; otherwise the run stops as `StopsAsScripted` says.
   */
  method RunCloudSteps(s: Settings, cloud: CloudScript) returns (outcome: RunOutcome, issued: seq<Request>)
    ensures outcome.Completed? || outcome.Raised? || outcome.StillPolling?
    ensures outcome.Completed? <==> CloudSucceeds(cloud)
    ensures outcome.Completed? ==>
      outcome.roleArn == cloud.getRole.value &&
      outcome.endpoint == ReadyProps(cloud.describes).endpointAddress.value &&
      issued == SuccessTrace(s, cloud)
    ensures StopsAsScripted(s, cloud, outcome, issued)
  {
    var started, startIssued := StartCluster(s, cloud);
    if started.Err? {
      return Raised(started.error), startIssued;
    }
    outcome, issued := AwaitAndOpen(s, cloud, startIssued);
  }

  /**
   * The script from the placeholder reset to the validation, against scripted cloud replies.
   * The configuration file keeps its reset text unless the run gets to Step 6; there it holds
   * the reset text filled with the endpoint of the cluster the loop saw `available` and the
   * role's ARN, unless the substitution raised, and a completed run's text passes Step 7.
   */
  method CreateResources(cfg: TextFile, cloud: CloudScript) returns (outcome: RunOutcome, issued: seq<Request>)
    modifies cfg
    ensures LoadSettings(ResetText(old(cfg.text))).Err? ==>
      outcome == SettingsFailed(LoadSettings(ResetText(old(cfg.text))).error) && issued == []
    ensures LoadSettings(ResetText(old(cfg.text))).Ok? ==>
      (outcome.Completed? || outcome.ConfigFailed? <==> CloudSucceeds(cloud))
    ensures outcome.Completed? || outcome.ConfigFailed? ==>
      issued == SuccessTrace(LoadSettings(ResetText(old(cfg.text))).value, cloud)
    ensures LoadSettings(ResetText(old(cfg.text))).Ok? ==>
      StopsAsScripted(LoadSettings(ResetText(old(cfg.text))).value, cloud, outcome, issued)
    ensures !outcome.Completed? && !outcome.ConfigFailed? ==> cfg.text == ResetText(old(cfg.text))
    ensures outcome.Completed? ==>
      cloud.getRole == Ok(outcome.roleArn) && RoleCreationTolerated(cloud.createRole) && cloud.attachPolicy.Ok? &&
      ClusterCreationTolerated(cloud.createCluster) && IngressSucceeds(cloud.securityGroups, cloud.authorize)
    ensures outcome.Completed? ==>
      ClusterReady(cloud.describes) && ReadyProps(cloud.describes).endpointAddress == Some(outcome.endpoint)
    ensures outcome.Completed? ==>
      Fill(ResetText(old(cfg.text)), outcome.endpoint, outcome.roleArn) == Ok(cfg.text) && Validate(cfg.text).None?
    ensures outcome.ConfigFailed? ==>
      var f := Fill(ResetText(old(cfg.text)), ReadyProps(cloud.describes).endpointAddress.value, cloud.getRole.value);
      (f.Err? ==> cfg.text == ResetText(old(cfg.text)) && outcome.configError == FillFailed(f.error)) &&
      (f.Ok? ==> cfg.text == f.value && Validate(f.value).Some? && outcome.configError == NotReplaced(Validate(f.value).value))
    ensures outcome.Completed? && FillableText(old(cfg.text)) && '\n' !in outcome.endpoint && '\n' !in outcome.roleArn ==>
      ResetText(cfg.text) == ResetText(old(cfg.text))
  {
    ResetPlaceholders(cfg);
    var template := cfg.text;
    var loaded := LoadSettings(template);
    if loaded.Err? {
      return SettingsFailed(loaded.error), [];
    }

    var cloudOutcome;
    cloudOutcome, issued := RunCloudSteps(loaded.value, cloud);
    if !cloudOutcome.Completed? {
      return cloudOutcome, issued;
    }
    var endpoint, roleArn := cloudOutcome.endpoint, cloudOutcome.roleArn;

    var written := WriteConfig(cfg, template, endpoint, roleArn);
    if written.Some? {
      return ConfigFailed(written.value), issued;
    }
    outcome := Completed(endpoint, roleArn);
    if FillableText(old(cfg.text)) && '\n' !in endpoint && '\n' !in roleArn {
      RoundTrip(old(cfg.text), endpoint, roleArn);
    }
  }
}
