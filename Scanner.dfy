/**
 * The scan orchestration of `main`: every kind of resource, in a fixed
 * order; a kind whose switch is off is skipped; every resource of an enabled
 * kind is evaluated, and each non-compliant one is passed to the notifier.
 * The resources of each kind are given, as the adapter would list them.
 */
module Scanner {
  import opened Wrappers
  import opened Config
  import opened TagMatcher
  import opened PolicyEvaluator
  import opened SlackNotifier
  import opened Lists

  datatype Kind =
    | Ec2Instance | S3Bucket | DynamoDbTable | ElastiCacheNode
    | ElbLoadBalancer | RdsCluster | SqsQueue | ElasticSearchCluster

  /** The order in which `main` visits the kinds. */
  const ScanOrder: seq<Kind> := [Ec2Instance, S3Bucket, DynamoDbTable, ElastiCacheNode,
                                 ElbLoadBalancer, RdsCluster, SqsQueue, ElasticSearchCluster]

  lemma ScanOrderCoversEachKindOnce()
    ensures forall k: Kind :: k in ScanOrder
    ensures forall i, j :: 0 <= i < j < |ScanOrder| ==> ScanOrder[i] != ScanOrder[j]
  {
    forall k: Kind ensures k in ScanOrder {
      match k
      case Ec2Instance => assert ScanOrder[0] == k;
      case S3Bucket => assert ScanOrder[1] == k;
      case DynamoDbTable => assert ScanOrder[2] == k;
      case ElastiCacheNode => assert ScanOrder[3] == k;
      case ElbLoadBalancer => assert ScanOrder[4] == k;
      case RdsCluster => assert ScanOrder[5] == k;
      case SqsQueue => assert ScanOrder[6] == k;
      case ElasticSearchCluster => assert ScanOrder[7] == k;
    }
  }

  /** The environment switch of each kind. */
  function Switch(k: Kind): string
  {
    match k
    case Ec2Instance => "ENABLE_EC2_Instance"
    case S3Bucket => "ENABLE_S3_Bucket"
    case DynamoDbTable => "ENABLE_DynamoDB_Table"
    case ElastiCacheNode => "ENABLE_ElastiCache_Node"
    case ElbLoadBalancer => "ENABLE_ElasticLoadBalancing_Loadbalancer"
    case RdsCluster => "ENABLE_RDS_Cluster"
    case SqsQueue => "ENABLE_SQS_Queue"
    case ElasticSearchCluster => "ENABLE_ElasticSearch_Cluster"
  }

  predicate KindEnabled(env: map<string, string>, k: Kind)
  {
    Enabled(env, Switch(k))
  }

  /** The switches, read once from the environment: the kinds to scan and
      whether messages are handed to Slack. */
  datatype Switches = Switches(kinds: set<Kind>, slack: bool)

  function ReadSwitches(env: map<string, string>): (sw: Switches)
    ensures forall k :: k in sw.kinds <==> KindEnabled(env, k)
    ensures sw.slack <==> Enabled(env, SlackSwitch)
  {
    ScanOrderCoversEachKindOnce();
    var kinds := set k | k in ScanOrder && KindEnabled(env, k);
    Switches(kinds, Enabled(env, SlackSwitch))
  }

  /** With every switch unset, every kind is scanned and Slack delivery is on. */
  lemma DefaultsScanEverything()
    ensures forall k :: k in ReadSwitches(map[]).kinds
    ensures ReadSwitches(map[]).slack
  {
    forall k ensures KindEnabled(map[], k) {
      EnabledByDefault(map[], Switch(k));
    }
    EnabledByDefault(map[], SlackSwitch);
  }

  /** What each kind's adapter lists, one list per kind. */
  datatype Inventory = Inventory(
    ec2Instances: seq<Resource>, s3Buckets: seq<Resource>, dynamoDbTables: seq<Resource>,
    elastiCacheNodes: seq<Resource>, elbLoadBalancers: seq<Resource>, rdsClusters: seq<Resource>,
    sqsQueues: seq<Resource>, elasticSearchClusters: seq<Resource>)

  function Listed(inventory: Inventory, k: Kind): seq<Resource>
  {
    match k
    case Ec2Instance => inventory.ec2Instances
    case S3Bucket => inventory.s3Buckets
    case DynamoDbTable => inventory.dynamoDbTables
    case ElastiCacheNode => inventory.elastiCacheNodes
    case ElbLoadBalancer => inventory.elbLoadBalancers
    case RdsCluster => inventory.rdsClusters
    case SqsQueue => inventory.sqsQueues
    case ElasticSearchCluster => inventory.elasticSearchClusters
  }

  /** The resources the scan evaluates, kind after kind, in the kinds' order. */
  function Scanned(enabled: set<Kind>, inventory: Inventory, kinds: seq<Kind>): seq<Resource>
  {
    if |kinds| == 0 then []
    else
      var n := |kinds| - 1;
      Scanned(enabled, inventory, kinds[..n]) + (if kinds[n] in enabled then Listed(inventory, kinds[n]) else [])
  }

  /** The test `main` applies before notifying: the evaluator returned false. */
  function NeedsNotice(policy: seq<Rule>): Resource -> bool
  {
    (r: Resource) => !Compliant(r.tags, policy)
  }

  /** The non-compliant resources of a list, in list order. */
  function Flagged(rs: seq<Resource>, policy: seq<Rule>): seq<Resource>
  {
    Filter(rs, NeedsNotice(policy))
  }

  /** The message `notify_slack` renders for an evaluated resource. */
  function Render(identity: Identity, policy: seq<Rule>): Resource -> Payload
  {
    (r: Resource) => BuildPayload(identity, r.service, r.id, r.tags, Reasons(r.tags, policy))
  }

  /** The message of each resource of a list, in list order. */
  function Payloads(identity: Identity, policy: seq<Rule>, rs: seq<Resource>): seq<Payload>
  {
    Map(rs, Render(identity, policy))
  }

  /** Every resource listed for one of `kinds` that is enabled holds the
      reasons the policy gives it. */
  ghost predicate KindsEvaluated(enabled: set<Kind>, inventory: Inventory, kinds: seq<Kind>, policy: seq<Rule>)
    reads inventory.ec2Instances, inventory.s3Buckets, inventory.dynamoDbTables, inventory.elastiCacheNodes,
      inventory.elbLoadBalancers, inventory.rdsClusters, inventory.sqsQueues, inventory.elasticSearchClusters
  {
    forall k, j {:trigger Listed(inventory, k)[j].compliantReasons} :: k in kinds && k in enabled && 0 <= j < |Listed(inventory, k)| ==>
      Listed(inventory, k)[j].compliantReasons == Some(Reasons(Listed(inventory, k)[j].tags, policy))
  }

  /** A disabled kind adds nothing to evaluate. */
  lemma KindsEvaluatedSkip(enabled: set<Kind>, inventory: Inventory, kinds: seq<Kind>, kind: Kind, policy: seq<Rule>)
    requires KindsEvaluated(enabled, inventory, kinds, policy)
    requires kind !in enabled
    ensures KindsEvaluated(enabled, inventory, kinds + [kind], policy)
  {
  }

  /** The body of a block's loop: evaluate the resource, and hand it to the
      notifier when it is not compliant. */
  method ScanOne(slack: bool, identity: Identity, policy: seq<Rule>, r: Resource)
    returns (flagged: bool, sent: Option<Payload>)
    modifies r
    ensures flagged == NeedsNotice(policy)(r)
    ensures sent == if flagged && slack then Some(Render(identity, policy)(r)) else None
    ensures r.compliantReasons == Some(Reasons(r.tags, policy))
  {
    var ok := VerifyTagsOnResource(r, policy);
    flagged, sent := !ok, None;
    if !ok {
      sent := NotifySlack(identity, slack, r);
    }
  }

  /** One `for r in get_..._resources()` loop of `main`. */
  method ScanKind(slack: bool, identity: Identity, policy: seq<Rule>, resources: seq<Resource>)
    returns (notified: seq<Resource>, outbox: seq<Payload>)
    modifies set r | r in resources
    ensures notified == Flagged(resources, policy)
    ensures outbox == if slack then Payloads(identity, policy, notified) else []
    ensures forall r {:trigger r.compliantReasons} :: r in resources ==> r.compliantReasons == Some(Reasons(r.tags, policy))
  {
    notified, outbox := [], [];
    for m := 0 to |resources|
      invariant notified == Flagged(resources[..m], policy)
      invariant outbox == if slack then Payloads(identity, policy, notified) else []
      invariant forall j {:trigger resources[j].compliantReasons} :: 0 <= j < m ==>
        resources[j].compliantReasons == Some(Reasons(resources[j].tags, policy))
    {
      var r := resources[m];
      assert resources[..m + 1] == resources[..m] + [r];
      var flagged, sent := ScanOne(slack, identity, policy, r);
      FilterSnoc(resources[..m], r, NeedsNotice(policy));
      if flagged {
        MapSnoc(notified, r, Render(identity, policy));
        notified := notified + [r];
        if sent.Some? {
          outbox := outbox + [sent.value];
        }
      }
    }
    assert resources[..|resources|] == resources;
  }

  /** One of the eight blocks of `main`: the kind's resources are scanned
      only when its switch is on; the results are appended to what the
      kinds before it produced. */
  method ScanBlock(switches: Switches, identity: Identity, policy: seq<Rule>, inventory: Inventory,
                   ghost done: seq<Kind>, kind: Kind, notified: seq<Resource>, outbox: seq<Payload>)
    returns (notified': seq<Resource>, outbox': seq<Payload>)
    requires notified == Flagged(Scanned(switches.kinds, inventory, done), policy)
    requires outbox == if switches.slack then Payloads(identity, policy, notified) else []
    requires KindsEvaluated(switches.kinds, inventory, done, policy)
    modifies if kind in switches.kinds then set r | r in Listed(inventory, kind) else {}
    ensures notified' == Flagged(Scanned(switches.kinds, inventory, done + [kind]), policy)
    ensures outbox' == if switches.slack then Payloads(identity, policy, notified') else []
    ensures KindsEvaluated(switches.kinds, inventory, done + [kind], policy)
  {
    if kind in switches.kinds {
      notified', outbox' := ScanEnabledBlock(switches, identity, policy, inventory, done, kind, notified, outbox);
    } else {
      assert (done + [kind])[..|done|] == done;
      assert Scanned(switches.kinds, inventory, done + [kind]) == Scanned(switches.kinds, inventory, done);
      KindsEvaluatedSkip(switches.kinds, inventory, done, kind, policy);
      notified', outbox' := notified, outbox;
    }
  }

  /** A block whose switch is on: the kind's list is scanned. */
  method ScanEnabledBlock(switches: Switches, identity: Identity, policy: seq<Rule>, inventory: Inventory,
                          ghost done: seq<Kind>, kind: Kind, notified: seq<Resource>, outbox: seq<Payload>)
    returns (notified': seq<Resource>, outbox': seq<Payload>)
    requires kind in switches.kinds
    requires notified == Flagged(Scanned(switches.kinds, inventory, done), policy)
    requires outbox == if switches.slack then Payloads(identity, policy, notified) else []
    requires KindsEvaluated(switches.kinds, inventory, done, policy)
    modifies set r | r in Listed(inventory, kind)
    ensures notified' == Flagged(Scanned(switches.kinds, inventory, done + [kind]), policy)
    ensures outbox' == if switches.slack then Payloads(identity, policy, notified') else []
    ensures KindsEvaluated(switches.kinds, inventory, done + [kind], policy)
  {
    var rs := Listed(inventory, kind);
    var kindNotified, kindOutbox := ScanKind(switches.slack, identity, policy, rs);
    forall k, j | k in done + [kind] && k in switches.kinds && 0 <= j < |Listed(inventory, k)|
      ensures Listed(inventory, k)[j].compliantReasons == Some(Reasons(Listed(inventory, k)[j].tags, policy))
    {
      var x := Listed(inventory, k)[j];
      if x !in rs {
        assert old(x.compliantReasons) == x.compliantReasons;
      }
    }
    EnabledBlockAppends(switches.kinds, inventory, done, kind, policy);
    MapConcat(notified, kindNotified, Render(identity, policy));
    notified', outbox' := notified + kindNotified, outbox + kindOutbox;
  }

  /** An enabled kind appends its own list to the scanned records, and its
      own non-compliant records to the notified ones. */
  lemma EnabledBlockAppends(enabled: set<Kind>, inventory: Inventory, done: seq<Kind>, kind: Kind, policy: seq<Rule>)
    requires kind in enabled
    ensures Scanned(enabled, inventory, done + [kind]) == Scanned(enabled, inventory, done) + Listed(inventory, kind)
    ensures Flagged(Scanned(enabled, inventory, done + [kind]), policy) ==
      Flagged(Scanned(enabled, inventory, done), policy) + Flagged(Listed(inventory, kind), policy)
  {
    assert (done + [kind])[..|done|] == done;
    FilterConcat(Scanned(enabled, inventory, done), Listed(inventory, kind), NeedsNotice(policy));
  }

  /** `main`: the kinds in `ScanOrder`, each scanned only if its switch is
      on. Only the resources of the enabled kinds are written to; every other
      record keeps the reasons it held. */
  method Scan(switches: Switches, identity: Identity, policy: seq<Rule>, inventory: Inventory)
    returns (notified: seq<Resource>, outbox: seq<Payload>)
    modifies set r | r in Scanned(switches.kinds, inventory, ScanOrder)
    ensures notified == Flagged(Scanned(switches.kinds, inventory, ScanOrder), policy)
    ensures outbox == if switches.slack then Payloads(identity, policy, notified) else []
    ensures KindsEvaluated(switches.kinds, inventory, ScanOrder, policy)
    ensures forall k, j {:trigger Listed(inventory, k)[j].compliantReasons} ::
      0 <= j < |Listed(inventory, k)| && Listed(inventory, k)[j] !in Scanned(switches.kinds, inventory, ScanOrder) ==>
        Listed(inventory, k)[j].compliantReasons == old(Listed(inventory, k)[j].compliantReasons)
  {
    ScannedMembership(switches.kinds, inventory, ScanOrder);
    notified, outbox := [], [];
    for n := 0 to |ScanOrder|
      invariant notified == Flagged(Scanned(switches.kinds, inventory, ScanOrder[..n]), policy)
      invariant outbox == if switches.slack then Payloads(identity, policy, notified) else []
      invariant KindsEvaluated(switches.kinds, inventory, ScanOrder[..n], policy)
    {
      assert ScanOrder[..n + 1] == ScanOrder[..n] + [ScanOrder[n]];
      notified, outbox := ScanBlock(switches, identity, policy, inventory, ScanOrder[..n], ScanOrder[n], notified, outbox);
    }
    assert ScanOrder[..|ScanOrder|] == ScanOrder;
  }

  /** One message per notified resource, in the same order, carrying that
      resource's service, id, tags and reasons. */
  lemma PayloadsMatchResources(identity: Identity, policy: seq<Rule>, rs: seq<Resource>)
    ensures |Payloads(identity, policy, rs)| == |rs|
    ensures forall i :: 0 <= i < |rs| ==>
      Payloads(identity, policy, rs)[i] == BuildPayload(identity, rs[i].service, rs[i].id, rs[i].tags, Reasons(rs[i].tags, policy))
  {
    MapAt(rs, Render(identity, policy));
  }

  /** The flagged resources are exactly the non-compliant ones of the list. */
  lemma FlaggedMembership(rs: seq<Resource>, policy: seq<Rule>)
    ensures forall r :: r in Flagged(rs, policy) <==> r in rs && !Compliant(r.tags, policy)
  {
    FilterMembership(rs, NeedsNotice(policy));
  }

  /** The scanned resources are exactly those listed for an enabled kind. */
  lemma {:induction false} ScannedMembership(enabled: set<Kind>, inventory: Inventory, kinds: seq<Kind>)
    ensures forall r :: r in Scanned(enabled, inventory, kinds) <==>
      exists k :: k in kinds && k in enabled && r in Listed(inventory, k)
  {
    if |kinds| > 0 {
      var n := |kinds| - 1;
      ScannedMembership(enabled, inventory, kinds[..n]);
      assert kinds == kinds[..n] + [kinds[n]];
    }
  }

  /** The scan notifies exactly the non-compliant resources of the enabled kinds. */
  lemma NotifiesExactlyNonCompliant(enabled: set<Kind>, policy: seq<Rule>, inventory: Inventory)
    ensures forall r :: r in Flagged(Scanned(enabled, inventory, ScanOrder), policy) <==>
      (exists k :: k in enabled && r in Listed(inventory, k)) && !Compliant(r.tags, policy)
  {
    ScanOrderCoversEachKindOnce();
    ScannedMembership(enabled, inventory, ScanOrder);
    FlaggedMembership(Scanned(enabled, inventory, ScanOrder), policy);
  }

  /** A disabled kind is never listed: changing what its adapter would
      return changes nothing the scan does. */
  lemma {:induction false} DisabledKindsIgnored(enabled: set<Kind>, inv1: Inventory, inv2: Inventory, kinds: seq<Kind>)
    requires forall k :: k in enabled ==> Listed(inv1, k) == Listed(inv2, k)
    ensures Scanned(enabled, inv1, kinds) == Scanned(enabled, inv2, kinds)
  {
    if |kinds| > 0 {
      DisabledKindsIgnored(enabled, inv1, inv2, kinds[..|kinds| - 1]);
    }
  }
}
