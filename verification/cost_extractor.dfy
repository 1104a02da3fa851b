/** The flattening of AWS responses into the flat records the analyses read
    (aws_cost_extractor.py; backend/aws_cost_extractor.py is the same file).
    The boto3 calls are not modelled: their responses are the inputs, and a
    call that raised is `None`. */
module CostExtractor {
  import opened Common
  import Text
  import Insights
  import InsightEngine

  // ---------------------------------------------------------------- nested lists, flattened

  /** The first `j` elements of `xs`, each through `f`: what a loop appending
      `f(x)` for each `x` has built after `j` steps. */
  function Mapped<A, B>(xs: seq<A>, f: A -> B, j: nat): (r: seq<B>)
    requires j <= |xs|
    ensures |r| == j
    ensures forall k :: 0 <= k < j ==> r[k] == f(xs[k])
  {
    if j == 0 then [] else Mapped(xs, f, j - 1) + [f(xs[j - 1])]
  }

  /** The first `j` inner elements of `a`, each through `f` with `a` itself. */
  function Row<A, B, C>(a: A, inner: A -> seq<B>, f: (A, B) -> C, j: nat): (r: seq<C>)
    requires j <= |inner(a)|
    ensures |r| == j
    ensures forall k :: 0 <= k < j ==> r[k] == f(a, inner(a)[k])
  {
    if j == 0 then [] else Row(a, inner, f, j - 1) + [f(a, inner(a)[j - 1])]
  }

  /** Two nested loops appending `f(a, b)` for every inner `b` of every outer
      `a`, after the first `i` outer elements. */
  function Flattened<A, B, C>(outer: seq<A>, inner: A -> seq<B>, f: (A, B) -> C, i: nat): seq<C>
    requires i <= |outer|
  {
    if i == 0 then []
    else Flattened(outer, inner, f, i - 1) + Row(outer[i - 1], inner, f, |inner(outer[i - 1])|)
  }

  /** The number of inner elements of the first `i` outer elements. */
  function Offset<A, B>(outer: seq<A>, inner: A -> seq<B>, i: nat): nat
    requires i <= |outer|
  {
    if i == 0 then 0 else Offset(outer, inner, i - 1) + |inner(outer[i - 1])|
  }

  /** One output per inner element ... */
  lemma {:induction false} FlattenedLength<A, B, C>(outer: seq<A>, inner: A -> seq<B>, f: (A, B) -> C, i: nat)
    requires i <= |outer|
    ensures |Flattened(outer, inner, f, i)| == Offset(outer, inner, i)
  {
    if i > 0 {
      FlattenedLength(outer, inner, f, i - 1);
    }
  }

  /** ... in order: inner element `g` of outer element `b` comes out at
      position `Offset(b) + g`. */
  lemma {:induction false} FlattenedAt<A, B, C>(outer: seq<A>, inner: A -> seq<B>, f: (A, B) -> C, i: nat, b: nat, g: nat)
    requires b < i <= |outer| && g < |inner(outer[b])|
    ensures Offset(outer, inner, b) + g < |Flattened(outer, inner, f, i)|
    ensures Flattened(outer, inner, f, i)[Offset(outer, inner, b) + g] == f(outer[b], inner(outer[b])[g])
  {
    FlattenedLength(outer, inner, f, i);
    FlattenedLength(outer, inner, f, i - 1);
    if b < i - 1 {
      FlattenedAt(outer, inner, f, i - 1, b, g);
      OffsetMonotone(outer, inner, b + 1, i - 1);
    }
  }

  lemma {:induction false} OffsetMonotone<A, B>(outer: seq<A>, inner: A -> seq<B>, i: nat, j: nat)
    requires i <= j <= |outer|
    ensures Offset(outer, inner, i) <= Offset(outer, inner, j)
    decreases j - i
  {
    if i < j {
      OffsetMonotone(outer, inner, i, j - 1);
    }
  }

  // ---------------------------------------------------------------- cost and usage

  /** One group of a `GetCostAndUsage` time bucket; a missing metric is `None`. */
  datatype CostGroup = CostGroup(keys: seq<string>, blendedCost: Option<real>, usageQuantity: Option<real>)

  /** One entry of `ResultsByTime`; `start` is `TimePeriod.Start`. */
  datatype TimeBucket = TimeBucket(start: Option<string>, groups: seq<CostGroup>)

  datatype ServiceCost = ServiceCost(
    service: Option<string>,
    region: Option<string>,
    cost: real,
    usage: real,
    date: Option<string>)

  const AmazonPrefix: string := "Amazon"

  predicate IsServiceKey(key: string) { Text.StartsWith(key, AmazonPrefix) }
  predicate IsRegionKey(key: string) { !IsServiceKey(key) }

  /** The last element of `s` satisfying `p`, if any. */
  function LastWhere(s: seq<string>, p: string -> bool): (r: Option<string>)
    ensures r.None? <==> forall k :: 0 <= k < |s| ==> !p(s[k])
    ensures r.Some? ==> exists j :: 0 <= j < |s| && s[j] == r.value && p(s[j])
                                   && forall l :: j < l < |s| ==> !p(s[l])
  {
    if |s| == 0 then None
    else if p(s[|s| - 1]) then Some(s[|s| - 1])
    else LastWhere(s[..|s| - 1], p)
  }

  /** The loop over a group's keys: each key starting with "Amazon" becomes
      the service, every other key the region, so the last of each kind wins. */
  method KeyFields(keys: seq<string>) returns (service: Option<string>, region: Option<string>)
    ensures service == LastWhere(keys, IsServiceKey)
    ensures region == LastWhere(keys, IsRegionKey)
  {
    service := None;
    region := None;
    for i := 0 to |keys|
      invariant service == LastWhere(keys[..i], IsServiceKey)
      invariant region == LastWhere(keys[..i], IsRegionKey)
    {
      assert keys[..i + 1][..i] == keys[..i];
      if IsServiceKey(keys[i]) {
        service := Some(keys[i]);
      } else {
        region := Some(keys[i]);
      }
    }
    assert keys[..|keys|] == keys;
  }

  /** `float(metrics.get(name, {}).get("Amount", 0))`. */
  function Amount(m: Option<real>): real
  {
    if m.Some? then m.value else 0.0
  }

  function GroupsOf(b: TimeBucket): seq<CostGroup> { b.groups }

  /** The record appended for one group of a bucket. */
  function GroupRecord(b: TimeBucket, g: CostGroup): ServiceCost
  {
    ServiceCost(
      LastWhere(g.keys, IsServiceKey),
      LastWhere(g.keys, IsRegionKey),
      Amount(g.blendedCost),
      Amount(g.usageQuantity),
      b.start)
  }

  /** What `get_service_breakdown` returns for a response. */
  function Breakdown(response: seq<TimeBucket>): seq<ServiceCost>
  {
    Flattened(response, GroupsOf, GroupRecord, |response|)
  }

  /** `get_service_breakdown`, from the response on. */
  method GetServiceBreakdown(response: seq<TimeBucket>) returns (serviceCosts: seq<ServiceCost>)
    ensures serviceCosts == Breakdown(response)
  {
    serviceCosts := [];
    for i := 0 to |response|
      invariant serviceCosts == Flattened(response, GroupsOf, GroupRecord, i)
    {
      var result := response[i];
      for j := 0 to |result.groups|
        invariant serviceCosts == Flattened(response, GroupsOf, GroupRecord, i) + Row(result, GroupsOf, GroupRecord, j)
      {
        var group := result.groups[j];
        var service, region := KeyFields(group.keys);
        serviceCosts := serviceCosts + [ServiceCost(service, region, Amount(group.blendedCost), Amount(group.usageQuantity), result.start)];
      }
    }
  }

  /** Exactly one record per group of every bucket, in response order: group
      `g` of bucket `b` comes after all groups of the earlier buckets, and
      carries that bucket's start date and that group's amounts. */
  lemma BreakdownAt(response: seq<TimeBucket>, b: nat, g: nat)
    requires b < |response| && g < |response[b].groups|
    ensures |Breakdown(response)| == Offset(response, GroupsOf, |response|)
    ensures Offset(response, GroupsOf, b) + g < |Breakdown(response)|
    ensures var r := Breakdown(response)[Offset(response, GroupsOf, b) + g];
      && r.date == response[b].start
      && r.cost == Amount(response[b].groups[g].blendedCost)
      && r.usage == Amount(response[b].groups[g].usageQuantity)
      && r.service == LastWhere(response[b].groups[g].keys, IsServiceKey)
      && r.region == LastWhere(response[b].groups[g].keys, IsRegionKey)
  {
    FlattenedLength(response, GroupsOf, GroupRecord, |response|);
    FlattenedAt(response, GroupsOf, GroupRecord, |response|, b, g);
  }

  /** A record's service, when set, starts with "Amazon" and its region,
      when set, does not; both are keys of the group.  A service without
      the prefix is therefore reported as a region. */
  lemma GroupRecordLabels(b: TimeBucket, g: CostGroup)
    ensures GroupRecord(b, g).service.Some? ==>
      Text.StartsWith(GroupRecord(b, g).service.value, AmazonPrefix) && GroupRecord(b, g).service.value in g.keys
    ensures GroupRecord(b, g).region.Some? ==>
      !Text.StartsWith(GroupRecord(b, g).region.value, AmazonPrefix) && GroupRecord(b, g).region.value in g.keys
    ensures GroupRecord(b, g).service.None? <==> forall k :: 0 <= k < |g.keys| ==> !IsServiceKey(g.keys[k])
  {
  }

  // ---------------------------------------------------------------- EC2 instances

  /** A tag; reading `tag["Key"]` or `tag["Value"]` raises when it is `None`. */
  datatype Tag = Tag(key: Option<string>, value: Option<string>)

  datatype Instance = Instance(
    instanceId: Option<string>,
    instanceType: Option<string>,
    state: Option<string>,
    launchTime: Option<string>,
    availabilityZone: Option<string>,
    stateTransitionReason: Option<string>,
    tags: seq<Tag>)

  datatype Reservation = Reservation(instances: seq<Instance>)

  datatype InstanceRecord = InstanceRecord(
    instanceId: Option<string>,
    instanceType: Option<string>,
    state: Option<string>,
    launchTime: Option<string>,
    region: Option<string>,
    tags: map<string, string>)

  predicate Complete(t: Tag) { t.key.Some? && t.value.Some? }

  predicate WellTagged(inst: Instance)
  {
    forall k :: 0 <= k < |inst.tags| ==> Complete(inst.tags[k])
  }

  /** `{tag["Key"]: tag["Value"] for tag in tags}` for complete tags; an
      incomplete tag makes the whole call fail, so it is never observed here. */
  function TagMap(tags: seq<Tag>): map<string, string>
  {
    if |tags| == 0 then map[]
    else
      var t := tags[|tags| - 1];
      var init := TagMap(tags[..|tags| - 1]);
      if Complete(t) then init[t.key.value := t.value.value] else init
  }

  /** The map's keys are the keys of the complete tags. */
  lemma {:induction false} TagMapKeys(tags: seq<Tag>, key: string)
    ensures key in TagMap(tags) <==> exists j :: 0 <= j < |tags| && Complete(tags[j]) && tags[j].key.value == key
    decreases |tags|
  {
    if |tags| > 0 {
      var init := tags[..|tags| - 1];
      TagMapKeys(init, key);
      if key in TagMap(init) {
        var j :| 0 <= j < |init| && Complete(init[j]) && init[j].key.value == key;
        assert tags[j] == init[j];
      }
      if exists j :: 0 <= j < |tags| && Complete(tags[j]) && tags[j].key.value == key {
        var j :| 0 <= j < |tags| && Complete(tags[j]) && tags[j].key.value == key;
        if j < |init| {
          assert init[j] == tags[j];
        }
      }
    }
  }

  /** A later tag with the same key wins: the value is that of the last tag
      with the key. */
  lemma {:induction false} TagMapLastWins(tags: seq<Tag>, j: nat)
    requires j < |tags| && Complete(tags[j])
    requires forall l :: j < l < |tags| && Complete(tags[l]) ==> tags[l].key != tags[j].key
    ensures tags[j].key.value in TagMap(tags)
    ensures TagMap(tags)[tags[j].key.value] == tags[j].value.value
    decreases |tags|
  {
    if j < |tags| - 1 {
      var init := tags[..|tags| - 1];
      TagMapLastWins(init, j);
    }
  }

  /** The record appended for one instance. */
  function InstanceRecordOf(inst: Instance): InstanceRecord
  {
    InstanceRecord(inst.instanceId, inst.instanceType, inst.state, inst.launchTime,
                   inst.availabilityZone, TagMap(inst.tags))
  }

  function InstancesOf(r: Reservation): seq<Instance> { r.instances }

  function RecordOf(r: Reservation, inst: Instance): InstanceRecord { InstanceRecordOf(inst) }

  predicate AllWellTagged(reservations: seq<Reservation>)
  {
    forall i, j :: 0 <= i < |reservations| && 0 <= j < |reservations[i].instances| ==>
      WellTagged(reservations[i].instances[j])
  }

  /** What `get_ec2_instances` returns: nothing when the call or a tag read
      raised, else one record per instance of every reservation. */
  function Ec2Instances(response: Option<seq<Reservation>>): seq<InstanceRecord>
  {
    if response.None? || !AllWellTagged(response.value) then []
    else Flattened(response.value, InstancesOf, RecordOf, |response.value|)
  }

  method GetEc2Instances(response: Option<seq<Reservation>>) returns (instances: seq<InstanceRecord>)
    ensures instances == Ec2Instances(response)
  {
    if response.None? {
      return [];
    }
    var reservations := response.value;
    instances := [];
    for i := 0 to |reservations|
      invariant instances == Flattened(reservations, InstancesOf, RecordOf, i)
      invariant forall i', j' :: 0 <= i' < i && 0 <= j' < |reservations[i'].instances| ==>
        WellTagged(reservations[i'].instances[j'])
    {
      var reservation := reservations[i];
      for j := 0 to |reservation.instances|
        invariant instances == Flattened(reservations, InstancesOf, RecordOf, i) + Row(reservation, InstancesOf, RecordOf, j)
        invariant forall j' :: 0 <= j' < j ==> WellTagged(reservation.instances[j'])
      {
        var instance := reservation.instances[j];
        if !WellTagged(instance) {
          // building the tag map raises; the handler returns an empty list
          return [];
        }
        instances := instances + [InstanceRecordOf(instance)];
      }
    }
  }

  /** On success there is one record per instance of every reservation, in
      order; a failed call or an incomplete tag anywhere gives no record. */
  lemma Ec2InstancesAt(reservations: seq<Reservation>, b: nat, g: nat)
    requires AllWellTagged(reservations)
    requires b < |reservations| && g < |reservations[b].instances|
    ensures |Ec2Instances(Some(reservations))| == Offset(reservations, InstancesOf, |reservations|)
    ensures Offset(reservations, InstancesOf, b) + g < |Ec2Instances(Some(reservations))|
    ensures Ec2Instances(Some(reservations))[Offset(reservations, InstancesOf, b) + g]
         == InstanceRecordOf(reservations[b].instances[g])
  {
    FlattenedLength(reservations, InstancesOf, RecordOf, |reservations|);
    FlattenedAt(reservations, InstancesOf, RecordOf, |reservations|, b, g);
  }

  /** Any incomplete tag, even on the last instance, loses every record. */
  lemma Ec2InstancesFailure(reservations: seq<Reservation>, b: nat, g: nat, t: nat)
    requires b < |reservations| && g < |reservations[b].instances|
    requires t < |reservations[b].instances[g].tags| && !Complete(reservations[b].instances[g].tags[t])
    ensures Ec2Instances(Some(reservations)) == []
    ensures Ec2Instances(None) == []
  {
    assert !WellTagged(reservations[b].instances[g]);
  }

  // ---------------------------------------------------------------- unused resources

  datatype StoppedRecord = StoppedRecord(instanceId: Option<string>, instanceType: Option<string>, stoppedSince: Option<string>)

  /** One entry of `DescribeVolumes`. */
  datatype Volume = Volume(volumeId: Option<string>, size: Option<int>, availabilityZone: Option<string>)

  datatype VolumeRecord = VolumeRecord(volumeId: Option<string>, size: Option<int>, region: Option<string>)

  /** The dict of three lists; nothing ever fills `unused_elastic_ips`, so it
      is kept as its length. */
  datatype UnusedResources = UnusedResources(
    stoppedInstances: seq<StoppedRecord>,
    unattachedVolumes: seq<VolumeRecord>,
    unusedElasticIps: nat)

  function StoppedOf(r: Reservation, inst: Instance): StoppedRecord
  {
    StoppedRecord(inst.instanceId, inst.instanceType, inst.stateTransitionReason)
  }

  function VolumeRecordOf(v: Volume): VolumeRecord
  {
    VolumeRecord(v.volumeId, v.size, v.availabilityZone)
  }

  /** What `get_unused_resources` returns for the stopped-instance and the
      available-volume responses: a failed call keeps what was gathered
      before it. */
  function Unused(stopped: Option<seq<Reservation>>, volumes: Option<seq<Volume>>): UnusedResources
  {
    if stopped.None? then UnusedResources([], [], 0)
    else
      var s := Flattened(stopped.value, InstancesOf, StoppedOf, |stopped.value|);
      if volumes.None? then UnusedResources(s, [], 0)
      else UnusedResources(s, Mapped(volumes.value, VolumeRecordOf, |volumes.value|), 0)
  }

  method GetUnusedResources(stopped: Option<seq<Reservation>>, volumes: Option<seq<Volume>>)
    returns (unused: UnusedResources)
    ensures unused == Unused(stopped, volumes)
  {
    unused := UnusedResources([], [], 0);
    if stopped.None? {
      return;
    }
    var reservations := stopped.value;
    for i := 0 to |reservations|
      invariant unused == UnusedResources(Flattened(reservations, InstancesOf, StoppedOf, i), [], 0)
    {
      var reservation := reservations[i];
      for j := 0 to |reservation.instances|
        invariant unused == UnusedResources(
          Flattened(reservations, InstancesOf, StoppedOf, i) + Row(reservation, InstancesOf, StoppedOf, j), [], 0)
      {
        var instance := reservation.instances[j];
        unused := unused.(stoppedInstances := unused.stoppedInstances
          + [StoppedRecord(instance.instanceId, instance.instanceType, instance.stateTransitionReason)]);
      }
    }
    if volumes.None? {
      return;
    }
    var vs := volumes.value;
    for k := 0 to |vs|
      invariant unused.stoppedInstances == Flattened(reservations, InstancesOf, StoppedOf, |reservations|)
      invariant unused.unattachedVolumes == Mapped(vs, VolumeRecordOf, k)
      invariant unused.unusedElasticIps == 0
    {
      unused := unused.(unattachedVolumes := unused.unattachedVolumes + [VolumeRecordOf(vs[k])]);
    }
  }

  /** The list lengths the insight engine reads. */
  function CountsOf(u: UnusedResources): InsightEngine.UnusedCounts
  {
    InsightEngine.UnusedCounts(|u.stoppedInstances|, |u.unattachedVolumes|, u.unusedElasticIps)
  }

  /** One stopped record per stopped instance and one volume record per
      volume; the address list is always empty, so the analysis of
      extracted data never reports unused Elastic IPs (its only Low-priority
      insight). */
  lemma UnusedShape(stopped: Option<seq<Reservation>>, volumes: Option<seq<Volume>>)
    ensures Unused(stopped, volumes).unusedElasticIps == 0
    ensures |Unused(stopped, volumes).stoppedInstances|
         == if stopped.Some? then Offset(stopped.value, InstancesOf, |stopped.value|) else 0
    ensures |Unused(stopped, volumes).unattachedVolumes|
         == if stopped.Some? && volumes.Some? then |volumes.value| else 0
    ensures forall k :: 0 <= k < |InsightEngine.UnusedResources(CountsOf(Unused(stopped, volumes)))| ==>
      InsightEngine.UnusedResources(CountsOf(Unused(stopped, volumes)))[k].priority != Insights.Low
  {
    if stopped.Some? {
      FlattenedLength(stopped.value, InstancesOf, StoppedOf, |stopped.value|);
    }
    InsightEngine.UnusedResourcesPriorities(CountsOf(Unused(stopped, volumes)));
  }

  // ---------------------------------------------------------------- all of it

  /** The dict `generate_optimization_data` returns, without its timestamp. */
  datatype OptimizationData = OptimizationData(
    serviceBreakdown: seq<ServiceCost>,
    ec2Instances: seq<InstanceRecord>,
    unusedResources: UnusedResources)

  /** `generate_optimization_data`; a failed cost query raises out of it. */
  method GenerateOptimizationData(
    costs: Option<seq<TimeBucket>>,
    instances: Option<seq<Reservation>>,
    stopped: Option<seq<Reservation>>,
    volumes: Option<seq<Volume>>)
    returns (data: Option<OptimizationData>)
    ensures data.None? <==> costs.None?
    ensures data.Some? ==> data.value == OptimizationData(Breakdown(costs.value), Ec2Instances(instances), Unused(stopped, volumes))
  {
    if costs.None? {
      return None;
    }
    var breakdown := GetServiceBreakdown(costs.value);
    var ec2 := GetEc2Instances(instances);
    var unused := GetUnusedResources(stopped, volumes);
    data := Some(OptimizationData(breakdown, ec2, unused));
  }
}
