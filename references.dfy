/** Every name the template refers to is a resource it declares, a stack or
    pseudo parameter, or a name that came in with a configuration value. */
module References {
  import opened Wrappers
  import opened Cfn
  import Tags
  import UserData
  import Iam
  import opened Assembler
  import opened TemplateProperties

  /** The stack parameters the template reads (declared by the component's
      configuration, outside this file) and the pseudo parameters it uses. */
  const EXTERNAL_NAMES: set<string> := {
    "EnvironmentName", "EnvironmentType", "VPCId", "SecurityGroupLoadBalancer",
    "SecurityGroupBastion", "Ami", "InstanceType", "KeyName", "SpotPrice",
    "AsgMin", "AsgMax", "EnableScaling", "FileSystem",
    "AWS::Region", "AWS::NoValue", "AWS::StackName" }

  function PolicyRefs(entries: seq<(string, map<string, Value>)>): set<string>
  {
    if entries == [] then {}
    else Refs(Fetch(entries[0].1, "action")) + Refs(Fetch(entries[0].1, "resource")) + PolicyRefs(entries[1..])
  }

  function AutoscaleRefs(a: map<string, Value>): set<string>
  {
    Refs(Fetch(a, "memory_high")) + Refs(Fetch(a, "memory_low"))
      + Refs(Fetch(a, "cpu_high")) + Refs(Fetch(a, "cpu_low"))
      + Refs(Fetch(a, "scale_up_adjustment")) + Refs(Fetch(a, "scale_down_adjustment"))
  }

  /** The names referred to by the configuration values the template copies. */
  function ConfigRefs(c: Config): set<string>
  {
    ExtraRefs(c.eksExtraTags)
      + (match c.iamPolicies case None => {} case Some(ps) => PolicyRefs(ps))
      + (match c.volumeSize case None => {} case Some(v) => Refs(v))
      + (match c.asgUpdatePolicy case None => {} case Some(es) => RefsOfEntries(es))
      + (match c.eksAutoscale case None => {} case Some(a) => AutoscaleRefs(a))
  }

  /** Every property (and the update policy) of `r` refers only to names in `allowed`. */
  predicate Within(r: Resource, allowed: set<string>)
  {
    && (forall k :: k in r.properties ==> Refs(r.properties[k]) <= allowed)
    && (r.updatePolicy.Some? ==> Refs(r.updatePolicy.value.kind) + Refs(r.updatePolicy.value.body) <= allowed)
  }

  // ---------------------------------------------------------------------
  // The lists

  lemma {:induction false} AgentRefs(entries: seq<(string, string)>)
    ensures RefsOfSeq(UserData.AgentFragments(entries)) == {}
  {
    if entries != [] {
      var init := entries[..|entries| - 1];
      AgentRefs(init);
      var last := UserData.AgentLine(entries[|entries| - 1]);
      RefsOfSeqAppend(UserData.AgentFragments(init), last);
      RefsOfTwo(last[0], last[1]);
      assert last == [last[0], last[1]];
    }
  }

  lemma {:induction false} LineRefs(lines: seq<string>)
    ensures RefsOfSeq(UserData.LineFragments(lines)) == {}
  {
    if lines != [] {
      var init := lines[..|lines| - 1];
      LineRefs(init);
      var last := Str(lines[|lines| - 1] + "\n");
      RefsOfSeqAppend(UserData.LineFragments(init), [last]);
      RefsOfOne(last);
    }
  }

  /** The script refers to the environment name and the cluster, and, with
      EFS, to the file system and the region. */
  lemma FragmentsRefs(enableEfs: Value, agentConfig: Option<seq<(string, string)>>,
                      additionalLines: Option<seq<string>>)
    ensures Refs(Base64(Join("", UserData.Fragments(enableEfs, agentConfig, additionalLines))))
            <= {"EnvironmentName", "EksCluster", "FileSystem", "AWS::Region"}
  {
    var ud := UserData.Fragments(enableEfs, agentConfig, additionalLines);
    FragmentsSeqRefs(enableEfs, agentConfig, additionalLines);
    assert Refs(Base64(Join("", ud))) == RefsOfSeq(ud);
  }

  lemma FragmentsSeqRefs(enableEfs: Value, agentConfig: Option<seq<(string, string)>>,
                         additionalLines: Option<seq<string>>)
    ensures RefsOfSeq(UserData.Fragments(enableEfs, agentConfig, additionalLines))
            <= {"EnvironmentName", "EksCluster", "FileSystem", "AWS::Region"}
  {
    var h := UserData.Head(enableEfs);
    var a := UserData.AgentFragments(UserData.EntriesOf(agentConfig));
    var l := UserData.LineFragments(UserData.EntriesOf(additionalLines));
    assert UserData.Fragments(enableEfs, agentConfig, additionalLines) == h + a + l;
    RefsOfSeqAppend(h + a, l);
    RefsOfSeqAppend(h, a);
    AgentRefs(UserData.EntriesOf(agentConfig));
    LineRefs(UserData.EntriesOf(additionalLines));
    var allowed := {"EnvironmentName", "EksCluster", "FileSystem", "AWS::Region"};
    forall i | 0 <= i < |h|
      ensures Refs(h[i]) <= allowed
    {
      UserData.HeadLayout(enableEfs);
      if i < 11 {
        assert h[i] == UserData.PREFIX[i];
      } else {
        assert h[i] == UserData.EFS_BLOCK[i - 11];
      }
    }
    RefsOfSeqBound(h, allowed);
  }

  lemma StatementsRefs(policies: Option<seq<(string, map<string, Value>)>>)
    ensures Refs(List(Iam.Statements(policies)))
            <= match policies case None => {} case Some(ps) => PolicyRefs(ps)
  {
    if policies.Some? {
      var ps := policies.value;
      var st := Iam.Statements(policies);
      forall i | 0 <= i < |st|
        ensures Refs(st[i]) <= PolicyRefs(ps)
      {
        var (name, p) := ps[i];
        var action, resource := Fetch(p, "action"), Or(Fetch(p, "resource"), Str("*"));
        assert st[i] == Call("iam_policy_allow", [Str(name), action, resource]);
        RefsOfThree(Str(name), action, resource);
        PolicyRefsMember(ps, i);
      }
      RefsOfSeqBound(st, PolicyRefs(ps));
    }
  }

  lemma {:induction false} PolicyRefsMember(ps: seq<(string, map<string, Value>)>, i: nat)
    requires i < |ps|
    ensures Refs(Fetch(ps[i].1, "action")) + Refs(Fetch(ps[i].1, "resource")) <= PolicyRefs(ps)
  {
    if i > 0 {
      PolicyRefsMember(ps[1..], i - 1);
    }
  }

  function ExtraRefs(extra: Option<seq<(string, Value)>>): set<string>
  {
    match extra case None => {} case Some(es) => RefsOfEntries(es)
  }

  lemma TagValueRefs(t: Tags.Tag)
    ensures Refs(TagValue(t)) == Refs(t.value)
  {
    RefsOfThreeEntries(("Key", Str(t.key)), ("Value", t.value), ("PropagateAtLaunch", Bool(t.propagateAtLaunch)));
  }

  lemma CandidateRefs(componentName: string, extra: Option<seq<(string, Value)>>, t: Tags.Tag)
    requires t in Tags.ExtraTags(extra) + Tags.FixedTags(componentName)
    ensures Refs(t.value) <= {"EnvironmentName", "EnvironmentType"} + ExtraRefs(extra)
  {
    var ex := Tags.ExtraTags(extra);
    if t in ex {
      var j :| 0 <= j < |ex| && ex[j] == t;
      RefsOfEntriesMember(extra.value, j);
    } else {
      assert t in Tags.FixedTags(componentName);
      RefsOfThree(Ref("EnvironmentName"), Str(componentName), Str("xx"));
    }
  }

  /** A merged tag's value is a fixed one or came from `eks_extra_tags`. */
  lemma TagRefs(componentName: string, extra: Option<seq<(string, Value)>>)
    ensures Refs(List(TagList(Tags.MergedTags(componentName, extra))))
            <= {"EnvironmentName", "EnvironmentType"} + ExtraRefs(extra)
  {
    var tl := TagList(Tags.MergedTags(componentName, extra));
    TagListRefs(componentName, extra);
    assert Refs(List(tl)) == RefsOfSeq(tl);
  }

  lemma TagListRefs(componentName: string, extra: Option<seq<(string, Value)>>)
    ensures RefsOfSeq(TagList(Tags.MergedTags(componentName, extra)))
            <= {"EnvironmentName", "EnvironmentType"} + ExtraRefs(extra)
  {
    var merged := Tags.MergedTags(componentName, extra);
    var allowed := {"EnvironmentName", "EnvironmentType"} + ExtraRefs(extra);
    Tags.MergedTagsPropagate(componentName, extra);
    var tl := TagList(merged);
    forall i | 0 <= i < |tl|
      ensures Refs(tl[i]) <= allowed
    {
      assert merged[i] in merged;
      TagValueRefs(merged[i]);
      CandidateRefs(componentName, extra, merged[i]);
    }
    RefsOfSeqBound(tl, allowed);
  }

  // ---------------------------------------------------------------------
  // Resource by resource

  lemma LaunchConfigRefs(volumeSize: Option<Value>, userData: seq<Value>, allowed: set<string>)
    requires Refs(Base64(Join("", userData))) <= allowed
    requires volumeSize.Some? ==> Refs(List(Volumes(volumeSize))) <= allowed
    requires {"Ami", "InstanceType", "InstanceProfile", "KeyName", "SecurityGroupEks",
              "SpotPrice", "AWS::NoValue"} <= allowed
    ensures Within(LaunchConfig(volumeSize, Volumes(volumeSize), userData), allowed)
  {
    var props := LaunchConfig(volumeSize, Volumes(volumeSize), userData).properties;
    RefsOfOne(Ref("SecurityGroupEks"));
    assert Refs(props["UserData"]) <= allowed;
    assert Refs(props["SecurityGroups"]) <= allowed;
    if volumeSize.Some? {
      assert Refs(props["BlockDeviceMappings"]) <= allowed;
    }
  }

  lemma VolumesRefs(volumeSize: Option<Value>)
    ensures Refs(List(Volumes(volumeSize))) <= match volumeSize case None => {} case Some(v) => Refs(v)
  {
    if volumeSize.Some? {
      var dev := ("DeviceName", Str("/dev/xvda"));
      var ebs := Hash([("VolumeSize", volumeSize.value)]);
      RefsOfOneEntry(("VolumeSize", volumeSize.value));
      RefsOfTwoEntries(dev, ("Ebs", ebs));
      var h := Hash([dev, ("Ebs", ebs)]);
      RefsOfOne(h);
    }
  }

  lemma AutoScaleGroupRefs(c: Config, tags: seq<Tags.Tag>, allowed: set<string>)
    requires Refs(List(TagList(tags))) <= allowed
    requires c.asgUpdatePolicy.Some? ==> RefsOfEntries(c.asgUpdatePolicy.value) <= allowed
    requires {"LaunchConfig", "AsgMin", "AsgMax"} <= allowed
    ensures Within(AutoScaleGroup(c, tags), allowed)
  {
    var s := Str("SubnetCompute");
    RefsOfTwo(s, Num(c.maximumAvailabilityZones));
    if c.asgUpdatePolicy.Some? && c.asgUpdatePolicy.value != [] {
      RefsOfEntriesMember(c.asgUpdatePolicy.value, 0);
    }
  }

  lemma AlarmRefs(description: Value, metric: string, threshold: Value, policy: string, operator: string,
                  allowed: set<string>)
    requires Refs(description) + Refs(threshold) + {policy, "EksCluster"} <= allowed
    ensures Within(Alarm(description, metric, threshold, policy, operator), allowed)
  {
    var n, v := ("Name", Str("ClusterName")), ("Value", Ref("EksCluster"));
    RefsOfTwoEntries(n, v);
    var d := Hash([n, v]);
    RefsOfOne(d);
    RefsOfOne(Ref(policy));
  }

  lemma DescriptionRefs(before: string, v: Value, after: string)
    ensures Refs(Interp([Str(before), v, Str(after)])) == Refs(v)
  {
    RefsOfThree(Str(before), v, Str(after));
  }

  lemma EksClusterRefs(clusterName: Option<string>, allowed: set<string>)
    ensures Within(EksCluster(clusterName), allowed)
  {
  }

  lemma SecurityGroupRefs(componentName: string, allowed: set<string>)
    requires {"EnvironmentName", "VPCId"} <= allowed
    ensures Within(SecurityGroup(componentName), allowed)
  {
    RefsOfTwo(Ref("EnvironmentName"), Str(componentName));
  }

  lemma IngressRuleRefs(description: string, fromPort: string, toPort: string, source: string,
                        allowed: set<string>)
    requires {"SecurityGroupEks", source} <= allowed
    ensures Within(IngressRule(description, fromPort, toPort, source), allowed)
  {
  }

  lemma RoleRefs(policies: seq<Value>, allowed: set<string>)
    requires Refs(List(policies)) <= allowed
    ensures Within(Role(policies), allowed)
  {
    RefsOfOne(Str("ec2"));
  }

  lemma InstanceProfileRefs(allowed: set<string>)
    requires "Role" in allowed
    ensures Within(InstanceProfile(), allowed)
  {
    RefsOfOne(Ref("Role"));
  }

  lemma LogGroupRefs(retention: string, allowed: set<string>)
    requires "AWS::StackName" in allowed
    ensures Within(LogGroup(retention), allowed)
  {
  }

  /** The base resources, given lists whose references are allowed, refer to
      nothing else than each other and the stack and pseudo parameters. */
  lemma BaseResourcesRefs(c: Config, tags: seq<Tags.Tag>, policies: seq<Value>, userData: seq<Value>,
                          allowed: set<string>)
    requires BASE_NAMES + EXTERNAL_NAMES <= allowed
    requires Refs(List(TagList(tags))) + Refs(List(policies)) + Refs(Base64(Join("", userData))) <= allowed
    requires c.volumeSize.Some? ==> Refs(List(Volumes(c.volumeSize))) <= allowed
    requires c.asgUpdatePolicy.Some? ==> RefsOfEntries(c.asgUpdatePolicy.value) <= allowed
    ensures AllWithin(BaseResources(c, tags, policies, userData, Volumes(c.volumeSize)), allowed)
  {
    EksClusterRefs(c.clusterName, allowed);
    SecurityGroupRefs(c.componentName, allowed);
    IngressRuleRefs("Ephemeral port range for EKS", "32768", "65535", "SecurityGroupLoadBalancer", allowed);
    IngressRuleRefs("SSH access from bastion", "22", "22", "SecurityGroupBastion", allowed);
    RoleRefs(policies, allowed);
    InstanceProfileRefs(allowed);
    LaunchConfigRefs(c.volumeSize, userData, allowed);
    AutoScaleGroupRefs(c, tags, allowed);
    LogGroupRefs(c.logGroupRetention, allowed);
    BaseAll(r => Within(r, allowed), c, tags, policies, userData, Volumes(c.volumeSize));
  }

  /** The lists built for `c` refer only to parameters and to what `c` brought in. */
  lemma ListsRefs(c: Config)
    ensures Refs(List(TagList(Tags.MergedTags(c.componentName, c.eksExtraTags))))
            + Refs(List(Iam.Statements(c.iamPolicies)))
            + Refs(Base64(Join("", UserData.Fragments(c.enableEfs, c.eksAgentExtraConfig, c.eksAdditionalUserdata))))
            + (if c.volumeSize.Some? then Refs(List(Volumes(c.volumeSize))) else {})
            + (if c.asgUpdatePolicy.Some? then RefsOfEntries(c.asgUpdatePolicy.value) else {})
            <= BASE_NAMES + EXTERNAL_NAMES + ConfigRefs(c)
  {
    VolumesRefs(c.volumeSize);
    TagRefs(c.componentName, c.eksExtraTags);
    StatementsRefs(c.iamPolicies);
    FragmentsRefs(c.enableEfs, c.eksAgentExtraConfig, c.eksAdditionalUserdata);
  }

  /** Every resource of `m` refers only to names in `allowed`. */
  predicate AllWithin(m: map<string, Resource>, allowed: set<string>)
  {
    forall n :: n in m ==> Within(m[n], allowed)
  }

  lemma UnionWithin(m1: map<string, Resource>, m2: map<string, Resource>, allowed: set<string>)
    requires AllWithin(m1, allowed) && AllWithin(m2, allowed)
    ensures AllWithin(m1 + m2, allowed)
  {
  }

  function ScalingAllowed(a: map<string, Value>): set<string>
  {
    {"EksCluster", "AutoScaleGroup", "ScaleUpPolicy", "ScaleDownPolicy"} + AutoscaleRefs(a)
  }

  lemma MemoryAlarmsRefs(a: map<string, Value>)
    ensures AllWithin(MemoryAlarms(a), ScalingAllowed(a))
  {
    var allowed := ScalingAllowed(a);
    var high := Interp([Str("Scale-up if MemoryReservation > "), Fetch(a, "memory_high"), Str("% for 2 minutes")]);
    var low := Interp([Str("Scale-down if MemoryReservation < "), Fetch(a, "memory_low"), Str("%")]);
    DescriptionRefs("Scale-up if MemoryReservation > ", Fetch(a, "memory_high"), "% for 2 minutes");
    DescriptionRefs("Scale-down if MemoryReservation < ", Fetch(a, "memory_low"), "%");
    AlarmRefs(high, "MemoryReservation", Fetch(a, "memory_high"), "ScaleUpPolicy", "GreaterThanThreshold", allowed);
    AlarmRefs(low, "MemoryReservation", Fetch(a, "memory_low"), "ScaleDownPolicy", "LessThanThreshold", allowed);
  }

  lemma CpuAlarmsRefs(a: map<string, Value>)
    ensures AllWithin(CpuAlarms(a), ScalingAllowed(a))
  {
    var allowed := ScalingAllowed(a);
    var high := Interp([Str("Scale-up if CPUReservation > "), Fetch(a, "cpu_high"), Str("%")]);
    var low := Interp([Str("Scale-up if CPUReservation < "), Fetch(a, "cpu_low"), Str("%")]);
    DescriptionRefs("Scale-up if CPUReservation > ", Fetch(a, "cpu_high"), "%");
    DescriptionRefs("Scale-up if CPUReservation < ", Fetch(a, "cpu_low"), "%");
    AlarmRefs(high, "CPUReservation", Fetch(a, "cpu_high"), "ScaleUpPolicy", "GreaterThanThreshold", allowed);
    AlarmRefs(low, "CPUReservation", Fetch(a, "cpu_low"), "ScaleDownPolicy", "LessThanThreshold", allowed);
  }

  lemma ScalingPoliciesRefs(a: map<string, Value>)
    ensures AllWithin(map["ScaleUpPolicy" := ScalingPolicy(Fetch(a, "scale_up_adjustment")),
                          "ScaleDownPolicy" := ScalingPolicy(Fetch(a, "scale_down_adjustment"))],
                      ScalingAllowed(a))
  {
  }

  /** The scaling block refers to the cluster, the scaling group, its own
      policies and the configured thresholds and adjustments. */
  lemma ScalingRefs(a: map<string, Value>)
    ensures AllWithin(ScalingResources(Some(a)), ScalingAllowed(a))
  {
    var allowed := ScalingAllowed(a);
    var memory := if "memory_high" in a then MemoryAlarms(a) else map[];
    var cpu := if "cpu_high" in a then CpuAlarms(a) else map[];
    var policies := map["ScaleUpPolicy" := ScalingPolicy(Fetch(a, "scale_up_adjustment")),
                        "ScaleDownPolicy" := ScalingPolicy(Fetch(a, "scale_down_adjustment"))];
    assert ScalingResources(Some(a)) == memory + cpu + policies;
    MemoryAlarmsRefs(a);
    CpuAlarmsRefs(a);
    ScalingPoliciesRefs(a);
    UnionWithin(memory, cpu, allowed);
    UnionWithin(memory + cpu, policies, allowed);
  }

  /** The base resources built for `c`. */
  lemma BaseOfRefs(c: Config)
    ensures AllWithin(BaseOf(c), BASE_NAMES + EXTERNAL_NAMES + ConfigRefs(c))
  {
    var allowed := BASE_NAMES + EXTERNAL_NAMES + ConfigRefs(c);
    ListsRefs(c);
    BaseResourcesRefs(c, Tags.MergedTags(c.componentName, c.eksExtraTags), Iam.Statements(c.iamPolicies),
                      UserData.Fragments(c.enableEfs, c.eksAgentExtraConfig, c.eksAdditionalUserdata),
                      allowed);
  }

  /** The two conditions test the `EnableScaling` and `SpotPrice` parameters. */
  lemma ConditionRefs(c: Config)
    ensures var t := TemplateOf(c);
      forall k :: k in t.conditions ==> Refs(t.conditions[k]) <= {"EnableScaling", "SpotPrice"}
  {
    assert TemplateOf(c).conditions
        == map[SCALING_CONDITION := Equals(Ref("EnableScaling"), Str("true")),
               "SpotPriceSet" := Not(Equals(Ref("SpotPrice"), Str("")))];
  }

  /** The reference invariant of the assembler: every `Ref` and `FnGetAtt` in
      any resource names a resource of the same template, a stack or pseudo
      parameter, or a name carried in by a configuration value; the outputs
      name resources of the template, and the two conditions name only stack
      parameters. In particular every reference the template file itself
      writes to a scaling policy, to the scaling group or to the cluster is to
      a resource that is emitted; a reference carried in by a configuration
      value may name anything. */
  lemma ReferencesResolve(c: Config)
    ensures var t := TemplateOf(c);
      AllWithin(t.resources, t.resources.Keys + EXTERNAL_NAMES + ConfigRefs(c))
    ensures var t := TemplateOf(c);
      forall n :: n in t.outputs ==> Refs(t.outputs[n].value) <= t.resources.Keys
    ensures var t := TemplateOf(c);
      forall k :: k in t.conditions ==> Refs(t.conditions[k]) <= EXTERNAL_NAMES
  {
    var t := TemplateOf(c);
    ConditionRefs(c);
    forall n | n in t.resources
      ensures Within(t.resources[n], t.resources.Keys + EXTERNAL_NAMES + ConfigRefs(c))
    {
      ResourceRefs(c, n);
    }
    OutputRefs(c);
  }

  lemma ResourceRefs(c: Config, n: string)
    requires n in TemplateOf(c).resources
    ensures Within(TemplateOf(c).resources[n], TemplateOf(c).resources.Keys + EXTERNAL_NAMES + ConfigRefs(c))
  {
    var t := TemplateOf(c);
    var allowed := t.resources.Keys + EXTERNAL_NAMES + ConfigRefs(c);
    ResourceKeys(c);
    ResourceAt(c, n);
    if n in BASE_NAMES {
      BaseOfRefs(c);
      WithinMono(t.resources[n], BASE_NAMES + EXTERNAL_NAMES + ConfigRefs(c), allowed);
    } else {
      var a := c.eksAutoscale.value;
      ScalingRefs(a);
      PoliciesIn(a);
      assert AutoscaleRefs(a) <= ConfigRefs(c);
      WithinMono(t.resources[n], ScalingAllowed(a), allowed);
    }
  }

  lemma OutputsRefs(componentName: string)
    ensures var o := Outputs(componentName);
      forall n :: n in o ==> Refs(o[n].value) <= {"EksCluster", "SecurityGroupEks"}
  {
  }

  lemma OutputRefs(c: Config)
    ensures var t := TemplateOf(c);
      forall n :: n in t.outputs ==> Refs(t.outputs[n].value) <= t.resources.Keys
  {
    assert TemplateOf(c).outputs == Outputs(c.componentName);
    OutputsRefs(c.componentName);
    BaseAt(c, "EksCluster");
    BaseAt(c, "SecurityGroupEks");
  }

  lemma WithinMono(r: Resource, small: set<string>, large: set<string>)
    requires Within(r, small) && small <= large
    ensures Within(r, large)
  {
  }
}
