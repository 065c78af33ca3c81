/** What the emitted template guarantees, whatever the optional keys. */
module TemplateProperties {
  import opened Wrappers
  import opened Cfn
  import Tags
  import UserData
  import Iam
  import opened Assembler

  /** `eks_autoscale` is defined and has `key`. */
  predicate AutoscaleHas(c: Config, key: string)
  {
    c.eksAutoscale.Some? && key in c.eksAutoscale.value
  }

  lemma ScalingKeys(autoscale: Option<map<string, Value>>)
    ensures ScalingResources(autoscale).Keys
         == match autoscale
            case None => {}
            case Some(a) =>
              (if "memory_high" in a then {"MemoryReservationAlarmHigh", "MemoryReservationAlarmLow"} else {})
              + (if "cpu_high" in a then {"CPUReservationAlarmHigh", "CPUReservationAlarmLow"} else {})
              + {"ScaleUpPolicy", "ScaleDownPolicy"}
  {
  }

  lemma NamesDisjoint()
    ensures SCALING_NAMES !! BASE_NAMES
  {
  }

  lemma BaseKeys(c: Config, tags: seq<Tags.Tag>, policies: seq<Value>,
                  userData: seq<Value>, volumes: seq<Value>)
    ensures BaseResources(c, tags, policies, userData, volumes).Keys == BASE_NAMES
  {
  }

  lemma ResourceKeys(c: Config)
    ensures TemplateOf(c).resources.Keys == BASE_NAMES + ScalingResources(c.eksAutoscale).Keys
  {
    var t := TemplateOf(c);
    var base := BaseResources(c, Tags.MergedTags(c.componentName, c.eksExtraTags),
                              Iam.Statements(c.iamPolicies),
                              UserData.Fragments(c.enableEfs, c.eksAgentExtraConfig, c.eksAdditionalUserdata),
                              Volumes(c.volumeSize));
    assert t.resources == base + ScalingResources(c.eksAutoscale);
    BaseKeys(c, Tags.MergedTags(c.componentName, c.eksExtraTags),
             Iam.Statements(c.iamPolicies),
             UserData.Fragments(c.enableEfs, c.eksAgentExtraConfig, c.eksAdditionalUserdata),
             Volumes(c.volumeSize));
  }

  /** Membership in a template's resource names, from its two parts. */
  lemma SelectionFromKeys(c: Config, keys: set<string>)
    requires keys == BASE_NAMES + ScalingResources(c.eksAutoscale).Keys
    ensures && BASE_NAMES <= keys
            && keys <= BASE_NAMES + SCALING_NAMES
            && ("MemoryReservationAlarmHigh" in keys <==> AutoscaleHas(c, "memory_high"))
            && ("MemoryReservationAlarmLow" in keys <==> AutoscaleHas(c, "memory_high"))
            && ("CPUReservationAlarmHigh" in keys <==> AutoscaleHas(c, "cpu_high"))
            && ("CPUReservationAlarmLow" in keys <==> AutoscaleHas(c, "cpu_high"))
            && ("ScaleUpPolicy" in keys <==> c.eksAutoscale.Some?)
            && ("ScaleDownPolicy" in keys <==> c.eksAutoscale.Some?)
  {
    ScalingNamesOnly(c.eksAutoscale);
    ScalingGates(c.eksAutoscale);
    SelectionOf(c, keys, "MemoryReservationAlarmHigh");
    SelectionOf(c, keys, "MemoryReservationAlarmLow");
    SelectionOf(c, keys, "CPUReservationAlarmHigh");
    SelectionOf(c, keys, "CPUReservationAlarmLow");
    SelectionOf(c, keys, "ScaleUpPolicy");
    SelectionOf(c, keys, "ScaleDownPolicy");
  }

  /** Which key of `eks_autoscale` brings in each scaling resource. */
  lemma ScalingGates(autoscale: Option<map<string, Value>>)
    ensures var s := ScalingResources(autoscale);
      && ("MemoryReservationAlarmHigh" in s <==> autoscale.Some? && "memory_high" in autoscale.value)
      && ("MemoryReservationAlarmLow" in s <==> autoscale.Some? && "memory_high" in autoscale.value)
      && ("CPUReservationAlarmHigh" in s <==> autoscale.Some? && "cpu_high" in autoscale.value)
      && ("CPUReservationAlarmLow" in s <==> autoscale.Some? && "cpu_high" in autoscale.value)
      && ("ScaleUpPolicy" in s <==> autoscale.Some?)
      && ("ScaleDownPolicy" in s <==> autoscale.Some?)
  {
    ScalingKeys(autoscale);
    if autoscale.Some? {
      var a := autoscale.value;
      var m := if "memory_high" in a then {"MemoryReservationAlarmHigh", "MemoryReservationAlarmLow"} else {};
      var u := if "cpu_high" in a then {"CPUReservationAlarmHigh", "CPUReservationAlarmLow"} else {};
      GateSets(m, u, "memory_high" in a, "cpu_high" in a);
    }
  }

  lemma GateSets(m: set<string>, u: set<string>, memory: bool, cpu: bool)
    requires m == if memory then {"MemoryReservationAlarmHigh", "MemoryReservationAlarmLow"} else {}
    requires u == if cpu then {"CPUReservationAlarmHigh", "CPUReservationAlarmLow"} else {}
    ensures var k := m + u + {"ScaleUpPolicy", "ScaleDownPolicy"};
      && ("MemoryReservationAlarmHigh" in k <==> memory)
      && ("MemoryReservationAlarmLow" in k <==> memory)
      && ("CPUReservationAlarmHigh" in k <==> cpu)
      && ("CPUReservationAlarmLow" in k <==> cpu)
      && "ScaleUpPolicy" in k && "ScaleDownPolicy" in k
  {
  }

  /** A scaling name is among the keys exactly when the scaling block holds it. */
  lemma SelectionOf(c: Config, keys: set<string>, n: string)
    requires keys == BASE_NAMES + ScalingResources(c.eksAutoscale).Keys
    requires n in SCALING_NAMES
    ensures n in keys <==> n in ScalingResources(c.eksAutoscale)
  {
    NamesDisjoint();
  }

  /** Which resources appear: the nine base ones always; both memory alarms
      exactly when `eks_autoscale` has `memory_high` (whether or not it has
      `memory_low`); both CPU alarms exactly when it has `cpu_high`; both
      scaling policies exactly when `eks_autoscale` is defined; nothing else. */
  lemma ResourceSelection(c: Config)
    ensures var r := TemplateOf(c).resources;
      && BASE_NAMES <= r.Keys
      && r.Keys <= BASE_NAMES + SCALING_NAMES
      && ("MemoryReservationAlarmHigh" in r <==> AutoscaleHas(c, "memory_high"))
      && ("MemoryReservationAlarmLow" in r <==> AutoscaleHas(c, "memory_high"))
      && ("CPUReservationAlarmHigh" in r <==> AutoscaleHas(c, "cpu_high"))
      && ("CPUReservationAlarmLow" in r <==> AutoscaleHas(c, "cpu_high"))
      && ("ScaleUpPolicy" in r <==> c.eksAutoscale.Some?)
      && ("ScaleDownPolicy" in r <==> c.eksAutoscale.Some?)
  {
    ResourceKeys(c);
    SelectionFromKeys(c, TemplateOf(c).resources.Keys);
  }

  // ---------------------------------------------------------------------
  // Reaching into the template

  /** The base resources of the template for `c`, with the lists built for it. */
  function BaseOf(c: Config): map<string, Resource>
  {
    BaseResources(c, Tags.MergedTags(c.componentName, c.eksExtraTags),
                  Iam.Statements(c.iamPolicies),
                  UserData.Fragments(c.enableEfs, c.eksAgentExtraConfig, c.eksAdditionalUserdata),
                  Volumes(c.volumeSize))
  }

  lemma ScalingNamesOnly(autoscale: Option<map<string, Value>>)
    ensures ScalingResources(autoscale).Keys <= SCALING_NAMES
  {
    ScalingKeys(autoscale);
  }

  lemma UnionLeft(b: map<string, Resource>, s: map<string, Resource>, n: string)
    requires n in b && n !in s
    ensures n in b + s && (b + s)[n] == b[n]
  {
  }

  /** A base resource of an emitted template is the one the base map holds. */
  lemma EmitAt(c: Config, tags: seq<Tags.Tag>, policies: seq<Value>,
               userData: seq<Value>, volumes: seq<Value>, n: string)
    requires n in BASE_NAMES
    ensures var e := Emit(c, tags, policies, userData, volumes);
      n in e.resources && e.resources[n] == BaseResources(c, tags, policies, userData, volumes)[n]
  {
    var b := BaseResources(c, tags, policies, userData, volumes);
    var s := ScalingResources(c.eksAutoscale);
    assert Emit(c, tags, policies, userData, volumes).resources == b + s;
    BaseKeys(c, tags, policies, userData, volumes);
    ScalingNamesOnly(c.eksAutoscale);
    NamesDisjoint();
    UnionLeft(b, s, n);
  }

  lemma BaseAt(c: Config, n: string)
    requires n in BASE_NAMES
    ensures n in TemplateOf(c).resources && TemplateOf(c).resources[n] == BaseOf(c)[n]
  {
    EmitAt(c, Tags.MergedTags(c.componentName, c.eksExtraTags),
           Iam.Statements(c.iamPolicies),
           UserData.Fragments(c.enableEfs, c.eksAgentExtraConfig, c.eksAdditionalUserdata),
           Volumes(c.volumeSize), n);
  }

  /** The base resources the specifications below look into. */
  lemma BaseEntries(c: Config, tags: seq<Tags.Tag>, policies: seq<Value>,
                    userData: seq<Value>, volumes: seq<Value>)
    ensures var b := BaseResources(c, tags, policies, userData, volumes);
      && b["EksCluster"] == EksCluster(c.clusterName)
      && b["Role"] == Role(policies)
      && b["LaunchConfig"] == LaunchConfig(c.volumeSize, volumes, userData)
      && b["AutoScaleGroup"] == AutoScaleGroup(c, tags)
  {
  }

  /** Every entry of a nine-entry map display satisfies `P` when each resource does. */
  lemma DisplayAll(P: Resource -> bool,
                   k1: string, r1: Resource, k2: string, r2: Resource, k3: string, r3: Resource,
                   k4: string, r4: Resource, k5: string, r5: Resource, k6: string, r6: Resource,
                   k7: string, r7: Resource, k8: string, r8: Resource, k9: string, r9: Resource)
    requires P(r1) && P(r2) && P(r3) && P(r4) && P(r5) && P(r6) && P(r7) && P(r8) && P(r9)
    ensures var m := map[k1 := r1, k2 := r2, k3 := r3, k4 := r4, k5 := r5, k6 := r6,
                         k7 := r7, k8 := r8, k9 := r9];
      forall n :: n in m ==> P(m[n])
  {
  }

  /** `BaseResources` is such a display: a property of its nine members holds of every entry. */
  lemma BaseAll(P: Resource -> bool, c: Config, tags: seq<Tags.Tag>, policies: seq<Value>,
                userData: seq<Value>, volumes: seq<Value>)
    requires P(EksCluster(c.clusterName)) && P(SecurityGroup(c.componentName))
    requires P(IngressRule("Ephemeral port range for EKS", "32768", "65535", "SecurityGroupLoadBalancer"))
    requires P(IngressRule("SSH access from bastion", "22", "22", "SecurityGroupBastion"))
    requires P(Role(policies)) && P(InstanceProfile())
    requires P(LaunchConfig(c.volumeSize, volumes, userData)) && P(AutoScaleGroup(c, tags))
    requires P(LogGroup(c.logGroupRetention))
    ensures var b := BaseResources(c, tags, policies, userData, volumes);
      forall n :: n in b ==> P(b[n])
  {
    DisplayAll(P,
      "EksCluster", EksCluster(c.clusterName),
      "SecurityGroupEks", SecurityGroup(c.componentName),
      "LoadBalancerIngressRule",
      IngressRule("Ephemeral port range for EKS", "32768", "65535", "SecurityGroupLoadBalancer"),
      "BastionIngressRule", IngressRule("SSH access from bastion", "22", "22", "SecurityGroupBastion"),
      "Role", Role(policies),
      "InstanceProfile", InstanceProfile(),
      "LaunchConfig", LaunchConfig(c.volumeSize, volumes, userData),
      "AutoScaleGroup", AutoScaleGroup(c, tags),
      "LogGroup", LogGroup(c.logGroupRetention));
  }

  lemma ScalingAt(c: Config, n: string)
    requires n in ScalingResources(c.eksAutoscale)
    ensures n in TemplateOf(c).resources
    ensures TemplateOf(c).resources[n] == ScalingResources(c.eksAutoscale)[n]
  {
    assert TemplateOf(c).resources == BaseOf(c) + ScalingResources(c.eksAutoscale);
  }

  /** Every resource is either a base one or one of the scaling block. */
  lemma ResourceAt(c: Config, n: string)
    requires n in TemplateOf(c).resources
    ensures n in BASE_NAMES ==> n in BaseOf(c) && TemplateOf(c).resources[n] == BaseOf(c)[n]
    ensures n !in BASE_NAMES ==>
      n in ScalingResources(c.eksAutoscale) && TemplateOf(c).resources[n] == ScalingResources(c.eksAutoscale)[n]
  {
    ResourceKeys(c);
    if n in BASE_NAMES {
      BaseAt(c, n);
      BaseKeys(c, Tags.MergedTags(c.componentName, c.eksExtraTags),
               Iam.Statements(c.iamPolicies),
               UserData.Fragments(c.enableEfs, c.eksAgentExtraConfig, c.eksAdditionalUserdata),
               Volumes(c.volumeSize));
    } else {
      ScalingAt(c, n);
    }
  }

  // ---------------------------------------------------------------------
  // The autoscaling block

  /** The policy a given alarm triggers: scale up for the high alarms. */
  function PolicyFor(alarm: string): string
  {
    if alarm == "MemoryReservationAlarmHigh" || alarm == "CPUReservationAlarmHigh"
    then "ScaleUpPolicy" else "ScaleDownPolicy"
  }

  function OperatorFor(alarm: string): string
  {
    if alarm == "MemoryReservationAlarmHigh" || alarm == "CPUReservationAlarmHigh"
    then "GreaterThanThreshold" else "LessThanThreshold"
  }

  /** The configuration key whose value is the alarm's threshold. */
  function ThresholdKey(alarm: string): string
  {
    if alarm == "MemoryReservationAlarmHigh" then "memory_high"
    else if alarm == "MemoryReservationAlarmLow" then "memory_low"
    else if alarm == "CPUReservationAlarmHigh" then "cpu_high"
    else "cpu_low"
  }

  function MetricFor(alarm: string): string
  {
    if alarm == "MemoryReservationAlarmHigh" || alarm == "MemoryReservationAlarmLow"
    then "MemoryReservation" else "CPUReservation"
  }

  /** What the scaling block promises of its resource `n`: the scaling
      condition; for an alarm, the policy it triggers (emitted in the same
      block), its comparison, its metric, its threshold key and its fixed
      evaluation settings. */
  predicate WiredAt(s: map<string, Resource>, a: map<string, Value>, n: string)
    requires n in s
  {
    && n in SCALING_NAMES
    && s[n].condition == Some(SCALING_CONDITION)
    && (s[n].kind == ALARM || s[n].kind == SCALING_POLICY)
    && (s[n].kind == ALARM <==> n != "ScaleUpPolicy" && n != "ScaleDownPolicy")
    && (s[n].kind == ALARM ==>
          && s[n].properties.Keys >= {"AlarmActions", "ComparisonOperator", "MetricName", "Threshold",
                                      "Namespace", "Statistic", "Period", "EvaluationPeriods", "Dimensions"}
          && s[n].properties["AlarmActions"] == List([Ref(PolicyFor(n))])
          && PolicyFor(n) in s && s[PolicyFor(n)].kind == SCALING_POLICY
          && s[n].properties["ComparisonOperator"] == Str(OperatorFor(n))
          && s[n].properties["MetricName"] == Str(MetricFor(n))
          && s[n].properties["Threshold"] == Fetch(a, ThresholdKey(n))
          && s[n].properties["Namespace"] == Str("AWS/EKS")
          && s[n].properties["Statistic"] == Str("Maximum")
          && s[n].properties["Period"] == Str("60")
          && s[n].properties["EvaluationPeriods"] == Str("2")
          && s[n].properties["Dimensions"]
             == List([Hash([("Name", Str("ClusterName")), ("Value", Ref("EksCluster"))])]))
    && (s[n].kind == SCALING_POLICY ==>
          && s[n].properties.Keys == {"AdjustmentType", "AutoScalingGroupName", "Cooldown", "ScalingAdjustment"}
          && s[n].properties["AdjustmentType"] == Str("ChangeInCapacity")
          && s[n].properties["AutoScalingGroupName"] == Ref("AutoScaleGroup")
          && s[n].properties["Cooldown"] == Str("300")
          && s[n].properties["ScalingAdjustment"]
             == Fetch(a, if n == "ScaleUpPolicy" then "scale_up_adjustment" else "scale_down_adjustment"))
  }

  lemma AlarmWired(s: map<string, Resource>, a: map<string, Value>, n: string, description: Value)
    requires n in SCALING_NAMES && n != "ScaleUpPolicy" && n != "ScaleDownPolicy"
    requires n in s && s[n] == Alarm(description, MetricFor(n), Fetch(a, ThresholdKey(n)), PolicyFor(n), OperatorFor(n))
    requires PolicyFor(n) in s && s[PolicyFor(n)].kind == SCALING_POLICY
    ensures WiredAt(s, a, n)
  {
  }

  lemma PoliciesIn(a: map<string, Value>)
    ensures var s := ScalingResources(Some(a));
      && "ScaleUpPolicy" in s && s["ScaleUpPolicy"] == ScalingPolicy(Fetch(a, "scale_up_adjustment"))
      && "ScaleDownPolicy" in s && s["ScaleDownPolicy"] == ScalingPolicy(Fetch(a, "scale_down_adjustment"))
  {
  }

  lemma MemoryIn(a: map<string, Value>, n: string)
    requires "memory_high" in a
    requires n == "MemoryReservationAlarmHigh" || n == "MemoryReservationAlarmLow"
    ensures n in ScalingResources(Some(a)) && ScalingResources(Some(a))[n] == MemoryAlarms(a)[n]
  {
    var cpu := if "cpu_high" in a then CpuAlarms(a) else map[];
    assert n !in cpu;
  }

  lemma CpuIn(a: map<string, Value>, n: string)
    requires "cpu_high" in a
    requires n == "CPUReservationAlarmHigh" || n == "CPUReservationAlarmLow"
    ensures n in ScalingResources(Some(a)) && ScalingResources(Some(a))[n] == CpuAlarms(a)[n]
  {
  }

  lemma PolicyWired(a: map<string, Value>, n: string)
    requires n == "ScaleUpPolicy" || n == "ScaleDownPolicy"
    ensures n in ScalingResources(Some(a)) && WiredAt(ScalingResources(Some(a)), a, n)
  {
    PoliciesIn(a);
  }

  lemma MemoryWired(a: map<string, Value>, n: string)
    requires "memory_high" in a
    requires n == "MemoryReservationAlarmHigh" || n == "MemoryReservationAlarmLow"
    ensures n in ScalingResources(Some(a)) && WiredAt(ScalingResources(Some(a)), a, n)
  {
    PoliciesIn(a);
    MemoryIn(a, n);
    AlarmWired(ScalingResources(Some(a)), a, n, MemoryAlarms(a)[n].properties["AlarmDescription"]);
  }

  lemma CpuWired(a: map<string, Value>, n: string)
    requires "cpu_high" in a
    requires n == "CPUReservationAlarmHigh" || n == "CPUReservationAlarmLow"
    ensures n in ScalingResources(Some(a)) && WiredAt(ScalingResources(Some(a)), a, n)
  {
    PoliciesIn(a);
    CpuIn(a, n);
    AlarmWired(ScalingResources(Some(a)), a, n, CpuAlarms(a)[n].properties["AlarmDescription"]);
  }

  lemma ScalingEntry(a: map<string, Value>, n: string)
    requires n in ScalingResources(Some(a))
    ensures WiredAt(ScalingResources(Some(a)), a, n)
  {
    var memory := if "memory_high" in a then MemoryAlarms(a) else map[];
    var cpu := if "cpu_high" in a then CpuAlarms(a) else map[];
    var policies := map["ScaleUpPolicy" := ScalingPolicy(Fetch(a, "scale_up_adjustment")),
                        "ScaleDownPolicy" := ScalingPolicy(Fetch(a, "scale_down_adjustment"))];
    assert ScalingResources(Some(a)) == memory + cpu + policies;
    if n in policies {
      PolicyWired(a, n);
    } else if n in cpu {
      CpuWired(a, n);
    } else {
      assert n in memory;
      MemoryWired(a, n);
    }
  }

  /** Inside the scaling block: every resource carries `IsScalingEnabled`;
      every alarm triggers a scaling policy of the same block (scale up for the
      high alarms, scale down for the low ones), compares with "greater than"
      when high and "less than" when low, watches the cluster's memory or CPU
      reservation with the Maximum statistic over two 60-second periods, and
      takes its threshold from the matching key; each policy changes capacity
      of the scaling group by its adjustment key with a 300-second cooldown. */
  lemma ScalingBlock(autoscale: Option<map<string, Value>>)
    ensures forall n :: n in ScalingResources(autoscale) ==>
      WiredAt(ScalingResources(autoscale), autoscale.value, n)
  {
    if autoscale.Some? {
      forall n | n in ScalingResources(autoscale)
        ensures WiredAt(ScalingResources(autoscale), autoscale.value, n)
      {
        ScalingEntry(autoscale.value, n);
      }
    }
  }

  // ---------------------------------------------------------------------
  // The whole template

  predicate Unconditioned(r: Resource)
  {
    r.condition == None && r.kind != ALARM && r.kind != SCALING_POLICY
  }

  lemma BaseUnconditioned(c: Config, tags: seq<Tags.Tag>, policies: seq<Value>,
                          userData: seq<Value>, volumes: seq<Value>)
    ensures var b := BaseResources(c, tags, policies, userData, volumes);
      forall n :: n in b ==> b[n].condition == None && b[n].kind != ALARM && b[n].kind != SCALING_POLICY
  {
    BaseAll(Unconditioned, c, tags, policies, userData, volumes);
  }

  /** Wiring only looks at the entries it names, so it survives adding entries. */
  lemma WiredTransfer(s: map<string, Resource>, r: map<string, Resource>, a: map<string, Value>, n: string)
    requires n in s && WiredAt(s, a, n)
    requires forall k :: k in s ==> k in r && r[k] == s[k]
    ensures n in r && WiredAt(r, a, n)
  {
  }

  lemma ScalingIncluded(c: Config)
    ensures var s := ScalingResources(c.eksAutoscale);
      forall k :: k in s ==> k in TemplateOf(c).resources && TemplateOf(c).resources[k] == s[k]
  {
    var s := ScalingResources(c.eksAutoscale);
    forall k | k in s
      ensures k in TemplateOf(c).resources && TemplateOf(c).resources[k] == s[k]
    {
      ScalingAt(c, k);
    }
  }

  lemma ConditionsOf(c: Config)
    ensures TemplateOf(c).conditions.Keys == {SCALING_CONDITION, "SpotPriceSet"}
  {
  }

  /** What `ScalingInTemplate` states, for one resource `n`. */
  lemma TemplateEntry(c: Config, n: string)
    requires n in TemplateOf(c).resources
    ensures var r := TemplateOf(c).resources;
      && (n in SCALING_NAMES <==> r[n].condition == Some(SCALING_CONDITION))
      && (n in SCALING_NAMES ==> c.eksAutoscale.Some? && WiredAt(r, c.eksAutoscale.value, n))
      && (n !in SCALING_NAMES ==> r[n].condition == None && r[n].kind != ALARM && r[n].kind != SCALING_POLICY)
  {
    var r := TemplateOf(c).resources;
    ResourceAt(c, n);
    NamesDisjoint();
    if n in BASE_NAMES {
      BaseUnconditioned(c, Tags.MergedTags(c.componentName, c.eksExtraTags),
                        Iam.Statements(c.iamPolicies),
                        UserData.Fragments(c.enableEfs, c.eksAgentExtraConfig, c.eksAdditionalUserdata),
                        Volumes(c.volumeSize));
    } else {
      var s := ScalingResources(c.eksAutoscale);
      ScalingEntry(c.eksAutoscale.value, n);
      ScalingIncluded(c);
      WiredTransfer(s, r, c.eksAutoscale.value, n);
    }
  }

  /** Every resource of the scaling block, and only those, carries the
      `IsScalingEnabled` condition, which the template declares, and each
      keeps the wiring of the block: alarms trigger policies that the
      template also emits. */
  lemma ScalingInTemplate(c: Config)
    ensures var t := TemplateOf(c);
      && SCALING_CONDITION in t.conditions
      && forall n :: n in t.resources ==>
           && (n in SCALING_NAMES <==> t.resources[n].condition == Some(SCALING_CONDITION))
           && (t.resources[n].condition.Some? ==> t.resources[n].condition.value in t.conditions)
           && (n in SCALING_NAMES ==> c.eksAutoscale.Some? && WiredAt(t.resources, c.eksAutoscale.value, n))
           && (n !in SCALING_NAMES ==>
                 t.resources[n].condition == None &&
                 t.resources[n].kind != ALARM && t.resources[n].kind != SCALING_POLICY)
  {
    ConditionsOf(c);
    forall n | n in TemplateOf(c).resources
      ensures var r := TemplateOf(c).resources;
        && (n in SCALING_NAMES <==> r[n].condition == Some(SCALING_CONDITION))
        && (n in SCALING_NAMES ==> c.eksAutoscale.Some? && WiredAt(r, c.eksAutoscale.value, n))
        && (n !in SCALING_NAMES ==> r[n].condition == None && r[n].kind != ALARM && r[n].kind != SCALING_POLICY)
    {
      TemplateEntry(c, n);
    }
  }

  /** The base resource the template holds under `n`, for the lists built for `c`. */
  lemma TemplateBase(c: Config)
    ensures var r := TemplateOf(c).resources;
      var tags := Tags.MergedTags(c.componentName, c.eksExtraTags);
      var ud := UserData.Fragments(c.enableEfs, c.eksAgentExtraConfig, c.eksAdditionalUserdata);
      && "EksCluster" in r && r["EksCluster"] == EksCluster(c.clusterName)
      && "Role" in r && r["Role"] == Role(Iam.Statements(c.iamPolicies))
      && "LaunchConfig" in r && r["LaunchConfig"] == LaunchConfig(c.volumeSize, Volumes(c.volumeSize), ud)
      && "AutoScaleGroup" in r && r["AutoScaleGroup"] == AutoScaleGroup(c, tags)
  {
    BaseAt(c, "EksCluster");
    BaseAt(c, "Role");
    BaseAt(c, "LaunchConfig");
    BaseAt(c, "AutoScaleGroup");
    BaseEntries(c, Tags.MergedTags(c.componentName, c.eksExtraTags),
                Iam.Statements(c.iamPolicies),
                UserData.Fragments(c.enableEfs, c.eksAgentExtraConfig, c.eksAdditionalUserdata),
                Volumes(c.volumeSize));
  }

  lemma LaunchConfigShape(volumeSize: Option<Value>, userData: seq<Value>)
    ensures var p := LaunchConfig(volumeSize, Volumes(volumeSize), userData).properties;
      && ("BlockDeviceMappings" in p <==> volumeSize.Some?)
      && (volumeSize.Some? ==>
            p["BlockDeviceMappings"]
            == List([Hash([("DeviceName", Str("/dev/xvda")), ("Ebs", Hash([("VolumeSize", volumeSize.value)]))])]))
      && "SpotPrice" in p && p["SpotPrice"] == If("SpotPriceSet", Ref("SpotPrice"), Ref("AWS::NoValue"))
      && "UserData" in p && p["UserData"] == Base64(Join("", userData))
  {
  }

  /** The launch configuration: a root-volume mapping exactly when
      `volume_size` is defined (one `/dev/xvda` entry of that size), the spot
      price always behind the `SpotPriceSet` condition, and the user data the
      fragments joined with the empty separator. */
  lemma LaunchConfigSpec(c: Config)
    ensures "LaunchConfig" in TemplateOf(c).resources
    ensures var p := TemplateOf(c).resources["LaunchConfig"].properties;
      && ("BlockDeviceMappings" in p <==> c.volumeSize.Some?)
      && (c.volumeSize.Some? ==>
            p["BlockDeviceMappings"]
            == List([Hash([("DeviceName", Str("/dev/xvda")), ("Ebs", Hash([("VolumeSize", c.volumeSize.value)]))])]))
      && "SpotPrice" in p && p["SpotPrice"] == If("SpotPriceSet", Ref("SpotPrice"), Ref("AWS::NoValue"))
      && "UserData" in p
      && p["UserData"]
         == Base64(Join("", UserData.Fragments(c.enableEfs, c.eksAgentExtraConfig, c.eksAdditionalUserdata)))
      && "SpotPriceSet" in TemplateOf(c).conditions
  {
    TemplateBase(c);
    LaunchConfigShape(c.volumeSize, UserData.Fragments(c.enableEfs, c.eksAgentExtraConfig, c.eksAdditionalUserdata));
  }

  lemma AutoScaleGroupShape(c: Config, tags: seq<Tags.Tag>)
    ensures var g := AutoScaleGroup(c, tags);
      && "Tags" in g.properties && g.properties["Tags"] == List(TagList(tags))
      && "LaunchConfigurationName" in g.properties
      && g.properties["LaunchConfigurationName"] == Ref("LaunchConfig")
      && (g.updatePolicy.Some? <==> c.asgUpdatePolicy.Some?)
      && (c.asgUpdatePolicy.Some? && c.asgUpdatePolicy.value != [] ==>
            g.updatePolicy.value
            == UpdatePolicy(Str(c.asgUpdatePolicy.value[0].0), c.asgUpdatePolicy.value[0].1))
  {
  }

  /** Each merged tag becomes a Key/Value/PropagateAtLaunch hash with PropagateAtLaunch true. */
  lemma MergedTagList(componentName: string, extra: Option<seq<(string, Value)>>)
    ensures var merged := Tags.MergedTags(componentName, extra);
      && |TagList(merged)| == |merged|
      && (forall i :: 0 <= i < |merged| ==>
            TagList(merged)[i]
            == Hash([("Key", Str(merged[i].key)), ("Value", merged[i].value), ("PropagateAtLaunch", Bool(true))]))
  {
    Tags.MergedTagsPropagate(componentName, extra);
    var merged := Tags.MergedTags(componentName, extra);
    forall i | 0 <= i < |merged|
      ensures merged[i].propagateAtLaunch
    {
      assert merged[i] in merged;
    }
  }

  /** The scaling group: the merged tags, each as a Key/Value/PropagateAtLaunch
      hash with PropagateAtLaunch true; an update policy exactly when
      `asg_update_policy` is defined, taken from its first entry. */
  lemma AutoScaleGroupSpec(c: Config)
    ensures "AutoScaleGroup" in TemplateOf(c).resources
    ensures var g := TemplateOf(c).resources["AutoScaleGroup"];
      var merged := Tags.MergedTags(c.componentName, c.eksExtraTags);
      && "Tags" in g.properties
      && g.properties["Tags"] == List(TagList(merged))
      && |TagList(merged)| == |merged|
      && (forall i :: 0 <= i < |merged| ==>
            TagList(merged)[i]
            == Hash([("Key", Str(merged[i].key)), ("Value", merged[i].value), ("PropagateAtLaunch", Bool(true))]))
      && "LaunchConfigurationName" in g.properties
      && g.properties["LaunchConfigurationName"] == Ref("LaunchConfig")
      && (g.updatePolicy.Some? <==> c.asgUpdatePolicy.Some?)
      && (c.asgUpdatePolicy.Some? && c.asgUpdatePolicy.value != [] ==>
            g.updatePolicy.value
            == UpdatePolicy(Str(c.asgUpdatePolicy.value[0].0), c.asgUpdatePolicy.value[0].1))
      && (c.asgUpdatePolicy == Some([]) ==> g.updatePolicy == Some(UpdatePolicy(Null, Null)))
  {
    TemplateBase(c);
    AutoScaleGroupShape(c, Tags.MergedTags(c.componentName, c.eksExtraTags));
    MergedTagList(c.componentName, c.eksExtraTags);
  }

  /** The role's policies are the policy statements, one per `iam_policies`
      entry; the cluster is named `${EnvironmentName}-<cluster_name>` exactly
      when `cluster_name` is defined. */
  lemma RoleAndClusterSpec(c: Config)
    ensures "Role" in TemplateOf(c).resources && "EksCluster" in TemplateOf(c).resources
    ensures var p := TemplateOf(c).resources["Role"].properties;
      "Policies" in p && p["Policies"] == List(Iam.Statements(c.iamPolicies))
    ensures var p := TemplateOf(c).resources["EksCluster"].properties;
      && ("ClusterName" in p <==> c.clusterName.Some?)
      && (c.clusterName.Some? ==> p["ClusterName"] == Sub("${EnvironmentName}-" + c.clusterName.value))
  {
    TemplateBase(c);
  }

  lemma OutputsOf(componentName: string)
    ensures var o := Outputs(componentName);
      && o.Keys == OUTPUT_NAMES
      && (forall n :: n in o ==> o[n].exportName == Sub("${EnvironmentName}-" + componentName + "-" + n))
      && o["EksCluster"].value == Ref("EksCluster")
      && o["EksClusterArn"].value == GetAtt("EksCluster", "Arn")
      && o["EksSecurityGroup"].value == Ref("SecurityGroupEks")
  {
  }

  /** Exactly three outputs, each exported as
      `${EnvironmentName}-<component_name>-<output name>`, each naming a
      resource of the template. */
  lemma OutputsSpec(c: Config)
    ensures var t := TemplateOf(c);
      && t.outputs.Keys == OUTPUT_NAMES
      && (forall n :: n in t.outputs ==>
            t.outputs[n].exportName == Sub("${EnvironmentName}-" + c.componentName + "-" + n))
      && t.outputs["EksCluster"].value == Ref("EksCluster")
      && t.outputs["EksClusterArn"].value == GetAtt("EksCluster", "Arn")
      && t.outputs["EksSecurityGroup"].value == Ref("SecurityGroupEks")
      && "EksCluster" in t.resources && "SecurityGroupEks" in t.resources
  {
    assert TemplateOf(c).outputs == Outputs(c.componentName);
    OutputsOf(c.componentName);
    BaseAt(c, "EksCluster");
    BaseAt(c, "SecurityGroupEks");
  }

  /** The outputs depend on the component name alone, not on any optional key. */
  lemma OutputsIndependent(c1: Config, c2: Config)
    requires c1.componentName == c2.componentName
    ensures TemplateOf(c1).outputs == TemplateOf(c2).outputs
  {
  }
}
