/** The template assembler of eks.cfndsl.rb: from the component configuration
    to the resources, conditions and outputs of one CloudFormation template. */
module Assembler {
  import opened Wrappers
  import opened Cfn
  import Tags
  import UserData
  import Iam

  /** The configuration the template reads. Every key the template file tests with
      `defined?` is an `Option`; the others are always present. Ruby hashes
      whose order matters are lists of entries. */
  datatype Config = Config(
    componentName: string,
    componentVersion: string,
    maximumAvailabilityZones: int,
    clusterName: Option<string>,
    eksExtraTags: Option<seq<(string, Value)>>,
    iamPolicies: Option<seq<(string, map<string, Value>)>>,
    enableEfs: Value,
    eksAgentExtraConfig: Option<seq<(string, string)>>,
    eksAdditionalUserdata: Option<seq<string>>,
    volumeSize: Option<Value>,
    asgUpdatePolicy: Option<seq<(string, Value)>>,
    logGroupRetention: string,
    eksAutoscale: Option<map<string, Value>>)

  datatype UpdatePolicy = UpdatePolicy(kind: Value, body: Value)

  /** One resource declaration: its type, the stack condition guarding it,
      its properties and, for the scaling group, its update policy. */
  datatype Resource = Resource(
    kind: string,
    condition: Option<string>,
    properties: map<string, Value>,
    updatePolicy: Option<UpdatePolicy>)

  datatype Output = Output(value: Value, exportName: Value)

  datatype Template = Template(
    description: string,
    conditions: map<string, Value>,
    azConditions: Value,
    resources: map<string, Resource>,
    outputs: map<string, Output>)

  const ALARM := "AWS::CloudWatch::Alarm"
  const SCALING_POLICY := "AWS::AutoScaling::ScalingPolicy"
  const SCALING_CONDITION := "IsScalingEnabled"

  /** The resources every template declares. */
  const BASE_NAMES: set<string> := {
    "EksCluster", "SecurityGroupEks", "LoadBalancerIngressRule", "BastionIngressRule",
    "Role", "InstanceProfile", "LaunchConfig", "AutoScaleGroup", "LogGroup" }

  /** The resources only an `eks_autoscale` hash brings in. */
  const SCALING_NAMES: set<string> := {
    "MemoryReservationAlarmHigh", "MemoryReservationAlarmLow",
    "CPUReservationAlarmHigh", "CPUReservationAlarmLow",
    "ScaleUpPolicy", "ScaleDownPolicy" }

  const OUTPUT_NAMES: set<string> := {"EksCluster", "EksClusterArn", "EksSecurityGroup"}

  // ---------------------------------------------------------------------
  // Lists built before emission

  /** Lines 97-103: the one root-volume mapping, present only with `volume_size`. */
  function Volumes(volumeSize: Option<Value>): seq<Value>
  {
    match volumeSize
    case None => []
    case Some(size) =>
      [Hash([("DeviceName", Str("/dev/xvda")), ("Ebs", Hash([("VolumeSize", size)]))])]
  }

  function TagValue(t: Tags.Tag): Value
  {
    Hash([("Key", Str(t.key)), ("Value", t.value), ("PropagateAtLaunch", Bool(t.propagateAtLaunch))])
  }

  function TagList(ts: seq<Tags.Tag>): seq<Value>
  {
    seq(|ts|, i requires 0 <= i < |ts| => TagValue(ts[i]))
  }

  /** Line 119: `UpdatePolicy(keys[0], values[0])`, both nil for an empty hash. */
  function FirstUpdatePolicy(entries: seq<(string, Value)>): UpdatePolicy
  {
    if entries == [] then UpdatePolicy(Null, Null) else UpdatePolicy(Str(entries[0].0), entries[0].1)
  }

  // ---------------------------------------------------------------------
  // Resources

  function EksCluster(clusterName: Option<string>): Resource
  {
    Resource("AWS::EKS::Cluster", None,
      match clusterName
      case None => map[]
      case Some(n) => map["ClusterName" := Sub("${EnvironmentName}-" + n)],
      None)
  }

  function SecurityGroup(componentName: string): Resource
  {
    Resource("AWS::EC2::SecurityGroup", None,
      map["GroupDescription" := Join(" ", [Ref("EnvironmentName"), Str(componentName)]),
          "VpcId" := Ref("VPCId")],
      None)
  }

  function IngressRule(description: string, fromPort: string, toPort: string, source: string): Resource
  {
    Resource("AWS::EC2::SecurityGroupIngress", None,
      map["Description" := Str(description),
          "IpProtocol" := Str("tcp"),
          "FromPort" := Str(fromPort),
          "ToPort" := Str(toPort),
          "GroupId" := GetAtt("SecurityGroupEks", "GroupId"),
          "SourceSecurityGroupId" := Ref(source)],
      None)
  }

  function Role(policies: seq<Value>): Resource
  {
    Resource("AWS::IAM::Role", None,
      map["AssumeRolePolicyDocument" := Call("service_role_assume_policy", [Str("ec2")]),
          "Path" := Str("/"),
          "Policies" := List(policies)],
      None)
  }

  function InstanceProfile(): Resource
  {
    Resource("AWS::IAM::InstanceProfile", None,
      map["Path" := Str("/"), "Roles" := List([Ref("Role")])],
      None)
  }

  /** Lines 105-115. */
  function LaunchConfig(volumeSize: Option<Value>, volumes: seq<Value>, userData: seq<Value>): Resource
  {
    var always := map[
      "ImageId" := Ref("Ami"),
      "InstanceType" := Ref("InstanceType"),
      "AssociatePublicIpAddress" := Bool(false),
      "IamInstanceProfile" := Ref("InstanceProfile"),
      "KeyName" := Ref("KeyName"),
      "SecurityGroups" := List([Ref("SecurityGroupEks")]),
      "SpotPrice" := If("SpotPriceSet", Ref("SpotPrice"), Ref("AWS::NoValue")),
      "UserData" := Base64(Join("", userData))];
    Resource("AWS::AutoScaling::LaunchConfiguration", None,
      if volumeSize.Some? then always["BlockDeviceMappings" := List(volumes)] else always,
      None)
  }

  /** Lines 118-126. */
  function AutoScaleGroup(c: Config, tags: seq<Tags.Tag>): Resource
  {
    Resource("AWS::AutoScaling::AutoScalingGroup", None,
      map["LaunchConfigurationName" := Ref("LaunchConfig"),
          "HealthCheckGracePeriod" := Str("500"),
          "MinSize" := Ref("AsgMin"),
          "MaxSize" := Ref("AsgMax"),
          "VPCZoneIdentifier" := Call("az_conditional_resources",
                                      [Str("SubnetCompute"), Num(c.maximumAvailabilityZones)]),
          "Tags" := List(TagList(tags))],
      match c.asgUpdatePolicy
      case None => None
      case Some(entries) => Some(FirstUpdatePolicy(entries)))
  }

  function LogGroup(retention: string): Resource
  {
    Resource("AWS::Logs::LogGroup", None,
      map["LogGroupName" := Ref("AWS::StackName"), "RetentionInDays" := Str(retention)],
      None)
  }

  /** One EKS-namespace reservation alarm, guarded by the scaling condition. */
  function Alarm(description: Value, metric: string, threshold: Value, policy: string, operator: string): Resource
  {
    Resource(ALARM, Some(SCALING_CONDITION),
      map["AlarmDescription" := description,
          "MetricName" := Str(metric),
          "Namespace" := Str("AWS/EKS"),
          "Statistic" := Str("Maximum"),
          "Period" := Str("60"),
          "EvaluationPeriods" := Str("2"),
          "Threshold" := threshold,
          "AlarmActions" := List([Ref(policy)]),
          "Dimensions" := List([Hash([("Name", Str("ClusterName")), ("Value", Ref("EksCluster"))])]),
          "ComparisonOperator" := Str(operator)],
      None)
  }

  function ScalingPolicy(adjustment: Value): Resource
  {
    Resource(SCALING_POLICY, Some(SCALING_CONDITION),
      map["AdjustmentType" := Str("ChangeInCapacity"),
          "AutoScalingGroupName" := Ref("AutoScaleGroup"),
          "Cooldown" := Str("300"),
          "ScalingAdjustment" := adjustment],
      None)
  }

  function MemoryAlarms(a: map<string, Value>): map<string, Resource>
  {
    map["MemoryReservationAlarmHigh" :=
          Alarm(Interp([Str("Scale-up if MemoryReservation > "), Fetch(a, "memory_high"), Str("% for 2 minutes")]),
                "MemoryReservation", Fetch(a, "memory_high"), "ScaleUpPolicy", "GreaterThanThreshold"),
        "MemoryReservationAlarmLow" :=
          Alarm(Interp([Str("Scale-down if MemoryReservation < "), Fetch(a, "memory_low"), Str("%")]),
                "MemoryReservation", Fetch(a, "memory_low"), "ScaleDownPolicy", "LessThanThreshold")]
  }

  /** The low CPU alarm's description reads "Scale-up" in the template file too. */
  function CpuAlarms(a: map<string, Value>): map<string, Resource>
  {
    map["CPUReservationAlarmHigh" :=
          Alarm(Interp([Str("Scale-up if CPUReservation > "), Fetch(a, "cpu_high"), Str("%")]),
                "CPUReservation", Fetch(a, "cpu_high"), "ScaleUpPolicy", "GreaterThanThreshold"),
        "CPUReservationAlarmLow" :=
          Alarm(Interp([Str("Scale-up if CPUReservation < "), Fetch(a, "cpu_low"), Str("%")]),
                "CPUReservation", Fetch(a, "cpu_low"), "ScaleDownPolicy", "LessThanThreshold")]
  }

  /** Lines 133-240: the alarm pairs gated by `memory_high` and `cpu_high`,
      and the two policies whenever `eks_autoscale` is defined. */
  function ScalingResources(autoscale: Option<map<string, Value>>): map<string, Resource>
  {
    match autoscale
    case None => map[]
    case Some(a) =>
      (if "memory_high" in a then MemoryAlarms(a) else map[])
      + (if "cpu_high" in a then CpuAlarms(a) else map[])
      + map["ScaleUpPolicy" := ScalingPolicy(Fetch(a, "scale_up_adjustment")),
            "ScaleDownPolicy" := ScalingPolicy(Fetch(a, "scale_down_adjustment"))]
  }

  function Export(componentName: string, outputName: string): Value
  {
    Sub("${EnvironmentName}-" + componentName + "-" + outputName)
  }

  /** Lines 242-253. */
  function Outputs(componentName: string): map<string, Output>
  {
    map["EksCluster" := Output(Ref("EksCluster"), Export(componentName, "EksCluster")),
        "EksClusterArn" := Output(GetAtt("EksCluster", "Arn"), Export(componentName, "EksClusterArn")),
        "EksSecurityGroup" := Output(Ref("SecurityGroupEks"), Export(componentName, "EksSecurityGroup"))]
  }

  function BaseResources(c: Config, tags: seq<Tags.Tag>, policies: seq<Value>,
                         userData: seq<Value>, volumes: seq<Value>): map<string, Resource>
  {
    map["EksCluster" := EksCluster(c.clusterName),
        "SecurityGroupEks" := SecurityGroup(c.componentName),
        "LoadBalancerIngressRule" :=
          IngressRule("Ephemeral port range for EKS", "32768", "65535", "SecurityGroupLoadBalancer"),
        "BastionIngressRule" := IngressRule("SSH access from bastion", "22", "22", "SecurityGroupBastion"),
        "Role" := Role(policies),
        "InstanceProfile" := InstanceProfile(),
        "LaunchConfig" := LaunchConfig(c.volumeSize, volumes, userData),
        "AutoScaleGroup" := AutoScaleGroup(c, tags),
        "LogGroup" := LogGroup(c.logGroupRetention)]
  }

  /** The declarative part of the file, given the lists built before it. */
  function Emit(c: Config, tags: seq<Tags.Tag>, policies: seq<Value>,
                userData: seq<Value>, volumes: seq<Value>): Template
  {
    Template(
      c.componentName + " - " + c.componentVersion,
      map[SCALING_CONDITION := Equals(Ref("EnableScaling"), Str("true")),
          "SpotPriceSet" := Not(Equals(Ref("SpotPrice"), Str("")))],
      Call("az_conditions_resources", [Str("SubnetCompute"), Num(c.maximumAvailabilityZones)]),
      BaseResources(c, tags, policies, userData, volumes) + ScalingResources(c.eksAutoscale),
      Outputs(c.componentName))
  }

  /** The template the whole file produces for a configuration. */
  function TemplateOf(c: Config): Template
  {
    Emit(c,
         Tags.MergedTags(c.componentName, c.eksExtraTags),
         Iam.Statements(c.iamPolicies),
         UserData.Fragments(c.enableEfs, c.eksAgentExtraConfig, c.eksAdditionalUserdata),
         Volumes(c.volumeSize))
  }

  /** The file top to bottom: build the arrays, then emit. */
  method Assemble(c: Config) returns (t: Template)
    ensures t == TemplateOf(c)
  {
    var tags := Tags.BuildTags(c.componentName, c.eksExtraTags);
    var policies := Iam.Build(c.iamPolicies);
    var userData := UserData.Build(c.enableEfs, c.eksAgentExtraConfig, c.eksAdditionalUserdata);
    var volumes: seq<Value> := [];
    if c.volumeSize.Some? {
      volumes := volumes + [Hash([("DeviceName", Str("/dev/xvda")),
                                  ("Ebs", Hash([("VolumeSize", c.volumeSize.value)]))])];
    }
    assert volumes == Volumes(c.volumeSize);
    t := Emit(c, tags, policies, userData, volumes);
  }
}
