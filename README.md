# EKS component template assembler, modelled in Dafny

This project models the cfhighlander EKS component template, `hl-component-eks/eks.cfndsl.rb`.

Given a component configuration in which most keys are optional, the template assembles a CloudFormation template:

- an EKS cluster, a security group and two ingress rules;
- an IAM role and its instance profile;
- a launch configuration whose user data is a shell script built fragment by fragment;
- an auto scaling group tagged with a merged tag list;
- a log group;
- when `eks_autoscale` is configured, up to four reservation alarms and two scaling policies guarded by the `IsScalingEnabled` condition;
- three exported outputs.

The model has these modules:

- `Wrappers` (`wrappers.dfy`): `Option`. Each Ruby `defined?` key is one `Option` field of the configuration.
- `Cfn` (`cfn.dfy`): CloudFormation values as built by the cfndsl calls. Each value is an opaque constructor:
  - `Ref`, `GetAtt`, `Join`, `Sub`, `If`, `Base64`;
  - literals, lists and hashes;
  - `Call` for helpers defined outside the file.

  The module also has Ruby truthiness (`Truthy`, `Or`), hash lookup that yields `nil` when the key is missing (`Fetch`), and the set of logical names a value references (`Refs`).
- `Tags` (`tags.dfy`): the fixed tags, the tags from `eks_extra_tags`, and the key-based `uniq` keeping the first occurrence. `BuildTags` is the imperative builder; `MergedTags` specifies it.
- `Iam` (`iam.dfy`): the policy statement list. `Build` is the loop; `Statements` specifies it.
- `UserData` (`userdata.dfy`): the ordered user-data fragment list. The builder methods (`StartScript`, `AppendEfsMount`, `AppendAgentConfig`, `AppendLines`, `Build`) are specified by `Fragments`.
- `Assembler` (`assembler.dfy`): the configuration record, the resource and output records, one function per kind of resource, `TemplateOf` (the whole template), and the method `Assemble`. `Assemble` runs the builders and is proved equal to `TemplateOf`.
- `TemplateProperties` (`properties.dfy`): what the emitted template looks like, including resource selection, scaling wiring, conditions, launch configuration, scaling group and outputs.
- `References` (`references.dfy`): each logical name referenced inside any resource, output or condition of the template is one of these:
  - a resource of the template;
  - a parameter of the component or a pseudo parameter;
  - a name that came in through a configuration value.

## Model

| member | source | states |
|---|---|---|
| Tags.BuildTags | hl-component-eks/eks.cfndsl.rb:10-20 | The array built by appending the four fixed tags and one tag per `eks_extra_tags` entry, then deduplicated by key, equals `MergedTags`: extra tags first, Ruby `uniq` by key. |
| Tags.UniqByKeySpec | hl-component-eks/eks.cfndsl.rb:20 | `uniq` by key yields pairwise distinct keys and keeps exactly the input's key set. It keeps an order-preserving subsequence of the input, and the surviving tag for each key is the first one the input has. It equals `FirstOccurrences`, an independent filter that keeps position i exactly when no earlier tag has its key, so the survivors are also in first-occurrence order. |
| Tags.FixedTagsDistinct | hl-component-eks/eks.cfndsl.rb:11-14 | The four fixed tags have distinct keys, exactly `Name`, `Environment`, `EnvironmentType` and `Role`. |
| Tags.MergedTagsShape | hl-component-eks/eks.cfndsl.rb:16-20 | The merged list is the deduplicated extra tags, followed by the fixed tags whose keys no extra tag has, in their original order. |
| Tags.MergedTagsDistinct | hl-component-eks/eks.cfndsl.rb:20 | No two merged tags share a key. The merged key set is the extra keys plus the four fixed keys. |
| Tags.MergedTagsFixedKeysOnce | hl-component-eks/eks.cfndsl.rb:11-20 | Each of the four fixed keys occurs exactly once in the merged list, whatever the extra tags. |
| Tags.MergedTagsExtraWins | hl-component-eks/eks.cfndsl.rb:17-20 | For a key some extra tag has, the surviving tag is the first extra tag with that key. Otherwise it is the fixed tag. Every extra or fixed key has a surviving tag with that key. |
| Tags.MergedTagsPropagate | hl-component-eks/eks.cfndsl.rb:11-17 | Every merged tag is one of the built tags and is propagated at launch. |
| Iam.Build | hl-component-eks/eks.cfndsl.rb:50-53 | The loop over `iam_policies` yields `Statements(policies)`. |
| Iam.StatementsSpec | hl-component-eks/eks.cfndsl.rb:50-53 | There is no statement without `iam_policies`; otherwise there is exactly one per entry, in order. Each statement is `iam_policy_allow(name, action, resource)`, where the resource is `'*'` when the entry's `resource` is missing or falsy. |
| UserData.StartScript | hl-component-eks/eks.cfndsl.rb:66-77 | The script starts as the 11 fixed fragments: shebang, hostname set-up, cluster name line. |
| UserData.AppendEfsMount | hl-component-eks/eks.cfndsl.rb:78-86 | The EFS block appends exactly its 7 fragments, after what was there. |
| UserData.AppendAgentConfig | hl-component-eks/eks.cfndsl.rb:88-91 | The loop over the agent config appends two fragments per entry, in order. |
| UserData.AppendLines | hl-component-eks/eks.cfndsl.rb:93-95 | The loop over the additional lines appends one newline-terminated fragment per line, in order. |
| UserData.Build | hl-component-eks/eks.cfndsl.rb:66-95 | The imperative assembly of the user data yields `Fragments`, which is the prefix, then the optional EFS block, then the agent fragments, then the line fragments. |
| UserData.ScriptLength | hl-component-eks/eks.cfndsl.rb:66-95 | The fragment count is 11 + (7 if EFS is enabled) + 2 × the number of agent entries + the number of extra lines. |
| UserData.ScriptStart | hl-component-eks/eks.cfndsl.rb:66-86 | The list starts with the eleven-fragment prefix, the first being `#!/bin/bash\n` and the eleventh ` >> /etc/eks/eks.config\n`. With EFS enabled, the seven EFS fragments follow immediately. |
| UserData.ScriptBody | hl-component-eks/eks.cfndsl.rb:88-95 | After the head, fragment 2j is `echo key=value` for the j-th agent entry and fragment 2j+1 is the config-file suffix. Then comes `line + "\n"` for each extra line. |
| UserData.EfsIff | hl-component-eks/eks.cfndsl.rb:78-86 | The script references `FileSystem` and `AWS::Region` if and only if `enable_efs` is truthy. |
| UserData.EndsWithNewline | hl-component-eks/eks.cfndsl.rb:66-95 | The script is non-empty and its last fragment is a literal ending in a newline. |
| Assembler.Assemble | hl-component-eks/eks.cfndsl.rb:1-255 | Running the array builders and emitting every resource, condition and output yields `TemplateOf(c)`. |
| TemplateProperties.ResourceSelection | hl-component-eks/eks.cfndsl.rb:133-240 | The base resources are always emitted, and nothing outside base plus scaling names is. Both memory alarms appear if and only if `eks_autoscale` has `memory_high`; `memory_low` is not consulted. Both CPU alarms appear if and only if it has `cpu_high`. Both scaling policies appear if and only if `eks_autoscale` is defined. |
| TemplateProperties.ScalingBlock | hl-component-eks/eks.cfndsl.rb:133-240 | Every scaling resource carries `IsScalingEnabled`. Each alarm triggers the emitted policy of its direction, uses `GreaterThanThreshold` when high and `LessThanThreshold` when low, has its metric and the configured threshold, and watches the cluster. Each policy scales the group by its configured adjustment with a 300-second cooldown. |
| TemplateProperties.ScalingInTemplate | hl-component-eks/eks.cfndsl.rb:133-240 | In the whole template, a resource carries `IsScalingEnabled` exactly when it is a scaling resource, every condition named is declared, and the scaling wiring holds. Every other resource is unconditioned and is neither an alarm nor a scaling policy. |
| TemplateProperties.BaseUnconditioned | hl-component-eks/eks.cfndsl.rb:23-131 | No base resource carries a condition, and none is an alarm or a scaling policy. |
| TemplateProperties.LaunchConfigSpec | hl-component-eks/eks.cfndsl.rb:97-115 | `BlockDeviceMappings` is present if and only if `volume_size` is defined, and then it is the single `/dev/xvda` entry with that volume size. `SpotPrice` is always the `SpotPriceSet` conditional. `UserData` is the Base64 of the fragments joined with the empty separator. |
| TemplateProperties.MergedTagList | hl-component-eks/eks.cfndsl.rb:118-126 | Each merged tag becomes a Key/Value/PropagateAtLaunch hash with PropagateAtLaunch true, one per tag, in order. |
| TemplateProperties.AutoScaleGroupSpec | hl-component-eks/eks.cfndsl.rb:118-126 | The group's `Tags` are the merged tags as hashes, it launches from `LaunchConfig`, and it has an update policy if and only if `asg_update_policy` is defined. That policy is taken from the first entry; for an empty hash both its kind and its body are nil. |
| TemplateProperties.RoleAndClusterSpec | hl-component-eks/eks.cfndsl.rb:23-59 | The role's `Policies` are the IAM statement list. The cluster has `ClusterName` if and only if `cluster_name` is defined, with the value `${EnvironmentName}-<cluster_name>`. |
| TemplateProperties.OutputsSpec | hl-component-eks/eks.cfndsl.rb:242-253 | There are exactly three outputs, `EksCluster`, `EksClusterArn` and `EksSecurityGroup`. Each is exported as `${EnvironmentName}-<component_name>-<output>`, and each value refers to an emitted resource. |
| TemplateProperties.OutputsIndependent | hl-component-eks/eks.cfndsl.rb:242-253 | The outputs depend only on the component name, not on any optional key. |
| References.ReferencesResolve | hl-component-eks/eks.cfndsl.rb:7-253 | Every `Ref`/`GetAtt` inside any resource names one of three things: a resource of the same template, a component or pseudo parameter, or a name carried in by a configuration value. Every output value references a resource of the template. The two conditions reference only the `EnableScaling` and `SpotPrice` parameters. |

## Left out

- The cfndsl library is not part of this model. That covers `CloudFormation`, `Resource`, `Property` and the `Fn*` functions, as well as serialising the template to JSON. Their calls are opaque value constructors, and the `Description` and resource kinds are recorded as given.
- The helpers `az_conditions_resources`, `az_conditional_resources`, `iam_policy_allow` and `service_role_assume_policy` are defined outside this file. They appear as uninterpreted `Call` values. What they expand to is not modelled: the per-zone subnet conditions, the statement documents and the assume-role document.
- CloudFormation evaluates `IsScalingEnabled`, `SpotPriceSet`, `Fn::Sub`, `Fn::Join` and `Fn::Base64` at deploy time. The model records only the expressions.
- The configuration file that supplies defaults is not part of this model. Every required key is a parameter of the configuration record.
- References.ReferencesResolve: does not parse `${...}` placeholders inside `Fn::Sub` strings as references. It counts only `Ref` and `GetAtt` values.
- Ruby `to_s` of non-string values is not modelled:
  - agent-config entries are taken as strings;
  - alarm descriptions interpolate the threshold as an opaque value;
  - the log retention is the configured value;
  - the tag keys `"#{key}"` (line 17), `cluster_name` inside the `FnSub` (line 24) and each `"#{user_data_line}\n"` (line 94) are taken as strings, so a non-string configuration value that Ruby would convert with `to_s` has no counterpart.
- A key that is defined but nil or not of the expected shape is not modelled. Examples are `eks_extra_tags:` with no value, an `iam_policies` entry that is not a hash, and a nil `eks_autoscale`. On a nil value Ruby raises `NoMethodError` (lines 17, 51-52, 88, 93, 135). Other shapes either raise a different error or are accepted silently: an Integer policy entry raises `TypeError` at line 52, a String policy entry is indexed by `String#[]` and still yields a statement, and an Array `eks_extra_tags` or `eks_agent_extra_config` is walked by `Array#each` (lines 17, 88). In the model each defined key is an `Option` that holds a well-formed collection, so none of these paths can be expressed.
- Hash ordering: resources, outputs and conditions are maps, so the declaration order of the emitted template is not kept. The builder lists (tags, statements, user data) keep their order.
- The hashes the template iterates are sequences of entries: `eks_extra_tags`, `iam_policies`, `eks_agent_extra_config` and `asg_update_policy`. That admits duplicate keys, which a Ruby hash cannot have, so the properties of those lists are proved for a wider input set. `eks_autoscale` and each policy entry are only looked up by key, so they are maps.

Three behaviours of the template file that the model keeps as written:

- `SpotPrice` is always `FnIf('SpotPriceSet', Ref('SpotPrice'), Ref('AWS::NoValue'))` and is never omitted (line 113).
- The scaling block can emit six resources: four alarms and two policies (lines 133-240).
- The low CPU alarm's description reads "Scale-up if CPUReservation < …" (line 204).
