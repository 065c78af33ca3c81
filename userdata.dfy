/** The launch configuration's user-data script: an ordered list of fragments,
    each a literal or a `Ref`, later joined with the empty separator. */
module UserData {
  import opened Wrappers
  import opened Cfn

  const SHEBANG := "#!/bin/bash\n"
  const CONFIG_SUFFIX := " >> /etc/eks/eks.config\n"
  const INSTANCE_ID_LINE := "INSTANCE_ID=$(/opt/aws/bin/ec2-metadata --instance-id|/usr/bin/awk '{print $2}')\n"
  const HOSTNAME_CMD := "hostname "
  const HOST_SUFFIX := "-eks-${INSTANCE_ID}\n"
  const NETWORK_CMD := "sed '/HOSTNAME/d' /etc/sysconfig/network > /tmp/network && mv -f /tmp/network /etc/sysconfig/network && echo \"HOSTNAME="
  const NETWORK_SUFFIX := "-eks-${INSTANCE_ID}\" >>/etc/sysconfig/network && /etc/init.d/network restart\n"
  const CLUSTER_CMD := "echo EKS_CLUSTER="
  const MKDIR_EFS := "mkdir /efs\n"
  const INSTALL_NFS := "yum install -y nfs-utils\n"
  const MOUNT_CMD := "mount -t nfs4 -o nfsvers=4.1,rsize=1048576,wsize=1048576,hard,timeo=600,retrans=2 "
  const EFS_INFIX := ".efs."
  const EFS_SUFFIX := ".amazonaws.com:/ /efs\n"

  /** The eleven fragments every script starts with: set the hostname from the
      instance id and record the cluster name. */
  const PREFIX: seq<Value> := [
    Str(SHEBANG),
    Str(INSTANCE_ID_LINE),
    Str(HOSTNAME_CMD),
    Ref("EnvironmentName"),
    Str(HOST_SUFFIX),
    Str(NETWORK_CMD),
    Ref("EnvironmentName"),
    Str(NETWORK_SUFFIX),
    Str(CLUSTER_CMD),
    Ref("EksCluster"),
    Str(CONFIG_SUFFIX)
  ]

  /** The seven fragments that mount the EFS file system of this region. */
  const EFS_BLOCK: seq<Value> := [
    Str(MKDIR_EFS),
    Str(INSTALL_NFS),
    Str(MOUNT_CMD),
    Ref("FileSystem"),
    Str(EFS_INFIX),
    Ref("AWS::Region"),
    Str(EFS_SUFFIX)
  ]

  /** The two fragments that append `key=value` to the agent's config file. */
  function AgentLine(entry: (string, string)): seq<Value>
  {
    [Str("echo " + entry.0 + "=" + entry.1), Str(CONFIG_SUFFIX)]
  }

  /** The agent-config fragments, in the order of the hash. */
  function AgentFragments(entries: seq<(string, string)>): seq<Value>
  {
    if entries == [] then []
    else AgentFragments(entries[..|entries| - 1]) + AgentLine(entries[|entries| - 1])
  }

  /** One newline-terminated fragment per additional line. */
  function LineFragments(lines: seq<string>): seq<Value>
  {
    if lines == [] then []
    else LineFragments(lines[..|lines| - 1]) + [Str(lines[|lines| - 1] + "\n")]
  }

  function EntriesOf<T>(o: Option<seq<T>>): seq<T>
  {
    match o
    case None => []
    case Some(s) => s
  }

  /** The whole fragment list of lines 66-95. */
  function Fragments(enableEfs: Value, agentConfig: Option<seq<(string, string)>>,
                     additionalLines: Option<seq<string>>): seq<Value>
  {
    Head(enableEfs)
      + AgentFragments(EntriesOf(agentConfig))
      + LineFragments(EntriesOf(additionalLines))
  }

  /** Lines 66-77: the script starts with the fixed prefix, one fragment per append. */
  method StartScript() returns (userData: seq<Value>)
    ensures userData == PREFIX
  {
    userData := [];
    userData := userData + [Str(SHEBANG)];
    userData := userData + [Str(INSTANCE_ID_LINE)];
    userData := userData + [Str(HOSTNAME_CMD)];
    userData := userData + [Ref("EnvironmentName")];
    userData := userData + [Str(HOST_SUFFIX)];
    userData := userData + [Str(NETWORK_CMD)];
    userData := userData + [Ref("EnvironmentName")];
    userData := userData + [Str(NETWORK_SUFFIX)];
    userData := userData + [Str(CLUSTER_CMD)];
    userData := userData + [Ref("EksCluster")];
    userData := userData + [Str(CONFIG_SUFFIX)];
    assert |userData| == 11;
    assert forall i :: 0 <= i < 11 ==> userData[i] == PREFIX[i];
  }

  /** Lines 79-85: the EFS mount block appended to the script so far. */
  method AppendEfsMount(before: seq<Value>) returns (userData: seq<Value>)
    ensures userData == before + EFS_BLOCK
  {
    userData := before;
    userData := userData + [Str(MKDIR_EFS)];
    userData := userData + [Str(INSTALL_NFS)];
    userData := userData + [Str(MOUNT_CMD)];
    userData := userData + [Ref("FileSystem")];
    userData := userData + [Str(EFS_INFIX)];
    userData := userData + [Ref("AWS::Region")];
    userData := userData + [Str(EFS_SUFFIX)];
    assert |userData| == |before| + 7;
    assert forall i :: 0 <= i < |before| ==> userData[i] == before[i];
    assert forall i :: 0 <= i < 7 ==> userData[|before| + i] == EFS_BLOCK[i];
  }

  /** Lines 88-91: two fragments per agent-config entry, in the order of the hash. */
  method AppendAgentConfig(before: seq<Value>, entries: seq<(string, string)>) returns (userData: seq<Value>)
    ensures userData == before + AgentFragments(entries)
  {
    userData := before;
    for i := 0 to |entries|
      invariant userData == before + AgentFragments(entries[..i])
    {
      assert entries[..i + 1][..i] == entries[..i];
      userData := userData + [Str("echo " + entries[i].0 + "=" + entries[i].1)];
      userData := userData + [Str(CONFIG_SUFFIX)];
    }
    assert entries[..|entries|] == entries;
  }

  /** Lines 93-95: one newline-terminated fragment per additional line. */
  method AppendLines(before: seq<Value>, lines: seq<string>) returns (userData: seq<Value>)
    ensures userData == before + LineFragments(lines)
  {
    userData := before;
    for i := 0 to |lines|
      invariant userData == before + LineFragments(lines[..i])
    {
      assert lines[..i + 1][..i] == lines[..i];
      userData := userData + [Str(lines[i] + "\n")];
    }
    assert lines[..|lines|] == lines;
  }

  /** Lines 66-95: the script is built by appending fragments in order. */
  method Build(enableEfs: Value, agentConfig: Option<seq<(string, string)>>,
               additionalLines: Option<seq<string>>) returns (userData: seq<Value>)
    ensures userData == Fragments(enableEfs, agentConfig, additionalLines)
  {
    userData := StartScript();
    if Truthy(enableEfs) {
      userData := AppendEfsMount(userData);
    }
    assert userData == Head(enableEfs);
    userData := AppendAgentConfig(userData, EntriesOf(agentConfig));
    userData := AppendLines(userData, EntriesOf(additionalLines));
  }

  // ---------------------------------------------------------------------
  // Layout of the script

  lemma {:induction false} AgentFragmentsAt(entries: seq<(string, string)>)
    ensures |AgentFragments(entries)| == 2 * |entries|
    ensures forall j :: 0 <= j < |entries| ==>
      AgentFragments(entries)[2 * j] == Str("echo " + entries[j].0 + "=" + entries[j].1) &&
      AgentFragments(entries)[2 * j + 1] == Str(CONFIG_SUFFIX)
  {
    if entries != [] {
      var init := entries[..|entries| - 1];
      AgentFragmentsAt(init);
      forall j | 0 <= j < |init|
        ensures entries[j] == init[j]
      {
      }
    }
  }

  lemma {:induction false} LineFragmentsAt(lines: seq<string>)
    ensures |LineFragments(lines)| == |lines|
    ensures forall j :: 0 <= j < |lines| ==> LineFragments(lines)[j] == Str(lines[j] + "\n")
  {
    if lines != [] {
      var init := lines[..|lines| - 1];
      LineFragmentsAt(init);
      forall j | 0 <= j < |init|
        ensures lines[j] == init[j]
      {
      }
    }
  }

  /** The fragments that precede the agent-config lines. */
  function Head(enableEfs: Value): seq<Value>
  {
    PREFIX + (if Truthy(enableEfs) then EFS_BLOCK else [])
  }

  lemma {:induction false} HeadLayout(enableEfs: Value)
    ensures |Head(enableEfs)| == 11 + (if Truthy(enableEfs) then 7 else 0)
    ensures Head(enableEfs)[..11] == PREFIX
    ensures Truthy(enableEfs) ==> Head(enableEfs)[11..] == EFS_BLOCK
  {
    if Truthy(enableEfs) {
      assert (PREFIX + EFS_BLOCK)[11..] == EFS_BLOCK;
      assert (PREFIX + EFS_BLOCK)[..11] == PREFIX;
    } else {
      assert PREFIX + [] == PREFIX;
    }
  }

  /** The script is 11 + 7·[EFS] + 2·|agent config| + |additional lines| fragments long. */
  lemma ScriptLength(enableEfs: Value, agentConfig: Option<seq<(string, string)>>,
                     additionalLines: Option<seq<string>>)
    ensures |Fragments(enableEfs, agentConfig, additionalLines)|
         == 11 + (if Truthy(enableEfs) then 7 else 0)
          + 2 * |EntriesOf(agentConfig)| + |EntriesOf(additionalLines)|
  {
    HeadLayout(enableEfs);
    AgentFragmentsAt(EntriesOf(agentConfig));
    LineFragmentsAt(EntriesOf(additionalLines));
  }

  /** It starts with the shebang line and the fixed prefix that ends by
      recording the cluster name; the EFS block follows right after it when
      EFS is enabled. */
  lemma ScriptStart(enableEfs: Value, agentConfig: Option<seq<(string, string)>>,
                    additionalLines: Option<seq<string>>)
    ensures var ud := Fragments(enableEfs, agentConfig, additionalLines);
      && |ud| >= 11
      && ud[..11] == PREFIX
      && ud[0] == Str("#!/bin/bash\n")
      && ud[10] == Str(" >> /etc/eks/eks.config\n")
      && (Truthy(enableEfs) ==> |ud| >= 18 && ud[11..18] == EFS_BLOCK)
  {
    var h := Head(enableEfs);
    var tail := AgentFragments(EntriesOf(agentConfig)) + LineFragments(EntriesOf(additionalLines));
    var ud := Fragments(enableEfs, agentConfig, additionalLines);
    assert ud == h + tail;
    HeadLayout(enableEfs);
    assert ud[..11] == h[..11];
    if Truthy(enableEfs) {
      assert ud[11..18] == h[11..];
    }
  }

  lemma {:induction false} BodyAt(h: seq<Value>, agent: seq<(string, string)>, lines: seq<string>)
    ensures var ud := h + AgentFragments(agent) + LineFragments(lines);
      && |ud| == |h| + 2 * |agent| + |lines|
      && (forall j :: 0 <= j < |agent| ==>
            ud[|h| + 2 * j] == Str("echo " + agent[j].0 + "=" + agent[j].1) &&
            ud[|h| + 2 * j + 1] == Str(CONFIG_SUFFIX))
      && (forall j :: 0 <= j < |lines| ==>
            ud[|h| + 2 * |agent| + j] == Str(lines[j] + "\n"))
  {
    var a, l := AgentFragments(agent), LineFragments(lines);
    var ud := h + a + l;
    AgentFragmentsAt(agent);
    LineFragmentsAt(lines);
    forall j | 0 <= j < |agent|
      ensures ud[|h| + 2 * j] == a[2 * j] && ud[|h| + 2 * j + 1] == a[2 * j + 1]
    {
    }
    forall j | 0 <= j < |lines|
      ensures ud[|h| + |a| + j] == l[j]
    {
    }
  }

  /** After the prefix and the optional EFS block come two fragments per
      agent-config entry, then one newline-terminated fragment per extra line. */
  lemma ScriptBody(enableEfs: Value, agentConfig: Option<seq<(string, string)>>,
                   additionalLines: Option<seq<string>>)
    ensures var ud := Fragments(enableEfs, agentConfig, additionalLines);
      var start := 11 + (if Truthy(enableEfs) then 7 else 0);
      var agent, lines := EntriesOf(agentConfig), EntriesOf(additionalLines);
      && |ud| == start + 2 * |agent| + |lines|
      && (forall j :: 0 <= j < |agent| ==>
            ud[start + 2 * j] == Str("echo " + agent[j].0 + "=" + agent[j].1) &&
            ud[start + 2 * j + 1] == Str(CONFIG_SUFFIX))
      && (forall j :: 0 <= j < |lines| ==>
            ud[start + 2 * |agent| + j] == Str(lines[j] + "\n"))
  {
    var h := Head(enableEfs);
    HeadLayout(enableEfs);
    assert Fragments(enableEfs, agentConfig, additionalLines)
        == h + AgentFragments(EntriesOf(agentConfig)) + LineFragments(EntriesOf(additionalLines));
    BodyAt(h, EntriesOf(agentConfig), EntriesOf(additionalLines));
  }

  /** The agent-config and additional-line fragments are all literals. */
  lemma TailIsText(agent: seq<(string, string)>, lines: seq<string>)
    ensures forall v :: v in AgentFragments(agent) + LineFragments(lines) ==> v.Str?
  {
    var a, l := AgentFragments(agent), LineFragments(lines);
    AgentFragmentsAt(agent);
    LineFragmentsAt(lines);
    forall i | 0 <= i < |a|
      ensures a[i].Str?
    {
      assert a[2 * (i / 2)].Str? && a[2 * (i / 2) + 1].Str?;
    }
  }

  /** The file system and the region are referenced exactly when EFS is enabled. */
  lemma EfsIff(enableEfs: Value, agentConfig: Option<seq<(string, string)>>,
               additionalLines: Option<seq<string>>)
    ensures Ref("FileSystem") in Fragments(enableEfs, agentConfig, additionalLines) <==> Truthy(enableEfs)
    ensures Ref("AWS::Region") in Fragments(enableEfs, agentConfig, additionalLines) <==> Truthy(enableEfs)
  {
    var ud := Fragments(enableEfs, agentConfig, additionalLines);
    if Truthy(enableEfs) {
      ScriptStart(enableEfs, agentConfig, additionalLines);
      assert ud[14] == EFS_BLOCK[3] && ud[16] == EFS_BLOCK[5];
    } else {
      var tail := AgentFragments(EntriesOf(agentConfig)) + LineFragments(EntriesOf(additionalLines));
      assert ud == PREFIX + tail;
      TailIsText(EntriesOf(agentConfig), EntriesOf(additionalLines));
      assert Ref("FileSystem") !in PREFIX && Ref("AWS::Region") !in PREFIX;
    }
  }

  /** A literal that ends the current shell line. */
  predicate EndsLine(v: Value)
  {
    v.Str? && |v.s| > 0 && v.s[|v.s| - 1] == '\n'
  }

  /** The last fragment always ends its line, so the joined script ends with a
      newline whichever optional blocks are present. */
  lemma EndsWithNewline(enableEfs: Value, agentConfig: Option<seq<(string, string)>>,
                        additionalLines: Option<seq<string>>)
    ensures var ud := Fragments(enableEfs, agentConfig, additionalLines);
      |ud| > 0 && EndsLine(ud[|ud| - 1])
  {
    var agent, lines := EntriesOf(agentConfig), EntriesOf(additionalLines);
    ScriptStart(enableEfs, agentConfig, additionalLines);
    ScriptBody(enableEfs, agentConfig, additionalLines);
    var ud := Fragments(enableEfs, agentConfig, additionalLines);
    var start := 11 + (if Truthy(enableEfs) then 7 else 0);
    if |lines| > 0 {
      var last := lines[|lines| - 1];
      assert ud[|ud| - 1] == Str(last + "\n");
      assert (last + "\n")[|last|] == '\n';
    } else if |agent| > 0 {
      assert ud[|ud| - 1] == ud[start + 2 * (|agent| - 1) + 1];
    } else if Truthy(enableEfs) {
      assert ud[|ud| - 1] == ud[11..18][6];
    } else {
      assert ud[|ud| - 1] == ud[..11][10];
    }
  }
}
