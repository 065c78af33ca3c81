/** The role's inline policies: one allow statement per `iam_policies` entry. */
module Iam {
  import opened Wrappers
  import opened Cfn

  /** `iam_policy_allow(name, action, resource)` is a helper defined outside the
      template file; the model records the call and its arguments. */
  function PolicyAllow(name: string, action: Value, resource: Value): Value
  {
    Call("iam_policy_allow", [Str(name), action, resource])
  }

  /** Line 52: the entry's action, and its resource or the wildcard. */
  function Statement(name: string, policy: map<string, Value>): Value
  {
    PolicyAllow(name, Fetch(policy, "action"), Or(Fetch(policy, "resource"), Str("*")))
  }

  function Statements(policies: Option<seq<(string, map<string, Value>)>>): seq<Value>
  {
    match policies
    case None => []
    case Some(entries) =>
      seq(|entries|, i requires 0 <= i < |entries| => Statement(entries[i].0, entries[i].1))
  }

  /** Lines 50-53: the list is built by appending one statement per entry. */
  method Build(policies: Option<seq<(string, map<string, Value>)>>) returns (statements: seq<Value>)
    ensures statements == Statements(policies)
  {
    statements := [];
    if policies.Some? {
      var entries := policies.value;
      for i := 0 to |entries|
        invariant |statements| == i
        invariant forall j :: 0 <= j < i ==> statements[j] == Statement(entries[j].0, entries[j].1)
      {
        var (name, policy) := entries[i];
        var resource := if "resource" in policy then policy["resource"] else Null;
        if !Truthy(resource) {
          resource := Str("*");
        }
        var action := if "action" in policy then policy["action"] else Null;
        statements := statements + [PolicyAllow(name, action, resource)];
      }
    }
  }

  /** One statement per entry, in the order of the hash, each allowing the
      entry's action on its resource, or on '*' when the entry gives no
      resource (or a nil or false one); no statements when `iam_policies`
      is not defined. */
  lemma StatementsSpec(policies: Option<seq<(string, map<string, Value>)>>)
    ensures policies.None? ==> Statements(policies) == []
    ensures policies.Some? ==>
      var entries := policies.value;
      && |Statements(policies)| == |entries|
      && forall i :: 0 <= i < |entries| ==>
           var (name, policy) := entries[i];
           Statements(policies)[i]
             == PolicyAllow(name,
                            if "action" in policy then policy["action"] else Null,
                            if "resource" in policy && Truthy(policy["resource"])
                            then policy["resource"] else Str("*"))
  {
  }
}
