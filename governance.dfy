/**
 * `GovernanceFramework` of src/modules/ethical_governance/governance.py: a table of policies
 * (id, description, status) that grows by appending, has its statuses updated in place, and
 * is filtered and printed. The table is the sequence of its rows.
 */
module Governance {
  import opened Reports

  datatype Policy = Policy(policyId: string, description: string, status: string)

  const ActiveStatus := "active"

  /** `policy_id in policies['policy_id'].values`. */
  predicate HasPolicy(policies: seq<Policy>, policyId: string) {
    exists i :: 0 <= i < |policies| && policies[i].policyId == policyId
  }

  /** The table after `policies.loc[policies['policy_id'] == policyId, 'status'] = status`. */
  function WithStatus(policies: seq<Policy>, policyId: string, status: string): (r: seq<Policy>)
    ensures |r| == |policies|
    ensures forall i :: 0 <= i < |policies| ==>
              r[i] == if policies[i].policyId == policyId then policies[i].(status := status) else policies[i]
  {
    if policies == [] then []
    else
      var first := if policies[0].policyId == policyId then policies[0].(status := status) else policies[0];
      [first] + WithStatus(policies[1..], policyId, status)
  }

  /** Updating an id no row carries changes nothing. */
  lemma WithStatusUnknown(policies: seq<Policy>, policyId: string, status: string)
    requires !HasPolicy(policies, policyId)
    ensures WithStatus(policies, policyId, status) == policies
  {
  }

  /** Whether `b` holds the elements of `a` in the same order, possibly with others between them. */
  ghost predicate IsSubsequence(a: seq<Policy>, b: seq<Policy>)
    decreases |b|
  {
    if a == [] then true
    else if b == [] then false
    else if a[0] == b[0] then IsSubsequence(a[1..], b[1..])
    else IsSubsequence(a, b[1..])
  }

  /** `policies[policies['status'] == 'active']`: the active rows, in table order. */
  function ActivePolicies(policies: seq<Policy>): (r: seq<Policy>)
    ensures forall p :: p in r ==> p.status == ActiveStatus
    ensures forall p: Policy :: p.status == ActiveStatus ==> multiset(r)[p] == multiset(policies)[p]
    ensures IsSubsequence(r, policies)
  {
    if policies == [] then []
    else
      var rest := ActivePolicies(policies[1..]);
      assert policies == [policies[0]] + policies[1..];
      if policies[0].status == ActiveStatus then [policies[0]] + rest else rest
  }

  const GovernanceHeader := "Governance Framework Policies Report\n" + Repeat('=', 50) + "\n"

  function PolicyBlock(p: Policy): string {
    "Policy ID: " + p.policyId + "\n"
    + "  Description: " + p.description + "\n"
    + "  Status: " + p.status + "\n"
    + Repeat('-', 50) + "\n"
  }

  /** The governance report: the header, then one block per policy in table order. */
  function GovernanceReport(policies: seq<Policy>): string {
    Report(GovernanceHeader, policies, PolicyBlock)
  }

  /** Adding a policy extends the report by exactly that policy's block. */
  lemma ReportAfterAdd(policies: seq<Policy>, p: Policy)
    ensures GovernanceReport(policies + [p]) == GovernanceReport(policies) + PolicyBlock(p)
  {
    ReportAppend(GovernanceHeader, policies, p, PolicyBlock);
  }

  class GovernanceFramework {
    var policies: seq<Policy>

    constructor ()
      ensures policies == []
    {
      policies := [];
    }

    /** Appends one row; ids are not checked for duplicates. */
    method AddPolicy(policyId: string, description: string, status: string := ActiveStatus)
      modifies this
      ensures policies == old(policies) + [Policy(policyId, description, status)]
      ensures HasPolicy(policies, policyId)
    {
      policies := policies + [Policy(policyId, description, status)];
      assert policies[|policies| - 1].policyId == policyId;
    }

    /** Sets the status of every row with this id; an unknown id is only logged. */
    method UpdatePolicy(policyId: string, status: string)
      modifies this
      ensures policies == WithStatus(old(policies), policyId, status)
      ensures !HasPolicy(old(policies), policyId) ==> policies == old(policies)
    {
      if HasPolicy(policies, policyId) {
        var i := 0;
        while i < |policies|
          invariant 0 <= i <= |policies| == |old(policies)|
          invariant forall j :: 0 <= j < i ==>
                      policies[j] == if old(policies)[j].policyId == policyId
                                     then old(policies)[j].(status := status) else old(policies)[j]
          invariant forall j :: i <= j < |policies| ==> policies[j] == old(policies)[j]
        {
          if policies[i].policyId == policyId {
            policies := policies[i := policies[i].(status := status)];
          }
          i := i + 1;
        }
      } else {
        WithStatusUnknown(policies, policyId, status);
      }
    }

    function GetActivePolicies(): (r: seq<Policy>)
      reads this
      ensures r == ActivePolicies(policies)
    {
      ActivePolicies(policies)
    }

    method GenerateGovernanceReport() returns (report: string)
      ensures report == GovernanceReport(policies)
    {
      var rows := policies;
      report := GovernanceHeader;
      ReportEmpty(GovernanceHeader, PolicyBlock);
      assert rows[..0] == [];
      for i := 0 to |rows|
        invariant report == GovernanceReport(rows[..i])
      {
        ReportPrefix(GovernanceHeader, rows, i, PolicyBlock);
        report := report + PolicyBlock(rows[i]);
      }
      assert rows[..|rows|] == rows;
    }
  }
}
