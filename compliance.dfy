/**
 * `ComplianceChecker` of src/modules/ethical_governance/compliance.py: a log of compliance
 * records against the policies of one governance framework, and queries over it.
 */
module Compliance {
  import opened Wrappers
  import opened Reports
  import opened Governance

  datatype ComplianceRecord = ComplianceRecord(recordId: string, policyId: string, complianceStatus: string)

  const PolicyNotFound := "Policy not found."
  const NoRecordsFound := "No compliance records found."

  /** The status of the last record for `policyId`, or `None` when it has no record. */
  function LatestStatus(records: seq<ComplianceRecord>, policyId: string): (r: Option<string>)
    ensures r.None? <==> forall i :: 0 <= i < |records| ==> records[i].policyId != policyId
    ensures r.Some? ==> exists i :: 0 <= i < |records| && records[i].policyId == policyId
                                   && records[i].complianceStatus == r.value
                                   && forall j :: i < j < |records| ==> records[j].policyId != policyId
  {
    if records == [] then None
    else
      var last := records[|records| - 1];
      if last.policyId == policyId then Some(last.complianceStatus)
      else
        var r := LatestStatus(records[..|records| - 1], policyId);
        assert forall i :: 0 <= i < |records| - 1 ==> records[..|records| - 1][i] == records[i];
        r
  }

  /** A new record is the latest one for its policy and leaves every other policy's latest alone. */
  lemma LatestAfterAppend(records: seq<ComplianceRecord>, record: ComplianceRecord, policyId: string)
    ensures LatestStatus(records + [record], policyId)
            == if record.policyId == policyId then Some(record.complianceStatus)
               else LatestStatus(records, policyId)
  {
    assert (records + [record])[..|records|] == records;
  }

  const ComplianceHeader := "Compliance Check Report\n" + Repeat('=', 50) + "\n"

  function RecordBlock(record: ComplianceRecord): string {
    "Record ID: " + record.recordId + "\n"
    + "  Policy ID: " + record.policyId + "\n"
    + "  Compliance Status: " + record.complianceStatus + "\n"
    + Repeat('-', 50) + "\n"
  }

  /** The compliance report: the header, then one block per record in the order they were made. */
  function ComplianceReport(records: seq<ComplianceRecord>): string {
    Report(ComplianceHeader, records, RecordBlock)
  }

  /** Recording a check extends the report by exactly that record's block. */
  lemma ReportAfterCheck(records: seq<ComplianceRecord>, record: ComplianceRecord)
    ensures ComplianceReport(records + [record]) == ComplianceReport(records) + RecordBlock(record)
  {
    ReportAppend(ComplianceHeader, records, record, RecordBlock);
  }

  class ComplianceChecker {
    const governanceFramework: GovernanceFramework
    var complianceRecords: seq<ComplianceRecord>

    constructor (governanceFramework: GovernanceFramework)
      ensures this.governanceFramework == governanceFramework
      ensures complianceRecords == []
    {
      this.governanceFramework := governanceFramework;
      complianceRecords := [];
    }

    /**
     * Records a check against a policy the framework knows, whatever that policy's status;
     * a check against an unknown policy is only logged. The framework is never changed.
     */
    method CheckCompliance(recordId: string, policyId: string, complianceStatus: string)
      modifies this`complianceRecords
      ensures HasPolicy(governanceFramework.policies, policyId) ==>
                complianceRecords == old(complianceRecords) + [ComplianceRecord(recordId, policyId, complianceStatus)]
      ensures !HasPolicy(governanceFramework.policies, policyId) ==> complianceRecords == old(complianceRecords)
      ensures governanceFramework.policies == old(governanceFramework.policies)
      ensures HasPolicy(governanceFramework.policies, policyId) ==> GetComplianceStatus(policyId) == complianceStatus
    {
      if !HasPolicy(governanceFramework.policies, policyId) {
        return;
      }
      LatestAfterAppend(complianceRecords, ComplianceRecord(recordId, policyId, complianceStatus), policyId);
      complianceRecords := complianceRecords + [ComplianceRecord(recordId, policyId, complianceStatus)];
    }

    /**
     * An unknown policy (checked first), then a known policy without records, then the status
     * of the most recent record for the policy.
     */
    function GetComplianceStatus(policyId: string): (r: string)
      reads this, governanceFramework
      ensures !HasPolicy(governanceFramework.policies, policyId) ==> r == PolicyNotFound
      ensures HasPolicy(governanceFramework.policies, policyId)
              && (forall i :: 0 <= i < |complianceRecords| ==> complianceRecords[i].policyId != policyId)
              ==> r == NoRecordsFound
      ensures HasPolicy(governanceFramework.policies, policyId)
              && (exists i :: 0 <= i < |complianceRecords| && complianceRecords[i].policyId == policyId)
              ==> exists i :: 0 <= i < |complianceRecords| && complianceRecords[i].policyId == policyId
                              && complianceRecords[i].complianceStatus == r
                              && forall j :: i < j < |complianceRecords| ==> complianceRecords[j].policyId != policyId
    {
      if !HasPolicy(governanceFramework.policies, policyId) then PolicyNotFound
      else
        match LatestStatus(complianceRecords, policyId)
        case None => NoRecordsFound
        case Some(status) => status
    }

    method GenerateComplianceReport() returns (report: string)
      ensures report == ComplianceReport(complianceRecords)
    {
      var records := complianceRecords;
      report := ComplianceHeader;
      ReportEmpty(ComplianceHeader, RecordBlock);
      assert records[..0] == [];
      for i := 0 to |records|
        invariant report == ComplianceReport(records[..i])
      {
        ReportPrefix(ComplianceHeader, records, i, RecordBlock);
        report := report + RecordBlock(records[i]);
      }
      assert records[..|records|] == records;
    }
  }
}
