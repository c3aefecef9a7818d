/**
 * The client-profile store and the investment rule of `CognitiveFinancialAdvisor` in
 * src/modules/cognitive_advisors/cognitive_advisor.py. The store is the sequence of its rows.
 */
module CognitiveAdvisors {
  import opened Wrappers
  import opened Exceptions

  datatype ClientProfile = ClientProfile(
    clientId: string,
    age: int,
    income: real,
    riskTolerance: string,
    goals: seq<string>)

  const LowRisk: seq<string> := ["Bonds", "Fixed Deposits"]
  const MediumRisk: seq<string> := ["Balanced Funds", "Index Funds"]
  const HighRisk: seq<string> := ["Stocks", "Cryptocurrency", "ETFs"]

  /** The fixed recommendation for a risk tolerance: "low", "medium", and anything else. */
  function Recommendations(riskTolerance: string): (r: seq<string>)
    ensures riskTolerance == "low" <==> r == LowRisk
    ensures riskTolerance == "medium" <==> r == MediumRisk
    ensures riskTolerance != "low" && riskTolerance != "medium" <==> r == HighRisk
  {
    if riskTolerance == "low" then LowRisk
    else if riskTolerance == "medium" then MediumRisk
    else HighRisk
  }

  /** The position of the first profile with this client id, if there is one. */
  function FirstProfile(profiles: seq<ClientProfile>, clientId: string): (r: Option<nat>)
    ensures r.None? <==> forall i :: 0 <= i < |profiles| ==> profiles[i].clientId != clientId
    ensures r.Some? ==> r.value < |profiles| && profiles[r.value].clientId == clientId
                        && forall j :: 0 <= j < r.value ==> profiles[j].clientId != clientId
  {
    if profiles == [] then None
    else if profiles[0].clientId == clientId then Some(0)
    else
      match FirstProfile(profiles[1..], clientId)
      case None => None
      case Some(k) => Some(k + 1)
  }

  class CognitiveFinancialAdvisor {
    var clientProfiles: seq<ClientProfile>

    constructor ()
      ensures clientProfiles == []
    {
      clientProfiles := [];
    }

    /** Appends one profile; a client id may occur several times. */
    method AddClientProfile(clientId: string, age: int, income: real, riskTolerance: string, goals: seq<string>)
      modifies this
      ensures clientProfiles == old(clientProfiles) + [ClientProfile(clientId, age, income, riskTolerance, goals)]
    {
      clientProfiles := clientProfiles + [ClientProfile(clientId, age, income, riskTolerance, goals)];
    }

    /**
     * The recommendation for the first profile with this id, and `[]` when none has it. A store
     * that never had a profile has no `client_id` column, so the lookup raises `KeyError`.
     */
    function RecommendInvestments(clientId: string): (r: Result<seq<string>, Exception>)
      reads this
      ensures clientProfiles == [] ==> r == Err(KeyError("client_id"))
      ensures clientProfiles != [] && (forall i :: 0 <= i < |clientProfiles| ==> clientProfiles[i].clientId != clientId)
              ==> r == Ok([])
      ensures forall i :: 0 <= i < |clientProfiles| && clientProfiles[i].clientId == clientId
                          && (forall j :: 0 <= j < i ==> clientProfiles[j].clientId != clientId)
                          ==> r == Ok(Recommendations(clientProfiles[i].riskTolerance))
    {
      if clientProfiles == [] then Err(KeyError("client_id"))
      else
        match FirstProfile(clientProfiles, clientId)
        case None => Ok([])
        case Some(i) => Ok(Recommendations(clientProfiles[i].riskTolerance))
    }
  }
}
