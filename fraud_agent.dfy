/**
 * `check_for_fraud` of agents/fraud_agent.py: a profile is suspect when the
 * name on the PAN card and the name on the Aadhaar card differ, a missing
 * name counting as `None`.
 */
module FraudAgent {
  import opened PyValues

  /** The dictionary the check returns. */
  datatype FraudVerdict = FraudVerdict(isFraud: bool, reason: string)

  const NameMismatch: string := "Name mismatch in documents."
  const NoRedFlags: string := "No obvious red flags detected."

  /** Fraud exactly when `customer_data.get("pan_name") != customer_data.get("aadhar_name")`. */
  function CheckForFraud(customerData: map<string, Value>): (v: FraudVerdict)
    ensures v.isFraud <==> !PyEq(Get(customerData, "pan_name"), Get(customerData, "aadhar_name"))
    ensures v.reason == if v.isFraud then NameMismatch else NoRedFlags
  {
    if !PyEq(Get(customerData, "pan_name"), Get(customerData, "aadhar_name")) then
      FraudVerdict(true, NameMismatch)
    else
      FraudVerdict(false, NoRedFlags)
  }

  /** The check only reads the two names: profiles that agree on them get the same verdict. */
  lemma OnlyNamesMatter(a: map<string, Value>, b: map<string, Value>)
    requires Get(a, "pan_name") == Get(b, "pan_name") && Get(a, "aadhar_name") == Get(b, "aadhar_name")
    ensures CheckForFraud(a) == CheckForFraud(b)
  {
  }

  /** Swapping the two names gives the same verdict. */
  lemma SymmetricInNames(customerData: map<string, Value>, panName: Value, aadharName: Value)
    ensures CheckForFraud(customerData["pan_name" := panName]["aadhar_name" := aadharName])
            == CheckForFraud(customerData["pan_name" := aadharName]["aadhar_name" := panName])
  {
    PyEqSymmetric(Some(panName), Some(aadharName));
  }

  /** Neither name present: `None == None`, so no fraud is reported. */
  lemma BothNamesMissing(customerData: map<string, Value>)
    requires "pan_name" !in customerData && "aadhar_name" !in customerData
    ensures CheckForFraud(customerData) == FraudVerdict(false, NoRedFlags)
  {
  }

  /** Exactly one name present: a value is never `None`, so the profile is flagged. */
  lemma OneNameMissing(customerData: map<string, Value>)
    requires ("pan_name" in customerData) != ("aadhar_name" in customerData)
    ensures CheckForFraud(customerData) == FraudVerdict(true, NameMismatch)
  {
  }

  /** The same name on both cards is not flagged. */
  lemma MatchingNamesPass(customerData: map<string, Value>, name: string)
    ensures !CheckForFraud(customerData["pan_name" := Str(name)]["aadhar_name" := Str(name)]).isFraud
  {
  }
}
