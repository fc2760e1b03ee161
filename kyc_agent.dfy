/**
 * `verify_documents` of agents/kyc_agent.py: a placeholder classifier that calls
 * any text mentioning the income-tax department a PAN card with fixed details.
 * The text is an input here; reading it from an image is not modelled.
 */
module KycAgent {
  import opened Text

  /** The dictionary `verify_documents` returns: a document type and its details. */
  datatype KycVerdict = KycVerdict(docType: string, details: map<string, string>)

  const IncomeTaxMarker: string := "INCOME TAX"
  const PanDetails: map<string, string> := map["pan_number" := "ABCDE1234F", "pan_name" := "ROHIT SHARMA"]

  /**
   * A PAN card with the fixed details exactly when the upper-cased text
   * contains "INCOME TAX"; otherwise an unknown document with no details.
   */
  function VerifyDocuments(extractedText: string): (v: KycVerdict)
    ensures v.docType == "PAN" || v.docType == "Unknown"
    ensures v.docType == "PAN" <==> exists i :: OccursAt(Upper(extractedText), IncomeTaxMarker, i)
    ensures v.details == if v.docType == "PAN" then PanDetails else map[]
  {
    ContainsSpec(Upper(extractedText), IncomeTaxMarker);
    if Contains(Upper(extractedText), IncomeTaxMarker) then KycVerdict("PAN", PanDetails)
    else KycVerdict("Unknown", map[])
  }

  /** The test ignores case: lowering the text first gives the same verdict. */
  lemma VerdictIgnoresCase(extractedText: string)
    ensures VerifyDocuments(Lower(extractedText)) == VerifyDocuments(extractedText)
  {
    UpperOfLower(extractedText);
  }

  /**
   * "income tax" written anywhere, in any case, makes the text a PAN card, and
   * the details are the fixed ones whatever else the text says.
   */
  lemma IncomeTaxAnywhereIsPan(before: string, after: string)
    ensures VerifyDocuments(before + "income tax" + after) == KycVerdict("PAN", PanDetails)
  {
    UpperConcat(before + "income tax", after);
    UpperConcat(before, "income tax");
    assert Upper("income tax") == IncomeTaxMarker;
    ContainsInfix(Upper(before), IncomeTaxMarker, Upper(after));
  }
}
