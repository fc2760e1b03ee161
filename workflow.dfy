/**
 * The conversation state of app.py and the node functions that update it in
 * place, plus the two ways the interface drives them: a chat turn (the graph
 * from its entry) and a document upload (KYC, underwriting, then approval or
 * rejection). The hosted model is the parameter `llm`, a function of the
 * prompt about which nothing is assumed.
 */
module Workflow {
  import opened Text
  import opened PyValues
  import opened LifeEvents
  import opened AppRules
  import opened Graph

  // ---------------------------------------------------------------------
  // Fixed texts of the nodes

  const MarriageContext: string :=
    "Context: The user mentioned getting married. Gently guide them towards a personal loan for wedding expenses or a home loan."
  const MedicalContext: string :=
    "Context: The user mentioned a medical emergency. Be extremely empathetic. Offer a quick personal loan for medical expenses."
  const UploadErrorMessage: string := "There was an error with the file upload. Please try again."
  const ApprovalQuery: string := "Present the approved loan offer."
  const RejectionQuery: string := "Inform user about loan rejection and provide guidance."
  const EducationQuery: string := "Provide financial tips."
  const EducationContext: string := "Context: Provide 3 concise, actionable tips on managing debt responsibly."
  const DeclineLetterReply: string :=
    "No problem. Let me know if you change your mind. Would you like some financial literacy tips?"

  function KycFailedMessage(error: string): string {
    "KYC Failed: " + error + ". Please upload a clear Aadhar or PAN card image."
  }

  function KycSuccessMessage(docType: string, name: string): string {
    "Thank you! We've successfully verified your " + docType + ". Name: " + name + ". Proceeding with underwriting."
  }

  function ApprovalContext(underwritingResult: Option<Decision>): string {
    "Context: The user's loan is approved. Present this offer: " + DecisionRepr(underwritingResult)
  }

  function RejectionContext(reason: string, fhi: Value): string {
    "Context: The user's loan was not approved because: '" + reason + "'. Their FHI is " + PyStr(fhi)
    + ". Gently inform them and suggest a credit improvement plan."
  }

  function LetterReply(letter: string): string {
    "Excellent! Here is your sanction letter:\n\n---\n" + letter
    + "\n---\n\nWhat's next? I can offer some financial literacy tips."
  }

  // ---------------------------------------------------------------------
  // The sales node's rules

  /** The hint the sales node adds to the prompt for a detected event. */
  function SalesContext(event: LifeEvent): string {
    match event
    case Marriage => MarriageContext
    case MedicalEmergency => MedicalContext
    case _ => ""
  }

  /** The persona after a sales turn: marriage and medical emergencies switch it, nothing else does. */
  function PersonaAfterSales(event: LifeEvent, persona: string): (next: string)
    ensures persona in PersonaNames ==> next in PersonaNames
    ensures event == Marriage ==> next == FriendlyAdvisor
    ensures event == MedicalEmergency ==> next == EmpatheticListener
    ensures event == NewHouse || event == NoEvent ==> next == persona
  {
    match event
    case Marriage => FriendlyAdvisor
    case MedicalEmergency => EmpatheticListener
    case _ => persona
  }

  /** The two transcript lines a sales turn appends. */
  function TurnLines(query: string, response: string): seq<string> {
    ["User: " + query, "AI: " + response]
  }

  /**
   * The transcript is append-only, so the conversation block of the next prompt
   * is the previous block followed by the new turn: earlier turns keep their
   * text and their order.
   */
  lemma TranscriptGrowsByTurn(history: seq<string>, query: string, response: string)
    ensures Conversation(history + TurnLines(query, response)) ==
            (if history == [] then "" else Conversation(history) + "\n")
            + "User: " + query + "\nAI: " + response
  {
    JoinAppendPair(history, "User: " + query, "AI: " + response, "\n");
  }

  // ---------------------------------------------------------------------
  // The profile and the KYC node's rules

  /**
   * What the nodes need of the profile: numeric score inputs (the scorer
   * compares them with numbers) and a textual upload path (the classifier
   * takes its basename).
   */
  predicate ProfileWellFormed(customerData: map<string, Value>) {
    ScoreInputsNumeric(customerData)
    && ("uploaded_file_path" in customerData ==> customerData["uploaded_file_path"].Str?)
  }

  /** `customer_data.get("kyc_verified")` is truthy. */
  predicate KycVerified(customerData: map<string, Value>) {
    Truthy(Get(customerData, "kyc_verified"))
  }

  /** Nothing in app.py ever writes a credit score or an income into the profile. */
  predicate NoScoreInputs(customerData: map<string, Value>) {
    "credit_score" !in customerData && "income" !in customerData
  }

  /** The classifier's fields as profile values. */
  function AsProfileValues(doc: map<string, string>): (m: map<string, Value>)
    ensures m.Keys == doc.Keys
    ensures forall k :: k in doc ==> m[k] == Str(doc[k])
  {
    map k | k in doc :: Str(doc[k])
  }

  /** The upload path is set and truthy, so the classifier runs on it. */
  predicate HasUpload(customerData: map<string, Value>)
    requires ProfileWellFormed(customerData)
  {
    Truthy(Get(customerData, "uploaded_file_path"))
  }

  /** What the classifier says about the uploaded file. */
  function UploadedDocument(customerData: map<string, Value>): map<string, string>
    requires ProfileWellFormed(customerData) && HasUpload(customerData)
  {
    ExtractTextFromImage(customerData["uploaded_file_path"].s)
  }

  /** The classifier ran and did not recognize the document. */
  predicate KycFails(customerData: map<string, Value>)
    requires ProfileWellFormed(customerData)
  {
    HasUpload(customerData) && "error" in UploadedDocument(customerData)
  }

  /** The profile after the KYC node: a recognized document's fields merged in, and marked verified. */
  function KycProfile(customerData: map<string, Value>): map<string, Value>
    requires ProfileWellFormed(customerData)
  {
    if !HasUpload(customerData) || KycFails(customerData) then customerData
    else MergeVerified(customerData, UploadedDocument(customerData))
  }

  /** The reply of the KYC node. */
  function KycResponse(customerData: map<string, Value>): string
    requires ProfileWellFormed(customerData)
  {
    if !HasUpload(customerData) then UploadErrorMessage
    else
      var doc := UploadedDocument(customerData);
      if "error" in doc then KycFailedMessage(doc["error"])
      else KycSuccessMessage(doc["doc_type"], doc["name"])
  }

  /** Without an upload path the KYC node changes nothing but its reply, and does not set the done flag. */
  lemma KycWithoutUpload(customerData: map<string, Value>)
    requires ProfileWellFormed(customerData) && !HasUpload(customerData)
    ensures KycProfile(customerData) == customerData && !KycFails(customerData)
    ensures KycResponse(customerData) == UploadErrorMessage
  {
  }

  /** An unrecognized document leaves the profile as it was. */
  lemma KycFailureKeepsProfile(customerData: map<string, Value>)
    requires ProfileWellFormed(customerData) && KycFails(customerData)
    ensures KycProfile(customerData) == customerData
    ensures KycResponse(customerData) == KycFailedMessage(UnrecognizedDocument)
  {
  }

  /** Merging a document and then marking the profile verified, as the KYC node does. */
  function MergeVerified(customerData: map<string, Value>, doc: map<string, string>): map<string, Value> {
    (customerData + AsProfileValues(doc))["kyc_verified" := Bool(true)]
  }

  /** The merge keeps what the document does not mention and takes every document field. */
  lemma MergeVerifiedFacts(customerData: map<string, Value>, doc: map<string, string>)
    ensures var after := MergeVerified(customerData, doc);
            KycVerified(after)
            && (forall k :: k in doc && k != "kyc_verified" ==> k in after && after[k] == Str(doc[k]))
            && (forall k :: k in customerData && k !in doc && k != "kyc_verified" ==>
                              k in after && after[k] == customerData[k])
  {
  }

  /**
   * A recognized document adds every field the classifier produced, marks the
   * profile verified and keeps every other entry.
   */
  lemma KycSuccessMerges(customerData: map<string, Value>)
    requires ProfileWellFormed(customerData) && HasUpload(customerData) && !KycFails(customerData)
    ensures var doc := UploadedDocument(customerData);
            var after := KycProfile(customerData);
            KycVerified(after)
            && (forall k :: k in doc ==> k in after && after[k] == Str(doc[k]))
            && (forall k :: k in customerData && k !in doc && k != "kyc_verified" ==>
                              k in after && after[k] == customerData[k])
  {
    var doc := UploadedDocument(customerData);
    assert "kyc_verified" !in doc by {
      assert doc.Keys <= ClassifierKeys;
    }
    MergeVerifiedFacts(customerData, doc);
  }

  /** KYC keeps the profile well formed, never withdraws a verification and never adds score inputs. */
  lemma KycKeepsProfileInvariants(customerData: map<string, Value>)
    requires ProfileWellFormed(customerData)
    ensures ProfileWellFormed(KycProfile(customerData))
    ensures KycVerified(customerData) ==> KycVerified(KycProfile(customerData))
    ensures NoScoreInputs(customerData) ==> NoScoreInputs(KycProfile(customerData))
    ensures Get(KycProfile(customerData), "uploaded_file_path") == Get(customerData, "uploaded_file_path")
  {
    if HasUpload(customerData) && !KycFails(customerData) {
      var doc := UploadedDocument(customerData);
      assert doc.Keys <= ClassifierKeys;
      assert "credit_score" !in doc && "income" !in doc && "uploaded_file_path" !in doc;
    }
  }

  /**
   * The profile after the interface records an upload path. Recording it keeps
   * the profile well formed and touches neither the verification flag nor the
   * score inputs.
   */
  function RecordUpload(customerData: map<string, Value>, filePath: string): (uploaded: map<string, Value>)
    ensures Get(uploaded, "uploaded_file_path") == Some(Str(filePath))
    ensures ProfileWellFormed(customerData) ==> ProfileWellFormed(uploaded)
    ensures KycVerified(uploaded) == KycVerified(customerData)
    ensures NoScoreInputs(customerData) ==> NoScoreInputs(uploaded)
    ensures forall k :: k != "uploaded_file_path" ==> Get(uploaded, k) == Get(customerData, k)
  {
    var uploaded := customerData["uploaded_file_path" := Str(filePath)];
    assert Get(uploaded, "kyc_verified") == Get(customerData, "kyc_verified");
    assert Get(uploaded, "credit_score") == Get(customerData, "credit_score");
    assert Get(uploaded, "income") == Get(customerData, "income");
    uploaded
  }

  /**
   * The verification flag is never cleared: once a document was recognized, a
   * later upload the classifier rejects still leaves the profile verified.
   */
  lemma StaleVerificationSurvivesFailedUpload(customerData: map<string, Value>, filePath: string)
    requires ProfileWellFormed(customerData) && KycVerified(customerData)
    ensures var uploaded := RecordUpload(customerData, filePath);
            ProfileWellFormed(uploaded) && KycVerified(KycProfile(uploaded))
  {
    KycKeepsProfileInvariants(RecordUpload(customerData, filePath));
  }

  /**
   * What an upload leads to, in the terms `UploadDocument` is specified in: a
   * profile verified before stays verified, so underwriting runs; and as long as
   * nothing has written a credit score or an income, the decision underwriting
   * stores is the default one, an index of 75 with the strong offer.
   */
  lemma UploadOutcome(customerData: map<string, Value>, filePath: string)
    requires ProfileWellFormed(customerData)
    ensures ProfileWellFormed(RecordUpload(customerData, filePath))
    ensures var afterKyc := KycProfile(RecordUpload(customerData, filePath));
            (KycVerified(customerData) ==> KycVerified(afterKyc))
            && (NoScoreInputs(customerData) ==>
                  RunUnderwritingCheck(afterKyc) == Decision(75, true, StrongReason, Some(StrongOffer)))
  {
    var uploaded := RecordUpload(customerData, filePath);
    KycKeepsProfileInvariants(uploaded);
    if NoScoreInputs(customerData) {
      DefaultProfileIsStrong(KycProfile(uploaded));
    }
  }

  /** The sanction-letter node produces the letter when the lowered query says yes, generate or accept. */
  predicate AcceptsLetter(customerQuery: string)
    ensures AcceptsLetter(customerQuery) <==>
              (exists i :: OccursAt(Lower(customerQuery), "yes", i))
              || (exists i :: OccursAt(Lower(customerQuery), "generate", i))
              || (exists i :: OccursAt(Lower(customerQuery), "accept", i))
  {
    var query := Lower(customerQuery);
    ContainsSpec(query, "yes");
    ContainsSpec(query, "generate");
    ContainsSpec(query, "accept");
    Contains(query, "yes") || Contains(query, "generate") || Contains(query, "accept")
  }

  /** "accept" alone produces the letter and then ends the run: the tips route needs "yes" or "tips". */
  lemma AcceptAloneEndsAfterLetter()
    ensures AcceptsLetter("accept")
    ensures RouteAfterSanctionLetter("accept") == End
  {
    var query := "accept";
    assert Lower(query) == query;
    assert OccursAt(query, "accept", 0);
    forall i ensures !OccursAt(query, "yes", i) && !OccursAt(query, "tips", i) {
      if 0 <= i && i + 3 <= |query| {
        assert query[i..i + 3][0] != "yes"[0];
      }
      if 0 <= i && i + 4 <= |query| {
        assert query[i..i + 4][0] != "tips"[0];
      }
    }
    ContainsSpec(query, "yes");
    ContainsSpec(query, "tips");
    assert !WantsTips(query);
  }

  // ---------------------------------------------------------------------
  // The conversation state

  class AppState {
    var customerQuery: string
    var conversationHistory: seq<string>
    var customerData: map<string, Value>
    var currentPersona: string
    /** `None` stands for the empty dictionary the state starts with. */
    var underwritingResult: Option<Decision>
    var finalResponse: string
    var taskIsDone: bool
    /** The persona registry, `Personas`; never changed after the state is created. */
    const personas: map<string, string>

    /**
     * The persona is always one the registry knows, the profile is well formed,
     * and no credit score or income has been written into it.
     */
    ghost predicate Valid()
      reads this
    {
      personas.Keys == PersonaNames && currentPersona in PersonaNames && ProfileWellFormed(customerData)
      && NoScoreInputs(customerData)
    }

    /** The state a session starts with. */
    constructor ()
      ensures Valid()
      ensures customerQuery == "" && conversationHistory == [] && customerData == map[]
      ensures currentPersona == FriendlyAdvisor && underwritingResult == None
      ensures finalResponse == "" && !taskIsDone
      ensures personas == Personas
    {
      personas := Personas;
      PersonaRegistryKeys();
      customerQuery := "";
      conversationHistory := [];
      customerData := map[];
      currentPersona := FriendlyAdvisor;
      underwritingResult := None;
      finalResponse := "";
      taskIsDone := false;
    }

    /**
     * The sales node: asks the model under the persona the turn started with,
     * appends the user line and the reply to the transcript, and switches the
     * persona for a marriage or a medical emergency.
     */
    method SalesNode(llm: string -> string)
      requires Valid()
      modifies this
      ensures Valid()
      ensures var event := DetectLifeEvent(old(customerQuery));
              var response := llm(LlmPrompt(personas, old(currentPersona), old(customerQuery),
                                            old(conversationHistory), SalesContext(event)));
              finalResponse == response
              && conversationHistory == old(conversationHistory) + TurnLines(old(customerQuery), response)
              && currentPersona == PersonaAfterSales(event, old(currentPersona))
      ensures customerQuery == old(customerQuery) && customerData == old(customerData)
      ensures underwritingResult == old(underwritingResult) && taskIsDone == old(taskIsDone)
    {
      var query := customerQuery;
      var history := conversationHistory;
      var persona := currentPersona;
      var event := DetectLifeEvent(query);
      var additionalContext := "";
      if event == Marriage {
        additionalContext := MarriageContext;
        currentPersona := FriendlyAdvisor;
      } else if event == MedicalEmergency {
        additionalContext := MedicalContext;
        currentPersona := EmpatheticListener;
      }
      var response := llm(LlmPrompt(personas, persona, query, history, additionalContext));
      conversationHistory := conversationHistory + ["User: " + query, "AI: " + response];
      finalResponse := response;
    }

    /**
     * The KYC node: classifies the uploaded file, merging a recognized
     * document into the profile and setting the done flag on an unrecognized one.
     */
    method KycNode()
      requires Valid()
      modifies this
      ensures Valid()
      ensures customerData == KycProfile(old(customerData))
      ensures finalResponse == KycResponse(old(customerData))
      ensures taskIsDone == (old(taskIsDone) || KycFails(old(customerData)))
      ensures customerQuery == old(customerQuery) && conversationHistory == old(conversationHistory)
      ensures currentPersona == old(currentPersona) && underwritingResult == old(underwritingResult)
    {
      var before := customerData;
      KycKeepsProfileInvariants(before);
      var filepath := Get(before, "uploaded_file_path");
      var response: string;
      var data := before;
      var failed := false;
      if !Truthy(filepath) {
        response := UploadErrorMessage;
      } else {
        var ocrResult := ExtractTextFromImage(filepath.value.s);
        assert ocrResult == UploadedDocument(before);
        if "error" in ocrResult {
          response := KycFailedMessage(ocrResult["error"]);
          failed := true;
        } else {
          data := MergeVerified(before, ocrResult);
          response := KycSuccessMessage(ocrResult["doc_type"], ocrResult["name"]);
        }
      }
      assert data == KycProfile(before) && response == KycResponse(before) && failed == KycFails(before);
      customerData := data;
      finalResponse := response;
      taskIsDone := taskIsDone || failed;
    }

    /** The underwriting node: stores the decision and echoes its index into the profile, nothing else. */
    method UnderwritingNode()
      requires Valid()
      modifies this
      ensures Valid()
      ensures underwritingResult == Some(RunUnderwritingCheck(old(customerData)))
      ensures customerData == old(customerData)["fhi_score" := Int(underwritingResult.value.fhiScore)]
      ensures customerQuery == old(customerQuery) && conversationHistory == old(conversationHistory)
      ensures currentPersona == old(currentPersona) && finalResponse == old(finalResponse)
      ensures taskIsDone == old(taskIsDone)
    {
      var result := RunUnderwritingCheck(customerData);
      underwritingResult := Some(result);
      customerData := customerData["fhi_score" := Int(result.fhiScore)];
    }

    /** The approval node: presents the stored decision as the data-driven analyst, with no history. */
    method ApprovalNode(llm: string -> string)
      requires Valid()
      modifies this
      ensures Valid()
      ensures currentPersona == DataDrivenAnalyst
      ensures finalResponse == llm(LlmPrompt(personas, DataDrivenAnalyst, ApprovalQuery, [], ApprovalContext(underwritingResult)))
      ensures customerQuery == old(customerQuery) && conversationHistory == old(conversationHistory)
      ensures customerData == old(customerData) && underwritingResult == old(underwritingResult)
      ensures taskIsDone == old(taskIsDone)
    {
      currentPersona := DataDrivenAnalyst;
      var details := underwritingResult;
      var context := ApprovalContext(details);
      var response := llm(LlmPrompt(personas, currentPersona, ApprovalQuery, [], context));
      finalResponse := response;
    }

    /**
     * The rejection node: explains the stored reason and index as the
     * empathetic listener, and sets the done flag. It reads both entries, so the
     * state must have been through underwriting.
     */
    method RejectionNode(llm: string -> string)
      requires Valid()
      requires underwritingResult.Some? && "fhi_score" in customerData
      modifies this
      ensures Valid()
      ensures customerQuery == old(customerQuery) && conversationHistory == old(conversationHistory)
      ensures customerData == old(customerData) && underwritingResult == old(underwritingResult)
      ensures currentPersona == EmpatheticListener && taskIsDone
      ensures finalResponse == llm(LlmPrompt(personas, EmpatheticListener, RejectionQuery, [],
                RejectionContext(underwritingResult.value.reason, customerData["fhi_score"])))
    {
      currentPersona := EmpatheticListener;
      var details := underwritingResult.value.reason;
      var fhi := customerData["fhi_score"];
      var context := RejectionContext(details, fhi);
      var response := llm(LlmPrompt(personas, currentPersona, RejectionQuery, [], context));
      finalResponse := response;
      taskIsDone := true;
    }

    /**
     * The sanction-letter node: writes the letter when the query accepts, else
     * offers to wait. The letter needs the customer's name and an offer.
     * `today` is the date the source reads from the clock.
     */
    method SanctionLetterNode(today: string)
      requires Valid()
      requires AcceptsLetter(customerQuery) ==>
                 "name" in customerData && underwritingResult.Some? && underwritingResult.value.offer.Some?
      modifies this
      ensures Valid()
      ensures customerQuery == old(customerQuery) && conversationHistory == old(conversationHistory)
      ensures customerData == old(customerData) && underwritingResult == old(underwritingResult)
      ensures currentPersona == old(currentPersona) && taskIsDone == old(taskIsDone)
      ensures finalResponse ==
                if AcceptsLetter(customerQuery) then
                  LetterReply(SanctionLetterText(PyStr(customerData["name"]), underwritingResult.value.offer.value, today))
                else DeclineLetterReply
    {
      var response: string;
      if AcceptsLetter(customerQuery) {
        var letter := SanctionLetterText(PyStr(customerData["name"]), underwritingResult.value.offer.value, today);
        response := LetterReply(letter);
      } else {
        response := DeclineLetterReply;
      }
      finalResponse := response;
    }

    /** The education node: three debt tips from the financial guru, and the done flag is set. */
    method EducationNode(llm: string -> string)
      requires Valid()
      modifies this
      ensures Valid()
      ensures currentPersona == FinancialGuru && taskIsDone
      ensures finalResponse == llm(LlmPrompt(personas, FinancialGuru, EducationQuery, [], EducationContext))
      ensures customerQuery == old(customerQuery) && conversationHistory == old(conversationHistory)
      ensures customerData == old(customerData) && underwritingResult == old(underwritingResult)
    {
      currentPersona := FinancialGuru;
      var response := llm(LlmPrompt(personas, currentPersona, EducationQuery, [], EducationContext));
      finalResponse := response;
      taskIsDone := true;
    }

    /**
     * The manual persona control: the choice is one of the registry's keys and
     * replaces the current persona; nothing else changes.
     */
    method SelectPersona(selectedPersona: string)
      requires Valid() && selectedPersona in PersonaNames
      modifies this
      ensures Valid() && currentPersona == selectedPersona
      ensures customerQuery == old(customerQuery) && conversationHistory == old(conversationHistory)
      ensures customerData == old(customerData) && underwritingResult == old(underwritingResult)
      ensures finalResponse == old(finalResponse) && taskIsDone == old(taskIsDone)
    {
      if selectedPersona != currentPersona {
        currentPersona := selectedPersona;
      }
    }

    /**
     * A chat turn: the message becomes the query and the graph runs from its
     * entry; sales leads straight to the end, so the sales node is all that runs.
     */
    method ChatTurn(prompt: string, llm: string -> string)
      requires Valid()
      modifies this
      ensures Valid()
      ensures customerQuery == prompt
      ensures var event := DetectLifeEvent(prompt);
              var response := llm(LlmPrompt(personas, old(currentPersona), prompt, old(conversationHistory), SalesContext(event)));
              finalResponse == response
              && conversationHistory == old(conversationHistory) + TurnLines(prompt, response)
              && currentPersona == PersonaAfterSales(event, old(currentPersona))
      ensures customerData == old(customerData) && underwritingResult == old(underwritingResult)
      ensures taskIsDone == old(taskIsDone)
    {
      customerQuery := prompt;
      ChatTurnRunsOnlySales(underwritingResult, customerQuery);
      SalesNode(llm);
    }

    /**
     * A document upload: the path is recorded and KYC runs; when the profile is
     * verified afterwards, underwriting runs and the routing predicate picks the
     * next node. The live scorer always approves, so the run always ends at the
     * approval node, never at rejection, sanction letter or education, and the
     * done flag is set only by a failed KYC.
     */
    method UploadDocument(filePath: string, llm: string -> string)
      requires Valid()
      modifies this
      ensures Valid()
      ensures ProfileWellFormed(RecordUpload(old(customerData), filePath))
      ensures taskIsDone == (old(taskIsDone) || KycFails(RecordUpload(old(customerData), filePath)))
      ensures var afterKyc := KycProfile(RecordUpload(old(customerData), filePath));
              KycVerified(afterKyc) ==>
                underwritingResult == Some(RunUnderwritingCheck(afterKyc))
                && customerData == afterKyc["fhi_score" := Int(underwritingResult.value.fhiScore)]
                && underwritingResult == Some(Decision(75, true, StrongReason, Some(StrongOffer)))
                && currentPersona == DataDrivenAnalyst
                && finalResponse == llm(LlmPrompt(personas, DataDrivenAnalyst, ApprovalQuery, [],
                                                  ApprovalContext(underwritingResult)))
      ensures var uploaded := RecordUpload(old(customerData), filePath);
              !KycVerified(KycProfile(uploaded)) ==>
                underwritingResult == old(underwritingResult) && customerData == KycProfile(uploaded)
                && currentPersona == old(currentPersona) && finalResponse == KycResponse(uploaded)
      ensures customerQuery == old(customerQuery) && conversationHistory == old(conversationHistory)
    {
      UploadOutcome(customerData, filePath);
      customerData := RecordUpload(customerData, filePath);
      KycNode();
      if KycVerified(customerData) {
        UnderwritingNode();
        var next := RouteAfterUnderwriting(underwritingResult);
        if next == Approval {
          ApprovalNode(llm);
        } else {
          // The live scorer approves every profile, so the rejection edge is never taken.
          assert false;
        }
      }
    }
  }
}
