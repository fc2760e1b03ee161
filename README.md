# SmartLoan360X agentic loan assistant: a Dafny model

SmartLoan360X is a chat assistant for personal loans. Its core is in `app.py`, which does the following:

- It keeps one conversation state: the query, the transcript, the customer profile, the current persona, the underwriting decision, the reply, and a done flag (`task_is_done`).
- It runs that state through a graph of nodes: sales, KYC, underwriting, approval, rejection, sanction letter and education.
- A chat message runs the graph from its entry. A document upload runs KYC, then underwriting when the profile is verified, then approval or rejection.

The nodes rely on these rules:

- a keyword life-event detector;
- a document classifier that reads the file name;
- a Financial Health Index (FHI) scorer with three bands of decision;
- a sanction-letter template;
- prompt assembly, which falls back to the Friendly Advisor persona for an unknown key.

The agent modules are stand-alone versions of some of these steps:

- the sales agent;
- the OCR parser, which finds PAN, Aadhaar and date-of-birth numbers with regular expressions;
- the "INCOME TAX" KYC classifier;
- the credit-score and loan-to-income underwriting check;
- the PAN/Aadhaar name-mismatch fraud check.

## Modules

- `text.dfy` (`Text`) covers ASCII `lower`/`upper`, Python's substring `in` and `any(k in s for k in ks)`, and `"\n".join`. The substring search is proved against an explicit "occurs at index i" definition.
- `values.dfy` (`PyValues`) covers profile values (`str`, `int`, `bool`), Python truthiness, `dict.get`, `str()` and `==`.
- `life_events.dfy` (`LifeEvents`) is the life-event detector. `app.py` and `agents/sales_agent.py` hold the same function, and it is defined once here.
- `app_rules.dfy` (`AppRules`) holds the persona registry, prompt assembly, the filename classifier (including `os.path.basename`), the FHI scorer and the sanction letter.
- `graph.dfy` (`Graph`) holds the two routing functions and the graph's edges, as a transition function with a path function over it.
- `workflow.dfy` (`Workflow`) holds the conversation state as the class `AppState`. Each node is a method that updates its fields. It also holds the chat turn, the upload chain and the persona control. The hosted model is the parameter `llm`, a function about which nothing is assumed.
- `sales_agent.dfy`, `ocr_tool.dfy`, `kyc_agent.dfy`, `underwriting_agent.dfy` and `fraud_agent.dfy` model the agent and tool modules.

## Behaviour of the code as written

The model follows the code, including where its behaviour is probably not what the design intends.

- **KYC to underwriting is unconditional.** The graph's edge from KYC to underwriting has no condition (`app.py:260`), so a failed KYC would still flow into underwriting. Only the upload chain checks `kyc_verified` before underwriting (`app.py:329`).
- **Verification is never withdrawn.** `kyc_verified` is never reset. After a successful upload, a later unrecognized upload still leads to underwriting and approval (`Workflow.StaleVerificationSurvivesFailedUpload`).
- **The scorer never rejects.** The lowest possible FHI is 10 + 20 + 15 = 45, which is above the rejection threshold of 40. The low-score branch (`app.py:104-105`) and the rejection node therefore cannot be reached (`AppRules.RunUnderwritingCheck`, `Graph.KycRunWithLiveScorer`).
- **The live score is fixed.** Nothing in `app.py` writes `credit_score` or `income`. The state's invariant `Workflow.AppState.Valid` keeps credit score and income out of the profile. So every live FHI is 30 + 30 + 15 = 75, and every upload that reaches underwriting stores the strong approval (`Workflow.AppState.UploadDocument`, `Workflow.UploadOutcome`).
- **The chat path runs only the sales node.** The sales node leads straight to the end (`app.py:259`), so the sanction-letter and education nodes are never reached by either path (`Graph.ChatTurnRunsOnlySales`).
- **The KYC agent's input.** `agents/kyc_agent.py` imports an OCR function that `tools/ocr_tool.py` does not define (`agents/kyc_agent.py:19`). Its classifier is modelled over the extracted text.

## Model

| member | source | states |
|---|---|---|
| PyValues.Get | app.py:166 | `dict.get` gives the stored value for a present key and nothing for an absent one |
| PyValues.PyEqSymmetric | agents/fraud_agent.py:4 | Python `!=` on two looked-up values does not depend on their order |
| Text.ContainsSpec | app.py:55 | substring `in` holds exactly when the needle occurs at some index of the text |
| Text.ContainsAny | app.py:55-59 | `any(k in s for k in ks)` holds exactly when some keyword of the list occurs in the text |
| Text.JoinSnoc | app.py:42 | joining a transcript with one more line appends a newline and that line |
| LifeEvents.DetectLifeEvent | app.py:52-61 | marriage iff a marriage keyword occurs in the lowered query; new house iff a house keyword occurs and no marriage keyword; medical iff a medical keyword occurs and neither earlier group; no event iff none occurs |
| LifeEvents.DetectIgnoresCase | app.py:54 | the detector gives the same event for a query and its lower-case form |
| LifeEvents.MentionedKeyword | app.py:55 | a query containing a keyword of a group mentions that group |
| LifeEvents.MarriageOutranksAll | app.py:55-56 | any query containing "wedding" is a marriage, whatever else it mentions |
| LifeEvents.HouseOutranksMedical | app.py:57-58 | a query containing "house" is never a medical emergency, and is a new house unless it mentions marriage |
| LifeEvents.MedicalDetected | app.py:59-60 | a query containing "hospital" and no earlier keyword is a medical emergency |
| LifeEvents.HelloHasNoEvent | app.py:352-358 | the greeting "Hello" sent at start-up detects no event |
| AppRules.PersonaRegistryKeys | app.py:30-35 | the registry has exactly the four persona names |
| AppRules.SystemPrompt | app.py:40 | a registered persona gets its own prompt; any other key gets the Friendly Advisor's |
| AppRules.UnknownPersonaFallsBack | app.py:40 | a key outside the registry is answered with the Friendly Advisor prompt |
| AppRules.LlmPrompt | app.py:38-46 | the prompt starts with the persona's system prompt and ends with "User: " + query + "\nAI:" |
| AppRules.LlmPromptCarriesHistory | app.py:42-43 | right after the system prompt come the "Previous Conversation" heading and the turns joined by newlines, then a blank line, the extra context and another blank line, and after that only the user's turn |
| AppRules.Basename | app.py:66 | the base name holds no '/' |
| AppRules.BasenameIsLastComponent | app.py:66 | the base name is the suffix of the path after its last '/' (the whole path if there is none) |
| AppRules.BasenameOfJoin | app.py:66 | the base name of directory + "/" + name is the base name of name |
| AppRules.BasenameOfPlainName | app.py:66 | a name without '/' is its own base name |
| AppRules.BasenameOfLower | app.py:66 | lowering and taking the base name commute |
| AppRules.ExtractTextFromImage | app.py:64-72 | a lowered base name containing "aadhar" gives the Aadhar record; otherwise one containing "pan" gives the PAN record; otherwise only the error key; "error" is present iff the name is unrecognized; the keys stay within the known fields |
| AppRules.AadharCheckedBeforePan | app.py:67-70 | a name containing both "aadhar" and "pan" is classified as Aadhar |
| AppRules.DirectoryIsIgnored | app.py:66 | the directory part of the path never changes the classification |
| AppRules.ClassifierIgnoresCase | app.py:66 | the classification does not depend on the letter case of the path |
| AppRules.PanFileRecognized | app.py:69-70 | a file name containing "pan" but not "aadhar", ignoring case, gives the PAN record |
| AppRules.UnnamedFileRejected | app.py:72 | a file name containing neither word gives the error record |
| AppRules.Fhi | app.py:80-95 | the index is one of 45, 55, 65, 75, 85 and 95 |
| AppRules.TierBoundaries | app.py:81-93 | the tier comparisons are strict at 750, 680, 1,000,000 and 500,000 |
| AppRules.FhiMonotone | app.py:80-95 | a higher credit score or income never lowers the index |
| AppRules.DecideOnFhi | app.py:97-105 | above 65 gives an approval with the strong offer (10.5%, 500,000 INR) and reason; above 40 one with the moderate offer (12.5%, 250,000 INR) and reason; otherwise a rejection with no offer and the credit-improvement reason; the index is kept |
| AppRules.RunUnderwritingCheck | app.py:75-107 | the index comes from the profile's numbers, with defaults 720 and 800,000 when absent; every profile is approved, with the strong offer (10.5%, 500,000 INR) above 65 and the moderate one (12.5%, 250,000 INR) otherwise, each with its reason |
| AppRules.DefaultProfileIsStrong | app.py:77-78 | a profile with no credit score or income scores 75 and gets the strong approval |
| AppRules.ScoringExamples | app.py:81-105 | 760/1,200,000 scores 95 and 700/600,000 scores 75, both strongly approved; 600/300,000 scores 45 and is moderately approved |
| AppRules.DecisionRepr | app.py:195 | the stored decision renders as a braced dictionary (`{}` before any decision) that shows its FHI score and its approval flag (`True`/`False`), quotes its reason and, when there is an offer, its interest rate and amount |
| AppRules.SanctionLetterText | app.py:110-126 | the sanction letter contains the customer's name, the approved amount and the interest rate |
| Graph.RouteAfterUnderwriting | app.py:238-239 | approval exactly when a stored decision says approved, rejection otherwise |
| Graph.RouteAfterSanctionLetter | app.py:242-244 | education exactly when the lowered query contains "yes" or "tips", the end otherwise |
| Graph.Successor | app.py:258-266 | every edge moves to a strictly lower-ranked node, so the graph has no cycle |
| Graph.Path | app.py:249-267 | a run starts at its node, never lists the end, and strictly descends in rank |
| Graph.ChatTurnRunsOnlySales | app.py:258-259 | a run from the entry is exactly the sales node |
| Graph.SalesOnlyAsEntry | app.py:258-266 | no run from another node passes through sales |
| Graph.PathSteps | app.py:258-266 | consecutive nodes of a run are joined by an edge |
| Graph.ApprovedKycRun | app.py:260-264 | an approved decision takes a run from KYC through underwriting, approval and the sanction letter |
| Graph.KycRunWithLiveScorer | app.py:75-107 | with the scorer's own decision on any numeric profile, a run from KYC is KYC, underwriting, approval, sanction letter and education only when tips are asked for; rejection is never on it |
| Workflow.PersonaAfterSales | app.py:151-156 | marriage switches to the Friendly Advisor, a medical emergency to the Empathetic Listener, anything else keeps the persona |
| Workflow.TranscriptGrowsByTurn | app.py:159 | the joined transcript after a turn is the old one plus the user line and the reply line |
| Workflow.AsProfileValues | app.py:176 | the document's fields enter the profile as strings under the same keys |
| Workflow.KycWithoutUpload | app.py:166-169 | with no truthy upload path, KYC changes only the reply and does not set the done flag |
| Workflow.KycFailureKeepsProfile | app.py:172-174 | an unrecognized document leaves the profile as it was and reports the classifier's error |
| Workflow.MergeVerifiedFacts | app.py:176-177 | the merge keeps the fields the document does not mention, takes every document field and sets the verified flag |
| Workflow.KycSuccessMerges | app.py:175-179 | a recognized upload is merged into the profile and marked verified |
| Workflow.KycKeepsProfileInvariants | app.py:164-180 | KYC keeps the profile well formed, never withdraws a verification, never adds score inputs and keeps the upload path |
| Workflow.RecordUpload | app.py:324-325 | recording an upload sets its path and leaves every other entry as it was, so the profile stays well formed and keeps its verification and score inputs |
| Workflow.StaleVerificationSurvivesFailedUpload | app.py:326-330 | once verified, an unrecognized upload still leaves the profile verified, so underwriting runs |
| Workflow.UploadOutcome | app.py:323-336 | after an upload, KYC keeps a verification and the live scorer strongly approves with index 75 |
| Workflow.AcceptsLetter | app.py:216-217 | the node writes the letter exactly when "yes", "generate" or "accept" occurs somewhere in the lowered query |
| Workflow.AcceptAloneEndsAfterLetter | app.py:242-244 | "accept" produces the letter but does not lead on to education |
| Workflow.AppState.constructor | app.py:276-281 | the session starts with empty fields, the Friendly Advisor persona and the done flag clear |
| Workflow.AppState.SalesNode | app.py:143-161 | the reply is the model's answer under the persona the turn started with; the transcript gains the user line and the reply; the persona follows the detected event; nothing else changes; the profile keeps no score inputs |
| Workflow.AppState.KycNode | app.py:164-180 | the profile and reply become the KYC outcome; the done flag is set exactly on an unrecognized document; nothing else changes |
| Workflow.AppState.UnderwritingNode | app.py:183-188 | the decision is the scorer's on the profile and its index is echoed into the profile; nothing else changes |
| Workflow.AppState.ApprovalNode | app.py:191-198 | the persona becomes the Data-Driven Analyst and the reply presents the stored decision |
| Workflow.AppState.RejectionNode | app.py:201-211 | the persona becomes the Empathetic Listener, the reply explains the reason and the index, and the done flag is set |
| Workflow.AppState.SanctionLetterNode | app.py:214-223 | an accepting query gets the letter for the profile's name and the stored offer; any other gets the decline reply |
| Workflow.AppState.EducationNode | app.py:226-233 | the persona becomes the Financial Guru, the reply gives debt tips, and the done flag is set |
| Workflow.AppState.SelectPersona | app.py:342-350 | the chosen registry persona replaces the current one; nothing else changes |
| Workflow.AppState.ChatTurn | app.py:293-302 | the message becomes the query and exactly one sales step runs |
| Workflow.AppState.UploadDocument | app.py:316-336 | the path is recorded and KYC runs; a verified profile gets the scorer's decision, which is index 75 with the strong offer, and the approval reply; otherwise the state is the KYC outcome; only a failed KYC sets the done flag |
| SalesAgent.AgentPersonaKeys | agents/sales_agent.py:18-35 | the agent's registry has three personas and lacks the Data-Driven Analyst |
| SalesAgent.ChoosePersona | agents/sales_agent.py:72-77 | the persona is the Empathetic Listener exactly for a medical emergency or when already current, and the current one otherwise |
| SalesAgent.ChoosePersonaAgreesWithApp | agents/sales_agent.py:72-77 | the agent's choice equals the app's persona switch exactly when the event is not a marriage or the persona is already the Friendly Advisor |
| SalesAgent.AgentSystemPrompt | agents/sales_agent.py:80 | a registered key gets its prompt and any other gets the Friendly Advisor's |
| SalesAgent.AgentPrompt | agents/sales_agent.py:83-89 | the prompt starts with the system prompt, then the "Previous Conversation" heading and the turns joined by newlines, then a blank line; it ends with the user's turn |
| SalesAgent.AgentPromptDeterminesQuery | agents/sales_agent.py:83-89 | two prompts that are equal for the same system prompt and history carry the same query |
| SalesAgent.RunSalesConversation | agents/sales_agent.py:52-98 | without a model, the fixed offline reply and the "Error" persona; with one, the model's answer to the assembled prompt and the chosen persona |
| SalesAgent.OfflineIgnoresInput | agents/sales_agent.py:65-69 | without a model the reply does not depend on the input |
| SalesAgent.MarriageKeepsPersona | agents/sales_agent.py:72-77 | a marriage keeps the current persona, unlike the app's sales node |
| SalesAgent.MedicalSwitchesToListener | agents/sales_agent.py:72-74 | a medical emergency switches to the Empathetic Listener |
| SalesAgent.UnknownPersonaGetsFriendlyPrompt | agents/sales_agent.py:80 | an unregistered persona is prompted as the Friendly Advisor but reported as used |
| OcrTool.Leftmost | tools/ocr_tool.py:41 | the least index in range where the predicate holds, or none if it holds nowhere |
| OcrTool.FindPan | tools/ocr_tool.py:40-41 | the leftmost start of five upper-case letters, four digits and a letter, or none if there is none |
| OcrTool.FindAadhaar | tools/ocr_tool.py:49-50 | the leftmost start of a word-bounded "dddd dddd dddd" (one white-space character each), or none if there is none |
| OcrTool.LabelEnd | tools/ocr_tool.py:55 | where a "DOB", "Birth" or "Binh" label starts, ignoring case, it gives the label's end |
| OcrTool.SepEnd | tools/ocr_tool.py:55 | the end of the run of colons and white space |
| OcrTool.SeparatorRunIsMaximal | tools/ocr_tool.py:55 | every separator run that reaches a digit is the whole run, so backtracking finds the same date |
| OcrTool.DateStart | tools/ocr_tool.py:55 | the date starts where the run of separators after the label ends: every character between the label and it is a colon or white space, and it is not one |
| OcrTool.FindDob | tools/ocr_tool.py:55 | the leftmost label followed by separators and a "dd/dd/dddd" date |
| OcrTool.DobText | tools/ocr_tool.py:57 | the captured group is a "dd/dd/dddd" date, the ten characters that follow the label and a run of separators |
| OcrTool.SepEndIgnoresCase | tools/ocr_tool.py:55 | lowering the text does not move a separator run's end |
| OcrTool.LabelIgnoresCase | tools/ocr_tool.py:55 | labels are found at the same place in the lowered text |
| OcrTool.DateIgnoresCase | tools/ocr_tool.py:55 | a date reads the same in the lowered text |
| OcrTool.DobIgnoresCase | tools/ocr_tool.py:55 | under `re.IGNORECASE`, the date is found at the same place with the same text in the lowered text |
| OcrTool.ParseOcrText | tools/ocr_tool.py:36-62 | the raw text is always kept; a PAN number iff one matches; an Aadhaar number iff one matches, and then the Aadhaar type wins; a date of birth iff both an Aadhaar number and a labelled date match; the warning "Could not confidently determine document type." iff no type |
| OcrTool.ExtractDetailsFromImage | tools/ocr_tool.py:12-65 | a missing file or an OCR failure gives only the "error" key with its message; otherwise the parsed text |
| OcrTool.PanCardExample | tools/ocr_tool.py:40-44 | a bare PAN number is a PAN card with that number and no warning |
| OcrTool.ParsedNumbers | tools/ocr_tool.py:40-53 | each recorded number is the text of its pattern's leftmost match |
| OcrTool.PanTokenChars | tools/ocr_tool.py:40 | a PAN token consists of word characters only |
| OcrTool.AadhaarWinsOverPan | tools/ocr_tool.py:42-53 | a text with both numbers is an Aadhaar card recording both |
| OcrTool.AadhaarNeedsWordBoundary | tools/ocr_tool.py:49 | twelve digits that run on into a thirteenth are not an Aadhaar number |
| OcrTool.UndeterminedExample | tools/ocr_tool.py:59-60 | a text with neither number carries only the raw text and the warning |
| KycAgent.VerifyDocuments | agents/kyc_agent.py:21-28 | a PAN verdict with the fixed details exactly when "INCOME TAX" occurs in the upper-cased text; otherwise "Unknown" with no details |
| KycAgent.VerdictIgnoresCase | agents/kyc_agent.py:25 | the verdict does not depend on the letter case of the text |
| KycAgent.IncomeTaxAnywhereIsPan | agents/kyc_agent.py:25-26 | "income tax" anywhere, in any case, gives the PAN verdict |
| UnderwritingAgent.RunUnderwritingCheck | agents/underwriting_agent.py:1-8 | a credit score below 650 is rejected as too low; otherwise a loan-to-income ratio above 4.0 is rejected; otherwise approved, each with its reason |
| UnderwritingAgent.ApprovalByCrossMultiplication | agents/underwriting_agent.py:3-8 | for a positive income, approval iff the score is at least 650 and the loan is at most four times the income |
| UnderwritingAgent.BoundariesPass | agents/underwriting_agent.py:3-6 | a score of exactly 650 and a ratio of exactly 4.0 pass |
| UnderwritingAgent.NegativeIncomePassesRatio | agents/underwriting_agent.py:5-6 | a negative income with a non-negative loan always passes the ratio test |
| FraudAgent.CheckForFraud | agents/fraud_agent.py:1-8 | fraud exactly when the looked-up PAN and Aadhaar names differ under Python `!=`, with the matching reason |
| FraudAgent.OnlyNamesMatter | agents/fraud_agent.py:4 | profiles with the same two name entries get the same verdict |
| FraudAgent.SymmetricInNames | agents/fraud_agent.py:4 | swapping the two names does not change the verdict |
| FraudAgent.BothNamesMissing | agents/fraud_agent.py:4 | a profile with neither name passes, since None equals None |
| FraudAgent.OneNameMissing | agents/fraud_agent.py:4-5 | a profile with only one name is flagged |
| FraudAgent.MatchingNamesPass | agents/fraud_agent.py:4-8 | equal names are never flagged |

## Left out

- Streamlit is not modelled: the page layout, widgets, the chat message list, `st.rerun`, and the `current_agent` status labels each node writes (`app.py:144` and the like). These labels are display only, and no rule reads them.
- LLM construction and `llm.invoke` are the parameter `llm`, a function about which nothing is assumed. In the sales agent, a failed initialization is `None`. The environment loading and the creation of the `uploads` directory are left out.
- Writing the uploaded file to disk and the upload's display name are left out (`app.py:316-322`). The upload chain starts from the stored path.
- `datetime.now()` in the sanction letter is the parameter `today`, the formatted date.
- The OCR engine and the file system are inputs to `OcrTool.ExtractDetailsFromImage`: a "file exists" flag, and an outcome that is either the text or a raised message. Opening the image is not modelled.
- `tools/api_mocks.py` and `tools/pdf_generator.py` are not part of this model. No core function calls them.
- Character classes and case mapping cover ASCII only. Python's Unicode-aware `lower`, `upper`, `\d`, `\s` and `\w` agree with them on ASCII text.
- `os.path.basename` is modelled for POSIX paths (separator '/').
- Python floats are Dafny reals in `agents/underwriting_agent.py`, so there is no rounding.
- UnderwritingAgent.RunUnderwritingCheck requires a non-zero income whenever the credit score passes. The source raises `ZeroDivisionError` there, and the model does not carry that exception.
- Python's in-place dictionary mutation and the aliasing between states returned by nodes are modelled by updating the fields of one `AppState`. The upload chain's intermediate states are the same object, as in the source.
- The persona registry is a constant field of `AppState`. In the source it is a module-level dictionary, and nothing changes it.
- Workflow.AppState.RejectionNode requires a stored decision and an "fhi_score" profile entry. The source reads both and would raise a `KeyError` without them. The node is unreachable in the code as written.
- Workflow.AppState.SanctionLetterNode requires a name and an offer when the query accepts. The source raises a `KeyError` when they are missing.
- The graph is given as `Graph.Successor` and `Graph.Path`. LangGraph's runtime (compilation, `invoke`, state merging) is not modelled, and `Workflow.AppState.ChatTurn` runs the one node a run from the entry reaches.
- The `__main__` demonstration blocks of the agent modules are left out.
- The `run_underwriting_check` profile values for credit score and income are assumed numeric (`int` or `bool`), as `ProfileWellFormed` states. A string there would raise `TypeError` in the comparison.
