/**
 * The deterministic rules of app.py that the conversation nodes call: the
 * persona registry and prompt assembly, the file-name document classifier, the
 * Financial Health Index (FHI) underwriting scorer and the sanction letter text.
 */
module AppRules {
  import opened Text
  import opened PyValues

  const FriendlyAdvisor: string := "Friendly Advisor"
  const FinancialGuru: string := "Financial Guru"
  const EmpatheticListener: string := "Empathetic Listener"
  const DataDrivenAnalyst: string := "Data-Driven Analyst"

  /** The persona registry: persona name to system prompt. */
  const Personas: map<string, string> := map[
    FriendlyAdvisor := "You are a friendly and warm financial advisor from SmartLoan360X, located in Hanamkonda, Telangana, India. Your goal is to make the user feel comfortable. Use simple language, be encouraging. For your reference, the current time is Thursday, October 16, 2025 at 11:59 AM IST. Greet the user and subtly mention the time.",
    FinancialGuru := "You are a confident and knowledgeable financial expert from SmartLoan360X. You provide precise data and educational insights about loans and investments, referencing current Indian financial trends where possible.",
    EmpatheticListener := "You are a soothing and patient assistant from SmartLoan360X. The user may be in a stressful situation (e.g., a medical loan). Prioritize empathy and reassurance above all else.",
    DataDrivenAnalyst := "You are a precise, technical analyst. You present loan offers, terms, and conditions clearly and without emotional language. You are direct and focus on the numbers."
  ]

  /** The names of the four personas the nodes switch between. */
  const PersonaNames: set<string> := {FriendlyAdvisor, FinancialGuru, EmpatheticListener, DataDrivenAnalyst}

  /** The registry holds exactly the four named personas. */
  lemma PersonaRegistryKeys()
    ensures Personas.Keys == PersonaNames
  {
  }

  /**
   * `personas.get(key, personas["Friendly Advisor"])` over a registry that
   * holds the friendly advisor, as `Personas` does.
   */
  function SystemPrompt(registry: map<string, string>, personaKey: string): (p: string)
    requires FriendlyAdvisor in registry
    ensures p in registry.Values
    ensures personaKey in registry ==> p == registry[personaKey]
    ensures personaKey !in registry ==> p == registry[FriendlyAdvisor]
  {
    if personaKey in registry then registry[personaKey] else registry[FriendlyAdvisor]
  }

  /** A persona name the registry does not know is answered with the Friendly Advisor's prompt. */
  lemma UnknownPersonaFallsBack(personaKey: string)
    requires personaKey !in PersonaNames
    ensures SystemPrompt(Personas, personaKey) == SystemPrompt(Personas, FriendlyAdvisor)
  {
    PersonaRegistryKeys();
  }

  /** The block of the prompt that renders the previous turns, one per line. */
  function Conversation(history: seq<string>): string {
    Join(history, "\n")
  }

  /** The heading that introduces the previous turns in a prompt. */
  const HistoryHeading: string := "\n\nPrevious Conversation:\n"

  /** The text after the system prompt up to the end of the prompt. */
  function PromptBody(history: seq<string>, additionalContext: string, userQuery: string): string {
    HistoryHeading + Conversation(history) + "\n\n" + additionalContext
    + "\n\nUser: " + userQuery + "\nAI:"
  }

  /**
   * The prompt `get_llm_response` sends to the model: the persona's system
   * prompt first and the user's turn last, ready for the model to answer.
   */
  function LlmPrompt(registry: map<string, string>, personaKey: string, userQuery: string,
                     history: seq<string>, additionalContext: string): (p: string)
    requires FriendlyAdvisor in registry
    ensures |SystemPrompt(registry, personaKey)| < |p|
    ensures p[..|SystemPrompt(registry, personaKey)|] == SystemPrompt(registry, personaKey)
    ensures var turn := "User: " + userQuery + "\nAI:";
            |turn| <= |p| && p[|p| - |turn|..] == turn
  {
    var system := SystemPrompt(registry, personaKey);
    var body := PromptBody(history, additionalContext, userQuery);
    var turn := "User: " + userQuery + "\nAI:";
    assert body == (HistoryHeading + Conversation(history) + "\n\n" + additionalContext + "\n\n") + turn;
    assert (system + body)[..|system|] == system;
    system + body
  }

  /**
   * Between the system prompt and the user's turn the prompt carries the
   * previous turns under their heading, one per line, and then the extra
   * context after a blank line.
   */
  lemma LlmPromptCarriesHistory(registry: map<string, string>, personaKey: string, userQuery: string,
                                history: seq<string>, additionalContext: string)
    requires FriendlyAdvisor in registry
    ensures var p := LlmPrompt(registry, personaKey, userQuery, history, additionalContext);
            var start := |SystemPrompt(registry, personaKey)| + |HistoryHeading|;
            var conversation := Conversation(history);
            var contextStart := start + |conversation| + 2;
            var turnStart := contextStart + |additionalContext| + 2;
            |p| == turnStart + |"User: " + userQuery + "\nAI:"|
            && p[start - |HistoryHeading|..start] == HistoryHeading
            && p[start..start + |conversation|] == conversation
            && p[start + |conversation|..contextStart] == "\n\n"
            && p[contextStart..contextStart + |additionalContext|] == additionalContext
            && p[contextStart + |additionalContext|..turnStart] == "\n\n"
  {
    var system := SystemPrompt(registry, personaKey);
    var conversation := Conversation(history);
    var p := LlmPrompt(registry, personaKey, userQuery, history, additionalContext);
    assert p == system + HistoryHeading + conversation + "\n\n" + additionalContext
                + ("\n\nUser: " + userQuery + "\nAI:");
    var start := |system| + |HistoryHeading|;
    assert p[start - |HistoryHeading|..start] == HistoryHeading;
    assert p[start..start + |conversation|] == conversation;
    var contextStart := start + |conversation| + 2;
    assert p[start + |conversation|..contextStart] == "\n\n";
    assert p[contextStart..contextStart + |additionalContext|] == additionalContext;
    assert p[contextStart + |additionalContext|..contextStart + |additionalContext| + 2] == "\n\n";
  }

  // ---------------------------------------------------------------------
  // The file-name document classifier (`extract_text_from_image`)

  /** POSIX `os.path.basename`: what follows the last '/'. */
  function Basename(path: string): (b: string)
    ensures '/' !in b
  {
    if path == [] then []
    else if path[|path| - 1] == '/' then []
    else Basename(path[..|path| - 1]) + [path[|path| - 1]]
  }

  /** The basename is the path's longest suffix free of '/', and a '/' precedes it whenever it is not the whole path. */
  lemma {:induction false} BasenameIsLastComponent(path: string)
    ensures var b := Basename(path);
            |b| <= |path| && b == path[|path| - |b|..]
            && (|b| < |path| ==> path[|path| - |b| - 1] == '/')
  {
    if path != [] && path[|path| - 1] != '/' {
      var init := path[..|path| - 1];
      BasenameIsLastComponent(init);
      var prefix := Basename(init);
      var b := prefix + [path[|path| - 1]];
      assert Basename(path) == b;
      var start := |init| - |prefix|;
      assert path[start..] == init[start..] + [path[|path| - 1]];
      assert b == path[|path| - |b|..];
      if |b| < |path| {
        assert path[start - 1] == init[start - 1];
      }
    }
  }

  /** A file name placed in a directory is its own basename. */
  lemma {:induction false} BasenameOfJoin(dir: string, name: string)
    requires '/' !in name
    ensures Basename(dir + "/" + name) == name
  {
    var path := dir + "/" + name;
    BasenameIsLastComponent(path);
    var b := Basename(path);
    assert path[|path| - |name|..] == name;
    assert path[|path| - |name| - 1] == '/';
  }

  const AadharRecord: map<string, string> := map[
    "doc_type" := "Aadhar", "name" := "Priya Sharma", "dob" := "10-05-1992", "aadhar_no" := "1234 5678 9012"
  ]
  const PanRecord: map<string, string> := map[
    "doc_type" := "PAN", "name" := "Priya Sharma", "pan_no" := "ABCDE1234F"
  ]
  const UnrecognizedDocument: string := "Could not recognize document type."

  /** Every key the classifier can produce. */
  const ClassifierKeys: set<string> := {"doc_type", "name", "dob", "aadhar_no", "pan_no", "error"}

  /** What a file name says about the document: the three outcomes of the classifier. */
  datatype DocumentKind = AadharDocument | PanDocument | UnknownDocument

  /** "aadhar" is looked for first, then "pan". */
  function ClassifyFilename(filename: string): DocumentKind {
    if Contains(filename, "aadhar") then AadharDocument
    else if Contains(filename, "pan") then PanDocument
    else UnknownDocument
  }

  /**
   * The stand-in KYC reader: the lowered basename of the path decides the
   * record. A recognized document has a type and a name and no "error"; an
   * unrecognized one has "error" alone.
   */
  function ExtractTextFromImage(imagePath: string): (r: map<string, string>)
    ensures ClassifyFilename(Lower(Basename(imagePath))) == AadharDocument ==> r == AadharRecord
    ensures ClassifyFilename(Lower(Basename(imagePath))) == PanDocument ==> r == PanRecord
    ensures ClassifyFilename(Lower(Basename(imagePath))) == UnknownDocument
            ==> r == map["error" := UnrecognizedDocument]
    ensures "error" in r <==> ClassifyFilename(Lower(Basename(imagePath))) == UnknownDocument
    ensures "error" !in r ==> "doc_type" in r && "name" in r
    ensures r.Keys <= ClassifierKeys
  {
    assert AadharRecord.Keys == {"doc_type", "name", "dob", "aadhar_no"};
    assert PanRecord.Keys == {"doc_type", "name", "pan_no"};
    match ClassifyFilename(Lower(Basename(imagePath)))
    case AadharDocument => AadharRecord
    case PanDocument => PanRecord
    case UnknownDocument => map["error" := UnrecognizedDocument]
  }

  /** "aadhar" is tested first: an Aadhar file name wins even when it also says "pan". */
  lemma AadharCheckedBeforePan(dir: string, before: string, after: string)
    requires '/' !in before + after
    ensures ExtractTextFromImage(dir + "/" + before + "aadhar" + after) == AadharRecord
  {
    var name := before + "aadhar" + after;
    assert '/' !in name by {
      assert forall i :: 0 <= i < |name| ==> name[i] in before + after || name[i] in "aadhar";
    }
    assert dir + "/" + before + "aadhar" + after == dir + "/" + name;
    BasenameOfJoin(dir, name);
    LowerConcat(before + "aadhar", after);
    LowerConcat(before, "aadhar");
    assert Lower("aadhar") == "aadhar";
    ContainsInfix(Lower(before), "aadhar", Lower(after));
  }

  /** A name without a '/' is its own basename. */
  lemma BasenameOfPlainName(name: string)
    requires '/' !in name
    ensures Basename(name) == name
  {
    BasenameIsLastComponent(name);
  }

  /** Only the file name counts: the directory it sits in never changes the record. */
  lemma DirectoryIsIgnored(dir: string, name: string)
    requires '/' !in name
    ensures ExtractTextFromImage(dir + "/" + name) == ExtractTextFromImage(name)
  {
    BasenameOfJoin(dir, name);
    BasenameOfPlainName(name);
  }

  /** Taking the basename and lowering commute, since lowering never makes or removes a '/'. */
  lemma {:induction false} BasenameOfLower(path: string)
    ensures Basename(Lower(path)) == Lower(Basename(path))
    decreases |path|
  {
    if path != [] {
      var init, last := path[..|path| - 1], path[|path| - 1];
      assert Lower(path)[..|path| - 1] == Lower(init);
      assert Lower(path)[|path| - 1] == LowerChar(last);
      if last != '/' {
        BasenameOfLower(init);
        LowerConcat(Basename(init), [last]);
        assert Lower([last]) == [LowerChar(last)];
      }
    }
  }

  /** The classifier ignores case: a path and its lowered form give the same record. */
  lemma ClassifierIgnoresCase(imagePath: string)
    ensures ExtractTextFromImage(Lower(imagePath)) == ExtractTextFromImage(imagePath)
  {
    BasenameOfLower(imagePath);
    LowerIdempotent(Basename(imagePath));
  }

  /** A file name that says "pan" but not "aadhar", in any case, is read as a PAN card. */
  lemma PanFileRecognized(name: string)
    requires '/' !in name
    requires Contains(Lower(name), "pan") && !Contains(Lower(name), "aadhar")
    ensures ExtractTextFromImage(name) == PanRecord
  {
    BasenameOfPlainName(name);
  }

  /** A file name that says neither keyword yields the error entry alone. */
  lemma UnnamedFileRejected(name: string)
    requires '/' !in name
    requires !Contains(Lower(name), "pan") && !Contains(Lower(name), "aadhar")
    ensures ExtractTextFromImage(name) == map["error" := UnrecognizedDocument]
  {
    BasenameOfPlainName(name);
  }

  // ---------------------------------------------------------------------
  // The Financial Health Index scorer (`run_underwriting_check`)

  const DefaultCreditScore: int := 720
  const DefaultIncome: int := 800000
  /** The fixed stand-in for the repayment-habit part of the index. */
  const RepaymentHabitScore: int := 15

  function CreditTier(creditScore: int): int {
    if creditScore > 750 then 40 else if creditScore > 680 then 30 else 10
  }

  function IncomeTier(income: int): int {
    if income > 1000000 then 40 else if income > 500000 then 30 else 20
  }

  /** The composite index: one of six values from 45 to 95, ten apart. */
  function Fhi(creditScore: int, income: int): (fhi: int)
    ensures fhi in {45, 55, 65, 75, 85, 95}
  {
    CreditTier(creditScore) + IncomeTier(income) + RepaymentHabitScore
  }

  /** The comparisons are strict: 750 and 680 fall into the lower credit tier, 1,000,000 and 500,000 into the lower income tier. */
  lemma TierBoundaries()
    ensures CreditTier(751) == 40 && CreditTier(750) == 30
    ensures CreditTier(681) == 30 && CreditTier(680) == 10
    ensures IncomeTier(1000001) == 40 && IncomeTier(1000000) == 30
    ensures IncomeTier(500001) == 30 && IncomeTier(500000) == 20
  {
  }

  /** A better credit score or a higher income never lowers the index. */
  lemma FhiMonotone(c1: int, i1: int, c2: int, i2: int)
    requires c1 <= c2 && i1 <= i2
    ensures Fhi(c1, i1) <= Fhi(c2, i2)
  {
  }

  datatype Offer = Offer(interestRate: string, loanAmount: string)

  /** An underwriting decision; a rejection carries no offer. */
  datatype Decision = Decision(fhiScore: int, approved: bool, reason: string, offer: Option<Offer>)

  const StrongOffer: Offer := Offer("10.5%", "500,000 INR")
  const ModerateOffer: Offer := Offer("12.5%", "250,000 INR")
  const StrongReason: string := "Strong FHI score."
  const ModerateReason: string := "Moderate FHI score."
  const LowReason: string := "Low FHI score. Suggest credit improvement plan."

  /** The decision thresholds on the index. */
  function DecideOnFhi(fhi: int): (d: Decision)
    ensures d.fhiScore == fhi
    ensures d.approved <==> fhi > 40
    ensures d.offer == (if fhi > 65 then Some(StrongOffer) else if fhi > 40 then Some(ModerateOffer) else None)
    ensures d.reason == (if fhi > 65 then StrongReason else if fhi > 40 then ModerateReason else LowReason)
  {
    if fhi > 65 then Decision(fhi, true, StrongReason, Some(StrongOffer))
    else if fhi > 40 then Decision(fhi, true, ModerateReason, Some(ModerateOffer))
    else Decision(fhi, false, LowReason, None)
  }

  /** The scorer can only be applied to numbers: a string score or income would raise a TypeError. */
  predicate ScoreInputsNumeric(customerData: map<string, Value>) {
    ("credit_score" in customerData ==> !customerData["credit_score"].Str?)
    && ("income" in customerData ==> !customerData["income"].Str?)
  }

  /** `customer_data.get(key, default)` read as a number. */
  function NumberOr(customerData: map<string, Value>, key: string, default: int): int
    requires key in customerData ==> !customerData[key].Str?
  {
    if key in customerData then AsNumber(customerData[key]).value else default
  }

  function CreditScoreOf(customerData: map<string, Value>): int
    requires ScoreInputsNumeric(customerData)
  {
    NumberOr(customerData, "credit_score", DefaultCreditScore)
  }

  function IncomeOf(customerData: map<string, Value>): int
    requires ScoreInputsNumeric(customerData)
  {
    NumberOr(customerData, "income", DefaultIncome)
  }

  /**
   * The underwriting decision for a profile. Because the index is at least 45,
   * every decision is an approval with an offer: the rejection branch cannot
   * be taken. The strong offer goes exactly to indices above 65.
   */
  function RunUnderwritingCheck(customerData: map<string, Value>): (d: Decision)
    requires ScoreInputsNumeric(customerData)
    ensures d.fhiScore == Fhi(CreditScoreOf(customerData), IncomeOf(customerData))
    ensures d.approved
    ensures d.offer == Some(if d.fhiScore > 65 then StrongOffer else ModerateOffer)
    ensures d.reason == (if d.fhiScore > 65 then StrongReason else ModerateReason)
  {
    DecideOnFhi(Fhi(CreditScoreOf(customerData), IncomeOf(customerData)))
  }

  /** A profile with neither a credit score nor an income is scored on the defaults: 30 + 30 + 15. */
  lemma DefaultProfileIsStrong(customerData: map<string, Value>)
    requires "credit_score" !in customerData && "income" !in customerData
    ensures RunUnderwritingCheck(customerData) == Decision(75, true, StrongReason, Some(StrongOffer))
  {
  }

  /** The worked examples: 760/1,200,000 scores 95, 700/600,000 scores 75, 600/300,000 scores 45 (moderate). */
  lemma ScoringExamples()
    ensures DecideOnFhi(Fhi(760, 1200000)) == Decision(95, true, StrongReason, Some(StrongOffer))
    ensures DecideOnFhi(Fhi(700, 600000)) == Decision(75, true, StrongReason, Some(StrongOffer))
    ensures DecideOnFhi(Fhi(600, 300000)) == Decision(45, true, ModerateReason, Some(ModerateOffer))
  {
  }

  /** Python's `repr` of a string without quotes in it. */
  function Quoted(s: string): string {
    "'" + s + "'"
  }

  /** `str(dict)` of the stored decision, as the approval node embeds it; `{}` before any decision. */
  function DecisionRepr(result: Option<Decision>): (r: string)
    ensures 2 <= |r| && r[0] == '{' && r[|r| - 1] == '}'
    ensures result.None? ==> r == "{}"
    ensures result.Some? ==> Contains(r, "'fhi_score': " + IntToDecimal(result.value.fhiScore))
    ensures result.Some? ==> Contains(r, "'approved': " + (if result.value.approved then "True" else "False"))
    ensures result.Some? ==> Contains(r, Quoted(result.value.reason))
    ensures result.Some? && result.value.offer.Some? ==>
              Contains(r, Quoted(result.value.offer.value.interestRate))
              && Contains(r, Quoted(result.value.offer.value.loanAmount))
  {
    match result
    case None => "{}"
    case Some(d) =>
      var score := "'fhi_score': " + IntToDecimal(d.fhiScore);
      var approved := "'approved': " + (if d.approved then "True" else "False");
      match d.offer
      case None =>
        ContainsEachPiece("{", score, ", ", approved, ", 'reason': ", Quoted(d.reason), "}");
        "{" + score + ", " + approved + ", 'reason': " + Quoted(d.reason) + "}"
      case Some(o) =>
        ContainsEachOfFive("{", score, ", ", approved, ", 'reason': ", Quoted(d.reason),
                           ", 'interest_rate': ", Quoted(o.interestRate), ", 'loan_amount': ",
                           Quoted(o.loanAmount), "}");
        "{" + score + ", " + approved + ", 'reason': " + Quoted(d.reason) + ", 'interest_rate': "
        + Quoted(o.interestRate) + ", 'loan_amount': " + Quoted(o.loanAmount) + "}"
  }

  /**
   * `generate_sanction_letter`, with the date it would read from the clock
   * passed in: the letter is addressed to the customer and states the offered
   * amount and rate.
   */
  function SanctionLetterText(customerName: string, offer: Offer, today: string): (letter: string)
    ensures Contains(letter, customerName)
    ensures Contains(letter, offer.loanAmount)
    ensures Contains(letter, offer.interestRate)
  {
    var head := "\n    **Loan Sanction Letter**\n\n    Date: " + today + "\n\n    Dear ";
    var middle := ",\n\n    We are pleased to inform you that your loan has been approved!\n\n    - **Approved Amount**: ";
    var rateLabel := "\n    - **Interest Rate**: ";
    var tail := "\n\n    Thank you for choosing SmartLoan360X.\n    ";
    ContainsEachPiece(head, customerName, middle, offer.loanAmount, rateLabel, offer.interestRate, tail);
    head + customerName + middle + offer.loanAmount + rateLabel + offer.interestRate + tail
  }
}
