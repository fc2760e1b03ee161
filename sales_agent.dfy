/**
 * The stand-alone sales agent of agents/sales_agent.py: its own persona
 * registry (three personas, no analyst), its persona rule (only a medical
 * emergency switches persona), the offline fallback and its prompt, which has
 * no context block. The hosted model is `llm`: `None` when it could not be
 * initialised, otherwise a function of the prompt about which nothing is assumed.
 */
module SalesAgent {
  import opened Text
  import opened PyValues
  import opened LifeEvents
  import AppRules
  import Workflow

  /** The agent's registry: persona name to system prompt. */
  const AgentPersonas: map<string, string> := map[
    AppRules.FriendlyAdvisor := "You are a friendly and warm financial advisor from SmartLoan3D60X. Your goal is to make the user feel comfortable. Use simple language and be encouraging. For your reference, you are based in Hanamkonda, Telangana, India, and the current time is around 12:09 PM on Thursday, October 16, 2025. You can start the conversation by saying 'Hello from Hanamkonda!' or a similar greeting.",
    AppRules.FinancialGuru := "You are a confident and knowledgeable financial expert from SmartLoan360X. You provide precise data and educational insights about loans and investments, referencing current Indian financial trends where possible.",
    AppRules.EmpatheticListener := "You are a soothing and patient assistant from SmartLoan360X. The user may be in a stressful situation (e.g., a medical loan). Prioritize empathy and reassurance above all else."
  ]

  const OfflineResponse: string :=
    "I'm sorry, my AI brain is currently offline. Please check the API key configuration."
  const ErrorPersona: string := "Error"

  /** The dictionary the agent returns: the reply and the persona reported for the turn. */
  datatype SalesReply = SalesReply(response: string, personaUsed: string)

  /** The registry holds three personas; the app's analyst is not among them. */
  lemma AgentPersonaKeys()
    ensures AgentPersonas.Keys == {AppRules.FriendlyAdvisor, AppRules.FinancialGuru, AppRules.EmpatheticListener}
    ensures AppRules.DataDrivenAnalyst !in AgentPersonas
    ensures AgentPersonas.Keys < AppRules.PersonaNames
  {
  }

  /**
   * The persona of a turn: the empathetic listener for a medical emergency, the
   * current persona for anything else, marriage included.
   */
  function ChoosePersona(event: LifeEvent, currentPersona: string): (key: string)
    ensures key == currentPersona || key == AppRules.EmpatheticListener
    ensures key == AppRules.EmpatheticListener <==> event == MedicalEmergency || currentPersona == AppRules.EmpatheticListener
  {
    if event == MedicalEmergency then AppRules.EmpatheticListener else currentPersona
  }

  /**
   * The agent's rule agrees with the app's sales node except on marriage, where
   * the app switches to the friendly advisor and the agent keeps the current
   * persona.
   */
  lemma ChoosePersonaAgreesWithApp(event: LifeEvent, currentPersona: string)
    ensures ChoosePersona(event, currentPersona) == Workflow.PersonaAfterSales(event, currentPersona)
            <==> event != Marriage || currentPersona == AppRules.FriendlyAdvisor
  {
  }

  /** `personas.get(key, personas["Friendly Advisor"])` over the agent's registry. */
  function AgentSystemPrompt(personaKey: string): (p: string)
    ensures p in AgentPersonas.Values
    ensures personaKey in AgentPersonas ==> p == AgentPersonas[personaKey]
    ensures personaKey !in AgentPersonas ==> p == AgentPersonas[AppRules.FriendlyAdvisor]
  {
    if personaKey in AgentPersonas then AgentPersonas[personaKey] else AgentPersonas[AppRules.FriendlyAdvisor]
  }

  /** The text after the system prompt: the previous turns, then the user's turn. */
  function AgentPromptBody(history: seq<string>, userQuery: string): string {
    AppRules.HistoryHeading + Join(history, "\n") + "\n\nUser: " + userQuery + "\nAI:"
  }

  /**
   * The prompt the agent sends: the system prompt first, the user's turn last,
   * and no context block between the conversation and the turn.
   */
  function AgentPrompt(systemPrompt: string, history: seq<string>, userQuery: string): (p: string)
    ensures |p| == |systemPrompt| + |AgentPromptBody(history, userQuery)|
    ensures p[..|systemPrompt|] == systemPrompt
    ensures var turn := "User: " + userQuery + "\nAI:";
            |turn| <= |p| && p[|p| - |turn|..] == turn
    ensures var start := |systemPrompt| + |AppRules.HistoryHeading|;
            var conversation := Join(history, "\n");
            start + |conversation| + 2 <= |p|
            && p[|systemPrompt|..start] == AppRules.HistoryHeading
            && p[start..start + |conversation|] == conversation
            && p[start + |conversation|..start + |conversation| + 2] == "\n\n"
  {
    var conversation := Join(history, "\n");
    var body := AgentPromptBody(history, userQuery);
    var turn := "User: " + userQuery + "\nAI:";
    var p := systemPrompt + body;
    assert body == (AppRules.HistoryHeading + conversation + "\n\n") + turn;
    assert p == systemPrompt + AppRules.HistoryHeading + conversation + ("\n\n" + turn);
    assert p[..|systemPrompt|] == systemPrompt;
    var start := |systemPrompt| + |AppRules.HistoryHeading|;
    assert p[|systemPrompt|..start] == AppRules.HistoryHeading;
    assert p[start..start + |conversation|] == conversation;
    assert p[start + |conversation|..start + |conversation| + 2] == "\n\n";
    p
  }

  /** Under a fixed persona and history the prompt determines the user's query. */
  lemma {:induction false} AgentPromptDeterminesQuery(systemPrompt: string, history: seq<string>, q1: string, q2: string)
    requires AgentPrompt(systemPrompt, history, q1) == AgentPrompt(systemPrompt, history, q2)
    ensures q1 == q2
  {
    var head := systemPrompt + AppRules.HistoryHeading + Join(history, "\n") + "\n\nUser: ";
    var p1 := AgentPrompt(systemPrompt, history, q1);
    var p2 := AgentPrompt(systemPrompt, history, q2);
    assert p1 == head + q1 + "\nAI:";
    assert p2 == head + q2 + "\nAI:";
    assert |q1| == |q2|;
    assert p1[|head|..|head| + |q1|] == q1;
    assert p2[|head|..|head| + |q2|] == q2;
  }

  /**
   * `run_sales_conversation`: offline, the fixed apology under the "Error"
   * persona; otherwise the model's answer to the chosen persona's prompt, with
   * the chosen key reported even when the registry does not know it.
   */
  function RunSalesConversation(userQuery: string, history: seq<string>, currentPersona: string,
                                llm: Option<string -> string>): (r: SalesReply)
    ensures llm.None? ==> r == SalesReply(OfflineResponse, ErrorPersona)
    ensures llm.Some? ==>
              r.personaUsed == ChoosePersona(DetectLifeEvent(userQuery), currentPersona)
              && r.response == llm.value(AgentPrompt(AgentSystemPrompt(r.personaUsed), history, userQuery))
  {
    match llm
    case None => SalesReply(OfflineResponse, ErrorPersona)
    case Some(invoke) =>
      var detectedEvent := DetectLifeEvent(userQuery);
      var personaKey := ChoosePersona(detectedEvent, currentPersona);
      var systemPrompt := AgentSystemPrompt(personaKey);
      SalesReply(invoke(AgentPrompt(systemPrompt, history, userQuery)), personaKey)
  }

  /** Offline, the reply does not depend on the query, the history or the persona. */
  lemma OfflineIgnoresInput(q1: string, h1: seq<string>, p1: string, q2: string, h2: seq<string>, p2: string)
    ensures RunSalesConversation(q1, h1, p1, None) == RunSalesConversation(q2, h2, p2, None)
    ensures RunSalesConversation(q1, h1, p1, None).personaUsed == ErrorPersona
  {
  }

  /** A wedding keeps whatever persona the conversation had. */
  lemma MarriageKeepsPersona(a: string, b: string, history: seq<string>, currentPersona: string,
                             invoke: string -> string)
    ensures RunSalesConversation(a + "wedding" + b, history, currentPersona, Some(invoke)).personaUsed
            == currentPersona
  {
    MarriageOutranksAll(a, b);
  }

  /** A hospital stay with no marriage or house keyword switches to the empathetic listener. */
  lemma MedicalSwitchesToListener(a: string, b: string, history: seq<string>, currentPersona: string,
                                  invoke: string -> string)
    requires !Mentions(a + "hospital" + b, MarriageKeywords)
    requires !Mentions(a + "hospital" + b, HouseKeywords)
    ensures var r := RunSalesConversation(a + "hospital" + b, history, currentPersona, Some(invoke));
            r.personaUsed == AppRules.EmpatheticListener
            && r.response == invoke(AgentPrompt(AgentPersonas[AppRules.EmpatheticListener], history, a + "hospital" + b))
  {
    MedicalDetected(a, b);
  }

  /**
   * A persona the registry does not know, such as the app's analyst, is
   * reported as used while the model is given the friendly advisor's prompt.
   */
  lemma UnknownPersonaGetsFriendlyPrompt(userQuery: string, history: seq<string>, currentPersona: string,
                                         invoke: string -> string)
    requires currentPersona !in AgentPersonas
    requires DetectLifeEvent(userQuery) != MedicalEmergency
    ensures var r := RunSalesConversation(userQuery, history, currentPersona, Some(invoke));
            r.personaUsed == currentPersona
            && r.response == invoke(AgentPrompt(AgentPersonas[AppRules.FriendlyAdvisor], history, userQuery))
  {
  }
}
