/**
 * The conversation graph of app.py: its seven nodes, the two routing
 * predicates and the edges, written as an explicit transition function.
 */
module Graph {
  import opened Text
  import opened PyValues
  import opened AppRules

  datatype Node = Sales | Kyc | Underwriting | Approval | Rejection | SanctionLetter | Education | End

  /** The node every graph invocation starts at. */
  const Entry: Node := Sales

  /** `route_after_underwriting`: approval exactly when the stored decision says approved. */
  function RouteAfterUnderwriting(underwritingResult: Option<Decision>): (next: Node)
    ensures next == Approval || next == Rejection
    ensures next == Approval <==> underwritingResult.Some? && underwritingResult.value.approved
  {
    if underwritingResult.Some? && underwritingResult.value.approved then Approval else Rejection
  }

  /** `route_after_sanction_letter`: the lowered query asks for tips (or says yes). */
  predicate WantsTips(customerQuery: string) {
    var query := Lower(customerQuery);
    Contains(query, "yes") || Contains(query, "tips")
  }

  function RouteAfterSanctionLetter(customerQuery: string): (next: Node)
    ensures next == Education || next == End
    ensures next == Education <==> WantsTips(customerQuery)
  {
    if WantsTips(customerQuery) then Education else End
  }

  /** A node's distance from the end, longest way round: every edge lowers it. */
  function Rank(n: Node): nat {
    match n
    case End => 0
    case Sales => 1
    case Rejection => 1
    case Education => 1
    case SanctionLetter => 2
    case Approval => 3
    case Underwriting => 4
    case Kyc => 5
  }

  /**
   * The edges of the compiled graph. The routing inputs are the stored decision
   * and the query at the moment the edge is taken. Every edge strictly lowers
   * the rank, so the graph has no cycle.
   */
  function Successor(n: Node, underwritingResult: Option<Decision>, customerQuery: string): (next: Node)
    requires n != End
    ensures Rank(next) < Rank(n)
  {
    match n
    case Sales => End
    case Kyc => Underwriting
    case Underwriting => RouteAfterUnderwriting(underwritingResult)
    case Approval => SanctionLetter
    case Rejection => End
    case SanctionLetter => RouteAfterSanctionLetter(customerQuery)
    case Education => End
  }

  /**
   * The nodes a run starting at `n` visits until it reaches the end. Ranks fall
   * along the run, so no node runs twice and the end is always reached.
   */
  function Path(n: Node, underwritingResult: Option<Decision>, customerQuery: string): (p: seq<Node>)
    ensures End !in p
    ensures n != End ==> |p| > 0 && p[0] == n
    ensures forall i, j :: 0 <= i < j < |p| ==> Rank(p[i]) > Rank(p[j])
    decreases Rank(n)
  {
    if n == End then []
    else [n] + Path(Successor(n, underwritingResult, customerQuery), underwritingResult, customerQuery)
  }

  /** A chat turn enters at the sales node, and sales leads straight to the end. */
  lemma ChatTurnRunsOnlySales(underwritingResult: Option<Decision>, customerQuery: string)
    ensures Path(Entry, underwritingResult, customerQuery) == [Sales]
  {
  }

  /** Nothing reaches the sales node from elsewhere: it is only ever the entry. */
  lemma {:induction false} SalesOnlyAsEntry(n: Node, underwritingResult: Option<Decision>, customerQuery: string)
    requires n != Sales
    ensures Sales !in Path(n, underwritingResult, customerQuery)
    decreases Rank(n)
  {
    if n != End {
      var next := Successor(n, underwritingResult, customerQuery);
      assert next != Sales;
      SalesOnlyAsEntry(next, underwritingResult, customerQuery);
    }
  }

  /** Consecutive nodes of a run are joined by an edge. */
  lemma {:induction false} PathSteps(n: Node, underwritingResult: Option<Decision>, customerQuery: string, k: nat)
    requires k + 1 < |Path(n, underwritingResult, customerQuery)|
    ensures var p := Path(n, underwritingResult, customerQuery);
            p[k] != End && p[k + 1] == Successor(p[k], underwritingResult, customerQuery)
    decreases k
  {
    var next := Successor(n, underwritingResult, customerQuery);
    if k > 0 {
      PathSteps(next, underwritingResult, customerQuery, k - 1);
    }
  }

  /**
   * Entered at the KYC node with an approving decision, the run is KYC,
   * underwriting, approval, sanction letter and, when the query asks for tips,
   * education.
   */
  lemma ApprovedKycRun(underwritingResult: Option<Decision>, customerQuery: string)
    requires underwritingResult.Some? && underwritingResult.value.approved
    ensures Path(Kyc, underwritingResult, customerQuery)
            == [Kyc, Underwriting, Approval, SanctionLetter] + (if WantsTips(customerQuery) then [Education] else [])
  {
    var tail := if WantsTips(customerQuery) then [Education] else [];
    assert Path(SanctionLetter, underwritingResult, customerQuery) == [SanctionLetter] + tail;
    assert Path(Approval, underwritingResult, customerQuery) == [Approval, SanctionLetter] + tail;
    assert Path(Underwriting, underwritingResult, customerQuery) == [Underwriting, Approval, SanctionLetter] + tail;
  }

  /**
   * Were the graph entered at the KYC node with the live scorer's decision, the
   * run would be KYC, underwriting, approval, sanction letter and, when the
   * query asks for tips, education: the rejection node is never on it.
   */
  lemma KycRunWithLiveScorer(customerData: map<string, Value>, customerQuery: string)
    requires ScoreInputsNumeric(customerData)
    ensures var p := Path(Kyc, Some(RunUnderwritingCheck(customerData)), customerQuery);
            p == [Kyc, Underwriting, Approval, SanctionLetter]
                 + (if WantsTips(customerQuery) then [Education] else [])
            && Rejection !in p
  {
    ApprovedKycRun(Some(RunUnderwritingCheck(customerData)), customerQuery);
  }
}
