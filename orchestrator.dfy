/** The query router of the policy question-answering assistant. A question
    is lower-cased and routed by keyword, in a fixed priority order, to one of
    three agents; each agent has a fixed placeholder answer, and every
    response lists the same two source documents. */
module Orchestrator {
  import opened Text

  /** The three agents a question can be routed to. */
  datatype Agent = Clause | Summary | QA {

    /** The agent's display name, reported as `agent_used`. */
    function Name(): string {
      match this
      case Clause => "Clause Agent"
      case Summary => "Summary Agent"
      case QA => "Q&A Agent"
    }

    /** The agent's placeholder answer, reported as `answer`. */
    function Answer(): string {
      match this
      case Clause => "This is a placeholder clause answer."
      case Summary => "This is a placeholder summary."
      case QA => "This is a placeholder direct answer."
    }
  }

  /** The structured response; its three fields are the keys `agent_used`,
      `answer` and `sources` of the dictionary the router returns. */
  datatype Response = Response(agentUsed: string, answer: string, sources: seq<string>)

  /** The documents every response cites, in this order. */
  const Sources: seq<string> := ["Sample Policy.pdf", "Travel Policy.docx"]

  /** Keyword routing on the lower-cased question: "clause" first, then
      "summary" or "summarize", otherwise the question-and-answer agent. */
  function Route(query: string): (a: Agent)
    ensures a == Clause <==> Occurs(Lower(query), "clause")
    ensures a == Summary <==>
      !Occurs(Lower(query), "clause") &&
      (Occurs(Lower(query), "summary") || Occurs(Lower(query), "summarize"))
    ensures a == QA <==>
      !Occurs(Lower(query), "clause") &&
      !Occurs(Lower(query), "summary") && !Occurs(Lower(query), "summarize")
  {
    var q := Lower(query);
    if Contains(q, "clause") then Clause
    else if Contains(q, "summary") || Contains(q, "summarize") then Summary
    else QA
  }

  /** Answers a question: the routed agent's name and placeholder answer,
      and the fixed list of sources. Defined for every string. */
  function Orchestrate(query: string): (r: Response)
    ensures r.sources == ["Sample Policy.pdf", "Travel Policy.docx"]
    ensures Occurs(Lower(query), "clause") ==>
      r.agentUsed == "Clause Agent" && r.answer == "This is a placeholder clause answer."
    ensures (!Occurs(Lower(query), "clause") &&
             (Occurs(Lower(query), "summary") || Occurs(Lower(query), "summarize"))) ==>
      r.agentUsed == "Summary Agent" && r.answer == "This is a placeholder summary."
    ensures (!Occurs(Lower(query), "clause") &&
             !Occurs(Lower(query), "summary") && !Occurs(Lower(query), "summarize")) ==>
      r.agentUsed == "Q&A Agent" && r.answer == "This is a placeholder direct answer."
  {
    var agent := Route(query);
    Response(agent.Name(), agent.Answer(), Sources)
  }

  /** Distinct agents have distinct names and distinct answers. */
  lemma AgentsDistinguishable(a: Agent, b: Agent)
    ensures a.Name() == b.Name() <==> a == b
    ensures a.Answer() == b.Answer() <==> a == b
  {
  }

  /** Every response is the response of exactly one agent: the answer and the
      agent name determine each other, and two questions get the same
      response exactly when they are routed to the same agent. */
  lemma AnswerDeterminedByAgent(q1: string, q2: string)
    ensures Orchestrate(q1).agentUsed == Orchestrate(q2).agentUsed <==>
            Orchestrate(q1).answer == Orchestrate(q2).answer
    ensures Orchestrate(q1) == Orchestrate(q2) <==> Route(q1) == Route(q2)
  {
  }

  /** Every response names one of the three agents, paired with its own answer. */
  lemma ResponseIsOneOfThree(query: string)
    ensures var r := Orchestrate(query);
      || (r.agentUsed == "Clause Agent" && r.answer == "This is a placeholder clause answer.")
      || (r.agentUsed == "Summary Agent" && r.answer == "This is a placeholder summary.")
      || (r.agentUsed == "Q&A Agent" && r.answer == "This is a placeholder direct answer.")
  {
  }

  /** Routing ignores case: a question and its lower-cased form get the same
      response. */
  lemma LowerCaseQueryAlike(query: string)
    ensures Orchestrate(Lower(query)) == Orchestrate(query)
  {
    LowerIdempotent(query);
  }

  /** Routing ignores the case of ASCII letters: a question and its ASCII
      upper-cased form get the same response. */
  lemma UpperCaseQueryAlike(query: string)
    ensures Orchestrate(Upper(query)) == Orchestrate(query)
  {
    LowerUpper(query);
  }

  /** The response depends on the question only through its lower-cased form. */
  lemma SameLowerSameResponse(q1: string, q2: string)
    requires Lower(q1) == Lower(q2)
    ensures Orchestrate(q1) == Orchestrate(q2)
  {
  }

  /** "clause", written in any mix of cases anywhere in a question, sends it
      to the clause agent, whatever else the question contains. */
  lemma ClauseKeywordWins(before: string, keyword: string, after: string)
    requires Lower(keyword) == "clause"
    ensures Orchestrate(before + keyword + after) ==
      Response("Clause Agent", "This is a placeholder clause answer.", Sources)
  {
    LowerAppend(before + keyword, after);
    LowerAppend(before, keyword);
    OccursSelf("clause");
    OccursInAppend(Lower(before), "clause", Lower(after), "clause");
  }

  /** "summary" or "summarize", in any mix of cases, sends a question without
      "clause" to the summary agent. */
  lemma SummaryKeywordWins(before: string, keyword: string, after: string)
    requires Lower(keyword) == "summary" || Lower(keyword) == "summarize"
    requires !Occurs(Lower(before + keyword + after), "clause")
    ensures Orchestrate(before + keyword + after) ==
      Response("Summary Agent", "This is a placeholder summary.", Sources)
  {
    LowerAppend(before + keyword, after);
    LowerAppend(before, keyword);
    OccursSelf(Lower(keyword));
    OccursInAppend(Lower(before), Lower(keyword), Lower(after), Lower(keyword));
  }

  /** The empty question goes to the question-and-answer agent. */
  lemma EmptyQueryIsQA()
    ensures Orchestrate("") ==
      Response("Q&A Agent", "This is a placeholder direct answer.", Sources)
  {
  }

  /** "summarize" does not contain "summary", so the second keyword is not
      redundant: "Summarize" alone reaches the summary agent through it. */
  lemma SummarizeNeedsOwnKeyword()
    ensures !Occurs(Lower("Summarize"), "summary")
    ensures Orchestrate("Summarize").agentUsed == "Summary Agent"
  {
    var q := Lower("Summarize");
    assert q == "summarize";
    NotOccursByChar(q, "clause", 0);
    NotOccursByChar(q, "summary", 6);
    OccursSelf("summarize");
  }

  /** The keywords are matched as substrings, not as word stems: the plural
      "summaries" contains neither keyword and goes to the
      question-and-answer agent. */
  lemma PluralSummariesIsQA()
    ensures Orchestrate("summaries").agentUsed == "Q&A Agent"
  {
    var q := Lower("summaries");
    assert q == "summaries";
    NotOccursByChar(q, "clause", 0);
    NotOccursByChar(q, "summary", 6);
    NotOccursByChar(q, "summarize", 7);
  }
}
