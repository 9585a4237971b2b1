# Policy Q&A assistant: query router

This project models the query router of a policy question-answering
assistant: the function `orchestrate(query)`. The router lower-cases the
question and checks it for keywords in a fixed priority order:

1. if it contains "clause", the Clause Agent answers;
2. otherwise, if it contains "summary" or "summarize", the Summary Agent answers;
3. otherwise the Q&A Agent answers.

Each agent has a fixed placeholder answer. Every response also lists the same
two source documents, "Sample Policy.pdf" and "Travel Policy.docx", in that
order.

The code is pure, so the model uses only functions and lemmas:

- `text.dfy` (module `Text`) holds lower-casing (`Lower`) and substring search.
  Substring search has an existential specification (`Occurs`) and a
  recursive search (`Contains`) proved equal to it.
- `orchestrator.dfy` (module `Orchestrator`) holds the agents (`Agent`), the
  response record (`Response`), the routing (`Route`) and the router itself
  (`Orchestrate`). It also holds the lemmas about priority, case-insensitivity,
  the constant sources and the agent/answer pairing.

The router returns a dictionary with the keys `agent_used`, `answer` and
`sources`. The model returns a `Response` record with the fields `agentUsed`,
`answer` and `sources`. A record always has all three fields, so no response
can lack one.

## Model

| member | source | states |
|---|---|---|
| `Text.Lower` | orchestrator_module.py:12 | The lower-cased query has the same length, and each of its characters is the lower-cased character at the same position. |
| `Text.Contains` | orchestrator_module.py:12 | The `in` test on strings holds exactly when the keyword occurs in the query at some offset. |
| `Text.LowerIdempotent` | orchestrator_module.py:12-15 | Lower-casing an already lower-cased query changes nothing. |
| `Text.LowerUpper` | orchestrator_module.py:12-15 | A query whose ASCII letters are upper-cased lower-cases to the same string as the original. |
| `Text.LowerAppend` | orchestrator_module.py:12-15 | Lower-casing a concatenation gives the concatenation of the lower-cased parts. |
| `Text.OccursInAppend` | orchestrator_module.py:12-15 | A keyword found in part of a query is still found when text is added before or after it. |
| `Text.OccursSelf` | orchestrator_module.py:12-15 | A keyword occurs in itself, so a query that is just the keyword matches. |
| `Text.NotOccursByChar` | orchestrator_module.py:12-15 | A keyword does not occur when one of its characters is missing at every offset where it would fit. |
| `Orchestrator.Route` | orchestrator_module.py:11-20 | The Clause agent is chosen exactly when "clause" occurs in the lower-cased query. The Summary agent is chosen exactly when "clause" does not occur and "summary" or "summarize" does. The Q&A agent is chosen exactly when none of the three occurs. |
| `Orchestrator.Orchestrate` | orchestrator_module.py:6-27 | For every query, the sources are exactly ["Sample Policy.pdf", "Travel Policy.docx"]. Each of the three keyword cases yields its agent name and its placeholder answer. |
| `Orchestrator.AgentsDistinguishable` | orchestrator_module.py:12-20 | Two agents have the same name exactly when they are the same agent, and the same holds for their answers. |
| `Orchestrator.AnswerDeterminedByAgent` | orchestrator_module.py:12-27 | Two responses name the same agent exactly when they give the same answer. Two queries get equal responses exactly when they are routed to the same agent. |
| `Orchestrator.ResponseIsOneOfThree` | orchestrator_module.py:12-27 | Every response is one of the three (agent name, answer) pairs. |
| `Orchestrator.LowerCaseQueryAlike` | orchestrator_module.py:12-15 | A query and its lower-cased form get the same response. |
| `Orchestrator.UpperCaseQueryAlike` | orchestrator_module.py:12-15 | A query and its ASCII upper-cased form get the same response. |
| `Orchestrator.SameLowerSameResponse` | orchestrator_module.py:12-15 | Any two queries with the same lower-cased form get the same response. |
| `Orchestrator.ClauseKeywordWins` | orchestrator_module.py:12-14 | "clause" in any mix of cases, anywhere in a query, gives the Clause Agent response. This holds even when "summary" or "summarize" is also present. |
| `Orchestrator.SummaryKeywordWins` | orchestrator_module.py:15-17 | "summary" or "summarize" in any mix of cases, in a query without "clause", gives the Summary Agent response. |
| `Orchestrator.EmptyQueryIsQA` | orchestrator_module.py:18-20 | The empty query gets the Q&A Agent response. |
| `Orchestrator.SummarizeNeedsOwnKeyword` | orchestrator_module.py:15-17 | "summarize" does not contain "summary", so "Summarize" reaches the Summary Agent only through the second keyword test. |
| `Orchestrator.PluralSummariesIsQA` | orchestrator_module.py:15-20 | Keywords are matched as substrings: "summaries" contains none of the keywords and gets the Q&A Agent. |

## Left out

- Text.Lower: models ASCII lower-casing only ('A' to 'Z'), not the full Unicode case mapping of Python's `str.lower()`. All three keywords are plain ASCII lower case. Full lower-casing produces ASCII letters from only two non-ASCII characters: U+212A gives "k", and U+0130 gives "i" followed by U+0307. Neither can complete "clause", "summary" or "summarize", so routing agrees on every input. This argument is not proved in Dafny.
- Text.Upper: upper-cases ASCII letters only ('a' to 'z'). UpperCaseQueryAlike is therefore a statement about ASCII upper-casing; it does not hold for Python's full `str.upper()`, which maps U+017F (long s) to "S" and U+0131 (dotless i) to "I", so "ſummary" goes to the Q&A Agent while its full upper-cased form "SUMMARY" goes to the Summary Agent.
- The search algorithm behind Python's `in` on strings is not modelled; `Contains` models its result, specified by `Occurs`.
- The Streamlit page in app.py (page setup, password gate, text input, button, spinner and the display of the response) is user interface and is not modelled.
- The retrieval, embedding and language-model logic is not modelled. The router's code has only a comment saying it will be added later (orchestrator_module.py:3-4).
