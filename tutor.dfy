/**
 * The chat session of rag-tutor.js: a module-level history that grows by a user
 * turn and a model turn after each successful reply, stays as it is when the call
 * fails, and is emptied by `resetHistory`. The language model is a parameter.
 */
module Tutor {
  import opened Text

  datatype Role = User | Model

  /** `{ role, parts: [{ text }] }`. */
  datatype Turn = Turn(role: Role, text: string)

  /** What the model call yields: the reply text, or the message of the error it threw. */
  datatype Reply = Replied(text: string) | Failed(message: string)

  const NamingConflictReply: string :=
    "My memory core is having a naming conflict. Please try changing the model name in rag-tutor.js to 'gemini-1.5-flash'."
  const ConnectionIssueReply: string := "I'm having a brief connection issue. Please try again."

  /** The answer given when the call throws, chosen by whether the message mentions 404. */
  function ErrorReply(message: string): (r: string)
    ensures r == NamingConflictReply <==> Contains(message, "404")
    ensures r == ConnectionIssueReply <==> !Contains(message, "404")
  {
    if Contains(message, "404") then NamingConflictReply else ConnectionIssueReply
  }

  /** The history after one call: two turns appended on success, unchanged on failure. */
  function Exchange(history: seq<Turn>, userQuery: string, reply: Reply): seq<Turn> {
    match reply
    case Replied(text) => history + [Turn(User, userQuery), Turn(Model, text)]
    case Failed(_) => history
  }

  /** Turns alternate user, model, user, model, ... and come in pairs. */
  predicate Alternating(h: seq<Turn>) {
    |h| % 2 == 0 && forall i :: 0 <= i < |h| ==> h[i].role == (if i % 2 == 0 then User else Model)
  }

  /**
   * One call keeps the history alternating, never rewrites earlier turns, and adds
   * exactly two turns (the question, then the answer) when the model replied.
   */
  lemma ExchangeKeepsAlternation(h: seq<Turn>, userQuery: string, reply: Reply)
    requires Alternating(h)
    ensures Alternating(Exchange(h, userQuery, reply))
    ensures h <= Exchange(h, userQuery, reply)
    ensures |Exchange(h, userQuery, reply)| == |h| + (if reply.Replied? then 2 else 0)
    ensures reply.Replied? ==> Exchange(h, userQuery, reply)[|h|..] == [Turn(User, userQuery), Turn(Model, reply.text)]
  {
    var r := Exchange(h, userQuery, reply);
    if reply.Replied? {
      forall i | 0 <= i < |r|
        ensures r[i].role == (if i % 2 == 0 then User else Model)
      {
        if i >= |h| {
          assert i == |h| || i == |h| + 1;
        }
      }
    }
  }

  /** The history after a sequence of calls, each with its question and the model's outcome. */
  function Conversation(h: seq<Turn>, calls: seq<(string, Reply)>): seq<Turn>
    decreases |calls|
  {
    if calls == [] then h
    else Conversation(Exchange(h, calls[0].0, calls[0].1), calls[1..])
  }

  function Successes(calls: seq<(string, Reply)>): nat {
    if calls == [] then 0 else (if calls[0].1.Replied? then 1 else 0) + Successes(calls[1..])
  }

  /**
   * Starting from an empty (or reset) history, any run of calls leaves an
   * alternating history holding two turns per successful call and none for the
   * failed ones.
   */
  lemma {:induction false} ConversationShape(h: seq<Turn>, calls: seq<(string, Reply)>)
    requires Alternating(h)
    ensures Alternating(Conversation(h, calls))
    ensures h <= Conversation(h, calls)
    ensures |Conversation(h, calls)| == |h| + 2 * Successes(calls)
    decreases |calls|
  {
    if calls != [] {
      var next := Exchange(h, calls[0].0, calls[0].1);
      ExchangeKeepsAlternation(h, calls[0].0, calls[0].1);
      ConversationShape(next, calls[1..]);
    }
  }

  /** The module-level `chatHistory`. */
  class ChatSession {
    var history: seq<Turn>

    constructor ()
      ensures history == []
    {
      history := [];
    }

    /**
     * `callBridgeBuddy(userQuery, context)`: the model sees the current history,
     * the context and the question; on success both turns are recorded and the
     * reply returned, on failure the history is untouched and an apology returned.
     */
    method CallBridgeBuddy(userQuery: string, context: string, send: (seq<Turn>, string, string) -> Reply)
      returns (answer: string)
      modifies this
      ensures history == Exchange(old(history), userQuery, send(old(history), context, userQuery))
      ensures send(old(history), context, userQuery).Replied? ==> answer == send(old(history), context, userQuery).text
      ensures send(old(history), context, userQuery).Failed? ==> answer == ErrorReply(send(old(history), context, userQuery).message)
    {
      var result := send(history, context, userQuery);
      match result {
        case Replied(text) =>
          history := history + [Turn(User, userQuery)];
          history := history + [Turn(Model, text)];
          answer := text;
        case Failed(message) =>
          answer := ErrorReply(message);
      }
    }

    /** `resetHistory`: `chatHistory = []`. */
    method ResetHistory()
      modifies this
      ensures history == []
    {
      history := [];
    }
  }
}
