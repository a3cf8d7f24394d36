/**
 * The chat reducer behind the analysis form. It takes the previous chat state
 * and the submitted query and returns the next state; the fresh message ids
 * (`nanoid()`) and the outcome of the awaited analysis are parameters.
 */
module Actions {
  import opened Wrappers
  import opened Text
  import opened TradeSchema
  import Gemini

  datatype Role = User | Assistant

  datatype Message = Message(id: string, role: Role, content: string, data: Option<TradeData>)

  datatype ChatState = ChatState(messages: seq<Message>)

  /** How the awaited analysis ended: with a result, or by rejecting. */
  datatype AnalysisOutcome = Analyzed(data: TradeData) | Rejected

  const ReplyText: string := "Here is the analysis based on your query."

  const ApologyText: string := "I'm sorry, I couldn't analyze that data right now. Please try again."

  /** `!query || query.trim() === ''`, where a missing form field is `None`. */
  predicate IsBlankQuery(query: Option<string>) {
    query.None? || query.value == "" || Trim(query.value) == ""
  }

  /** The assistant's reply to an analysis outcome. */
  function Reply(replyId: string, analysis: AnalysisOutcome): (m: Message)
    ensures m.role == Assistant && m.id == replyId
    ensures analysis.Analyzed? ==> m.content == ReplyText && m.data == Some(analysis.data)
    ensures analysis.Rejected? ==> m.content == ApologyText && m.data == None
  {
    match analysis
    case Analyzed(data) => Message(replyId, Assistant, ReplyText, Some(data))
    case Rejected => Message(replyId, Assistant, ApologyText, None)
  }

  /** `analyzeTradeData`: a blank query leaves the state as it was; any other
      query appends the user's message, verbatim, and the assistant's reply. */
  function AnalyzeTradeData(prevState: ChatState, query: Option<string>, analysis: AnalysisOutcome, userId: string, replyId: string): (next: ChatState)
    ensures IsBlankQuery(query) <==> next == prevState
    ensures !IsBlankQuery(query) ==>
      && |next.messages| == |prevState.messages| + 2
      && next.messages[..|prevState.messages|] == prevState.messages
      && next.messages[|prevState.messages|] == Message(userId, User, query.value, None)
      && next.messages[|prevState.messages| + 1] == Reply(replyId, analysis)
  {
    if IsBlankQuery(query) then prevState
    else
      var userMessage := Message(userId, User, query.value, None);
      ChatState(prevState.messages + [userMessage, Reply(replyId, analysis)])
  }

  /** The greeting both chat components start from. */
  const WelcomeText: string :=
    "Hello! I'm your India Trade Agent. Ask me about imports, exports, or trade trends (e.g., 'Show me Steel exports 2015-2024')."

  const Welcome: Message := Message("welcome", Assistant, WelcomeText, None)

  /** The state the chat components hand to the reducer first. */
  const InitialState: ChatState := ChatState([Welcome])

  /** After the greeting, the conversation alternates: each user message
      carrying a non-blank query is followed by one assistant reply. */
  predicate WellFormed(messages: seq<Message>) {
    |messages| >= 1 && messages[0] == Welcome && WellPaired(messages[1..])
  }

  /** A sequence of (user query, assistant reply) pairs. */
  predicate WellPaired(messages: seq<Message>) {
    && |messages| % 2 == 0
    && forall k :: 0 <= k < |messages| / 2 ==> IsExchange(messages[2 * k], messages[2 * k + 1])
  }

  /** A user message with a non-blank query, then an assistant message. */
  predicate IsExchange(question: Message, answer: Message) {
    question.role == User && !IsBlankQuery(Some(question.content)) && answer.role == Assistant
  }

  /** Appending one exchange to a well-paired conversation keeps it so. */
  lemma PairingAppend(messages: seq<Message>, question: Message, answer: Message)
    requires WellPaired(messages) && IsExchange(question, answer)
    ensures WellPaired(messages + [question, answer])
  {
    var next := messages + [question, answer];
    var n := |messages|;
    forall k | 0 <= k < |next| / 2 ensures IsExchange(next[2 * k], next[2 * k + 1]) {
      if k < n / 2 {
        assert next[2 * k] == messages[2 * k];
        assert next[2 * k + 1] == messages[2 * k + 1];
      } else {
        assert 2 * k == n;
        assert next[n] == question && next[n + 1] == answer;
      }
    }
  }

  /** The initial state is the greeting alone, with no exchange after it. */
  lemma InitialStateWellFormed()
    ensures WellFormed(InitialState.messages)
    ensures InitialState.messages[0].role == Assistant && UserQueries(InitialState.messages) == []
  {
    assert InitialState.messages[1..] == [];
    assert InitialState.messages[..0] == [];
  }

  /** Every transition keeps the conversation the greeting followed by
      (user query, assistant reply) pairs, so every state reached from the
      initial one has that form. */
  lemma AnalyzePreservesPairing(prevState: ChatState, query: Option<string>, analysis: AnalysisOutcome, userId: string, replyId: string)
    requires WellFormed(prevState.messages)
    ensures WellFormed(AnalyzeTradeData(prevState, query, analysis, userId, replyId).messages)
  {
    if !IsBlankQuery(query) {
      var prev := prevState.messages;
      var question, answer := Message(userId, User, query.value, None), Reply(replyId, analysis);
      PairingAppend(prev[1..], question, answer);
      var next := AnalyzeTradeData(prevState, query, analysis, userId, replyId).messages;
      assert next == prev + [question, answer];
      assert next[1..] == prev[1..] + [question, answer];
    }
  }

  /** The queries the user has asked, in order. */
  function UserQueries(messages: seq<Message>): seq<string>
  {
    if messages == [] then []
    else
      var last := messages[|messages| - 1];
      UserQueries(messages[..|messages| - 1]) + (if last.role == User then [last.content] else [])
  }

  lemma {:induction false} UserQueriesAppend(a: seq<Message>, b: seq<Message>)
    ensures UserQueries(a + b) == UserQueries(a) + UserQueries(b)
  {
    if b == [] {
      assert a + b == a;
    } else {
      var last := b[|b| - 1];
      var tail := if last.role == User then [last.content] else [];
      assert (a + b)[..|a + b| - 1] == a + b[..|b| - 1];
      UserQueriesAppend(a, b[..|b| - 1]);
      assert UserQueries(a + b) == UserQueries(a) + UserQueries(b[..|b| - 1]) + tail;
    }
  }

  /** A non-blank query is recorded exactly once, after the earlier ones; the
      reply adds no query. */
  lemma QueryRecordedOnce(prevState: ChatState, query: Option<string>, analysis: AnalysisOutcome, userId: string, replyId: string)
    requires !IsBlankQuery(query)
    ensures UserQueries(AnalyzeTradeData(prevState, query, analysis, userId, replyId).messages)
      == UserQueries(prevState.messages) + [query.value]
  {
    var added := [Message(userId, User, query.value, None), Reply(replyId, analysis)];
    UserQueriesAppend(prevState.messages, added);
    assert added[..1] == [added[0]];
    assert UserQueries(added[..1]) == [query.value] by {
      assert added[..1][..0] == [];
    }
    assert UserQueries(added) == [query.value];
  }

  /** The analysis the reducer awaits: the Gemini client with no filters. It
      never rejects, since every failure falls back to the fixed analysis. */
  function GeminiOutcome(query: string, respond: Gemini.Prompt -> Gemini.CallOutcome, parse: string -> Option<TradeData>): AnalysisOutcome
  {
    Analyzed(Gemini.AnalyzeTradeQuery(query, None, respond, parse))
  }

  /** With the real client behind it, the reducer never apologises: the reply
      always carries an analysis, and the request sent to the model has no
      filter block. */
  lemma RepliesAlwaysCarryAnalysis(prevState: ChatState, query: string, respond: Gemini.Prompt -> Gemini.CallOutcome, parse: string -> Option<TradeData>, userId: string, replyId: string)
    requires !IsBlankQuery(Some(query))
    ensures var next := AnalyzeTradeData(prevState, Some(query), GeminiOutcome(query, respond, parse), userId, replyId).messages;
      && next[|next| - 1].content == ReplyText
      && next[|next| - 1].content != ApologyText
      && next[|next| - 1].data == Some(Gemini.AnalyzeTradeQuery(query, None, respond, parse))
    ensures Gemini.FilterContext(None) == ""
  {
    Gemini.NoFiltersNoBlock();
    assert |ReplyText| != |ApologyText|;
  }
}
