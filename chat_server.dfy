/** The chat history server (project/src/server.js): an Express application
    that keeps, per session identifier, the list of question/answer
    exchanges in a process-wide map. `/api/chat` validates the request,
    answers it (an echo, or the OpenAI completion when a key is set) and
    appends the exchange; `/api/history` returns a session's list and its
    length; `/proof/messages` clamps the number of rows it asks the storage
    for. The OpenAI call, the storage query and the clock are parameters. */
module ChatServer {
  import opened Json

  /** One stored `{question, answer, timestamp}` entry. */
  datatype Exchange = Exchange(question: string, answer: string, timestamp: string)

  /** `chatHistory`: session identifier to its exchanges, oldest first. */
  type History = map<string, seq<Exchange>>

  /** The `usage` object of a completion: prompt and completion token counts
      (`None` where the field is undefined). */
  datatype Usage = Usage(tokensIn: Option<Value>, tokensOut: Option<Value>)

  /** What the OpenAI chat completion call gave: an exception, or a reply
      with the text of its first choice (`None` where any step of
      `choices?.[0]?.message?.content` is missing) and its usage. */
  datatype Completion =
    | Threw
    | Returned(content: Option<string>, usage: Option<Usage>)

  /** A `/api/chat` request: the body's `question` and `session_identifier`
      (`None` when absent), the time it is answered, and what the completion
      call would give. */
  datatype ChatRequest = ChatRequest(question: Option<string>, session: Option<string>,
                                     timestamp: string, completion: Completion)

  datatype ChatResponse =
    | ChatRejected      // 400 "Missing required fields: ..."
    | Answered(answer: string, timestamp: string, session: string, mode: string, usage: Option<Usage>)

  function ChatStatus(r: ChatResponse): int
  {
    if r.ChatRejected? then 400 else 200
  }

  /** A JavaScript string is truthy when it is not empty. */
  predicate Given(s: Option<string>)
  {
    s.Some? && s.value != ""
  }

  /** The guard `!question || !session_identifier` passes. */
  predicate Accepted(req: ChatRequest)
  {
    Given(req.question) && Given(req.session)
  }

  const EchoPrefix := "Hello! You asked: \""

  /** The fallback reply, which quotes the question verbatim. */
  function Echo(question: string): (r: string)
    ensures |r| == |EchoPrefix| + |question| + 1
    ensures r[..|EchoPrefix|] == EchoPrefix && r[|r| - 1] == '"'
    ensures r[|EchoPrefix|..|r| - 1] == question
  {
    EchoPrefix + question + "\""
  }

  /** The answer: the trimmed first-choice text when an OpenAI client exists
      and the call returned non-blank text, otherwise the echo (the call is
      not made without a client, and a thrown error falls back silently). */
  function Reply(question: string, openai: bool, c: Completion): (r: string)
    ensures !openai || c.Threw? ==> r == Echo(question)
    ensures openai && c.Returned? && (c.content.None? || Blank(c.content.value, JsSpace)) ==>
      r == Echo(question)
    ensures openai && c.Returned? && c.content.Some? && !Blank(c.content.value, JsSpace) ==>
      r == Strip(c.content.value, JsSpace) && !JsSpace(r[0]) && !JsSpace(r[|r| - 1])
    ensures r != ""
  {
    var echo := Echo(question);
    if !openai then echo
    else match c
      case Threw => echo
      case Returned(content, _) =>
        if content.Some? && Strip(content.value, JsSpace) != "" then Strip(content.value, JsSpace)
        else echo
  }

  /** The exchanges stored for `s`; an unknown session has none. */
  function SessionOf(h: History, s: string): seq<Exchange>
  {
    if s in h then h[s] else []
  }

  /** The exchange an accepted request stores. */
  function ExchangeOf(req: ChatRequest, openai: bool): Exchange
    requires Accepted(req)
  {
    Exchange(req.question.value, Reply(req.question.value, openai, req.completion), req.timestamp)
  }

  /** `/api/chat` as a function of the history map: a request without a
      question or session identifier is refused with 400 and changes nothing;
      any other adds its session when absent and appends exactly one exchange
      to it, leaving every other session as it was. The `usage` field is
      present only when a client exists and the call returned usage. */
  function Respond(h: History, openai: bool, req: ChatRequest): (r: (ChatResponse, History))
    ensures ChatStatus(r.0) == 400 <==> !Accepted(req)
    ensures !Accepted(req) ==> r.0 == ChatRejected && r.1 == h
    ensures Accepted(req) ==>
      var s := req.session.value;
      r.0 == Answered(ExchangeOf(req, openai).answer, req.timestamp, s,
                      if openai then "openai" else "echo",
                      if openai && req.completion.Returned? then req.completion.usage else None) &&
      r.1.Keys == h.Keys + {s} &&
      SessionOf(r.1, s) == SessionOf(h, s) + [ExchangeOf(req, openai)] &&
      (forall t :: t != s ==> SessionOf(r.1, t) == SessionOf(h, t))
  {
    if !Accepted(req) then (ChatRejected, h)
    else
      var s := req.session.value;
      var e := ExchangeOf(req, openai);
      var usage := if openai && req.completion.Returned? then req.completion.usage else None;
      (Answered(e.answer, req.timestamp, s, if openai then "openai" else "echo", usage),
       h[s := SessionOf(h, s) + [e]])
  }

  /** The server: whether an OpenAI client and a storage client were created
      at start-up, and the in-memory history map. */
  class Server {
    const openai: bool
    const storage: bool
    var history: History

    /** Start-up reads `OPENAI_API_KEY`, `SUPABASE_URL` and
        `SUPABASE_SERVICE_ROLE_KEY`; an unset or empty variable is falsy. */
    constructor(openaiKey: Option<string>, storageUrl: Option<string>, storageKey: Option<string>)
      ensures openai == Given(openaiKey)
      ensures storage == (Given(storageUrl) && Given(storageKey))
      ensures history == map[]
    {
      openai := Given(openaiKey);
      storage := Given(storageUrl) && Given(storageKey);
      history := map[];
    }

    /** The `/api/chat` handler: it creates the session's list when absent,
        then pushes the exchange onto it. */
    method Chat(req: ChatRequest) returns (resp: ChatResponse)
      modifies this
      ensures (resp, history) == Respond(old(history), openai, req)
    {
      if !Given(req.question) || !Given(req.session) {
        return ChatRejected;
      }
      var question := req.question.value;
      var session := req.session.value;
      ghost var h0 := history;
      if session !in history {
        history := history[session := []];
      }
      var sessionHistory := history[session];
      assert sessionHistory == SessionOf(h0, session);
      var reply := Echo(question);
      var usage: Option<Usage> := None;
      if openai {
        match req.completion {
          case Threw =>
          case Returned(content, u) =>
            if content.Some? && Strip(content.value, JsSpace) != "" {
              reply := Strip(content.value, JsSpace);
            }
            usage := u;
        }
      }
      assert reply == Reply(question, openai, req.completion);
      resp := Answered(reply, req.timestamp, session, if openai then "openai" else "echo", usage);
      var exchange := Exchange(question, reply, req.timestamp);
      assert exchange == ExchangeOf(req, openai);
      history := history[session := sessionHistory + [exchange]];
      assert history == h0[session := SessionOf(h0, session) + [exchange]];
    }
  }

  datatype HistoryResponse =
    | HistoryRejected   // 400 "Missing required query parameter: ..."
    | Listing(session: string, history: seq<Exchange>, count: int)

  /** `/api/history`: 400 without a session identifier; otherwise the
      session's exchanges (none for an unknown session) and their number. */
  function HistoryOf(h: History, session: Option<string>): (r: HistoryResponse)
    ensures r.HistoryRejected? <==> !Given(session)
    ensures r.Listing? ==>
      r.session == session.value && r.history == SessionOf(h, session.value) &&
      r.count == |r.history|
    ensures r.Listing? && session.value !in h ==> r.history == [] && r.count == 0
  {
    if !Given(session) then HistoryRejected
    else
      var list := SessionOf(h, session.value);
      Listing(session.value, list, |list|)
  }

  /** An accepted chat followed by a history request for its session lists
      one more exchange, and the last one is the answer just given. */
  lemma ChatThenHistory(h: History, openai: bool, req: ChatRequest)
    requires Accepted(req)
    ensures var (resp, h') := Respond(h, openai, req);
      var before := HistoryOf(h, req.session);
      var after := HistoryOf(h', req.session);
      after.Listing? && after.count == before.count + 1 &&
      after.history[..before.count] == before.history &&
      after.history[before.count] == Exchange(req.question.value, resp.answer, req.timestamp)
  {
  }

  /** The history after a sequence of chat requests, handled in order. */
  function Replay(h: History, openai: bool, reqs: seq<ChatRequest>): History
    decreases |reqs|
  {
    if reqs == [] then h
    else Respond(Replay(h, openai, reqs[..|reqs| - 1]), openai, reqs[|reqs| - 1]).1
  }

  /** The exchanges that the accepted requests for session `s` among `reqs` store, in order. */
  function Transcript(openai: bool, reqs: seq<ChatRequest>, s: string): seq<Exchange>
    decreases |reqs|
  {
    if reqs == [] then []
    else
      var last := reqs[|reqs| - 1];
      Transcript(openai, reqs[..|reqs| - 1], s) +
      (if Accepted(last) && last.session.value == s then [ExchangeOf(last, openai)] else [])
  }

  /** The history is append-only: after any sequence of requests, every
      session holds what it held before followed by exactly the exchanges of
      the accepted requests addressed to it, in arrival order. */
  lemma {:induction false} ReplayAppends(h: History, openai: bool, reqs: seq<ChatRequest>, s: string)
    ensures SessionOf(Replay(h, openai, reqs), s) == SessionOf(h, s) + Transcript(openai, reqs, s)
    decreases |reqs|
  {
    if reqs != [] {
      var init, last := reqs[..|reqs| - 1], reqs[|reqs| - 1];
      ReplayAppends(h, openai, init, s);
      var added := if Accepted(last) && last.session.value == s then [ExchangeOf(last, openai)] else [];
      assert SessionOf(Replay(h, openai, reqs), s) == SessionOf(Replay(h, openai, init), s) + added;
      AppendRegroup(SessionOf(h, s), Transcript(openai, init, s), added);
    }
  }

  lemma AppendRegroup(a: seq<Exchange>, b: seq<Exchange>, c: seq<Exchange>)
    ensures a + b + c == a + (b + c)
  {
  }

  /** Starting from the empty map, the count `/api/history` reports for a
      session is the number of accepted requests addressed to it. */
  lemma {:induction false} CountIsAcceptedRequests(openai: bool, reqs: seq<ChatRequest>, s: string)
    requires s != ""
    ensures var r := HistoryOf(Replay(map[], openai, reqs), Some(s));
      r.Listing? && r.history == Transcript(openai, reqs, s) && r.count == |Transcript(openai, reqs, s)|
  {
    ReplayAppends(map[], openai, reqs, s);
  }

  // ---------------------------------------------------------------------
  // `/proof/messages`

  /** The number of leading decimal digits of `s`. */
  function LeadingDigits(s: string): (n: nat)
    ensures n <= |s|
    ensures forall k :: 0 <= k < n ==> IsDigit(s[k])
    ensures n < |s| ==> !IsDigit(s[n])
  {
    if |s| == 0 || !IsDigit(s[0]) then 0 else 1 + LeadingDigits(s[1..])
  }

  /** The number a run of digits at the start of `u` spells; `None` when
      `u` does not start with a digit. */
  function Unsigned(u: string): (r: Option<nat>)
    ensures r.Some? <==> |u| > 0 && IsDigit(u[0])
  {
    var n := LeadingDigits(u);
    if n == 0 then None else Some(DecimalValue(u[..n]))
  }

  /** What `parseInt` reads once the leading white space is gone: an
      optional sign, then a run of digits. */
  function Signed(t: string): Option<int>
  {
    if |t| > 0 && t[0] == '-' then
      match Unsigned(t[1..])
      case None => None
      case Some(n) => Some(-(n as int))
    else if |t| > 0 && t[0] == '+' then
      match Unsigned(t[1..])
      case None => None
      case Some(n) => Some(n as int)
    else
      match Unsigned(t)
      case None => None
      case Some(n) => Some(n as int)
  }

  /** `parseInt(s, 10)`: leading white space is skipped, then an optional
      sign, then the longest run of digits; anything after it is ignored.
      `None` is NaN, the result when no digit follows. */
  function ParseInt(s: string): (r: Option<int>)
    ensures var t := s[LeadingSpace(s, JsSpace)..];
      r.Some? <==> (|t| > 0 && IsDigit(t[0])) || (|t| > 1 && (t[0] == '-' || t[0] == '+') && IsDigit(t[1]))
    ensures Blank(s, JsSpace) ==> r.None?
  {
    Signed(s[LeadingSpace(s, JsSpace)..])
  }

  lemma {:induction false} LeadingDigitsConcat(ds: string, rest: string)
    requires forall k :: 0 <= k < |ds| ==> IsDigit(ds[k])
    requires rest == [] || !IsDigit(rest[0])
    ensures LeadingDigits(ds + rest) == |ds|
    decreases |ds|
  {
    if ds != [] {
      assert (ds + rest)[1..] == ds[1..] + rest;
      LeadingDigitsConcat(ds[1..], rest);
    }
  }

  lemma {:induction false} LeadingSpaceConcat(ws: string, s: string)
    requires Blank(ws, JsSpace)
    ensures LeadingSpace(ws + s, JsSpace) == |ws| + LeadingSpace(s, JsSpace)
    decreases |ws|
  {
    if ws == [] {
      assert ws + s == s;
    } else {
      assert (ws + s)[0] == ws[0] && JsSpace(ws[0]);
      assert (ws + s)[1..] == ws[1..] + s;
      LeadingSpaceConcat(ws[1..], s);
    }
  }

  lemma {:induction false} UnsignedReadsDigits(ds: string, rest: string)
    requires ds != [] && forall k :: 0 <= k < |ds| ==> IsDigit(ds[k])
    requires rest == [] || !IsDigit(rest[0])
    ensures Unsigned(ds + rest) == Some(DecimalValue(ds))
  {
    LeadingDigitsConcat(ds, rest);
    assert (ds + rest)[..|ds|] == ds;
  }

  /** A digit is not white space, so `parseInt` starts reading right away. */
  lemma {:induction false} NoLeadingSpace(s: string)
    requires s != [] && (IsDigit(s[0]) || s[0] == '-')
    ensures ParseInt(s) == Signed(s)
  {
    assert LeadingSpace(s, JsSpace) == 0;
    assert s[0..] == s;
  }

  /** `parseInt` reads a run of digits and stops at the first non-digit. */
  lemma {:induction false} ParseIntReadsDigits(ds: string, rest: string)
    requires ds != [] && forall k :: 0 <= k < |ds| ==> IsDigit(ds[k])
    requires rest == [] || !IsDigit(rest[0])
    ensures ParseInt(ds + rest) == Some(DecimalValue(ds))
  {
    UnsignedReadsDigits(ds, rest);
    var p := ds + rest;
    assert p[0] == ds[0] && IsDigit(p[0]);
    NoLeadingSpace(p);
  }

  /** A minus sign in front of text that starts with digits negates what they spell. */
  lemma {:induction false} ParseIntNegates(p: string)
    requires Unsigned(p).Some?
    ensures ParseInt(['-'] + p) == Some(-(Unsigned(p).value as int))
  {
    var m := ['-'] + p;
    assert m[0] == '-' && m[1..] == p;
    assert Signed(m) == Some(-(Unsigned(p).value as int));
    NoLeadingSpace(m);
  }

  /** The same behind a minus sign. */
  lemma {:induction false} ParseIntReadsNegative(ds: string, rest: string)
    requires ds != [] && forall k :: 0 <= k < |ds| ==> IsDigit(ds[k])
    requires rest == [] || !IsDigit(rest[0])
    ensures ParseInt(['-'] + (ds + rest)) == Some(-(DecimalValue(ds) as int))
  {
    UnsignedReadsDigits(ds, rest);
    ParseIntNegates(ds + rest);
  }

  /** Leading white space does not change what `parseInt` reads. */
  lemma {:induction false} ParseIntSkipsSpace(ws: string, s: string)
    requires Blank(ws, JsSpace)
    ensures ParseInt(ws + s) == ParseInt(s)
  {
    LeadingSpaceConcat(ws, s);
    var i := LeadingSpace(s, JsSpace);
    var t := (ws + s)[LeadingSpace(ws + s, JsSpace)..];
    assert t == s[i..];
    assert ParseInt(ws + s) == Signed(t);
  }

  /** `Math.min(parseInt(limit ?? "5", 10), 20)`: five when the parameter is
      absent, never above twenty, NaN (`None`) when the text has no number;
      a number up to twenty is passed on unchanged, including a negative one. */
  function ProofLimit(limit: Option<string>): (r: Option<int>)
    ensures limit.None? ==> r == Some(5)
    ensures r.Some? ==> r.value <= 20
    ensures var n := ParseInt(if limit.Some? then limit.value else "5");
      (r.None? <==> n.None?) &&
      (n.Some? && n.value <= 20 ==> r == n) &&
      (n.Some? && n.value > 20 ==> r == Some(20))
  {
    if limit.None? then
      ParseIntReadsDigits("5", "");
      assert "5" + "" == "5";
      Some(5)
    else
      match ParseInt(limit.value)
      case None => None
      case Some(n) => Some(if n < 20 then n else 20)
  }

  /** A limit written as plain digits is that number, capped at twenty. */
  lemma {:induction false} ProofLimitOfDigits(ds: string)
    requires ds != [] && forall k :: 0 <= k < |ds| ==> IsDigit(ds[k])
    ensures ProofLimit(Some(ds)) == Some(if DecimalValue(ds) < 20 then DecimalValue(ds) else 20)
  {
    ParseIntReadsDigits(ds, "");
    assert ds + "" == ds;
  }

  /** What the storage query gave: rows (`None` for a null `data`), a
      reported error, or an exception. */
  datatype Query = Rows(data: Option<seq<Value>>) | QueryError(message: string) | QueryThrew(detail: string)

  datatype ProofResponse =
    | NotConfigured               // 500 "supabase_not_configured"
    | DbError(detail: string)     // 500 "db_error"
    | InternalError(detail: string)   // 500 "internal_error"
    | ProofRows(rows: seq<Value>) // 200 {ok: true, rows}

  function ProofStatus(r: ProofResponse): int
  {
    if r.ProofRows? then 200 else 500
  }

  /** `/proof/messages`: refused before anything else when no storage client
      exists; otherwise the query, given the clamped limit, decides. */
  function ProofMessages(storage: bool, limit: Option<string>, query: Option<int> -> Query): (r: ProofResponse)
    ensures !storage ==> r == NotConfigured
    ensures ProofStatus(r) == 200 <==> storage && query(ProofLimit(limit)).Rows?
    ensures r.ProofRows? ==> r.rows == (match query(ProofLimit(limit)).data
                                        case Some(rows) => rows
                                        case None => [])
    ensures storage && query(ProofLimit(limit)).QueryError? ==>
      r == DbError(query(ProofLimit(limit)).message)
    ensures storage && query(ProofLimit(limit)).QueryThrew? ==>
      r == InternalError(query(ProofLimit(limit)).detail)
  {
    if !storage then NotConfigured
    else
      match query(ProofLimit(limit))
      case Rows(data) => ProofRows(if data.Some? then data.value else [])
      case QueryError(m) => DbError(m)
      case QueryThrew(d) => InternalError(d)
  }
}
