/**
 * The submit handler of the chat form: it trims the input, pushes the user
 * turn onto the conversation history, sends the whole history to the chat
 * endpoint and, depending on the outcome, keeps the user turn, adds the
 * model's turn, or pops the user turn again.
 *
 * The network exchange is not modelled: its outcome, including what
 * `response.json()` makes of the body, is a parameter of a submission.
 */
module Chat {
  import opened Wrappers
  import opened JsString
  import opened Render

  datatype Role = User | Model

  /** One entry `{role, content}` of the conversation history. */
  datatype Turn = Turn(role: Role, content: string)

  /**
   * What `response.json()` makes of a response body: a rejection (the body
   * is not JSON), the JSON literal `null`, or another JSON value together
   * with the property the handler reads from it (`error` on a failed
   * response, `result` on a successful one) when that property is a string.
   */
  datatype Body = NotJson | JsonNull | JsonValue(field: Option<string>)

  /** The outcome of `fetch`: it rejects, or a response arrives with a status and a body. */
  datatype Outcome = NetworkError | Response(status: nat, body: Body)

  /** How a submission ends: with a reply, with an empty reply, or with an error message. */
  datatype Resolution = Replied(reply: string) | NoReply | Failed(message: string)

  const GenericFailure: string := "Failed to get response from server."
  const NoResponse: string := "Sorry, no response received."
  const StatusLabel: string := " Status: "

  /** A string property is truthy when it is present and not empty. */
  predicate Truthy(field: Option<string>) {
    field.Some? && field.value != ""
  }

  /** `response.ok`: the status is in the range 200-299. */
  predicate IsOk(status: nat) {
    200 <= status <= 299
  }

  /** The text shown for a response whose status is not ok. */
  function ErrorMessage(status: nat, body: Body): string {
    match body
    case NotJson => GenericFailure + StatusLabel + NumberToString(status)
    case JsonNull => GenericFailure
    case JsonValue(error) => if Truthy(error) then error.value else GenericFailure
  }

  /**
   * The message for a failed response is never empty: it is the server's
   * `error` text when the body is JSON with a truthy `error`, and otherwise
   * starts with the generic failure text, which it equals when the body is
   * JSON.
   */
  lemma ErrorMessageRule(status: nat, body: Body)
    ensures ErrorMessage(status, body) != ""
    ensures body.JsonValue? && Truthy(body.field) ==> ErrorMessage(status, body) == body.field.value
    ensures !(body.JsonValue? && Truthy(body.field)) ==>
              |GenericFailure| <= |ErrorMessage(status, body)| &&
              ErrorMessage(status, body)[..|GenericFailure|] == GenericFailure
    ensures body == JsonNull || (body.JsonValue? && !Truthy(body.field)) ==> ErrorMessage(status, body) == GenericFailure
  {
  }

  /**
   * When the error body is not JSON, the message is the generic text, the
   * status label and digits from which the status can be read back.
   */
  lemma StatusReadBack(status: nat)
    ensures var m := ErrorMessage(status, NotJson);
            var n := |GenericFailure + StatusLabel|;
            n < |m| && m[..n] == GenericFailure + StatusLabel && AllDigits(m[n..]) && DecimalValue(m[n..]) == status
  {
    var digits := NumberToString(status);
    DecimalRoundTrip(status);
    assert ErrorMessage(status, NotJson)[|GenericFailure + StatusLabel|..] == digits;
  }

  /** How the handler ends for an outcome, following its try/catch structure. */
  function Resolve(o: Outcome): Resolution {
    match o
    // `fetch` rejects: the catch block
    case NetworkError => Failed(GenericFailure)
    case Response(status, body) =>
      if !IsOk(status) then
        Failed(ErrorMessage(status, body))
      else
        match body
        // `response.json()` rejects: the catch block
        case NotJson => Failed(GenericFailure)
        // `data.result` on `null` throws a TypeError: the catch block
        case JsonNull => Failed(GenericFailure)
        case JsonValue(result) => if Truthy(result) then Replied(result.value) else NoReply
  }

  /**
   * A submission fails exactly when the request rejects, the status is not
   * ok, or the body of an ok response cannot be read; it gets a reply exactly
   * when an ok response carries a non-empty `result`. A failure always has
   * a message to show.
   */
  lemma ResolveRule(o: Outcome)
    ensures Resolve(o).Failed? <==> o.NetworkError? || !IsOk(o.status) || o.body == NotJson || o.body == JsonNull
    ensures Resolve(o).Replied? <==> o.Response? && IsOk(o.status) && o.body.JsonValue? && Truthy(o.body.field)
    ensures Resolve(o).Replied? ==> Resolve(o).reply == o.body.field.value && Resolve(o).reply != ""
    ensures Resolve(o).Failed? ==> Resolve(o).message != ""
    ensures o.Response? && !IsOk(o.status) ==> Resolve(o) == Failed(ErrorMessage(o.status, o.body))
  {
  }

  /** The text the placeholder bubble is finally rendered from. */
  function Shown(r: Resolution): string {
    match r
    case Replied(reply) => reply
    case NoReply => NoResponse
    case Failed(message) => message
  }

  /** The history after a submission of the (already trimmed, non-empty) message `msg`. */
  function HistoryAfter(h: seq<Turn>, msg: string, o: Outcome): seq<Turn> {
    match Resolve(o)
    case Replied(reply) => h + [Turn(User, msg), Turn(Model, reply)]
    case NoReply => h + [Turn(User, msg)]
    case Failed(_) => h
  }

  /** The history after the form is submitted with the raw input `input`. */
  function AfterSubmit(h: seq<Turn>, input: string, o: Outcome): seq<Turn> {
    var msg := Trim(input);
    if msg == "" then h else HistoryAfter(h, msg, o)
  }

  // ---------------------------------------------------------------------------
  // The effect of one submission, branch by branch
  // ---------------------------------------------------------------------------

  /** Input that is empty or whitespace only is ignored. */
  lemma BlankInputIgnored(h: seq<Turn>, input: string, o: Outcome)
    requires AllWhitespace(input)
    ensures AfterSubmit(h, input, o) == h
  {
    TrimSpec(input);
  }

  /** A response whose status is not ok rolls the history back to what it was before the submission. */
  lemma HttpErrorRestoresHistory(h: seq<Turn>, input: string, status: nat, body: Body)
    requires !IsOk(status)
    ensures AfterSubmit(h, input, Response(status, body)) == h
  {
  }

  /** A network failure, or an ok response whose body cannot be read, rolls the history back and shows the generic text. */
  lemma ExceptionRestoresHistory(h: seq<Turn>, input: string, o: Outcome)
    requires o.NetworkError? || (IsOk(o.status) && (o.body == NotJson || o.body == JsonNull))
    ensures AfterSubmit(h, input, o) == h
    ensures Shown(Resolve(o)) == GenericFailure
  {
  }

  /** An ok response with a non-empty `result` adds the user turn and the model turn: two more entries. */
  lemma ReplyAddsTwoTurns(h: seq<Turn>, input: string, status: nat, reply: string)
    requires !AllWhitespace(input) && IsOk(status) && reply != ""
    ensures AfterSubmit(h, input, Response(status, JsonValue(Some(reply)))) == h + [Turn(User, Trim(input)), Turn(Model, reply)]
    ensures |AfterSubmit(h, input, Response(status, JsonValue(Some(reply))))| == |h| + 2
  {
    TrimSpec(input);
  }

  /** An ok response without a usable `result` keeps the user turn and shows the no-response text. */
  lemma EmptyReplyKeepsUserTurn(h: seq<Turn>, input: string, status: nat, result: Option<string>)
    requires !AllWhitespace(input) && IsOk(status) && !Truthy(result)
    ensures AfterSubmit(h, input, Response(status, JsonValue(result))) == h + [Turn(User, Trim(input))]
    ensures Shown(Resolve(Response(status, JsonValue(result)))) == NoResponse
  {
    TrimSpec(input);
  }

  // ---------------------------------------------------------------------------
  // The history over a page session
  // ---------------------------------------------------------------------------

  /**
   * What every history reachable from the empty one satisfies: no entry is
   * empty, a user entry neither starts nor ends with whitespace, and every
   * model entry directly follows a user entry.
   */
  predicate WellFormed(h: seq<Turn>) {
    && (forall i :: 0 <= i < |h| ==> h[i].content != "")
    && (forall i :: 0 <= i < |h| && h[i].role == User ==>
          !IsWhitespace(h[i].content[0]) && !IsWhitespace(h[i].content[|h[i].content| - 1]))
    && (forall i :: 0 <= i < |h| && h[i].role == Model ==> 0 < i && h[i - 1].role == User)
  }

  /** Strict alternation user, model, user, model, ... */
  predicate Alternates(h: seq<Turn>) {
    forall i :: 0 <= i < |h| ==> h[i].role == if i % 2 == 0 then User else Model
  }

  /** One form submission: the raw input value and the outcome of the request it makes. */
  datatype Submission = Submission(input: string, outcome: Outcome)

  /** The history after a sequence of submissions, one after the other. */
  function Run(h: seq<Turn>, subs: seq<Submission>): seq<Turn>
    decreases |subs|
  {
    if subs == [] then h else Run(AfterSubmit(h, subs[0].input, subs[0].outcome), subs[1..])
  }

  /** Pushing a turn that fits after the last one keeps the history well formed. */
  lemma PushKeepsWellFormed(h: seq<Turn>, t: Turn)
    requires WellFormed(h) && t.content != ""
    requires t.role == User ==> !IsWhitespace(t.content[0]) && !IsWhitespace(t.content[|t.content| - 1])
    requires t.role == Model ==> h != [] && h[|h| - 1].role == User
    ensures WellFormed(h + [t])
  {
  }

  lemma AfterSubmitKeepsWellFormed(h: seq<Turn>, input: string, o: Outcome)
    requires WellFormed(h)
    ensures WellFormed(AfterSubmit(h, input, o))
  {
    var msg := Trim(input);
    TrimSpec(input);
    if msg != "" {
      var a :| IsTrimOf(input, a, msg);
      var u := Turn(User, msg);
      var r := Resolve(o);
      if r.Replied? || r.NoReply? {
        PushKeepsWellFormed(h, u);
      }
      if r.Replied? {
        PushKeepsWellFormed(h + [u], Turn(Model, r.reply));
        assert h + [u] + [Turn(Model, r.reply)] == h + [u, Turn(Model, r.reply)];
      }
    }
  }

  /** Every history the page can reach from the empty one is well formed. */
  lemma {:induction false} RunKeepsWellFormed(h: seq<Turn>, subs: seq<Submission>)
    requires WellFormed(h)
    ensures WellFormed(Run(h, subs))
    decreases |subs|
  {
    if subs != [] {
      AfterSubmitKeepsWellFormed(h, subs[0].input, subs[0].outcome);
      RunKeepsWellFormed(AfterSubmit(h, subs[0].input, subs[0].outcome), subs[1..]);
    }
  }

  /** Two submissions that both receive an empty reply leave two user turns in a row: alternation is not kept. */
  lemma AlternationCanBreak()
    ensures var empty := Response(200, JsonValue(None));
            var h := Run([], [Submission("a", empty), Submission("b", empty)]);
            h == [Turn(User, "a"), Turn(User, "b")] && !Alternates(h)
  {
    var empty := Response(200, JsonValue(None));
    assert IsTrimOf("a", 0, "a");
    TrimUnique("a", 0, "a");
    assert IsTrimOf("b", 0, "b");
    TrimUnique("b", 0, "b");
    var subs := [Submission("a", empty), Submission("b", empty)];
    var h1 := AfterSubmit([], "a", empty);
    assert h1 == [Turn(User, "a")];
    var h2 := AfterSubmit(h1, "b", empty);
    assert h2 == [Turn(User, "a"), Turn(User, "b")];
    assert subs[1..] == [Submission("b", empty)];
    assert Run([], subs) == Run(h1, subs[1..]);
    assert Run(h1, subs[1..]) == Run(h2, []);
    assert h2[1].role == User;
  }

  // ---------------------------------------------------------------------------
  // The handler
  // ---------------------------------------------------------------------------

  /** The page state the submit handler works on. */
  class ChatSession {
    /** The value of the `#user-input` text field. */
    var input: string
    /** `conversationHistory`. */
    var history: seq<Turn>
    const box: ChatBox

    /** At page load the history is empty. */
    constructor (box: ChatBox)
      ensures this.box == box && input == "" && history == []
    {
      this.box := box;
      input := "";
      history := [];
    }

    /**
     * One run of the submit handler, where `outcome` is what the request
     * yields. Returns the history sent as the request's `messages`, or
     * `None` when the trimmed input is empty and nothing happens.
     */
    method Submit(outcome: Outcome) returns (request: Option<seq<Turn>>)
      modifies this, box
      ensures Trim(old(input)) == "" ==> request == None && input == old(input) && box.bubbles == old(box.bubbles)
      ensures Trim(old(input)) != "" ==> request == Some(old(history) + [Turn(User, Trim(old(input)))]) && input == ""
      ensures Trim(old(input)) != "" ==>
                box.bubbles == old(box.bubbles) + [BubbleFor("user", Trim(old(input))), Bubble(ChatStart, BubbleBot, Markdown(Shown(Resolve(outcome))))]
      ensures history == AfterSubmit(old(history), old(input), outcome)
    {
      var userMessage := Trim(input);
      if userMessage == "" {
        return None;
      }
      var _ := box.AppendMessage("user", userMessage);
      history := history + [Turn(User, userMessage)];
      input := "";

      var thinking := box.AppendMessage("bot", ThinkingWord);

      request := Some(history);
      Settle(thinking, outcome);
    }

    /**
     * The try/catch part of the handler: fills in the placeholder bubble at
     * `thinking` and pops the user turn again or pushes the model's turn.
     */
    method Settle(thinking: nat, outcome: Outcome)
      requires thinking < |box.bubbles| && history != []
      modifies this, box
      ensures box.bubbles == old(box.bubbles)[thinking := old(box.bubbles)[thinking].(content := Markdown(Shown(Resolve(outcome))))]
      ensures Resolve(outcome).Failed? ==> history == old(history)[..|old(history)| - 1]
      ensures Resolve(outcome).Replied? ==> history == old(history) + [Turn(Model, Resolve(outcome).reply)]
      ensures Resolve(outcome).NoReply? ==> history == old(history)
      ensures input == old(input)
    {
      match outcome {
        // `fetch` rejects: the catch block
        case NetworkError =>
          box.UpdateThinkingMessage(thinking, GenericFailure);
          history := history[..|history| - 1];
        case Response(status, body) =>
          if !IsOk(status) {
            var errorMessage := ErrorMessage(status, body);
            box.UpdateThinkingMessage(thinking, errorMessage);
            history := history[..|history| - 1];
          } else {
            match body {
              // `response.json()` rejects: the catch block
              case NotJson =>
                box.UpdateThinkingMessage(thinking, GenericFailure);
                history := history[..|history| - 1];
              // `data.result` on `null` throws a TypeError: the catch block
              case JsonNull =>
                box.UpdateThinkingMessage(thinking, GenericFailure);
                history := history[..|history| - 1];
              case JsonValue(botReply) =>
                if Truthy(botReply) {
                  box.UpdateThinkingMessage(thinking, botReply.value);
                  history := history + [Turn(Model, botReply.value)];
                } else {
                  box.UpdateThinkingMessage(thinking, NoResponse);
                }
            }
          }
      }
    }
  }
}
