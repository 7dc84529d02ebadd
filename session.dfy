/** The interactive session of the chat debugger: the mode, the history of
    messages, the one-shot initial input, and what one line of input does. */
module ChatSession {
  import opened Wrappers
  import opened JsonValues
  import opened Text
  import opened Decoders
  import opened Payloads

  // ---------------------------------------------------------------------------
  // Modes

  /** How a line that is not a command is read: as one message with that role
      (user, assistant, system), as JSON messages (json) or as the whole
      request body (raw). */
  datatype Mode = User | Assistant | System | JsonInput | Raw {
    /** The name the program prints and, for the first three, the role. */
    function Name(): string {
      match this
      case User => "user"
      case Assistant => "assistant"
      case System => "system"
      case JsonInput => "json"
      case Raw => "raw"
    }
  }

  /** The mode a /mode argument selects: one of the five names, or "none" as
      another name for raw; anything else selects nothing. */
  function ModeNamed(candidate: string): (r: Option<Mode>)
    ensures r.Some? <==> candidate in {"user", "assistant", "system", "json", "raw", "none"}
    ensures r.Some? ==> r.value.Name() == (if candidate == "none" then "raw" else candidate)
  {
    var name := if candidate == "none" then "raw" else candidate;
    if name == "user" then Some(User)
    else if name == "assistant" then Some(Assistant)
    else if name == "system" then Some(System)
    else if name == "json" then Some(JsonInput)
    else if name == "raw" then Some(Raw)
    else None
  }

  /** Every mode is selected by its own name. */
  lemma ModeNamedRoundTrip(m: Mode)
    ensures ModeNamed(m.Name()) == Some(m)
  {
  }

  /** Every mode's name is already lower case. */
  lemma NameIsLowerCase(m: Mode)
    ensures Lower(m.Name()) == m.Name()
  {
    match m
    case User => LowerUnchanged("user");
    case Assistant => LowerUnchanged("assistant");
    case System => LowerUnchanged("system");
    case JsonInput => LowerUnchanged("json");
    case Raw => LowerUnchanged("raw");
  }

  /** The argument of a /mode command, stripped and lower-cased. The program
      splits the text once at whitespace and strips the second part; since the
      text starts with "/mode ", the first part is "/mode" and the second part,
      once stripped, is the stripped rest of the text after "/mode ". */
  function ModeArgument(text: string): string
    requires StartsWith(text, "/mode ")
  {
    Lower(Strip(text[|"/mode "|..]))
  }

  // ---------------------------------------------------------------------------
  // One turn

  /** The startup options the loop uses (already decoded; the endpoint, the
      token and the timeout belong to the transport). */
  datatype Settings = Settings(
    model: string,
    temperature: FloatValue,
    topP: FloatValue,
    topK: Option<int>,
    maxTokens: int,
    reasoningEffort: Option<string>,
    extraParams: map<string, Json>)

  /** What the HTTP call gave back: a status and the body text (error statuses
      included), or a failure of the connection itself, which the program does
      not catch and which therefore ends the session. */
  datatype Reply = Response(status: int, body: string) | TransportError

  /** The observable result of one line of input. */
  datatype Outcome =
    | Blank                                 // an empty line: nothing happens
    | Quit                                  // /quit
    | Shown(history: seq<Message>)          // /show prints this history
    | Cleared                               // /clear
    | ModeSet(mode: Mode)                   // /mode with a valid name
    | ModeInvalid(candidate: string)        // /mode with any other name
    | RawInvalid                            // raw mode, the line is not JSON
    | MessageInvalid(error: MessageError)   // json mode, the line is not a message
    | Sent(payload: Json, reply: Reply)     // one request with this body, and its reply

  /** The session state that a turn reads and changes. */
  datatype Conversation = Conversation(mode: Mode, history: seq<Message>)

  datatype TurnResult = TurnResult(conv: Conversation, outcome: Outcome)

  /** The lines the loop handles before looking at the mode: blank lines and
      the four commands (compared case-sensitively, after stripping). */
  predicate IsCommand(text: string) {
    text == "" || text == "/quit" || text == "/show" || text == "/clear" || StartsWith(text, "/mode ")
  }

  /** A line that does not start with a slash is neither blank nor a command. */
  lemma NoSlashNoCommand(text: string)
    requires text != [] && text[0] != '/'
    ensures !IsCommand(text)
  {
    assert text != "/quit" && text != "/show" && text != "/clear" by {
      assert "/quit"[0] == "/show"[0] == "/clear"[0] == '/';
    }
    if |text| >= |"/mode "| {
      assert text[..|"/mode "|][0] == text[0];
    }
  }

  function RoleMessage(role: string, content: Json): Message {
    map["role" := Str(role), "content" := content]
  }

  /** The messages a non-command line adds in a non-raw mode. */
  function Interpret(loads: Loads, mode: Mode, text: string): Result<seq<Message>, MessageError>
    requires mode != Raw
  {
    if mode == JsonInput then JsonMessages(loads, text)
    else Success([RoleMessage(mode.Name(), Str(text))])
  }

  /** The assistant message a reply adds: one, holding the extracted content,
      exactly when the status is a success (2xx) and the body carries a
      non-null content; none otherwise. */
  function AssistantReply(loads: Loads, reply: Reply): (r: seq<Message>)
    ensures |r| <= 1
    ensures r != [] <==>
      reply.Response? && 200 <= reply.status < 300 && ExtractAssistantText(loads, reply.body).Some?
    ensures r != [] ==>
      r[0] == RoleMessage("assistant", ExtractAssistantText(loads, reply.body).value) && r[0]["content"] != Null
  {
    if reply.Response? && 200 <= reply.status < 300 then
      match ExtractAssistantText(loads, reply.body)
      case Some(content) => [RoleMessage("assistant", content)]
      case None => []
    else []
  }

  function PayloadFor(cfg: Settings, messages: seq<Message>): (p: Json)
    ensures p.Object?
  {
    Object(BuildPayload(cfg.model, messages, cfg.temperature, cfg.topP, cfg.topK,
                        cfg.maxTokens, cfg.reasoningEffort, cfg.extraParams))
  }

  /** One turn of the loop, given the line read and the reply the server would
      give to a request sent in this turn (unused when none is sent). */
  function Turn(cfg: Settings, loads: Loads, c: Conversation, line: string, reply: Reply): TurnResult
  {
    var text := Strip(line);
    if text == "" then TurnResult(c, Blank)
    else if text == "/quit" then TurnResult(c, Quit)
    else if text == "/show" then TurnResult(c, Shown(c.history))
    else if text == "/clear" then TurnResult(c.(history := []), Cleared)
    else if StartsWith(text, "/mode ") then
      var candidate := ModeArgument(text);
      match ModeNamed(candidate)
      case Some(m) => TurnResult(c.(mode := m), ModeSet(m))
      case None => TurnResult(c, ModeInvalid(candidate))
    else if c.mode == Raw then
      match loads(text)
      case None => TurnResult(c, RawInvalid)
      case Some(body) => TurnResult(c, Sent(body, reply))
    else
      match Interpret(loads, c.mode, text)
      case Failure(e) => TurnResult(c, MessageInvalid(e))
      case Success(added) =>
        var sent := c.history + added;
        TurnResult(c.(history := sent + AssistantReply(loads, reply)), Sent(PayloadFor(cfg, sent), reply))
  }

  /** Blank lines and commands: none sends a request; a blank line, /show and
      /quit change nothing; /clear empties the history whatever it held; /mode
      sets the named mode, or keeps the mode when the name is unknown, and
      keeps the history either way. */
  lemma TurnCommands(cfg: Settings, loads: Loads, c: Conversation, line: string, reply: Reply)
    ensures var r := Turn(cfg, loads, c, line, reply);
      && (IsCommand(Strip(line)) ==> !r.outcome.Sent?)
      && (Strip(line) == "" ==> r == TurnResult(c, Blank))
      && (Strip(line) == "/show" ==> r == TurnResult(c, Shown(c.history)))
      && (Strip(line) == "/quit" ==> r == TurnResult(c, Quit))
      && (Strip(line) == "/clear" ==> r == TurnResult(c.(history := []), Cleared))
      && (StartsWith(Strip(line), "/mode ") ==>
            match ModeNamed(ModeArgument(Strip(line)))
            case Some(m) => r == TurnResult(c.(mode := m), ModeSet(m))
            case None => r == TurnResult(c, ModeInvalid(ModeArgument(Strip(line)))))
  {
  }

  /** Only /mode changes the mode; only /clear and a turn that sends a request
      change the history; and unless /clear empties it, the history only grows
      at its end. */
  lemma TurnChanges(cfg: Settings, loads: Loads, c: Conversation, line: string, reply: Reply)
    ensures var r := Turn(cfg, loads, c, line, reply);
      && (r.conv.mode != c.mode ==> r.outcome == ModeSet(r.conv.mode))
      && (!r.outcome.ModeSet? ==> r.conv.mode == c.mode)
      && (!r.outcome.Cleared? && !r.outcome.Sent? ==> r.conv.history == c.history)
      && (r.outcome.Cleared? <==> Strip(line) == "/clear")
      && (Strip(line) != "/clear" ==> c.history <= r.conv.history)
  {
  }

  /** Raw mode: a line that is not a command is sent as the request body when
      it decodes, and nothing is sent otherwise; the mode and the history are
      untouched whatever the reply. */
  lemma TurnRaw(cfg: Settings, loads: Loads, c: Conversation, line: string, reply: Reply)
    requires c.mode == Raw && !IsCommand(Strip(line))
    ensures var r := Turn(cfg, loads, c, line, reply);
      && r.conv == c
      && match loads(Strip(line))
         case None => r.outcome == RawInvalid
         case Some(body) => r.outcome == Sent(body, reply)
  {
  }

  /** The other modes: a line that is not a command yields its messages; when
      it yields none (a json-mode error) nothing changes and nothing is sent;
      otherwise they are appended, the request carries the whole history up to
      and including them, and the reply adds at most one assistant message. */
  lemma TurnMessages(cfg: Settings, loads: Loads, c: Conversation, line: string, reply: Reply)
    requires c.mode != Raw && !IsCommand(Strip(line))
    ensures var r := Turn(cfg, loads, c, line, reply);
      match Interpret(loads, c.mode, Strip(line))
      case Failure(e) => r == TurnResult(c, MessageInvalid(e))
      case Success(added) =>
        && r.conv.mode == c.mode
        && r.conv.history == c.history + added + AssistantReply(loads, reply)
        && r.outcome == Sent(PayloadFor(cfg, c.history + added), reply)
        && ("messages" !in cfg.extraParams ==>
              r.outcome.payload.fields["messages"] == MessagesJson(c.history + added))
  {
  }

  // ---------------------------------------------------------------------------
  // The loop

  /** What reading a line from the console gives. */
  datatype ReadResult = Line(line: string) | EndOfFile | KeyboardInterrupt

  /** Why the loop stopped. */
  datatype EndReason = QuitCommand | InputEnded | InputInterrupted | TransportFailed

  datatype RunResult = RunResult(conv: Conversation, outcomes: seq<Outcome>, end: EndReason)

  /** What one turn does to the conversation, given the line and the reply. The
      loop is stated over any such function; the program's is SessionTurn. */
  type TurnFn = (Conversation, string, Reply) -> TurnResult

  function SessionTurn(cfg: Settings, loads: Loads): TurnFn {
    (c: Conversation, line: string, reply: Reply) => Turn(cfg, loads, c, line, reply)
  }

  /** The reply to the next request: the next one the server gives, or a failed
      connection once the given replies are used up. */
  function NextReply(replies: seq<Reply>): Reply {
    if replies == [] then TransportError else replies[0]
  }

  /** The number of lines a run may still read: the console's and the queued one. */
  function LinesLeft(pending: Option<string>, console: seq<ReadResult>): nat {
    |console| + (if pending.Some? then 1 else 0)
  }

  /** The outcomes after which the loop stops: /quit, and a request whose
      connection failed. */
  predicate EndsLoop(o: Outcome) {
    o.Quit? || (o.Sent? && o.reply.TransportError?)
  }

  /** The whole loop: take the queued initial input once, then read console
      lines until /quit, the end of input or an interrupt; a console that runs
      out is the end of input. The server's replies are consumed one per request. */
  function Loop(turn: TurnFn, c: Conversation, pending: Option<string>,
                console: seq<ReadResult>, replies: seq<Reply>): (r: RunResult)
    decreases LinesLeft(pending, console)
    ensures |r.outcomes| <= LinesLeft(pending, console)
  {
    if pending.None? && (console == [] || !console[0].Line?) then
      RunResult(c, [], if console != [] && console[0].KeyboardInterrupt? then InputInterrupted else InputEnded)
    else
      var line := if pending.Some? then pending.value else console[0].line;
      var rest := if pending.Some? then console else console[1..];
      var t := turn(c, line, NextReply(replies));
      if t.outcome.Quit? then RunResult(t.conv, [t.outcome], QuitCommand)
      else if t.outcome.Sent? && t.outcome.reply.TransportError? then RunResult(t.conv, [t.outcome], TransportFailed)
      else
        var more := Loop(turn, t.conv, None, rest, RepliesAfter(t.outcome, replies));
        RunResult(more.conv, [t.outcome] + more.outcomes, more.end)
  }

  /** The line the next turn handles, with the console left after it: the
      queued input if there is one, else the first console line. */
  predicate NextLine(pending: Option<string>, console: seq<ReadResult>, line: string, rest: seq<ReadResult>) {
    if pending.Some? then line == pending.value && rest == console
    else console != [] && console[0] == Line(line) && rest == console[1..]
  }

  /** The replies left after a turn with this outcome. */
  function RepliesAfter(o: Outcome, replies: seq<Reply>): seq<Reply> {
    if o.Sent? && replies != [] then replies[1..] else replies
  }

  /** The run that first gives these outcomes and then goes on as r. */
  function After(done: seq<Outcome>, r: RunResult): RunResult {
    RunResult(r.conv, done + r.outcomes, r.end)
  }

  lemma AfterAfter(first: seq<Outcome>, second: seq<Outcome>, r: RunResult)
    ensures After(first, After(second, r)) == After(first + second, r)
  {
    assert first + (second + r.outcomes) == (first + second) + r.outcomes;
  }

  /** The loop, one turn at a time: the result of a run is that of its first
      turn followed, unless the turn ended the loop, by the rest of the run. */
  lemma LoopUnfold(turn: TurnFn, c: Conversation, pending: Option<string>,
      console: seq<ReadResult>, replies: seq<Reply>, line: string, rest: seq<ReadResult>, t: TurnResult)
    requires NextLine(pending, console, line, rest)
    requires t == turn(c, line, NextReply(replies))
    ensures Loop(turn, c, pending, console, replies) ==
      if EndsLoop(t.outcome) then RunResult(t.conv, [t.outcome], if t.outcome.Quit? then QuitCommand else TransportFailed)
      else After([t.outcome], Loop(turn, t.conv, None, rest, RepliesAfter(t.outcome, replies)))
  {
  }

  /** The loop stops at the first /quit or failed connection and only there:
      no outcome before the last ends the loop, and the run ends for /quit or a
      failed connection exactly when its last outcome is that one. */
  lemma {:induction false} LoopStopsAtFirstEnd(turn: TurnFn, c: Conversation, pending: Option<string>,
      console: seq<ReadResult>, replies: seq<Reply>)
    ensures var r := Loop(turn, c, pending, console, replies);
      && (forall k :: 0 <= k < |r.outcomes| - 1 ==> !EndsLoop(r.outcomes[k]))
      && (r.end == QuitCommand <==> r.outcomes != [] && r.outcomes[|r.outcomes| - 1].Quit?)
      && (r.end == TransportFailed <==>
            r.outcomes != [] && EndsLoop(r.outcomes[|r.outcomes| - 1]) && !r.outcomes[|r.outcomes| - 1].Quit?)
    decreases LinesLeft(pending, console)
  {
    if pending.None? && (console == [] || !console[0].Line?) {
    } else {
      var line := if pending.Some? then pending.value else console[0].line;
      var rest := if pending.Some? then console else console[1..];
      var t := turn(c, line, NextReply(replies));
      if !EndsLoop(t.outcome) {
        var next := RepliesAfter(t.outcome, replies);
        LoopStopsAtFirstEnd(turn, t.conv, None, rest, next);
        var more := Loop(turn, t.conv, None, rest, next);
        var r := Loop(turn, c, pending, console, replies);
        assert r.outcomes == [t.outcome] + more.outcomes;
        assert forall k :: 1 <= k < |r.outcomes| ==> r.outcomes[k] == more.outcomes[k - 1];
      }
    }
  }

  /** The lines a run may handle: the queued one and those on the console. */
  predicate EveryLine(pending: Option<string>, console: seq<ReadResult>, p: string -> bool) {
    && (pending.Some? ==> p(pending.value))
    && forall k :: 0 <= k < |console| && console[k].Line? ==> p(console[k].line)
  }

  /** Once a line is taken, the lines left still all satisfy a property that
      every line did. */
  lemma EveryLineRest(pending: Option<string>, console: seq<ReadResult>, line: string,
      rest: seq<ReadResult>, p: string -> bool)
    requires NextLine(pending, console, line, rest)
    requires EveryLine(pending, console, p)
    ensures p(line) && EveryLine(None, rest, p)
  {
    if pending.None? {
      assert console[0].Line?;
      forall k | 0 <= k < |rest| && rest[k].Line? ensures p(rest[k].line) {
        assert rest[k] == console[k + 1];
      }
    }
  }

  predicate NotClear(line: string) {
    Strip(line) != "/clear"
  }

  predicate ChangesNoHistory(line: string) {
    Strip(line) != "/clear" && !StartsWith(Strip(line), "/mode ")
  }

  /** A turn that keeps what the history held, at its front, unless the line
      is /clear. */
  ghost predicate KeepsHistory(turn: TurnFn) {
    forall c: Conversation, line, reply :: NotClear(line) ==> c.history <= turn(c, line, reply).conv.history
  }

  /** A turn that, in raw mode, changes neither the mode nor the history
      unless the line is /clear or /mode. */
  ghost predicate RawKeepsConversation(turn: TurnFn) {
    forall c: Conversation, line, reply :: c.mode == Raw && ChangesNoHistory(line) ==> turn(c, line, reply).conv == c
  }

  lemma SessionTurnKeepsHistory(cfg: Settings, loads: Loads)
    ensures KeepsHistory(SessionTurn(cfg, loads))
  {
    forall c: Conversation, line, reply | NotClear(line)
      ensures c.history <= SessionTurn(cfg, loads)(c, line, reply).conv.history
    {
      TurnChanges(cfg, loads, c, line, reply);
    }
  }

  lemma SessionTurnRawKeepsConversation(cfg: Settings, loads: Loads)
    ensures RawKeepsConversation(SessionTurn(cfg, loads))
  {
    forall c: Conversation, line, reply | c.mode == Raw && ChangesNoHistory(line)
      ensures SessionTurn(cfg, loads)(c, line, reply).conv == c
    {
      TurnChanges(cfg, loads, c, line, reply);
      if !IsCommand(Strip(line)) {
        TurnRaw(cfg, loads, c, line, reply);
      }
    }
  }

  /** Without /clear, history only grows: what it held at the start stays, in
      order, at its front, however the run ends. */
  lemma {:induction false} HistoryOnlyGrows(turn: TurnFn, c: Conversation,
      pending: Option<string>, console: seq<ReadResult>, replies: seq<Reply>)
    requires KeepsHistory(turn)
    requires EveryLine(pending, console, NotClear)
    ensures c.history <= Loop(turn, c, pending, console, replies).conv.history
    decreases LinesLeft(pending, console)
  {
    if pending.None? && (console == [] || !console[0].Line?) {
    } else {
      var line := if pending.Some? then pending.value else console[0].line;
      var rest := if pending.Some? then console else console[1..];
      var t := turn(c, line, NextReply(replies));
      EveryLineRest(pending, console, line, rest, NotClear);
      assert c.history <= t.conv.history;
      if !EndsLoop(t.outcome) {
        var next := RepliesAfter(t.outcome, replies);
        HistoryOnlyGrows(turn, t.conv, None, rest, next);
      }
    }
  }

  /** A raw-mode run whose lines neither clear the history nor leave raw mode
      ends with the history it started with, still in raw mode. */
  lemma {:induction false} RawRunKeepsHistory(turn: TurnFn, c: Conversation,
      pending: Option<string>, console: seq<ReadResult>, replies: seq<Reply>)
    requires RawKeepsConversation(turn)
    requires c.mode == Raw
    requires EveryLine(pending, console, ChangesNoHistory)
    ensures Loop(turn, c, pending, console, replies).conv == c
    decreases LinesLeft(pending, console)
  {
    if pending.None? && (console == [] || !console[0].Line?) {
    } else {
      var line := if pending.Some? then pending.value else console[0].line;
      var rest := if pending.Some? then console else console[1..];
      var t := turn(c, line, NextReply(replies));
      EveryLineRest(pending, console, line, rest, ChangesNoHistory);
      assert t.conv == c;
      if !EndsLoop(t.outcome) {
        var next := RepliesAfter(t.outcome, replies);
        RawRunKeepsHistory(turn, t.conv, None, rest, next);
      }
    }
  }

  /** The program's session: without /clear its history only grows. */
  lemma SessionHistoryOnlyGrows(cfg: Settings, loads: Loads, c: Conversation,
      pending: Option<string>, console: seq<ReadResult>, replies: seq<Reply>)
    requires EveryLine(pending, console, NotClear)
    ensures c.history <= Loop(SessionTurn(cfg, loads), c, pending, console, replies).conv.history
  {
    SessionTurnKeepsHistory(cfg, loads);
    HistoryOnlyGrows(SessionTurn(cfg, loads), c, pending, console, replies);
  }

  /** The program's session in raw mode: without /clear and /mode, whatever
      the server answers, the history is never touched. */
  lemma SessionRawRunKeepsHistory(cfg: Settings, loads: Loads, c: Conversation,
      pending: Option<string>, console: seq<ReadResult>, replies: seq<Reply>)
    requires c.mode == Raw
    requires EveryLine(pending, console, ChangesNoHistory)
    ensures Loop(SessionTurn(cfg, loads), c, pending, console, replies).conv == c
  {
    SessionTurnRawKeepsConversation(cfg, loads);
    RawRunKeepsHistory(SessionTurn(cfg, loads), c, pending, console, replies);
  }

  /** A turn function equal to the program's at every argument, which the
      proof of the loop method uses without looking into each turn. */
  lemma TurnOfSession(cfg: Settings, loads: Loads) returns (turn: TurnFn)
    ensures forall c: Conversation, line, reply {:trigger Turn(cfg, loads, c, line, reply)} ::
      turn(c, line, reply) == Turn(cfg, loads, c, line, reply)
    ensures forall c: Conversation, pending, console, replies ::
      Loop(turn, c, pending, console, replies) == Loop(SessionTurn(cfg, loads), c, pending, console, replies)
  {
    turn := SessionTurn(cfg, loads);
  }

  // ---------------------------------------------------------------------------
  // The session object

  /** The session as the program holds it: the mode, the history list it
      clears and extends in place, and the queued initial input. */
  class Session {
    const settings: Settings
    const loads: Loads
    var mode: Mode
    var history: seq<Message>
    var pending: Option<string>

    function State(): Conversation
      reads this
    {
      Conversation(mode, history)
    }

    /** A new session: user mode, empty history, the initial input queued. */
    constructor (settings: Settings, loads: Loads, initialInput: Option<string>)
      ensures this.settings == settings && this.loads == loads
      ensures mode == User && history == [] && pending == initialInput
    {
      this.settings := settings;
      this.loads := loads;
      mode := User;
      history := [];
      pending := initialInput;
    }

    /** One pass of the loop body after a line has been read. */
    method Step(line: string, reply: Reply) returns (outcome: Outcome)
      modifies this`mode, this`history
      ensures var t := Turn(settings, loads, old(State()), line, reply);
        State() == t.conv && outcome == t.outcome
    {
      var text := Strip(line);
      if text == "" {
        return Blank;
      }
      if text == "/quit" {
        return Quit;
      }
      if text == "/show" {
        return Shown(history);
      }
      if text == "/clear" {
        history := [];
        return Cleared;
      }
      if StartsWith(text, "/mode ") {
        var candidate := ModeArgument(text);
        var selected := ModeNamed(candidate);
        if selected.Some? {
          mode := selected.value;
          return ModeSet(mode);
        }
        return ModeInvalid(candidate);
      }
      var payload: Json;
      if mode == Raw {
        var decoded := loads(text);
        if decoded.None? {
          return RawInvalid;
        }
        payload := decoded.value;
      } else {
        var added: seq<Message>;
        if mode == JsonInput {
          var parsed := ParseJsonMessage(loads, text);
          if parsed.Failure? {
            return MessageInvalid(parsed.error);
          }
          added := parsed.value;
        } else {
          added := [RoleMessage(mode.Name(), Str(text))];
        }
        history := history + added;
        payload := PayloadFor(settings, history);
      }
      outcome := Sent(payload, reply);
      if mode != Raw && reply.Response? && 200 <= reply.status < 300 {
        var content := ExtractAssistantText(loads, reply.body);
        if content.Some? {
          history := history + [RoleMessage("assistant", content.value)];
        }
      }
    }

    /** Step, seen through a turn function that agrees with Turn everywhere;
        the loop method uses it so that its proof need not look into a turn. */
    method StepBy(ghost turn: TurnFn, line: string, reply: Reply) returns (outcome: Outcome)
      requires forall c: Conversation, l, r {:trigger Turn(settings, loads, c, l, r)} ::
        turn(c, l, r) == Turn(settings, loads, c, l, r)
      modifies this`mode, this`history
      ensures TurnResult(State(), outcome) == turn(old(State()), line, reply)
      ensures outcome.Sent? ==> outcome.reply == reply
    {
      outcome := Step(line, reply);
    }

    /** The loop of the program: lines come from the queued input first, then
      from the console; the replies are the server's answers, in order. */
    method Run(console: seq<ReadResult>, replies: seq<Reply>) returns (outcomes: seq<Outcome>, end: EndReason)
      modifies this
      ensures var r := Loop(SessionTurn(settings, loads), old(State()), old(pending), console, replies);
        State() == r.conv && outcomes == r.outcomes && end == r.end
      ensures pending.None?
    {
      ghost var turn := TurnOfSession(settings, loads);
      outcomes, end := RunBy(turn, console, replies);
    }

    /** Run, seen through a turn function that agrees with Turn everywhere. */
    method RunBy(ghost turn: TurnFn, console: seq<ReadResult>, replies: seq<Reply>)
        returns (outcomes: seq<Outcome>, end: EndReason)
      requires forall c: Conversation, l, r {:trigger Turn(settings, loads, c, l, r)} ::
        turn(c, l, r) == Turn(settings, loads, c, l, r)
      modifies this
      ensures var r := Loop(turn, old(State()), old(pending), console, replies);
        State() == r.conv && outcomes == r.outcomes && end == r.end
      ensures pending.None?
    {
      ghost var start, queuedAtStart := State(), pending;
      var i, j := 0, 0;
      outcomes := [];
      while true
        invariant i <= |console| && j <= |replies|
        invariant Loop(turn, start, queuedAtStart, console, replies) ==
          After(outcomes, Loop(turn, State(), pending, console[i..], replies[j..]))
        decreases LinesLeft(pending, console[i..])
      {
        ghost var before, queued, lines, left := State(), pending, console[i..], replies[j..];
        var line: string;
        if pending.Some? {
          line := pending.value;
          pending := None;
        } else if i == |console| || console[i].EndOfFile? {
          end := InputEnded;
          return;
        } else if console[i].KeyboardInterrupt? {
          end := InputInterrupted;
          return;
        } else {
          line := console[i].line;
          i := i + 1;
          assert lines[1..] == console[i..];
        }
        assert NextLine(queued, lines, line, console[i..]);
        var reply := if j < |replies| then replies[j] else TransportError;
        assert reply == NextReply(left);
        var outcome := StepBy(turn, line, reply);
        LoopUnfold(turn, before, queued, lines, left, line, console[i..], TurnResult(State(), outcome));
        ghost var done := outcomes;
        outcomes := outcomes + [outcome];
        if outcome.Quit? {
          end := QuitCommand;
          return;
        }
        if outcome.Sent? {
          if outcome.reply.TransportError? {
            end := TransportFailed;
            return;
          }
          assert left[1..] == replies[j + 1..];
          j := j + 1;
        }
        assert replies[j..] == RepliesAfter(outcome, left);
        AfterAfter(done, [outcome], Loop(turn, State(), pending, console[i..], replies[j..]));
      }
    }
  }
}
