/** Concrete turns of the session: a user line answered with "hello", a
    json-mode system message, a raw body answered by 500, a 200 reply without
    choices, and /mode with each name or in capitals amid spaces. The decoder
    is left abstract and only its answer on the texts involved is fixed. */
module Scenarios {
  import opened Wrappers
  import opened JsonValues
  import opened Text
  import opened Decoders
  import opened ChatSession

  /** User mode, "hi", and a 200 reply whose first choice says "hello": the
      history becomes the user's message followed by the assistant's. */
  lemma UserHiGetsHello(cfg: Settings, loads: Loads, body: string)
    requires loads(body) == Some(Completion(Str("hello")))
    ensures Turn(cfg, loads, Conversation(User, []), "hi", Response(200, body)).conv
      == Conversation(User, [RoleMessage("user", Str("hi")), RoleMessage("assistant", Str("hello"))])
  {
    var reply := Response(200, body);
    StripVisibleEnds("hi");
    NoSlashNoCommand("hi");
    ExtractExactly(loads, body, Str("hello"));
    assert AssistantReply(loads, reply) == [RoleMessage("assistant", Str("hello"))];
    TurnMessages(cfg, loads, Conversation(User, []), "hi", reply);
  }

  /** Json mode and a list holding one system message: exactly that message is
      appended, before whatever the reply adds. */
  lemma JsonSystemMessage(cfg: Settings, loads: Loads, history: seq<Message>, reply: Reply)
    requires loads("[{\"role\":\"system\",\"content\":\"be terse\"}]")
      == Some(Array([Object(RoleMessage("system", Str("be terse")))]))
    ensures var r := Turn(cfg, loads, Conversation(JsonInput, history),
                          "[{\"role\":\"system\",\"content\":\"be terse\"}]", reply);
      r.conv.history == history + [RoleMessage("system", Str("be terse"))] + AssistantReply(loads, reply)
  {
    var line := "[{\"role\":\"system\",\"content\":\"be terse\"}]";
    StripVisibleEnds(line);
    NoSlashNoCommand(line);
    var m := RoleMessage("system", Str("be terse"));
    JsonMessagesExactly(loads, line, [m]);
    assert MessagesJson([m]) == Array([Object(m)]);
    TurnMessages(cfg, loads, Conversation(JsonInput, history), line, reply);
  }

  /** Raw mode, a decodable body and a 500 reply: the body goes out as is and
      the history does not change. */
  lemma RawServerError(cfg: Settings, loads: Loads, history: seq<Message>)
    requires loads("{\"foo\":1}") == Some(Object(map["foo" := Int(1)]))
    ensures Turn(cfg, loads, Conversation(Raw, history), "{\"foo\":1}", Response(500, "\"err\""))
      == TurnResult(Conversation(Raw, history), Sent(Object(map["foo" := Int(1)]), Response(500, "\"err\"")))
  {
    StripVisibleEnds("{\"foo\":1}");
    NoSlashNoCommand("{\"foo\":1}");
    TurnRaw(cfg, loads, Conversation(Raw, history), "{\"foo\":1}", Response(500, "\"err\""));
  }

  /** A 200 reply whose body has no choices: nothing is extracted, and the
      history holds only the user's message. */
  lemma EmptyReplyAddsNothing(cfg: Settings, loads: Loads)
    requires loads("{}") == Some(Object(map[]))
    ensures Turn(cfg, loads, Conversation(User, []), "hi", Response(200, "{}")).conv.history
      == [RoleMessage("user", Str("hi"))]
  {
    StripVisibleEnds("hi");
    NoSlashNoCommand("hi");
    assert ExtractAssistantText(loads, "{}") == None;
    TurnMessages(cfg, loads, Conversation(User, []), "hi", Response(200, "{}"));
  }

  /** Every mode is reached by /mode with its name, whatever the history. */
  lemma ModeCommandSelects(cfg: Settings, loads: Loads, c: Conversation, m: Mode, reply: Reply)
    ensures Turn(cfg, loads, c, "/mode " + m.Name(), reply) == TurnResult(c.(mode := m), ModeSet(m))
  {
    var line := "/mode " + m.Name();
    assert m.Name() != [] && line[0] == '/' && line[|line| - 1] == m.Name()[|m.Name()| - 1];
    StripVisibleEnds(line);
    assert line[..|"/mode "|] == "/mode " && line[|"/mode "|..] == m.Name();
    StripVisibleEnds(m.Name());
    NameIsLowerCase(m);
    ModeNamedRoundTrip(m);
    TurnCommands(cfg, loads, c, line, reply);
  }

  /** The /mode argument is read without regard to case or surrounding
      spaces: "  /mode   USER " selects user mode. */
  lemma ModeCommandInCapitals(cfg: Settings, loads: Loads, c: Conversation, reply: Reply)
    ensures Turn(cfg, loads, c, "  /mode   USER ", reply) == TurnResult(c.(mode := User), ModeSet(User))
  {
    CapitalsLineStrips();
    CapitalsArgumentIsUser();
    TurnCommands(cfg, loads, c, "  /mode   USER ", reply);
  }

  /** The line strips to the command between its spaces. */
  lemma CapitalsLineStrips()
    ensures Strip("  /mode   USER ") == "/mode   USER"
    ensures StartsWith("/mode   USER", "/mode ")
  {
    var text := "/mode   USER";
    assert "  /mode   USER " == "  " + text + " ";
    assert text[0] == '/' && text[|text| - 1] == 'R';
    VisibleNotSpace('/');
    VisibleNotSpace('R');
    StripSurrounded("  ", text, " ");
  }

  /** The command's argument, stripped and lower-cased, is "user". */
  lemma CapitalsArgumentIsUser()
    ensures ModeArgument("/mode   USER") == "user"
  {
    var text := "/mode   USER";
    assert text[|"/mode "|..] == "  " + "USER" + "";
    VisibleNotSpace('U');
    VisibleNotSpace('R');
    StripSurrounded("  ", "USER", "");
    LowerIgnoresCase("USER", "user");
    NameIsLowerCase(User);
  }
}
