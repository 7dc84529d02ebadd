/** The three decoders of the chat debugger: the startup option that holds
    extra request fields, a message typed in json mode, and the assistant's
    text in a server reply. Each decodes its text with the `loads` oracle. */
module Decoders {
  import opened Wrappers
  import opened JsonValues

  // ---------------------------------------------------------------------------
  // parse_extra_params

  /** Why the extra-parameters option was refused: its text is not JSON, or it
      is JSON but not an object. Both make the program stop before its loop. */
  datatype ExtraParamsError = ExtraNotJson | ExtraNotObject

  /** The extra fields merged into every request. No option, or an empty one,
      means no extra fields; otherwise the option must decode to an object,
      and then exactly that object's fields are the result. */
  function ParseExtraParams(loads: Loads, raw: Option<string>): (r: Result<map<string, Json>, ExtraParamsError>)
    ensures (raw.None? || raw.value == "") ==> r == Success(map[])
    ensures r.Success? <==> raw.None? || raw.value == "" || (loads(raw.value).Some? && loads(raw.value).value.Object?)
    ensures r.Success? && raw.Some? && raw.value != "" ==> loads(raw.value) == Some(Object(r.value))
    ensures r.Failure? ==> (r.error == ExtraNotJson <==> loads(raw.value).None?)
  {
    if raw.None? || raw.value == "" then Success(map[])
    else
      match loads(raw.value)
      case None => Failure(ExtraNotJson)
      case Some(parsed) =>
        if parsed.Object? then Success(parsed.fields) else Failure(ExtraNotObject)
  }

  // ---------------------------------------------------------------------------
  // parse_json_message

  /** The four ways a json-mode input is refused, one per message the program
      reports: not JSON at all, an object lacking "role" or "content", a list
      item that is not such an object, or a value that is neither. */
  datatype MessageError =
    | MessageNotJson
    | ObjectLacksRoleOrContent
    | ItemNotMessage
    | NeitherObjectNorList

  /** The messages a json-mode input stands for: a single message object, or a
      list of them in their order. */
  function JsonMessages(loads: Loads, text: string): Result<seq<Message>, MessageError>
  {
    match loads(text)
    case None => Failure(MessageNotJson)
    case Some(parsed) =>
      if parsed.Object? then
        if IsMessage(parsed) then Success([parsed.fields]) else Failure(ObjectLacksRoleOrContent)
      else if parsed.Array? then
        if forall k :: 0 <= k < |parsed.items| ==> IsMessage(parsed.items[k])
        then Success(seq(|parsed.items|, k requires 0 <= k < |parsed.items| => parsed.items[k].fields))
        else Failure(ItemNotMessage)
      else Failure(NeitherObjectNorList)
  }

  /** The accepted inputs are exactly the encodings of message lists: a text
      yields the messages `ms` if and only if it decodes to `ms` as a JSON
      array of objects, or to the single object of a one-message list, and
      every message of `ms` has a role and a content. */
  lemma {:induction false} JsonMessagesExactly(loads: Loads, text: string, ms: seq<Message>)
    ensures JsonMessages(loads, text) == Success(ms) <==>
      && (forall k :: 0 <= k < |ms| ==> "role" in ms[k] && "content" in ms[k])
      && (loads(text) == Some(MessagesJson(ms)) || (|ms| == 1 && loads(text) == Some(Object(ms[0]))))
  {
    var j := MessagesJson(ms);
    if JsonMessages(loads, text) == Success(ms) {
      var parsed := loads(text).value;
      if parsed.Array? {
        assert forall k :: 0 <= k < |ms| ==> IsMessage(parsed.items[k]) && ms[k] == parsed.items[k].fields;
        assert parsed.items == j.items;
      }
    }
    if (forall k :: 0 <= k < |ms| ==> "role" in ms[k] && "content" in ms[k]) {
      if loads(text) == Some(j) {
        assert forall k :: 0 <= k < |ms| ==> IsMessage(j.items[k]);
        var got := seq(|j.items|, k requires 0 <= k < |j.items| => j.items[k].fields);
        assert got == ms;
      } else if |ms| == 1 && loads(text) == Some(Object(ms[0])) {
        assert [ms[0]] == ms;
      }
    }
  }

  /** parse_json_message, as the program writes it: decode, accept an object
      with both keys, or walk a list and collect its items, refusing at the
      first item that is not a message. */
  method ParseJsonMessage(loads: Loads, text: string) returns (r: Result<seq<Message>, MessageError>)
    ensures r == JsonMessages(loads, text)
  {
    var decoded := loads(text);
    if decoded.None? {
      return Failure(MessageNotJson);
    }
    var parsed := decoded.value;
    if parsed.Object? {
      if !("role" in parsed.fields) || !("content" in parsed.fields) {
        return Failure(ObjectLacksRoleOrContent);
      }
      return Success([parsed.fields]);
    }
    if parsed.Array? {
      var out: seq<Message> := [];
      for i := 0 to |parsed.items|
        invariant |out| == i
        invariant forall k :: 0 <= k < i ==> IsMessage(parsed.items[k]) && out[k] == parsed.items[k].fields
      {
        var item := parsed.items[i];
        if !item.Object? || !("role" in item.fields) || !("content" in item.fields) {
          return Failure(ItemNotMessage);
        }
        out := out + [item.fields];
      }
      assert out == seq(|parsed.items|, k requires 0 <= k < |parsed.items| => parsed.items[k].fields);
      return Success(out);
    }
    return Failure(NeitherObjectNorList);
  }

  // ---------------------------------------------------------------------------
  // extract_assistant_text

  /** The value at parsed["choices"][0]["message"]["content"], or None where the
      lookup would raise: a value that is not an object where a key is looked
      up, a missing key, a "choices" that is not a non-empty list. (Indexing a
      string or an object with 0 also fails in the program, at the next step or
      at once, so only a list gets past "choices".) */
  function FirstChoiceContent(parsed: Json): Option<Json>
  {
    if !parsed.Object? || "choices" !in parsed.fields then None
    else
      var choices := parsed.fields["choices"];
      if !choices.Array? || |choices.items| == 0 then None
      else
        var first := choices.items[0];
        if !first.Object? || "message" !in first.fields then None
        else
          var message := first.fields["message"];
          if !message.Object? || "content" !in message.fields then None
          else Some(message.fields["content"])
  }

  /** The assistant's reply in a response body, or absent. Python returns the
      content itself, so a JSON null content is the same as no content; any
      other JSON value is returned as it is, not only strings. */
  function ExtractAssistantText(loads: Loads, body: string): (r: Option<Json>)
    ensures r != Some(Null)
    ensures loads(body).None? ==> r.None?
    ensures r.Some? ==> FirstChoiceContent(loads(body).value) == r
  {
    match loads(body)
    case None => None
    case Some(parsed) =>
      match FirstChoiceContent(parsed)
      case Some(content) => if content.Null? then None else Some(content)
      case None => None
  }

  /** The shape of a chat-completion response carrying `content`, with any
      other fields in the response, in the first choice and in its message,
      and any further choices. */
  predicate CompletionCarries(response: Json, content: Json) {
    && response.Object? && "choices" in response.fields
    && response.fields["choices"].Array? && |response.fields["choices"].items| > 0
    && (var first := response.fields["choices"].items[0];
        && first.Object? && "message" in first.fields
        && (var message := first.fields["message"];
            message.Object? && "content" in message.fields && message.fields["content"] == content))
  }

  /** Extraction succeeds exactly on bodies that decode to a response carrying
      a non-null content, and then returns that content. */
  lemma ExtractExactly(loads: Loads, body: string, content: Json)
    ensures ExtractAssistantText(loads, body) == Some(content) <==>
      loads(body).Some? && CompletionCarries(loads(body).value, content) && content != Null
  {
  }

  /** The canonical single-choice response: the form a conforming server sends. */
  function Completion(content: Json): (r: Json)
    ensures CompletionCarries(r, content)
  {
    Object(map["choices" := Array([Object(map["message" := Object(map["content" := content])])])])
  }
}
