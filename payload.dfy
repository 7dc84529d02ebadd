/** The request body of a chat-completion call (build_payload). */
module Payloads {
  import opened Wrappers
  import opened JsonValues

  /** The fields every request carries, whatever the options. */
  const RequiredKeys: set<string> := {"model", "messages", "temperature", "top_p", "max_tokens"}

  /** True when the reasoning-effort option is set: Python's truthiness of a
      `str | None`, so an empty string counts as unset. */
  predicate HasEffort(reasoningEffort: Option<string>) {
    reasoningEffort.Some? && reasoningEffort.value != ""
  }

  /** build_payload: the five required fields, then top_k when it is given
      (0 included), then reasoning_effort when it is a non-empty string, and
      last the extra fields, which replace any field of the same name. */
  function BuildPayload(
    model: string,
    messages: seq<Message>,
    temperature: FloatValue,
    topP: FloatValue,
    topK: Option<int>,
    maxTokens: int,
    reasoningEffort: Option<string>,
    extraParams: map<string, Json>
  ): (p: map<string, Json>)
    ensures p.Keys == RequiredKeys
                      + (if topK.Some? then {"top_k"} else {})
                      + (if HasEffort(reasoningEffort) then {"reasoning_effort"} else {})
                      + extraParams.Keys
    ensures forall k :: k in extraParams ==> p[k] == extraParams[k]
    ensures "model" !in extraParams ==> p["model"] == Str(model)
    ensures "messages" !in extraParams ==> p["messages"] == MessagesJson(messages)
    ensures "temperature" !in extraParams ==> p["temperature"] == Float(temperature)
    ensures "top_p" !in extraParams ==> p["top_p"] == Float(topP)
    ensures "max_tokens" !in extraParams ==> p["max_tokens"] == Int(maxTokens)
    ensures "top_k" !in extraParams ==>
      ("top_k" in p <==> topK.Some?) && (topK.Some? ==> p["top_k"] == Int(topK.value))
    ensures "reasoning_effort" !in extraParams ==>
      ("reasoning_effort" in p <==> HasEffort(reasoningEffort))
      && (HasEffort(reasoningEffort) ==> p["reasoning_effort"] == Str(reasoningEffort.value))
  {
    var required := map[
      "model" := Str(model),
      "messages" := MessagesJson(messages),
      "temperature" := Float(temperature),
      "top_p" := Float(topP),
      "max_tokens" := Int(maxTokens)
    ];
    var withTopK := if topK.Some? then required["top_k" := Int(topK.value)] else required;
    var withEffort := if HasEffort(reasoningEffort) then withTopK["reasoning_effort" := Str(reasoningEffort.value)] else withTopK;
    withEffort + extraParams
  }

  /** An extra "max_tokens" of 9 replaces a computed 512, and the other
      computed fields stay. */
  lemma ExtraMaxTokensWins(model: string, messages: seq<Message>, t: FloatValue, p: FloatValue)
    ensures var payload := BuildPayload(model, messages, t, p, None, 512, None, map["max_tokens" := Int(9)]);
      && payload["max_tokens"] == Int(9)
      && payload["model"] == Str(model)
      && "top_k" !in payload && "reasoning_effort" !in payload
  {
  }
}
