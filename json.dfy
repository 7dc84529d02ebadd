/** JSON values as the chat debugger handles them after decoding. */
module JsonValues {
  import opened Wrappers

  /** A floating-point number (temperature, top_p) carried through unchanged;
      its arithmetic plays no part in the program, so it stays opaque. */
  type FloatValue = string

  /** A decoded JSON value. Python's json distinguishes integers from floats,
      so the two number kinds are kept apart. Objects are maps from key to value. */
  datatype Json =
    | Null
    | Bool(b: bool)
    | Int(i: int)
    | Float(f: FloatValue)
    | Str(s: string)
    | Array(items: seq<Json>)
    | Object(fields: map<string, Json>)

  /** The JSON text decoder (json.loads): the decoded value, or None when the
      text is not valid JSON. It is a parameter of every member that decodes. */
  type Loads = string -> Option<Json>

  /** A history entry is a JSON object; the program requires "role" and
      "content" keys of the objects it accepts, but keeps any other keys too. */
  type Message = map<string, Json>

  /** An object carrying both keys a chat message needs. */
  predicate IsMessage(j: Json) {
    j.Object? && "role" in j.fields && "content" in j.fields
  }

  /** The JSON array that a list of history entries is sent as. */
  function MessagesJson(ms: seq<Message>): (r: Json)
    ensures r.Array? && |r.items| == |ms|
    ensures forall i :: 0 <= i < |ms| ==> r.items[i] == Object(ms[i])
  {
    Array(seq(|ms|, i requires 0 <= i < |ms| => Object(ms[i])))
  }

  /** Different histories are sent as different arrays: the array determines
      the history it was built from. */
  lemma MessagesJsonInjective(a: seq<Message>, b: seq<Message>)
    ensures MessagesJson(a) == MessagesJson(b) ==> a == b
  {
    if MessagesJson(a) == MessagesJson(b) {
      assert |a| == |b|;
      forall i | 0 <= i < |a| ensures a[i] == b[i] {
        assert Object(a[i]) == MessagesJson(a).items[i] == Object(b[i]);
      }
    }
  }
}
