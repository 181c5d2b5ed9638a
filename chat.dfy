/**
 * The remote assistant client: the outbound message list of `buildMessagesWithSystem`
 * and the reply that `sendToWorker` extracts from whatever the worker answers.
 */
module Chat {
  import opened Wrappers

  /** A JSON value as `res.json()` produces it; numbers are kept as reals. */
  datatype Json =
    | JNull
    | JBool(b: bool)
    | JNum(x: real)
    | JStr(s: string)
    | JArr(items: seq<Json>)
    | JObj(fields: map<string, Json>)

  datatype Role = System | User | Assistant

  /** A chat message `{role, content}`; a reply may be any JSON value, so content is one. */
  datatype Message = Message(role: Role, content: Json)

  const SystemPrompt: string :=
    "You are a helpful beauty routine assistant. Answer concisely and in a friendly tone. Only discuss skincare, haircare, makeup, fragrance, and related topics."

  /** Returned instead of a reply when the request or the reading of the response throws. */
  const Apology: string := "Sorry — there was an error contacting the assistant."

  /**
   * `buildMessagesWithSystem`: the fixed system message, then the history's role/content
   * pairs in order, then the new user turn. The history itself is a value and stays as it was.
   */
  function BuildMessages(history: seq<Message>, userContent: Json): (r: seq<Message>)
    ensures |r| == |history| + 2
    ensures r[0] == Message(System, JStr(SystemPrompt))
    ensures r[1..|r| - 1] == history
    ensures r[|r| - 1] == Message(User, userContent)
  {
    [Message(System, JStr(SystemPrompt))] + history + [Message(User, userContent)]
  }

  /**
   * A history that holds no system message (the only kind the widget stores) yields a list
   * whose one system message is the first.
   */
  lemma SingleSystemMessage(history: seq<Message>, userContent: Json)
    requires forall m :: m in history ==> m.role != System
    ensures var r := BuildMessages(history, userContent);
      forall i :: 0 <= i < |r| ==> (r[i].role == System <==> i == 0)
  {
  }

  /** The list of one exchange grown by one message is the old list with that message spliced before the new turn. */
  lemma BuildMessagesExtend(history: seq<Message>, m: Message, userContent: Json)
    ensures var before := BuildMessages(history, userContent);
      BuildMessages(history + [m], userContent) == before[..|before| - 1] + [m] + [before[|before| - 1]]
  {
  }

  /**
   * The follow-up flow pushes the user's text before building the list, so the list it
   * sends ends with that text twice.
   */
  lemma FollowUpRepeatsText(history: seq<Message>, text: string)
    ensures var r := BuildMessages(history + [Message(User, JStr(text))], JStr(text));
      && |r| == |history| + 3
      && r[|r| - 2] == r[|r| - 1] == Message(User, JStr(text))
  {
  }

  /** What the request to the worker produced: a parsed JSON body, or a thrown error. */
  datatype WorkerOutcome = Responded(data: Json) | Failed

  /** JavaScript truthiness; `None` is `undefined`. */
  predicate Truthy(v: Option<Json>) {
    match v
    case None => false
    case Some(JNull) => false
    case Some(JBool(b)) => b
    case Some(JNum(x)) => x != 0.0
    case Some(JStr(s)) => s != ""
    case Some(_) => true
  }

  /** `v.key` for a name that only plain objects carry as their own property. */
  function Prop(v: Json, key: string): Option<Json> {
    if v.JObj? && key in v.fields then Some(v.fields[key]) else None
  }

  /** `v[0]`: an array's first element, a string's first character, an object's "0" property. */
  function Index0(v: Json): Option<Json> {
    match v
    case JArr(items) => if items == [] then None else Some(items[0])
    case JStr(s) => if s == "" then None else Some(JStr([s[0]]))
    case JObj(_) => Prop(v, "0")
    case _ => None
  }

  /** `data.choices && data.choices[0] && data.choices[0].message && data.choices[0].message.content` */
  function ChoiceChain(data: Json): (r: Option<Json>)
    ensures r.Some? ==> data.JObj? && "choices" in data.fields
    ensures !Truthy(Prop(data, "choices")) ==> !Truthy(r)
  {
    var choices := Prop(data, "choices");
    if !Truthy(choices) then choices
    else
      var first := Index0(choices.value);
      if !Truthy(first) then first
      else
        var message := Prop(first.value, "message");
        if !Truthy(message) then message
        else Prop(message.value, "content")
  }

  /** The reply `sendToWorker` returns for an outcome; `stringify` stands for `JSON.stringify`. */
  function ExtractReply(outcome: WorkerOutcome, stringify: Json -> string): (r: Json)
    ensures outcome.Failed? ==> r == JStr(Apology)
    ensures outcome == Responded(JNull) ==> r == JStr(Apology)
    ensures || r == JStr(Apology)
            || Truthy(Some(r))
            || (outcome.Responded? && r == JStr(stringify(outcome.data)))
  {
    match outcome
    case Failed => JStr(Apology)
    case Responded(data) =>
      // reading `choices` of null throws a TypeError, which the handler turns into the apology
      if data == JNull then JStr(Apology)
      else
        var nested := ChoiceChain(data);
        if Truthy(nested) then nested.value
        else if Truthy(Prop(data, "reply")) then Prop(data, "reply").value
        else if Truthy(Prop(data, "content")) then Prop(data, "content").value
        else JStr(stringify(data))
  }

  /** The first truthy candidate, if any. */
  function FirstTruthy(candidates: seq<Option<Json>>): (r: Option<Json>)
    ensures r.None? <==> forall i :: 0 <= i < |candidates| ==> !Truthy(candidates[i])
    ensures r.Some? ==>
      exists k :: 0 <= k < |candidates| && candidates[k] == r && Truthy(r)
                  && forall j :: 0 <= j < k ==> !Truthy(candidates[j])
  {
    if candidates == [] then None
    else if Truthy(candidates[0]) then candidates[0]
    else
      var r := FirstTruthy(candidates[1..]);
      assert forall i :: 1 <= i < |candidates| ==> candidates[i] == candidates[1..][i - 1];
      if r.Some? then
        var k :| 0 <= k < |candidates[1..]| && candidates[1..][k] == r && Truthy(r)
                  && forall j :: 0 <= j < k ==> !Truthy(candidates[1..][j]);
        assert candidates[k + 1] == r;
        r
      else r
  }

  /** `data?.choices?.[0]?.message?.content`: the nested field read with presence checks only. */
  function NestedContent(data: Json): Option<Json> {
    var choices := Prop(data, "choices");
    if choices.None? || choices.value == JNull then None
    else
      var first := Index0(choices.value);
      if first.None? || first.value == JNull then None
      else
        var message := Prop(first.value, "message");
        if message.None? || message.value == JNull then None
        else Prop(message.value, "content")
  }

  /** A falsy value has no element 0 and no named property, so truthiness checks act as presence checks. */
  lemma FalsyHasNoFields(v: Json, key: string)
    requires !Truthy(Some(v))
    ensures Index0(v) == None && Prop(v, key) == None
  {
  }

  /** The truthiness-guarded chain finds a truthy content exactly where the presence-checked path does. */
  lemma ChoiceChainFindsNestedContent(data: Json)
    ensures Truthy(ChoiceChain(data)) <==> Truthy(NestedContent(data))
    ensures Truthy(ChoiceChain(data)) ==> ChoiceChain(data) == NestedContent(data)
  {
  }

  /**
   * Reply extraction returns the first truthy value among `choices[0].message.content`,
   * `reply` and `content`, and the serialized response when there is none.
   */
  lemma ExtractReplyPriority(data: Json, stringify: Json -> string)
    requires data != JNull
    ensures ExtractReply(Responded(data), stringify) ==
      FirstTruthy([NestedContent(data), Prop(data, "reply"), Prop(data, "content")]).GetOr(JStr(stringify(data)))
  {
    ChoiceChainFindsNestedContent(data);
    var cs := [NestedContent(data), Prop(data, "reply"), Prop(data, "content")];
    assert FirstTruthy(cs[2..]) == (if Truthy(cs[2]) then cs[2] else None);
  }

  /** The three accepted response shapes all yield their text. */
  lemma AcceptedShapes(x: string, stringify: Json -> string)
    requires x != ""
    ensures ExtractReply(Responded(JObj(map["choices" := JArr([JObj(map["message" := JObj(map["content" := JStr(x)])])])])), stringify) == JStr(x)
    ensures ExtractReply(Responded(JObj(map["reply" := JStr(x)])), stringify) == JStr(x)
    ensures ExtractReply(Responded(JObj(map["content" := JStr(x)])), stringify) == JStr(x)
  {
  }

  /** A response in none of the shapes is returned as its serialization. */
  lemma UnknownShapeSerialized(stringify: Json -> string)
    ensures var data := JObj(map["foo" := JStr("bar")]);
      ExtractReply(Responded(data), stringify) == JStr(stringify(data))
  {
  }

  /** Empty strings are falsy, so an empty nested content or reply falls through to the next shape. */
  lemma EmptyFieldsFallThrough(x: string, stringify: Json -> string)
    requires x != ""
    ensures
      var nested := JArr([JObj(map["message" := JObj(map["content" := JStr("")])])]);
      ExtractReply(Responded(JObj(map["choices" := nested, "reply" := JStr(""), "content" := JStr(x)])), stringify) == JStr(x)
  {
  }
}
