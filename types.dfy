/**
 * The message shapes of lib/types.ts, and how a validated JSON value is read
 * as one. A message reaches the pipeline as an unchecked JSON value; once
 * `ValidateMessage` accepts it, its receiver id, name and action can be read.
 */
module Types {
  import opened Wrappers
  import opened Json
  import opened Strings
  import opened MessageValidator

  /** `Receiver.id`: `string | number` (numbers modelled as integers). */
  datatype ReceiverId = TextId(text: string) | NumericId(value: int)

  datatype Receiver = Receiver(name: string, id: ReceiverId)

  /** `Action`: a `type` string and an object `payload`. */
  datatype Action = Action(actionType: string, payload: map<string, Json>)

  datatype Message = Message(receiver: Receiver, action: Action)

  /** The JSON value a typed message stands for. */
  function ToJson(m: Message): Json
  {
    var id := match m.receiver.id
      case TextId(t) => JString(t)
      case NumericId(n) => JNumber(n);
    JObject(map[
      "receiver" := JObject(map["name" := JString(m.receiver.name), "id" := id]),
      "action" := JObject(map["type" := JString(m.action.actionType), "payload" := JObject(m.action.payload)])])
  }

  /** Reading an unchecked value as a message: possible exactly when it validates. */
  function FromJson(v: Json): (r: Option<Message>)
    ensures r.Some? <==> ValidateMessage(v)
  {
    ValidateMessageExactly(v);
    if !WellShaped(v) then None
    else
      var receiver := v.fields["receiver"];
      var action := v.fields["action"];
      var id := receiver.fields["id"];
      Some(Message(
        Receiver(receiver.fields["name"].s, if id.JString? then TextId(id.s) else NumericId(id.n)),
        Action(action.fields["type"].s, action.fields["payload"].fields)))
  }

  /** Every typed message validates, and reads back as itself. */
  lemma FromJsonToJson(m: Message)
    ensures ValidateMessage(ToJson(m))
    ensures FromJson(ToJson(m)) == Some(m)
  {
    ValidateMessageExactly(ToJson(m));
  }

  /** `receiver.id.toString()`: a string id as it is, a numeric id in decimal. */
  function IdText(id: ReceiverId): string
  {
    match id
    case TextId(t) => t
    case NumericId(n) => IntToDecimal(n)
  }

  /** The key segment of a validated message: `receiver.id.toString()`. */
  function ReceiverKeyId(v: Json): string
    requires ValidateMessage(v)
  {
    IdText(FromJson(v).value.receiver.id)
  }

  /** `receiver.name`, read from any value: the empty string when there is no string name. */
  function ReceiverName(v: Json): string
  {
    if Has(v, "receiver") && Has(v.fields["receiver"], "name") && v.fields["receiver"].fields["name"].JString?
    then v.fields["receiver"].fields["name"].s
    else ""
  }

  /** On a validated message, `receiver.name` is the typed receiver's name. */
  lemma ReceiverNameOfMessage(v: Json)
    requires ValidateMessage(v)
    ensures ReceiverName(v) == FromJson(v).value.receiver.name
  {
    ValidateMessageExactly(v);
  }

  /** `action` of a validated message, whole: extra properties are kept. */
  function ActionValue(v: Json): (a: Json)
    requires ValidateMessage(v)
    ensures Has(a, "type") && a.fields["type"] == JString(FromJson(v).value.action.actionType)
    ensures Has(a, "payload") && a.fields["payload"] == JObject(FromJson(v).value.action.payload)
  {
    ValidateMessageExactly(v);
    v.fields["action"]
  }

  /** The valid message of lib/messageValidator.test.ts, and the invalid one the pipeline tests register. */
  lemma SampleMessagesJudged()
    ensures ValidateMessage(ToJson(Message(Receiver("John Doe", TextId("1234")), Action("greeting", map[]))))
    ensures !ValidateMessage(JObject(map["receiver" := JObject(map["id" := JString("123")]),
                                         "action" := JObject(map["type" := JString("")])]))
  {
    FromJsonToJson(Message(Receiver("John Doe", TextId("1234")), Action("greeting", map[])));
    MissingReceiverFieldRejected(JObject(map["receiver" := JObject(map["id" := JString("123")]),
                                             "action" := JObject(map["type" := JString("")])]));
  }
}
