/**
 * The message schema and the predicate compiled from it. The schema uses
 * three keywords of JSON Schema draft-07 (Validation vocabulary):
 * `type` (section 6.1.1), `properties` (section 6.5.4) and `required`
 * (section 6.5.3). `Conforms` interprets exactly those three; `MessageSchema`
 * is the schema of lib/messageValidator.ts and `ValidateMessage` the
 * predicate it compiles to.
 */
module MessageValidator {
  import opened Json

  /** The primitive type names of section 6.1.1. */
  datatype TypeName = NullType | BooleanType | ObjectType | ArrayType | NumberType | StringType | IntegerType

  /** Whether an instance is of a primitive type (every number here is an integer). */
  predicate HasType(v: Json, t: TypeName)
  {
    match t
    case NullType => v.JNull?
    case BooleanType => v.JBool?
    case ObjectType => v.JObject?
    case ArrayType => v.JArray?
    case NumberType => v.JNumber?
    case StringType => v.JString?
    case IntegerType => v.JNumber?
  }

  /**
   * A schema object with the keywords `type` (the set of allowed type names),
   * `properties` (name and sub-schema pairs) and `required` (names).
   */
  datatype Schema = Schema(types: set<TypeName>, properties: seq<(string, Schema)>, required: seq<string>)

  /**
   * Validation of an instance against a schema: the instance has one of the
   * listed types; and when it is an object, every required name is present
   * and every listed property that is present validates against its
   * sub-schema. Properties the schema does not list are not constrained.
   */
  predicate Conforms(v: Json, s: Schema)
    decreases s
  {
    && (exists t :: t in s.types && HasType(v, t))
    && (v.JObject? ==>
          && (forall name :: name in s.required ==> name in v.fields)
          && (forall i :: 0 <= i < |s.properties| && s.properties[i].0 in v.fields ==>
                Conforms(v.fields[s.properties[i].0], s.properties[i].1)))
  }

  function Leaf(types: set<TypeName>): Schema
  {
    Schema(types, [], [])
  }

  const ReceiverSchema: Schema :=
    Schema({ObjectType}, [("name", Leaf({StringType})), ("id", Leaf({StringType, NumberType}))], ["name", "id"])

  const ActionSchema: Schema :=
    Schema({ObjectType}, [("type", Leaf({StringType})), ("payload", Leaf({ObjectType}))], ["type", "payload"])

  /** `schemaMessage`. */
  const MessageSchema: Schema :=
    Schema({ObjectType}, [("receiver", ReceiverSchema), ("action", ActionSchema)], ["receiver", "action"])

  /** `validateMessage`: the predicate compiled from `schemaMessage`. */
  predicate ValidateMessage(v: Json)
  {
    Conforms(v, MessageSchema)
  }

  /** Every message of a list passes `validateMessage`. */
  predicate AllValid(messages: seq<Json>)
  {
    forall i :: 0 <= i < |messages| ==> ValidateMessage(messages[i])
  }

  /** Checking one more message keeps the checked prefix valid. */
  lemma AllValidStep(messages: seq<Json>, i: nat)
    requires i < |messages| && AllValid(messages[..i]) && ValidateMessage(messages[i])
    ensures AllValid(messages[..i + 1])
  {
    var next := messages[..i + 1];
    forall j | 0 <= j < i + 1 ensures ValidateMessage(next[j]) {
      if j < i {
        assert next[j] == messages[..i][j];
      }
    }
  }

  /** An object that has property `name`. */
  predicate Has(v: Json, name: string)
  {
    v.JObject? && name in v.fields
  }

  /**
   * The message shape written out by hand: a receiver object with a string
   * `name` and a string or numeric `id`, and an action object with a string
   * `type` and an object `payload`.
   */
  predicate WellShaped(v: Json)
  {
    && Has(v, "receiver") && Has(v, "action")
    && var receiver := v.fields["receiver"];
    && var action := v.fields["action"];
    && Has(receiver, "name") && receiver.fields["name"].JString?
    && Has(receiver, "id") && (receiver.fields["id"].JString? || receiver.fields["id"].JNumber?)
    && Has(action, "type") && action.fields["type"].JString?
    && Has(action, "payload") && action.fields["payload"].JObject?
  }

  lemma ReceiverConformsExactly(r: Json)
    ensures Conforms(r, ReceiverSchema) <==>
      Has(r, "name") && r.fields["name"].JString? &&
      Has(r, "id") && (r.fields["id"].JString? || r.fields["id"].JNumber?)
  {
    var s := ReceiverSchema;
    if Conforms(r, s) {
      assert HasType(r, ObjectType);
      assert s.required[0] == "name" && s.required[1] == "id";
      assert Conforms(r.fields["name"], s.properties[0].1);
      assert Conforms(r.fields["id"], s.properties[1].1);
      assert HasType(r.fields["id"], StringType) || HasType(r.fields["id"], NumberType);
    }
    if Has(r, "name") && r.fields["name"].JString? &&
       Has(r, "id") && (r.fields["id"].JString? || r.fields["id"].JNumber?) {
      assert HasType(r, ObjectType);
      assert Conforms(r.fields["name"], s.properties[0].1) by {
        assert HasType(r.fields["name"], StringType);
      }
      assert Conforms(r.fields["id"], s.properties[1].1) by {
        if r.fields["id"].JString? {
          assert HasType(r.fields["id"], StringType);
        } else {
          assert HasType(r.fields["id"], NumberType);
        }
      }
    }
  }

  lemma ActionConformsExactly(a: Json)
    ensures Conforms(a, ActionSchema) <==>
      Has(a, "type") && a.fields["type"].JString? &&
      Has(a, "payload") && a.fields["payload"].JObject?
  {
    var s := ActionSchema;
    if Conforms(a, s) {
      assert HasType(a, ObjectType);
      assert s.required[0] == "type" && s.required[1] == "payload";
      assert Conforms(a.fields["type"], s.properties[0].1);
      assert Conforms(a.fields["payload"], s.properties[1].1);
    }
    if Has(a, "type") && a.fields["type"].JString? &&
       Has(a, "payload") && a.fields["payload"].JObject? {
      assert HasType(a, ObjectType);
      assert Conforms(a.fields["type"], s.properties[0].1) by {
        assert HasType(a.fields["type"], StringType);
      }
      assert Conforms(a.fields["payload"], s.properties[1].1) by {
        assert HasType(a.fields["payload"], ObjectType);
      }
    }
  }

  /** The compiled schema accepts exactly the well-shaped messages. */
  lemma ValidateMessageExactly(v: Json)
    ensures ValidateMessage(v) <==> WellShaped(v)
  {
    var s := MessageSchema;
    if ValidateMessage(v) {
      assert HasType(v, ObjectType);
      assert s.required[0] == "receiver" && s.required[1] == "action";
      assert Conforms(v.fields["receiver"], s.properties[0].1);
      assert Conforms(v.fields["action"], s.properties[1].1);
      ReceiverConformsExactly(v.fields["receiver"]);
      ActionConformsExactly(v.fields["action"]);
    }
    if WellShaped(v) {
      assert HasType(v, ObjectType);
      ReceiverConformsExactly(v.fields["receiver"]);
      ActionConformsExactly(v.fields["action"]);
      assert Conforms(v.fields[s.properties[0].0], s.properties[0].1);
      assert Conforms(v.fields[s.properties[1].0], s.properties[1].1);
    }
  }

  /** A message without a `receiver` or without an `action` is rejected. */
  lemma MissingTopLevelPartRejected(v: Json)
    requires !Has(v, "receiver") || !Has(v, "action")
    ensures !ValidateMessage(v)
  {
    ValidateMessageExactly(v);
  }

  /** A receiver without `name` or without `id` is rejected. */
  lemma MissingReceiverFieldRejected(v: Json)
    requires Has(v, "receiver")
    requires !Has(v.fields["receiver"], "name") || !Has(v.fields["receiver"], "id")
    ensures !ValidateMessage(v)
  {
    ValidateMessageExactly(v);
  }

  /** An action without `type`, or whose `payload` is missing or not an object, is rejected. */
  lemma BadActionRejected(v: Json)
    requires Has(v, "action")
    requires var a := v.fields["action"];
      !Has(a, "type") || !Has(a, "payload") || !a.fields["payload"].JObject?
    ensures !ValidateMessage(v)
  {
    ValidateMessageExactly(v);
  }

  /** The receiver id may be a string or a number; any other kind is rejected. */
  lemma IdKinds(name: string, id: Json, action: Json)
    requires Has(action, "type") && action.fields["type"].JString?
    requires Has(action, "payload") && action.fields["payload"].JObject?
    ensures ValidateMessage(JObject(map["receiver" := JObject(map["name" := JString(name), "id" := id]), "action" := action]))
        <==> id.JString? || id.JNumber?
  {
    ValidateMessageExactly(JObject(map["receiver" := JObject(map["name" := JString(name), "id" := id]), "action" := action]));
  }

  /** Adding a property the schema does not list leaves the verdict unchanged. */
  lemma ExtraPropertyIgnored(v: Json, extra: string, x: Json)
    requires v.JObject?
    requires extra != "receiver" && extra != "action"
    ensures ValidateMessage(JObject(v.fields[extra := x])) == ValidateMessage(v)
  {
    ValidateMessageExactly(v);
    ValidateMessageExactly(JObject(v.fields[extra := x]));
  }

  /** Extra properties inside the receiver or the action do not matter either. */
  lemma ExtraNestedPropertyIgnored(v: Json, part: string, extra: string, x: Json)
    requires part == "receiver" || part == "action"
    requires Has(v, part) && v.fields[part].JObject?
    requires extra != "name" && extra != "id" && extra != "type" && extra != "payload"
    ensures ValidateMessage(JObject(v.fields[part := JObject(v.fields[part].fields[extra := x])])) == ValidateMessage(v)
  {
    ValidateMessageExactly(v);
    ValidateMessageExactly(JObject(v.fields[part := JObject(v.fields[part].fields[extra := x])]));
  }
}
