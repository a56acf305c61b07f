/**
 * The state-bucket pipeline of lib/rpipe.ts. An `RPipe` keeps, for each
 * receiver id and each state of its chain, one Redis set (a bucket) under a
 * key of the form `pipe:group:<name>:id:<id>:state:<state>:<postfix>`.
 * Messages land in the collector bucket; buckets are moved along the chain,
 * merged and cleared.
 *
 * The constructor's fields never change, so the key codec and the chain are
 * functions of a `Config`; the operations that talk to Redis are methods of
 * the `RPipe` class and change its `Store`.
 */
module Rpipe {
  import opened Wrappers
  import opened Errors
  import opened Json
  import opened Strings
  import opened MessageValidator
  import opened Types
  import opened RedisStore

  const DefaultCollectorName: string := "collector"
  const DefaultStates: seq<string> := ["processing", "done", "failed"]
  const Separator: char := ':'
  const PartsNo: nat := 8
  const IdPosition: nat := 4
  const StatePosition: nat := 6

  /** The constructor's options; `None` is an option left `undefined`. */
  datatype Options = Options(
    states: Option<seq<string>>,
    prefix: Option<string>,
    postFix: Option<string>,
    collectorName: Option<string>)

  /** The fields an `RPipe` sets once, in its constructor; `chain` is what `states()` returns. */
  datatype Config = Config(name: string, prefix: string, postFix: string, collectorName: string, chain: seq<string>)

  /** How a template literal renders a string that may be `undefined`. */
  function Render(s: Option<string>): string
  {
    match s
    case Some(t) => t
    case None => "undefined"
  }

  /**
   * The constructor. `'pipe' || options.prefix` is always `'pipe'`; the
   * postfix is `name || options.postFix`; the collector name is the option
   * when it is a non-empty string; and the chain starts with `'collector'`
   * whatever the collector name is.
   */
  function Configure(name: string, options: Options): Config
  {
    Config(
      name,
      "pipe",
      if name != "" then name else Render(options.postFix),
      if options.collectorName.Some? && options.collectorName.value != "" then options.collectorName.value
      else DefaultCollectorName,
      [DefaultCollectorName] + (if options.states.Some? then options.states.value else DefaultStates))
  }

  /** `states()` is `'collector'` then the configured states (by default processing, done, failed), whatever the collector name. */
  lemma ChainOfConfigure(name: string, options: Options, collectorName: Option<string>)
    ensures Configure(name, options).chain[0] == "collector"
    ensures Configure(name, options).chain ==
      ["collector"] + (if options.states.Some? then options.states.value else ["processing", "done", "failed"])
    ensures Configure(name, options.(collectorName := collectorName)).chain == Configure(name, options).chain
    ensures options.states.None? ==> Configure(name, options).chain == ["collector", "processing", "done", "failed"]
  {
  }

  /** The prefix is always `pipe`, and a non-empty name is also the postfix. */
  lemma PrefixAndPostfixOfConfigure(name: string, options: Options)
    ensures Configure(name, options).prefix == "pipe"
    ensures name != "" ==> Configure(name, options).postFix == name
    ensures name == "" && options.postFix.None? ==> Configure(name, options).postFix == "undefined"
  {
  }

  // ---------------------------------------------------------------- key codec

  /** `keyFormula`: the template `<prefix>:group:<name>:id:<id>:state:<state>:<postfix>`. */
  function KeyFormula(c: Config, id: string, state: string): string
  {
    c.prefix + [Separator] + "group" + [Separator] + c.name + [Separator] + "id" + [Separator] + id
      + [Separator] + "state" + [Separator] + state + [Separator] + c.postFix
  }

  /** The eight segments of a key, in order. */
  function KeySegments(c: Config, id: string, state: string): (parts: seq<string>)
    ensures |parts| == PartsNo && parts[IdPosition] == id && parts[StatePosition] == state
  {
    [c.prefix, "group", c.name, "id", id, "state", state, c.postFix]
  }

  lemma KeyFormulaJoinsSegments(c: Config, id: string, state: string)
    ensures KeyFormula(c, id, state) == Join(KeySegments(c, id, state), Separator)
  {
    var p := KeySegments(c, id, state);
    var s := [Separator];
    var j6 := state + s + c.postFix;
    var j5 := "state" + s + j6;
    var j4 := id + s + j5;
    var j3 := "id" + s + j4;
    var j2 := c.name + s + j3;
    var j1 := "group" + s + j2;
    assert Join(p[6..], Separator) == j6 by { assert p[6..][1..] == p[7..]; }
    assert Join(p[5..], Separator) == j5 by { assert p[5..][1..] == p[6..]; }
    assert Join(p[4..], Separator) == j4 by { assert p[4..][1..] == p[5..]; }
    assert Join(p[3..], Separator) == j3 by { assert p[3..][1..] == p[4..]; }
    assert Join(p[2..], Separator) == j2 by { assert p[2..][1..] == p[3..]; }
    assert Join(p[1..], Separator) == j1 by { assert p[1..][1..] == p[2..]; }
    assert Join(p, Separator) == c.prefix + s + j1;
    // The template's concatenation, grouped from the right, is the same string.
    assert KeyFormula(c, id, state) == c.prefix + s + j1;
  }

  datatype ParsedKey = ParsedKey(id: string, state: string)

  /** `parseKey`: split on `:`; exactly eight parts, of which the 5th is the id and the 7th the state. */
  function ParseKey(key: string): Result<ParsedKey, Error>
  {
    var parts := Split(key, Separator);
    if |parts| != PartsNo then Err(InvalidKeyFormat)
    else Ok(ParsedKey(parts[IdPosition], parts[StatePosition]))
  }

  /** Whether none of the configured segments contains the separator. */
  predicate SeparatorFree(c: Config)
  {
    Separator !in c.prefix && Separator !in c.name && Separator !in c.postFix
  }

  /**
   * Round trip: a key built for `(id, state)` parses, and parses back to
   * `(id, state)`, exactly when no segment contains `:`; otherwise parsing
   * it fails with 'Invalid key format'.
   */
  lemma ParseKeyRoundTrip(c: Config, id: string, state: string)
    ensures ParseKey(KeyFormula(c, id, state)).Ok? <==>
      SeparatorFree(c) && Separator !in id && Separator !in state
    ensures ParseKey(KeyFormula(c, id, state)).Ok? ==>
      ParseKey(KeyFormula(c, id, state)).value == ParsedKey(id, state)
    ensures ParseKey(KeyFormula(c, id, state)).Err? ==>
      ParseKey(KeyFormula(c, id, state)).error == InvalidKeyFormat
  {
    var parts := KeySegments(c, id, state);
    KeyFormulaJoinsSegments(c, id, state);
    SplitJoinLength(parts, Separator);
    assert Separator !in "group" && Separator !in "id" && Separator !in "state";
    assert (forall i :: 0 <= i < |parts| ==> Separator !in parts[i]) <==>
      SeparatorFree(c) && Separator !in id && Separator !in state by {
      assert parts[0] == c.prefix && parts[2] == c.name && parts[7] == c.postFix;
    }
    if forall i :: 0 <= i < |parts| ==> Separator !in parts[i] {
      SplitJoin(parts, Separator);
    }
  }

  /** Any eight separator-free segments parse, whatever the other six say: only positions 4 and 6 are read. */
  lemma ParseKeyReadsPositions(parts: seq<string>)
    requires |parts| == PartsNo
    requires forall i :: 0 <= i < |parts| ==> Separator !in parts[i]
    ensures ParseKey(Join(parts, Separator)) == Ok(ParsedKey(parts[IdPosition], parts[StatePosition]))
  {
    SplitJoin(parts, Separator);
  }

  /** A key with no separator at all is one part, not eight. */
  lemma ParseKeyRejectsUnseparated(key: string)
    requires Separator !in key
    ensures ParseKey(key) == Err(InvalidKeyFormat)
  {
    SplitLength(key, Separator);
  }

  /** Within one pipe and id, distinct states have distinct buckets (given separator-free segments). */
  lemma KeysDistinguishStates(c: Config, id: string, s1: string, s2: string)
    requires SeparatorFree(c) && Separator !in id && Separator !in s1 && Separator !in s2
    requires s1 != s2
    ensures KeyFormula(c, id, s1) != KeyFormula(c, id, s2)
  {
    ParseKeyRoundTrip(c, id, s1);
    ParseKeyRoundTrip(c, id, s2);
  }

  // ---------------------------------------------------------------- state chain

  /** `Array.prototype.indexOf`: the first position of `s`, or -1. */
  function IndexOf(chain: seq<string>, s: string): (i: int)
    ensures -1 <= i < |chain|
    ensures i == -1 <==> s !in chain
    ensures 0 <= i ==> chain[i] == s && s !in chain[..i]
    decreases |chain|
  {
    if chain == [] then -1
    else if chain[0] == s then 0
    else
      var j := IndexOf(chain[1..], s);
      assert j >= 0 ==> chain[..j + 1] == [chain[0]] + chain[1..][..j];
      if j == -1 then -1 else j + 1
  }

  /** `getNextStateName`: the state after the first occurrence of `state`, `None` (null) after the last state. */
  function NextStateName(c: Config, state: string): Result<Option<string>, Error>
  {
    var i := IndexOf(c.chain, state);
    if i == -1 then Err(InvalidSourceState)
    else if i == |c.chain| - 1 then Ok(None)
    else Ok(Some(c.chain[i + 1]))
  }

  /**
   * The successor rules: a state outside the chain fails with 'Invalid
   * source state name'; the state at position `i`, when it does not occur
   * earlier, has no successor when it is last and otherwise the state at
   * `i + 1`.
   */
  lemma NextStateNameRules(c: Config, state: string, i: nat)
    requires i < |c.chain| && c.chain[i] == state && state !in c.chain[..i]
    ensures NextStateName(c, state) == if i == |c.chain| - 1 then Ok(None) else Ok(Some(c.chain[i + 1]))
  {
  }

  lemma NextStateNameOutside(c: Config, state: string)
    requires state !in c.chain
    ensures NextStateName(c, state) == Err(InvalidSourceState)
  {
  }

  /** Whether no state occurs twice in the chain. */
  predicate DistinctStates(chain: seq<string>)
  {
    forall i, j :: 0 <= i < j < |chain| ==> chain[i] != chain[j]
  }

  /** In a chain without repeats, exactly the last state has no successor. */
  lemma OnlyLastStateIsTerminal(c: Config, state: string)
    requires DistinctStates(c.chain)
    requires state in c.chain
    ensures NextStateName(c, state) == Ok(None) <==> state == c.chain[|c.chain| - 1]
  {
    var i := IndexOf(c.chain, state);
    NextStateNameRules(c, state, i);
  }

  /** A successor is always a state of the chain. */
  lemma SuccessorInChain(c: Config, state: string)
    requires NextStateName(c, state).Ok? && NextStateName(c, state).value.Some?
    ensures NextStateName(c, state).value.value in c.chain
  {
  }

  /** `getKey`: the key of `(id, state)`, or 'Invalid state name - <state>' for a state outside the chain. */
  function GetKey(c: Config, id: string, state: string): (r: Result<string, Error>)
    ensures r.Err? <==> state !in c.chain
    ensures r.Err? ==> r.error == InvalidStateName(state)
    ensures r.Ok? && SeparatorFree(c) && Separator !in id && Separator !in state ==>
      ParseKey(r.value) == Ok(ParsedKey(id, state))
  {
    if state !in c.chain then Err(InvalidStateName(state))
    else
      ParseKeyRoundTrip(c, id, state);
      Ok(KeyFormula(c, id, state))
  }

  // ---------------------------------------------------------------- registration

  /** The collector bucket of a validated message: `getKey(receiver.id.toString(), collectorName)`. */
  function CollectorKey(c: Config, m: Json): Result<string, Error>
    requires ValidateMessage(m)
  {
    GetKey(c, ReceiverKeyId(m), c.collectorName)
  }

  /**
   * The batch `registerMessages` queues, or the error it throws first: each
   * message in turn is validated, then keyed to its receiver's collector
   * bucket, then queued as an SADD of its serialised action.
   */
  function RegisterBatch(c: Config, messages: seq<Json>, stringify: Json -> string): Result<seq<Command>, Error>
    decreases |messages|
  {
    if messages == [] then Ok([])
    else
      var done := RegisterBatch(c, messages[..|messages| - 1], stringify);
      var m := messages[|messages| - 1];
      if done.Err? then done
      else if !ValidateMessage(m) then Err(InvalidMessage)
      else
        var key := CollectorKey(c, m);
        if key.Err? then Err(key.error)
        else Ok(done.value + [SAdd(key.value, stringify(ActionValue(m)))])
  }

  /** Registering one more message extends the work on the shorter prefix by that message's step. */
  lemma RegisterStep(c: Config, messages: seq<Json>, i: nat, stringify: Json -> string)
    requires i < |messages|
    ensures RegisterBatch(c, messages[..i + 1], stringify) ==
      var done := RegisterBatch(c, messages[..i], stringify);
      var m := messages[i];
      if done.Err? then done
      else if !ValidateMessage(m) then Err(InvalidMessage)
      else if CollectorKey(c, m).Err? then Err(CollectorKey(c, m).error)
      else Ok(done.value + [SAdd(CollectorKey(c, m).value, stringify(ActionValue(m)))])
  {
    assert messages[..i + 1][..i] == messages[..i];
  }

  /** Once a prefix of the messages fails, the whole call fails with the same error. */
  lemma {:induction false} RegisterErrorSticks(c: Config, messages: seq<Json>, n: nat, stringify: Json -> string)
    requires 0 < n <= |messages|
    requires RegisterBatch(c, messages[..n], stringify).Err?
    ensures RegisterBatch(c, messages, stringify) == RegisterBatch(c, messages[..n], stringify)
    decreases |messages| - n
  {
    if n < |messages| {
      var shorter := messages[..|messages| - 1];
      assert shorter[..n] == messages[..n];
      RegisterErrorSticks(c, shorter, n, stringify);
    } else {
      assert messages[..n] == messages;
    }
  }

  /** Registration succeeds exactly when every message is valid and, if there are any, the collector name is a state. */
  lemma {:induction false} RegisterBatchSucceeds(c: Config, messages: seq<Json>, stringify: Json -> string)
    ensures RegisterBatch(c, messages, stringify).Ok? <==>
      AllValid(messages) && (messages == [] || c.collectorName in c.chain)
    decreases |messages|
  {
    if messages != [] {
      var i := |messages| - 1;
      var init := messages[..i];
      RegisterBatchSucceeds(c, init, stringify);
      if AllValid(init) && ValidateMessage(messages[i]) {
        AllValidStep(messages, i);
        assert messages[..i + 1] == messages;
      }
      if AllValid(messages) {
        assert forall j :: 0 <= j < i ==> init[j] == messages[j];
      }
    }
  }

  /**
   * The error registration throws: 'Invalid message' unless the chain lacks
   * the collector name and the first message is valid, in which case
   * 'Invalid state name - <collector name>'.
   */
  lemma {:induction false} RegisterBatchError(c: Config, messages: seq<Json>, stringify: Json -> string)
    ensures RegisterBatch(c, messages, stringify).Err? ==>
      RegisterBatch(c, messages, stringify).error ==
        if c.collectorName in c.chain || !ValidateMessage(messages[0]) then InvalidMessage
        else InvalidStateName(c.collectorName)
    decreases |messages|
  {
    if messages != [] {
      var init := messages[..|messages| - 1];
      RegisterBatchError(c, init, stringify);
      RegisterBatchSucceeds(c, init, stringify);
      if init != [] {
        assert init[0] == messages[0];
      }
    }
  }

  /** A successful registration queues one SADD per message, in order, into its receiver's collector bucket. */
  lemma {:induction false} RegisterBatchQueues(c: Config, messages: seq<Json>, stringify: Json -> string)
    ensures RegisterBatch(c, messages, stringify).Ok? ==>
      var batch := RegisterBatch(c, messages, stringify).value;
      |batch| == |messages| &&
      forall i :: 0 <= i < |messages| ==>
        ValidateMessage(messages[i]) &&
        batch[i] == SAdd(KeyFormula(c, ReceiverKeyId(messages[i]), c.collectorName), stringify(ActionValue(messages[i])))
    decreases |messages|
  {
    if messages != [] {
      var init := messages[..|messages| - 1];
      RegisterBatchQueues(c, init, stringify);
      assert forall i :: 0 <= i < |init| ==> init[i] == messages[i];
    }
  }

  /**
   * All or nothing: registration succeeds exactly when every message is
   * valid and (for a non-empty call) the collector name is a state of the
   * chain. Otherwise it names the first error. On success the batch holds
   * one SADD per message, in order, into its receiver's collector bucket.
   */
  lemma RegisterBatchOutcome(c: Config, messages: seq<Json>, stringify: Json -> string)
    ensures RegisterBatch(c, messages, stringify).Ok? <==>
      AllValid(messages) && (messages == [] || c.collectorName in c.chain)
    ensures RegisterBatch(c, messages, stringify).Err? ==>
      RegisterBatch(c, messages, stringify).error ==
        if c.collectorName in c.chain || !ValidateMessage(messages[0]) then InvalidMessage
        else InvalidStateName(c.collectorName)
    ensures RegisterBatch(c, messages, stringify).Ok? ==>
      var batch := RegisterBatch(c, messages, stringify).value;
      |batch| == |messages| &&
      forall i :: 0 <= i < |messages| ==>
        ValidateMessage(messages[i]) &&
        batch[i] == SAdd(KeyFormula(c, ReceiverKeyId(messages[i]), c.collectorName), stringify(ActionValue(messages[i])))
  {
    RegisterBatchSucceeds(c, messages, stringify);
    RegisterBatchError(c, messages, stringify);
    RegisterBatchQueues(c, messages, stringify);
  }

  /** The members registration delivers into bucket `key`: the serialised actions of the messages keyed there. */
  ghost function Delivered(c: Config, messages: seq<Json>, stringify: Json -> string, key: string): set<string>
  {
    set i | 0 <= i < |messages| && ValidateMessage(messages[i])
          && KeyFormula(c, ReceiverKeyId(messages[i]), c.collectorName) == key
      :: stringify(ActionValue(messages[i]))
  }

  /** The SADDs of a registration batch add exactly the delivered members under each key. */
  lemma AddedIsDelivered(c: Config, messages: seq<Json>, stringify: Json -> string, batch: seq<Command>, key: string)
    requires |batch| == |messages|
    requires forall i :: 0 <= i < |messages| ==>
      ValidateMessage(messages[i]) &&
      batch[i] == SAdd(KeyFormula(c, ReceiverKeyId(messages[i]), c.collectorName), stringify(ActionValue(messages[i])))
    ensures Added(batch, key) == Delivered(c, messages, stringify, key)
  {
    forall x | x in Added(batch, key) ensures x in Delivered(c, messages, stringify, key) {
      var i :| 0 <= i < |batch| && batch[i].SAdd? && batch[i].key == key && batch[i].member == x;
      assert ValidateMessage(messages[i]);
    }
    forall x | x in Delivered(c, messages, stringify, key) ensures x in Added(batch, key) {
      var i :| 0 <= i < |messages| && ValidateMessage(messages[i])
        && KeyFormula(c, ReceiverKeyId(messages[i]), c.collectorName) == key
        && stringify(ActionValue(messages[i])) == x;
      assert batch[i].SAdd? && batch[i].key == key && batch[i].member == x;
    }
  }

  /** After a successful registration every bucket holds its old members plus what was delivered to it. */
  lemma RegisterEffect(c: Config, messages: seq<Json>, stringify: Json -> string, m: Keyspace, key: string)
    requires RegisterBatch(c, messages, stringify).Ok?
    ensures Get(Run(m, RegisterBatch(c, messages, stringify).value), key) ==
      Get(m, key) + Delivered(c, messages, stringify, key)
  {
    var batch := RegisterBatch(c, messages, stringify).value;
    RegisterBatchQueues(c, messages, stringify);
    RunAdds(m, batch, key);
    AddedIsDelivered(c, messages, stringify, batch, key);
  }

  /**
   * An overridden collector name that is not one of the states makes every
   * non-empty registration whose first message is valid fail: keys use the
   * collector name, while the chain always starts with 'collector'.
   */
  lemma OverriddenCollectorRejected(name: string, options: Options, messages: seq<Json>, stringify: Json -> string)
    requires options.collectorName.Some? && options.collectorName.value != ""
    requires options.collectorName.value !in Configure(name, options).chain
    requires messages != [] && ValidateMessage(messages[0])
    ensures RegisterBatch(Configure(name, options), messages, stringify) == Err(InvalidStateName(options.collectorName.value))
  {
    RegisterBatchOutcome(Configure(name, options), messages, stringify);
  }

  // ---------------------------------------------------------------- move and merge

  /** The batch `move` executes: union the source into the destination, then delete the source. */
  function MoveBatch(from: string, to: string): seq<Command>
  {
    [SUnionStore(to, [to, from]), Del(from)]
  }

  /**
   * `move(from, to)` leaves `to` holding its old members and the source's,
   * deletes `from`, and changes no other key; `move(k, k)` empties `k`.
   */
  lemma MoveEffect(m: Keyspace, from: string, to: string)
    ensures from !in Run(m, MoveBatch(from, to))
    ensures from != to ==> Get(Run(m, MoveBatch(from, to)), to) == Get(m, to) + Get(m, from)
    ensures from == to ==> Get(Run(m, MoveBatch(from, to)), to) == {}
    ensures forall k :: k != from && k != to ==> Get(Run(m, MoveBatch(from, to)), k) == Get(m, k)
  {
    RunTwo(m, SUnionStore(to, [to, from]), Del(from));
    UnionOfTwo(m, to, from);
    var u := Get(m, to) + Get(m, from);
    var stored := if u == {} then m - {to} else m[to := u];
    var after := stored - {from};
    assert Run(m, MoveBatch(from, to)) == after;
    forall k | k != from && k != to ensures Get(after, k) == Get(m, k) {
      assert k in after <==> k in m;
    }
  }

  /** The batch `merge` executes: overwrite the destination with the union of the sources, then read it. */
  function MergeBatch(toKey: string, fromKeys: seq<string>): seq<Command>
  {
    [SUnionStore(toKey, fromKeys), SMembers(toKey)]
  }

  /**
   * `merge` makes the destination exactly the union of the source buckets
   * (its own members survive only when it is also a source) and changes no
   * other key, so the sources keep their members.
   */
  lemma MergeEffect(m: Keyspace, toKey: string, fromKeys: seq<string>)
    ensures Get(Run(m, MergeBatch(toKey, fromKeys)), toKey) == UnionOf(m, fromKeys)
    ensures forall x :: x in Get(Run(m, MergeBatch(toKey, fromKeys)), toKey) <==>
      exists i :: 0 <= i < |fromKeys| && x in Get(m, fromKeys[i])
    ensures toKey in fromKeys ==> Get(m, toKey) <= Get(Run(m, MergeBatch(toKey, fromKeys)), toKey)
    ensures forall k :: k != toKey ==> Get(Run(m, MergeBatch(toKey, fromKeys)), k) == Get(m, k)
  {
    RunTwo(m, SUnionStore(toKey, fromKeys), SMembers(toKey));
    if toKey in fromKeys {
      var i :| 0 <= i < |fromKeys| && fromKeys[i] == toKey;
      assert forall x :: x in Get(m, toKey) ==> x in Get(m, fromKeys[i]);
    }
  }

  /** The first of `states` that is not in the chain, checked in order. */
  function FirstOutside(chain: seq<string>, states: seq<string>): (r: Option<string>)
    ensures r.None? <==> forall i :: 0 <= i < |states| ==> states[i] in chain
    ensures r.Some? ==> r.value in states && r.value !in chain
    decreases |states|
  {
    if states == [] then None
    else if states[0] !in chain then Some(states[0])
    else
      var r := FirstOutside(chain, states[1..]);
      assert forall i :: 1 <= i < |states| ==> states[i] == states[1..][i - 1];
      r
  }

  /** The first outside state is the one at the first position that fails the check. */
  lemma {:induction false} FirstOutsideAt(chain: seq<string>, states: seq<string>, i: nat)
    requires i < |states| && states[i] !in chain
    requires forall j :: 0 <= j < i ==> states[j] in chain
    ensures FirstOutside(chain, states) == Some(states[i])
    decreases i
  {
    if i > 0 {
      FirstOutsideAt(chain, states[1..], i - 1);
    }
  }

  /** The keys of `states` for one id, in order. */
  function KeysOf(c: Config, id: string, states: seq<string>): (keys: seq<string>)
    ensures |keys| == |states|
    ensures forall i :: 0 <= i < |states| ==> keys[i] == KeyFormula(c, id, states[i])
  {
    seq(|states|, i requires 0 <= i < |states| => KeyFormula(c, id, states[i]))
  }

  /**
   * The source keys read back as the sources: with separator-free segments,
   * key `i` parses to the id and state `i`, and distinct states never share
   * a key.
   */
  lemma KeysOfParse(c: Config, id: string, states: seq<string>)
    requires SeparatorFree(c) && Separator !in id
    requires forall i :: 0 <= i < |states| ==> Separator !in states[i]
    ensures forall i :: 0 <= i < |states| ==> ParseKey(KeysOf(c, id, states)[i]) == Ok(ParsedKey(id, states[i]))
    ensures forall i, j :: 0 <= i < |states| && 0 <= j < |states| && states[i] != states[j] ==>
      KeysOf(c, id, states)[i] != KeysOf(c, id, states)[j]
  {
    var keys := KeysOf(c, id, states);
    forall i | 0 <= i < |states| ensures ParseKey(keys[i]) == Ok(ParsedKey(id, states[i])) {
      ParseKeyRoundTrip(c, id, states[i]);
    }
  }

  /** Keying one more state appends its key. */
  lemma KeysOfStep(c: Config, id: string, states: seq<string>, i: nat)
    requires i < |states|
    ensures KeysOf(c, id, states[..i + 1]) == KeysOf(c, id, states[..i]) + [KeyFormula(c, id, states[i])]
  {
    var shorter := states[..i];
    var longer := states[..i + 1];
    assert forall j :: 0 <= j < i ==> longer[j] == shorter[j];
  }

  /** The pipe of lib/rpipe.test.ts: name and postfix 'testAggregator', the default states. */
  function TestConfig(): Config
  {
    Configure("testAggregator", Options(Some(["processing", "done", "failed"]), None, Some("testAggregator"), None))
  }

  /** The test pipe's fields: prefix `pipe`, the default chain, the default collector name. */
  lemma TestConfigFields()
    ensures TestConfig() ==
      Config("testAggregator", "pipe", "testAggregator", "collector", ["collector", "processing", "done", "failed"])
  {
  }

  /** The successors the tests ask for in the test pipe. */
  lemma TestPipeChain()
    ensures NextStateName(TestConfig(), "processing") == Ok(Some("done"))
    ensures NextStateName(TestConfig(), "failed") == Ok(None)
    ensures NextStateName(TestConfig(), "invalidState") == Err(InvalidSourceState)
    ensures Text(NextStateName(TestConfig(), "invalidState").error) == "Invalid source state name"
  {
    TestConfigFields();
    var chain := TestConfig().chain;
    assert chain[..1] == ["collector"];
    NextStateNameRules(TestConfig(), "processing", 1);
    assert chain[..3] == ["collector", "processing", "done"];
    NextStateNameRules(TestConfig(), "failed", 3);
    NextStateNameOutside(TestConfig(), "invalidState");
  }

  /** The test pipe's keys are built with the `pipe` prefix. */
  lemma TestPipeKeys()
    ensures GetKey(TestConfig(), "123", "processing") ==
      Ok(Join(["pipe", "group", "testAggregator", "id", "123", "state", "processing", "testAggregator"], Separator))
  {
    TestConfigFields();
    KeyFormulaJoinsSegments(TestConfig(), "123", "processing");
  }

  /** The test pipe refuses a key for a state outside its chain. */
  lemma TestPipeRefusesUnknownState()
    ensures GetKey(TestConfig(), "123", "invalidState") == Err(InvalidStateName("invalidState"))
    ensures Text(GetKey(TestConfig(), "123", "invalidState").error) == "Invalid state name - " + "invalidState"
  {
    TestConfigFields();
  }

  /** A key the tests spell out with an `rpipe` prefix still parses: only positions 4 and 6 are read. */
  lemma TestKeysParse()
    ensures ParseKey(Join(["rpipe", "group", "testAggregator", "id", "123", "state", "processing", "testAggregator"], Separator))
      == Ok(ParsedKey("123", "processing"))
  {
    var parts := ["rpipe", "group", "testAggregator", "id", "123", "state", "processing", "testAggregator"];
    assert forall i :: 0 <= i < |parts| ==> Separator !in parts[i];
    ParseKeyReadsPositions(parts);
  }

  /** The tests' key with no separator fails to parse. */
  lemma TestUnseparatedKeyRejected()
    ensures ParseKey("invalidKeyFormat") == Err(InvalidKeyFormat)
    ensures Text(ParseKey("invalidKeyFormat").error) == "Invalid key format"
  {
    ParseKeyRejectsUnseparated("invalidKeyFormat");
  }

  /** A message whose action has no `payload`, as the registration tests send. */
  function PayloadlessMessage(id: string, name: string, actionType: string): Json
  {
    JObject(map[
      "receiver" := JObject(map["id" := JString(id), "name" := JString(name)]),
      "action" := JObject(map["type" := JString(actionType)])])
  }

  /**
   * The registration tests' messages carry no `payload`, so the schema
   * rejects them and registering one throws 'Invalid message'.
   */
  lemma TestRegistrationRejected(stringify: Json -> string)
    ensures RegisterBatch(TestConfig(), [PayloadlessMessage("123", "test", "testAction")], stringify) == Err(InvalidMessage)
    ensures !ValidateMessage(PayloadlessMessage("1", "message-1", "aggregator"))
  {
    var m := PayloadlessMessage("123", "test", "testAction");
    BadActionRejected(m);
    BadActionRejected(PayloadlessMessage("1", "message-1", "aggregator"));
    assert [m][..0] == [];
  }

  datatype NextResult = Moved | NoNextState

  /** An `RPipe`: the immutable configuration and the Redis client it writes through. */
  class RPipe {
    const cfg: Config
    const client: Store

    constructor (name: string, client: Store, options: Options)
      ensures this.cfg == Configure(name, options)
      ensures this.client == client
    {
      this.cfg := Configure(name, options);
      this.client := client;
    }

    /**
     * The loop of `registerMessages`: validate and key each message in turn,
     * queueing an SADD for each, and stop at the first failure.
     */
    method QueueRegistrations(messages: seq<Json>, stringify: Json -> string) returns (r: Result<seq<Command>, Error>)
      ensures r == RegisterBatch(cfg, messages, stringify)
    {
      var batch: seq<Command> := [];
      var i := 0;
      while i < |messages|
        invariant 0 <= i <= |messages|
        invariant RegisterBatch(cfg, messages[..i], stringify) == Ok(batch)
      {
        var message := messages[i];
        RegisterStep(cfg, messages, i, stringify);
        if !ValidateMessage(message) {
          RegisterErrorSticks(cfg, messages, i + 1, stringify);
          return Err(InvalidMessage);
        }
        var key := GetKey(cfg, ReceiverKeyId(message), cfg.collectorName);
        if key.Err? {
          RegisterErrorSticks(cfg, messages, i + 1, stringify);
          return Err(key.error);
        }
        batch := batch + [SAdd(key.value, stringify(ActionValue(message)))];
        i := i + 1;
      }
      assert messages[..|messages|] == messages;
      r := Ok(batch);
    }

    /**
     * `registerMessages`: the first failure while queueing throws before
     * `exec`, so the store is unchanged; otherwise one `exec` runs the whole
     * batch.
     */
    method RegisterMessages(messages: seq<Json>, stringify: Json -> string) returns (r: Outcome<Error>)
      requires client.Valid()
      modifies client
      ensures client.Valid()
      ensures match RegisterBatch(cfg, messages, stringify)
        case Err(e) => r == Fail(e) && client.sets == old(client.sets)
        case Ok(batch) => r == Pass && client.sets == Run(old(client.sets), batch)
    {
      var queued := QueueRegistrations(messages, stringify);
      if queued.Err? {
        return Fail(queued.error);
      }
      var _ := client.Exec(queued.value);
      r := Pass;
    }

    /** `move`: one batch that unions `from` into `to` and deletes `from`. */
    method Move(from: string, to: string)
      requires client.Valid()
      modifies client
      ensures client.Valid()
      ensures client.sets == Run(old(client.sets), MoveBatch(from, to))
    {
      var _ := client.Exec(MoveBatch(from, to));
    }

    /** `moveId`: both states are checked, source first, then the two buckets are moved. */
    method MoveId(id: string, fromState: string, toState: string) returns (r: Outcome<Error>)
      requires client.Valid()
      modifies client
      ensures client.Valid()
      ensures fromState !in cfg.chain ==>
        r == Fail(InvalidStateName(fromState)) && client.sets == old(client.sets)
      ensures fromState in cfg.chain && toState !in cfg.chain ==>
        r == Fail(InvalidStateName(toState)) && client.sets == old(client.sets)
      ensures fromState in cfg.chain && toState in cfg.chain ==>
        r == Pass &&
        client.sets == Run(old(client.sets), MoveBatch(KeyFormula(cfg, id, fromState), KeyFormula(cfg, id, toState)))
    {
      var fromKey := GetKey(cfg, id, fromState);
      if fromKey.Err? {
        return Fail(fromKey.error);
      }
      var toKey := GetKey(cfg, id, toState);
      if toKey.Err? {
        return Fail(toKey.error);
      }
      Move(fromKey.value, toKey.value);
      r := Pass;
    }

    /**
     * `next`: the source state is checked by `getKey` first; with no
     * successor (or an empty-string one, which JavaScript reads as false)
     * it returns null and touches nothing; otherwise it moves the bucket to
     * the successor's.
     */
    method Next(id: string, fromState: string) returns (r: Result<NextResult, Error>)
      requires client.Valid()
      modifies client
      ensures client.Valid()
      ensures fromState !in cfg.chain ==>
        r == Err(InvalidStateName(fromState)) && client.sets == old(client.sets)
      ensures fromState in cfg.chain ==>
        var successor := NextStateName(cfg, fromState).value;
        if successor.None? || successor.value == "" then
          r == Ok(NoNextState) && client.sets == old(client.sets)
        else
          r == Ok(Moved) &&
          client.sets == Run(old(client.sets), MoveBatch(KeyFormula(cfg, id, fromState), KeyFormula(cfg, id, successor.value)))
    {
      var key := GetKey(cfg, id, fromState);
      if key.Err? {
        return Err(key.error);
      }
      var toState := NextStateName(cfg, fromState).value;
      if toState.None? || toState.value == "" {
        return Ok(NoNextState);
      }
      var nextKey := GetKey(cfg, id, toState.value).value;
      Move(key.value, nextKey);
      r := Ok(Moved);
    }

    /** `add`: one batch with a single SADD into the bucket of `(key, state)`. */
    method Add(key: string, state: string, value: string) returns (r: Outcome<Error>)
      requires client.Valid()
      modifies client
      ensures client.Valid()
      ensures state !in cfg.chain ==> r == Fail(InvalidStateName(state)) && client.sets == old(client.sets)
      ensures state in cfg.chain ==>
        r == Pass && client.sets == Run(old(client.sets), [SAdd(KeyFormula(cfg, key, state), value)])
    {
      var toKey := GetKey(cfg, key, state);
      if toKey.Err? {
        return Fail(toKey.error);
      }
      var _ := client.Exec([SAdd(toKey.value, value)]);
      r := Pass;
    }

    /** `getMembers`: the members of the bucket of `(key, state)`, each once. */
    method GetMembers(key: string, state: string) returns (r: Result<seq<string>, Error>)
      ensures state !in cfg.chain ==> r == Err(InvalidStateName(state))
      ensures state in cfg.chain ==>
        r.Ok? && Distinct(r.value) && Elements(r.value) == client.Members(KeyFormula(cfg, key, state))
    {
      var bucket := GetKey(cfg, key, state);
      if bucket.Err? {
        return Err(bucket.error);
      }
      var items := client.SMembers(bucket.value);
      r := Ok(items);
    }

    /** `getCollected`: the members of the collector bucket, under the configured collector name. */
    method GetCollected(key: string) returns (r: Result<seq<string>, Error>)
      ensures cfg.collectorName !in cfg.chain ==> r == Err(InvalidStateName(cfg.collectorName))
      ensures cfg.collectorName in cfg.chain ==>
        r.Ok? && Distinct(r.value) && Elements(r.value) == client.Members(KeyFormula(cfg, key, cfg.collectorName))
    {
      r := GetMembers(key, cfg.collectorName);
    }

    /** The `reduce` in `merge`: the key of each source state, in order. */
    method SourceKeys(key: string, from: seq<string>) returns (fromKeys: seq<string>)
      requires forall j :: 0 <= j < |from| ==> from[j] in cfg.chain
      ensures fromKeys == KeysOf(cfg, key, from)
    {
      fromKeys := [];
      var i := 0;
      while i < |from|
        invariant 0 <= i <= |from|
        invariant fromKeys == KeysOf(cfg, key, from[..i])
      {
        fromKeys := fromKeys + [GetKey(cfg, key, from[i]).value];
        KeysOfStep(cfg, key, from, i);
        i := i + 1;
      }
      assert from[..|from|] == from;
    }

    /**
     * `merge`: the destination and then each source, in order, must be a
     * state of the chain; then one batch overwrites the destination with the
     * union of the sources and reads it back, and that reading is returned.
     */
    method Merge(key: string, to: string, from: seq<string>) returns (r: Result<seq<string>, Error>)
      requires |from| > 0
      requires client.Valid()
      modifies client
      ensures client.Valid()
      ensures match FirstOutside(cfg.chain, [to] + from)
        case Some(bad) => r == Err(InvalidStateName(bad)) && client.sets == old(client.sets)
        case None =>
          && client.sets == Run(old(client.sets), MergeBatch(KeyFormula(cfg, key, to), KeysOf(cfg, key, from)))
          && r.Ok? && Distinct(r.value) && Elements(r.value) == client.Members(KeyFormula(cfg, key, to))
    {
      var states := [to] + from;
      if to !in cfg.chain {
        FirstOutsideAt(cfg.chain, states, 0);
        return Err(InvalidStateName(to));
      }
      var i := 0;
      while i < |from|
        invariant 0 <= i <= |from|
        invariant forall j :: 0 <= j < i ==> from[j] in cfg.chain
      {
        if from[i] !in cfg.chain {
          FirstOutsideAt(cfg.chain, states, i + 1);
          return Err(InvalidStateName(from[i]));
        }
        i := i + 1;
      }
      assert forall j :: 0 <= j < |states| ==> states[j] in cfg.chain by {
        assert forall j :: 1 <= j < |states| ==> states[j] == from[j - 1];
      }

      var fromKeys := SourceKeys(key, from);

      var toKey := GetKey(cfg, key, to).value;
      var batch := MergeBatch(toKey, fromKeys);
      ghost var start := client.sets;
      var replies := client.Exec(batch);
      assert batch[..1] == [batch[0]];
      RunOne(start, batch[0]);
      RunTwo(start, batch[0], batch[1]);
      r := Ok(replies[1].items);
    }

    /** `clear`: its own check throws the bare 'Invalid state name'; then DEL reports 1 or 0 keys removed. */
    method Clear(id: string, state: string) returns (r: Result<int, Error>)
      requires client.Valid()
      modifies client
      ensures client.Valid()
      ensures state !in cfg.chain ==> r == Err(InvalidStateNameBare) && client.sets == old(client.sets)
      ensures state in cfg.chain ==>
        var key := KeyFormula(cfg, id, state);
        && r == Ok(if old(client.Members(key)) != {} then 1 else 0)
        && client.sets == old(client.sets) - {key}
        && client.Members(key) == {}
    {
      if state !in cfg.chain {
        return Err(InvalidStateNameBare);
      }
      var key := GetKey(cfg, id, state).value;
      var removed := client.Del(key);
      r := Ok(removed);
    }
  }
}
