/**
 * The older design of lib/aggregator.ts. An `Aggregator` has three fixed
 * states and no state validation. Its keys have the form
 * `aggregator:group:<name>:id:<id>:state:<state>:<postfix>`. Its
 * `moveState` overwrites the destination with the source instead of
 * merging the source into it.
 */
module Aggregator {
  import opened Wrappers
  import opened Errors
  import opened Json
  import opened MessageValidator
  import opened Types
  import opened RedisStore
  import Rpipe

  /** `AggregatorState`: the enum's three members. */
  datatype AggregatorState = Collector | Processing | Done

  /** The string value of an `AggregatorState` member. */
  function StateName(s: AggregatorState): string
  {
    match s
    case Collector => "collector"
    case Processing => "processing"
    case Done => "done"
  }

  /** `AggregatorOptions`. `None` means the option is `undefined`. */
  datatype AggregatorOptions = AggregatorOptions(
    states: Option<seq<string>>,
    prefix: Option<string>,
    postFix: Option<string>)

  /** The fields the constructor sets. */
  datatype Settings = Settings(name: string, prefix: string, postFix: string)

  /**
   * The constructor. `this._prefix || options.prefix` is always
   * `'aggregator'`, because the field starts out with that value. The
   * postfix is `name || options.postFix`.
   */
  function Configure(name: string, options: AggregatorOptions): Settings
  {
    Settings(name, "aggregator", if name != "" then name else Rpipe.Render(options.postFix))
  }

  /**
   * The prefix option and the states option are never read. The postfix
   * option is read only when the name is empty.
   */
  lemma ConfigureIgnoresOptions(name: string, options: AggregatorOptions, other: AggregatorOptions)
    ensures Configure(name, options).prefix == "aggregator"
    ensures Configure(name, options.(prefix := other.prefix, states := other.states)) == Configure(name, options)
    ensures name != "" ==> Configure(name, options) == Configure(name, other) && Configure(name, options).postFix == name
  {
  }

  /** `getKey`: the template `<prefix>:group:<name>:id:<key>:state:<state>:<postfix>`. */
  function GetKey(a: Settings, key: string, state: AggregatorState): string
  {
    a.prefix + ":group:" + a.name + ":id:" + key + ":state:" + StateName(state) + ":" + a.postFix
  }

  /** The pipe configuration that has the same name, prefix and postfix. */
  function AsPipeConfig(a: Settings): Rpipe.Config
  {
    Rpipe.Config(a.name, a.prefix, a.postFix, Rpipe.DefaultCollectorName, [])
  }

  /** An aggregator key follows the same eight-segment template as a pipe key. */
  lemma GetKeyIsPipeTemplate(a: Settings, key: string, state: AggregatorState)
    ensures GetKey(a, key, state) == Rpipe.KeyFormula(AsPipeConfig(a), key, StateName(state))
  {
  }

  /**
   * When the name, the postfix and the id contain no `:`, an aggregator key
   * parses back to its id and state name.
   */
  lemma GetKeyParses(name: string, options: AggregatorOptions, key: string, state: AggregatorState)
    requires ':' !in name && ':' !in Configure(name, options).postFix && ':' !in key
    ensures Rpipe.ParseKey(GetKey(Configure(name, options), key, state)) == Ok(Rpipe.ParsedKey(key, StateName(state)))
  {
    var a := Configure(name, options);
    GetKeyIsPipeTemplate(a, key, state);
    assert ':' !in "aggregator";
    assert ':' !in StateName(state);
    Rpipe.ParseKeyRoundTrip(AsPipeConfig(a), key, StateName(state));
  }

  /** The last four characters of a state name: "ctor", "sing" and "done" tell the states apart. */
  lemma StateTailsDiffer(s1: AggregatorState, s2: AggregatorState)
    requires s1 != s2
    ensures |StateName(s1)| >= 4 && |StateName(s2)| >= 4
    ensures StateName(s1)[|StateName(s1)| - 4..] != StateName(s2)[|StateName(s2)| - 4..]
  {
    assert "collector"[5..] == "ctor";
    assert "processing"[6..] == "sing";
    assert "done"[0..] == "done";
  }

  /** In `p + s + q`, the four characters before `q` are the last four of `s`. */
  lemma TailBefore(p: string, s: string, q: string)
    requires |s| >= 4
    ensures var w := p + s + q; w[|w| - |q| - 4..|w| - |q|] == s[|s| - 4..]
  {
    var w := p + s + q;
    assert forall k | |w| - |q| - 4 <= k < |w| - |q| :: w[k] == s[k - |p|];
  }

  /** A key is the text before the state name, the state name, then `:` and the postfix. */
  lemma KeyAroundState(a: Settings, id: string, s: AggregatorState)
    ensures GetKey(a, id, s) == (a.prefix + ":group:" + a.name + ":id:" + id + ":state:") + StateName(s) + (":" + a.postFix)
  {
  }

  /**
   * Keys of two different states never coincide, even for different ids,
   * whatever characters the name, the postfix and the ids contain.
   */
  lemma StatesHaveDistinctKeys(a: Settings, id1: string, s1: AggregatorState, id2: string, s2: AggregatorState)
    requires s1 != s2
    ensures GetKey(a, id1, s1) != GetKey(a, id2, s2)
  {
    var q := ":" + a.postFix;
    var p1 := a.prefix + ":group:" + a.name + ":id:" + id1 + ":state:";
    var p2 := a.prefix + ":group:" + a.name + ":id:" + id2 + ":state:";
    StateTailsDiffer(s1, s2);
    KeyAroundState(a, id1, s1);
    KeyAroundState(a, id2, s2);
    TailBefore(p1, StateName(s1), q);
    TailBefore(p2, StateName(s2), q);
  }

  /**
   * An aggregator and a pipe that share a Redis server never use the same
   * key: every pipe key starts with `pipe`.
   */
  lemma KeysDisjointFromPipe(a: Settings, key: string, state: AggregatorState,
                              pipeName: string, pipeOptions: Rpipe.Options, id: string, pipeState: string)
    requires a.prefix == "aggregator"
    ensures GetKey(a, key, state) != Rpipe.KeyFormula(Rpipe.Configure(pipeName, pipeOptions), id, pipeState)
  {
    assert GetKey(a, key, state)[0] == 'a';
    assert Rpipe.KeyFormula(Rpipe.Configure(pipeName, pipeOptions), id, pipeState)[0] == 'p';
  }

  /**
   * The SADDs `registerMessages` queues when every message is valid. Each
   * message adds its serialised action to the collector bucket of its
   * receiver's id.
   */
  function CollectorAdds(a: Settings, messages: seq<Json>, stringify: Json -> string): (batch: seq<Command>)
    requires AllValid(messages)
    ensures |batch| == |messages|
    ensures forall i :: 0 <= i < |messages| ==>
      batch[i] == SAdd(GetKey(a, ReceiverKeyId(messages[i]), Collector), stringify(ActionValue(messages[i])))
  {
    seq(|messages|, i requires 0 <= i < |messages| && ValidateMessage(messages[i]) =>
      SAdd(GetKey(a, ReceiverKeyId(messages[i]), Collector), stringify(ActionValue(messages[i]))))
  }

  /** Queueing one more valid message appends its SADD to the batch. */
  lemma CollectorAddsStep(a: Settings, messages: seq<Json>, i: nat, stringify: Json -> string)
    requires i < |messages| && AllValid(messages[..i]) && ValidateMessage(messages[i])
    ensures AllValid(messages[..i + 1])
    ensures CollectorAdds(a, messages[..i + 1], stringify) ==
      CollectorAdds(a, messages[..i], stringify) + [SAdd(GetKey(a, ReceiverKeyId(messages[i]), Collector), stringify(ActionValue(messages[i])))]
  {
    AllValidStep(messages, i);
    var shorter := messages[..i];
    var longer := messages[..i + 1];
    assert forall j :: 0 <= j < i ==> longer[j] == shorter[j];
  }

  /**
   * What registration queues, read back: command `i` is an SADD of message
   * `i`'s serialised action under a key that parses to message `i`'s
   * receiver id and the `collector` state, given separator-free segments.
   */
  lemma CollectorAddsParse(name: string, options: AggregatorOptions, messages: seq<Json>, stringify: Json -> string)
    requires AllValid(messages)
    requires ':' !in name && ':' !in Configure(name, options).postFix
    requires forall i :: 0 <= i < |messages| ==> ':' !in ReceiverKeyId(messages[i])
    ensures |CollectorAdds(Configure(name, options), messages, stringify)| == |messages|
    ensures forall i :: 0 <= i < |messages| ==>
      var c := CollectorAdds(Configure(name, options), messages, stringify)[i];
      c.SAdd? && c.member == stringify(ActionValue(messages[i])) &&
      Rpipe.ParseKey(c.key) == Ok(Rpipe.ParsedKey(ReceiverKeyId(messages[i]), "collector"))
  {
    var batch := CollectorAdds(Configure(name, options), messages, stringify);
    forall i | 0 <= i < |messages|
      ensures Rpipe.ParseKey(batch[i].key) == Ok(Rpipe.ParsedKey(ReceiverKeyId(messages[i]), "collector"))
    {
      GetKeyParses(name, options, ReceiverKeyId(messages[i]), Collector);
    }
  }

  /** The serialised actions of the messages whose collector bucket is `key`. */
  ghost function Delivered(a: Settings, messages: seq<Json>, stringify: Json -> string, key: string): set<string>
    requires AllValid(messages)
  {
    set i | 0 <= i < |messages| && GetKey(a, ReceiverKeyId(messages[i]), Collector) == key
      :: stringify(ActionValue(messages[i]))
  }

  /**
   * After registration, every bucket holds its old members plus the
   * serialised actions delivered to it. Every state other than the
   * collector is untouched.
   */
  lemma RegisterEffect(a: Settings, messages: seq<Json>, stringify: Json -> string, m: Keyspace, key: string)
    requires AllValid(messages)
    ensures Get(Run(m, CollectorAdds(a, messages, stringify)), key) == Get(m, key) + Delivered(a, messages, stringify, key)
    ensures forall id, s :: s != Collector ==>
      Get(Run(m, CollectorAdds(a, messages, stringify)), GetKey(a, id, s)) == Get(m, GetKey(a, id, s))
  {
    var batch := CollectorAdds(a, messages, stringify);
    RunAdds(m, batch, key);
    assert Added(batch, key) == Delivered(a, messages, stringify, key) by {
      forall x | x in Added(batch, key) ensures x in Delivered(a, messages, stringify, key) {
        var i :| 0 <= i < |batch| && batch[i].SAdd? && batch[i].key == key && batch[i].member == x;
      }
      forall x | x in Delivered(a, messages, stringify, key) ensures x in Added(batch, key) {
        var i :| 0 <= i < |messages| && GetKey(a, ReceiverKeyId(messages[i]), Collector) == key
          && stringify(ActionValue(messages[i])) == x;
        assert batch[i].SAdd? && batch[i].key == key && batch[i].member == x;
      }
    }
    forall id, s | s != Collector
      ensures Get(Run(m, batch), GetKey(a, id, s)) == Get(m, GetKey(a, id, s))
    {
      forall i | 0 <= i < |batch| ensures GetKey(a, id, s) !in Writes(batch[i]) {
        StatesHaveDistinctKeys(a, id, s, ReceiverKeyId(messages[i]), Collector);
      }
      RunFrame(m, batch, GetKey(a, id, s));
    }
  }

  /** The batch `moveState` executes: overwrite the destination with the source, then delete the source. */
  function MoveStateBatch(fromKey: string, toKey: string): seq<Command>
  {
    [SUnionStore(toKey, [fromKey]), Del(fromKey)]
  }

  /**
   * `moveState` leaves the destination holding exactly the source's old
   * members; the destination's own members are discarded. It deletes the
   * source and changes no other key. Moving a bucket onto itself deletes it.
   */
  lemma MoveStateEffect(m: Keyspace, fromKey: string, toKey: string)
    ensures fromKey !in Run(m, MoveStateBatch(fromKey, toKey))
    ensures fromKey != toKey ==> Get(Run(m, MoveStateBatch(fromKey, toKey)), toKey) == Get(m, fromKey)
    ensures fromKey == toKey ==> Get(Run(m, MoveStateBatch(fromKey, toKey)), toKey) == {}
    ensures forall k :: k != fromKey && k != toKey ==> Get(Run(m, MoveStateBatch(fromKey, toKey)), k) == Get(m, k)
  {
    RunTwo(m, SUnionStore(toKey, [fromKey]), Del(fromKey));
    assert UnionOf(m, [fromKey]) == Get(m, fromKey) by {
      assert forall x :: x in UnionOf(m, [fromKey]) <==> x in Get(m, [fromKey][0]);
    }
  }

  /**
   * Compared with the pipe's `move`, which merges the source into the
   * destination: the two agree on every key exactly when the destination's
   * members were already all in the source.
   */
  lemma MoveStateVersusPipeMove(m: Keyspace, fromKey: string, toKey: string)
    requires fromKey != toKey
    ensures (forall k :: Get(Run(m, MoveStateBatch(fromKey, toKey)), k) == Get(Run(m, Rpipe.MoveBatch(fromKey, toKey)), k))
        <==> Get(m, toKey) <= Get(m, fromKey)
  {
    MoveStateEffect(m, fromKey, toKey);
    Rpipe.MoveEffect(m, fromKey, toKey);
    if Get(m, toKey) <= Get(m, fromKey) {
      assert Get(m, toKey) + Get(m, fromKey) == Get(m, fromKey);
      forall k ensures Get(Run(m, MoveStateBatch(fromKey, toKey)), k) == Get(Run(m, Rpipe.MoveBatch(fromKey, toKey)), k) {
        if k == fromKey {
          assert fromKey !in Run(m, Rpipe.MoveBatch(fromKey, toKey));
        }
      }
    }
  }

  /** Adding a member twice leaves the store as adding it once. */
  lemma AddToStateIdempotent(m: Keyspace, key: string, action: string)
    ensures Run(Run(m, [SAdd(key, action)]), [SAdd(key, action)]) == Run(m, [SAdd(key, action)])
    ensures Get(Run(m, [SAdd(key, action)]), key) == Get(m, key) + {action}
    ensures forall k :: k != key ==> Get(Run(m, [SAdd(key, action)]), k) == Get(m, k)
  {
    RunOne(m, SAdd(key, action));
    RunOne(Run(m, [SAdd(key, action)]), SAdd(key, action));
    var once := Apply(m, SAdd(key, action));
    assert Get(once, key) + {action} == Get(once, key);
  }

  /** The keys of `states` for one id, in order. */
  function KeysOf(a: Settings, key: string, states: seq<AggregatorState>): (keys: seq<string>)
    ensures |keys| == |states|
    ensures forall i :: 0 <= i < |states| ==> keys[i] == GetKey(a, key, states[i])
  {
    seq(|states|, i requires 0 <= i < |states| => GetKey(a, key, states[i]))
  }

  /**
   * The source keys read back as the sources: with a separator-free name,
   * postfix and id, key `i` parses to the id and the name of state `i`; and
   * distinct states never share a key, whatever the segments contain.
   */
  lemma KeysOfParse(name: string, options: AggregatorOptions, key: string, states: seq<AggregatorState>)
    requires ':' !in name && ':' !in Configure(name, options).postFix && ':' !in key
    ensures forall i :: 0 <= i < |states| ==>
      Rpipe.ParseKey(KeysOf(Configure(name, options), key, states)[i]) == Ok(Rpipe.ParsedKey(key, StateName(states[i])))
    ensures forall i, j :: 0 <= i < |states| && 0 <= j < |states| && states[i] != states[j] ==>
      KeysOf(Configure(name, options), key, states)[i] != KeysOf(Configure(name, options), key, states)[j]
  {
    var a := Configure(name, options);
    var keys := KeysOf(a, key, states);
    forall i | 0 <= i < |states|
      ensures Rpipe.ParseKey(keys[i]) == Ok(Rpipe.ParsedKey(key, StateName(states[i])))
    {
      GetKeyParses(name, options, key, states[i]);
    }
    forall i, j | 0 <= i < |states| && 0 <= j < |states| && states[i] != states[j] ensures keys[i] != keys[j] {
      StatesHaveDistinctKeys(a, key, states[i], key, states[j]);
    }
  }

  /** An `Aggregator`: its settings and the Redis client it writes through. */
  class Aggregator {
    const settings: Settings
    const client: Store

    constructor (name: string, client: Store, options: AggregatorOptions)
      ensures settings == Configure(name, options)
      ensures this.client == client
    {
      this.settings := Configure(name, options);
      this.client := client;
    }

    /**
     * `registerMessages`: every message is validated in turn. The first
     * invalid one throws before `exec`, so the store is unchanged. Otherwise
     * one `exec` adds every serialised action to its collector bucket.
     */
    method RegisterMessages(messages: seq<Json>, stringify: Json -> string) returns (r: Outcome<Error>)
      requires client.Valid()
      modifies client
      ensures client.Valid()
      ensures AllValid(messages) ==>
        r == Pass && client.sets == Run(old(client.sets), CollectorAdds(settings, messages, stringify))
      ensures !AllValid(messages) ==>
        r == Fail(InvalidMessage) && client.sets == old(client.sets)
    {
      var batch: seq<Command> := [];
      var i := 0;
      while i < |messages|
        invariant 0 <= i <= |messages|
        invariant unchanged(client)
        invariant AllValid(messages[..i])
        invariant batch == CollectorAdds(settings, messages[..i], stringify)
      {
        var message := messages[i];
        if !ValidateMessage(message) {
          return Fail(InvalidMessage);
        }
        var key := GetKey(settings, ReceiverKeyId(message), Collector);
        batch := batch + [SAdd(key, stringify(ActionValue(message)))];
        CollectorAddsStep(settings, messages, i, stringify);
        i := i + 1;
      }
      assert messages[..|messages|] == messages;
      var _ := client.Exec(batch);
      r := Pass;
    }

    /** `moveState`: one batch that overwrites `to`'s bucket with `from`'s and deletes `from`'s. */
    method MoveState(key: string, from: AggregatorState, to: AggregatorState)
      requires client.Valid()
      modifies client
      ensures client.Valid()
      ensures client.sets == Run(old(client.sets), MoveStateBatch(GetKey(settings, key, from), GetKey(settings, key, to)))
    {
      var fromKey := GetKey(settings, key, from);
      var toKey := GetKey(settings, key, to);
      var _ := client.Exec(MoveStateBatch(fromKey, toKey));
    }

    /** `addToState`: one batch with a single SADD into the bucket of `(key, state)`. */
    method AddToState(key: string, state: AggregatorState, action: string)
      requires client.Valid()
      modifies client
      ensures client.Valid()
      ensures client.sets == Run(old(client.sets), [SAdd(GetKey(settings, key, state), action)])
    {
      var toKey := GetKey(settings, key, state);
      var _ := client.Exec([SAdd(toKey, action)]);
    }

    /** `getMembers`: the members of the bucket of `(key, state)`, each once. */
    method GetMembers(key: string, state: AggregatorState) returns (members: seq<string>)
      ensures Distinct(members)
      ensures Elements(members) == client.Members(GetKey(settings, key, state))
    {
      members := client.SMembers(GetKey(settings, key, state));
    }

    /**
     * `merge`: one batch that overwrites the destination with the union of
     * the source buckets and reads it back. The reading is returned. No
     * state is validated.
     */
    method Merge(key: string, to: AggregatorState, from: seq<AggregatorState>) returns (members: seq<string>)
      requires |from| > 0
      requires client.Valid()
      modifies client
      ensures client.Valid()
      ensures client.sets == Run(old(client.sets), Rpipe.MergeBatch(GetKey(settings, key, to), KeysOf(settings, key, from)))
      ensures Distinct(members) && Elements(members) == client.Members(GetKey(settings, key, to))
    {
      var fromKeys: seq<string> := [];
      var i := 0;
      while i < |from|
        invariant 0 <= i <= |from|
        invariant fromKeys == KeysOf(settings, key, from[..i])
      {
        fromKeys := fromKeys + [GetKey(settings, key, from[i])];
        i := i + 1;
      }
      assert from[..|from|] == from;
      var toKey := GetKey(settings, key, to);
      var batch := Rpipe.MergeBatch(toKey, fromKeys);
      var replies := client.Exec(batch);
      assert batch[..1] == [batch[0]];
      members := replies[1].items;
    }

    /** `clear`: DEL of the bucket of `(id, state)`, replying 1 when it held members and 0 otherwise. */
    method Clear(id: string, state: AggregatorState) returns (removed: int)
      requires client.Valid()
      modifies client
      ensures client.Valid()
      ensures removed == if old(client.Members(GetKey(settings, id, state))) != {} then 1 else 0
      ensures client.sets == old(client.sets) - {GetKey(settings, id, state)}
    {
      removed := client.Del(GetKey(settings, id, state));
    }
  }
}
