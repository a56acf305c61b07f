/**
 * The part of a Redis server the pipeline talks to: a keyspace of string
 * sets, the four commands SADD, SUNIONSTORE, DEL and SMEMBERS with their
 * documented semantics, and a MULTI/EXEC batch that applies queued commands
 * in order. A key that is absent holds the empty set, and Redis never keeps
 * an empty set under a key.
 */
module RedisStore {

  type Keyspace = map<string, set<string>>

  /** Redis removes a set key once the set is empty, so no key holds `{}`. */
  predicate NoEmptySets(m: Keyspace)
  {
    forall k :: k in m ==> m[k] != {}
  }

  /** The set a key holds; an absent key reads as empty. */
  function Get(m: Keyspace, key: string): set<string>
  {
    if key in m then m[key] else {}
  }

  /** The union of the sets held by `keys` (`SUNION keys`). */
  function UnionOf(m: Keyspace, keys: seq<string>): (u: set<string>)
    ensures forall x :: x in u <==> exists i :: 0 <= i < |keys| && x in Get(m, keys[i])
    decreases |keys|
  {
    if keys == [] then {}
    else
      var init := keys[..|keys| - 1];
      assert forall i :: 0 <= i < |init| ==> init[i] == keys[i];
      UnionOf(m, init) + Get(m, keys[|keys| - 1])
  }

  /** The union of two keys' sets. */
  lemma UnionOfTwo(m: Keyspace, a: string, b: string)
    ensures UnionOf(m, [a, b]) == Get(m, a) + Get(m, b)
  {
    assert [a, b][..1] == [a];
    assert [a][..0] == [];
  }

  datatype Command =
    | SAdd(key: string, member: string)
    | SUnionStore(dest: string, sources: seq<string>)
    | Del(key: string)
    | SMembers(key: string)

  datatype Reply = Count(n: int) | Items(items: seq<string>)

  /** The keyspace after one command. */
  function Apply(m: Keyspace, c: Command): Keyspace
  {
    match c
    case SAdd(k, v) => m[k := Get(m, k) + {v}]
    case SUnionStore(d, srcs) =>
      var u := UnionOf(m, srcs);
      if u == {} then m - {d} else m[d := u]
    case Del(k) => m - {k}
    case SMembers(_) => m
  }

  /** The keyspace after a batch, its commands applied first to last. */
  function Run(m: Keyspace, batch: seq<Command>): Keyspace
    decreases |batch|
  {
    if batch == [] then m else Apply(Run(m, batch[..|batch| - 1]), batch[|batch| - 1])
  }

  /** The keys a command may write. */
  function Writes(c: Command): set<string>
  {
    match c
    case SAdd(k, _) => {k}
    case SUnionStore(d, _) => {d}
    case Del(k) => {k}
    case SMembers(_) => {}
  }

  function Elements(items: seq<string>): set<string>
  {
    set x | x in items
  }

  predicate Distinct(items: seq<string>)
  {
    forall i, j :: 0 <= i < j < |items| ==> items[i] != items[j]
  }

  /** What Redis replies to a command run against keyspace `m`. */
  ghost predicate Answers(m: Keyspace, c: Command, r: Reply)
  {
    match c
    case SAdd(k, v) => r == Count(if v in Get(m, k) then 0 else 1)
    case SUnionStore(_, srcs) => r == Count(|UnionOf(m, srcs)|)
    case Del(k) => r == Count(if k in m then 1 else 0)
    case SMembers(k) => r.Items? && Distinct(r.items) && Elements(r.items) == Get(m, k)
  }

  /** No command stores an empty set. */
  lemma ApplyKeepsNoEmptySets(m: Keyspace, c: Command)
    requires NoEmptySets(m)
    ensures NoEmptySets(Apply(m, c))
  {
  }

  lemma {:induction false} RunKeepsNoEmptySets(m: Keyspace, batch: seq<Command>)
    requires NoEmptySets(m)
    ensures NoEmptySets(Run(m, batch))
    decreases |batch|
  {
    if batch != [] {
      RunKeepsNoEmptySets(m, batch[..|batch| - 1]);
      ApplyKeepsNoEmptySets(Run(m, batch[..|batch| - 1]), batch[|batch| - 1]);
    }
  }

  /** A batch leaves alone every key none of its commands writes. */
  lemma {:induction false} RunFrame(m: Keyspace, batch: seq<Command>, key: string)
    requires forall i :: 0 <= i < |batch| ==> key !in Writes(batch[i])
    ensures key in Run(m, batch) <==> key in m
    ensures Get(Run(m, batch), key) == Get(m, key)
    decreases |batch|
  {
    if batch != [] {
      RunFrame(m, batch[..|batch| - 1], key);
      assert key !in Writes(batch[|batch| - 1]);
    }
  }

  /** The members the SADDs of a batch add under `key`. */
  ghost function Added(batch: seq<Command>, key: string): set<string>
  {
    set i | 0 <= i < |batch| && batch[i].SAdd? && batch[i].key == key :: batch[i].member
  }

  /** A batch of SADDs leaves each key holding its old members plus the ones added to it. */
  lemma {:induction false} RunAdds(m: Keyspace, batch: seq<Command>, key: string)
    requires forall i :: 0 <= i < |batch| ==> batch[i].SAdd?
    ensures Get(Run(m, batch), key) == Get(m, key) + Added(batch, key)
    decreases |batch|
  {
    if batch != [] {
      var init := batch[..|batch| - 1];
      var last := batch[|batch| - 1];
      RunAdds(m, init, key);
      assert forall i :: 0 <= i < |init| ==> init[i] == batch[i];
      if last.key == key {
        assert Added(batch, key) == Added(init, key) + {last.member};
      } else {
        assert Added(batch, key) == Added(init, key);
      }
    }
  }

  /** A one-command batch applies that command. */
  lemma RunOne(m: Keyspace, c: Command)
    ensures Run(m, [c]) == Apply(m, c)
  {
    assert [c][..0] == [];
  }

  /** A two-command batch applies its first command, then its second. */
  lemma RunTwo(m: Keyspace, first: Command, second: Command)
    ensures Run(m, [first, second]) == Apply(Apply(m, first), second)
  {
    var b := [first, second];
    assert b[..|b| - 1] == [first];
    assert [first][..0] == [];
    assert Run(m, [first]) == Apply(Run(m, []), first);
  }

  /** Running one more command of a batch applies it to what the earlier ones left. */
  lemma RunPrefix(m: Keyspace, batch: seq<Command>, i: nat)
    requires i < |batch|
    ensures Run(m, batch[..i + 1]) == Apply(Run(m, batch[..i]), batch[i])
  {
    assert batch[..i + 1][..i] == batch[..i];
  }

  /** A Redis server's keyspace. */
  class Store {
    var sets: Keyspace

    ghost predicate Valid()
      reads this
    {
      NoEmptySets(sets)
    }

    function Members(key: string): set<string>
      reads this
    {
      Get(sets, key)
    }

    constructor ()
      ensures Valid() && sets == map[]
    {
      sets := map[];
    }

    /** `SADD key member`: replies 1 when the member was new, 0 otherwise. */
    method SAdd(key: string, member: string) returns (added: int)
      requires Valid()
      modifies this
      ensures Valid()
      ensures sets == Apply(old(sets), Command.SAdd(key, member))
      ensures added == if member in old(Members(key)) then 0 else 1
    {
      added := if member in Get(sets, key) then 0 else 1;
      sets := sets[key := Get(sets, key) + {member}];
    }

    /** `SUNIONSTORE dest sources`: overwrites `dest` with the union; an empty union deletes it. */
    method SUnionStore(dest: string, sources: seq<string>) returns (size: int)
      requires Valid()
      modifies this
      ensures Valid()
      ensures sets == Apply(old(sets), Command.SUnionStore(dest, sources))
      ensures size == |UnionOf(old(sets), sources)|
    {
      var u := UnionOf(sets, sources);
      size := |u|;
      if u == {} {
        sets := sets - {dest};
      } else {
        sets := sets[dest := u];
      }
    }

    /** `DEL key`: replies with the number of keys removed. */
    method Del(key: string) returns (removed: int)
      requires Valid()
      modifies this
      ensures Valid()
      ensures sets == Apply(old(sets), Command.Del(key))
      ensures removed == if old(Members(key)) != {} then 1 else 0
    {
      removed := if key in sets then 1 else 0;
      sets := sets - {key};
    }

    /** `SMEMBERS key`: every member once, in an order the server chooses. */
    method SMembers(key: string) returns (items: seq<string>)
      ensures Distinct(items)
      ensures Elements(items) == Members(key)
    {
      var rest := Get(sets, key);
      items := [];
      while rest != {}
        invariant Distinct(items)
        invariant rest !! Elements(items)
        invariant rest + Elements(items) == Get(sets, key)
        decreases rest
      {
        var x :| x in rest;
        assert Elements(items + [x]) == Elements(items) + {x};
        items := items + [x];
        rest := rest - {x};
      }
    }

    /** One queued command, run with its reply. */
    method Perform(c: Command) returns (reply: Reply)
      requires Valid()
      modifies this
      ensures Valid()
      ensures sets == Apply(old(sets), c)
      ensures Answers(old(sets), c, reply)
    {
      match c
      case SAdd(k, v) =>
        var n := SAdd(k, v);
        reply := Count(n);
      case SUnionStore(d, srcs) =>
        var n := SUnionStore(d, srcs);
        reply := Count(n);
      case Del(k) =>
        var n := Del(k);
        reply := Count(n);
      case SMembers(k) =>
        var items := SMembers(k);
        reply := Items(items);
    }

    /**
     * `EXEC` of a MULTI batch: the commands run in queued order, and reply
     * `i` is command `i`'s reply against the keyspace its predecessors left.
     */
    method Exec(batch: seq<Command>) returns (replies: seq<Reply>)
      requires Valid()
      modifies this
      ensures Valid()
      ensures sets == Run(old(sets), batch)
      ensures |replies| == |batch|
      ensures forall i :: 0 <= i < |batch| ==> Answers(Run(old(sets), batch[..i]), batch[i], replies[i])
    {
      ghost var start := sets;
      replies := [];
      var i := 0;
      while i < |batch|
        invariant 0 <= i <= |batch|
        invariant Valid()
        invariant sets == Run(start, batch[..i])
        invariant |replies| == i
        invariant forall j :: 0 <= j < i ==> Answers(Run(start, batch[..j]), batch[j], replies[j])
      {
        ghost var before := sets;
        var reply := Perform(batch[i]);
        assert Answers(before, batch[i], reply);
        RunPrefix(start, batch, i);
        ghost var prev := replies;
        replies := replies + [reply];
        forall j | 0 <= j < i + 1 ensures Answers(Run(start, batch[..j]), batch[j], replies[j]) {
          if j < i {
            assert replies[j] == prev[j];
          } else {
            assert replies[j] == reply;
          }
        }
        i := i + 1;
      }
      assert batch[..|batch|] == batch;
    }
  }
}
