/**
 * `grouping` of lib/collector.ts. It validates each message in turn and
 * buckets the messages by `receiver.name`, in input order. The first
 * invalid message throws 'Invalid message'.
 */
module Collector {
  import opened Wrappers
  import opened Errors
  import opened Json
  import opened MessageValidator
  import opened Types

  /** The messages addressed to receiver `name`, in input order. */
  function Filter(messages: seq<Json>, name: string): seq<Json>
    decreases |messages|
  {
    if messages == [] then []
    else
      var init := messages[..|messages| - 1];
      var last := messages[|messages| - 1];
      Filter(init, name) + (if ReceiverName(last) == name then [last] else [])
  }

  /** The receiver names that occur in the messages. */
  function Names(messages: seq<Json>): set<string>
  {
    set i | 0 <= i < |messages| :: ReceiverName(messages[i])
  }

  /** The grouping: each receiver name that occurs, mapped to its messages in input order. */
  function Grouped(messages: seq<Json>): map<string, seq<Json>>
  {
    map n | n in Names(messages) :: Filter(messages, n)
  }

  /** A list holds exactly the messages with its name. */
  lemma {:induction false} FilterMembers(messages: seq<Json>, name: string)
    ensures forall x :: x in Filter(messages, name) ==> x in messages && ReceiverName(x) == name
    ensures forall i :: 0 <= i < |messages| && ReceiverName(messages[i]) == name ==> messages[i] in Filter(messages, name)
    decreases |messages|
  {
    if messages != [] {
      var init := messages[..|messages| - 1];
      assert forall i :: 0 <= i < |init| ==> init[i] == messages[i];
      FilterMembers(init, name);
    }
  }

  /** A name's list is empty exactly when no message carries that name. */
  lemma {:induction false} FilterEmpty(messages: seq<Json>, name: string)
    ensures Filter(messages, name) == [] <==> name !in Names(messages)
    decreases |messages|
  {
    if messages != [] {
      var init := messages[..|messages| - 1];
      var last := messages[|messages| - 1];
      assert forall i :: 0 <= i < |init| ==> init[i] == messages[i];
      FilterEmpty(init, name);
      assert Names(messages) == Names(init) + {ReceiverName(last)};
    }
  }

  /** Filtering a concatenation filters each part: the lists keep input order. */
  lemma {:induction false} FilterConcat(s: seq<Json>, t: seq<Json>, name: string)
    ensures Filter(s + t, name) == Filter(s, name) + Filter(t, name)
    decreases |t|
  {
    if t == [] {
      assert s + t == s;
    } else {
      var st := s + t;
      var init := t[..|t| - 1];
      var last := t[|t| - 1];
      var kept := if ReceiverName(last) == name then [last] else [];
      assert st[..|st| - 1] == s + init;
      assert st[|st| - 1] == last;
      FilterConcat(s, init, name);
      assert Filter(st, name) == Filter(s + init, name) + kept;
      assert Filter(t, name) == Filter(init, name) + kept;
      assert Filter(s, name) + Filter(init, name) + kept == Filter(s, name) + (Filter(init, name) + kept);
    }
  }

  /** Appending a message adds its name to the names. */
  lemma NamesSnoc(s: seq<Json>, m: Json)
    ensures Names(s + [m]) == Names(s) + {ReceiverName(m)}
  {
    var t := s + [m];
    assert forall i :: 0 <= i < |t| ==> t[i] == if i < |s| then s[i] else m;
    forall x ensures x in Names(t) <==> x in Names(s) + {ReceiverName(m)} {
      if x in Names(s) {
        var i :| 0 <= i < |s| && ReceiverName(s[i]) == x;
        assert ReceiverName(t[i]) == x;
      }
      if x == ReceiverName(m) {
        assert ReceiverName(t[|s|]) == x;
      }
    }
  }

  /** Appending a message extends its own name's list and no other. */
  lemma FilterSnoc(s: seq<Json>, m: Json, name: string)
    ensures Filter(s + [m], name) == Filter(s, name) + (if ReceiverName(m) == name then [m] else [])
  {
    var t := s + [m];
    assert forall i :: 0 <= i < |t| ==> t[i] == if i < |s| then s[i] else m;
    assert t[..|t| - 1] == s;
  }

  /** Appending a message appends it to its own name's list and changes no other list. */
  lemma GroupedSnoc(s: seq<Json>, m: Json)
    ensures var n := ReceiverName(m); var g := Grouped(s);
      Grouped(s + [m]) == g[n := (if n in g then g[n] else []) + [m]]
  {
    var n := ReceiverName(m);
    var g := Grouped(s);
    var after := g[n := (if n in g then g[n] else []) + [m]];
    NamesSnoc(s, m);
    var grown := Grouped(s + [m]);
    assert grown.Keys == Names(s) + {n};
    assert after.Keys == Names(s) + {n};
    forall k | k in after ensures grown[k] == after[k] {
      FilterSnoc(s, m, k);
      if k == n && n !in g {
        FilterEmpty(s, n);
      }
    }
  }

  /** The sum of the list lengths of a grouping. */
  ghost function TotalLength(g: map<string, seq<Json>>): nat
    decreases |g|
  {
    if g == map[] then 0
    else
      var k :| k in g;
      |g[k]| + TotalLength(g - {k})
  }

  /** The sum can be taken starting from any key. */
  lemma {:induction false} TotalLengthRemove(g: map<string, seq<Json>>, k: string)
    requires k in g
    ensures TotalLength(g) == |g[k]| + TotalLength(g - {k})
    decreases |g|
  {
    var j :| j in g && TotalLength(g) == |g[j]| + TotalLength(g - {j});
    if j != k {
      TotalLengthRemove(g - {j}, k);
      TotalLengthRemove(g - {k}, j);
      assert (g - {j}) - {k} == (g - {k}) - {j};
    }
  }

  /** Replacing one list changes the sum by the difference in length. */
  lemma TotalLengthUpdate(g: map<string, seq<Json>>, k: string, v: seq<Json>)
    ensures TotalLength(g[k := v]) + (if k in g then |g[k]| else 0) == TotalLength(g) + |v|
  {
    TotalLengthRemove(g[k := v], k);
    assert g[k := v] - {k} == g - {k};
    if k in g {
      TotalLengthRemove(g, k);
    } else {
      assert g - {k} == g;
    }
  }

  /** The list lengths add up to the number of messages: every message lands in exactly one list. */
  lemma {:induction false} GroupedTotal(messages: seq<Json>)
    ensures TotalLength(Grouped(messages)) == |messages|
    decreases |messages|
  {
    if messages == [] {
      assert Grouped(messages) == map[];
    } else {
      var init := messages[..|messages| - 1];
      var last := messages[|messages| - 1];
      assert init + [last] == messages;
      GroupedTotal(init);
      GroupedSnoc(init, last);
      var g := Grouped(init);
      var n := ReceiverName(last);
      TotalLengthUpdate(g, n, (if n in g then g[n] else []) + [last]);
    }
  }

  /** No list is empty, and no messages give no groups. */
  lemma GroupedShape(messages: seq<Json>)
    ensures forall n :: n in Grouped(messages) ==> |Grouped(messages)[n]| > 0
    ensures messages == [] ==> Grouped(messages) == map[]
  {
    forall n | n in Grouped(messages) ensures |Grouped(messages)[n]| > 0 {
      FilterEmpty(messages, n);
    }
  }

  /** One reduce step, as written: create the list when the name is new, then push. */
  lemma PushStep(messages: seq<Json>, i: nat, total: map<string, seq<Json>>)
    requires i < |messages| && total == Grouped(messages[..i])
    ensures var name := ReceiverName(messages[i]);
      var started := if name !in total then total[name := []] else total;
      Grouped(messages[..i + 1]) == started[name := started[name] + [messages[i]]]
  {
    var message := messages[i];
    assert messages[..i + 1] == messages[..i] + [message];
    GroupedSnoc(messages[..i], message);
    var name := ReceiverName(message);
    var started := if name !in total then total[name := []] else total;
    assert started[name := started[name] + [message]] == total[name := (if name in total then total[name] else []) + [message]];
  }

  /**
   * `grouping`: the reduce over the messages, with the accumulator `total`
   * updated in place. A name seen for the first time gets an empty list, and
   * each message is pushed onto its name's list.
   */
  method Grouping(messages: seq<Json>) returns (r: Result<map<string, seq<Json>>, Error>)
    ensures r.Err? <==> !AllValid(messages)
    ensures r.Err? ==> r.error == InvalidMessage
    ensures r.Ok? ==> AllValid(messages) && r.value == Grouped(messages)
  {
    var total: map<string, seq<Json>> := map[];
    var i := 0;
    while i < |messages|
      invariant 0 <= i <= |messages|
      invariant AllValid(messages[..i])
      invariant total == Grouped(messages[..i])
    {
      var message := messages[i];
      if !ValidateMessage(message) {
        return Err(InvalidMessage);
      }
      var name := ReceiverName(message);
      ghost var before := total;
      if name !in total {
        total := total[name := []];
      }
      assert total == if name !in before then before[name := []] else before;
      total := total[name := total[name] + [message]];
      PushStep(messages, i, before);
      AllValidStep(messages, i);
      i := i + 1;
    }
    assert messages[..|messages|] == messages;
    r := Ok(total);
  }
}
