/** The Lamport clock of the store, alone under hostile stamps and across many nodes. */
module Lamport {
  import opened Prelude

  const CEIL: nat := 0x20_0000_0000_0000

  function Clamp(v: nat): nat {
    if v < CEIL then v else CEIL
  }

  /** The clock after observing a received stamp. */
  function Observed(value: nat, remote: nat): nat {
    (if value > Clamp(remote) then value else Clamp(remote)) + 1
  }

  class Counters {
    var values: map<string, nat>

    function Value(scope: string): nat
      reads this
    {
      if scope in values then values[scope] else 0
    }

    constructor ()
      ensures values == map[]
    {
      values := map[];
    }

    method NextSeq(scope: string) returns (v: nat)
      modifies this
      ensures v == old(Value(scope)) + 1 && values == old(values)[scope := v]
    {
      v := if scope in values then values[scope] + 1 else 1;
      values := values[scope := v];
    }

    method LamportNext() returns (v: nat)
      modifies this
      ensures v == old(Value("lamport")) + 1 && values == old(values)["lamport" := v]
    {
      v := NextSeq("lamport");
    }

    method LamportObserve(stamp: nat)
      modifies this
      ensures values == old(values)["lamport" := Observed(old(Value("lamport")), stamp)]
    {
      var remote := Clamp(stamp);
      if "lamport" !in values {
        values := values["lamport" := remote + 1];
      } else {
        var value := values["lamport"];
        values := values["lamport" := (if value > remote then value else remote) + 1];
      }
    }

    /** Whether earlier messages of the peer are missing; the counter keeps the largest number seen. */
    method RecvSeqObserve(scope: string, number: nat) returns (gap: bool)
      modifies this
      ensures gap <==> old(Value(scope)) != 0 && Clamp(number) > old(Value(scope)) + 1
      ensures Value(scope) == (if Clamp(number) > old(Value(scope)) then Clamp(number) else old(Value(scope)))
      ensures forall other :: other != scope ==> Value(other) == old(Value(other))
    {
      var n := Clamp(number);
      var cur := if scope in values then values[scope] else 0;
      gap := cur != 0 && n > cur + 1;
      if n > cur {
        values := values[scope := n];
      }
    }
  }

  /** The clock passes a stamp exactly when the stamp is within the ceiling or already behind it. */
  lemma ObservedPasses(value: nat, remote: nat)
    ensures Observed(value, remote) > remote <==> remote <= CEIL || remote <= value
    ensures Observed(value, remote) > value
  {
  }

  // ----- one node under arbitrary stamps -----

  /** Next: an own message. Observe: a received stamp, whatever its sender put there. */
  datatype Op = Next | Observe(stamp: nat)

  function Clock(ops: seq<Op>): nat {
    if ops == [] then 0
    else
      var before := Clock(ops[..|ops| - 1]);
      match ops[|ops| - 1]
      case Next => before + 1
      case Observe(stamp) => Observed(before, stamp)
  }

  /** Every operation strictly advances the clock, and k operations take it no further than 2^53 + k. */
  lemma {:induction false} ClockBounds(ops: seq<Op>, i: nat)
    requires i < |ops|
    ensures Clock(ops[..i]) < Clock(ops) <= CEIL + |ops|
  {
    var init := ops[..|ops| - 1];
    if i < |init| {
      ClockBounds(init, i);
      assert init[..i] == ops[..i];
    } else if init != [] {
      ClockBounds(init, 0);
    }
  }

  // ----- many nodes -----

  /** A node sends, or reads the message sent by event number from. */
  datatype Event = Send(node: nat) | Receive(node: nat, from: nat)

  /** What one node did, as operations on its own clock. */
  function OpsOf(es: seq<Event>, node: nat): seq<Op>
    decreases |es|, 0
  {
    if es == [] then []
    else
      var init, last := es[..|es| - 1], es[|es| - 1];
      if last.node != node then OpsOf(init, node)
      else
        OpsOf(init, node)
        + [match last
           case Send(_) => Next
           case Receive(_, from) => Observe(if from < |init| then StampOf(init[..from + 1]) else 0)]
  }

  /** The clock of the last event's node just after it: for a Send, the stamp of the message. */
  function StampOf(es: seq<Event>): nat
    requires es != []
    decreases |es|, 1
  {
    Clock(OpsOf(es, es[|es| - 1].node))
  }

  /** Event j directly follows event i: on the same node, or by reading the message i sent. */
  predicate Follows(es: seq<Event>, i: nat, j: nat) {
    && i < j < |es|
    && (es[i].node == es[j].node || (es[i].Send? && es[j] == Receive(es[j].node, i)))
  }

  /** A causal path from event path[0] to the last one. */
  predicate Path(es: seq<Event>, path: seq<nat>) {
    path != [] && path[0] < |es| && forall x :: 0 <= x < |path| - 1 ==> Follows(es, path[x], path[x + 1])
  }

  function Stamp(es: seq<Event>, i: nat): nat
    requires i < |es|
  {
    StampOf(es[..i + 1])
  }

  lemma {:induction false} OpsPrefix(es: seq<Event>, i: nat, node: nat)
    requires i <= |es|
    ensures OpsOf(es[..i], node) <= OpsOf(es, node)
  {
    if i < |es| {
      OpsPrefix(es[..|es| - 1], i, node);
      assert es[..|es| - 1][..i] == es[..i];
    } else {
      assert es[..i] == es;
    }
  }

  /** An event's operation is the last one of its node. */
  lemma LastOp(es: seq<Event>, j: nat)
    requires j < |es|
    ensures var node, ops := es[j].node, OpsOf(es[..j + 1], es[j].node);
      && ops != [] && ops[..|ops| - 1] == OpsOf(es[..j], node) && Stamp(es, j) == Clock(ops)
      && ops[|ops| - 1] == match es[j]
                           case Send(_) => Next
                           case Receive(_, from) => Observe(if from < j then Stamp(es, from) else 0)
  {
    var all := es[..j + 1];
    assert all[..j] == es[..j] && all[j] == es[j];
    hide Clock;
    if es[j].Receive? && es[j].from < j {
      assert es[..j][..es[j].from + 1] == es[..es[j].from + 1];
    }
  }

  /** A reader's clock passes the stamp it reads. */
  lemma ReadRises(es: seq<Event>, i: nat, j: nat)
    requires i < j < |es| && es[j] == Receive(es[j].node, i) && Stamp(es, i) <= CEIL
    ensures Stamp(es, i) < Stamp(es, j)
  {
    LastOp(es, j);
    hide OpsOf, Stamp;
    ObservedPasses(Clock(OpsOf(es[..j], es[j].node)), Stamp(es, i));
  }

  /** A node's own clock only rises. */
  lemma SameNodeRises(es: seq<Event>, i: nat, j: nat)
    requires i < j < |es| && es[i].node == es[j].node
    ensures Stamp(es, i) < Stamp(es, j)
  {
    var node, now := es[j].node, OpsOf(es[..j + 1], es[j].node);
    var before := OpsOf(es[..i + 1], node);
    LastOp(es, j);
    LastOp(es, i);
    assert es[..j][..i + 1] == es[..i + 1];
    OpsPrefix(es[..j], i + 1, node);
    hide OpsOf, Clock, Stamp;
    assert before == now[..|before|] && |before| < |now|;
    ClockBounds(now, |before|);
  }

  lemma FollowsRises(es: seq<Event>, i: nat, j: nat)
    requires Follows(es, i, j) && Stamp(es, i) <= CEIL
    ensures Stamp(es, i) < Stamp(es, j)
  {
    hide Stamp;
    if es[i].node == es[j].node {
      SameNodeRises(es, i, j);
    } else {
      ReadRises(es, i, j);
    }
  }

  /** While stamps stay within 2^53, a causally later event has a strictly larger stamp. */
  lemma {:induction false} CausalityRises(es: seq<Event>, path: seq<nat>)
    requires Path(es, path) && |path| >= 2
    requires forall i: nat :: i < |es| ==> Stamp(es, i) <= CEIL
    ensures path[|path| - 1] < |es| && Stamp(es, path[0]) < Stamp(es, path[|path| - 1])
  {
    var n := |path|;
    assert Follows(es, path[n - 2], path[n - 1]);
    FollowsRises(es, path[n - 2], path[n - 1]);
    if n > 2 {
      var init := path[..n - 1];
      forall x | 0 <= x < |init| - 1
        ensures Follows(es, init[x], init[x + 1])
      {
        assert Follows(es, path[x], path[x + 1]);
      }
      CausalityRises(es, init);
    }
  }

  /** Beyond the ceiling a reader's answer can carry a smaller stamp than the message it answers. */
  lemma CeilingBreaksOrder()
    ensures Clock([Observe(CEIL + 3), Next]) == CEIL + 2
  {
    assert [Observe(CEIL + 3), Next][..1][..0] == [];
    assert Clock([Observe(CEIL + 3)]) == CEIL + 1 by {
      assert [Observe(CEIL + 3)][..0] == [];
    }
    assert [Observe(CEIL + 3), Next][..1] == [Observe(CEIL + 3)];
  }
}
