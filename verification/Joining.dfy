/**
 The collectors and the trees of children. What joining finished children gives the collector is what the
 interleaving semantics lets their fan-out come to: its vector, or the error of the child that ends it.
 */
module Joining {
  import opened Options
  import opened Storage
  import opened Workflows
  import opened Keys
  import opened Accounts
  import opened Protocol
  import opened Replay
  import opened FanOut
  import opened FanOutReplay
  import opened Collectors

  /** Joining child `n`, which has ended, gives `j`. */
  ghost predicate JoinOf(op: Op, n: nat, x: Node, j: Joined)
    requires op.FanOut? && n < |op.kids|
  {
    if x.Done? then j == Joined(n, ResultOf(op, n, x)) else x.Panicked? && j == JoinError(PANICKED)
  }

  /** `order` is the order in which the children end, each of them once. */
  ghost predicate Permutes(order: seq<nat>, count: nat) {
    && |order| == count && (forall k :: 0 <= k < |order| ==> order[k] < count)
    && forall n: nat :: n < count ==> n in order
  }

  ghost predicate JoinsIn(op: Op, nodes: seq<Node>, order: seq<nat>, joined: seq<Joined>, upto: nat)
    requires op.FanOut? && |nodes| == |op.kids| && |order| == |joined| && upto <= |joined|
  {
    forall k :: 0 <= k < upto ==> order[k] < |nodes| && JoinOf(op, order[k], nodes[order[k]], joined[k])
  }

  /** The child whose join ends the fan-out is one that may end it, and the error is its own. */
  lemma StopIsBreak(b: Book, i: Id, op: Op, nodes: seq<Node>, n: nat, j: Joined)
    requires ForestOk(b, i, op, nodes) && n < |nodes| && JoinOf(op, n, nodes[n], j)
    ensures Stops(op.failFast, j) <==> Breaks(op, nodes[n])
    ensures Stops(op.failFast, j) ==> forall message :: Tells(j, message) <==> message == AbortError(nodes[n])
  {
    assert NodeOk(b, Child(i, op.key, n), op.kids[n], nodes[n]);
  }

  /**
   If the collector gives up, with the children that it has joined by then in whatever order, its error is
   that with which the fan-out may be aborted: the one of the first joined child that ends it.
   */
  lemma CollectorGivesUp(b: Book, i: Id, op: Op, nodes: seq<Node>, order: seq<nat>, joined: seq<Joined>, last: nat,
                         message: string)
    requires ForestOk(b, i, op, nodes) && |order| == |joined| && last < |joined|
    requires JoinsIn(op, nodes, order, joined, last + 1) && Stops(op.failFast, joined[last])
    requires forall m :: 0 <= m < last ==> !Stops(op.failFast, joined[m])
    requires GivesUpWith(joined, op.failFast, message)
    ensures Breaks(op, nodes[order[last]]) && message == AbortError(nodes[order[last]])
    ensures forall m :: 0 <= m < last ==> !Breaks(op, nodes[order[m]])
    ensures ChildsError(b, i, op, message)
  {
    StopIsBreak(b, i, op, nodes, order[last], joined[last]);
    forall m | 0 <= m < last ensures !Breaks(op, nodes[order[m]]) {
      StopIsBreak(b, i, op, nodes, order[m], joined[m]);
    }
    AbortsWithChildsError(b, i, op, nodes, order[last]);
  }

  /** Once all children have ended, the collector has a vector exactly if the fan-out may collect. */
  lemma CollectorAgrees(b: Book, i: Id, op: Op, nodes: seq<Node>, order: seq<nat>, joined: seq<Joined>)
    requires ForestOk(b, i, op, nodes) && Permutes(order, |nodes|) && |joined| == |nodes|
    requires JoinsIn(op, nodes, order, joined, |joined|)
    ensures (forall k :: 0 <= k < |joined| ==> !Stops(op.failFast, joined[k])) <==> CanCollect(op, nodes)
  {
    forall k | 0 <= k < |joined| ensures Stops(op.failFast, joined[k]) <==> Breaks(op, nodes[order[k]]) {
      StopIsBreak(b, i, op, nodes, order[k], joined[k]);
    }
    if forall k :: 0 <= k < |joined| ==> !Stops(op.failFast, joined[k]) {
      forall n: nat | n < |nodes| ensures nodes[n].Done? && !Breaks(op, nodes[n]) {
        assert n in order;
        var k :| 0 <= k < |order| && order[k] == n;
        assert JoinOf(op, order[k], nodes[order[k]], joined[k]);
      }
    } else {
      var k :| 0 <= k < |joined| && Stops(op.failFast, joined[k]);
      assert Breaks(op, nodes[order[k]]);
    }
  }
}
