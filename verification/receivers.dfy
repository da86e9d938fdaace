/**
 * Syntax receivers: objects the compiler shows every syntax node to, in
 * visit order, before generation runs.  The avatar receiver collects
 * invocations of generic methods; the aggregate receiver forwards each node
 * to the receivers it wraps.
 */
module Receivers {
  import opened Wrappers

  /** A simple name: `Method<T, ...>` or a plain identifier. */
  datatype SimpleName = GenericName(identifier: string, typeArguments: seq<string>) | IdentifierName(identifier: string)

  /** The callee expression of an invocation. */
  datatype Expression =
    | NameExpression(name: SimpleName)
    | MemberAccess(target: string, name: SimpleName)
    | OtherExpression

  /** A syntax node, as far as the receivers look at it. */
  datatype SyntaxNode = InvocationExpression(id: nat, expression: Expression) | OtherNode(id: nat)

  /** An entry of the avatar receiver's `Invocations` list. */
  datatype RecordedInvocation = RecordedInvocation(invocation: SyntaxNode, genericName: SimpleName)

  /** What the avatar receiver records for one node, if anything. */
  function Record(node: SyntaxNode): (r: Option<RecordedInvocation>)
    ensures r.Some? <==>
      node.InvocationExpression? &&
      (|| (node.expression.MemberAccess? && node.expression.name.GenericName?)
       || (node.expression.NameExpression? && node.expression.name.GenericName?))
    ensures r.Some? ==>
      r.value.invocation == node && r.value.genericName.GenericName? && r.value.genericName == node.expression.name
  {
    match node
    case InvocationExpression(_, MemberAccess(_, GenericName(id, args))) =>
      Some(RecordedInvocation(node, GenericName(id, args)))
    case InvocationExpression(_, NameExpression(GenericName(id, args))) =>
      Some(RecordedInvocation(node, GenericName(id, args)))
    case _ => None
  }

  /** The avatar receiver's list after it has been shown `nodes`, in order. */
  function Collected(nodes: seq<SyntaxNode>): seq<RecordedInvocation>
  {
    if nodes == [] then []
    else
      Collected(nodes[..|nodes| - 1]) +
      (match Record(nodes[|nodes| - 1]) case Some(r) => [r] case None => [])
  }

  /** Showing nodes in two stretches collects the first stretch's invocations, then the second's. */
  lemma {:induction false} CollectedConcat(a: seq<SyntaxNode>, b: seq<SyntaxNode>)
    ensures Collected(a + b) == Collected(a) + Collected(b)
    decreases |b|
  {
    if b != [] {
      var b' := b[..|b| - 1];
      assert (a + b)[..|a + b| - 1] == a + b';
      assert (a + b)[|a + b| - 1] == b[|b| - 1];
      CollectedConcat(a, b');
    } else {
      assert a + b == a;
    }
  }

  /** Exactly the generic invocations among the nodes are collected, and nothing else. */
  lemma {:induction false} CollectedExactly(nodes: seq<SyntaxNode>, x: RecordedInvocation)
    ensures x in Collected(nodes) <==> exists i :: 0 <= i < |nodes| && Record(nodes[i]) == Some(x)
  {
    if nodes != [] {
      var init := nodes[..|nodes| - 1];
      CollectedExactly(init, x);
      assert forall i :: 0 <= i < |init| ==> init[i] == nodes[i];
      if x in Collected(init) {
        var i :| 0 <= i < |init| && Record(init[i]) == Some(x);
        assert Record(nodes[i]) == Some(x);
      }
    }
  }

  /** A factory registered by an embedding generator; its receivers' logic is not part of this model. */
  datatype ReceiverFactory = ReceiverFactory(id: nat)

  /** The kinds of receiver: the avatar receiver, or one made by a registered factory. */
  datatype ReceiverKind = AvatarGeneratorReceiver | FactoryReceiver(factory: ReceiverFactory)

  /**
   * A record of every delivery to the receivers that share it: which
   * receiver (by id) was shown which node, in the order the deliveries
   * happened.
   */
  class Journal {
    ghost var entries: seq<(nat, SyntaxNode)>

    constructor ()
      ensures entries == []
    {
      entries := [];
    }
  }

  class SyntaxReceiver {
    const kind: ReceiverKind
    /** Tells this receiver's deliveries apart in the shared journal. */
    const id: nat
    const journal: Journal
    /** The avatar receiver's `Invocations` list (stays empty for other kinds). */
    var invocations: seq<RecordedInvocation>
    /** The nodes this receiver has been shown, in order. */
    ghost var shown: seq<SyntaxNode>

    ghost predicate Valid()
      reads this
    {
      invocations == if kind.AvatarGeneratorReceiver? then Collected(shown) else []
    }

    constructor (kind: ReceiverKind, id: nat, journal: Journal)
      ensures this.kind == kind && this.id == id && this.journal == journal
      ensures Valid() && shown == [] && invocations == []
    {
      this.kind := kind;
      this.id := id;
      this.journal := journal;
      invocations := [];
      shown := [];
    }

    /** Record an invocation whose callee is a generic name, directly or as a member access's name. */
    method OnVisitSyntaxNode(node: SyntaxNode)
      requires Valid()
      modifies this, journal
      ensures Valid() && shown == old(shown) + [node]
      ensures journal.entries == old(journal.entries) + [(id, node)]
      ensures kind.AvatarGeneratorReceiver? ==>
        invocations == old(invocations) + (if Record(node).Some? then [Record(node).value] else [])
    {
      shown := shown + [node];
      journal.entries := journal.entries + [(id, node)];
      if kind.AvatarGeneratorReceiver? {
        if node.InvocationExpression? {
          if node.expression.MemberAccess? && node.expression.name.GenericName? {
            invocations := invocations + [RecordedInvocation(node, node.expression.name)];
          } else if node.expression.NameExpression? && node.expression.name.GenericName? {
            invocations := invocations + [RecordedInvocation(node, node.expression.name)];
          }
        }
      }
    }
  }

  /** Do the receivers carry pairwise distinct ids (and so are distinct objects)? */
  ghost predicate DistinctIds(rs: seq<SyntaxReceiver>)
  {
    forall i, j :: 0 <= i < j < |rs| ==> rs[i].id != rs[j].id
  }

  /** The journal entries of showing `node` to each receiver in turn. */
  function Deliveries(rs: seq<SyntaxReceiver>, node: SyntaxNode): (r: seq<(nat, SyntaxNode)>)
    ensures |r| == |rs| && forall i :: 0 <= i < |rs| ==> r[i] == (rs[i].id, node)
  {
    seq(|rs|, i requires 0 <= i < |rs| => (rs[i].id, node))
  }

  class AggregateSyntaxReceiver {
    const receivers: seq<SyntaxReceiver>
    /** The journal all wrapped receivers write to. */
    const journal: Journal

    ghost predicate Valid()
      reads this, receivers
    {
      && DistinctIds(receivers)
      && forall i :: 0 <= i < |receivers| ==> receivers[i].journal == journal && receivers[i].Valid()
    }

    constructor (receivers: seq<SyntaxReceiver>, journal: Journal)
      requires DistinctIds(receivers)
      requires forall i :: 0 <= i < |receivers| ==> receivers[i].journal == journal && receivers[i].Valid()
      ensures Valid()
      ensures this.receivers == receivers && this.journal == journal
    {
      this.receivers := receivers;
      this.journal := journal;
    }

    /** Show the node to every wrapped receiver, in array order. */
    method OnVisitSyntaxNode(node: SyntaxNode)
      requires Valid()
      modifies receivers, journal
      ensures Valid()
      ensures forall i :: 0 <= i < |receivers| ==> receivers[i].shown == old(receivers[i].shown) + [node]
      ensures journal.entries == old(journal.entries) + Deliveries(receivers, node)
    {
      var k := 0;
      while k < |receivers|
        invariant 0 <= k <= |receivers|
        invariant Valid()
        invariant forall i :: 0 <= i < k ==> receivers[i].shown == old(receivers[i].shown) + [node]
        invariant forall i :: k <= i < |receivers| ==> receivers[i].shown == old(receivers[i].shown)
        invariant journal.entries == old(journal.entries) + Deliveries(receivers[..k], node)
      {
        receivers[k].OnVisitSyntaxNode(node);
        assert Deliveries(receivers[..k + 1], node) == Deliveries(receivers[..k], node) + [(receivers[k].id, node)];
        k := k + 1;
      }
      assert receivers[..k] == receivers;
    }
  }
}
