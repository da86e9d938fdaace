/**
 * The Fixup-phase processor for C# that marks every class declaration of a
 * document with a `CompilerGenerated` attribute, so that generated members
 * of a partial class can be told apart from user-written ones.
 */
module CSharpGenerated {
  import opened Wrappers
  import opened Processors

  /** The processor applies to C# only. */
  const Languages: seq<Language> := [CSharp]

  /** The processor runs in the last phase. */
  const ProcessorPhase: Phase := Fixup

  /** The attribute name the processor adds and looks for. */
  const CompilerGenerated: string := "CompilerGenerated"

  datatype Attribute = Attribute(name: string)

  /**
   * A C# syntax tree: class declarations, with their attributes and member
   * declarations (nested classes among them), and every other kind of node
   * (namespace, method, property, ...) with its attributes and children.
   */
  datatype SyntaxTree =
    | ClassDeclaration(identifier: string, attributes: seq<Attribute>, members: seq<SyntaxTree>)
    | OtherNode(kind: string, attributes: seq<Attribute>, children: seq<SyntaxTree>)

  /** A document, whose syntax root may be unavailable. */
  datatype Document = Document(name: string, root: Option<SyntaxTree>)

  predicate HasCompilerGenerated(attributes: seq<Attribute>)
  {
    exists k :: 0 <= k < |attributes| && attributes[k].name == CompilerGenerated
  }

  /** How many of the attributes are named `CompilerGenerated`. */
  function CountCompilerGenerated(attributes: seq<Attribute>): nat
  {
    if attributes == [] then 0
    else (if attributes[0].name == CompilerGenerated then 1 else 0) + CountCompilerGenerated(attributes[1..])
  }

  lemma {:induction false} CountPositive(attributes: seq<Attribute>)
    ensures CountCompilerGenerated(attributes) > 0 <==> HasCompilerGenerated(attributes)
  {
    if attributes != [] {
      CountPositive(attributes[1..]);
      assert forall k :: 1 <= k < |attributes| ==> attributes[k] == attributes[1..][k - 1];
    }
  }

  lemma {:induction false} CountAppend(a: seq<Attribute>, b: seq<Attribute>)
    ensures CountCompilerGenerated(a + b) == CountCompilerGenerated(a) + CountCompilerGenerated(b)
  {
    if a == [] {
      assert a + b == b;
    } else {
      assert (a + b)[1..] == a[1..] + b;
      CountAppend(a[1..], b);
    }
  }

  /**
   * A class's attributes after the visit: an attribute list holding
   * `CompilerGenerated` is kept as it is, any other gets exactly one
   * `CompilerGenerated` appended after its existing attributes.
   */
  function Mark(attributes: seq<Attribute>): (r: seq<Attribute>)
    ensures HasCompilerGenerated(r)
    ensures HasCompilerGenerated(attributes) ==> r == attributes
    ensures |attributes| <= |r| <= |attributes| + 1 && r[..|attributes|] == attributes
    ensures CountCompilerGenerated(r) == if HasCompilerGenerated(attributes) then CountCompilerGenerated(attributes) else 1
  {
    CountPositive(attributes);
    if HasCompilerGenerated(attributes) then attributes
    else
      var added := [Attribute(CompilerGenerated)];
      CountAppend(attributes, added);
      assert CountCompilerGenerated(added) == 1;
      assert (attributes + added)[|attributes|].name == CompilerGenerated;
      attributes + added
  }

  /**
   * The rewriter's visit: every class declaration, at any depth, ends up
   * carrying `CompilerGenerated`, and nothing but class declarations'
   * attribute lists changes; the visited node's own list, when it is a
   * class, is its old list marked.
   */
  function Visit(node: SyntaxTree): (r: SyntaxTree)
    ensures AllClassesMarked(r)
    ensures Erase(r) == Erase(node)
    ensures node.ClassDeclaration? ==> r.ClassDeclaration? && r.attributes == Mark(node.attributes)
  {
    match node
    case ClassDeclaration(identifier, attributes, members) =>
      var vs := VisitAll(members);
      assert seq(|vs|, i requires 0 <= i < |vs| => Erase(vs[i])) == seq(|members|, i requires 0 <= i < |members| => Erase(members[i]));
      ClassDeclaration(identifier, Mark(attributes), vs)
    case OtherNode(kind, attributes, children) =>
      var vs := VisitAll(children);
      assert seq(|vs|, i requires 0 <= i < |vs| => Erase(vs[i])) == seq(|children|, i requires 0 <= i < |children| => Erase(children[i]));
      OtherNode(kind, attributes, vs)
  }

  /** Every class declaration in the tree, nested ones included, carries `CompilerGenerated`. */
  ghost predicate AllClassesMarked(node: SyntaxTree)
  {
    match node
    case ClassDeclaration(_, attributes, members) =>
      HasCompilerGenerated(attributes) && forall i :: 0 <= i < |members| ==> AllClassesMarked(members[i])
    case OtherNode(_, _, children) =>
      forall i :: 0 <= i < |children| ==> AllClassesMarked(children[i])
  }

  /** A tree whose classes all carry the attribute is left exactly as it is. */
  lemma {:induction false} VisitKeepsMarkedTree(node: SyntaxTree)
    requires AllClassesMarked(node)
    ensures Visit(node) == node
  {
    match node
    case ClassDeclaration(_, _, members) =>
      forall i | 0 <= i < |members| ensures Visit(members[i]) == members[i] {
        VisitKeepsMarkedTree(members[i]);
      }
    case OtherNode(_, _, children) =>
      forall i | 0 <= i < |children| ensures Visit(children[i]) == children[i] {
        VisitKeepsMarkedTree(children[i]);
      }
  }

  /** Visiting twice is the same as visiting once. */
  lemma VisitIdempotent(node: SyntaxTree)
    ensures Visit(Visit(node)) == Visit(node)
  {
    VisitKeepsMarkedTree(Visit(node));
  }

  /** The tree with every class declaration's attributes removed: everything the visit must not touch. */
  function Erase(node: SyntaxTree): SyntaxTree
  {
    match node
    case ClassDeclaration(identifier, _, members) =>
      ClassDeclaration(identifier, [], seq(|members|, i requires 0 <= i < |members| => Erase(members[i])))
    case OtherNode(kind, attributes, children) =>
      OtherNode(kind, attributes, seq(|children|, i requires 0 <= i < |children| => Erase(children[i])))
  }

  /** The attribute lists of the class declarations of a tree, in document order. */
  function ClassAttributes(node: SyntaxTree): seq<seq<Attribute>>
  {
    match node
    case ClassDeclaration(_, attributes, members) => [attributes] + ClassAttributesOf(members)
    case OtherNode(_, _, children) => ClassAttributesOf(children)
  }

  function ClassAttributesOf(nodes: seq<SyntaxTree>): seq<seq<Attribute>>
  {
    if nodes == [] then [] else ClassAttributes(nodes[0]) + ClassAttributesOf(nodes[1..])
  }

  /** Each list of attributes, marked. */
  function MarkAll(lists: seq<seq<Attribute>>): (r: seq<seq<Attribute>>)
    ensures |r| == |lists| && forall k :: 0 <= k < |lists| ==> r[k] == Mark(lists[k])
  {
    seq(|lists|, k requires 0 <= k < |lists| => Mark(lists[k]))
  }

  /** The class declarations' attribute lists after the visit are the marked lists from before, class for class. */
  lemma {:induction false} VisitMarksEachClassOnce(node: SyntaxTree)
    ensures ClassAttributes(Visit(node)) == MarkAll(ClassAttributes(node))
  {
    match node
    case ClassDeclaration(identifier, attributes, members) =>
      VisitMarksEachClassOnceOf(members);
    case OtherNode(kind, attributes, children) =>
      VisitMarksEachClassOnceOf(children);
  }

  lemma {:induction false} VisitMarksEachClassOnceOf(nodes: seq<SyntaxTree>)
    ensures ClassAttributesOf(VisitAll(nodes)) == MarkAll(ClassAttributesOf(nodes))
  {
    if nodes != [] {
      var visited := VisitAll(nodes);
      assert visited[0] == Visit(nodes[0]);
      assert visited[1..] == VisitAll(nodes[1..]);
      VisitMarksEachClassOnce(nodes[0]);
      VisitMarksEachClassOnceOf(nodes[1..]);
      MarkAllConcat(ClassAttributes(nodes[0]), ClassAttributesOf(nodes[1..]));
    }
  }

  function VisitAll(nodes: seq<SyntaxTree>): (r: seq<SyntaxTree>)
    ensures |r| == |nodes| && forall i :: 0 <= i < |nodes| ==> r[i] == Visit(nodes[i])
    ensures forall i :: 0 <= i < |nodes| ==> AllClassesMarked(r[i]) && Erase(r[i]) == Erase(nodes[i])
  {
    seq(|nodes|, i requires 0 <= i < |nodes| => Visit(nodes[i]))
  }

  lemma MarkAllConcat(a: seq<seq<Attribute>>, b: seq<seq<Attribute>>)
    ensures MarkAll(a + b) == MarkAll(a) + MarkAll(b)
  {
  }

  /**
   * The processor's transform of a document: a document without a syntax
   * root is returned as it is; otherwise its root is replaced by the visited
   * one, in which every class declaration carries `CompilerGenerated`,
   * nothing but class attribute lists has changed, and each class's list is
   * its old list, marked.
   */
  function ProcessAsync(document: Document): (r: Document)
    ensures r.name == document.name
    ensures document.root.None? ==> r == document
    ensures document.root.Some? ==> r.root.Some? && AllClassesMarked(r.root.value) && Erase(r.root.value) == Erase(document.root.value)
    ensures document.root.Some? ==> ClassAttributes(r.root.value) == MarkAll(ClassAttributes(document.root.value))
  {
    match document.root
    case None => document
    case Some(syntax) =>
      VisitMarksEachClassOnce(syntax);
      document.(root := Some(Visit(syntax)))
  }

  /** Processing a processed document changes nothing. */
  lemma ProcessAsyncIdempotent(document: Document)
    ensures ProcessAsync(ProcessAsync(document)) == ProcessAsync(document)
  {
    if document.root.Some? {
      VisitIdempotent(document.root.value);
    }
  }
}
