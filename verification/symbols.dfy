/**
 * The part of a compiler type symbol that the generator inspects before it
 * accepts a generic invocation as an avatar candidate: the methods of the
 * type and the kind of each of their parameter types.
 */
module Symbols {
  import opened Wrappers

  /** The symbol kind of a parameter's type; only `PointerType` matters here. */
  datatype SymbolKind = PointerType | NamedType | ArrayType | TypeParameter | OtherKind

  datatype Parameter = Parameter(name: string, typeKind: SymbolKind)

  /** A member of a type: a method with its parameters, or any other member. */
  datatype Member = MethodMember(name: string, parameters: seq<Parameter>) | OtherMember(name: string)

  /** A named type symbol: its name and its members, in declaration order. */
  datatype TypeSymbol = TypeSymbol(name: string, members: seq<Member>)

  /** Does any of these parameters have a pointer type? */
  function AnyPointerParameter(ps: seq<Parameter>): (r: bool)
    ensures r <==> exists j :: 0 <= j < |ps| && ps[j].typeKind == PointerType
  {
    if ps == [] then false
    else ps[0].typeKind == PointerType || AnyPointerParameter(ps[1..])
  }

  /** A method member some parameter of which has a pointer type. */
  ghost predicate TakesPointer(m: Member)
  {
    m.MethodMember? && exists j :: 0 <= j < |m.parameters| && m.parameters[j].typeKind == PointerType
  }

  /** The methods' parameters, flattened, asked whether any is a pointer. */
  function UsesPointers(members: seq<Member>): (r: bool)
    ensures r <==> exists i :: 0 <= i < |members| && TakesPointer(members[i])
  {
    if members == [] then false
    else
      var rest := UsesPointers(members[1..]);
      assert forall i :: 1 <= i < |members| ==> members[i] == members[1..][i - 1];
      (members[0].MethodMember? && AnyPointerParameter(members[0].parameters)) || rest
  }

  /**
   * Whether an avatar can be generated for a type argument: not for an
   * unresolved (null) symbol, and not for a type one of whose methods takes a
   * pointer-typed parameter.
   */
  function CanGenerateFor(symbol: Option<TypeSymbol>): (ok: bool)
    ensures ok <==> symbol.Some? && forall m :: m in symbol.value.members ==> !TakesPointer(m)
  {
    match symbol
    case None => false
    case Some(t) => !UsesPointers(t.members)
  }
}
