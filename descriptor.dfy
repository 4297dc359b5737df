// The input of the generator: an interface as the parser (go-astra) hands it
// over, and the collaborators from the gen package whose code is not part of
// this model. They are carried as function values and never defined here.

module Descriptor {

  datatype ChanDir = BothWays | SendOnly | ReceiveOnly

  /** The shape of a Go type, as far as the descriptor records it. */
  datatype Type =
    | Named(definingPackage: string, ident: string)
    | Pointer(inner: Type)
    | Slice(inner: Type)
    | Array(length: nat, inner: Type)
    | Map(key: Type, value: Type)
    | Chan(dir: ChanDir, inner: Type)
    | Func(params: seq<Type>, results: seq<Type>)
    | InterfaceType
    | Variadic(inner: Type)
    | Builtin(ident: string)

  /** One argument or result of a method; the name may be empty. */
  datatype Variable = Variable(name: string, ty: Type)

  /** One method of the interface, arguments and results in declaration order. */
  datatype Function = Function(name: string, args: seq<Variable>, results: seq<Variable>)

  datatype Interface = Interface(name: string, methods: seq<Function>)

  /** The functions of the gen and strcase packages that the generator calls:
      pkg.IsErrorType, pkg.IsNillableType, pkg.TypeQual(source, target, t)
      and strcase.ToSnake. A rendered type is the text of a type reference. */
  datatype Collaborators = Collaborators(
    isErrorType: Type -> bool,
    isNillableType: Type -> bool,
    typeQual: (string, string, Type) -> string,
    toSnake: string -> string)
}
