// The generated file as a tree of declarations, in place of the text the
// jennifer builder would print.

module Ast {

  /** A qualified identifier: an import path and a name in that package. */
  datatype QualIdent = QualIdent(path: string, ident: string)

  /** A function type literal, func(params...) result. */
  datatype FuncType = FuncType(params: seq<string>, result: string)

  /** One entry of a parameter or result list; `name` may be empty. */
  datatype Field = Field(name: string, ty: string)

  datatype Receiver = Receiver(name: string, ty: string)

  datatype Stmt =
      /** ret := _m.Called(args...) */
    | RecordCall(args: seq<string>)
      /** var name ty */
    | VarDecl(name: string, ty: string)
      /** if rf, ok := ret.Get(index).(funcType); ok { target = rf(args...) } else { fallback } */
    | OverrideIf(index: nat, funcType: FuncType, target: string, args: seq<string>, fallback: Stmt)
      /** target = ret.Error(index) */
    | ErrorExtract(target: string, index: nat)
      /** if ret.Get(index) != nil { target = ret.Get(index).(ty) } */
    | GuardedExtract(target: string, index: nat, ty: string)
      /** target = ret.Get(index).(ty) */
    | UnguardedExtract(target: string, index: nat, ty: string)
      /** return names... */
    | Return(names: seq<string>)

  predicate IsExtraction(s: Stmt)
  {
    s.ErrorExtract? || s.GuardedExtract? || s.UnguardedExtract?
  }

  datatype Decl =
      /** doc comment, then: type name struct { embeds... } */
    | TypeDecl(doc: string, name: string, embeds: seq<QualIdent>)
      /** doc comment, then: func (recv) name(params) (results) { body } */
    | MethodDecl(doc: string, recv: Receiver, name: string,
                 params: seq<Field>, results: seq<Field>, body: seq<Stmt>)

  /** The provenance comment put on top of the file. */
  datatype Provenance = Provenance(repoURL: string, version: string)

  /** A Go file of the target package holding the declarations in order. */
  datatype Unit = Unit(packagePath: string, provenance: Provenance, decls: seq<Decl>)

  datatype GeneratedFile = GeneratedFile(path: string, content: Unit)

  datatype GenerateResult = GenerateResult(files: seq<GeneratedFile>)
}
