// The mock generator of generator/mock.go: from an interface descriptor and
// the generator's parameters it builds one file holding a struct that embeds
// testify's mock.Mock and one method per interface method.
//
// The functions below state what the generated declarations are; the methods
// GenerateMethod and Generate build them the way the source does, with loops
// that append to sequences, and are proved to produce exactly those values.

module Mock {
  import opened Fmt
  import opened Descriptor
  import opened Ast

  const PluginRepoURL: string := "github.com/cv21/gen-generator-mock"
  const PluginVersion: string := "1.0.0"
  const MockPackage: string := "github.com/stretchr/testify/mock"
  const DefaultMockStructNameTemplate: string := "%sMock"
  const ReceiverName: string := "_m"
  const CallRecordName: string := "ret"

  /** The generator's own parameters, after decoding. */
  datatype GeneratorParams = GeneratorParams(
    interfaceName: string,
    outPathTemplate: string,
    sourcePackagePath: string,
    targetPackagePath: string,
    mockStructNameTemplate: string)

  datatype Result<T> = Ok(value: T) | Err(message: string)

  /** Both templates take exactly one "%s"; an empty struct-name template
      stands for the default. */
  predicate ValidTemplates(p: GeneratorParams)
  {
    && SingleVerb(p.outPathTemplate)
    && (p.mockStructNameTemplate == "" || SingleVerb(p.mockStructNameTemplate))
  }

  // ---------------------------------------------------------------------
  // Naming

  function BuildMockStructName(template: string, interfaceName: string): (name: string)
    requires template == "" || SingleVerb(template)
    ensures template == "" ==> name == interfaceName + "Mock"
    ensures template != "" ==>
      name == template[..VerbIndex(template)] + interfaceName + template[VerbIndex(template) + 2..]
  {
    var t := if template == "" then DefaultMockStructNameTemplate else template;
    assert template == "" ==> t == "" + "%s" + "Mock";
    SprintfSplice("", "Mock", interfaceName);
    Sprintf(t, interfaceName)
  }

  /** Where the generated file goes: the template applied to the
      snake-cased interface name. */
  function OutPath(c: Collaborators, p: GeneratorParams, interfaceName: string): string
    requires SingleVerb(p.outPathTemplate)
  {
    Sprintf(p.outPathTemplate, c.toSnake(interfaceName))
  }

  /** The rendering of a type: forwards the two package paths to pkg.TypeQual. */
  function TypeQual(c: Collaborators, p: GeneratorParams, t: Type): string
  {
    c.typeQual(p.sourcePackagePath, p.targetPackagePath, t)
  }

  /** The name of the variable that holds result i: fmt.Sprintf("r%d", i). */
  function ResultVarName(i: nat): string
  {
    "r" + Decimal(i)
  }

  function ResultVarNames(n: nat): seq<string>
  {
    seq(n, i requires 0 <= i < n => ResultVarName(i))
  }

  // ---------------------------------------------------------------------
  // Signature pieces

  /** A parameter or result list: each variable's name with its rendered type. */
  function Fields(c: Collaborators, p: GeneratorParams, vars: seq<Variable>): seq<Field>
  {
    seq(|vars|, i requires 0 <= i < |vars| => Field(vars[i].name, TypeQual(c, p, vars[i].ty)))
  }

  /** The argument names, as passed on to _m.Called and to rf. */
  function ArgNames(args: seq<Variable>): seq<string>
  {
    seq(|args|, i requires 0 <= i < |args| => args[i].name)
  }

  /** The rendered argument types, the parameters of the override's func type. */
  function ArgTypes(c: Collaborators, p: GeneratorParams, args: seq<Variable>): seq<string>
  {
    seq(|args|, i requires 0 <= i < |args| => TypeQual(c, p, args[i].ty))
  }

  // ---------------------------------------------------------------------
  // Method bodies

  /** The else branch for result i of type t: an error type is read with
      ret.Error, a nillable type with a nil-guarded assertion, any other type
      with a plain assertion. The error test comes first. */
  function Extraction(c: Collaborators, p: GeneratorParams, i: nat, t: Type): (s: Stmt)
    ensures IsExtraction(s) && s.target == ResultVarName(i) && s.index == i
    ensures s.ErrorExtract? <==> c.isErrorType(t)
    ensures s.GuardedExtract? <==> !c.isErrorType(t) && c.isNillableType(t)
    ensures !s.ErrorExtract? ==> s.ty == TypeQual(c, p, t)
  {
    var name := ResultVarName(i);
    if c.isErrorType(t) then ErrorExtract(name, i)
    else if c.isNillableType(t) then GuardedExtract(name, i, TypeQual(c, p, t))
    else UnguardedExtract(name, i, TypeQual(c, p, t))
  }

  /** The two statements emitted for result i: the variable, then the
      function-override test whose else branch is the extraction. */
  function ResultBlock(c: Collaborators, p: GeneratorParams, args: seq<Variable>, i: nat, r: Variable): seq<Stmt>
  {
    var name := ResultVarName(i);
    var ty := TypeQual(c, p, r.ty);
    [ VarDecl(name, ty),
      OverrideIf(i, FuncType(ArgTypes(c, p, args), ty), name, ArgNames(args), Extraction(c, p, i, r.ty)) ]
  }

  /** The result blocks of all results, in order. */
  function ResultBlocks(c: Collaborators, p: GeneratorParams, args: seq<Variable>, results: seq<Variable>): seq<Stmt>
    decreases |results|
  {
    if results == [] then []
    else
      var n := |results| - 1;
      ResultBlocks(c, p, args, results[..n]) + ResultBlock(c, p, args, n, results[n])
  }

  function MethodBody(c: Collaborators, p: GeneratorParams, args: seq<Variable>, results: seq<Variable>): seq<Stmt>
  {
    [RecordCall(ArgNames(args))]
      + ResultBlocks(c, p, args, results)
      + [Return(ResultVarNames(|results|))]
  }

  // ---------------------------------------------------------------------
  // Declarations

  function TypeDoc(mockStructName: string, interfaceName: string): string
  {
    mockStructName + " is an autogenerated mock type for the " + interfaceName + " interface."
  }

  function MethodDoc(methodName: string, interfaceName: string): string
  {
    methodName + " provides a mock function for method " + methodName + " of interface " + interfaceName + "."
  }

  /** generateType: the struct that embeds mock.Mock. */
  function GenerateType(mockStructName: string, interfaceName: string): Decl
  {
    TypeDecl(TypeDoc(mockStructName, interfaceName), mockStructName, [QualIdent(MockPackage, "Mock")])
  }

  /** What generateMethod emits for method m. */
  function MethodDeclFor(c: Collaborators, p: GeneratorParams, interfaceName: string,
                         mockStructName: string, m: Function): Decl
  {
    MethodDecl(MethodDoc(m.name, interfaceName),
               Receiver(ReceiverName, "*" + mockStructName),
               m.name,
               Fields(c, p, m.args),
               Fields(c, p, m.results),
               MethodBody(c, p, m.args, m.results))
  }

  function MethodDecls(c: Collaborators, p: GeneratorParams, interfaceName: string,
                       mockStructName: string, methods: seq<Function>): seq<Decl>
  {
    seq(|methods|, i requires 0 <= i < |methods| => MethodDeclFor(c, p, interfaceName, mockStructName, methods[i]))
  }

  /** The generated file's declarations: the type, then one method per
      interface method. */
  function MockUnit(c: Collaborators, p: GeneratorParams, iface: Interface): Unit
    requires ValidTemplates(p)
  {
    var name := BuildMockStructName(p.mockStructNameTemplate, iface.name);
    Unit(p.targetPackagePath,
         Provenance(PluginRepoURL, PluginVersion),
         [GenerateType(name, iface.name)] + MethodDecls(c, p, iface.name, name, iface.methods))
  }

  /** What Generate returns for decoded parameters. */
  function GenerateResultFor(c: Collaborators, p: GeneratorParams, iface: Interface): GenerateResult
    requires ValidTemplates(p)
  {
    GenerateResult([GeneratedFile(OutPath(c, p, iface.name), MockUnit(c, p, iface))])
  }

  // ---------------------------------------------------------------------
  // The builders, loop by loop as in the source

  /** The loop that adds one `name type` entry per variable to a Group. */
  method RenderFields(c: Collaborators, p: GeneratorParams, vars: seq<Variable>) returns (fields: seq<Field>)
    ensures fields == Fields(c, p, vars)
  {
    fields := [];
    for k := 0 to |vars|
      invariant |fields| == k
      invariant forall j :: 0 <= j < k ==> fields[j] == Field(vars[j].name, TypeQual(c, p, vars[j].ty))
    {
      fields := fields + [Field(vars[k].name, TypeQual(c, p, vars[k].ty))];
    }
  }

  /** The loop that lists the argument names (for _m.Called and for rf). */
  method CollectArgNames(args: seq<Variable>) returns (names: seq<string>)
    ensures names == ArgNames(args)
  {
    names := [];
    for k := 0 to |args|
      invariant |names| == k
      invariant forall j :: 0 <= j < k ==> names[j] == args[j].name
    {
      names := names + [args[k].name];
    }
  }

  /** The loop that lists the rendered argument types of the override's func type. */
  method RenderArgTypes(c: Collaborators, p: GeneratorParams, args: seq<Variable>) returns (types: seq<string>)
    ensures types == ArgTypes(c, p, args)
  {
    types := [];
    for k := 0 to |args|
      invariant |types| == k
      invariant forall j :: 0 <= j < k ==> types[j] == TypeQual(c, p, args[j].ty)
    {
      types := types + [TypeQual(c, p, args[k].ty)];
    }
  }

  /** generateMethod: signature, then the body built statement by statement,
      collecting the names r0, r1, ... for the final return. */
  method GenerateMethod(c: Collaborators, p: GeneratorParams, interfaceName: string,
                        mockStructName: string, m: Function) returns (d: Decl)
    ensures d == MethodDeclFor(c, p, interfaceName, mockStructName, m)
  {
    var params := RenderFields(c, p, m.args);
    var results := RenderFields(c, p, m.results);
    var callArgs := CollectArgNames(m.args);
    var body := [RecordCall(callArgs)];
    var retNames: seq<string> := [];
    for i := 0 to |m.results|
      invariant body == [RecordCall(ArgNames(m.args))] + ResultBlocks(c, p, m.args, m.results[..i])
      invariant retNames == ResultVarNames(i)
    {
      var r := m.results[i];
      var name := ResultVarName(i);
      retNames := retNames + [name];
      var ty := TypeQual(c, p, r.ty);
      var argTypes := RenderArgTypes(c, p, m.args);
      var rfArgs := CollectArgNames(m.args);
      var fallback: Stmt;
      if c.isErrorType(r.ty) {
        fallback := ErrorExtract(name, i);
      } else if c.isNillableType(r.ty) {
        fallback := GuardedExtract(name, i, ty);
      } else {
        fallback := UnguardedExtract(name, i, ty);
      }
      assert fallback == Extraction(c, p, i, r.ty);
      var block := [VarDecl(name, ty), OverrideIf(i, FuncType(argTypes, ty), name, rfArgs, fallback)];
      assert block == ResultBlock(c, p, m.args, i, r);
      body := body + block;
      assert m.results[..i + 1][..i] == m.results[..i];
      assert ResultVarNames(i + 1) == ResultVarNames(i) + [name];
    }
    assert m.results[..|m.results|] == m.results;
    body := body + [Return(retNames)];
    d := MethodDecl(MethodDoc(m.name, interfaceName), Receiver(ReceiverName, "*" + mockStructName),
                    m.name, params, results, body);
  }

  /** Generate: a decoding failure is returned as it is and produces no
      file; otherwise the type and then each method are added to the file in
      turn, and the one file is returned under its path. */
  method Generate(c: Collaborators, decoded: Result<GeneratorParams>, iface: Interface)
    returns (r: Result<GenerateResult>)
    requires decoded.Ok? ==> ValidTemplates(decoded.value)
    ensures decoded.Err? ==> r == Err(decoded.message)
    ensures decoded.Ok? ==> r == Ok(GenerateResultFor(c, decoded.value, iface))
  {
    if decoded.Err? {
      return Err(decoded.message);
    }
    var p := decoded.value;
    var mockStructName := BuildMockStructName(p.mockStructNameTemplate, iface.name);
    var decls := [GenerateType(mockStructName, iface.name)];
    for i := 0 to |iface.methods|
      invariant |decls| == i + 1 && decls[0] == GenerateType(mockStructName, iface.name)
      invariant forall j :: 0 <= j < i ==>
        decls[j + 1] == MethodDeclFor(c, p, iface.name, mockStructName, iface.methods[j])
    {
      var d := GenerateMethod(c, p, iface.name, mockStructName, iface.methods[i]);
      decls := decls + [d];
    }
    var unit := Unit(p.targetPackagePath, Provenance(PluginRepoURL, PluginVersion), decls);
    assert unit == MockUnit(c, p, iface);
    r := Ok(GenerateResult([GeneratedFile(Sprintf(p.outPathTemplate, c.toSnake(iface.name)), unit)]));
  }
}
