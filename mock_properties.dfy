// What the generated file promises, stated over the functions of module Mock:
// naming, the output path, declaration order, the shape of every method and
// of its body, the priority of the result classification, and when the
// identifiers the body declares can collide with the method's own names.

module MockProperties {
  import opened Fmt
  import opened Descriptor
  import opened Ast
  import opened Mock

  // ---------------------------------------------------------------------
  // Naming and the output path

  /** A custom struct-name template is applied to the interface name. */
  lemma CustomStructName(pre: string, post: string, interfaceName: string)
    requires '%' !in pre && '%' !in post
    ensures SingleVerb(pre + "%s" + post)
    ensures BuildMockStructName(pre + "%s" + post, interfaceName) == pre + interfaceName + post
  {
    SprintfSplice(pre, post, interfaceName);
  }

  lemma CustomStructNameExample()
    ensures SingleVerb("My" + "%s" + "Double")
    ensures BuildMockStructName("My" + "%s" + "Double", "Foo") == "My" + "Foo" + "Double"
  {
    CustomStructName("My", "Double", "Foo");
  }

  /** The output path is the output template with its verb replaced by the
      snake-cased interface name. */
  lemma OutPathSplice(c: Collaborators, p: GeneratorParams, interfaceName: string, pre: string, post: string)
    requires p.outPathTemplate == pre + "%s" + post && '%' !in pre && '%' !in post
    ensures SingleVerb(p.outPathTemplate)
    ensures OutPath(c, p, interfaceName) == pre + c.toSnake(interfaceName) + post
  {
    SprintfSplice(pre, post, c.toSnake(interfaceName));
  }

  /** Generate yields exactly one file, at the output path, whose content is
      the mock unit of the target package. */
  lemma OneOutputFile(c: Collaborators, p: GeneratorParams, iface: Interface)
    requires ValidTemplates(p)
    ensures |GenerateResultFor(c, p, iface).files| == 1
    ensures GenerateResultFor(c, p, iface).files[0].path == OutPath(c, p, iface.name)
    ensures GenerateResultFor(c, p, iface).files[0].content == MockUnit(c, p, iface)
    ensures MockUnit(c, p, iface).packagePath == p.targetPackagePath
  {
  }

  lemma OutputPathExample(c: Collaborators, p: GeneratorParams)
    requires p.outPathTemplate == "./generated/" + "%s" + "_mock.go"
    requires c.toSnake("StringService") == "string_service"
    ensures SingleVerb(p.outPathTemplate)
    ensures OutPath(c, p, "StringService") == "./generated/" + "string_service" + "_mock.go"
  {
    OutPathSplice(c, p, "StringService", "./generated/", "_mock.go");
  }

  /** The rendering of a type depends on the parameters only through the
      source and target package paths. */
  lemma TypeQualReadsOnlyPackagePaths(c: Collaborators, p1: GeneratorParams, p2: GeneratorParams, t: Type)
    requires p1.sourcePackagePath == p2.sourcePackagePath
    requires p1.targetPackagePath == p2.targetPackagePath
    ensures TypeQual(c, p1, t) == TypeQual(c, p2, t)
  {
  }

  // ---------------------------------------------------------------------
  // Declaration order

  /** The type declaration comes first: named by the struct-name template,
      embedding exactly mock.Mock. */
  lemma TypeDeclFirst(c: Collaborators, p: GeneratorParams, iface: Interface)
    requires ValidTemplates(p)
    ensures MockUnit(c, p, iface).decls[0].TypeDecl?
    ensures MockUnit(c, p, iface).decls[0].name == BuildMockStructName(p.mockStructNameTemplate, iface.name)
    ensures MockUnit(c, p, iface).decls[0].embeds == [QualIdent(MockPackage, "Mock")]
  {
  }

  /** After the type, one method declaration per interface method, in the
      interface's order, none dropped and none added. */
  lemma MethodsInOrder(c: Collaborators, p: GeneratorParams, iface: Interface)
    requires ValidTemplates(p)
    ensures |MockUnit(c, p, iface).decls| == |iface.methods| + 1
    ensures forall i :: 0 <= i < |iface.methods| ==>
      && MockUnit(c, p, iface).decls[i + 1]
         == MethodDeclFor(c, p, iface.name, BuildMockStructName(p.mockStructNameTemplate, iface.name), iface.methods[i])
      && MockUnit(c, p, iface).decls[i + 1].MethodDecl?
      && MockUnit(c, p, iface).decls[i + 1].name == iface.methods[i].name
  {
  }

  lemma NoMethodsOnlyType(c: Collaborators, p: GeneratorParams, iface: Interface)
    requires ValidTemplates(p) && iface.methods == []
    ensures MockUnit(c, p, iface).decls
         == [GenerateType(BuildMockStructName(p.mockStructNameTemplate, iface.name), iface.name)]
  {
  }

  // ---------------------------------------------------------------------
  // Method signatures

  /** The method has receiver `_m *<struct>`, the interface method's name,
      and parameter and result lists mirroring the descriptor in order. */
  lemma MethodSignature(c: Collaborators, p: GeneratorParams, interfaceName: string,
                        mockStructName: string, m: Function)
    ensures var d := MethodDeclFor(c, p, interfaceName, mockStructName, m);
      && d.MethodDecl?
      && d.recv == Receiver("_m", "*" + mockStructName)
      && d.name == m.name
      && |d.params| == |m.args|
      && (forall i :: 0 <= i < |m.args| ==> d.params[i] == Field(m.args[i].name, TypeQual(c, p, m.args[i].ty)))
      && |d.results| == |m.results|
      && (forall i :: 0 <= i < |m.results| ==> d.results[i] == Field(m.results[i].name, TypeQual(c, p, m.results[i].ty)))
  {
  }

  // ---------------------------------------------------------------------
  // Method bodies

  /** Result k contributes `var rk T` at position 2k and the override test,
      whose else branch is the classified extraction, at position 2k + 1. */
  lemma {:induction false} ResultBlocksAt(c: Collaborators, p: GeneratorParams, args: seq<Variable>, results: seq<Variable>)
    ensures var rb := ResultBlocks(c, p, args, results);
      && |rb| == 2 * |results|
      && forall k :: 0 <= k < |results| ==>
           && rb[2 * k] == VarDecl(ResultVarName(k), TypeQual(c, p, results[k].ty))
           && rb[2 * k + 1] == OverrideIf(k, FuncType(ArgTypes(c, p, args), TypeQual(c, p, results[k].ty)),
                                          ResultVarName(k), ArgNames(args), Extraction(c, p, k, results[k].ty))
    decreases |results|
  {
    if results != [] {
      var n := |results| - 1;
      ResultBlocksAt(c, p, args, results[..n]);
      assert forall k :: 0 <= k < n ==> results[..n][k] == results[k];
    }
  }

  /** The body has two statements per result between the call record and
      the return. The call is recorded first, with exactly the argument names;
      nothing after it records the call again, and no extraction stands
      outside an override's else branch. */
  lemma BodyRecordsCallFirst(c: Collaborators, p: GeneratorParams, interfaceName: string,
                             mockStructName: string, m: Function)
    ensures var body := MethodDeclFor(c, p, interfaceName, mockStructName, m).body;
      && |body| == 2 * |m.results| + 2
      && body[0] == RecordCall(ArgNames(m.args))
      && body[|body| - 1] == Return(ResultVarNames(|m.results|))
      && forall j :: 1 <= j < |body| ==> !body[j].RecordCall? && !IsExtraction(body[j])
  {
    var rb := ResultBlocks(c, p, m.args, m.results);
    var body := [RecordCall(ArgNames(m.args))] + rb + [Return(ResultVarNames(|m.results|))];
    assert MethodDeclFor(c, p, interfaceName, mockStructName, m).body == body;
    ResultBlocksAt(c, p, m.args, m.results);
    ResultBlocksNoCallNoExtraction(c, p, m.args, m.results);
    forall j | 1 <= j < |body| ensures !body[j].RecordCall? && !IsExtraction(body[j]) {
      if j < |body| - 1 {
        assert body[j] == rb[j - 1];
      }
    }
  }

  /** Per result k, in order: `var rk T`, then the override test against
      func(argTypes...) T calling rf with the argument names, whose else
      branch is the classified extraction. */
  lemma BodyResultSlots(c: Collaborators, p: GeneratorParams, interfaceName: string,
                        mockStructName: string, m: Function, k: nat)
    requires k < |m.results|
    ensures var body := MethodDeclFor(c, p, interfaceName, mockStructName, m).body;
      var ty := TypeQual(c, p, m.results[k].ty);
      && 2 * k + 2 < |body|
      && body[2 * k + 1] == VarDecl(ResultVarName(k), ty)
      && body[2 * k + 2] == OverrideIf(k, FuncType(ArgTypes(c, p, m.args), ty), ResultVarName(k),
                                       ArgNames(m.args), Extraction(c, p, k, m.results[k].ty))
  {
    var rb := ResultBlocks(c, p, m.args, m.results);
    var body := [RecordCall(ArgNames(m.args))] + rb + [Return(ResultVarNames(|m.results|))];
    assert MethodDeclFor(c, p, interfaceName, mockStructName, m).body == body;
    ResultBlocksAt(c, p, m.args, m.results);
    assert body[2 * k + 1] == rb[2 * k] && body[2 * k + 2] == rb[2 * k + 1];
  }

  /** Result blocks hold only variable declarations and override tests. */
  lemma {:induction false} ResultBlocksNoCallNoExtraction(c: Collaborators, p: GeneratorParams, args: seq<Variable>, results: seq<Variable>)
    ensures forall j :: 0 <= j < |ResultBlocks(c, p, args, results)| ==>
      ResultBlocks(c, p, args, results)[j].VarDecl? || ResultBlocks(c, p, args, results)[j].OverrideIf?
    decreases |results|
  {
    if results != [] {
      var n := |results| - 1;
      ResultBlocksNoCallNoExtraction(c, p, args, results[..n]);
    }
  }

  /** The extractions of a statement list, in order: extraction statements
      themselves and the else branches of override tests. */
  function ExtractionsOf(stmts: seq<Stmt>): seq<Stmt>
    decreases |stmts|
  {
    if stmts == [] then []
    else
      var last := stmts[|stmts| - 1];
      ExtractionsOf(stmts[..|stmts| - 1])
        + (if IsExtraction(last) then [last]
           else if last.OverrideIf? && IsExtraction(last.fallback) then [last.fallback]
           else [])
  }

  lemma {:induction false} ExtractionsOfConcat(a: seq<Stmt>, b: seq<Stmt>)
    ensures ExtractionsOf(a + b) == ExtractionsOf(a) + ExtractionsOf(b)
    decreases |b|
  {
    if b != [] {
      var n := |b| - 1;
      assert (a + b)[..|a + b| - 1] == a + b[..n];
      ExtractionsOfConcat(a, b[..n]);
    } else {
      assert a + b == a;
    }
  }

  lemma {:induction false} ResultBlocksExtractions(c: Collaborators, p: GeneratorParams, args: seq<Variable>, results: seq<Variable>)
    ensures ExtractionsOf(ResultBlocks(c, p, args, results))
         == seq(|results|, k requires 0 <= k < |results| => Extraction(c, p, k, results[k].ty))
    decreases |results|
  {
    if results != [] {
      var n := |results| - 1;
      ResultBlocksExtractions(c, p, args, results[..n]);
      var block := ResultBlock(c, p, args, n, results[n]);
      ExtractionsOfConcat(ResultBlocks(c, p, args, results[..n]), block);
      assert block == [block[0]] + [block[1]];
      ExtractionsOfConcat([block[0]], [block[1]]);
      assert ExtractionsOf([block[0]]) == ExtractionsOf([]) + [];
      assert [block[1]][..0] == [];
    }
  }

  /** Each result gets exactly one extraction, they come in result order, and
      extraction k reads slot k into rk with the classified strategy:
      ret.Error for an error type, a nil-guarded assertion for a nillable
      type, a plain assertion otherwise. */
  lemma OneExtractionPerResult(c: Collaborators, p: GeneratorParams, interfaceName: string,
                               mockStructName: string, m: Function)
    ensures var ex := ExtractionsOf(MethodDeclFor(c, p, interfaceName, mockStructName, m).body);
      && |ex| == |m.results|
      && forall k :: 0 <= k < |m.results| ==>
           && ex[k] == Extraction(c, p, k, m.results[k].ty)
           && ex[k].index == k && ex[k].target == ResultVarName(k)
           && (ex[k].ErrorExtract? <==> c.isErrorType(m.results[k].ty))
           && (ex[k].GuardedExtract? <==> !c.isErrorType(m.results[k].ty) && c.isNillableType(m.results[k].ty))
           && (ex[k].UnguardedExtract? <==> !c.isErrorType(m.results[k].ty) && !c.isNillableType(m.results[k].ty))
  {
    var rb := ResultBlocks(c, p, m.args, m.results);
    var first := [RecordCall(ArgNames(m.args))];
    var last := [Return(ResultVarNames(|m.results|))];
    ResultBlocksExtractions(c, p, m.args, m.results);
    ExtractionsOfConcat(first, rb);
    ExtractionsOfConcat(first + rb, last);
    assert ExtractionsOf(first) == [] by { assert first[..0] == []; }
    assert ExtractionsOf(last) == [] by { assert last[..0] == []; }
  }

  /** Different result positions get different variable names. */
  lemma ResultVarNamesDistinct(i: nat, j: nat)
    requires i != j
    ensures ResultVarName(i) != ResultVarName(j)
  {
    if ResultVarName(i) == ResultVarName(j) {
      assert ResultVarName(i)[1..] == Decimal(i);
      assert ResultVarName(j)[1..] == Decimal(j);
      DecimalInjective(i, j);
    }
  }

  predicate Distinct(s: seq<string>)
  {
    forall i, j :: 0 <= i < j < |s| ==> s[i] != s[j]
  }

  /** The final return lists r0 ... r{n-1}: one distinct name per result. */
  lemma ReturnNames(c: Collaborators, p: GeneratorParams, interfaceName: string,
                    mockStructName: string, m: Function)
    ensures var body := MethodDeclFor(c, p, interfaceName, mockStructName, m).body;
      && body[|body| - 1].Return?
      && |body[|body| - 1].names| == |m.results|
      && (forall k :: 0 <= k < |m.results| ==> body[|body| - 1].names[k] == ResultVarName(k))
      && Distinct(body[|body| - 1].names)
  {
    var names := ResultVarNames(|m.results|);
    forall i, j | 0 <= i < j < |names| ensures names[i] != names[j] {
      ResultVarNamesDistinct(i, j);
    }
  }

  // ---------------------------------------------------------------------
  // Identifiers declared in the function's outermost block

  /** Names that bind something: the blank name and an omitted one do not. */
  function Declared(names: seq<string>): (r: seq<string>)
    decreases |names|
  {
    if names == [] then []
    else
      var last := names[|names| - 1];
      Declared(names[..|names| - 1]) + (if last == "" || last == "_" then [] else [last])
  }

  function FieldNames(fields: seq<Field>): seq<string>
  {
    seq(|fields|, i requires 0 <= i < |fields| => fields[i].name)
  }

  /** The names the body declares at its top level: `ret` and each `var`. */
  function LocalNames(body: seq<Stmt>): seq<string>
    decreases |body|
  {
    if body == [] then []
    else
      var last := body[|body| - 1];
      LocalNames(body[..|body| - 1])
        + (if last.RecordCall? then [CallRecordName] else if last.VarDecl? then [last.name] else [])
  }

  /** Every identifier of a method's outermost block: receiver, named
      parameters and results, and the body's top-level declarations. Go
      rejects a block that declares one of them twice. */
  function BlockNames(d: Decl): seq<string>
    requires d.MethodDecl?
  {
    [d.recv.name] + Declared(FieldNames(d.params) + FieldNames(d.results)) + LocalNames(d.body)
  }

  lemma {:induction false} DeclaredSubset(names: seq<string>, x: string)
    requires x in Declared(names)
    ensures x in names
    decreases |names|
  {
    var n := |names| - 1;
    if x in Declared(names[..n]) {
      DeclaredSubset(names[..n], x);
    }
  }

  lemma {:induction false} LocalNamesConcat(a: seq<Stmt>, b: seq<Stmt>)
    ensures LocalNames(a + b) == LocalNames(a) + LocalNames(b)
    decreases |b|
  {
    if b != [] {
      var n := |b| - 1;
      assert (a + b)[..|a + b| - 1] == a + b[..n];
      LocalNamesConcat(a, b[..n]);
    } else {
      assert a + b == a;
    }
  }

  lemma ResultBlockLocalNames(c: Collaborators, p: GeneratorParams, args: seq<Variable>, i: nat, r: Variable)
    ensures LocalNames(ResultBlock(c, p, args, i, r)) == [ResultVarName(i)]
  {
    var block := ResultBlock(c, p, args, i, r);
    assert block[..1] == [block[0]] && block[..1][..0] == [];
    assert LocalNames(block[..1]) == [ResultVarName(i)];
  }

  lemma {:induction false} ResultBlocksLocalNames(c: Collaborators, p: GeneratorParams, args: seq<Variable>, results: seq<Variable>)
    ensures LocalNames(ResultBlocks(c, p, args, results)) == ResultVarNames(|results|)
    decreases |results|
  {
    if results != [] {
      var n := |results| - 1;
      ResultBlocksLocalNames(c, p, args, results[..n]);
      var block := ResultBlock(c, p, args, n, results[n]);
      LocalNamesConcat(ResultBlocks(c, p, args, results[..n]), block);
      ResultBlockLocalNames(c, p, args, n, results[n]);
      assert ResultVarNames(n + 1) == ResultVarNames(n) + [ResultVarName(n)];
    }
  }

  /** A body declares `ret`, then r0 ... r{n-1}, and nothing else. */
  lemma BodyLocalNames(c: Collaborators, p: GeneratorParams, args: seq<Variable>, results: seq<Variable>)
    ensures LocalNames(MethodBody(c, p, args, results)) == [CallRecordName] + ResultVarNames(|results|)
  {
    var first := [RecordCall(ArgNames(args))];
    var rb := ResultBlocks(c, p, args, results);
    var last := [Return(ResultVarNames(|results|))];
    LocalNamesConcat(first, rb);
    LocalNamesConcat(first + rb, last);
    ResultBlocksLocalNames(c, p, args, results);
    assert LocalNames(first) == [CallRecordName] by { assert first[..0] == []; }
    assert LocalNames(last) == [] by { assert last[..0] == []; }
  }

  /** r0 ... r{n-1} are pairwise distinct and differ from `ret` and `_m`. */
  lemma ResultVarNamesFresh(n: nat)
    ensures Distinct([CallRecordName] + ResultVarNames(n))
    ensures ReceiverName !in ResultVarNames(n)
  {
    var rvn := ResultVarNames(n);
    forall i, j | 0 <= i < j < |rvn| ensures rvn[i] != rvn[j] {
      ResultVarNamesDistinct(i, j);
    }
    forall x | x in rvn ensures x[0] == 'r' && x != CallRecordName {
      var k :| 0 <= k < n && x == ResultVarName(k);
      var digits := Decimal(k);
      assert x[1..] == digits;
    }
    DistinctConcat([CallRecordName], rvn);
  }

  lemma DistinctConcat(a: seq<string>, b: seq<string>)
    requires Distinct(a) && Distinct(b)
    requires forall x :: x in a ==> x !in b
    ensures Distinct(a + b)
  {
    forall i, j | 0 <= i < j < |a + b| ensures (a + b)[i] != (a + b)[j] {
      if i < |a| && j >= |a| {
        assert (a + b)[i] in a && (a + b)[j] in b;
      }
    }
  }

  /** The generated body declares `ret` and r0 ... r{n-1} in the same block
      as the receiver `_m` and the method's named parameters and results.
      When the descriptor's own names are distinct and avoid `_m`, `ret` and
      every r<k> with k below the number of results, every identifier of
      that block is declared once. */
  lemma NoRedeclaration(c: Collaborators, p: GeneratorParams, interfaceName: string,
                        mockStructName: string, m: Function)
    requires Distinct(Declared(ArgNames(m.args) + ArgNames(m.results)))
    requires forall x :: x in ArgNames(m.args) + ArgNames(m.results) ==>
               x != ReceiverName && x != CallRecordName && x !in ResultVarNames(|m.results|)
    ensures Distinct(BlockNames(MethodDeclFor(c, p, interfaceName, mockStructName, m)))
  {
    var own := ArgNames(m.args) + ArgNames(m.results);
    var locals := [CallRecordName] + ResultVarNames(|m.results|);
    BlockNamesSplit(c, p, interfaceName, mockStructName, m);
    ResultVarNamesFresh(|m.results|);
    var decl := Declared(own);
    forall x | x in decl ensures x !in locals && x != ReceiverName {
      DeclaredSubset(own, x);
    }
    DistinctConcat(decl, locals);
    DistinctConcat([ReceiverName], decl + locals);
  }

  /** The converse of NoRedeclaration: when every identifier of the block is
      declared once, the descriptor's names are distinct and avoid `_m`,
      `ret` and every r<k> with k below the number of results. */
  lemma RedeclarationNeedsClash(c: Collaborators, p: GeneratorParams, interfaceName: string,
                                mockStructName: string, m: Function)
    requires Distinct(BlockNames(MethodDeclFor(c, p, interfaceName, mockStructName, m)))
    ensures Distinct(Declared(ArgNames(m.args) + ArgNames(m.results)))
    ensures forall x :: x in ArgNames(m.args) + ArgNames(m.results) ==>
              x != ReceiverName && x != CallRecordName && x !in ResultVarNames(|m.results|)
  {
    var own := ArgNames(m.args) + ArgNames(m.results);
    var decl := Declared(own);
    var locals := [CallRecordName] + ResultVarNames(|m.results|);
    BlockNamesSplit(c, p, interfaceName, mockStructName, m);
    DistinctSplit([ReceiverName], decl + locals);
    DistinctSplit(decl, locals);
    forall x | x in own
      ensures x != ReceiverName && x != CallRecordName && x !in ResultVarNames(|m.results|)
    {
      if x == "" || x == "_" {
        assert |x| < |ReceiverName|;
      } else {
        DeclaredKeeps(own, x);
        assert x in decl + locals;
      }
    }
  }

  lemma DistinctSplit(a: seq<string>, b: seq<string>)
    requires Distinct(a + b)
    ensures Distinct(a) && Distinct(b)
    ensures forall x :: x in a ==> x !in b
  {
    forall i, j | 0 <= i < j < |a| ensures a[i] != a[j] {
      assert a[i] == (a + b)[i] && a[j] == (a + b)[j];
    }
    forall i, j | 0 <= i < j < |b| ensures b[i] != b[j] {
      assert b[i] == (a + b)[|a| + i] && b[j] == (a + b)[|a| + j];
    }
    forall i, j | 0 <= i < |a| && 0 <= j < |b| ensures a[i] != b[j] {
      assert a[i] == (a + b)[i] && b[j] == (a + b)[|a| + j];
    }
  }

  /** Every name other than the blank ones is declared. */
  lemma {:induction false} DeclaredKeeps(names: seq<string>, x: string)
    requires x in names && x != "" && x != "_"
    ensures x in Declared(names)
    decreases |names|
  {
    var n := |names| - 1;
    if names[n] != x {
      assert x in names[..n];
      DeclaredKeeps(names[..n], x);
    }
  }

  /** The block's names: `_m`, the named arguments and results, `ret`, then
      r0 ... r{n-1}. */
  lemma BlockNamesSplit(c: Collaborators, p: GeneratorParams, interfaceName: string,
                        mockStructName: string, m: Function)
    ensures BlockNames(MethodDeclFor(c, p, interfaceName, mockStructName, m))
         == [ReceiverName] + (Declared(ArgNames(m.args) + ArgNames(m.results))
                              + ([CallRecordName] + ResultVarNames(|m.results|)))
  {
    var d := MethodDeclFor(c, p, interfaceName, mockStructName, m);
    assert FieldNames(d.params) == ArgNames(m.args);
    assert FieldNames(d.results) == ArgNames(m.results);
    BodyLocalNames(c, p, m.args, m.results);
  }

  /** The generator does not rename: an argument named r0 of a method with
      at least one result is declared again by `var r0`, which Go rejects. */
  lemma ArgumentNamedR0Clashes(c: Collaborators, p: GeneratorParams, interfaceName: string,
                               mockStructName: string, m: Function, k: nat)
    requires k < |m.args| && m.args[k].name == "r0" && |m.results| >= 1
    ensures !Distinct(BlockNames(MethodDeclFor(c, p, interfaceName, mockStructName, m)))
  {
    var own := ArgNames(m.args) + ArgNames(m.results);
    assert own[k] == "r0";
    assert ResultVarName(0) == "r0";
    assert ResultVarNames(|m.results|)[0] == "r0";
    assert "r0" in own && "r0" in ResultVarNames(|m.results|);
    if Distinct(BlockNames(MethodDeclFor(c, p, interfaceName, mockStructName, m))) {
      RedeclarationNeedsClash(c, p, interfaceName, mockStructName, m);
      assert false;
    }
  }

  /** A statement that reads the call record `ret`. */
  predicate ReadsCallRecord(s: Stmt)
  {
    s.OverrideIf? || IsExtraction(s)
  }

  /** A method without results gets `ret := _m.Called(...)` followed by a bare
      return: nothing reads `ret`, which Go rejects as declared and not used. */
  lemma NoResultsLeavesCallRecordUnused(c: Collaborators, p: GeneratorParams, interfaceName: string,
                                        mockStructName: string, m: Function)
    requires m.results == []
    ensures var body := MethodDeclFor(c, p, interfaceName, mockStructName, m).body;
      && body == [RecordCall(ArgNames(m.args)), Return([])]
      && CallRecordName in LocalNames(body)
      && forall j :: 0 <= j < |body| ==> !ReadsCallRecord(body[j])
  {
    var body := MethodDeclFor(c, p, interfaceName, mockStructName, m).body;
    assert ResultBlocks(c, p, m.args, m.results) == [];
    assert ResultVarNames(0) == [];
    assert body == [RecordCall(ArgNames(m.args)), Return([])];
    assert body[..1] == [RecordCall(ArgNames(m.args))] && body[..1][..0] == [];
    assert LocalNames(body[..1]) == [CallRecordName];
  }

  // ---------------------------------------------------------------------
  // End to end

  /** The method Concat(a string, b string) string of StringService, with a
      renderer that writes the builtin string as `string`: the call is
      recorded with a and b, the override is tried against
      func(string, string) string, and otherwise slot 0 is asserted to string
      without a guard. */
  lemma ConcatMethodExample(c: Collaborators, p: GeneratorParams)
    requires TypeQual(c, p, Builtin("string")) == "string"
    requires !c.isErrorType(Builtin("string")) && !c.isNillableType(Builtin("string"))
    ensures var str := Builtin("string");
      var concat := Function("Concat", [Variable("a", str), Variable("b", str)], [Variable("", str)]);
      MethodDeclFor(c, p, "StringService", "StringServiceMock", concat)
      == MethodDecl(MethodDoc("Concat", "StringService"),
                    Receiver("_m", "*StringServiceMock"), "Concat",
                    [Field("a", "string"), Field("b", "string")], [Field("", "string")],
                    [ RecordCall(["a", "b"]),
                      VarDecl("r0", "string"),
                      OverrideIf(0, FuncType(["string", "string"], "string"), "r0", ["a", "b"],
                                 UnguardedExtract("r0", 0, "string")),
                      Return(["r0"]) ])
  {
    var str := Builtin("string");
    var concat := Function("Concat", [Variable("a", str), Variable("b", str)], [Variable("", str)]);
    assert ResultVarName(0) == "r0";
    assert ResultVarNames(1) == ["r0"];
    assert ArgNames(concat.args) == ["a", "b"];
    assert ArgTypes(c, p, concat.args) == ["string", "string"];
    assert concat.results[..0] == [];
    assert ResultBlocks(c, p, concat.args, concat.results)
        == ResultBlocks(c, p, concat.args, []) + ResultBlock(c, p, concat.args, 0, concat.results[0]);
    assert Fields(c, p, concat.args) == [Field("a", "string"), Field("b", "string")];
    assert Fields(c, p, concat.results) == [Field("", "string")];
    assert "*" + "StringServiceMock" == "*StringServiceMock";
    assert Extraction(c, p, 0, str) == UnguardedExtract("r0", 0, "string");
    assert MethodBody(c, p, concat.args, concat.results)
        == [ RecordCall(["a", "b"]),
             VarDecl("r0", "string"),
             OverrideIf(0, FuncType(["string", "string"], "string"), "r0", ["a", "b"],
                        UnguardedExtract("r0", 0, "string")),
             Return(["r0"]) ];
  }

  /** Interface StringService with the one method Concat, the default struct
      name, the output template "./generated/%s_mock.go" and source package
      equal to target package: one file at ./generated/string_service_mock.go
      declaring StringServiceMock, then Concat as above. */
  lemma StringServiceScenario(c: Collaborators, p: GeneratorParams)
    requires p.mockStructNameTemplate == "" && p.outPathTemplate == "./generated/" + "%s" + "_mock.go"
    requires p.sourcePackagePath == p.targetPackagePath
    requires c.toSnake("StringService") == "string_service"
    requires TypeQual(c, p, Builtin("string")) == "string"
    requires !c.isErrorType(Builtin("string")) && !c.isNillableType(Builtin("string"))
    ensures ValidTemplates(p)
    ensures var str := Builtin("string");
      var concat := Function("Concat", [Variable("a", str), Variable("b", str)], [Variable("", str)]);
      var r := GenerateResultFor(c, p, Interface("StringService", [concat]));
      && |r.files| == 1
      && r.files[0].path == "./generated/" + "string_service" + "_mock.go"
      && r.files[0].content.decls
         == [ TypeDecl(TypeDoc("StringService" + "Mock", "StringService"),
                       "StringService" + "Mock", [QualIdent(MockPackage, "Mock")]),
              MethodDeclFor(c, p, "StringService", "StringService" + "Mock", concat) ]
  {
    var str := Builtin("string");
    var concat := Function("Concat", [Variable("a", str), Variable("b", str)], [Variable("", str)]);
    var iface := Interface("StringService", [concat]);
    OutputPathExample(c, p);
    assert MethodDecls(c, p, "StringService", "StringService" + "Mock", [concat])
        == [MethodDeclFor(c, p, "StringService", "StringService" + "Mock", concat)];
  }
}
