# gen-interface-mock: the mock generator, modelled in Dafny

The generator takes a Go interface (its name and its methods, each with
named, typed arguments and results) and a handful of string parameters, and
produces one Go file holding a testify mock of that interface:

- a struct named by a template (default `%sMock`) that embeds `mock.Mock`;
- one method per interface method, in the interface's order, whose body
  records the call with `ret := _m.Called(args...)`, then for each result `i`
  declares `r{i}`, tries `ret.Get(i)` as a function override
  `func(argTypes...) resultType` that is called with the arguments, and only
  in the `else` branch extracts the value: `ret.Error(i)` for an error type, a
  nil-guarded assertion for a nillable type, an unguarded assertion otherwise;
  finally `return r0, ..., r{n-1}`;
- the file's path is the output template applied to the snake-cased
  interface name.

The model builds the declaration tree (module `Ast`) instead of text. The
functions of module `Mock` say what the tree is; the methods
`Mock.GenerateMethod` and `Mock.Generate` build it with the loops of the
source (appending to sequences) and are proved to build exactly that tree.
Module `MockProperties` proves what the generator promises about it. Module
`Fmt` models the two template forms of `fmt.Sprintf` that the generator's
logic depends on: a user template with one `%s` (mock name and output path),
and `%d` on a result index. The fixed formats `*%s` for the receiver type and
the doc comments written with `Commentf` are rendered as plain concatenation in
`Mock`; the `%#v` used for the file's text is serialisation and is left out. Module `Descriptor` holds the input: the interface
descriptor and the collaborators whose code is not part of this model
(`pkg.IsErrorType`, `pkg.IsNillableType`, `pkg.TypeQual`, `strcase.ToSnake`),
carried as function values and never defined.

Points where the generated code behaves differently from what a reader might expect:

- The code does not rename anything. The body declares `ret` and `r0`, `r1`, ...
  in the same block as the receiver `_m` and the method's named arguments and
  results. A method with an argument named `r0` therefore gets a body that
  declares `r0` twice (`MockProperties.ArgumentNamedR0Clashes`). The
  positional names do not by themselves rule out a collision with argument
  names. Every identifier of that block is declared once exactly when the
  descriptor's names are distinct and avoid `_m`, `ret` and the `r{k}` names
  (`MockProperties.NoRedeclaration`, `MockProperties.RedeclarationNeedsClash`).
- A method without results gets `ret := _m.Called(...)` followed by a bare
  `return`. Nothing reads `ret`, so Go rejects the generated file with
  "declared and not used" (`MockProperties.NoResultsLeavesCallRecordUnused`).
- Result lists keep the descriptor's names as they are, empty ones included.
  No positional names are put into the signature.
- Argument names are passed through unchanged to `_m.Called` and to `rf`. An
  argument without a name yields an empty entry there.
- Types are rendered by `pkg.TypeQual` from the source and target package
  paths that the generator forwards (`Mock.TypeQual`). How a type from a
  third package is qualified is decided inside that function, which is not
  part of this model.
- The mock's name and the output path are computed from the name of the
  interface descriptor that was found, not from the `interface_name`
  parameter.

## Model

| member | source | states |
|---|---|---|
| `Fmt.Sprintf` | generator/mock.go:181 | formatting a one-`%s` template copies the template and puts the argument in place of the verb |
| `Fmt.SprintfSplice` | generator/mock.go:78 | any `pre%spost` without other `%` is a valid template, and formatting it gives `pre + arg + post` |
| `Fmt.Decimal` | generator/mock.go:133 | `%d` of an index is a non-empty digit string without a leading zero |
| `Fmt.DecimalRoundTrip` | generator/mock.go:133 | reading the printed index back gives the index |
| `Fmt.DecimalInjective` | generator/mock.go:133 | two indices that print the same are equal |
| `Mock.BuildMockStructName` | generator/mock.go:177-182 | an empty template gives `interfaceName + "Mock"`; a custom template gives its text before the verb, the interface name, then its text after the verb |
| `Mock.Extraction` | generator/mock.go:147-164 | the else branch for result `i` reads slot `i` into `r{i}`; it is `ret.Error(i)` exactly when the type is an error type, a nil-guarded assertion exactly when it is nillable and not an error type, an unguarded assertion otherwise; both assertions target the rendered type |
| `Mock.RenderFields` | generator/mock.go:116-123 | the loop over arguments (or results) yields one `name type` entry per variable, in order, with the rendered type |
| `Mock.CollectArgNames` | generator/mock.go:125-129 | the loop over arguments yields exactly the argument names in order |
| `Mock.RenderArgTypes` | generator/mock.go:137-141 | the loop over arguments yields exactly the rendered argument types in order |
| `Mock.GenerateMethod` | generator/mock.go:114-174 | the method declaration built by the loops equals the specified declaration: doc, receiver, name, parameter and result lists, body |
| `Mock.Generate` | generator/mock.go:56-83 | a decoding error is returned as it is, with no file; otherwise the file built by the loop over methods equals the specified result |
| `MockProperties.CustomStructName` | generator/mock.go:177-182 | a template `pre%spost` names the mock `pre + interfaceName + post` |
| `MockProperties.CustomStructNameExample` | generator/mock.go:177-182 | template `My%sDouble` is valid, and with interface `Foo` it gives `MyFooDouble` |
| `MockProperties.OutPathSplice` | generator/mock.go:78 | output template `pre%spost` gives the path `pre + toSnake(interfaceName) + post` |
| `MockProperties.OneOutputFile` | generator/mock.go:75-81 | exactly one file is produced; its path is the output path, its content the mock unit of the target package |
| `MockProperties.OutputPathExample` | generator/mock.go:78 | template `./generated/%s_mock.go` and `StringService` give `./generated/string_service_mock.go` |
| `MockProperties.TypeQualReadsOnlyPackagePaths` | generator/mock.go:185-187 | rendering a type depends on the parameters only through the source and target package paths |
| `MockProperties.TypeDeclFirst` | generator/mock.go:69-96 | the first declaration is the type, named by the template and embedding exactly `mock.Mock` |
| `MockProperties.MethodsInOrder` | generator/mock.go:65-96 | after the type comes exactly one method declaration per interface method, in input order, each carrying that method's name |
| `MockProperties.NoMethodsOnlyType` | generator/mock.go:69-73 | an interface without methods gives only the type declaration |
| `MockProperties.MethodSignature` | generator/mock.go:114-123 | receiver `_m *<mock name>`, the method's name, parameters and results mirroring the descriptor (name, rendered type) in order |
| `MockProperties.ResultBlocksAt` | generator/mock.go:131-166 | result `k` contributes `var r{k} T` and then the override test against `func(argTypes...) T`, which calls `rf` with the argument names and whose else branch is the classified extraction |
| `MockProperties.BodyRecordsCallFirst` | generator/mock.go:124-173 | the body is the call record with exactly the argument names, then two statements per result, then the return of `r0 ... r{n-1}`; nothing after the first statement records the call, and no extraction stands outside an override's else branch |
| `MockProperties.BodyResultSlots` | generator/mock.go:131-166 | statements `2k+1` and `2k+2` of the body are `var r{k} T` and the override test for result `k`, whose else branch is the classified extraction |
| `MockProperties.OneExtractionPerResult` | generator/mock.go:147-164 | the body holds exactly one extraction per result, in result order, extraction `k` reading slot `k` into `r{k}` with error taking priority over nillable |
| `MockProperties.ResultVarNamesDistinct` | generator/mock.go:133 | different result positions get different variable names |
| `MockProperties.ReturnNames` | generator/mock.go:131-172 | the final return lists `r0 ... r{n-1}`: one name per result, in order, pairwise distinct |
| `MockProperties.NoRedeclaration` | generator/mock.go:114-166 | when the descriptor's names are distinct and avoid `_m`, `ret` and the `r{k}` names, every identifier of the method's outermost block is declared once |
| `MockProperties.RedeclarationNeedsClash` | generator/mock.go:114-166 | conversely, when every identifier of the outermost block is declared once, the descriptor's names are distinct and avoid `_m`, `ret` and the `r{k}` names |
| `MockProperties.ArgumentNamedR0Clashes` | generator/mock.go:116-136 | for any method with an argument named `r0` and at least one result, some identifier of the outermost block is declared twice |
| `MockProperties.NoResultsLeavesCallRecordUnused` | generator/mock.go:124-172 | a method without results gets the call record and then a bare return, and no statement reads the call record |
| `MockProperties.ConcatMethodExample` | generator/mock.go:98-112 | `Concat(a string, b string) string` gives the method of the source's own example: record `a, b`, override against `func(string, string) string`, unguarded assertion to `string`, `return r0` |
| `MockProperties.StringServiceScenario` | generator/mock.go:56-96 | interface `StringService` with default naming gives one file at `./generated/string_service_mock.go` declaring `StringServiceMock` and then `Concat` |

## Left out

- Decoding the JSON parameters (generator/mock.go:57-61) is library behaviour. `Mock.Generate` takes the decoded parameters or the decoding error as input.
- `pkg.FindInterface` (generator/mock.go:63) is a lookup in code that is not part of this model. The interface descriptor is an input. The source does not check its result for nil before it reads `iface.Name`, so a missing interface crashes the generator; the model does not capture that crash.
- The bodies of `pkg.TypeQual`, `pkg.IsErrorType`, `pkg.IsNillableType` and `strcase.ToSnake` are not part of this model. They are uninterpreted function values in `Descriptor.Collaborators`. The type-shape datatype `Descriptor.Type` is only carried through to them.
- Serialising the tree to text is not modelled: jennifer's printer, `fmt.Sprintf("%#v", ...)`, the blank lines added by `.Line()`, and formatting. The file's provenance comment from `pkg.AddDefaultPackageComment` is kept only as the repository URL and version it is given (`Ast.Provenance`).
- Mock.BuildMockStructName: requires a template with exactly one `%s` and no other `%`, because only that use of `fmt.Sprintf` is modelled; other templates (another verb, flags or a width, `%%`, or a number of verbs other than one) follow `fmt` rules the model does not include.
- Mock.Generate: requires both templates (`ValidTemplates`) to have exactly one `%s` and no other `%`; other templates follow `fmt` rules the model does not include.
- The hclog logger built in `NewGenerator` (generator/mock.go:190-197) has no effect on the output.
- main.go only serves the generator over go-plugin RPC, which is transport.
