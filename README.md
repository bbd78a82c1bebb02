# starcgenx extractor, modelled in Dafny

This project models the shim-generation Extractor of the Beam Go SDK
(`sdks/go/pkg/beam/util/starcgenx/starcgenx.go`). The Extractor is given a
type-checked Go package. It scans the package for `beam.RegisterDoFn` calls
and adds the identifiers they register to its allow-list. It then walks every
definition and use and sorts what it keeps into deduplicated tables:

- functions to register;
- types to register;
- lifecycle-method wrappers, grouped by receiver type;
- function shims, keyed by a name-independent signature key;
- emitter shapes and iterator shapes;
- imports.

`Generate` turns those tables into the description the code template renders.

Module layout:

- `Text` holds the string helpers Go's standard library provides here: `strings.Join`, `strings.LastIndex` and `strconv.Itoa`.
- `GoTypes` is a closed datatype of go/types types and objects. It includes `types.Unalias` and the printing of `types.TypeString`.
- `Shapes` holds the pure helpers: `tail`, `qualifier`, `tupleStrings`, `sigKey`, `makeEmitter`, `makeInput`, `deref` and `NameType`.
- `Scanner` models `findRegisterDoFnCalls`: the scanner's decision as a function, and its `Visit` as a method of a class.
- `Classify` gives, as functions, the effect of each extractor step on the tables. Examples are `FromObjStep` and `TupleHarvest`. The lemmas about the extractor's promises are stated over these functions.
- `Shims` holds the records handed to the template.
- `Extraction` holds the `Extractor` class. Its tables are fields, and its methods update them in place. Each method is proved to have the effect the `Classify` function describes.

Several things the Extractor calls are not part of this model. They become parameters instead:

- `graph.IsLifecycleMethod` becomes the set `Env.lifecycle`.
- `shimx.Name` and `shimx.FuncName` become `Env.shimx`.
- The go/types checker becomes the function `check`, from checker settings to a result.
- `ast.Walk` becomes the sequence of nodes it visits.

The package under analysis is type checked under the import path `Env.package`, the first argument of `conf.Check`. That fixes only the path of its objects. Their package name comes from the package clause of the files. Like the source, the model compares package names with `Env.package`: a package whose clause name differs from that path is treated as a foreign package.

## Model

| member | source | states |
|---|---|---|
| Text.Join | sdks/go/pkg/beam/util/starcgenx/starcgenx.go:578 | strings.Join: a single element is returned as is, no elements give "", and the length is the elements' lengths plus one separator between each two |
| Text.JoinSnoc | sdks/go/pkg/beam/util/starcgenx/starcgenx.go:578 | appending an element to a non-empty list adds exactly one separator and then the element |
| Text.LastIndex | sdks/go/pkg/beam/util/starcgenx/starcgenx.go:560 | strings.LastIndex: -1 or a position where sub occurs, with no occurrence after it |
| Text.NatString | sdks/go/pkg/beam/util/starcgenx/starcgenx.go:782 | strconv.Itoa of an array length: a non-empty string of decimal digits whose decimal value is n, with no leading zero |
| GoTypes.Unalias | sdks/go/pkg/beam/util/starcgenx/starcgenx.go:351 | types.Unalias: the result is reached from t by alias links and is not an alias itself, and a non-alias is returned unchanged |
| GoTypes.UnaliasIsChainEnd | sdks/go/pkg/beam/util/starcgenx/starcgenx.go:351 | the alias chain from a type has exactly one non-alias end, the one Unalias returns |
| GoTypes.TypeString | sdks/go/pkg/beam/util/starcgenx/starcgenx.go:356 | types.TypeString: a package-level type name is printed with the qualifier's prefix and "." unless the qualifier gives ""; containers and signatures print their parts; its properties are stated by LocalTypePrintsBare, ForeignTypeQualified and SigKeyIgnoresNames |
| GoTypes.UnaliasDepth | sdks/go/pkg/beam/util/starcgenx/starcgenx.go:490-511 | unaliasing never adds wrapper links, so every unwrapping loop terminates |
| Shapes.Tail | sdks/go/pkg/beam/util/starcgenx/starcgenx.go:559-564 | corrected tail: the last path segment; it holds no '/', is a suffix of the path, and is the whole path or follows a '/' |
| Shapes.TailAsWritten | sdks/go/pkg/beam/util/starcgenx/starcgenx.go:559-564 | tail as written, with strings.LastIndex's arguments swapped; TailAsWrittenKeepsPath states what it returns |
| Shapes.TailAsWrittenKeepsPath | sdks/go/pkg/beam/util/starcgenx/starcgenx.go:559-564 | tail as written returns every non-empty path unchanged and panics on "" |
| Shapes.TailAsWrittenMissesSegment | sdks/go/pkg/beam/util/starcgenx/starcgenx.go:559-564 | on "a/b" tail as written gives "a/b" where the last segment is "b" |
| Shapes.TailAgreesOnPackageNames | sdks/go/pkg/beam/util/starcgenx/starcgenx.go:551-557 | on a package name (non-empty, no '/') both versions of tail return the name, so the qualifier is unaffected |
| Shapes.Qualifier | sdks/go/pkg/beam/util/starcgenx/starcgenx.go:551-557 | qualifier: "" exactly when the package's tail is the package under analysis, else that tail |
| Shapes.LocalTypePrintsBare | sdks/go/pkg/beam/util/starcgenx/starcgenx.go:551-557 | a named type of the package under analysis is printed as its bare name |
| Shapes.ForeignTypeQualified | sdks/go/pkg/beam/util/starcgenx/starcgenx.go:551-557 | a named type of another package is printed as that package's name, ".", and the type name |
| Shapes.VarString | sdks/go/pkg/beam/util/starcgenx/starcgenx.go:761-763 | varString: the printed type of a parameter or result, its name unused; TupleStrings and SigKeyIgnoresNames state its use |
| Shapes.TupleStrings | sdks/go/pkg/beam/util/starcgenx/starcgenx.go:566-573 | one printed type per entry, in order, names dropped |
| Shapes.SigKey | sdks/go/pkg/beam/util/starcgenx/starcgenx.go:575-579 | sigKey: "func(" + the printed parameter types joined by "," + ") (" + the printed result types joined by "," + ")"; SigKeyIgnoresNames, SigKeyIgnoresReceiver and SigKeyExample state its properties |
| Shapes.SigKeyIgnoresNames | sdks/go/pkg/beam/util/starcgenx/starcgenx.go:575-579 | signatures whose parameter and result types agree have the same key, whatever their names |
| Shapes.SigKeyIgnoresReceiver | sdks/go/pkg/beam/util/starcgenx/starcgenx.go:575-579 | a method and the function with its parameters and results share one key |
| Shapes.SigKeyExample | sdks/go/pkg/beam/util/starcgenx/starcgenx.go:575-579 | func(x int) string is keyed "func(int) (string)" |
| Shapes.MakeEmitter | sdks/go/pkg/beam/util/starcgenx/starcgenx.go:663-698 | an emitter iff no results and 1 to 3 parameters; Time iff 3; Key is the second-to-last parameter, or "" at one parameter; Val is the last; the type is the signature key; the name is "ET" iff Time, then shimx.Name of Key and Val |
| Shapes.EmitterIgnoresTimeParameter | sdks/go/pkg/beam/util/starcgenx/starcgenx.go:684-688 | the first of three emitter parameters is not checked: replacing it changes only the type key |
| Shapes.MakeInput | sdks/go/pkg/beam/util/starcgenx/starcgenx.go:705-750 | an iterator iff one result whose unaliased type is bool, every parameter a pointer (through aliases), and 1 to 3 parameters; Key and Val are the printed pointee types, placed as for emitters |
| Shapes.AliasedPointerIteratorPanics | sdks/go/pkg/beam/util/starcgenx/starcgenx.go:711-719 | makeInput as written panics on func(P) bool with P an alias of *int; the corrected one accepts it |
| Shapes.Deref | sdks/go/pkg/beam/util/starcgenx/starcgenx.go:754-757 | deref, corrected: the printed pointee of a parameter that is a pointer once unaliased; MakeInput states where it is used |
| Shapes.DerefAsWritten | sdks/go/pkg/beam/util/starcgenx/starcgenx.go:754-757 | deref as written, asserting a pointer without unaliasing; DerefAsWrittenAgrees states how it differs from Deref |
| Shapes.DerefAsWrittenAgrees | sdks/go/pkg/beam/util/starcgenx/starcgenx.go:754-757 | the written deref panics exactly on a type that is not itself a pointer, and otherwise equals the corrected one; an alias is the only type the corrected deref accepts that the written one rejects |
| Shapes.MakeInputAsWritten | sdks/go/pkg/beam/util/starcgenx/starcgenx.go:705-757 | makeInput as written, with deref's unchecked assertion to a pointer; AliasedPointerIteratorPanics and MakeInputAsWrittenAgrees state how it differs from MakeInput |
| Shapes.MakeInputAsWrittenAgrees | sdks/go/pkg/beam/util/starcgenx/starcgenx.go:705-757 | without aliased parameters, makeInput as written and the corrected one agree |
| Shapes.EmitterIteratorDisjoint | sdks/go/pkg/beam/util/starcgenx/starcgenx.go:663-750 | no signature is both an emitter and an iterator |
| Shapes.NameType | sdks/go/pkg/beam/util/starcgenx/starcgenx.go:767-786 | NameType: the canonical name of a type; NameTypeNestedSlices, NameTypeContainers, NameTypeCallback and NameTypeSeesNoAlias state it case by case |
| Shapes.NameTypeNestedSlices | sdks/go/pkg/beam/util/starcgenx/starcgenx.go:777-778 | n nested slices are named n times "SliceOf" followed by the element's name |
| Shapes.NameTypeContainers | sdks/go/pkg/beam/util/starcgenx/starcgenx.go:779-782 | a map is named "MapOf"+key+"_"+value; an array of any length n is named "ArrayOf", then n in decimal, then the element's name (so length 5 gives "ArrayOf5") |
| Shapes.NameTypeDefault | sdks/go/pkg/beam/util/starcgenx/starcgenx.go:783-784 | every type that is not a slice, map, array or signature (named, basic, pointer, alias, other) is named shimx.Name of its printed form |
| Shapes.NameTypeCallback | sdks/go/pkg/beam/util/starcgenx/starcgenx.go:769-776 | a function type is named "Emit"+emitter name, else "Iter"+iterator name, else shimx.Name of its key |
| Shapes.NameTypeSeesNoAlias | sdks/go/pkg/beam/util/starcgenx/starcgenx.go:767-786 | NameType does not look through aliases: an alias of a slice is named by its printed alias name |
| Scanner.FindPackageRename | sdks/go/pkg/beam/util/starcgenx/starcgenx.go:315-327 | an import alias resolves iff the definitions rename a package under it, to that package's name |
| Scanner.IsReflectTypeOf | sdks/go/pkg/beam/util/starcgenx/starcgenx.go:255-270 | true exactly when the callee is literally reflect.TypeOf |
| Scanner.IsRegisterDoFnCall | sdks/go/pkg/beam/util/starcgenx/starcgenx.go:272-313 | true iff the callee is X.RegisterDoFn with X an identifier that is beam or genx, or an alias of a package of either name |
| Scanner.IsRegisterDoFnCallAsWritten | sdks/go/pkg/beam/util/starcgenx/starcgenx.go:272-313 | isRegisterDoFnCall as written, including the nil *ast.Ident printed in its fail path; RegisterDoFnOnFieldPanics and IsRegisterDoFnCallAgrees state how it differs from IsRegisterDoFnCall |
| Scanner.RegisterDoFnOnFieldPanics | sdks/go/pkg/beam/util/starcgenx/starcgenx.go:286-289 | s.beam.RegisterDoFn(F) makes the check as written panic; the corrected check rejects it |
| Scanner.IsRegisterDoFnCallAgrees | sdks/go/pkg/beam/util/starcgenx/starcgenx.go:272-313 | the check as written panics exactly on a RegisterDoFn selector over a non-identifier, and otherwise agrees with the corrected one |
| Scanner.VisitSpec | sdks/go/pkg/beam/util/starcgenx/starcgenx.go:204-253 | Visit's decision for one node: skip, record an identifier, or panic, by the ordered unwrapping chain; the lemmas below state it shape by shape |
| Scanner.TypeArgumentsRecordTheirName | sdks/go/pkg/beam/util/starcgenx/starcgenx.go:214-248 | T, T{}, &T{}, reflect.TypeOf((*T)(nil)) and reflect.TypeOf(&T{}) all register T |
| Scanner.SelectorRecordsResolvedPackage | sdks/go/pkg/beam/util/starcgenx/starcgenx.go:235-243 | pkg.F registers "name.F" with the package name the alias resolves to, else the alias itself |
| Scanner.OtherCallsSkipped | sdks/go/pkg/beam/util/starcgenx/starcgenx.go:215-219 | a call argument other than reflect.TypeOf(...) is skipped silently |
| Scanner.BareNilConversionSkipped | sdks/go/pkg/beam/util/starcgenx/starcgenx.go:215-219 | a bare (*T)(nil) argument is a call that is not reflect.TypeOf, so it is skipped |
| Scanner.UncheckedAssertionsPanic | sdks/go/pkg/beam/util/starcgenx/starcgenx.go:224-248 | &pkg.DoFn{} and reflect.TypeOf(NewDoFn()) reach unchecked type assertions and panic |
| Scanner.OnlyRegisterCallsRecord | sdks/go/pkg/beam/util/starcgenx/starcgenx.go:204-210 | only a call whose callee selects RegisterDoFn records anything |
| Scanner.RegisterDoFnFinder.Visit | sdks/go/pkg/beam/util/starcgenx/starcgenx.go:204-253 | a visit fails iff the scanner's decision is a panic, and adds exactly the identifier it records |
| Classify.Put | sdks/go/pkg/beam/util/starcgenx/starcgenx.go:537-542 | storing shapes by name: the keys become the old keys plus the shapes' names |
| Classify.PutLastWins | sdks/go/pkg/beam/util/starcgenx/starcgenx.go:537-542 | the last shape stored under a name is the one kept |
| Classify.PutKeepsOthers | sdks/go/pkg/beam/util/starcgenx/starcgenx.go:537-542 | entries under names not stored again are untouched |
| Classify.PutConcat | sdks/go/pkg/beam/util/starcgenx/starcgenx.go:537-542 | storing a then b equals storing a + b |
| Classify.ApplyThen | sdks/go/pkg/beam/util/starcgenx/starcgenx.go:483-486 | applying two harvests in turn equals applying their concatenation |
| Classify.BaseOf | sdks/go/pkg/beam/util/starcgenx/starcgenx.go:490-511 | the base of a type is, once unaliased, not a slice, pointer or array |
| Classify.BaseOfStep | sdks/go/pkg/beam/util/starcgenx/starcgenx.go:493-510 | one round of the unwrapping loop: a container seen through aliases gives way to its element |
| Classify.MapsNotUnwrapped | sdks/go/pkg/beam/util/starcgenx/starcgenx.go:490-511 | a map is its own base, and the unwrapping of []*map[K]V stops at the map |
| Classify.StripPointers | sdks/go/pkg/beam/util/starcgenx/starcgenx.go:410-415 | the dereferenced receiver type, once unaliased, is not a pointer |
| Classify.StripPointersStep | sdks/go/pkg/beam/util/starcgenx/starcgenx.go:411-414 | one round of the dereferencing loop |
| Classify.ReceiverKeyIgnoresPointers | sdks/go/pkg/beam/util/starcgenx/starcgenx.go:410-416 | receivers T, *T, **T, ... all print to the same bucket key |
| Classify.UnwrapAliasOnce | sdks/go/pkg/beam/util/starcgenx/starcgenx.go:452-467 | extractType's alias step; UnwrapAliasOnceKeepsName and AliasUnwrappedOneLevel state it |
| Classify.UnwrapAliasOnceKeepsName | sdks/go/pkg/beam/util/starcgenx/starcgenx.go:452-467 | the registered name is always the printed declared type; only an alias declaration of an alias or named type changes the object (and so the package) consulted, to that type's object |
| Classify.TypeHarvest | sdks/go/pkg/beam/util/starcgenx/starcgenx.go:451-479 | extractType adds no shapes, imports at most one path and registers at most the printed name of the unwrapped type |
| Classify.TypeRegistration | sdks/go/pkg/beam/util/starcgenx/starcgenx.go:467-478 | a type without a package adds nothing; otherwise its path is imported and its name registered unless the path is the universal typex module |
| Classify.AliasUnwrappedOneLevel | sdks/go/pkg/beam/util/starcgenx/starcgenx.go:457-466 | an old-style alias of a named type registers the target; an Alias node registers itself whatever its right-hand side |
| Classify.TupleHarvestCovers | sdks/go/pkg/beam/util/starcgenx/starcgenx.go:513-549 | everything one entry contributes is in the tuple's harvest |
| Classify.CallbacksHarvested | sdks/go/pkg/beam/util/starcgenx/starcgenx.go:535-547 | a function-typed parameter's emitter or iterator shape is harvested, and so is everything its own signature contributes |
| Classify.NamedBaseImported | sdks/go/pkg/beam/util/starcgenx/starcgenx.go:527-534 | a named base type under containers has its package imported |
| Classify.QualifiedName | sdks/go/pkg/beam/util/starcgenx/starcgenx.go:383-386 | fromObj's identifier: the bare name in the package under analysis, else package name "." name; RegistrationMatchesQualifiedName relates it to the scanner |
| Classify.Admit | sdks/go/pkg/beam/util/starcgenx/starcgenx.go:328-367 | under an allow-list: a listed identifier is admitted as itself; otherwise only a lifecycle method with a listed dereferenced receiver type, admitted as that type; what is admitted is always listed |
| Classify.FoundStep | sdks/go/pkg/beam/util/starcgenx/starcgenx.go:337-364 | the found set only grows, is unchanged without an allow-list, and gains only listed identifiers |
| Classify.AddMethod | sdks/go/pkg/beam/util/starcgenx/starcgenx.go:417-422 | a method joins its bucket, made when missing; other buckets are unchanged |
| Classify.FuncStep | sdks/go/pkg/beam/util/starcgenx/starcgenx.go:399-436 | fromObj on a kept function or lifecycle method records it, then walks its signature |
| Classify.FromObjStep | sdks/go/pkg/beam/util/starcgenx/starcgenx.go:369-449 | fromObj's effect on the tables; FuncStep, FromObjStepGrows, WrapsAndFunctionsGuarded, BucketReused, ShimKeyedBySignature and AllowListScopes state its properties |
| Classify.FromObjStepGrows | sdks/go/pkg/beam/util/starcgenx/starcgenx.go:369-449 | fromObj never removes a function, type, import, shim, shape, bucket or method |
| Classify.WrapsAndFunctionsGuarded | sdks/go/pkg/beam/util/starcgenx/starcgenx.go:401-429 | only lifecycle methods change the wraps; a function named init is never registered |
| Classify.BucketReused | sdks/go/pkg/beam/util/starcgenx/starcgenx.go:416-422 | an existing bucket is extended, never replaced; a missing one is made with just the method |
| Classify.ShimKeyedBySignature | sdks/go/pkg/beam/util/starcgenx/starcgenx.go:435 | a kept function files its signature under its key, adding only that key |
| Classify.EqualShapesShareShim | sdks/go/pkg/beam/util/starcgenx/starcgenx.go:435 | two kept functions whose types agree leave one shim entry, holding the later signature |
| Classify.AllowListScopes | sdks/go/pkg/beam/util/starcgenx/starcgenx.go:328-367 | under an allow-list only listed functions are registered, and a new bucket comes from a listed type or a listed method |
| Classify.PassGrows | sdks/go/pkg/beam/util/starcgenx/starcgenx.go:176-183 | a whole pass of fromObj only adds to the tables |
| Classify.PassFoundListed | sdks/go/pkg/beam/util/starcgenx/starcgenx.go:176-183 | a pass under an allow-list finds only listed identifiers |
| Classify.PassConcat | sdks/go/pkg/beam/util/starcgenx/starcgenx.go:176-183 | the pass over definitions then uses is the pass over both |
| Classify.Missing | sdks/go/pkg/beam/util/starcgenx/starcgenx.go:184-189 | an identifier is reported missing iff it is listed and not found |
| Classify.ScenarioOneStruct | sdks/go/pkg/beam/util/starcgenx/starcgenx.go:369-449 | with Foo, Bar and (*Bar).ProcessElement and Bar listed: Bar is a type and its bucket holds ProcessElement; the one shim is "func(int) (string)"; Foo is not registered; Bar is found |
| Classify.ScenarioMissing | sdks/go/pkg/beam/util/starcgenx/starcgenx.go:184-192 | listing Bar and Quux with only Bar found leaves exactly ["Quux"] missing |
| Shims.FuncFor | sdks/go/pkg/beam/util/starcgenx/starcgenx.go:643-661 | makeFunc's record: the printed parameter and result types and a name from their NameType names; ShimKeyMatchesLists and ShimIgnoresNames state its properties |
| Shims.ShimKeyMatchesLists | sdks/go/pkg/beam/util/starcgenx/starcgenx.go:643-661 | a shim's key is spelt from the shim's own parameter and result lists, one per entry |
| Shims.ShimIgnoresNames | sdks/go/pkg/beam/util/starcgenx/starcgenx.go:643-661 | parameter and result names make no difference to a shim |
| Extraction.ConfigFor | sdks/go/pkg/beam/util/starcgenx/starcgenx.go:124-150 | full checking by default; in legacy mode, no uses and no bodies without identifiers, and bodies checked iff some identifier is qualified |
| Extraction.RequiredFor | sdks/go/pkg/beam/util/starcgenx/starcgenx.go:166-175 | no allow-list iff there are no identifiers, else exactly the identifiers |
| Extraction.Outcome | sdks/go/pkg/beam/util/starcgenx/starcgenx.go:184-192 | failure iff some identifier was not found, listing the missing ones in order |
| Extraction.ChecksFuncBodies | sdks/go/pkg/beam/util/starcgenx/starcgenx.go:140-148 | true iff some identifier contains "." |
| Extraction.MissingIdentifiers | sdks/go/pkg/beam/util/starcgenx/starcgenx.go:184-189 | the loop collects exactly the missing identifiers in order |
| Extraction.RegistrationMatchesQualifiedName | sdks/go/pkg/beam/util/starcgenx/starcgenx.go:235-248 | beam.RegisterDoFn(F) and beam.RegisterDoFn(alias.F) record exactly the identifier fromObj computes for F, local or from the renamed package, so the function is kept |
| Extraction.Enumerate | sdks/go/pkg/beam/util/starcgenx/starcgenx.go:584-592 | ranging over a set lists every member exactly once |
| Extraction.ValuesOf | sdks/go/pkg/beam/util/starcgenx/starcgenx.go:607-615 | ranging over a shape map lists exactly its values, one per key |
| Extraction.Extractor.constructor | sdks/go/pkg/beam/util/starcgenx/starcgenx.go:38-51 | NewExtractor: empty tables and no identifiers |
| Extraction.Extractor.IsRequired | sdks/go/pkg/beam/util/starcgenx/starcgenx.go:328-367 | keeps iff there is no allow-list or Admit admits; marks exactly what was admitted |
| Extraction.Extractor.FromObj | sdks/go/pkg/beam/util/starcgenx/starcgenx.go:369-449 | the tables become FromObjStep of the old tables and the found set FoundStep of the old one |
| Extraction.Extractor.RecordFunc | sdks/go/pkg/beam/util/starcgenx/starcgenx.go:401-435 | the bookkeeping for a kept function or lifecycle method |
| Extraction.Extractor.FromAsts | sdks/go/pkg/beam/util/starcgenx/starcgenx.go:123-196 | a type-check failure is reported with the package; a scan panic fails; otherwise the scanned identifiers are appended, the tables are the pass over definitions and recorded uses, and the result fails iff a listed identifier was not found |
| Extraction.Extractor.Configure | sdks/go/pkg/beam/util/starcgenx/starcgenx.go:124-150 | the checker settings are ConfigFor of the legacy flag and the identifiers |
| Extraction.Extractor.RunPass | sdks/go/pkg/beam/util/starcgenx/starcgenx.go:176-183 | fromObj over definitions then uses has the effect of the pass over both |
| Extraction.Extractor.FromEntries | sdks/go/pkg/beam/util/starcgenx/starcgenx.go:177-179 | fromObj over entries in turn has the effect of the pass over them |
| Extraction.Extractor.ScanRegistrations | sdks/go/pkg/beam/util/starcgenx/starcgenx.go:158-161 | the walk fails iff some node panics, and otherwise gives exactly the identifiers registered |
| Extraction.Extractor.AppendIds | sdks/go/pkg/beam/util/starcgenx/starcgenx.go:162-164 | the old identifiers are kept, followed by the scanned ones, each exactly once and nothing else |
| Extraction.Extractor.MakeFunc | sdks/go/pkg/beam/util/starcgenx/starcgenx.go:643-661 | the shim of a signature: printed parameter and result types, and a name from their NameType names |
| Extraction.Extractor.Generate | sdks/go/pkg/beam/util/starcgenx/starcgenx.go:583-641 | every function and type is listed once; there is one wrapper per bucket, named by shimx.Name, with one shim per method; there is one shim per key; every emitter and iterator is listed; every import except "" and the package is listed |
| Extraction.Extractor.ImportList | sdks/go/pkg/beam/util/starcgenx/starcgenx.go:618-624 | the imports minus "" and the package itself, each once |
| Extraction.Extractor.WrapList | sdks/go/pkg/beam/util/starcgenx/starcgenx.go:594-603 | one wrapper per receiver type, with one shim per method of its bucket |
| Extraction.Extractor.ShimList | sdks/go/pkg/beam/util/starcgenx/starcgenx.go:604-609 | one shim per signature key, built from the filed signature |
| Extraction.Extractor.ReceiverTypeString | sdks/go/pkg/beam/util/starcgenx/starcgenx.go:350-356 | the dereferencing loop yields the printed receiver key |
| Extraction.Extractor.ExtractFromContainer | sdks/go/pkg/beam/util/starcgenx/starcgenx.go:490-511 | the loop returns the base type, which once unaliased is not a container |
| Extraction.Extractor.ExtractType | sdks/go/pkg/beam/util/starcgenx/starcgenx.go:451-479 | the tables gain exactly what TypeHarvest says |
| Extraction.Extractor.ExtractFromSignature | sdks/go/pkg/beam/util/starcgenx/starcgenx.go:481-487 | the tables gain exactly what SigHarvest says |
| Extraction.Extractor.ExtractFromTuple | sdks/go/pkg/beam/util/starcgenx/starcgenx.go:513-549 | the tables gain exactly what TupleHarvest says, entry by entry |
| Extraction.Extractor.ExtractFromVar | sdks/go/pkg/beam/util/starcgenx/starcgenx.go:514-548 | one round of the loop gains exactly VarHarvest |
| Extraction.Extractor.RegisterBase | sdks/go/pkg/beam/util/starcgenx/starcgenx.go:519-534 | an aliased or named base type is imported and registered |
| Extraction.Extractor.ExtractCallback | sdks/go/pkg/beam/util/starcgenx/starcgenx.go:535-547 | a function-typed entry is stored as an emitter or iterator, then its signature is walked |

## Left out

- Type checking (`conf.Check`) is not modelled. Its result is the input `check`: definitions and uses as (identifier, object) sequences, plus the import renames among the definitions. The importer and file set are not modelled.
- The order in which Go ranges over `info.Defs`, `info.Uses` and `visitor.idsToFind` is not modelled. The first two are the order of the input sequences; the last is any order (a choice loop). Generate's ranges over its maps are also in any order.
- `ast.Walk` is not modelled: its traversal is the input sequence of expression nodes in visiting order. Statements and declarations are not modelled, since `Visit` ignores every node that is not a call.
- Debug output is not modelled: the buffer `w`, `Print`, `Printf`, `Summary`, `Bytes` and the `Debug` flag only write diagnostic text. The one exception is the debug printing in the fail path of isRegisterDoFnCall, which can panic. Only `Scanner.IsRegisterDoFnCallAsWritten` models that panic (see Findings). The scanner and the extractor use the corrected check, as the lines below say.
- Scanner.VisitSpec: uses the corrected `IsRegisterDoFnCall`. On `s.beam.RegisterDoFn(F)` it gives Skip, where the source panics at starcgenx.go:286-289.
- Scanner.RegisterDoFnFinder.Visit: uses the corrected `IsRegisterDoFnCall`. On `s.beam.RegisterDoFn(F)` it skips the node, where the source panics at starcgenx.go:286-289.
- Extraction.Extractor.ScanRegistrations: walks with the corrected `Visit`, so `s.beam.RegisterDoFn(F)` does not stop the walk, where the source panics.
- Extraction.Extractor.FromAsts: scans with the corrected check. On a package calling `s.beam.RegisterDoFn(F)` it goes on with the pass, where the source panics at starcgenx.go:286-289.
- Shapes.NameType: uses the corrected `MakeInput`. On an iterator whose parameter is an alias of a pointer it names the iterator, where the source panics in deref at starcgenx.go:753-756.
- Extraction.Extractor.ExtractCallback: stores iterators built by the corrected `MakeInput`, so an alias-of-pointer parameter gives an iterator where the source panics at starcgenx.go:541.
- Extraction.Extractor.MakeFunc: names its parameters with `NameType`, which uses the corrected `MakeInput`; the source panics there on an alias-of-pointer iterator parameter.
- Extraction.Extractor.Generate: builds its shims with `MakeFunc`, so it inherits that corrected behaviour.
- Shapes.Qualifier: uses the corrected `Tail`, while the source's qualifier calls tail as written (starcgenx.go:552). The two agree on every package name that is non-empty and has no "/" (`TailAgreesOnPackageNames`). On a package named "" the source would panic, where the model returns "".
- Extraction.Extractor.IsRequired: requires a found set whenever there is an allow-list. The panic for a missing found set at starcgenx.go:332-334 is therefore excluded rather than modelled. FromAsts always creates both together.
- `shimx.File` and the template are not modelled. Generate returns the `Top` record instead of the rendered bytes.
- The internals of `shimx.Name`, `shimx.FuncName` and `graph.IsLifecycleMethod` are not modelled. They are parameters in `Env`.
- Only the go/types kinds the Extractor distinguishes are modelled. Variadic signatures, generics (type parameters and instances), struct, interface and channel types, and untyped constants are printed as opaque text (`Other`).
- Scanner.FindPackageRename: the definitions' import renames are a map from alias to package name. The first match of `findPackageRename`'s scan over `info.Defs` is not modelled; with unique aliases the two agree.
- Extraction.Extractor.FromAsts: the type-check error is modelled as the checker's message with the package name, not the wrapped error text. A scan panic is reported as an error value; in the source it aborts the program.
- `allExported` is never read or changed by the core outside `Summary`, so it is not modelled.
- `MakeEmitter` and `MakeInput` build `Shape` records. The rendered `Type` key and the names come from `SigKey`, `Render` and `shimx.Name` as in the source. The fact that shimx keeps them in separate record types is not modelled.

## Findings

| source | as written | input that shows it | evidently intended | confidence | as-written member | corrected member |
|---|---|---|---|---|---|---|
| sdks/go/pkg/beam/util/starcgenx/starcgenx.go:559-564 | `strings.LastIndex("/", path)` has its arguments swapped. It searches for the path inside "/", so every non-empty path is returned whole, and "" panics with an out-of-range slice. Even with the arguments swapped back, `path[i:]` would keep the "/". Only package names, which have no "/", reach it today. | "a/b" gives "a/b" | the last segment, "b" | not executed | Shapes.TailAsWrittenMissesSegment | Shapes.Tail |
| sdks/go/pkg/beam/util/starcgenx/starcgenx.go:285-289 | When the receiver of a `RegisterDoFn` selector is not an identifier, the failed assertion leaves `iden` a nil `*ast.Ident`. The "fail" diagnostic then calls `types.ExprString(iden)`, and that argument is evaluated even when debugging is off, so the nil pointer is dereferenced. | `s.beam.RegisterDoFn(F)` | not a registration call, so the result is false | not executed | Scanner.RegisterDoFnOnFieldPanics | Scanner.IsRegisterDoFnCall |
| sdks/go/pkg/beam/util/starcgenx/starcgenx.go:711-719, 754-756 | makeInput accepts a parameter whose type is a pointer after `types.Unalias`. `deref` then asserts `*types.Pointer` on the type without unaliasing it, so a parameter whose type is an alias of a pointer panics. | `func(P) bool` with `type P = *int` | an iterator over int | not executed | Shapes.AliasedPointerIteratorPanics | Shapes.MakeInput |
