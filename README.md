# qilang: the AST, the two C++ backends and the parser diagnostics

This project models the core of the qilang IDL compiler in Dafny and proves
properties of the model:

- **The AST** (`Ast`, `ast.dfy`). These are the node categories Stmt, Decl, Expr, ConstData and
  TypeExpr, with their `NodeKind` / `NodeType` tags, the five double-dispatch
  visitors, the constructors with optional children, the `ImportNode`
  empty-list check, the operator tables, `hasVarArgs` / `hasKeywordArgs` and
  `AtNode::sender`.
- **Parser diagnostics** (`Diagnostics`, `diagnostics.dfy`). This covers `makeLocation`, the caret line of
  `getErrorLine`, the severity prefix of `Diagnostic::print`, the
  parse-once state machine of `Parser` and the free function `parse`.
- **The shared formatting engine** (`Formatting`, `formatting.dfy`). Output is a sequence of tokens, one per
  `<<` operand, and `std::endl` is the token "\n". Format attributes gate
  optional text. The module also holds the joins, decimal numbers and qualified names, and the
  helpers whose code lives in headers outside the model, gathered in a
  `Helpers` record of total functions: type and literal rendering,
  `cppParamsFormat`, `splitPkgName`, `formatNs`, `pkgNameToAPI`, the
  indentation text and the namespace escaper.
- **The C++ interface backend** of `src/format_cpp_interface.cpp` (`CppInterface`,
  `cpp_interface.dfy`). This is `QiLangGenAsyncIface`, `QiLangGenIface`,
  `QiLangGenIfaceSigPropParam` and `QiLangGenIfaceSigPropParamInit`.
- **`QiLangGenObjectDef` and `genCppObjectInterface`** (`CppObjectDef`, `object_def.dfy`).
- **The C++ registration backend** of `src/format_cppr.cpp` (`CppRegistration`,
  `cpp_registration.dfy`). This is `CppBindGenFormatter` and `CppBindQiLangGen`, with
  `genCppObjectRegistration`.

Every visitor class of the backends is a Dafny `class`:

- It has the output buffer `out` and the fields the visits update: the
  indentation `level`, the format attributes, `first`, `currentNs`, `id`,
  `currentParent` and `toclose`.
- Its visit methods are proved against specification functions. A method
  leaves `level` and the attributes as it found them, which is what
  `ScopedIndent` and `ScopedFormatAttr*` do. Its status is the status of
  the specification function. When it succeeds, it has appended exactly
  the function's tokens and left the function's state.
- The specification functions walk a list the way the loops do, last
  element outermost. Lemmas relate them to what the source promises.

A visit the source leaves to a default visitor outside the model gives
`NotModelled`. The model then claims nothing about that output.

## Model

| member | source | states |
|---|---|---|
| Ast.NewNode | src/node.cpp:18-25 | A node keeps the location and comment it was built with. Its kind and type are the ones its variant determines. |
| Ast.KindIsCategory | qilang/node.hpp:304-663 | A node's kind is `Expr`, `ConstData`, `TypeExpr`, `Stmt` or `Decl` exactly when it belongs to that category, as each category's base constructor sets it. |
| Ast.KindFollowsType | qilang/node.hpp:170-213 | The kind is determined by the type tag: every `NodeType` belongs to one `NodeKind`. |
| Ast.DeclTypeIdentifiesVariant | qilang/node.hpp:655-801 | The type tag of a declaration identifies its variant exactly, in both directions, for every declaration kind. |
| Ast.StmtTypeIdentifiesVariant | qilang/node.hpp:534-653 | The type tag of a statement identifies its variant exactly, in both directions. |
| Ast.CollectionLiteralTags | qilang/node.hpp:431-465 | List and tuple literals keep their children in order, and a dict literal keeps its key/value pairs in order. The dict is tagged `MapData`. |
| Ast.AcceptDeclCallsOwnOverload | qilang/node.hpp:96-110 | `accept` on a declaration calls the visitor overload for the declaration's own type, and that type is of kind `Decl`. |
| Ast.AcceptStmtCallsOwnOverload | qilang/node.hpp:112-128 | `accept` on a statement calls the overload for its own type, of kind `Stmt`. |
| Ast.AcceptExprCallsOwnOverload | qilang/node.hpp:130-141 | `accept` on an expression calls the overload for its own type, of kind `Expr`. |
| Ast.AcceptDataCallsOwnOverload | qilang/node.hpp:143-156 | `accept` on a literal calls the overload for its own type, of kind `ConstData`. |
| Ast.AcceptTypeExprCallsOwnOverload | qilang/node.hpp:158-167 | `accept` on a type expression calls the overload for its own type, of kind `TypeExpr`. |
| Ast.UnaryOpCodeToString | src/node.cpp:27-37 | The result is "-" exactly for unary minus and "!" exactly for negation. |
| Ast.BinaryOpCodeToStringInjective | src/node.cpp:39-95 | The 17 operator strings are pairwise distinct, so the table is injective. Every string has one or two characters. |
| Ast.HasArgsReadOnlyTheTail | src/node.cpp:97-112 | `hasKeywordArgs` and `hasVarArgs` depend only on the last two arguments: a prefix of any length does not change them. |
| Ast.MarkersFoundWhereverPresent | src/node.cpp:97-112 | On an argument list whose markers are well placed, `hasKeywordArgs` holds exactly when a keyword collector occurs anywhere, and `hasVarArgs` exactly when a variadic argument occurs anywhere. |
| Ast.Sender | src/node.cpp:114-121 | A variable sender yields its name. Any other sender yields "COMPLEX expression". |
| Ast.SenderPlaceholderIsAmbiguous | src/node.cpp:114-121 | A variable named "COMPLEX expression" and a complex sender expression give the same sender text. |
| Ast.NewImport | qilang/node.hpp:557-563 | The name-only import keeps the name and imports no symbols explicitly. |
| Ast.NewImportList | qilang/node.hpp:564-571 | An explicit symbol list fails with "Empty import list" exactly when it is empty. Otherwise the node keeps the name and the symbols in order. |
| Ast.ExplicitImportDiffersFromWholePackage | qilang/node.hpp:557-580 | An explicit import that was accepted is never the whole-package import of the same name. |
| Ast.EffectiveRet | qilang/node.hpp:723-745 | A function's effective return type is its declared one if present, and the no-value type otherwise. |
| Ast.EffectiveConstType | qilang/node.hpp:777-801 | A constant's effective type is its declared one if present, and the type of its literal otherwise. |
| Ast.NewFnDecl | qilang/node.hpp:732-736 | The two-argument function constructor keeps name and arguments and leaves the return type absent. |
| Ast.NewConstDecl | qilang/node.hpp:787-792 | The three-argument constant constructor keeps package, name and data and leaves the type absent. |
| Ast.NewInterfaceDecl | qilang/node.hpp:700-706 | The three-argument interface constructor keeps package, name and members in order and leaves `inherits` empty. |
| Ast.NewVarDef | qilang/node.hpp:591-594 | The two-argument variable definition keeps name and type and has no data. |
| Ast.ShortConstructorsDefaults | qilang/node.hpp:723-801 | Through the short constructors, the effective return type is the no-value type and the effective constant type is the literal's type: the same effective types as the full constructors given those types. |
| Diagnostics.MakeLocation | src/parser.cpp:101-108 | The location copies both positions. Its file name is the begin position's file name, or "" when there is none. |
| Diagnostics.Repeat | src/parser.cpp:139-142 | The counting loops produce exactly `n` copies of the character. |
| Diagnostics.GetErrorLine | src/parser.cpp:110-145 | The method with its two counting loops computes the error line: "" without a location or source line, and otherwise line, spaces, carets. |
| Diagnostics.CaretMarksTheSpan | src/parser.cpp:129-144 | The result is the source line, "\n", `beg_column - 1` spaces, at least one caret, then "\n". A multi-line span gets exactly one caret. On one line ending after it starts, the carets run up to column `end_column - 1`. |
| Diagnostics.NoLocationNoCaret | src/parser.cpp:114-119 | With a zero begin column or line, or no readable source line, the error line is empty. |
| Diagnostics.SeverityPrefix | src/parser.cpp:73-85 | Error prints "error: ", Warning "warning: ", Info "info: "; the prefix is empty exactly for any other severity. |
| Diagnostics.Print | src/parser.cpp:70-89 | The printed text is the location, ":", the severity prefix, the message and a newline, in that order, followed by the caret block and nothing else. |
| Diagnostics.PrintShowsSeverity | src/parser.cpp:70-89 | Two diagnostics with a named severity, the same location and the same message print the same text only if their severities are equal. |
| Diagnostics.GrammarOutcome | src/parser.cpp:62-67 | When the grammar throws, the AST is cleared and exactly one error diagnostic is appended, carrying the exception's message and location. Otherwise the statements are appended and no message is added. |
| Diagnostics.Parser.constructor | src/parser.cpp:26-36 | A new parser has not parsed and holds the fresh result for its file. |
| Diagnostics.Parser.Parse | src/parser.cpp:43-68 | The grammar runs at most once: a second call leaves the result unchanged. |
| Diagnostics.Parser.Result | src/parser.cpp:96-99 | `result()` parses first, so it always returns the result after the single grammar run. |
| Diagnostics.ResultTwice | src/parser.cpp:96-99 | Asking for the result twice returns the same result, that of one grammar run. |
| Diagnostics.ParseFile | src/parser.cpp:148-157 | The file name is always set. An unopened file gives exactly one error "Can't open file '<name>'" without parsing. An opened file gives the parser's result. |
| Formatting.GateEmitsOnlyWhenActive | src/format_cpp_interface.cpp:59-64 | An attribute-gated text appears exactly while the attribute is active, and is empty otherwise. |
| Formatting.ConcatAppend | src/format_cpp_interface.cpp:37-51 | The text of two token runs written one after the other is the concatenation of their texts. |
| Formatting.Times | src/format_cppr.cpp:135-139 | The closing loop writes `n` copies of its tokens. |
| Formatting.JoinSnoc | src/format_cpp_interface.cpp:315 | Joining one more item adds the separator and the item, or just the item on an empty list. |
| Formatting.JoinAppend | src/format_cpp_interface.cpp:40-44 | Writing the separator only when something came before extends the joined text by one item. |
| Formatting.JoinLength | src/format_cpp_interface.cpp:315 | A join of `k` items holds the items and exactly `k - 1` separators. |
| Formatting.Prefixed | src/format_cpp_interface.cpp:331-332 | Each field name is preceded by ", ", in order. |
| Formatting.Suffixed | src/format_cpp_interface.cpp:313-314 | Each field name is followed by "()", in order. |
| Formatting.JoinWithoutSeparator | src/format_cpp_interface.cpp:333 | A join with an empty separator is plain concatenation. |
| Formatting.SeparatedTokensJoin | src/format_cppr.cpp:72-76 | Writing ", " after every field but the last produces the text of `join(fields, ", ")`: no leading or trailing separator. |
| Formatting.PrefixedJoin | src/format_cpp_interface.cpp:310-316 | The first item followed by ", "-prefixed others is the join of all items. |
| Formatting.NatToString | src/format_cppr.cpp:37 | A decimal number has at least one character, and all of them are digits. |
| Formatting.NatToStringInjective | src/format_cppr.cpp:37 | Distinct ids print as distinct decimal texts. |
| Formatting.NsTokens | src/format_cpp_interface.cpp:272-274 | The namespace loop writes "::" and a segment for each segment. |
| Formatting.QualifiedName | src/format_cpp_interface.cpp:271-275 | The loop writes the fully qualified name `::a::b::Name`. |
| Formatting.QualifiedTokensShape | src/format_cpp_interface.cpp:325-329 | The qualified name puts "::" before every segment, in order, and before the name. |
| Formatting.NamespaceOpens | src/format_cpp_interface.cpp:417-423 | A package writes five tokens per namespace it opens. |
| Formatting.NamespaceOpensShape | src/format_cpp_interface.cpp:417-423 | A package opens `namespace <segment> {` for each segment, in order. |
| CppInterface.WriteBaseList | src/format_cpp_interface.cpp:38-45 | The base-list loop writes the tokens of the base list. |
| CppInterface.BaseNames | src/format_cpp_interface.cpp:41 | There is one `virtual public` entry per base. |
| CppInterface.BaseRunSnoc | src/format_cpp_interface.cpp:40-44 | Each loop step appends one base, followed by ", " unless it is the last. |
| CppInterface.BaseRunText | src/format_cpp_interface.cpp:40-44 | After `k` steps the text is the join of the first `k` entries, followed by ", " unless all are written. |
| CppInterface.BaseListText | src/format_cpp_interface.cpp:38-45 | With bases, the list is ": " and the `virtual public <Base><suffix>` entries in order, joined by ", ". With no bases, nothing is written. |
| CppInterface.Members | src/format_cpp_interface.cpp:87-107 | The declarations the constructor lists are exactly the signals and properties. |
| CppInterface.ParamEntries | src/format_cpp_interface.cpp:93-106 | There is one constructor parameter per signal or property. |
| CppInterface.ParamEntryText | src/format_cpp_interface.cpp:93-96 | A parameter's tokens spell `qi::Signal< … >& name` or `qi::Property< … >& name`. |
| CppInterface.ParamEntryTokens | src/format_cpp_interface.cpp:88-107 | A member writes ", " before its entry unless it is the first, and clears `first`. |
| CppInterface.MembersSnoc | src/format_cpp_interface.cpp:174-176 | One more declaration adds itself to the members exactly when it is a signal or property. |
| CppInterface.SigPropParamsSnoc | src/format_cpp_interface.cpp:173-176 | Visiting one more declaration extends the parameter list by that visit's text and flag. |
| CppInterface.ParamListStep | src/format_cpp_interface.cpp:173-176 | The joined-list invariant survives visiting one more signal or property. |
| CppInterface.ParamListSkip | src/format_cpp_interface.cpp:87 | A function declaration writes no parameter and keeps `first`. |
| CppInterface.ParamListJoinsMembers | src/format_cpp_interface.cpp:77-108 | The constructor's parameter list is the entries of the signals and properties in order, joined by ", ". Functions contribute nothing. `first` remains set exactly when no entry was written. |
| CppInterface.InitListFollowsMembers | src/format_cpp_interface.cpp:110-144 | The initializer list has one `name(name)` line per signal or property, in order, starting with ": ". `first` ends cleared exactly when some member exists. |
| CppInterface.AsyncWrapsSyncReturnType | src/format_cpp_interface.cpp:58-65 | The async form of a function is the sync form with its effective return type wrapped in `qi::Future< … >`. "virtual " and " = 0" appear exactly while the virtual attribute is active, and the export macro exactly while the api attribute is. |
| CppInterface.MembersOnlyInSyncClass | src/format_cpp_interface.cpp:67-70 | The async backend writes nothing for a signal or property. The sync backend writes its member block. |
| CppInterface.SyncMemberHasAccessor | src/format_cpp_interface.cpp:205-232 | A signal or property is declared as `qi::Signal< … >& name;` / `qi::Property< … >& name;` and followed by an accessor `_name()` that returns it. |
| CppInterface.ClassHeadersNameTheInterface | src/format_cpp_interface.cpp:37-158 | The async class is `class <Name>Async` and the sync class is `class <Name>`. |
| CppInterface.SyncClassShape | src/format_cpp_interface.cpp:169-190 | The sync class's constructor opens with `<Name>(` and ends by declaring `virtual <Name>Async& async() = 0;`. The class ends with `typedef qi::Object<Name> NamePtr;`. |
| CppInterface.AsyncDeclsOne | src/format_cpp_interface.cpp:25-75 | A walk over one declaration is that declaration's visit. |
| CppInterface.AsyncDeclsStep | src/format_cpp_interface.cpp:50 | The async walk extends by each visit's text until a visit fails. |
| CppInterface.AsyncDeclsStopAtError | src/format_cpp_interface.cpp:50 | The first failing visit decides the async walk's outcome. |
| CppInterface.SyncDeclsOne | src/format_cpp_interface.cpp:146-237 | A sync walk over one declaration is that declaration's visit. |
| CppInterface.SyncDeclsStep | src/format_cpp_interface.cpp:187 | The sync walk extends by each visit's text until a visit fails. |
| CppInterface.SyncDeclsStopAtError | src/format_cpp_interface.cpp:187 | The first failing visit decides the sync walk's outcome. |
| CppInterface.SigPropParamsStopAtError | src/format_cpp_interface.cpp:174-176 | The first failing visit decides the parameter list's outcome. |
| CppInterface.SigPropInitsStep | src/format_cpp_interface.cpp:180-181 | The initializer walk extends by each visit's text and flag. |
| CppInterface.SigPropInitsStopAtError | src/format_cpp_interface.cpp:180-181 | The first failing visit decides the initializer walk's outcome. |
| CppInterface.AsyncIfaceGen.constructor | src/format_cpp_interface.cpp:28-31 | A new async generator has empty output, indentation 0 and inactive attributes. |
| CppInterface.AsyncIfaceGen.VisitDecl | src/format_cpp_interface.cpp:33-70 | A visit appends exactly the declaration's async text, or reports its error. Indentation and attributes are restored. |
| CppInterface.AsyncIfaceGen.VisitInterface | src/format_cpp_interface.cpp:33-52 | The interface visit appends the `<Name>Async` class, with members one level deeper. The virtual attribute is active and the api attribute blocked, and both are restored afterwards. |
| CppInterface.AsyncIfaceGen.WriteHead | src/format_cpp_interface.cpp:37-49 | The head appends the class line, base list, `public:` and virtual destructor. |
| CppInterface.AsyncIfaceGen.Scoped | src/format_cpp_interface.cpp:50 | `scoped` walks the members one level deeper and restores the indentation. |
| CppInterface.AsyncIfaceGen.Walk | src/format_cpp_interface.cpp:50 | The loop appends the visits in order and stops at the first error. |
| CppInterface.SigPropParamGen.constructor | src/format_cpp_interface.cpp:82-85 | A new parameter writer starts with `first` set. |
| CppInterface.SigPropParamGen.Accept | src/format_cpp_interface.cpp:87-107 | One visit appends the parameter text and updates `first` as the specification says. The const attribute is restored. |
| CppInterface.SigPropParamInitGen.constructor | src/format_cpp_interface.cpp:115-118 | A new initializer writer starts with `first` set, at the given indentation. |
| CppInterface.SigPropParamInitGen.VisitDecl | src/format_cpp_interface.cpp:120-143 | One visit appends the initializer line and updates `first`. |
| CppInterface.SigPropParamInitGen.Scoped | src/format_cpp_interface.cpp:181 | `scoped` writes the initializers one level deeper and leaves `first` as the last initializer left it. |
| CppInterface.SigPropParamInitGen.Walk | src/format_cpp_interface.cpp:181 | The loop appends the initializers in order, leaves `first` as the last initializer left it, and stops at the first error. |
| CppInterface.IfaceGen.constructor | src/format_cpp_interface.cpp:149-152 | A new sync generator has empty output, indentation 0 and inactive attributes. |
| CppInterface.IfaceGen.VisitDecl | src/format_cpp_interface.cpp:154-232 | A visit appends exactly the declaration's sync text, or reports its error. Indentation and attributes are restored. |
| CppInterface.IfaceGen.VisitMember | src/format_cpp_interface.cpp:205-232 | A signal or property appends its member and accessor block. |
| CppInterface.IfaceGen.VisitInterface | src/format_cpp_interface.cpp:154-191 | The interface visit appends the `<Name>` class with virtual active and api blocked, and restores both. |
| CppInterface.IfaceGen.WriteClass | src/format_cpp_interface.cpp:158-190 | The class appends head, constructor, members and typedef, in that order. |
| CppInterface.IfaceGen.WriteHead | src/format_cpp_interface.cpp:158-168 | The head appends the class line, base list and `public:`. |
| CppInterface.IfaceGen.WriteCtor | src/format_cpp_interface.cpp:169-186 | The constructor block appends the parameters, initializers, body, destructor and `async()`, or reports the first error. |
| CppInterface.IfaceGen.CtorInits | src/format_cpp_interface.cpp:179-182 | The initializer writer runs two levels deeper than the class. |
| CppInterface.IfaceGen.CtorParams | src/format_cpp_interface.cpp:172-177 | The parameter loop produces the parameter list over all members. |
| CppInterface.IfaceGen.Scoped | src/format_cpp_interface.cpp:187 | `scoped` walks the members one level deeper. |
| CppInterface.IfaceGen.Walk | src/format_cpp_interface.cpp:187 | The loop appends the visits in order and stops at the first error. |
| CppObjectDef.StructFieldNamesAppend | src/format_cpp_interface.cpp:303-309 | Collecting field names over two runs of declarations concatenates the two collections. |
| CppObjectDef.StructFieldNamesMember | src/format_cpp_interface.cpp:303-309 | A name is collected exactly when some struct-field declaration lists it. |
| CppObjectDef.CollectFields | src/format_cpp_interface.cpp:298-309 | The nested loops collect the names of every field declaration, flattened in declaration order. |
| CppObjectDef.PrefixedFirst | src/format_cpp_interface.cpp:331-332 | The ", "-prefixed list starts with the first name. |
| CppObjectDef.TypeStructFieldList | src/format_cpp_interface.cpp:330-333 | The `QI_TYPE_STRUCT` field text is ", " followed by the names joined by ", ", or empty with no fields. |
| CppObjectDef.FieldLines | src/format_cpp_interface.cpp:350-357 | A field declaration writes one six-token line per name. |
| CppObjectDef.FieldLinesShape | src/format_cpp_interface.cpp:350-357 | Line `i` declares the `i`-th name with the field's rendered type. |
| CppObjectDef.StructListsFieldsInOrder | src/format_cpp_interface.cpp:294-337 | The constructor initializers are the names joined as `f()` entries, omitted exactly when there are no fields. `QI_TYPE_STRUCT` lists the same names in the same order. |
| CppObjectDef.LastPackageDecidesNamespaces | src/format_cpp_interface.cpp:417-423 | After a walk, `currentNs` is the segments of the last package statement: a later package replaces `currentNs` and does not extend it. |
| CppObjectDef.OnePackageBalances | src/format_cpp_interface.cpp:408-423 | With at most one package statement, the footer closes exactly as many namespaces as were opened. |
| CppObjectDef.EarlierPackagesStayOpen | src/format_cpp_interface.cpp:408-423 | The footer never closes more namespaces than were opened. |
| CppObjectDef.PackageOpensItsNamespaces | src/format_cpp_interface.cpp:417-423 | Every package statement's segments are counted among the namespaces opened. |
| CppObjectDef.EarlierPackageLeftOpen | src/format_cpp_interface.cpp:408-423 | A package statement followed by another one stays open: the footer closes at least its segment count fewer namespaces than were opened. |
| CppObjectDef.PackageSwitchLeavesNamespacesOpen | src/format_cpp_interface.cpp:408-423 | Two package statements, the first with a segment: the footer closes strictly fewer namespaces than were opened. |
| CppObjectDef.FooterClosesLastPackage | src/format_cpp_interface.cpp:408-414 | The file is the header, the visits, one "}" line per segment of the last package, a blank line and `#endif`. |
| CppObjectDef.StatementOutcomes | src/format_cpp_interface.cpp:425-435 | ObjectDef, PropertyDef and At statements throw "unimplemented", and only they do. Import writes nothing. Package sets `currentNs` to its segments. |
| CppObjectDef.EnumFieldOutcomes | src/format_cpp_interface.cpp:371-380 | A type-kind enum field throws "type in enum not supported in cppi atm". A const-kind one writes `name = value,`. |
| CppObjectDef.InterfaceWritesBothClasses | src/format_cpp_interface.cpp:260-281 | An interface writes the async class first and ends with the `ForceProxyInclusion` block. |
| CppObjectDef.ObjDeclsOne | src/format_cpp_interface.cpp:260-385 | A walk over one declaration is that declaration's visit. |
| CppObjectDef.ObjDeclsStep | src/format_cpp_interface.cpp:297 | The walk extends by each visit's text until a visit fails. |
| CppObjectDef.ObjDeclsStopAtError | src/format_cpp_interface.cpp:297 | The first failing visit decides the walk's outcome. |
| CppObjectDef.ObjItemsStep | src/format_cpp_interface.cpp:449-452 | The top-level walk extends by each item's text and namespaces. |
| CppObjectDef.ObjItemsStopAtError | src/format_cpp_interface.cpp:449-452 | The first failing item decides the file's outcome. |
| CppObjectDef.ObjectDefGen.constructor | src/format_cpp_interface.cpp:242-252 | A new generator exports under `pkgNameToAPI(package)` with the api attribute forced active. It starts with no namespaces. |
| CppObjectDef.ObjectDefGen.Format | src/format_cpp_interface.cpp:393-452 | `format` appends the header, every item and the footer of the last package, or reports the first error. |
| CppObjectDef.ObjectDefGen.FormatFooter | src/format_cpp_interface.cpp:408-414 | The footer appends one "}" line per current namespace, then the `#endif` line. |
| CppObjectDef.ObjectDefGen.WalkItems | src/format_cpp_interface.cpp:451 | The top-level loop appends the items in order and stops at the first error. |
| CppObjectDef.ObjectDefGen.VisitItem | src/format_cpp_interface.cpp:258 | A top-level node is dispatched on its category. |
| CppObjectDef.ObjectDefGen.VisitStmt | src/format_cpp_interface.cpp:417-445 | A statement appends its text and sets `currentNs`, or reports its error. |
| CppObjectDef.ObjectDefGen.VisitPackage | src/format_cpp_interface.cpp:417-423 | A package replaces `currentNs` by its segments and opens one namespace per segment. |
| CppObjectDef.ObjectDefGen.VisitDecl | src/format_cpp_interface.cpp:260-385 | A declaration appends its text, or reports its error, and leaves `currentNs` alone. |
| CppObjectDef.ObjectDefGen.VisitInterface | src/format_cpp_interface.cpp:260-281 | An interface runs the async and the sync generator on the same output, then writes the proxy block. |
| CppObjectDef.ObjectDefGen.VisitStruct | src/format_cpp_interface.cpp:294-337 | A struct appends its body, constructor and `QI_TYPE_STRUCT` line. |
| CppObjectDef.ObjectDefGen.WriteStructTail | src/format_cpp_interface.cpp:299-336 | The struct tail appends the constructor over the collected names and the registration. |
| CppObjectDef.ObjectDefGen.VisitEnum | src/format_cpp_interface.cpp:358-370 | An enum appends its fields one level deeper and its `QI_TYPE_ENUM` line. |
| CppObjectDef.ObjectDefGen.VisitEnumField | src/format_cpp_interface.cpp:371-380 | An enum field appends `name = value,` or reports the unsupported-kind error. |
| CppObjectDef.ObjectDefGen.VisitConst | src/format_cpp_interface.cpp:339-348 | A constant appends `const <type> name = value;`. |
| CppObjectDef.ObjectDefGen.VisitStructField | src/format_cpp_interface.cpp:350-357 | A field declaration appends one line per name. |
| CppObjectDef.ObjectDefGen.Scoped | src/format_cpp_interface.cpp:297 | `scoped` walks one level deeper and restores the indentation. |
| CppObjectDef.ObjectDefGen.Walk | src/format_cpp_interface.cpp:297 | The loop appends the visits in order and stops at the first error. |
| CppObjectDef.GenCppObjectInterface | src/format_cpp_interface.cpp:449-452 | The entry point returns what `ObjectInterface` defines: the header, every item and the footer of the last package, or the first error. |
| CppRegistration.IdCountsDecl | src/format_cppr.cpp:33-35 | A declaration advances `id` by the number of interfaces it contains and leaves `toclose` alone. |
| CppRegistration.IdCountsDecls | src/format_cppr.cpp:33-53 | A walk advances `id` by the number of interfaces in it. |
| CppRegistration.IdCountsFields | src/format_cppr.cpp:72-76 | A field walk advances `id` by the number of interfaces in it. |
| CppRegistration.InterfaceUsesCurrentId | src/format_cppr.cpp:33-53 | An interface writes `static int initType<k>` with the current `k`, then increments `id` and clears `currentParent`. |
| CppRegistration.InterfaceCountsPrefix | src/format_cppr.cpp:33-35 | The interface count grows along the list. |
| CppRegistration.InterfaceIdsDistinct | src/format_cppr.cpp:33-53 | Within one list of declarations (an interface's members, a struct's fields), two interfaces at different positions get different ids, and so different `initType` suffixes; the later one's is larger. |
| CppRegistration.IdCountsItems | src/format_cppr.cpp:33-35 | A walk over a file's top-level nodes advances `id` by the number of interfaces their declarations hold, nested ones included; statements leave it alone. |
| CppRegistration.InterfaceItemIdsDistinct | src/format_cppr.cpp:33-37 | Two interfaces declared at different top-level positions of a file get different ids, the later one's larger, whatever statements and declarations lie between them. |
| CppRegistration.RegistrationInterfaceNumber | src/format_cppr.cpp:22-37 | In a registration file the interface at top-level position `i` writes `initType<k>`, `k` being the number of interfaces declared before it; the first interface of a file writes `initType0`. |
| CppRegistration.RegistrationInterfaceNumbersDistinct | src/format_cppr.cpp:22-37 | Two top-level interfaces of one registration file write different `initType` numbers, the later one the larger. |
| CppRegistration.MembersAdvertisedOnParent | src/format_cppr.cpp:54-69 | Inside an interface, each method, signal and property writes exactly one advertise line, keyed by its own name, on the current parent, in order. |
| CppRegistration.AdvertisedSnoc | src/format_cppr.cpp:42-44 | One more member keeps every earlier advertise line in place and adds its own after them. |
| CppRegistration.MemberAdvertised | src/format_cppr.cpp:54-69 | A member inside an interface writes its advertise call and leaves the state alone. |
| CppRegistration.InitTypeLayout | src/format_cppr.cpp:37-52 | The id follows `initType`, the parent is the builder's type argument, and the members follow the builder line. |
| CppRegistration.InterfaceText | src/format_cppr.cpp:33-53 | An interface writes `initType<k>`, the builder block and `myinittype<k>`. It clears `currentParent`. |
| CppRegistration.InterfaceAdvertisesOnItsParent | src/format_cppr.cpp:33-53 | The builder type and every member's advertise line use `formatNs(package)::<Name>Interface`, in order. `id` is incremented and `currentParent` is "" afterwards. |
| CppRegistration.FnOutsideInterface | src/format_cppr.cpp:54-61 | Outside an interface a function writes the commented `QI_REGISTER_OBJECT_FACTORY(name);` line. |
| CppRegistration.ConstIsUnimplemented | src/format_cppr.cpp:79-81 | A constant declaration always throws "unimplemented". |
| CppRegistration.FieldDeclNames | src/format_cppr.cpp:82-84 | There is one name per field declaration. |
| CppRegistration.FieldsInDeclarationOrder | src/format_cppr.cpp:70-84 | The field loop writes the names in order with ", " only between them, and changes no state. |
| CppRegistration.StructRegistrationText | src/format_cppr.cpp:70-78 | A struct writes `QI_REGISTER_STRUCT(Name, ` and the names joined by ", ", then `);`. |
| CppRegistration.ToCloseCountsEverySegment | src/format_cppr.cpp:142-149 | `toclose` counts every segment of every package statement: the count accumulates across packages. |
| CppRegistration.NamespacesBalanced | src/format_cppr.cpp:135-149 | The footer closes exactly as many namespaces as all package statements opened. |
| CppRegistration.StatementOutcomes | src/format_cppr.cpp:151-165 | Import writes nothing. ObjectDef, PropertyDef, At and VarDef throw "unimplemented", and exactly the non-package, non-import statements do. |
| CppRegistration.BindDeclsOne | src/format_cppr.cpp:31 | A walk over one declaration is that declaration's visit. |
| CppRegistration.BindDeclsStep | src/format_cppr.cpp:42-44 | The walk extends by each visit's text and state until a visit fails. |
| CppRegistration.BindDeclsStopAtError | src/format_cppr.cpp:42-44 | The first failing visit decides the walk's outcome. |
| CppRegistration.BindFieldsStep | src/format_cppr.cpp:72-76 | The field loop writes ", " before every field but the first. |
| CppRegistration.BindFieldsStopAtError | src/format_cppr.cpp:72-76 | The first failing field decides the loop's outcome. |
| CppRegistration.BindItemsStep | src/format_cppr.cpp:169-172 | The top-level walk extends by each item's text and state. |
| CppRegistration.BindItemsStopAtError | src/format_cppr.cpp:169-172 | The first failing item decides the file's outcome. |
| CppRegistration.CppBindGen.constructor | src/format_cppr.cpp:23-96 | A new generator starts with `id` 0, no parent, `toclose` 0 and `methodAttr` inactive. |
| CppRegistration.CppBindGen.Format | src/format_cppr.cpp:124-139 | `format` appends the header, every item and `toclose` closing lines, or reports the first error. |
| CppRegistration.CppBindGen.FormatFooter | src/format_cppr.cpp:135-139 | The footer appends exactly `toclose` "}" lines. |
| CppRegistration.CppBindGen.WalkItems | src/format_cppr.cpp:171 | The top-level loop appends the items in order and stops at the first error. |
| CppRegistration.CppBindGen.VisitItem | src/format_cppr.cpp:103-121 | `accept` dispatches a node on its kind. |
| CppRegistration.CppBindGen.VisitStmt | src/format_cppr.cpp:142-165 | A statement appends its text and state, or reports its error. |
| CppRegistration.CppBindGen.VisitPackage | src/format_cppr.cpp:142-149 | A package adds its segment count to `toclose` and opens one namespace per segment. |
| CppRegistration.CppBindGen.VisitDecl | src/format_cppr.cpp:31-84 | A declaration appends its text and state, or reports its error. |
| CppRegistration.CppBindGen.VisitInterface | src/format_cppr.cpp:33-53 | An interface takes the current id, sets and then clears `currentParent`, and writes its `initType` function. |
| CppRegistration.CppBindGen.WriteBuilder | src/format_cppr.cpp:38-49 | The builder block walks the members one level deeper with `methodAttr` active, and restores both. |
| CppRegistration.CppBindGen.Scoped | src/format_cppr.cpp:38-49 | A walk one level deeper restores the indentation. |
| CppRegistration.CppBindGen.Walk | src/format_cppr.cpp:42-44 | The member loop appends the visits in order and stops at the first error. |
| CppRegistration.CppBindGen.VisitStruct | src/format_cppr.cpp:70-78 | A struct appends its registration line. |
| CppRegistration.CppBindGen.WriteFields | src/format_cppr.cpp:72-76 | The field loop appends the fields with ", " between them and stops at the first error. |
| CppRegistration.CppBindGen.WriteField | src/format_cppr.cpp:73-75 | One field step keeps the loop's invariant: the fields so far, then ", " unless this was the last. |
| CppRegistration.GenCppObjectRegistration | src/format_cppr.cpp:169-172 | The entry point returns what `ObjectRegistration` defines: the header, every item and `toclose` closing lines, or the first error. |

## Left out

- **`qilang/node.hpp` is older than the code that uses it.** The datatypes are the union of both:
  - `SigDeclNode` is the header's `EmitDeclNode`.
  - `StructFieldDeclNode`, `EnumDeclNode`, `EnumFieldDeclNode`, `TypeDefDeclNode` and `ParamFieldDeclNode` come from their uses in `src/format_cpp_interface.cpp`.
  - Arguments carry the variadic / keyword markers that `src/node.cpp` reads.
  - The `AtNode` sender is an expression, as `src/node.cpp` has it.
  - `Node` carries a location and a comment, as `src/node.cpp` builds it.
- **Pieces that are not part of this model.** The code that defines `effectiveRet` and `effectiveType` is not part of this model. `EffectiveRet` and `EffectiveConstType` are read from the optional children. The effective type of a struct field and of a variable definition is its declared type.
- **The generated lexer and grammar are not modelled.** Also left out: their debug switches read from environment variables, and logging. A `GrammarRun` value stands for one run of the grammar: the statements it yields, or the exception it throws.
- **File reading is not modelled.** This covers both `getErrorLine` and `FileReader`. The selected source line is a parameter, `None` when it cannot be read. `formatLoc` stands for printing a `Location`.
- GrammarOutcome: the grammar's actions are taken to touch only `ast`, appending statements. A `GrammarRun` carries only nodes, so on success the messages and the package stay as they were by that assumption.
- GetErrorLine: the source computes with `unsigned int`. The model uses unbounded integers, which agrees for columns below 2^31.
- **Helpers in headers that are not part of this model are left unspecified:**
  - the visitor base classes `CppTypeFormatter`, `NodeFormatter`, `DeclNodeFormatter`, `StmtNodeFormatter`, `FileFormatter` and `DefaultNodeVisitor`;
  - type and literal rendering, `cppParamsFormat`, `splitPkgName`, `formatNs`, `pkgNameToAPI`, the namespace escaper text and `filenameToCppHeaderGuard`;
  - the package manager.

  They are total functions in `Helpers`, with no properties assumed.
- **A visit the shown classes do not override is not modelled.** This includes a top-level Expr, ConstData or TypeExpr node, a typedef in the interface backends, and an enum field whose node is not a `ConstDeclNode`, which is an unchecked `static_cast` in the source. Such a visit gives `NotModelled`, and the model makes no claim about its output.
- **The headers (`formatHeader`) are an opaque token sequence.** The include lists come from `extractCppIncludeDir` and `qiLangToCppInclude`, which are not part of this model.
- **On an error, only the status is modelled.** The output a visit had written before it threw is not.
- **A constant always has data.** The source skips ` = value` when its data pointer is null. The model has no null data.
- **The float payload of `FloatConstDataNode` is an opaque value.** The dead `Node2` block is not modelled.
- **Shared ownership, `dynamic_pointer_cast` and the `boost::lambda` transforms are not modelled.** Datatypes, `match` and sequence comprehensions stand in for them.
- **Behaviour that may look unintended, kept as the code has it:**
  - `QiLangGenObjectDef`'s footer closes only the namespaces of the last package statement (`currentNs` is replaced, not extended). `EarlierPackageLeftOpen` shows that every package statement followed by another stays open, and `PackageSwitchLeavesNamespacesOpen` gives two packages for which fewer namespaces are closed than opened.
  - `QiLangGenObjectDef` implements variable definitions rather than throwing.
  - The registration backend's struct loop reads the fields of the struct, called `fields` in `src/format_cppr.cpp:72` and `decls` in the node model.
- **Rendering details kept as the code has them:**
  - The registration backend writes `QI_REGISTER_STRUCT(Name, );` for a struct without fields.
  - A property initializer after the first is written without indentation.
  - The interface generators that `QiLangGenObjectDef` starts for an interface begin with inactive attributes and indentation 0.
- **`BinaryOpCodeToString` has no contract of its own.** Its table is the function body, and `BinaryOpCodeToStringInjective` states its property. The same holds for `HasKeywordArgs` and `HasVarArgs`, stated by `MarkersFoundWhereverPresent` and `HasArgsReadOnlyTheTail`.
- **The `int` counters `id` and `toclose` are unbounded naturals.** Overflow past 2^31 interfaces or segments is not modelled.
