/**
 * `QiLangGenObjectDef`, the driver of the C++ interface header
 * (src/format_cpp_interface.cpp): it walks the top-level statements and
 * declarations of one file, writes structs, enums, constants, typedefs
 * and variables itself, hands every interface to a fresh async and a
 * fresh sync interface visitor, opens the namespaces of `package`
 * statements and closes them in the footer.
 *
 * As in module CppInterface, the visitor is a class whose methods append
 * tokens to `out` and are proved against specification functions of its
 * state (the indentation level, the const attribute and `currentNs`).
 */
module CppObjectDef {
  import opened Ast
  import opened Formatting
  import opened CppInterface

  const EnumTypeError := "type in enum not supported in cppi atm"

  // ---------------------------------------------------------------------
  // Struct fields
  // ---------------------------------------------------------------------

  /** The names a declaration contributes to its struct's field list. */
  function FieldNamesOf(d: Decl): seq<string>
  {
    if d.StructFieldDeclNode? then d.names else []
  }

  /** The field names of a struct: the names of its field declarations,
      flattened in declaration order. */
  function StructFieldNames(ds: seq<Decl>): seq<string>
  {
    if ds == [] then [] else StructFieldNames(ds[..|ds| - 1]) + FieldNamesOf(ds[|ds| - 1])
  }

  /** The flattening keeps declaration order: the fields of two runs of
      declarations are the fields of the first followed by those of the
      second. */
  lemma {:induction false} StructFieldNamesAppend(a: seq<Decl>, b: seq<Decl>)
    ensures StructFieldNames(a + b) == StructFieldNames(a) + StructFieldNames(b)
    decreases |b|
  {
    if b == [] {
      assert a + b == a;
    } else {
      var init, last := b[..|b| - 1], b[|b| - 1];
      var ab := a + b;
      assert ab[..|ab| - 1] == a + init && ab[|ab| - 1] == last;
      assert StructFieldNames(ab) == StructFieldNames(a + init) + FieldNamesOf(last);
      assert StructFieldNames(b) == StructFieldNames(init) + FieldNamesOf(last);
      StructFieldNamesAppend(a, init);
      AppendTwo(StructFieldNames(a), StructFieldNames(init), FieldNamesOf(last));
    }
  }

  /** A name is a field exactly when some field declaration of the struct
      declares it; other declarations contribute nothing. */
  lemma {:induction false} StructFieldNamesMember(ds: seq<Decl>, x: string)
    ensures x in StructFieldNames(ds) <==>
      exists i :: 0 <= i < |ds| && ds[i].StructFieldDeclNode? && x in ds[i].names
    decreases |ds|
  {
    if ds != [] {
      var init := ds[..|ds| - 1];
      StructFieldNamesMember(init, x);
      if x in StructFieldNames(init) {
        var i :| 0 <= i < |init| && init[i].StructFieldDeclNode? && x in init[i].names;
        assert ds[i] == init[i];
      }
      if exists i :: 0 <= i < |ds| && ds[i].StructFieldDeclNode? && x in ds[i].names {
        var i :| 0 <= i < |ds| && ds[i].StructFieldDeclNode? && x in ds[i].names;
        if i < |init| {
          assert init[i] == ds[i];
        }
      }
    }
  }

  /** The loop of the struct visit that collects the field names. */
  method CollectFields(decls: seq<Decl>) returns (fields: seq<string>)
    ensures fields == StructFieldNames(decls)
  {
    fields := [];
    var i := 0;
    while i < |decls|
      invariant 0 <= i <= |decls|
      invariant fields == StructFieldNames(decls[..i])
    {
      assert decls[..i + 1][..i] == decls[..i];
      if decls[i].StructFieldDeclNode? {
        var names := decls[i].names;
        var j := 0;
        while j < |names|
          invariant 0 <= j <= |names|
          invariant fields == StructFieldNames(decls[..i]) + names[..j]
        {
          assert names[..j + 1] == names[..j] + [names[j]];
          fields := fields + [names[j]];
          j := j + 1;
        }
        assert names[..|names|] == names;
      }
      i := i + 1;
    }
    assert decls[..|decls|] == decls;
  }

  lemma PrefixedFirst(xs: seq<string>, sep: string)
    requires |xs| >= 1
    ensures Prefixed(xs, sep) == [sep + xs[0]] + Prefixed(xs[1..], sep)
  {
  }

  /** The `QI_TYPE_STRUCT` field list: `", " + name` for each field, joined
      without separator, is empty without fields and otherwise ", "
      followed by the fields joined by ", ". */
  lemma TypeStructFieldList(fields: seq<string>)
    ensures Join(Prefixed(fields, ", "), "") ==
              if fields == [] then "" else ", " + Join(fields, ", ")
  {
    var ps := Prefixed(fields, ", ");
    JoinWithoutSeparator(ps);
    if fields != [] {
      var rest := Prefixed(fields[1..], ", ");
      PrefixedFirst(fields, ", ");
      ConcatCons(", " + fields[0], rest);
      PrefixedJoin(fields, ", ");
      AppendTwo(", ", fields[0], Concat(rest));
    }
  }

  // ---------------------------------------------------------------------
  // What one declaration writes
  // ---------------------------------------------------------------------

  /** The `ForceProxyInclusion` specialisation that follows the two
      interface classes, outside the current namespaces. */
  function ProxyBlock(h: Helpers, api: string, ns: seq<string>, name: string): seq<string>
  {
    [h.escapeNs(ns), "namespace qi {", "\n", "namespace detail {", "\n", "  template <>", "\n",
     "  struct ", api, " ForceProxyInclusion< "] + QualifiedTokens(ns, name) +
    [" > {", "\n", "    bool dummyCall();", "\n", "  };", "\n", "}", "\n", "}", "\n", h.reenterNs(ns)]
  }

  /** An interface: the async class, the sync class, then the proxy block. */
  function ObjInterface(h: Helpers, api: string, ns: seq<string>, d: Decl): Result<seq<string>, GenError>
    requires d.InterfaceDeclNode?
  {
    match AsyncDecls(h, api, 0, FreshAttrs, [d])
    case Err(e) => Err(e)
    case Ok(a) =>
      (match SyncDecls(h, api, 0, FreshAttrs, [d])
       case Err(e) => Err(e)
       case Ok(s) => Ok(a + s + ProxyBlock(h, api, ns, d.name)))
  }

  function StructHead(h: Helpers, level: nat, name: string): seq<string>
  {
    [h.indentText(level), "struct ", name, " {", "\n"]
  }

  /** `: f1(), f2()`, or nothing for a struct without fields. */
  function Initializers(h: Helpers, level: nat, fields: seq<string>): seq<string>
  {
    if fields == [] then [] else [h.indentText(level), ": ", Join(Suffixed(fields, "()"), ", ")]
  }

  /** The `QI_TYPE_STRUCT` registration, outside the current namespaces. */
  function TypeStruct(h: Helpers, ns: seq<string>, name: string, fields: seq<string>): seq<string>
  {
    [h.escapeNs(ns), "QI_TYPE_STRUCT("] + QualifiedTokens(ns, name) +
    [Join(Prefixed(fields, ", "), ""), ")", "\n", "\n", h.reenterNs(ns)]
  }

  /** The default constructor one level deeper, the closing brace and the
      registration. */
  function StructTail(h: Helpers, level: nat, ns: seq<string>, name: string, fields: seq<string>): seq<string>
  {
    ["\n", h.indentText(level + 1), name, "()", "\n"] + Initializers(h, level + 1, fields) +
    ["\n", h.indentText(level + 1), "{}", "\n", h.indentText(level), "};", "\n", "\n"] +
    TypeStruct(h, ns, name, fields)
  }

  function EnumHead(h: Helpers, level: nat, name: string): seq<string>
  {
    [h.indentText(level), "enum ", name, " {", "\n"]
  }

  /** The closing brace and the `QI_TYPE_ENUM` registration. */
  function EnumTail(h: Helpers, level: nat, ns: seq<string>, name: string): seq<string>
  {
    [h.indentText(level), "};", "\n", "\n", h.escapeNs(ns), "QI_TYPE_ENUM("] + QualifiedTokens(ns, name) +
    [")", "\n", "\n", h.reenterNs(ns)]
  }

  function ConstLine(h: Helpers, level: nat, c: bool, d: Decl): seq<string>
    requires d.ConstDeclNode?
  {
    [h.indentText(level), "const ", h.typeText(EffectiveConstType(d, h.literalType), c), " ", d.name,
     " = ", h.dataText(d.data), ";", "\n"]
  }

  /** One line per name of a field declaration, all of the declared type. */
  function FieldLines(h: Helpers, level: nat, c: bool, t: TypeExpr, names: seq<string>): (r: seq<string>)
    ensures |r| == 6 * |names|
  {
    if names == [] then []
    else FieldLines(h, level, c, t, names[..|names| - 1]) +
         [h.indentText(level), h.typeText(t, c), " ", names[|names| - 1], ";", "\n"]
  }

  function TypeDefLine(h: Helpers, level: nat, c: bool, d: Decl): seq<string>
    requires d.TypeDefDeclNode?
  {
    [h.indentText(level), "typedef ", h.typeText(d.ttype, c), " ", d.name, ";", "\n"]
  }

  /** An enum field: `name = value,` for a constant, an error otherwise. */
  function EnumFieldLine(h: Helpers, level: nat, d: Decl): Result<seq<string>, GenError>
    requires d.EnumFieldDeclNode?
  {
    if d.fieldType == EnumFieldType_Const then
      (match d.node
       case ConstDeclNode(_, name, _, data) => Ok([h.indentText(level), name, " = ", h.dataText(data), ",", "\n"])
       case _ => Err(NotModelled(DeclType(d.node))))
    else Err(RuntimeError(EnumTypeError))
  }

  /** What the visitor writes for one declaration at `level`, with the
      const attribute `c` and the namespaces `ns` of the last package. */
  function ObjDecl(h: Helpers, api: string, level: nat, c: bool, ns: seq<string>, d: Decl): Result<seq<string>, GenError>
    decreases d, 1
  {
    match d
    case InterfaceDeclNode(_, _, _, _) => ObjInterface(h, api, ns, d)
    case FnDeclNode(_, _, _) => Ok([])
    case SigDeclNode(_, _) => Ok([])
    case PropDeclNode(_, _) => Ok([])
    case ParamFieldDeclNode(_) => Ok([])
    case StructDeclNode(_, _, _) => ObjStruct(h, api, level, ns, d)
    case ConstDeclNode(_, _, _, _) => Ok(ConstLine(h, level, c, d))
    case StructFieldDeclNode(names, t) => Ok(FieldLines(h, level, c, t, names))
    case EnumDeclNode(_, _, _) => ObjEnum(h, api, level, c, ns, d)
    case EnumFieldDeclNode(_, _) => EnumFieldLine(h, level, d)
    case TypeDefDeclNode(_, _) => Ok(TypeDefLine(h, level, c, d))
    case FieldDeclNode(_, _) => Err(NotModelled(DeclType(d)))
  }

  /** A struct: its declarations one level deeper with const blocked, then
      the constructor over the collected field names and the registration. */
  function ObjStruct(h: Helpers, api: string, level: nat, ns: seq<string>, d: Decl): Result<seq<string>, GenError>
    requires d.StructDeclNode?
    decreases d, 0
  {
    match ObjDecls(h, api, level + 1, false, ns, d.decls)
    case Err(e) => Err(e)
    case Ok(body) => Ok(StructHead(h, level, d.name) + body + StructTail(h, level, ns, d.name, StructFieldNames(d.decls)))
  }

  /** An enum: its fields one level deeper, then the registration. */
  function ObjEnum(h: Helpers, api: string, level: nat, c: bool, ns: seq<string>, d: Decl): Result<seq<string>, GenError>
    requires d.EnumDeclNode?
    decreases d, 0
  {
    match ObjDecls(h, api, level + 1, c, ns, d.fields)
    case Err(e) => Err(e)
    case Ok(body) => Ok(EnumHead(h, level, d.name) + body + EnumTail(h, level, ns, d.name))
  }

  function ObjDecls(h: Helpers, api: string, level: nat, c: bool, ns: seq<string>, ds: seq<Decl>): Result<seq<string>, GenError>
    decreases ds
  {
    if ds == [] then Ok([])
    else match ObjDecls(h, api, level, c, ns, ds[..|ds| - 1])
      case Err(e) => Err(e)
      case Ok(o) =>
        (match ObjDecl(h, api, level, c, ns, ds[|ds| - 1])
         case Err(e) => Err(e)
         case Ok(o2) => Ok(o + o2))
  }

  // ---------------------------------------------------------------------
  // Statements, the file and its footer
  // ---------------------------------------------------------------------

  function VarDefLine(h: Helpers, level: nat, c: bool, s: Stmt): seq<string>
    requires s.VarDefNode?
  {
    [h.indentText(level), h.typeText(s.vtype, c), " ", s.name] +
    (if s.vdata.Some? then [" = ", h.dataText(s.vdata.value)] else []) + [";", "\n"]
  }

  /** A statement: what it writes and the namespaces in force after it. */
  function ObjStmt(h: Helpers, level: nat, c: bool, ns: seq<string>, s: Stmt): Result<(seq<string>, seq<string>), GenError>
  {
    match s
    case PackageNode(name) => Ok((NamespaceOpens(h, level, h.splitPkgName(name)) + ["\n"], h.splitPkgName(name)))
    case ImportNode(_, _) => Ok(([], ns))
    case ObjectDefNode(_, _, _) => Err(RuntimeError(Unimplemented))
    case PropertyDefNode(_, _) => Err(RuntimeError(Unimplemented))
    case AtNode(_, _) => Err(RuntimeError(Unimplemented))
    case VarDefNode(_, _, _) => Ok((VarDefLine(h, level, c, s), ns))
  }

  /** A top-level node: a statement, a declaration, or a node of another
      category, whose visit is not part of this model. */
  function ObjItem(h: Helpers, api: string, level: nat, c: bool, ns: seq<string>, b: NodeBody): Result<(seq<string>, seq<string>), GenError>
  {
    match b
    case StmtNode(s) => ObjStmt(h, level, c, ns, s)
    case DeclNode(d) =>
      (match ObjDecls(h, api, level, c, ns, [d])
       case Err(e) => Err(e)
       case Ok(t) => Ok((t, ns)))
    case _ => Err(NotModelled(TypeOf(b)))
  }

  function ObjItems(h: Helpers, api: string, level: nat, c: bool, ns: seq<string>, bs: seq<NodeBody>): Result<(seq<string>, seq<string>), GenError>
  {
    if bs == [] then Ok(([], ns))
    else match ObjItems(h, api, level, c, ns, bs[..|bs| - 1])
      case Err(e) => Err(e)
      case Ok(r) =>
        (match ObjItem(h, api, level, c, r.1, bs[|bs| - 1])
         case Err(e) => Err(e)
         case Ok(t) => Ok((r.0 + t.0, t.1)))
  }

  /** `formatFooter`: one closing brace per namespace in `currentNs`. */
  function Footer(h: Helpers, level: nat, ns: seq<string>): seq<string>
  {
    Times(|ns|, ["}", "\n"]) + ["\n", h.indentText(level), "#endif", "\n"]
  }

  /** `genCppObjectInterface`: the header, every top-level node with a
      fresh visitor (no namespace yet, const inactive), the footer. */
  function ObjectInterface(h: Helpers, package: string, header: seq<string>, items: seq<NodeBody>): Result<seq<string>, GenError>
  {
    match ObjItems(h, h.pkgNameToApi(package), 0, false, [], items)
    case Err(e) => Err(e)
    case Ok(r) => Ok(header + r.0 + Footer(h, 0, r.1))
  }

  // ---------------------------------------------------------------------
  // Namespaces
  // ---------------------------------------------------------------------

  /** The segments of the last package statement among `bs`, or `ns` when
      there is none. */
  function LastPackageNs(h: Helpers, ns: seq<string>, bs: seq<NodeBody>): seq<string>
  {
    if bs == [] then ns
    else match bs[|bs| - 1]
      case StmtNode(PackageNode(name)) => h.splitPkgName(name)
      case _ => LastPackageNs(h, ns, bs[..|bs| - 1])
  }

  /** How many package statements there are. */
  function PackageCount(bs: seq<NodeBody>): nat
  {
    if bs == [] then 0
    else PackageCount(bs[..|bs| - 1]) + (if bs[|bs| - 1].StmtNode? && bs[|bs| - 1].stmt.PackageNode? then 1 else 0)
  }

  /** A walk that gets through leaves `currentNs` at the segments of the
      last package statement: a later package replaces an earlier one. */
  lemma {:induction false} LastPackageDecidesNamespaces(h: Helpers, api: string, level: nat, c: bool, ns: seq<string>, bs: seq<NodeBody>)
    requires ObjItems(h, api, level, c, ns, bs).Ok?
    ensures ObjItems(h, api, level, c, ns, bs).value.1 == LastPackageNs(h, ns, bs)
    decreases |bs|
  {
    if bs != [] {
      var init := bs[..|bs| - 1];
      LastPackageDecidesNamespaces(h, api, level, c, ns, init);
      var r := ObjItems(h, api, level, c, ns, init).value;
      match bs[|bs| - 1]
      case StmtNode(s) =>
        assert ObjStmt(h, level, c, r.1, s).Ok?;
      case DeclNode(d) =>
        assert ObjDecls(h, api, level, c, r.1, [d]).Ok?;
      case _ =>
        assert false;
    }
  }

  /** With at most one package statement, the footer closes exactly the
      namespaces the package opened. */
  lemma {:induction false} OnePackageBalances(h: Helpers, bs: seq<NodeBody>)
    requires PackageCount(bs) <= 1
    ensures |LastPackageNs(h, [], bs)| == OpenedNamespaces(h, bs)
    ensures PackageCount(bs) == 0 ==> OpenedNamespaces(h, bs) == 0
    decreases |bs|
  {
    if bs != [] {
      OnePackageBalances(h, bs[..|bs| - 1]);
    }
  }

  /** With two or more package statements only the last one is closed:
      every earlier package's namespaces stay open, one closing brace per
      namespace short. */
  lemma {:induction false} EarlierPackagesStayOpen(h: Helpers, bs: seq<NodeBody>)
    ensures |LastPackageNs(h, [], bs)| <= OpenedNamespaces(h, bs)
    decreases |bs|
  {
    if bs != [] {
      EarlierPackagesStayOpen(h, bs[..|bs| - 1]);
    }
  }

  predicate IsPackage(b: NodeBody)
  {
    b.StmtNode? && b.stmt.PackageNode?
  }

  /** Every package statement's namespaces are among those opened. */
  lemma {:induction false} PackageOpensItsNamespaces(h: Helpers, bs: seq<NodeBody>, i: nat)
    requires i < |bs| && IsPackage(bs[i])
    ensures |h.splitPkgName(bs[i].stmt.name)| <= OpenedNamespaces(h, bs)
    decreases |bs|
  {
    if i < |bs| - 1 {
      PackageOpensItsNamespaces(h, bs[..|bs| - 1], i);
    }
  }

  /** A package statement followed by another one has its namespaces left
      open: the footer closes at least that many fewer than were opened. */
  lemma {:induction false} EarlierPackageLeftOpen(h: Helpers, bs: seq<NodeBody>, i: nat, j: nat)
    requires i < j < |bs| && IsPackage(bs[i]) && IsPackage(bs[j])
    ensures |LastPackageNs(h, [], bs)| + |h.splitPkgName(bs[i].stmt.name)| <= OpenedNamespaces(h, bs)
    decreases |bs|
  {
    var init := bs[..|bs| - 1];
    if j < |bs| - 1 {
      EarlierPackageLeftOpen(h, init, i, j);
      if IsPackage(bs[|bs| - 1]) {
        PackageOpensItsNamespaces(h, init, i);
      }
    } else {
      PackageOpensItsNamespaces(h, init, i);
    }
  }

  /** Two package statements, the first with at least one segment: the
      footer closes strictly fewer namespaces than the file opened. */
  lemma PackageSwitchLeavesNamespacesOpen(h: Helpers, p1: string, p2: string)
    requires |h.splitPkgName(p1)| > 0
    ensures var bs := [StmtNode(PackageNode(p1)), StmtNode(PackageNode(p2))];
            |LastPackageNs(h, [], bs)| < OpenedNamespaces(h, bs)
  {
    EarlierPackageLeftOpen(h, [StmtNode(PackageNode(p1)), StmtNode(PackageNode(p2))], 0, 1);
  }

  /** The header file: the header, the body, then one closing brace per
      namespace of the last package statement. */
  lemma FooterClosesLastPackage(h: Helpers, package: string, header: seq<string>, items: seq<NodeBody>)
    requires ObjectInterface(h, package, header, items).Ok?
    ensures var body := ObjItems(h, h.pkgNameToApi(package), 0, false, [], items).value.0;
            var ns := LastPackageNs(h, [], items);
            ObjectInterface(h, package, header, items).value ==
              header + body + Times(|ns|, ["}", "\n"]) + ["\n", h.indentText(0), "#endif", "\n"]
  {
    LastPackageDecidesNamespaces(h, h.pkgNameToApi(package), 0, false, [], items);
    var r := ObjItems(h, h.pkgNameToApi(package), 0, false, [], items).value;
    var ns := LastPackageNs(h, [], items);
    AppendTwo(header + r.0, Times(|ns|, ["}", "\n"]), ["\n", h.indentText(0), "#endif", "\n"]);
  }

  /** The statements the backend does not implement throw, an import
      writes nothing and keeps the namespaces. */
  lemma StatementOutcomes(h: Helpers, level: nat, c: bool, ns: seq<string>, s: Stmt)
    ensures s.ObjectDefNode? || s.PropertyDefNode? || s.AtNode? <==>
              ObjStmt(h, level, c, ns, s) == Err(RuntimeError(Unimplemented))
    ensures s.ImportNode? ==> ObjStmt(h, level, c, ns, s) == Ok(([], ns))
    ensures s.PackageNode? ==> ObjStmt(h, level, c, ns, s).Ok? && ObjStmt(h, level, c, ns, s).value.1 == h.splitPkgName(s.name)
  {
  }

  // ---------------------------------------------------------------------
  // Declarations
  // ---------------------------------------------------------------------

  /** A const enum field renders `name = value,`; any other kind throws. */
  lemma EnumFieldOutcomes(h: Helpers, api: string, level: nat, c: bool, ns: seq<string>, d: Decl)
    requires d.EnumFieldDeclNode?
    ensures d.fieldType == EnumFieldType_Type ==> ObjDecl(h, api, level, c, ns, d) == Err(RuntimeError(EnumTypeError))
    ensures d.fieldType == EnumFieldType_Const && d.node.ConstDeclNode? ==>
              ObjDecl(h, api, level, c, ns, d) == Ok([h.indentText(level), d.node.name, " = ", h.dataText(d.node.data), ",", "\n"])
  {
  }

  /** Field declarations write one line per name, in order, each naming
      the field. */
  lemma {:induction false} FieldLinesShape(h: Helpers, level: nat, c: bool, t: TypeExpr, names: seq<string>)
    ensures forall i :: 0 <= i < |names| ==>
      FieldLines(h, level, c, t, names)[6 * i + 1] == h.typeText(t, c) && FieldLines(h, level, c, t, names)[6 * i + 3] == names[i]
    decreases |names|
  {
    if names != [] {
      var init := names[..|names| - 1];
      FieldLinesShape(h, level, c, t, init);
      var r := FieldLines(h, level, c, t, names);
      assert r == FieldLines(h, level, c, t, init) + [h.indentText(level), h.typeText(t, c), " ", names[|names| - 1], ";", "\n"];
      forall i | 0 <= i < |names|
        ensures r[6 * i + 1] == h.typeText(t, c) && r[6 * i + 3] == names[i]
      {
        if i < |init| {
          assert r[6 * i + 1] == FieldLines(h, level, c, t, init)[6 * i + 1];
          assert r[6 * i + 3] == FieldLines(h, level, c, t, init)[6 * i + 3];
        }
      }
    }
  }

  /** A struct's constructor initializes each field with `()`, in
      declaration order, and has no initializer list without fields; its
      registration lists the same names after the qualified struct name. */
  lemma StructListsFieldsInOrder(h: Helpers, level: nat, ns: seq<string>, d: Decl)
    requires d.StructDeclNode?
    ensures var fields := StructFieldNames(d.decls);
            (Initializers(h, level + 1, fields) == [] <==> fields == []) &&
            (fields != [] ==> Initializers(h, level + 1, fields)[2] == Join(Suffixed(fields, "()"), ", ")) &&
            TypeStruct(h, ns, d.name, fields)[2 + |QualifiedTokens(ns, d.name)|] ==
              (if fields == [] then "" else ", " + Join(fields, ", "))
  {
    TypeStructFieldList(StructFieldNames(d.decls));
  }

  /** An interface writes its async class, then its sync class, then the
      proxy block that names it with its full namespace path. */
  lemma InterfaceWritesBothClasses(h: Helpers, api: string, level: nat, c: bool, ns: seq<string>, d: Decl)
    requires d.InterfaceDeclNode?
    requires ObjDecl(h, api, level, c, ns, d).Ok?
    ensures var r := ObjDecl(h, api, level, c, ns, d).value;
            r[..4] == [h.indentText(0), "class ", d.name, "Async"] &&
            r[|r| - |ProxyBlock(h, api, ns, d.name)|..] == ProxyBlock(h, api, ns, d.name)
  {
    AsyncDeclsOne(h, api, 0, FreshAttrs, d);
    var a := AsyncDecls(h, api, 0, FreshAttrs, [d]).value;
    var s := SyncDecls(h, api, 0, FreshAttrs, [d]).value;
    var body := AsyncDecls(h, api, 1, InterfaceAttrs(FreshAttrs), d.values).value;
    assert a == AsyncHead(h, 0, d) + body + ClassTail(h, 0);
    ClassHeadersNameTheInterface(h, 0, d);
    assert a[..4] == AsyncHead(h, 0, d)[..4];
  }

  // ---------------------------------------------------------------------
  // A walk stops at its first error
  // ---------------------------------------------------------------------

  lemma ObjDeclsOne(h: Helpers, api: string, level: nat, c: bool, ns: seq<string>, d: Decl)
    ensures ObjDecls(h, api, level, c, ns, [d]) == ObjDecl(h, api, level, c, ns, d)
  {
    assert [d][..0] == [];
    match ObjDecl(h, api, level, c, ns, d)
    case Err(_) =>
    case Ok(t) => assert [] + t == t;
  }

  lemma ObjDeclsStep(h: Helpers, api: string, level: nat, c: bool, ns: seq<string>, ds: seq<Decl>, i: nat)
    requires i < |ds| && ObjDecls(h, api, level, c, ns, ds[..i]).Ok?
    ensures ObjDecls(h, api, level, c, ns, ds[..i + 1]) ==
              match ObjDecls(h, api, level, c, ns, [ds[i]])
              case Err(e) => Err(e)
              case Ok(t) => Ok(ObjDecls(h, api, level, c, ns, ds[..i]).value + t)
  {
    assert ds[..i + 1][..i] == ds[..i];
    ObjDeclsOne(h, api, level, c, ns, ds[i]);
  }

  lemma {:induction false} ObjDeclsStopAtError(h: Helpers, api: string, level: nat, c: bool, ns: seq<string>, ds: seq<Decl>, k: nat)
    requires k <= |ds| && ObjDecls(h, api, level, c, ns, ds[..k]).Err?
    ensures ObjDecls(h, api, level, c, ns, ds) == ObjDecls(h, api, level, c, ns, ds[..k])
    decreases |ds| - k
  {
    if k < |ds| {
      assert ds[..k + 1][..k] == ds[..k];
      ObjDeclsStopAtError(h, api, level, c, ns, ds, k + 1);
    } else {
      assert ds[..k] == ds;
    }
  }

  lemma ObjItemsStep(h: Helpers, api: string, level: nat, c: bool, ns: seq<string>, bs: seq<NodeBody>, i: nat)
    requires i < |bs| && ObjItems(h, api, level, c, ns, bs[..i]).Ok?
    ensures var r := ObjItems(h, api, level, c, ns, bs[..i]).value;
            ObjItems(h, api, level, c, ns, bs[..i + 1]) ==
              match ObjItem(h, api, level, c, r.1, bs[i])
              case Err(e) => Err(e)
              case Ok(t) => Ok((r.0 + t.0, t.1))
  {
    assert bs[..i + 1][..i] == bs[..i];
  }

  lemma {:induction false} ObjItemsStopAtError(h: Helpers, api: string, level: nat, c: bool, ns: seq<string>, bs: seq<NodeBody>, k: nat)
    requires k <= |bs| && ObjItems(h, api, level, c, ns, bs[..k]).Err?
    ensures ObjItems(h, api, level, c, ns, bs) == ObjItems(h, api, level, c, ns, bs[..k])
    decreases |bs| - k
  {
    if k < |bs| {
      assert bs[..k + 1][..k] == bs[..k];
      ObjItemsStopAtError(h, api, level, c, ns, bs, k + 1);
    } else {
      assert bs[..k] == bs;
    }
  }

  // ---------------------------------------------------------------------
  // The visitor
  // ---------------------------------------------------------------------

  /** `QiLangGenObjectDef`. */
  class ObjectDefGen {
    const h: Helpers
    const apiExport: string
    /** What `formatHeader` writes: boilerplate built from the package,
        the file name and the include list. */
    const header: seq<string>
    var out: seq<string>
    var level: nat
    var virtualAttr: bool
    var apiAttr: bool
    var constAttr: bool
    var currentNs: seq<string>

    function Attributes(): Attrs
      reads this
    {
      Attrs(virtualAttr, apiAttr, constAttr)
    }

    /** The export macro comes from the package name and is active. */
    constructor (h: Helpers, package: string, header: seq<string>)
      ensures this.h == h && this.header == header && apiExport == h.pkgNameToApi(package)
      ensures out == [] && level == 0 && currentNs == []
      ensures Attributes() == Attrs(false, true, false)
    {
      this.h := h;
      this.header := header;
      apiExport := h.pkgNameToApi(package);
      out := [];
      level := 0;
      currentNs := [];
      virtualAttr, apiAttr, constAttr := false, true, false;
    }

    /** `format`: the header, every node in order, then the footer. */
    method Format(items: seq<NodeBody>) returns (st: Status)
      modifies this
      ensures level == old(level) && Attributes() == old(Attributes())
      ensures st == StatusOf(ObjItems(h, apiExport, old(level), old(constAttr), old(currentNs), items))
      ensures st.Done? ==>
                var r := ObjItems(h, apiExport, old(level), old(constAttr), old(currentNs), items).value;
                currentNs == r.1 && out == old(out) + (header + r.0 + Footer(h, level, r.1))
    {
      out := out + header;
      st := WalkItems(items);
      if st.Failed? {
        return;
      }
      ghost var body := out[|old(out) + header|..];
      FormatFooter();
      AppendThree(old(out), header, body, Footer(h, level, currentNs));
    }

    /** `formatFooter`: close every namespace of `currentNs`. */
    method FormatFooter()
      modifies this
      ensures level == old(level) && Attributes() == old(Attributes()) && currentNs == old(currentNs)
      ensures out == old(out) + Footer(h, level, currentNs)
    {
      var i := 0;
      while i < |currentNs|
        invariant 0 <= i <= |currentNs|
        invariant level == old(level) && Attributes() == old(Attributes()) && currentNs == old(currentNs)
        invariant out == old(out) + Times(i, ["}", "\n"])
      {
        out := out + ["}", "\n"];
        i := i + 1;
      }
      out := out + ["\n", h.indentText(level), "#endif", "\n"];
    }

    /** The top-level nodes, in order. */
    method WalkItems(items: seq<NodeBody>) returns (st: Status)
      modifies this
      ensures level == old(level) && Attributes() == old(Attributes())
      ensures st == StatusOf(ObjItems(h, apiExport, old(level), old(constAttr), old(currentNs), items))
      ensures st.Done? ==> out == old(out) + ObjItems(h, apiExport, old(level), old(constAttr), old(currentNs), items).value.0
      ensures st.Done? ==> currentNs == ObjItems(h, apiExport, old(level), old(constAttr), old(currentNs), items).value.1
    {
      ghost var ns0 := currentNs;
      var i := 0;
      while i < |items|
        invariant 0 <= i <= |items|
        invariant level == old(level) && Attributes() == old(Attributes())
        invariant ObjItems(h, apiExport, level, constAttr, ns0, items[..i]).Ok?
        invariant out == old(out) + ObjItems(h, apiExport, level, constAttr, ns0, items[..i]).value.0
        invariant currentNs == ObjItems(h, apiExport, level, constAttr, ns0, items[..i]).value.1
      {
        ObjItemsStep(h, apiExport, level, constAttr, ns0, items, i);
        ghost var done := out;
        st := VisitItem(items[i]);
        if st.Failed? {
          ObjItemsStopAtError(h, apiExport, level, constAttr, ns0, items, i + 1);
          return;
        }
        AppendTwo(old(out), ObjItems(h, apiExport, level, constAttr, ns0, items[..i]).value.0, out[|done|..]);
        i := i + 1;
      }
      assert items[..|items|] == items;
      st := Done;
    }

    /** `accept` on a top-level node. */
    method VisitItem(b: NodeBody) returns (st: Status)
      modifies this
      ensures level == old(level) && Attributes() == old(Attributes())
      ensures st == StatusOf(ObjItem(h, apiExport, old(level), old(constAttr), old(currentNs), b))
      ensures st.Done? ==> out == old(out) + ObjItem(h, apiExport, old(level), old(constAttr), old(currentNs), b).value.0
      ensures st.Done? ==> currentNs == ObjItem(h, apiExport, old(level), old(constAttr), old(currentNs), b).value.1
    {
      match b
      case StmtNode(s) =>
        st := VisitStmt(s);
      case DeclNode(d) =>
        st := VisitDecl(d);
      case _ =>
        st := Failed(NotModelled(TypeOf(b)));
    }

    method VisitStmt(s: Stmt) returns (st: Status)
      modifies this
      ensures level == old(level) && Attributes() == old(Attributes())
      ensures st == StatusOf(ObjStmt(h, old(level), old(constAttr), old(currentNs), s))
      ensures st.Done? ==> out == old(out) + ObjStmt(h, old(level), old(constAttr), old(currentNs), s).value.0
      ensures st.Done? ==> currentNs == ObjStmt(h, old(level), old(constAttr), old(currentNs), s).value.1
    {
      match s
      case PackageNode(name) =>
        VisitPackage(name);
        st := Done;
      case ImportNode(_, _) =>
        st := Done;
      case ObjectDefNode(_, _, _) =>
        st := Failed(RuntimeError(Unimplemented));
      case PropertyDefNode(_, _) =>
        st := Failed(RuntimeError(Unimplemented));
      case AtNode(_, _) =>
        st := Failed(RuntimeError(Unimplemented));
      case VarDefNode(name, vtype, vdata) =>
        var init := if vdata.Some? then [" = ", h.dataText(vdata.value)] else [];
        out := out + ([h.indentText(level), h.typeText(vtype, constAttr), " ", name] + init + [";", "\n"]);
        st := Done;
    }

    /** A package replaces `currentNs` by its segments and opens them. */
    method VisitPackage(name: string)
      modifies this
      ensures level == old(level) && Attributes() == old(Attributes())
      ensures currentNs == h.splitPkgName(name)
      ensures out == old(out) + (NamespaceOpens(h, level, currentNs) + ["\n"])
    {
      currentNs := h.splitPkgName(name);
      var i := 0;
      while i < |currentNs|
        invariant 0 <= i <= |currentNs|
        invariant level == old(level) && Attributes() == old(Attributes())
        invariant currentNs == h.splitPkgName(name)
        invariant out == old(out) + NamespaceOpens(h, level, currentNs[..i])
      {
        assert currentNs[..i + 1][..i] == currentNs[..i];
        out := out + [h.indentText(level), "namespace ", currentNs[i], " {", "\n"];
        i := i + 1;
      }
      assert currentNs[..|currentNs|] == currentNs;
      out := out + ["\n"];
    }

    /** One declaration, stated as the walk of the one-element list. */
    method VisitDecl(d: Decl) returns (st: Status)
      modifies this
      decreases d, 2
      ensures level == old(level) && Attributes() == old(Attributes()) && currentNs == old(currentNs)
      ensures st == StatusOf(ObjDecls(h, apiExport, old(level), old(constAttr), currentNs, [d]))
      ensures st.Done? ==> out == old(out) + ObjDecls(h, apiExport, old(level), old(constAttr), currentNs, [d]).value
    {
      ObjDeclsOne(h, apiExport, level, constAttr, currentNs, d);
      match d
      case InterfaceDeclNode(_, _, _, _) =>
        st := VisitInterface(d);
      case FnDeclNode(_, _, _) =>
        st := Done;
      case SigDeclNode(_, _) =>
        st := Done;
      case PropDeclNode(_, _) =>
        st := Done;
      case ParamFieldDeclNode(_) =>
        st := Done;
      case StructDeclNode(_, _, _) =>
        st := VisitStruct(d);
      case ConstDeclNode(_, _, _, _) =>
        VisitConst(d);
        st := Done;
      case StructFieldDeclNode(_, _) =>
        VisitStructField(d);
        st := Done;
      case EnumDeclNode(_, _, _) =>
        st := VisitEnum(d);
      case EnumFieldDeclNode(_, _) =>
        st := VisitEnumField(d);
      case TypeDefDeclNode(name, ttype) =>
        out := out + [h.indentText(level), "typedef ", h.typeText(ttype, constAttr), " ", name, ";", "\n"];
        st := Done;
      case FieldDeclNode(_, _) =>
        st := Failed(NotModelled(DeclType(d)));
    }

    /** Both interface classes, each from a fresh visitor on the same
        stream, then the proxy block outside the namespaces. */
    method VisitInterface(d: Decl) returns (st: Status)
      requires d.InterfaceDeclNode?
      modifies this
      ensures level == old(level) && Attributes() == old(Attributes()) && currentNs == old(currentNs)
      ensures st == StatusOf(ObjInterface(h, apiExport, currentNs, d))
      ensures st.Done? ==> out == old(out) + ObjInterface(h, apiExport, currentNs, d).value
    {
      var ai := new AsyncIfaceGen(h, apiExport);
      st := ai.VisitDecl(d);
      if st.Failed? {
        return;
      }
      var si := new IfaceGen(h, apiExport);
      st := si.VisitDecl(d);
      if st.Failed? {
        return;
      }
      assert ai.out == AsyncDecls(h, apiExport, 0, FreshAttrs, [d]).value;
      assert si.out == SyncDecls(h, apiExport, 0, FreshAttrs, [d]).value;
      var q := QualifiedName(currentNs, d.name);
      out := out + (ai.out + si.out +
                    ([h.escapeNs(currentNs), "namespace qi {", "\n", "namespace detail {", "\n", "  template <>", "\n",
                      "  struct ", apiExport, " ForceProxyInclusion< "] + q +
                     [" > {", "\n", "    bool dummyCall();", "\n", "  };", "\n", "}", "\n", "}", "\n", h.reenterNs(currentNs)]));
    }

    /** A struct: its declarations with const blocked, the constructor
        over the collected fields, and the registration. */
    method VisitStruct(d: Decl) returns (st: Status)
      requires d.StructDeclNode?
      modifies this
      decreases d, 1
      ensures level == old(level) && Attributes() == old(Attributes()) && currentNs == old(currentNs)
      ensures st == StatusOf(ObjStruct(h, apiExport, old(level), currentNs, d))
      ensures st.Done? ==> out == old(out) + ObjStruct(h, apiExport, old(level), currentNs, d).value
    {
      out := out + [h.indentText(level), "struct ", d.name, " {", "\n"];
      var saved := constAttr;
      constAttr := false;
      st := Scoped(d.decls);
      if st.Failed? {
        constAttr := saved;
        return;
      }
      ghost var body := ObjDecls(h, apiExport, level + 1, false, currentNs, d.decls).value;
      var fields := CollectFields(d.decls);
      WriteStructTail(d.name, fields);
      constAttr := saved;
      AppendThree(old(out), StructHead(h, level, d.name), body, StructTail(h, level, currentNs, d.name, fields));
    }

    /** The default constructor one level deeper, with an initializer list
        only when there are fields, then the registration. */
    method WriteStructTail(name: string, fields: seq<string>)
      modifies this
      ensures level == old(level) && Attributes() == old(Attributes()) && currentNs == old(currentNs)
      ensures out == old(out) + StructTail(h, level, currentNs, name, fields)
    {
      var inits := [];
      if |fields| > 0 {
        inits := [h.indentText(level + 1), ": ", Join(Suffixed(fields, "()"), ", ")];
      }
      var q := QualifiedName(currentNs, name);
      out := out + (["\n", h.indentText(level + 1), name, "()", "\n"] + inits +
                    ["\n", h.indentText(level + 1), "{}", "\n", h.indentText(level), "};", "\n", "\n"] +
                    ([h.escapeNs(currentNs), "QI_TYPE_STRUCT("] + q +
                     [Join(Prefixed(fields, ", "), ""), ")", "\n", "\n", h.reenterNs(currentNs)]));
    }

    /** An enum: its fields one level deeper, then the registration. */
    method VisitEnum(d: Decl) returns (st: Status)
      requires d.EnumDeclNode?
      modifies this
      decreases d, 1
      ensures level == old(level) && Attributes() == old(Attributes()) && currentNs == old(currentNs)
      ensures st == StatusOf(ObjEnum(h, apiExport, old(level), old(constAttr), currentNs, d))
      ensures st.Done? ==> out == old(out) + ObjEnum(h, apiExport, old(level), old(constAttr), currentNs, d).value
    {
      out := out + [h.indentText(level), "enum ", d.name, " {", "\n"];
      st := Scoped(d.fields);
      if st.Failed? {
        return;
      }
      ghost var body := ObjDecls(h, apiExport, level + 1, constAttr, currentNs, d.fields).value;
      var q := QualifiedName(currentNs, d.name);
      out := out + ([h.indentText(level), "};", "\n", "\n", h.escapeNs(currentNs), "QI_TYPE_ENUM("] + q +
                    [")", "\n", "\n", h.reenterNs(currentNs)]);
      AppendThree(old(out), EnumHead(h, level, d.name), body, EnumTail(h, level, currentNs, d.name));
    }

    method VisitEnumField(d: Decl) returns (st: Status)
      requires d.EnumFieldDeclNode?
      modifies this
      ensures level == old(level) && Attributes() == old(Attributes()) && currentNs == old(currentNs)
      ensures st == StatusOf(EnumFieldLine(h, level, d))
      ensures st.Done? ==> out == old(out) + EnumFieldLine(h, level, d).value
    {
      if d.fieldType == EnumFieldType_Const {
        match d.node {
          case ConstDeclNode(_, name, _, data) =>
            out := out + [h.indentText(level), name, " = ", h.dataText(data), ",", "\n"];
            st := Done;
          case _ =>
            st := Failed(NotModelled(DeclType(d.node)));
        }
      } else {
        st := Failed(RuntimeError(EnumTypeError));
      }
    }

    method VisitConst(d: Decl)
      requires d.ConstDeclNode?
      modifies this
      ensures level == old(level) && Attributes() == old(Attributes()) && currentNs == old(currentNs)
      ensures out == old(out) + ConstLine(h, level, constAttr, d)
    {
      out := out + [h.indentText(level), "const ", h.typeText(EffectiveConstType(d, h.literalType), constAttr), " ", d.name,
                    " = ", h.dataText(d.data), ";", "\n"];
    }

    /** One line per declared name. */
    method VisitStructField(d: Decl)
      requires d.StructFieldDeclNode?
      modifies this
      ensures level == old(level) && Attributes() == old(Attributes()) && currentNs == old(currentNs)
      ensures out == old(out) + FieldLines(h, level, constAttr, d.ftype, d.names)
    {
      var i := 0;
      while i < |d.names|
        invariant 0 <= i <= |d.names|
        invariant level == old(level) && Attributes() == old(Attributes()) && currentNs == old(currentNs)
        invariant out == old(out) + FieldLines(h, level, constAttr, d.ftype, d.names[..i])
      {
        assert d.names[..i + 1][..i] == d.names[..i];
        out := out + [h.indentText(level), h.typeText(d.ftype, constAttr), " ", d.names[i], ";", "\n"];
        i := i + 1;
      }
      assert d.names[..|d.names|] == d.names;
    }

    /** `scoped(values)`: the declarations one level deeper. */
    method Scoped(values: seq<Decl>) returns (st: Status)
      modifies this
      decreases values, 1
      ensures level == old(level) && Attributes() == old(Attributes()) && currentNs == old(currentNs)
      ensures st == StatusOf(ObjDecls(h, apiExport, old(level) + 1, old(constAttr), currentNs, values))
      ensures st.Done? ==> out == old(out) + ObjDecls(h, apiExport, old(level) + 1, old(constAttr), currentNs, values).value
    {
      level := level + 1;
      st := Walk(values);
      level := level - 1;
    }

    method Walk(values: seq<Decl>) returns (st: Status)
      modifies this
      decreases values, 0
      ensures level == old(level) && Attributes() == old(Attributes()) && currentNs == old(currentNs)
      ensures st == StatusOf(ObjDecls(h, apiExport, old(level), old(constAttr), currentNs, values))
      ensures st.Done? ==> out == old(out) + ObjDecls(h, apiExport, old(level), old(constAttr), currentNs, values).value
    {
      var i := 0;
      while i < |values|
        invariant 0 <= i <= |values|
        invariant level == old(level) && Attributes() == old(Attributes()) && currentNs == old(currentNs)
        invariant ObjDecls(h, apiExport, level, constAttr, currentNs, values[..i]).Ok?
        invariant out == old(out) + ObjDecls(h, apiExport, level, constAttr, currentNs, values[..i]).value
      {
        ObjDeclsStep(h, apiExport, level, constAttr, currentNs, values, i);
        ghost var done := out;
        st := VisitDecl(values[i]);
        if st.Failed? {
          ObjDeclsStopAtError(h, apiExport, level, constAttr, currentNs, values, i + 1);
          return;
        }
        AppendTwo(old(out), ObjDecls(h, apiExport, level, constAttr, currentNs, values[..i]).value, out[|done|..]);
        i := i + 1;
      }
      assert values[..|values|] == values;
      st := Done;
    }
  }

  /** `genCppObjectInterface`: a fresh visitor formats the whole file. */
  method GenCppObjectInterface(h: Helpers, package: string, header: seq<string>, items: seq<NodeBody>)
    returns (r: Result<seq<string>, GenError>)
    ensures r == ObjectInterface(h, package, header, items)
  {
    var gen := new ObjectDefGen(h, package, header);
    var st := gen.Format(items);
    if st.Failed? {
      r := Err(st.error);
    } else {
      ghost var v := ObjItems(h, gen.apiExport, 0, false, [], items).value;
      assert [] + (header + v.0 + Footer(h, 0, v.1)) == header + v.0 + Footer(h, 0, v.1);
      r := Ok(gen.out);
    }
  }
}
