/**
 * The C++ type-registration backend, src/format_cppr.cpp.
 *
 * `CppBindQiLangGen` extends `CppBindGenFormatter`; one class stands for
 * both. Every interface becomes an `initType<k>` function that builds the
 * interface's `ObjectTypeBuilder`, advertising its methods, signals and
 * properties, and a `myinittype<k>` static that runs it, with `k` taken
 * from a counter; every struct becomes a `QI_REGISTER_STRUCT` line; every
 * package segment opens a namespace that the footer closes.
 */
module CppRegistration {
  import opened Ast
  import opened Formatting

  /** The fields the visits update: the interface counter `id`,
      `currentParent` and the count of namespaces to close. */
  datatype BindState = BindState(id: nat, parent: string, toclose: nat)

  const FreshState := BindState(0, "", 0)

  // ---------------------------------------------------------------------
  // What one declaration writes
  // ---------------------------------------------------------------------

  /** A method: advertised while `methodAttr` is active, a commented
      factory registration otherwise. */
  function FnLine(h: Helpers, level: nat, m: bool, parent: string, name: string): seq<string>
  {
    if m then [h.indentText(level), "builder.advertiseMethod(\"", name, "\", &", parent, "::", name, ");", "\n"]
    else [h.indentText(level), "//QI_REGISTER_OBJECT_FACTORY(", name, ");", "\n"]
  }

  /** A signal or a property, advertised under its own name. */
  function AdvertiseLine(h: Helpers, level: nat, call: string, parent: string, name: string): seq<string>
  {
    [h.indentText(level), call, name, "\", &", parent, "::", name, ");", "\n"]
  }

  /** The parent class an interface's members are advertised on. */
  function ParentOf(h: Helpers, d: Decl): string
    requires d.InterfaceDeclNode?
  {
    h.formatNs(d.pkg) + "::" + d.name + "Interface"
  }

  function InitTypeOpen(h: Helpers, level: nat, k: nat): seq<string>
  {
    [h.indentText(level), "static int initType", NatToString(k), "() {", "\n"]
  }

  /** The builder, the members, the registration and `return 42`, one
      level deeper. */
  function BuilderBlock(h: Helpers, level: nat, parent: string, members: seq<string>): seq<string>
  {
    [h.indentText(level), "qi::ObjectTypeBuilder< ", parent, " > builder;", "\n"] + members +
    [h.indentText(level), "builder.registerType();", "\n", h.indentText(level), "return 42;", "\n"]
  }

  function InitTypeClose(h: Helpers, level: nat, k: nat): seq<string>
  {
    [h.indentText(level), "}", "\n",
     h.indentText(level), "static int myinittype", NatToString(k), " = initType", NatToString(k), "();", "\n",
     h.indentText(level), "\n"]
  }

  /** What the visitor writes for one declaration, with `methodAttr` `m`,
      and the state after it. */
  function BindDecl(h: Helpers, level: nat, m: bool, s: BindState, d: Decl): Result<(seq<string>, BindState), GenError>
    decreases d, 1
  {
    match d
    case InterfaceDeclNode(_, _, _, _) => BindInterface(h, level, s, d)
    case FnDeclNode(name, _, _) => Ok((FnLine(h, level, m, s.parent, name), s))
    case SigDeclNode(name, _) => Ok((AdvertiseLine(h, level, "builder.advertiseSignal(\"", s.parent, name), s))
    case PropDeclNode(name, _) => Ok((AdvertiseLine(h, level, "builder.advertiseProperty(\"", s.parent, name), s))
    case StructDeclNode(_, _, _) => BindStruct(h, level, m, s, d)
    case ConstDeclNode(_, _, _, _) => Err(RuntimeError(Unimplemented))
    case FieldDeclNode(name, _) => Ok(([name], s))
    case _ => Err(NotModelled(DeclType(d)))
  }

  /** An interface takes the current `id` and increments it; its members
      are advertised one level deeper with `methodAttr` active and the
      interface as parent, which is cleared afterwards. */
  function BindInterface(h: Helpers, level: nat, s: BindState, d: Decl): Result<(seq<string>, BindState), GenError>
    requires d.InterfaceDeclNode?
    decreases d, 0
  {
    match BindDecls(h, level + 1, true, s.(id := s.id + 1, parent := ParentOf(h, d)), d.values)
    case Err(e) => Err(e)
    case Ok(r) =>
      Ok((InitTypeOpen(h, level, s.id) + BuilderBlock(h, level + 1, ParentOf(h, d), r.0) + InitTypeClose(h, level, s.id),
          r.1.(parent := "")))
  }

  /** `QI_REGISTER_STRUCT(Name, ` then the fields separated by ", ". */
  function BindStruct(h: Helpers, level: nat, m: bool, s: BindState, d: Decl): Result<(seq<string>, BindState), GenError>
    requires d.StructDeclNode?
    decreases d, 0
  {
    match BindFields(h, level, m, s, d.decls)
    case Err(e) => Err(e)
    case Ok(r) => Ok(([h.indentText(level), "QI_REGISTER_STRUCT(", d.name, ", "] + r.0 + [");", "\n"], r.1))
  }

  /** The declarations in order. */
  function BindDecls(h: Helpers, level: nat, m: bool, s: BindState, ds: seq<Decl>): Result<(seq<string>, BindState), GenError>
    decreases ds
  {
    if ds == [] then Ok(([], s))
    else match BindDecls(h, level, m, s, ds[..|ds| - 1])
      case Err(e) => Err(e)
      case Ok(r) =>
        (match BindDecl(h, level, m, r.1, ds[|ds| - 1])
         case Err(e) => Err(e)
         case Ok(t) => Ok((r.0 + t.0, t.1)))
  }

  /** The declarations in order, ", " between neighbours. */
  function BindFields(h: Helpers, level: nat, m: bool, s: BindState, ds: seq<Decl>): Result<(seq<string>, BindState), GenError>
    decreases ds
  {
    if ds == [] then Ok(([], s))
    else match BindFields(h, level, m, s, ds[..|ds| - 1])
      case Err(e) => Err(e)
      case Ok(r) =>
        (match BindDecl(h, level, m, r.1, ds[|ds| - 1])
         case Err(e) => Err(e)
         case Ok(t) => Ok((r.0 + (if |ds| > 1 then [", "] else []) + t.0, t.1)))
  }

  // ---------------------------------------------------------------------
  // Statements and the file
  // ---------------------------------------------------------------------

  /** A package opens one namespace per segment and counts it to close;
      every statement but an import is unimplemented. */
  function BindStmt(h: Helpers, level: nat, s: BindState, st: Stmt): Result<(seq<string>, BindState), GenError>
  {
    match st
    case PackageNode(name) =>
      Ok((NamespaceOpens(h, level, h.splitPkgName(name)) + ["\n"],
          s.(toclose := s.toclose + |h.splitPkgName(name)|)))
    case ImportNode(_, _) => Ok(([], s))
    case _ => Err(RuntimeError(Unimplemented))
  }

  /** A top-level node, dispatched on its kind; literals, expressions and
      types go to formatters that are not part of this model. */
  function BindItem(h: Helpers, level: nat, m: bool, s: BindState, b: NodeBody): Result<(seq<string>, BindState), GenError>
  {
    match b
    case StmtNode(st) => BindStmt(h, level, s, st)
    case DeclNode(d) => BindDecls(h, level, m, s, [d])
    case _ => Err(NotModelled(TypeOf(b)))
  }

  function BindItems(h: Helpers, level: nat, m: bool, s: BindState, bs: seq<NodeBody>): Result<(seq<string>, BindState), GenError>
  {
    if bs == [] then Ok(([], s))
    else match BindItems(h, level, m, s, bs[..|bs| - 1])
      case Err(e) => Err(e)
      case Ok(r) =>
        (match BindItem(h, level, m, r.1, bs[|bs| - 1])
         case Err(e) => Err(e)
         case Ok(t) => Ok((r.0 + t.0, t.1)))
  }

  /** `genCppObjectRegistration`: the header, the nodes with a fresh
      visitor, then one closing brace per namespace opened. */
  function ObjectRegistration(h: Helpers, header: seq<string>, items: seq<NodeBody>): Result<seq<string>, GenError>
  {
    match BindItems(h, 0, false, FreshState, items)
    case Err(e) => Err(e)
    case Ok(r) => Ok(header + r.0 + Times(r.1.toclose, ["}", "\n"]))
  }

  // ---------------------------------------------------------------------
  // The interface counter
  // ---------------------------------------------------------------------

  /** How many interfaces a declaration holds, itself included, through
      interface members and struct fields. */
  function InterfaceCount(d: Decl): nat
    decreases d, 1
  {
    match d
    case InterfaceDeclNode(_, _, values, _) => 1 + InterfaceCounts(values)
    case StructDeclNode(_, _, decls) => InterfaceCounts(decls)
    case _ => 0
  }

  function InterfaceCounts(ds: seq<Decl>): nat
    decreases ds
  {
    if ds == [] then 0 else InterfaceCounts(ds[..|ds| - 1]) + InterfaceCount(ds[|ds| - 1])
  }

  /** A visit advances `id` by the number of interfaces it meets and
      leaves `toclose` alone. */
  lemma {:induction false} IdCountsDecl(h: Helpers, level: nat, m: bool, s: BindState, d: Decl)
    requires BindDecl(h, level, m, s, d).Ok?
    ensures BindDecl(h, level, m, s, d).value.1.id == s.id + InterfaceCount(d)
    ensures BindDecl(h, level, m, s, d).value.1.toclose == s.toclose
    decreases d, 1
  {
    match d
    case InterfaceDeclNode(_, _, values, _) =>
      IdCountsDecls(h, level + 1, true, s.(id := s.id + 1, parent := ParentOf(h, d)), values);
    case StructDeclNode(_, _, decls) =>
      IdCountsFields(h, level, m, s, decls);
    case _ =>
  }

  lemma {:induction false} IdCountsDecls(h: Helpers, level: nat, m: bool, s: BindState, ds: seq<Decl>)
    requires BindDecls(h, level, m, s, ds).Ok?
    ensures BindDecls(h, level, m, s, ds).value.1.id == s.id + InterfaceCounts(ds)
    ensures BindDecls(h, level, m, s, ds).value.1.toclose == s.toclose
    decreases ds
  {
    if ds != [] {
      var init := ds[..|ds| - 1];
      IdCountsDecls(h, level, m, s, init);
      IdCountsDecl(h, level, m, BindDecls(h, level, m, s, init).value.1, ds[|ds| - 1]);
    }
  }

  lemma {:induction false} IdCountsFields(h: Helpers, level: nat, m: bool, s: BindState, ds: seq<Decl>)
    requires BindFields(h, level, m, s, ds).Ok?
    ensures BindFields(h, level, m, s, ds).value.1.id == s.id + InterfaceCounts(ds)
    ensures BindFields(h, level, m, s, ds).value.1.toclose == s.toclose
    decreases ds
  {
    if ds != [] {
      var init := ds[..|ds| - 1];
      IdCountsFields(h, level, m, s, init);
      IdCountsDecl(h, level, m, BindFields(h, level, m, s, init).value.1, ds[|ds| - 1]);
    }
  }

  /** An interface's functions are numbered with the counter as it finds
      it; afterwards the counter is past that number and the parent is
      cleared. */
  lemma InterfaceUsesCurrentId(h: Helpers, level: nat, m: bool, s: BindState, d: Decl)
    requires d.InterfaceDeclNode? && BindDecl(h, level, m, s, d).Ok?
    ensures var r := BindDecl(h, level, m, s, d).value;
            |r.0| >= 3 && r.0[..3] == [h.indentText(level), "static int initType", NatToString(s.id)] &&
            r.1.id > s.id && r.1.parent == ""
  {
    IdCountsDecl(h, level, m, s, d);
  }

  lemma {:induction false} InterfaceCountsPrefix(ds: seq<Decl>, a: nat, b: nat)
    requires a <= b <= |ds|
    ensures InterfaceCounts(ds[..a]) <= InterfaceCounts(ds[..b])
    decreases b - a
  {
    if a < b {
      assert ds[..b][..b - 1] == ds[..b - 1];
      InterfaceCountsPrefix(ds, a, b - 1);
    }
  }

  /** Two interfaces of one walk get different numbers, so their
      `initType<k>` and `myinittype<k>` names differ: the later one's
      number is larger. */
  lemma InterfaceIdsDistinct(h: Helpers, level: nat, m: bool, s: BindState, ds: seq<Decl>, i: nat, j: nat)
    requires i < j <= |ds| && ds[i].InterfaceDeclNode?
    requires BindDecls(h, level, m, s, ds[..j]).Ok?
    ensures BindDecls(h, level, m, s, ds[..i]).Ok?
    ensures var ki := BindDecls(h, level, m, s, ds[..i]).value.1.id;
            var kj := BindDecls(h, level, m, s, ds[..j]).value.1.id;
            ki < kj && NatToString(ki) != NatToString(kj)
  {
    assert ds[..j][..i] == ds[..i];
    if BindDecls(h, level, m, s, ds[..i]).Err? {
      BindDeclsStopAtError(h, level, m, s, ds[..j], i);
      assert false;
    }
    IdCountsDecls(h, level, m, s, ds[..i]);
    IdCountsDecls(h, level, m, s, ds[..j]);
    assert ds[..i + 1][..i] == ds[..i];
    assert InterfaceCounts(ds[..i + 1]) == InterfaceCounts(ds[..i]) + InterfaceCount(ds[i]);
    InterfaceCountsPrefix(ds, i + 1, j);
    var ki := BindDecls(h, level, m, s, ds[..i]).value.1.id;
    var kj := BindDecls(h, level, m, s, ds[..j]).value.1.id;
    if NatToString(ki) == NatToString(kj) {
      NatToStringInjective(ki, kj);
    }
  }

  // ---------------------------------------------------------------------
  // Members and structs
  // ---------------------------------------------------------------------

  predicate IsMember(d: Decl)
  {
    d.FnDeclNode? || d.SigDeclNode? || d.PropDeclNode?
  }

  /** The call that advertises a member inside an interface. */
  function AdvertiseCall(d: Decl): string
    requires IsMember(d)
  {
    if d.FnDeclNode? then "builder.advertiseMethod(\""
    else if d.SigDeclNode? then "builder.advertiseSignal(\""
    else "builder.advertiseProperty(\""
  }

  /** Inside an interface body every method, signal and property is
      advertised by exactly one line, keyed by its own name, on the
      current parent; the state is unchanged. */
  lemma {:induction false} MembersAdvertisedOnParent(h: Helpers, level: nat, s: BindState, ds: seq<Decl>)
    requires forall i :: 0 <= i < |ds| ==> IsMember(ds[i])
    ensures BindDecls(h, level, true, s, ds).Ok?
    ensures var r := BindDecls(h, level, true, s, ds).value;
            r.1 == s && |r.0| == 9 * |ds| &&
            forall i :: 0 <= i < |ds| ==>
              r.0[9 * i + 1] == AdvertiseCall(ds[i]) && r.0[9 * i + 2] == ds[i].name && r.0[9 * i + 4] == s.parent
    decreases |ds|
  {
    if ds != [] {
      var init, d := ds[..|ds| - 1], ds[|ds| - 1];
      MembersAdvertisedOnParent(h, level, s, init);
      var r := BindDecls(h, level, true, s, init).value;
      MemberAdvertised(h, level, s, d);
      var t := AdvertiseLine(h, level, AdvertiseCall(d), s.parent, d.name);
      assert BindDecls(h, level, true, s, ds) == Ok((r.0 + t, s));
      AdvertisedSnoc(h, level, s.parent, r.0, init, d);
      assert init + [d] == ds;
    }
  }

  /** Appending one member's advertising line keeps every earlier
      member's line where it was and puts the new one after them. */
  lemma AdvertisedSnoc(h: Helpers, level: nat, parent: string, prev: seq<string>, init: seq<Decl>, d: Decl)
    requires IsMember(d) && |prev| == 9 * |init|
    requires forall i :: 0 <= i < |init| ==> IsMember(init[i])
    requires forall i :: 0 <= i < |init| ==>
               prev[9 * i + 1] == AdvertiseCall(init[i]) && prev[9 * i + 2] == init[i].name && prev[9 * i + 4] == parent
    ensures var out, ds := prev + AdvertiseLine(h, level, AdvertiseCall(d), parent, d.name), init + [d];
            forall i :: 0 <= i < |ds| ==>
              IsMember(ds[i]) && out[9 * i + 1] == AdvertiseCall(ds[i]) && out[9 * i + 2] == ds[i].name && out[9 * i + 4] == parent
  {
    var out, ds := prev + AdvertiseLine(h, level, AdvertiseCall(d), parent, d.name), init + [d];
    forall i | 0 <= i < |ds|
      ensures IsMember(ds[i]) && out[9 * i + 1] == AdvertiseCall(ds[i]) && out[9 * i + 2] == ds[i].name && out[9 * i + 4] == parent
    {
      if i < |init| {
        assert ds[i] == init[i];
      }
    }
  }

  /** One member inside an interface body: its advertising line. */
  lemma MemberAdvertised(h: Helpers, level: nat, s: BindState, d: Decl)
    requires IsMember(d)
    ensures BindDecl(h, level, true, s, d) == Ok((AdvertiseLine(h, level, AdvertiseCall(d), s.parent, d.name), s))
  {
  }

  /** Where the parts of an `initType<k>` function sit in its text. */
  lemma InitTypeLayout(h: Helpers, level: nat, k: nat, parent: string, body: seq<string>)
    ensures var r := InitTypeOpen(h, level, k) + BuilderBlock(h, level + 1, parent, body) + InitTypeClose(h, level, k);
            |r| >= 10 + |body| && r[2] == NatToString(k) && r[7] == parent && r[10..10 + |body|] == body
  {
    var head := InitTypeOpen(h, level, k) + [h.indentText(level + 1), "qi::ObjectTypeBuilder< ", parent, " > builder;", "\n"];
    assert |head| == 10;
    var r := InitTypeOpen(h, level, k) + BuilderBlock(h, level + 1, parent, body) + InitTypeClose(h, level, k);
    assert r == head + body + ([h.indentText(level + 1), "builder.registerType();", "\n", h.indentText(level + 1), "return 42;", "\n"]
                               + InitTypeClose(h, level, k));
  }

  /** An interface's text once its body has been written. */
  lemma InterfaceText(h: Helpers, level: nat, m: bool, s: BindState, d: Decl)
    requires d.InterfaceDeclNode?
    requires BindDecls(h, level + 1, true, s.(id := s.id + 1, parent := ParentOf(h, d)), d.values).Ok?
    ensures var r := BindDecls(h, level + 1, true, s.(id := s.id + 1, parent := ParentOf(h, d)), d.values).value;
            BindDecl(h, level, m, s, d) ==
              Ok((InitTypeOpen(h, level, s.id) + BuilderBlock(h, level + 1, ParentOf(h, d), r.0) + InitTypeClose(h, level, s.id),
                  r.1.(parent := "")))
  {
    assert BindDecl(h, level, m, s, d) == BindInterface(h, level, s, d);
  }

  /** An interface whose body holds only methods, signals and properties
      builds `ParentOf(d)` and advertises every member on it, in order,
      after its `initType<k>` line; `currentParent` is cleared afterwards. */
  lemma InterfaceAdvertisesOnItsParent(h: Helpers, level: nat, m: bool, s: BindState, d: Decl)
    requires d.InterfaceDeclNode?
    requires forall i :: 0 <= i < |d.values| ==> IsMember(d.values[i])
    ensures BindDecl(h, level, m, s, d).Ok?
    ensures var r := BindDecl(h, level, m, s, d).value;
            r.1 == s.(id := s.id + 1, parent := "") &&
            |r.0| >= 10 + 9 * |d.values| && r.0[2] == NatToString(s.id) && r.0[7] == ParentOf(h, d) &&
            forall i :: 0 <= i < |d.values| ==>
              r.0[10 + 9 * i + 1] == AdvertiseCall(d.values[i]) && r.0[10 + 9 * i + 2] == d.values[i].name &&
              r.0[10 + 9 * i + 4] == ParentOf(h, d)
  {
    var parent := ParentOf(h, d);
    var inner := s.(id := s.id + 1, parent := parent);
    MembersAdvertisedOnParent(h, level + 1, inner, d.values);
    var body := BindDecls(h, level + 1, true, inner, d.values).value.0;
    InterfaceText(h, level, m, s, d);
    var r := InitTypeOpen(h, level, s.id) + BuilderBlock(h, level + 1, parent, body) + InitTypeClose(h, level, s.id);
    assert BindDecl(h, level, m, s, d) == Ok((r, inner.(parent := "")));
    InitTypeLayout(h, level, s.id, parent, body);
    forall i | 0 <= i < |d.values|
      ensures r[10 + 9 * i + 1] == body[9 * i + 1] && r[10 + 9 * i + 2] == body[9 * i + 2] && r[10 + 9 * i + 4] == body[9 * i + 4]
    {
      assert r[10..10 + |body|][9 * i + 1] == body[9 * i + 1];
      assert r[10..10 + |body|][9 * i + 2] == body[9 * i + 2];
      assert r[10..10 + |body|][9 * i + 4] == body[9 * i + 4];
    }
  }

  /** Outside an interface a method is not advertised: it leaves a
      commented factory registration. */
  lemma FnOutsideInterface(h: Helpers, level: nat, s: BindState, d: Decl)
    requires d.FnDeclNode?
    ensures BindDecl(h, level, false, s, d) == Ok(([h.indentText(level), "//QI_REGISTER_OBJECT_FACTORY(", d.name, ");", "\n"], s))
  {
  }

  /** A constant always throws. */
  lemma ConstIsUnimplemented(h: Helpers, level: nat, m: bool, s: BindState, d: Decl)
    requires d.ConstDeclNode?
    ensures BindDecl(h, level, m, s, d) == Err(RuntimeError(Unimplemented))
  {
  }

  function FieldDeclNames(ds: seq<Decl>): (r: seq<string>)
    requires forall i :: 0 <= i < |ds| ==> ds[i].FieldDeclNode?
    ensures |r| == |ds|
  {
    if ds == [] then [] else FieldDeclNames(ds[..|ds| - 1]) + [ds[|ds| - 1].name]
  }

  /** The fields of a struct are written by name, in declaration order,
      with ", " only between neighbours. */
  lemma {:induction false} FieldsInDeclarationOrder(h: Helpers, level: nat, m: bool, s: BindState, ds: seq<Decl>)
    requires forall i :: 0 <= i < |ds| ==> ds[i].FieldDeclNode?
    ensures BindFields(h, level, m, s, ds) == Ok((SeparatedTokens(FieldDeclNames(ds), ", "), s))
    decreases |ds|
  {
    if ds != [] {
      var init := ds[..|ds| - 1];
      FieldsInDeclarationOrder(h, level, m, s, init);
      var d := ds[|ds| - 1];
      var names := FieldDeclNames(ds);
      assert names == FieldDeclNames(init) + [d.name];
      assert names[..|names| - 1] == FieldDeclNames(init);
      assert BindDecl(h, level, m, s, d) == Ok(([d.name], s));
      var prev := SeparatedTokens(FieldDeclNames(init), ", ");
      if |ds| == 1 {
        assert BindFields(h, level, m, s, ds) == Ok(([] + [] + [d.name], s));
        assert [] + [] + [d.name] == [d.name];
      } else {
        assert BindFields(h, level, m, s, ds) == Ok((prev + [", "] + [d.name], s));
        assert prev + [", "] + [d.name] == prev + [", ", d.name];
      }
    }
  }

  /** The registration line of a struct of plain fields: the struct name,
      ", ", the field names separated by ", " (no field: nothing after the
      ", "), then `);`. */
  lemma StructRegistrationText(h: Helpers, level: nat, m: bool, s: BindState, d: Decl)
    requires d.StructDeclNode?
    requires forall i :: 0 <= i < |d.decls| ==> d.decls[i].FieldDeclNode?
    ensures BindStruct(h, level, m, s, d) ==
              Ok(([h.indentText(level), "QI_REGISTER_STRUCT(", d.name, ", "] +
                  SeparatedTokens(FieldDeclNames(d.decls), ", ") + [");", "\n"], s))
    ensures Concat(SeparatedTokens(FieldDeclNames(d.decls), ", ")) == Join(FieldDeclNames(d.decls), ", ")
  {
    FieldsInDeclarationOrder(h, level, m, s, d.decls);
    SeparatedTokensJoin(FieldDeclNames(d.decls), ", ");
  }

  // ---------------------------------------------------------------------
  // Namespaces
  // ---------------------------------------------------------------------

  /** A walk over the top-level nodes adds every package segment to
      `toclose`, across all package statements, and numbers every
      interface. */
  lemma {:induction false} ToCloseCountsEverySegment(h: Helpers, level: nat, m: bool, s: BindState, bs: seq<NodeBody>)
    requires BindItems(h, level, m, s, bs).Ok?
    ensures BindItems(h, level, m, s, bs).value.1.toclose == s.toclose + OpenedNamespaces(h, bs)
    decreases |bs|
  {
    if bs != [] {
      var init := bs[..|bs| - 1];
      ToCloseCountsEverySegment(h, level, m, s, init);
      var r := BindItems(h, level, m, s, init).value;
      match bs[|bs| - 1]
      case StmtNode(st) =>
        assert BindStmt(h, level, r.1, st).Ok?;
      case DeclNode(d) =>
        IdCountsDecls(h, level, m, r.1, [d]);
      case _ =>
        assert false;
    }
  }

  /** The registration file closes exactly the namespaces its package
      statements opened. */
  lemma NamespacesBalanced(h: Helpers, header: seq<string>, items: seq<NodeBody>)
    requires ObjectRegistration(h, header, items).Ok?
    ensures ObjectRegistration(h, header, items).value ==
              header + BindItems(h, 0, false, FreshState, items).value.0 + Times(OpenedNamespaces(h, items), ["}", "\n"])
  {
    ToCloseCountsEverySegment(h, 0, false, FreshState, items);
  }

  /** Every statement but a package or an import throws. */
  lemma StatementOutcomes(h: Helpers, level: nat, s: BindState, st: Stmt)
    ensures st.ImportNode? ==> BindStmt(h, level, s, st) == Ok(([], s))
    ensures !st.PackageNode? && !st.ImportNode? <==> BindStmt(h, level, s, st) == Err(RuntimeError(Unimplemented))
  {
  }

  // ---------------------------------------------------------------------
  // Interface numbers across a file
  // ---------------------------------------------------------------------

  /** How many interfaces a top-level node holds: those of its
      declaration; a statement holds none. */
  function ItemInterfaceCount(b: NodeBody): nat
  {
    if b.DeclNode? then InterfaceCount(b.decl) else 0
  }

  function ItemsInterfaceCount(bs: seq<NodeBody>): nat
  {
    if bs == [] then 0 else ItemsInterfaceCount(bs[..|bs| - 1]) + ItemInterfaceCount(bs[|bs| - 1])
  }

  /** A walk over the top-level nodes advances `id` by the number of
      interfaces their declarations hold; statements leave it alone. */
  lemma {:induction false} IdCountsItems(h: Helpers, level: nat, m: bool, s: BindState, bs: seq<NodeBody>)
    requires BindItems(h, level, m, s, bs).Ok?
    ensures BindItems(h, level, m, s, bs).value.1.id == s.id + ItemsInterfaceCount(bs)
    decreases |bs|
  {
    if bs != [] {
      var init := bs[..|bs| - 1];
      IdCountsItems(h, level, m, s, init);
      var r := BindItems(h, level, m, s, init).value;
      match bs[|bs| - 1]
      case StmtNode(st) =>
        assert BindStmt(h, level, r.1, st).Ok?;
      case DeclNode(d) =>
        IdCountsDecls(h, level, m, r.1, [d]);
        assert [d][..0] == [];
        assert InterfaceCounts([d]) == InterfaceCount(d);
      case _ =>
        assert false;
    }
  }

  lemma {:induction false} ItemsInterfaceCountPrefix(bs: seq<NodeBody>, a: nat, b: nat)
    requires a <= b <= |bs|
    ensures ItemsInterfaceCount(bs[..a]) <= ItemsInterfaceCount(bs[..b])
    decreases b - a
  {
    if a < b {
      assert bs[..b][..b - 1] == bs[..b - 1];
      ItemsInterfaceCountPrefix(bs, a, b - 1);
    }
  }

  /** No earlier node holding an interface means no interface counted. */
  lemma {:induction false} ItemsInterfaceCountNone(bs: seq<NodeBody>)
    requires forall k :: 0 <= k < |bs| ==> ItemInterfaceCount(bs[k]) == 0
    ensures ItemsInterfaceCount(bs) == 0
    decreases |bs|
  {
    if bs != [] {
      ItemsInterfaceCountNone(bs[..|bs| - 1]);
    }
  }

  /** Two interfaces of one walk over top-level nodes get different
      numbers, whichever statements and declarations lie between them:
      the later one's number is larger. */
  lemma InterfaceItemIdsDistinct(h: Helpers, level: nat, m: bool, s: BindState, bs: seq<NodeBody>, i: nat, j: nat)
    requires i < j <= |bs| && bs[i].DeclNode? && bs[i].decl.InterfaceDeclNode?
    requires BindItems(h, level, m, s, bs[..j]).Ok?
    ensures BindItems(h, level, m, s, bs[..i]).Ok?
    ensures var ki := BindItems(h, level, m, s, bs[..i]).value.1.id;
            var kj := BindItems(h, level, m, s, bs[..j]).value.1.id;
            ki < kj && NatToString(ki) != NatToString(kj)
  {
    assert bs[..j][..i] == bs[..i];
    if BindItems(h, level, m, s, bs[..i]).Err? {
      BindItemsStopAtError(h, level, m, s, bs[..j], i);
      assert false;
    }
    IdCountsItems(h, level, m, s, bs[..i]);
    IdCountsItems(h, level, m, s, bs[..j]);
    assert bs[..i + 1][..i] == bs[..i];
    assert ItemsInterfaceCount(bs[..i + 1]) == ItemsInterfaceCount(bs[..i]) + InterfaceCount(bs[i].decl);
    ItemsInterfaceCountPrefix(bs, i + 1, j);
    var ki := BindItems(h, level, m, s, bs[..i]).value.1.id;
    var kj := BindItems(h, level, m, s, bs[..j]).value.1.id;
    if NatToString(ki) == NatToString(kj) {
      NatToStringInjective(ki, kj);
    }
  }

  /** In a registration file the interface declared at top-level position
      `i` writes `initType<k>`, with `k` the number of interfaces declared
      before it (nested ones included); the first interface of a file
      writes `initType0`. */
  lemma RegistrationInterfaceNumber(h: Helpers, header: seq<string>, items: seq<NodeBody>, i: nat)
    requires ObjectRegistration(h, header, items).Ok?
    requires i < |items| && items[i].DeclNode? && items[i].decl.InterfaceDeclNode?
    ensures BindItems(h, 0, false, FreshState, items[..i]).Ok?
    ensures var r := BindItems(h, 0, false, FreshState, items[..i]).value;
            var t := BindItem(h, 0, false, r.1, items[i]);
            t.Ok? && |t.value.0| >= 3 &&
            t.value.0[..3] == [h.indentText(0), "static int initType", NatToString(ItemsInterfaceCount(items[..i]))]
    ensures (forall k :: 0 <= k < i ==> ItemInterfaceCount(items[k]) == 0) ==>
            BindItem(h, 0, false, BindItems(h, 0, false, FreshState, items[..i]).value.1, items[i]).value.0[2] == "0"
  {
    var s := FreshState;
    if BindItems(h, 0, false, s, items[..i + 1]).Err? {
      BindItemsStopAtError(h, 0, false, s, items, i + 1);
      assert false;
    }
    assert items[..i + 1][..i] == items[..i];
    var r := BindItems(h, 0, false, s, items[..i]).value;
    IdCountsItems(h, 0, false, s, items[..i]);
    BindItemsStep(h, 0, false, s, items, i);
    var d := items[i].decl;
    BindDeclsOne(h, 0, false, r.1, d);
    InterfaceUsesCurrentId(h, 0, false, r.1, d);
    if forall k :: 0 <= k < i ==> ItemInterfaceCount(items[k]) == 0 {
      ItemsInterfaceCountNone(items[..i]);
    }
  }

  /** Two interfaces declared at the top level of one registration file
      write different `initType<k>` names, the later one with the larger
      number. */
  lemma RegistrationInterfaceNumbersDistinct(h: Helpers, header: seq<string>, items: seq<NodeBody>, i: nat, j: nat)
    requires ObjectRegistration(h, header, items).Ok?
    requires i < j < |items|
    requires items[i].DeclNode? && items[i].decl.InterfaceDeclNode?
    requires items[j].DeclNode? && items[j].decl.InterfaceDeclNode?
    ensures ItemsInterfaceCount(items[..i]) < ItemsInterfaceCount(items[..j])
    ensures NatToString(ItemsInterfaceCount(items[..i])) != NatToString(ItemsInterfaceCount(items[..j]))
  {
    if BindItems(h, 0, false, FreshState, items[..j]).Err? {
      BindItemsStopAtError(h, 0, false, FreshState, items, j);
      assert false;
    }
    InterfaceItemIdsDistinct(h, 0, false, FreshState, items, i, j);
    IdCountsItems(h, 0, false, FreshState, items[..i]);
    IdCountsItems(h, 0, false, FreshState, items[..j]);
  }

  // ---------------------------------------------------------------------
  // A walk stops at its first error
  // ---------------------------------------------------------------------

  lemma BindDeclsOne(h: Helpers, level: nat, m: bool, s: BindState, d: Decl)
    ensures BindDecls(h, level, m, s, [d]) == BindDecl(h, level, m, s, d)
  {
    assert [d][..0] == [];
    match BindDecl(h, level, m, s, d)
    case Err(_) =>
    case Ok(t) => assert [] + t.0 == t.0;
  }

  lemma BindDeclsStep(h: Helpers, level: nat, m: bool, s: BindState, ds: seq<Decl>, i: nat)
    requires i < |ds| && BindDecls(h, level, m, s, ds[..i]).Ok?
    ensures var r := BindDecls(h, level, m, s, ds[..i]).value;
            BindDecls(h, level, m, s, ds[..i + 1]) ==
              match BindDecls(h, level, m, r.1, [ds[i]])
              case Err(e) => Err(e)
              case Ok(t) => Ok((r.0 + t.0, t.1))
  {
    assert ds[..i + 1][..i] == ds[..i];
    BindDeclsOne(h, level, m, BindDecls(h, level, m, s, ds[..i]).value.1, ds[i]);
  }

  lemma {:induction false} BindDeclsStopAtError(h: Helpers, level: nat, m: bool, s: BindState, ds: seq<Decl>, k: nat)
    requires k <= |ds| && BindDecls(h, level, m, s, ds[..k]).Err?
    ensures BindDecls(h, level, m, s, ds) == BindDecls(h, level, m, s, ds[..k])
    decreases |ds| - k
  {
    if k < |ds| {
      assert ds[..k + 1][..k] == ds[..k];
      BindDeclsStopAtError(h, level, m, s, ds, k + 1);
    } else {
      assert ds[..k] == ds;
    }
  }

  lemma BindFieldsStep(h: Helpers, level: nat, m: bool, s: BindState, ds: seq<Decl>, i: nat)
    requires i < |ds| && BindFields(h, level, m, s, ds[..i]).Ok?
    ensures var r := BindFields(h, level, m, s, ds[..i]).value;
            BindFields(h, level, m, s, ds[..i + 1]) ==
              match BindDecls(h, level, m, r.1, [ds[i]])
              case Err(e) => Err(e)
              case Ok(t) => Ok((r.0 + (if i > 0 then [", "] else []) + t.0, t.1))
  {
    assert ds[..i + 1][..i] == ds[..i];
    BindDeclsOne(h, level, m, BindFields(h, level, m, s, ds[..i]).value.1, ds[i]);
  }

  lemma {:induction false} BindFieldsStopAtError(h: Helpers, level: nat, m: bool, s: BindState, ds: seq<Decl>, k: nat)
    requires k <= |ds| && BindFields(h, level, m, s, ds[..k]).Err?
    ensures BindFields(h, level, m, s, ds) == BindFields(h, level, m, s, ds[..k])
    decreases |ds| - k
  {
    if k < |ds| {
      assert ds[..k + 1][..k] == ds[..k];
      BindFieldsStopAtError(h, level, m, s, ds, k + 1);
    } else {
      assert ds[..k] == ds;
    }
  }

  lemma BindItemsStep(h: Helpers, level: nat, m: bool, s: BindState, bs: seq<NodeBody>, i: nat)
    requires i < |bs| && BindItems(h, level, m, s, bs[..i]).Ok?
    ensures var r := BindItems(h, level, m, s, bs[..i]).value;
            BindItems(h, level, m, s, bs[..i + 1]) ==
              match BindItem(h, level, m, r.1, bs[i])
              case Err(e) => Err(e)
              case Ok(t) => Ok((r.0 + t.0, t.1))
  {
    assert bs[..i + 1][..i] == bs[..i];
  }

  lemma {:induction false} BindItemsStopAtError(h: Helpers, level: nat, m: bool, s: BindState, bs: seq<NodeBody>, k: nat)
    requires k <= |bs| && BindItems(h, level, m, s, bs[..k]).Err?
    ensures BindItems(h, level, m, s, bs) == BindItems(h, level, m, s, bs[..k])
    decreases |bs| - k
  {
    if k < |bs| {
      assert bs[..k + 1][..k] == bs[..k];
      BindItemsStopAtError(h, level, m, s, bs, k + 1);
    } else {
      assert bs[..k] == bs;
    }
  }

  // ---------------------------------------------------------------------
  // The visitor
  // ---------------------------------------------------------------------

  /** `CppBindQiLangGen` with its base `CppBindGenFormatter`. */
  class CppBindGen {
    const h: Helpers
    /** What `formatHeader` writes: boilerplate built from the include list. */
    const header: seq<string>
    var out: seq<string>
    var level: nat
    var methodAttr: bool
    var id: nat
    var currentParent: string
    var toclose: nat

    function State(): BindState
      reads this
    {
      BindState(id, currentParent, toclose)
    }

    constructor (h: Helpers, header: seq<string>)
      ensures this.h == h && this.header == header
      ensures out == [] && level == 0 && !methodAttr && State() == FreshState
    {
      this.h := h;
      this.header := header;
      out := [];
      level := 0;
      methodAttr := false;
      id := 0;
      currentParent := "";
      toclose := 0;
    }

    /** `format`: the header, every node in order, then the footer. */
    method Format(items: seq<NodeBody>) returns (st: Status)
      modifies this
      ensures level == old(level) && methodAttr == old(methodAttr)
      ensures st == StatusOf(BindItems(h, old(level), old(methodAttr), old(State()), items))
      ensures st.Done? ==>
                var r := BindItems(h, old(level), old(methodAttr), old(State()), items).value;
                State() == r.1 && out == old(out) + (header + r.0 + Times(r.1.toclose, ["}", "\n"]))
    {
      out := out + header;
      st := WalkItems(items);
      if st.Failed? {
        return;
      }
      ghost var body := out[|old(out) + header|..];
      FormatFooter();
      AppendThree(old(out), header, body, Times(toclose, ["}", "\n"]));
    }

    /** `formatFooter`: one closing brace per namespace opened. */
    method FormatFooter()
      modifies this
      ensures level == old(level) && methodAttr == old(methodAttr) && State() == old(State())
      ensures out == old(out) + Times(toclose, ["}", "\n"])
    {
      var i := 0;
      while i < toclose
        invariant 0 <= i <= toclose
        invariant level == old(level) && methodAttr == old(methodAttr) && State() == old(State())
        invariant out == old(out) + Times(i, ["}", "\n"])
      {
        out := out + ["}", "\n"];
        i := i + 1;
      }
    }

    method WalkItems(items: seq<NodeBody>) returns (st: Status)
      modifies this
      ensures level == old(level) && methodAttr == old(methodAttr)
      ensures st == StatusOf(BindItems(h, old(level), old(methodAttr), old(State()), items))
      ensures st.Done? ==> out == old(out) + BindItems(h, old(level), old(methodAttr), old(State()), items).value.0
      ensures st.Done? ==> State() == BindItems(h, old(level), old(methodAttr), old(State()), items).value.1
    {
      ghost var s0 := State();
      var i := 0;
      while i < |items|
        invariant 0 <= i <= |items|
        invariant level == old(level) && methodAttr == old(methodAttr)
        invariant BindItems(h, level, methodAttr, s0, items[..i]).Ok?
        invariant out == old(out) + BindItems(h, level, methodAttr, s0, items[..i]).value.0
        invariant State() == BindItems(h, level, methodAttr, s0, items[..i]).value.1
      {
        BindItemsStep(h, level, methodAttr, s0, items, i);
        ghost var done := out;
        st := VisitItem(items[i]);
        if st.Failed? {
          BindItemsStopAtError(h, level, methodAttr, s0, items, i + 1);
          return;
        }
        AppendTwo(old(out), BindItems(h, level, methodAttr, s0, items[..i]).value.0, out[|done|..]);
        i := i + 1;
      }
      assert items[..|items|] == items;
      st := Done;
    }

    /** `accept`: dispatch on the node's kind. */
    method VisitItem(b: NodeBody) returns (st: Status)
      modifies this
      ensures level == old(level) && methodAttr == old(methodAttr)
      ensures st == StatusOf(BindItem(h, old(level), old(methodAttr), old(State()), b))
      ensures st.Done? ==> out == old(out) + BindItem(h, old(level), old(methodAttr), old(State()), b).value.0
      ensures st.Done? ==> State() == BindItem(h, old(level), old(methodAttr), old(State()), b).value.1
    {
      match b
      case StmtNode(s) =>
        st := VisitStmt(s);
      case DeclNode(d) =>
        st := VisitDecl(d);
      case _ =>
        st := Failed(NotModelled(TypeOf(b)));
    }

    method VisitStmt(s: Stmt) returns (st: Status)
      modifies this
      ensures level == old(level) && methodAttr == old(methodAttr)
      ensures st == StatusOf(BindStmt(h, old(level), old(State()), s))
      ensures st.Done? ==> out == old(out) + BindStmt(h, old(level), old(State()), s).value.0
      ensures st.Done? ==> State() == BindStmt(h, old(level), old(State()), s).value.1
    {
      match s
      case PackageNode(name) =>
        VisitPackage(name);
        st := Done;
      case ImportNode(_, _) =>
        st := Done;
      case _ =>
        st := Failed(RuntimeError(Unimplemented));
    }

    /** Each segment is counted in `toclose` and opened. */
    method VisitPackage(name: string)
      modifies this
      ensures level == old(level) && methodAttr == old(methodAttr)
      ensures State() == old(State()).(toclose := old(toclose) + |h.splitPkgName(name)|)
      ensures out == old(out) + (NamespaceOpens(h, level, h.splitPkgName(name)) + ["\n"])
    {
      var ns := h.splitPkgName(name);
      var i := 0;
      while i < |ns|
        invariant 0 <= i <= |ns|
        invariant level == old(level) && methodAttr == old(methodAttr)
        invariant State() == old(State()).(toclose := old(toclose) + i)
        invariant out == old(out) + NamespaceOpens(h, level, ns[..i])
      {
        assert ns[..i + 1][..i] == ns[..i];
        toclose := toclose + 1;
        out := out + [h.indentText(level), "namespace ", ns[i], " {", "\n"];
        i := i + 1;
      }
      assert ns[..|ns|] == ns;
      out := out + ["\n"];
    }

    /** One declaration, stated as the walk of the one-element list. */
    method VisitDecl(d: Decl) returns (st: Status)
      modifies this
      decreases d, 2
      ensures level == old(level) && methodAttr == old(methodAttr)
      ensures st == StatusOf(BindDecls(h, old(level), old(methodAttr), old(State()), [d]))
      ensures st.Done? ==> out == old(out) + BindDecls(h, old(level), old(methodAttr), old(State()), [d]).value.0
      ensures st.Done? ==> State() == BindDecls(h, old(level), old(methodAttr), old(State()), [d]).value.1
    {
      BindDeclsOne(h, level, methodAttr, State(), d);
      match d
      case InterfaceDeclNode(_, _, _, _) =>
        st := VisitInterface(d);
      case FnDeclNode(name, _, _) =>
        if methodAttr {
          out := out + [h.indentText(level), "builder.advertiseMethod(\"", name, "\", &", currentParent, "::", name, ");", "\n"];
        } else {
          out := out + [h.indentText(level), "//QI_REGISTER_OBJECT_FACTORY(", name, ");", "\n"];
        }
        st := Done;
      case SigDeclNode(name, _) =>
        out := out + [h.indentText(level), "builder.advertiseSignal(\"", name, "\", &", currentParent, "::", name, ");", "\n"];
        st := Done;
      case PropDeclNode(name, _) =>
        out := out + [h.indentText(level), "builder.advertiseProperty(\"", name, "\", &", currentParent, "::", name, ");", "\n"];
        st := Done;
      case StructDeclNode(_, _, _) =>
        st := VisitStruct(d);
      case ConstDeclNode(_, _, _, _) =>
        st := Failed(RuntimeError(Unimplemented));
      case FieldDeclNode(name, _) =>
        out := out + [name];
        st := Done;
      case _ =>
        st := Failed(NotModelled(DeclType(d)));
    }

    /** `initType<k>` and `myinittype<k>` for the current `id`. */
    method VisitInterface(d: Decl) returns (st: Status)
      requires d.InterfaceDeclNode?
      modifies this
      decreases d, 1
      ensures level == old(level) && methodAttr == old(methodAttr)
      ensures st == StatusOf(BindInterface(h, old(level), old(State()), d))
      ensures st.Done? ==> out == old(out) + BindInterface(h, old(level), old(State()), d).value.0
      ensures st.Done? ==> State() == BindInterface(h, old(level), old(State()), d).value.1
    {
      var current := id;
      id := id + 1;
      currentParent := h.formatNs(d.pkg) + "::" + d.name + "Interface";
      out := out + [h.indentText(level), "static int initType", NatToString(current), "() {", "\n"];
      ghost var inner := State();
      st := WriteBuilder(d.values);
      if st.Failed? {
        return;
      }
      ghost var block := BuilderBlock(h, level + 1, ParentOf(h, d), BindDecls(h, level + 1, true, inner, d.values).value.0);
      out := out + [h.indentText(level), "}", "\n",
                    h.indentText(level), "static int myinittype", NatToString(current), " = initType", NatToString(current), "();", "\n",
                    h.indentText(level), "\n"];
      AppendThree(old(out), InitTypeOpen(h, level, current), block, InitTypeClose(h, level, current));
    }

    /** The scoped block of an interface: one level deeper with
        `methodAttr` active, the builder, the members, the registration;
        the parent is cleared before the block closes. */
    method WriteBuilder(values: seq<Decl>) returns (st: Status)
      modifies this
      decreases values, 2
      ensures level == old(level) && methodAttr == old(methodAttr)
      ensures st == StatusOf(BindDecls(h, old(level) + 1, true, old(State()), values))
      ensures st.Done? ==> out == old(out) + BuilderBlock(h, old(level) + 1, old(currentParent),
                                                             BindDecls(h, old(level) + 1, true, old(State()), values).value.0)
      ensures st.Done? ==> State() == BindDecls(h, old(level) + 1, true, old(State()), values).value.1.(parent := "")
    {
      var saved := methodAttr;
      methodAttr := true;
      out := out + [h.indentText(level + 1), "qi::ObjectTypeBuilder< ", currentParent, " > builder;", "\n"];
      ghost var head := out[|old(out)|..];
      st := Scoped(values);
      methodAttr := saved;
      if st.Failed? {
        return;
      }
      ghost var body := BindDecls(h, level + 1, true, old(State()), values).value.0;
      ghost var tail := [h.indentText(level + 1), "builder.registerType();", "\n", h.indentText(level + 1), "return 42;", "\n"];
      assert out == old(out) + head + body;
      out := out + [h.indentText(level + 1), "builder.registerType();", "\n", h.indentText(level + 1), "return 42;", "\n"];
      currentParent := "";
      AppendThree(old(out), head, body, tail);
    }

    method Scoped(values: seq<Decl>) returns (st: Status)
      modifies this
      decreases values, 1
      ensures level == old(level) && methodAttr == old(methodAttr)
      ensures st == StatusOf(BindDecls(h, old(level) + 1, old(methodAttr), old(State()), values))
      ensures st.Done? ==> out == old(out) + BindDecls(h, old(level) + 1, old(methodAttr), old(State()), values).value.0
      ensures st.Done? ==> State() == BindDecls(h, old(level) + 1, old(methodAttr), old(State()), values).value.1
    {
      level := level + 1;
      st := Walk(values);
      level := level - 1;
    }

    method Walk(values: seq<Decl>) returns (st: Status)
      modifies this
      decreases values, 0
      ensures level == old(level) && methodAttr == old(methodAttr)
      ensures st == StatusOf(BindDecls(h, old(level), old(methodAttr), old(State()), values))
      ensures st.Done? ==> out == old(out) + BindDecls(h, old(level), old(methodAttr), old(State()), values).value.0
      ensures st.Done? ==> State() == BindDecls(h, old(level), old(methodAttr), old(State()), values).value.1
    {
      ghost var s0 := State();
      var i := 0;
      while i < |values|
        invariant 0 <= i <= |values|
        invariant level == old(level) && methodAttr == old(methodAttr)
        invariant BindDecls(h, level, methodAttr, s0, values[..i]).Ok?
        invariant out == old(out) + BindDecls(h, level, methodAttr, s0, values[..i]).value.0
        invariant State() == BindDecls(h, level, methodAttr, s0, values[..i]).value.1
      {
        BindDeclsStep(h, level, methodAttr, s0, values, i);
        ghost var done := out;
        st := VisitDecl(values[i]);
        if st.Failed? {
          BindDeclsStopAtError(h, level, methodAttr, s0, values, i + 1);
          return;
        }
        AppendTwo(old(out), BindDecls(h, level, methodAttr, s0, values[..i]).value.0, out[|done|..]);
        i := i + 1;
      }
      assert values[..|values|] == values;
      st := Done;
    }

    /** `QI_REGISTER_STRUCT(Name, ` then each field, ", " after every
        field but the last, then `);`. */
    method VisitStruct(d: Decl) returns (st: Status)
      requires d.StructDeclNode?
      modifies this
      decreases d, 1
      ensures level == old(level) && methodAttr == old(methodAttr)
      ensures st == StatusOf(BindStruct(h, old(level), old(methodAttr), old(State()), d))
      ensures st.Done? ==> out == old(out) + BindStruct(h, old(level), old(methodAttr), old(State()), d).value.0
      ensures st.Done? ==> State() == BindStruct(h, old(level), old(methodAttr), old(State()), d).value.1
    {
      out := out + [h.indentText(level), "QI_REGISTER_STRUCT(", d.name, ", "];
      st := WriteFields(d.decls);
      if st.Failed? {
        return;
      }
      ghost var fields := BindFields(h, level, methodAttr, old(State()), d.decls).value.0;
      out := out + [");", "\n"];
      AppendThree(old(out), [h.indentText(level), "QI_REGISTER_STRUCT(", d.name, ", "], fields, [");", "\n"]);
    }

    method WriteFields(fields: seq<Decl>) returns (st: Status)
      modifies this
      decreases fields, 1
      ensures level == old(level) && methodAttr == old(methodAttr)
      ensures st == StatusOf(BindFields(h, old(level), old(methodAttr), old(State()), fields))
      ensures st.Done? ==> out == old(out) + BindFields(h, old(level), old(methodAttr), old(State()), fields).value.0
      ensures st.Done? ==> State() == BindFields(h, old(level), old(methodAttr), old(State()), fields).value.1
    {
      ghost var s0 := State();
      var i := 0;
      while i < |fields|
        invariant 0 <= i <= |fields|
        invariant level == old(level) && methodAttr == old(methodAttr)
        invariant BindFields(h, level, methodAttr, s0, fields[..i]).Ok?
        invariant out == old(out) + BindFields(h, level, methodAttr, s0, fields[..i]).value.0 +
                         (if 0 < i < |fields| then [", "] else [])
        invariant State() == BindFields(h, level, methodAttr, s0, fields[..i]).value.1
      {
        st := WriteField(fields, i, level, methodAttr, s0, old(out));
        if st.Failed? {
          return;
        }
        i := i + 1;
      }
      assert fields[..|fields|] == fields;
      st := Done;
    }

    /** One turn of the field loop: the field, then ", " unless it is the
        last one. */
    method WriteField(fields: seq<Decl>, i: nat, ghost lv: nat, ghost m: bool, ghost s0: BindState, ghost base: seq<string>)
      returns (st: Status)
      requires level == lv && methodAttr == m
      requires i < |fields| && BindFields(h, lv, m, s0, fields[..i]).Ok?
      requires out == base + BindFields(h, lv, m, s0, fields[..i]).value.0 + (if i > 0 then [", "] else [])
      requires State() == BindFields(h, lv, m, s0, fields[..i]).value.1
      modifies this
      decreases fields, 0
      ensures level == lv && methodAttr == m
      ensures st.Failed? ==> st == StatusOf(BindFields(h, lv, m, s0, fields))
      ensures st.Done? ==> BindFields(h, lv, m, s0, fields[..i + 1]).Ok?
      ensures st.Done? ==> out == base + BindFields(h, lv, m, s0, fields[..i + 1]).value.0 +
                                  (if i + 1 < |fields| then [", "] else [])
      ensures st.Done? ==> State() == BindFields(h, lv, m, s0, fields[..i + 1]).value.1
    {
      BindFieldsStep(h, lv, m, s0, fields, i);
      ghost var r := BindFields(h, lv, m, s0, fields[..i]).value;
      ghost var before := r.0 + (if i > 0 then [", "] else []);
      st := VisitDecl(fields[i]);
      if st.Failed? {
        BindFieldsStopAtError(h, lv, m, s0, fields, i + 1);
        return;
      }
      ghost var t := BindDecls(h, lv, m, r.1, [fields[i]]).value;
      assert BindFields(h, lv, m, s0, fields[..i + 1]) == Ok((before + t.0, t.1));
      assert out == old(out) + t.0;
      AppendTwo(base, before, t.0);
      assert out == base + (before + t.0);
      if i + 1 < |fields| {
        out := out + [", "];
      }
    }
  }

  /** `genCppObjectRegistration`: a fresh visitor formats the whole file. */
  method GenCppObjectRegistration(h: Helpers, header: seq<string>, items: seq<NodeBody>)
    returns (r: Result<seq<string>, GenError>)
    ensures r == ObjectRegistration(h, header, items)
  {
    var gen := new CppBindGen(h, header);
    var st := gen.Format(items);
    if st.Failed? {
      r := Err(st.error);
    } else {
      ghost var v := BindItems(h, 0, false, FreshState, items).value;
      assert [] + (header + v.0 + Times(v.1.toclose, ["}", "\n"])) == header + v.0 + Times(v.1.toclose, ["}", "\n"]);
      r := Ok(gen.out);
    }
  }
}
