/**
 * The C++ interface header backend, src/format_cpp_interface.cpp.
 *
 * Five visitors write one header: `QiLangGenObjectDef` walks the file and,
 * for each interface, runs `QiLangGenAsyncIface` (the `<Name>Async`
 * class) and `QiLangGenIface` (the `<Name>` class), which in turn runs
 * `QiLangGenIfaceSigPropParam` and `QiLangGenIfaceSigPropParamInit` for
 * the constructor's parameter and initializer lists.
 *
 * Each visitor is a class whose methods append tokens to `out` and are
 * proved against a specification function of the visitor's state; the
 * lemmas state what those functions promise.
 */
module CppInterface {
  import opened Ast
  import opened Formatting

  /** The format attributes of a `CppTypeFormatter`-based visitor. */
  datatype Attrs = Attrs(virtualAttr: bool, apiAttr: bool, constAttr: bool)

  /** A visitor that was just built: every attribute inactive. */
  const FreshAttrs := Attrs(false, false, false)

  /** What an interface visit activates for its members: `virtual` on,
      the export macro blocked. */
  function InterfaceAttrs(a: Attrs): Attrs
  {
    a.(virtualAttr := true, apiAttr := false)
  }

  // ---------------------------------------------------------------------
  // The base-class list of both interface classes
  // ---------------------------------------------------------------------

  /** The tokens of the first `k` turns of the base loop. */
  function BaseRun(bs: seq<string>, suffix: string, k: nat): seq<string>
    requires k <= |bs|
  {
    if k == 0 then []
    else BaseRun(bs, suffix, k - 1) + ["virtual public ", bs[k - 1], suffix] + (if k != |bs| then [", "] else [])
  }

  /** `: virtual public B1<suffix>, virtual public B2<suffix>`, or nothing. */
  function BaseTokens(bs: seq<string>, suffix: string): seq<string>
  {
    if |bs| > 0 then [": "] + BaseRun(bs, suffix, |bs|) else []
  }

  /** The loop both interface visits run over `inherits`. */
  method WriteBaseList(bs: seq<string>, suffix: string) returns (ts: seq<string>)
    ensures ts == BaseTokens(bs, suffix)
  {
    ts := [];
    if |bs| > 0 {
      ts := ts + [": "];
      var i := 0;
      while i < |bs|
        invariant 0 <= i <= |bs|
        invariant ts == [": "] + BaseRun(bs, suffix, i)
      {
        ts := ts + ["virtual public ", bs[i], suffix];
        if i + 1 != |bs| {
          ts := ts + [", "];
        }
        i := i + 1;
      }
    }
  }

  /** One base as the list shows it. */
  function BaseName(b: string, suffix: string): string
  {
    "virtual public " + b + suffix
  }

  function BaseNames(bs: seq<string>, suffix: string): (r: seq<string>)
    ensures |r| == |bs|
  {
    if bs == [] then [] else BaseNames(bs[..|bs| - 1], suffix) + [BaseName(bs[|bs| - 1], suffix)]
  }

  /** The text of the `k`-th turn of the base loop. */
  lemma BaseRunSnoc(bs: seq<string>, suffix: string, k: nat)
    requires 1 <= k <= |bs|
    ensures Concat(BaseRun(bs, suffix, k)) ==
              Concat(BaseRun(bs, suffix, k - 1)) + BaseName(bs[k - 1], suffix) + (if k != |bs| then ", " else "")
  {
    var step := ["virtual public ", bs[k - 1], suffix];
    var sep: seq<string> := if k != |bs| then [", "] else [];
    assert Concat(step) == BaseName(bs[k - 1], suffix) by {
      ConcatFirst(step);
      ConcatFirst(step[1..]);
      ConcatOne(suffix);
      assert step[1..][1..] == [suffix];
    }
    assert Concat(sep) == (if k != |bs| then ", " else "") by {
      if k != |bs| { ConcatOne(", "); }
    }
    ConcatAppend(BaseRun(bs, suffix, k - 1), step);
    ConcatAppend(BaseRun(bs, suffix, k - 1) + step, sep);
  }

  lemma {:induction false} BaseRunText(bs: seq<string>, suffix: string, k: nat)
    requires 1 <= k <= |bs|
    ensures Concat(BaseRun(bs, suffix, k)) ==
              Join(BaseNames(bs[..k], suffix), ", ") + (if k != |bs| then ", " else "")
    decreases k
  {
    var init := BaseNames(bs[..k - 1], suffix);
    var last := BaseName(bs[k - 1], suffix);
    assert bs[..k][..k - 1] == bs[..k - 1];
    assert BaseNames(bs[..k], suffix) == init + [last];
    BaseRunSnoc(bs, suffix, k);
    JoinSnoc(init, last, ", ");
    if k > 1 {
      BaseRunText(bs, suffix, k - 1);
    } else {
      assert BaseRun(bs, suffix, 0) == [];
    }
  }

  /** The base list reads `: ` and then the bases, each as
      `virtual public <Base><suffix>`, in order, joined by ", " with no
      leading or trailing separator; an interface without bases gets no ": ". */
  lemma BaseListText(bs: seq<string>, suffix: string)
    ensures Concat(BaseTokens(bs, suffix)) ==
              if bs == [] then "" else ": " + Join(BaseNames(bs, suffix), ", ")
  {
    if bs != [] {
      BaseRunText(bs, suffix, |bs|);
      ConcatCons(": ", BaseRun(bs, suffix, |bs|));
      assert bs[..|bs|] == bs;
    }
  }

  // ---------------------------------------------------------------------
  // Members: functions, signals and properties
  // ---------------------------------------------------------------------

  predicate IsMember(d: Decl)
  {
    d.FnDeclNode? || d.SigDeclNode? || d.PropDeclNode?
  }

  /** An interface body made of functions, signals and properties only. */
  predicate MemberDecls(ds: seq<Decl>)
  {
    forall i :: 0 <= i < |ds| ==> IsMember(ds[i])
  }

  /** The signals and properties among `ds`, in order. */
  function Members(ds: seq<Decl>): (ms: seq<Decl>)
    ensures forall i :: 0 <= i < |ms| ==> ms[i].SigDeclNode? || ms[i].PropDeclNode?
  {
    if ds == [] then []
    else
      var d := ds[|ds| - 1];
      Members(ds[..|ds| - 1]) + (if d.SigDeclNode? || d.PropDeclNode? then [d] else [])
  }

  function MemberKeyword(d: Decl): string
  {
    if d.SigDeclNode? then "qi::Signal< " else "qi::Property< "
  }

  /** The argument types of a signal or property, with const blocked. */
  function MemberParams(h: Helpers, d: Decl): string
    requires d.SigDeclNode? || d.PropDeclNode?
  {
    h.paramsText(d.args, CppParamsFormat_TypeOnly, false)
  }

  // ---------------------------------------------------------------------
  // QiLangGenAsyncIface
  // ---------------------------------------------------------------------

  function AsyncFn(h: Helpers, api: string, level: nat, a: Attrs, d: Decl): seq<string>
    requires d.FnDeclNode?
  {
    [h.indentText(level), Gate(a.apiAttr, api + " "), Gate(a.virtualAttr, "virtual "),
     "qi::Future< ", h.typeText(EffectiveRet(d, h.noValue), a.constAttr), " > ", d.name,
     "(", h.paramsText(d.args, CppParamsFormat_Normal, a.constAttr), ")", Gate(a.virtualAttr, " = 0"), ";", "\n"]
  }

  function AsyncHead(h: Helpers, level: nat, d: Decl): seq<string>
    requires d.InterfaceDeclNode?
  {
    [h.indentText(level), "class ", d.name, "Async"] + BaseTokens(d.inherits, "Async") +
    [" {", "\n", h.indentText(level), "public:", "\n", h.indentText(level), "  virtual ~", d.name, "Async() {}", "\n"]
  }

  function ClassTail(h: Helpers, level: nat): seq<string>
  {
    [h.indentText(level), "};", "\n", "\n"]
  }

  /** What `QiLangGenAsyncIface` writes for one declaration. */
  function AsyncDecl(h: Helpers, api: string, level: nat, a: Attrs, d: Decl): Result<seq<string>, GenError>
    decreases d, 1
  {
    match d
    case InterfaceDeclNode(_, _, _, _) => AsyncInterface(h, api, level, a, d)
    case FnDeclNode(_, _, _) => Ok(AsyncFn(h, api, level, a, d))
    case SigDeclNode(_, _) => Ok([])
    case PropDeclNode(_, _) => Ok([])
    case ParamFieldDeclNode(_) => Ok([])
    case _ => Err(NotModelled(DeclType(d)))
  }

  /** The `<Name>Async` class of an interface. */
  function AsyncInterface(h: Helpers, api: string, level: nat, a: Attrs, d: Decl): Result<seq<string>, GenError>
    requires d.InterfaceDeclNode?
    decreases d, 0
  {
    match AsyncDecls(h, api, level + 1, InterfaceAttrs(a), d.values)
    case Err(e) => Err(e)
    case Ok(body) => Ok(AsyncHead(h, level, d) + body + ClassTail(h, level))
  }

  function AsyncDecls(h: Helpers, api: string, level: nat, a: Attrs, ds: seq<Decl>): Result<seq<string>, GenError>
    decreases ds
  {
    if ds == [] then Ok([])
    else match AsyncDecls(h, api, level, a, ds[..|ds| - 1])
      case Err(e) => Err(e)
      case Ok(o) =>
        (match AsyncDecl(h, api, level, a, ds[|ds| - 1])
         case Err(e) => Err(e)
         case Ok(o2) => Ok(o + o2))
  }

  // ---------------------------------------------------------------------
  // QiLangGenIfaceSigPropParam
  // ---------------------------------------------------------------------

  /** One visit of the parameter-list visitor: the tokens and the new
      value of its `first` flag. */
  function SigPropParam(h: Helpers, first: bool, d: Decl): Result<(seq<string>, bool), GenError>
  {
    match d
    case FnDeclNode(_, _, _) => Ok(([], first))
    case SigDeclNode(name, _) =>
      Ok(((if first then [] else [", "]) + [MemberKeyword(d), MemberParams(h, d), " >& ", name], false))
    case PropDeclNode(name, _) =>
      Ok(((if first then [] else [", "]) + [MemberKeyword(d), MemberParams(h, d), " >& ", name], false))
    case _ => Err(NotModelled(DeclType(d)))
  }

  function SigPropParams(h: Helpers, first: bool, ds: seq<Decl>): Result<(seq<string>, bool), GenError>
  {
    if ds == [] then Ok(([], first))
    else match SigPropParams(h, first, ds[..|ds| - 1])
      case Err(e) => Err(e)
      case Ok(r) =>
        (match SigPropParam(h, r.1, ds[|ds| - 1])
         case Err(e) => Err(e)
         case Ok(r2) => Ok((r.0 + r2.0, r2.1)))
  }

  /** One constructor parameter: `qi::Signal< T1, T2 >& name`. */
  function ParamEntry(h: Helpers, d: Decl): string
    requires d.SigDeclNode? || d.PropDeclNode?
  {
    MemberKeyword(d) + MemberParams(h, d) + " >& " + d.name
  }

  function ParamEntries(h: Helpers, ms: seq<Decl>): (r: seq<string>)
    requires forall i :: 0 <= i < |ms| ==> ms[i].SigDeclNode? || ms[i].PropDeclNode?
    ensures |r| == |ms|
  {
    if ms == [] then [] else ParamEntries(h, ms[..|ms| - 1]) + [ParamEntry(h, ms[|ms| - 1])]
  }

  lemma ParamEntryText(h: Helpers, d: Decl)
    requires d.SigDeclNode? || d.PropDeclNode?
    ensures Concat([MemberKeyword(d), MemberParams(h, d), " >& ", d.name]) == ParamEntry(h, d)
  {
    var step := [MemberKeyword(d), MemberParams(h, d), " >& ", d.name];
    ConcatFirst(step);
    ConcatFirst(step[1..]);
    ConcatFirst(step[2..]);
    assert step[2..][1..] == [d.name];
    ConcatOne(d.name);
  }

  lemma ParamEntryTokens(h: Helpers, first: bool, d: Decl)
    requires d.SigDeclNode? || d.PropDeclNode?
    ensures SigPropParam(h, first, d).Ok?
    ensures Concat(SigPropParam(h, first, d).value.0) == (if first then "" else ", ") + ParamEntry(h, d)
    ensures !SigPropParam(h, first, d).value.1
  {
    var step := [MemberKeyword(d), MemberParams(h, d), " >& ", d.name];
    ParamEntryText(h, d);
    if first {
      assert SigPropParam(h, first, d).value.0 == step;
    } else {
      assert SigPropParam(h, first, d).value.0 == [", "] + step;
      ConcatCons(", ", step);
    }
  }

  lemma MembersSnoc(init: seq<Decl>, d: Decl)
    ensures Members(init + [d]) == Members(init) + (if d.SigDeclNode? || d.PropDeclNode? then [d] else [])
  {
    var ds := init + [d];
    assert ds[..|ds| - 1] == init;
  }

  lemma ParamEntriesSnoc(h: Helpers, ms: seq<Decl>, m: Decl)
    requires forall i :: 0 <= i < |ms| ==> ms[i].SigDeclNode? || ms[i].PropDeclNode?
    requires m.SigDeclNode? || m.PropDeclNode?
    ensures ParamEntries(h, ms + [m]) == ParamEntries(h, ms) + [ParamEntry(h, m)]
  {
    assert (ms + [m])[..|ms|] == ms;
  }

  lemma SigPropParamsSnoc(h: Helpers, init: seq<Decl>, d: Decl, r: (seq<string>, bool))
    requires SigPropParams(h, true, init) == Ok(r)
    requires SigPropParam(h, r.1, d).Ok?
    ensures SigPropParams(h, true, init + [d]) ==
              Ok((r.0 + SigPropParam(h, r.1, d).value.0, SigPropParam(h, r.1, d).value.1))
  {
    var ds := init + [d];
    assert ds[..|ds| - 1] == init;
  }

  lemma ParamListStep(h: Helpers, init: seq<Decl>, d: Decl, r: (seq<string>, bool))
    requires d.SigDeclNode? || d.PropDeclNode?
    requires SigPropParams(h, true, init) == Ok(r)
    requires Concat(r.0) == Join(ParamEntries(h, Members(init)), ", ")
    requires r.1 == (Members(init) == [])
    ensures SigPropParams(h, true, init + [d]).Ok?
    ensures Concat(SigPropParams(h, true, init + [d]).value.0) == Join(ParamEntries(h, Members(init + [d])), ", ")
    ensures !SigPropParams(h, true, init + [d]).value.1
  {
    var es := ParamEntries(h, Members(init));
    var tokens := SigPropParam(h, r.1, d).value.0;
    ParamEntryTokens(h, r.1, d);
    SigPropParamsSnoc(h, init, d, r);
    ConcatAppend(r.0, tokens);
    MembersSnoc(init, d);
    ParamEntriesSnoc(h, Members(init), d);
    assert r.1 == (es == []);
    JoinAppend(es, ParamEntry(h, d), ", ");
  }

  lemma MemberDeclsInit(ds: seq<Decl>)
    requires ds != [] && MemberDecls(ds)
    ensures MemberDecls(ds[..|ds| - 1]) && IsMember(ds[|ds| - 1])
    ensures ds == ds[..|ds| - 1] + [ds[|ds| - 1]]
  {
    var init := ds[..|ds| - 1];
    forall i | 0 <= i < |init| ensures IsMember(init[i]) { assert init[i] == ds[i]; }
  }

  /** A function leaves the parameter list and the flag as they were. */
  lemma ParamListSkip(h: Helpers, init: seq<Decl>, d: Decl, r: (seq<string>, bool))
    requires d.FnDeclNode?
    requires SigPropParams(h, true, init) == Ok(r)
    ensures SigPropParams(h, true, init + [d]) == Ok(r)
    ensures Members(init + [d]) == Members(init)
  {
    assert SigPropParam(h, r.1, d) == Ok(([], r.1));
    SigPropParamsSnoc(h, init, d, r);
    assert r.0 + [] == r.0;
    MembersSnoc(init, d);
  }

  /** The constructor's parameter list has one entry per signal or
      property, in order, joined by ", " with none before the first;
      functions contribute nothing. The `first` flag ends up cleared
      exactly when some entry was written. */
  lemma {:induction false} ParamListJoinsMembers(h: Helpers, ds: seq<Decl>)
    requires MemberDecls(ds)
    ensures SigPropParams(h, true, ds).Ok?
    ensures Concat(SigPropParams(h, true, ds).value.0) == Join(ParamEntries(h, Members(ds)), ", ")
    ensures SigPropParams(h, true, ds).value.1 == (Members(ds) == [])
    decreases |ds|
  {
    if ds != [] {
      var init, d := ds[..|ds| - 1], ds[|ds| - 1];
      MemberDeclsInit(ds);
      ParamListJoinsMembers(h, init);
      var r := SigPropParams(h, true, init).value;
      if d.SigDeclNode? || d.PropDeclNode? {
        ParamListStep(h, init, d, r);
      } else {
        ParamListSkip(h, init, d, r);
      }
    }
  }

  // ---------------------------------------------------------------------
  // QiLangGenIfaceSigPropParamInit
  // ---------------------------------------------------------------------

  /** One visit of the initializer-list visitor. A signal after the first
      entry is indented; a property after the first entry is not. */
  function SigPropInit(h: Helpers, level: nat, first: bool, d: Decl): Result<(seq<string>, bool), GenError>
  {
    match d
    case FnDeclNode(_, _, _) => Ok(([], first))
    case ParamFieldDeclNode(_) => Ok(([], first))
    case SigDeclNode(name, _) =>
      Ok(((if first then [h.indentText(level), ": "] else [h.indentText(level), ", "]) + [name, "(", name, ")", "\n"], false))
    case PropDeclNode(name, _) =>
      Ok(((if first then [h.indentText(level), ": "] else [", "]) + [name, "(", name, ")", "\n"], false))
    case _ => Err(NotModelled(DeclType(d)))
  }

  function SigPropInits(h: Helpers, level: nat, first: bool, ds: seq<Decl>): Result<(seq<string>, bool), GenError>
  {
    if ds == [] then Ok(([], first))
    else match SigPropInits(h, level, first, ds[..|ds| - 1])
      case Err(e) => Err(e)
      case Ok(r) =>
        (match SigPropInit(h, level, r.1, ds[|ds| - 1])
         case Err(e) => Err(e)
         case Ok(r2) => Ok((r.0 + r2.0, r2.1)))
  }

  /** The initializer of the `k`-th signal or property: `name(name)` on a
      line, after ": " for the first and ", " for the others. */
  function InitLine(h: Helpers, level: nat, m: Decl, k: nat): seq<string>
    requires m.SigDeclNode? || m.PropDeclNode?
  {
    (if k == 0 then [h.indentText(level), ": "]
     else if m.SigDeclNode? then [h.indentText(level), ", "]
     else [", "]) + [m.name, "(", m.name, ")", "\n"]
  }

  function InitLines(h: Helpers, level: nat, ms: seq<Decl>): seq<string>
    requires forall i :: 0 <= i < |ms| ==> ms[i].SigDeclNode? || ms[i].PropDeclNode?
  {
    if ms == [] then [] else InitLines(h, level, ms[..|ms| - 1]) + InitLine(h, level, ms[|ms| - 1], |ms| - 1)
  }

  /** The initializer list initializes the same members as the parameter
      list, in the same order, one line each; ": " opens it and functions
      contribute nothing. */
  lemma {:induction false} InitListFollowsMembers(h: Helpers, level: nat, ds: seq<Decl>)
    requires MemberDecls(ds)
    ensures SigPropInits(h, level, true, ds) == Ok((InitLines(h, level, Members(ds)), Members(ds) == []))
    decreases |ds|
  {
    if ds != [] {
      var init, d := ds[..|ds| - 1], ds[|ds| - 1];
      MemberDeclsInit(ds);
      InitListFollowsMembers(h, level, init);
      if d.SigDeclNode? || d.PropDeclNode? {
        var ms := Members(ds);
        assert ms == Members(init) + [d];
        assert ms[..|ms| - 1] == Members(init);
      } else {
        var r := SigPropInits(h, level, true, init).value;
        assert SigPropInit(h, level, r.1, d) == Ok(([], r.1));
        assert SigPropInits(h, level, true, ds) == Ok((r.0 + [], r.1));
        assert Members(ds) == Members(init) + [];
        assert Members(ds) == Members(init);
        assert r.0 + [] == r.0;
      }
    }
  }

  // ---------------------------------------------------------------------
  // QiLangGenIface
  // ---------------------------------------------------------------------

  function SyncFn(h: Helpers, api: string, level: nat, a: Attrs, d: Decl): seq<string>
    requires d.FnDeclNode?
  {
    [h.indentText(level), Gate(a.apiAttr, api + " "), Gate(a.virtualAttr, "virtual "),
     h.typeText(EffectiveRet(d, h.noValue), a.constAttr), " ", d.name,
     "(", h.paramsText(d.args, CppParamsFormat_Normal, a.constAttr), ")", Gate(a.virtualAttr, " = 0"), ";", "\n"]
  }

  /** A signal or property: the member, then `_<name>()` returning it. */
  function SyncMember(h: Helpers, level: nat, d: Decl): seq<string>
    requires d.SigDeclNode? || d.PropDeclNode?
  {
    [h.indentText(level), MemberKeyword(d), MemberParams(h, d), " >& ", d.name, ";", "\n",
     h.indentText(level), MemberKeyword(d), MemberParams(h, d), " >& _", d.name, "() {", "\n",
     h.indentText(level + 1), "return ", d.name, ";", "\n",
     h.indentText(level), "}", "\n"]
  }

  function SyncHead(h: Helpers, level: nat, d: Decl): seq<string>
    requires d.InterfaceDeclNode?
  {
    [h.indentText(level), "class ", d.name] + BaseTokens(d.inherits, "") +
    [" {", "\n", h.indentText(level), "public:", "\n"]
  }

  /** The constructor and the two virtual members the class always has. */
  function SyncCtor(h: Helpers, level: nat, d: Decl, params: seq<string>, inits: seq<string>): seq<string>
    requires d.InterfaceDeclNode?
  {
    [h.indentText(level + 1), d.name, "("] + params + [")", "\n"] + inits +
    [h.indentText(level + 1), "{}", "\n",
     h.indentText(level + 1), "virtual ~", d.name, "() {}", "\n",
     h.indentText(level + 1), "virtual ", d.name, "Async& async() = 0;", "\n"]
  }

  function SyncTail(h: Helpers, level: nat, d: Decl): seq<string>
    requires d.InterfaceDeclNode?
  {
    [h.indentText(level), "};", "\n", "\n",
     h.indentText(level), "typedef qi::Object<", d.name, "> ", d.name, "Ptr;", "\n"]
  }

  /** What `QiLangGenIface` writes for one declaration. */
  function SyncDecl(h: Helpers, api: string, level: nat, a: Attrs, d: Decl): Result<seq<string>, GenError>
    decreases d, 1
  {
    match d
    case InterfaceDeclNode(_, _, _, _) => SyncClass(h, api, level, InterfaceAttrs(a), d)
    case FnDeclNode(_, _, _) => Ok(SyncFn(h, api, level, a, d))
    case SigDeclNode(_, _) => Ok(SyncMember(h, level, d))
    case PropDeclNode(_, _) => Ok(SyncMember(h, level, d))
    case ParamFieldDeclNode(_) => Ok([])
    case _ => Err(NotModelled(DeclType(d)))
  }

  /** The constructor: the parameter list first, then the initializer
      list, either of which can fail. */
  function SyncCtorOf(h: Helpers, level: nat, d: Decl): Result<seq<string>, GenError>
    requires d.InterfaceDeclNode?
  {
    match SigPropParams(h, true, d.values)
    case Err(e) => Err(e)
    case Ok(params) =>
      (match SigPropInits(h, level + 2, true, d.values)
       case Err(e) => Err(e)
       case Ok(inits) => Ok(SyncCtor(h, level, d, params.0, inits.0)))
  }

  /** The `<Name>` class of an interface whose members are written with
      the attributes `inner`. */
  function SyncClass(h: Helpers, api: string, level: nat, inner: Attrs, d: Decl): Result<seq<string>, GenError>
    requires d.InterfaceDeclNode?
    decreases d, 0
  {
    match SyncCtorOf(h, level, d)
    case Err(e) => Err(e)
    case Ok(ctor) =>
      (match SyncDecls(h, api, level + 1, inner, d.values)
       case Err(e) => Err(e)
       case Ok(body) => Ok(SyncHead(h, level, d) + ctor + body + SyncTail(h, level, d)))
  }

  function SyncDecls(h: Helpers, api: string, level: nat, a: Attrs, ds: seq<Decl>): Result<seq<string>, GenError>
    decreases ds
  {
    if ds == [] then Ok([])
    else match SyncDecls(h, api, level, a, ds[..|ds| - 1])
      case Err(e) => Err(e)
      case Ok(o) =>
        (match SyncDecl(h, api, level, a, ds[|ds| - 1])
         case Err(e) => Err(e)
         case Ok(o2) => Ok(o + o2))
  }

  // ---------------------------------------------------------------------
  // How the two interface classes relate
  // ---------------------------------------------------------------------

  /** The async form of a function is the sync form with its return type
      wrapped in `qi::Future< ... >`; "virtual " and " = 0" are written
      exactly when the virtual attribute is active, and the export macro
      exactly when the api attribute is. */
  lemma AsyncWrapsSyncReturnType(h: Helpers, api: string, level: nat, a: Attrs, d: Decl)
    requires d.FnDeclNode?
    ensures var s := SyncFn(h, api, level, a, d);
      AsyncFn(h, api, level, a, d) == s[..3] + ["qi::Future< ", s[3], " > "] + s[5..]
    ensures var s := SyncFn(h, api, level, a, d);
      && s[3] == h.typeText(EffectiveRet(d, h.noValue), a.constAttr)
      && (s[2] == "virtual " <==> a.virtualAttr) && (s[9] == " = 0" <==> a.virtualAttr)
      && (a.apiAttr <==> s[1] == api + " ")
  {
    var s := SyncFn(h, api, level, a, d);
    assert s[5..] == [d.name, "(", h.paramsText(d.args, CppParamsFormat_Normal, a.constAttr), ")",
                      Gate(a.virtualAttr, " = 0"), ";", "\n"];
  }

  /** The async class leaves signals and properties out; the sync class
      writes the member block for them. */
  lemma MembersOnlyInSyncClass(h: Helpers, api: string, level: nat, a: Attrs, d: Decl)
    requires d.SigDeclNode? || d.PropDeclNode?
    ensures AsyncDecl(h, api, level, a, d) == Ok([])
    ensures SyncDecl(h, api, level, a, d) == Ok(SyncMember(h, level, d))
  {
  }

  /** The sync member block declares the signal or property
      (`qi::Signal< T... >& name;`) and an accessor `_<name>()` whose body
      returns it. */
  lemma SyncMemberHasAccessor(h: Helpers, level: nat, d: Decl)
    requires d.SigDeclNode? || d.PropDeclNode?
    ensures var s := SyncMember(h, level, d);
      && |s| == 22
      && s[1] == MemberKeyword(d) && s[2] == MemberParams(h, d)
      && s[3] == " >& " && s[4] == d.name && s[5] == ";"
      && s[8] == MemberKeyword(d) && s[9] == MemberParams(h, d)
      && s[10] == " >& _" && s[11] == d.name && s[12] == "() {"
      && s[15] == "return " && s[16] == d.name
  {
  }

  /** Both classes are named after the interface, the async one with the
      `Async` suffix on its own name and on every base. */
  lemma ClassHeadersNameTheInterface(h: Helpers, level: nat, d: Decl)
    requires d.InterfaceDeclNode?
    ensures AsyncHead(h, level, d)[..4] == [h.indentText(level), "class ", d.name, "Async"]
    ensures SyncHead(h, level, d)[..3] == [h.indentText(level), "class ", d.name]
  {
  }

  /** The sync class opens with its constructor, whose last line declares
      the `async()` accessor, and ends with the `<Name>Ptr` typedef. */
  lemma SyncClassShape(h: Helpers, api: string, level: nat, inner: Attrs, d: Decl)
    requires d.InterfaceDeclNode? && SyncClass(h, api, level, inner, d).Ok?
    ensures SyncCtorOf(h, level, d).Ok?
    ensures var c := SyncCtorOf(h, level, d).value;
            |c| >= 5 && c[..3] == [h.indentText(level + 1), d.name, "("] &&
            c[|c| - 5..] == [h.indentText(level + 1), "virtual ", d.name, "Async& async() = 0;", "\n"]
    ensures var r := SyncClass(h, api, level, inner, d).value;
            |r| >= 7 && r[..3] == [h.indentText(level), "class ", d.name] &&
            r[|r| - 7..] == [h.indentText(level), "typedef qi::Object<", d.name, "> ", d.name, "Ptr;", "\n"]
  {
    var p := SigPropParams(h, true, d.values).value.0;
    var q := SigPropInits(h, level + 2, true, d.values).value.0;
    var c := SyncCtor(h, level, d, p, q);
    assert SyncCtorOf(h, level, d) == Ok(c);
    var body := SyncDecls(h, api, level + 1, inner, d.values).value;
    var r := SyncHead(h, level, d) + c + body + SyncTail(h, level, d);
    assert SyncClass(h, api, level, inner, d) == Ok(r);
    assert r[..3] == SyncHead(h, level, d)[..3];
  }

  // ---------------------------------------------------------------------
  // A walk stops at its first error
  // ---------------------------------------------------------------------

  /** One more declaration extends the walk by what its visit writes. */
  lemma AsyncDeclsOne(h: Helpers, api: string, level: nat, a: Attrs, d: Decl)
    ensures AsyncDecls(h, api, level, a, [d]) == AsyncDecl(h, api, level, a, d)
  {
    assert [d][..0] == [];
    match AsyncDecl(h, api, level, a, d)
    case Err(_) =>
    case Ok(t) => assert [] + t == t;
  }

  lemma AsyncDeclsStep(h: Helpers, api: string, level: nat, a: Attrs, ds: seq<Decl>, i: nat)
    requires i < |ds| && AsyncDecls(h, api, level, a, ds[..i]).Ok?
    ensures AsyncDecls(h, api, level, a, ds[..i + 1]) ==
              match AsyncDecls(h, api, level, a, [ds[i]])
              case Err(e) => Err(e)
              case Ok(t) => Ok(AsyncDecls(h, api, level, a, ds[..i]).value + t)
  {
    assert ds[..i + 1][..i] == ds[..i];
    AsyncDeclsOne(h, api, level, a, ds[i]);
  }

  lemma {:induction false} AsyncDeclsStopAtError(h: Helpers, api: string, level: nat, a: Attrs, ds: seq<Decl>, k: nat)
    requires k <= |ds| && AsyncDecls(h, api, level, a, ds[..k]).Err?
    ensures AsyncDecls(h, api, level, a, ds) == AsyncDecls(h, api, level, a, ds[..k])
    decreases |ds| - k
  {
    if k < |ds| {
      assert ds[..k + 1][..k] == ds[..k];
      AsyncDeclsStopAtError(h, api, level, a, ds, k + 1);
    } else {
      assert ds[..k] == ds;
    }
  }

  lemma SyncDeclsOne(h: Helpers, api: string, level: nat, a: Attrs, d: Decl)
    ensures SyncDecls(h, api, level, a, [d]) == SyncDecl(h, api, level, a, d)
  {
    assert [d][..0] == [];
    match SyncDecl(h, api, level, a, d)
    case Err(_) =>
    case Ok(t) => assert [] + t == t;
  }

  lemma SyncDeclsStep(h: Helpers, api: string, level: nat, a: Attrs, ds: seq<Decl>, i: nat)
    requires i < |ds| && SyncDecls(h, api, level, a, ds[..i]).Ok?
    ensures SyncDecls(h, api, level, a, ds[..i + 1]) ==
              match SyncDecls(h, api, level, a, [ds[i]])
              case Err(e) => Err(e)
              case Ok(t) => Ok(SyncDecls(h, api, level, a, ds[..i]).value + t)
  {
    assert ds[..i + 1][..i] == ds[..i];
    SyncDeclsOne(h, api, level, a, ds[i]);
  }

  lemma {:induction false} SyncDeclsStopAtError(h: Helpers, api: string, level: nat, a: Attrs, ds: seq<Decl>, k: nat)
    requires k <= |ds| && SyncDecls(h, api, level, a, ds[..k]).Err?
    ensures SyncDecls(h, api, level, a, ds) == SyncDecls(h, api, level, a, ds[..k])
    decreases |ds| - k
  {
    if k < |ds| {
      assert ds[..k + 1][..k] == ds[..k];
      SyncDeclsStopAtError(h, api, level, a, ds, k + 1);
    } else {
      assert ds[..k] == ds;
    }
  }

  lemma {:induction false} SigPropParamsStopAtError(h: Helpers, first: bool, ds: seq<Decl>, k: nat)
    requires k <= |ds| && SigPropParams(h, first, ds[..k]).Err?
    ensures SigPropParams(h, first, ds) == SigPropParams(h, first, ds[..k])
    decreases |ds| - k
  {
    if k < |ds| {
      assert ds[..k + 1][..k] == ds[..k];
      SigPropParamsStopAtError(h, first, ds, k + 1);
    } else {
      assert ds[..k] == ds;
    }
  }

  lemma SigPropInitsStep(h: Helpers, level: nat, first: bool, ds: seq<Decl>, i: nat)
    requires i < |ds| && SigPropInits(h, level, first, ds[..i]).Ok?
    ensures var r := SigPropInits(h, level, first, ds[..i]).value;
            SigPropInits(h, level, first, ds[..i + 1]) ==
              match SigPropInit(h, level, r.1, ds[i])
              case Err(e) => Err(e)
              case Ok(t) => Ok((r.0 + t.0, t.1))
  {
    assert ds[..i + 1][..i] == ds[..i];
  }

  lemma {:induction false} SigPropInitsStopAtError(h: Helpers, level: nat, first: bool, ds: seq<Decl>, k: nat)
    requires k <= |ds| && SigPropInits(h, level, first, ds[..k]).Err?
    ensures SigPropInits(h, level, first, ds) == SigPropInits(h, level, first, ds[..k])
    decreases |ds| - k
  {
    if k < |ds| {
      assert ds[..k + 1][..k] == ds[..k];
      SigPropInitsStopAtError(h, level, first, ds, k + 1);
    } else {
      assert ds[..k] == ds;
    }
  }

  // ---------------------------------------------------------------------
  // The visitor classes
  // ---------------------------------------------------------------------

  /** `QiLangGenAsyncIface`. */
  class AsyncIfaceGen {
    const h: Helpers
    const apiExport: string
    var out: seq<string>
    var level: nat
    var virtualAttr: bool
    var apiAttr: bool
    var constAttr: bool

    function Attributes(): Attrs
      reads this
    {
      Attrs(virtualAttr, apiAttr, constAttr)
    }

    constructor (h: Helpers, apiExport: string)
      ensures this.h == h && this.apiExport == apiExport
      ensures out == [] && level == 0 && Attributes() == FreshAttrs
    {
      this.h := h;
      this.apiExport := apiExport;
      out := [];
      level := 0;
      virtualAttr, apiAttr, constAttr := false, false, false;
    }

    method VisitDecl(d: Decl) returns (st: Status)
      modifies this
      decreases d, 2
      ensures level == old(level) && Attributes() == old(Attributes())
      ensures st == StatusOf(AsyncDecls(h, apiExport, old(level), old(Attributes()), [d]))
      ensures st.Done? ==> out == old(out) + AsyncDecls(h, apiExport, old(level), old(Attributes()), [d]).value
    {
      AsyncDeclsOne(h, apiExport, level, Attributes(), d);
      match d
      case InterfaceDeclNode(_, _, _, _) =>
        st := VisitInterface(d);
      case FnDeclNode(name, args, _) =>
        out := out + [h.indentText(level), Gate(apiAttr, apiExport + " "), Gate(virtualAttr, "virtual "),
                      "qi::Future< ", h.typeText(EffectiveRet(d, h.noValue), constAttr), " > ", name,
                      "(", h.paramsText(args, CppParamsFormat_Normal, constAttr), ")",
                      Gate(virtualAttr, " = 0"), ";", "\n"];
        st := Done;
      case SigDeclNode(_, _) =>
        st := Done;
      case PropDeclNode(_, _) =>
        st := Done;
      case ParamFieldDeclNode(_) =>
        st := Done;
      case _ =>
        st := Failed(NotModelled(DeclType(d)));
    }

    /** The `<Name>Async` class: virtual on and the export macro blocked
        for its members, restored afterwards. */
    method VisitInterface(d: Decl) returns (st: Status)
      requires d.InterfaceDeclNode?
      modifies this
      decreases d, 1
      ensures level == old(level) && Attributes() == old(Attributes())
      ensures st == StatusOf(AsyncInterface(h, apiExport, old(level), old(Attributes()), d))
      ensures st.Done? ==> out == old(out) + AsyncInterface(h, apiExport, old(level), old(Attributes()), d).value
    {
      var savedVirtual, savedApi := virtualAttr, apiAttr;
      virtualAttr, apiAttr := true, false;
      WriteHead(d);
      st := Scoped(d.values);
      virtualAttr, apiAttr := savedVirtual, savedApi;
      if st.Done? {
        ghost var body := AsyncDecls(h, apiExport, level + 1, InterfaceAttrs(Attributes()), d.values).value;
        out := out + [h.indentText(level), "};", "\n", "\n"];
        AppendThree(old(out), AsyncHead(h, level, d), body, ClassTail(h, level));
      }
    }

    /** The class line, the base list, `public:` and the destructor. */
    method WriteHead(d: Decl)
      requires d.InterfaceDeclNode?
      modifies this
      ensures level == old(level) && Attributes() == old(Attributes())
      ensures out == old(out) + AsyncHead(h, level, d)
    {
      var bases := WriteBaseList(d.inherits, "Async");
      out := out + ([h.indentText(level), "class ", d.name, "Async"] + bases +
                    [" {", "\n", h.indentText(level), "public:", "\n",
                     h.indentText(level), "  virtual ~", d.name, "Async() {}", "\n"]);
    }

    /** `scoped(values)`: the members one level deeper. */
    method Scoped(values: seq<Decl>) returns (st: Status)
      modifies this
      decreases values, 1
      ensures level == old(level) && Attributes() == old(Attributes())
      ensures st == StatusOf(AsyncDecls(h, apiExport, old(level) + 1, old(Attributes()), values))
      ensures st.Done? ==> out == old(out) + AsyncDecls(h, apiExport, old(level) + 1, old(Attributes()), values).value
    {
      level := level + 1;
      st := Walk(values);
      level := level - 1;
    }

    /** The members of an interface, in order, at the current level. */
    method Walk(values: seq<Decl>) returns (st: Status)
      modifies this
      decreases values, 0
      ensures level == old(level) && Attributes() == old(Attributes())
      ensures st == StatusOf(AsyncDecls(h, apiExport, old(level), old(Attributes()), values))
      ensures st.Done? ==> out == old(out) + AsyncDecls(h, apiExport, old(level), old(Attributes()), values).value
    {
      var i := 0;
      while i < |values|
        invariant 0 <= i <= |values|
        invariant level == old(level) && Attributes() == old(Attributes())
        invariant AsyncDecls(h, apiExport, level, Attributes(), values[..i]).Ok?
        invariant out == old(out) + AsyncDecls(h, apiExport, level, Attributes(), values[..i]).value
      {
        AsyncDeclsStep(h, apiExport, level, Attributes(), values, i);
        st := VisitDecl(values[i]);
        if st.Failed? {
          AsyncDeclsStopAtError(h, apiExport, level, Attributes(), values, i + 1);
          return;
        }
        i := i + 1;
      }
      assert values[..|values|] == values;
      st := Done;
    }
  }

  /** `QiLangGenIfaceSigPropParam`. */
  class SigPropParamGen {
    const h: Helpers
    var out: seq<string>
    var first: bool
    var constAttr: bool

    constructor (h: Helpers)
      ensures this.h == h && out == [] && first && !constAttr
    {
      this.h := h;
      out := [];
      first := true;
      constAttr := false;
    }

    method Accept(d: Decl) returns (st: Status)
      modifies this
      ensures constAttr == old(constAttr)
      ensures st == StatusOf(SigPropParam(h, old(first), d))
      ensures st.Done? ==> out == old(out) + SigPropParam(h, old(first), d).value.0
      ensures st.Done? ==> first == SigPropParam(h, old(first), d).value.1
    {
      match d
      case FnDeclNode(_, _, _) =>
        st := Done;
      case SigDeclNode(name, args) =>
        if first {
          first := false;
        } else {
          out := out + [", "];
        }
        var saved := constAttr;
        constAttr := false;
        out := out + ["qi::Signal< ", h.paramsText(args, CppParamsFormat_TypeOnly, constAttr), " >& ", name];
        constAttr := saved;
        st := Done;
      case PropDeclNode(name, args) =>
        if first {
          first := false;
        } else {
          out := out + [", "];
        }
        var saved := constAttr;
        constAttr := false;
        out := out + ["qi::Property< ", h.paramsText(args, CppParamsFormat_TypeOnly, constAttr), " >& ", name];
        constAttr := saved;
        st := Done;
      case _ =>
        st := Failed(NotModelled(DeclType(d)));
    }
  }

  /** `QiLangGenIfaceSigPropParamInit`. */
  class SigPropParamInitGen {
    const h: Helpers
    var out: seq<string>
    var first: bool
    var level: nat

    constructor (h: Helpers, level: nat)
      ensures this.h == h && out == [] && first && this.level == level
    {
      this.h := h;
      out := [];
      first := true;
      this.level := level;
    }

    method VisitDecl(d: Decl) returns (st: Status)
      modifies this
      ensures level == old(level)
      ensures st == StatusOf(SigPropInit(h, level, old(first), d))
      ensures st.Done? ==> out == old(out) + SigPropInit(h, level, old(first), d).value.0
      ensures st.Done? ==> first == SigPropInit(h, level, old(first), d).value.1
    {
      match d
      case FnDeclNode(_, _, _) =>
        st := Done;
      case ParamFieldDeclNode(_) =>
        st := Done;
      case SigDeclNode(name, _) =>
        if first {
          first := false;
          out := out + [h.indentText(level), ": "];
        } else {
          out := out + [h.indentText(level), ", "];
        }
        out := out + [name, "(", name, ")", "\n"];
        st := Done;
      case PropDeclNode(name, _) =>
        if first {
          first := false;
          out := out + [h.indentText(level), ": "];
        } else {
          out := out + [", "];
        }
        out := out + [name, "(", name, ")", "\n"];
        st := Done;
      case _ =>
        st := Failed(NotModelled(DeclType(d)));
    }

    /** `scoped(values)` on this visitor: one level deeper. */
    method Scoped(values: seq<Decl>) returns (st: Status)
      modifies this
      ensures level == old(level)
      ensures st == StatusOf(SigPropInits(h, old(level) + 1, old(first), values))
      ensures st.Done? ==> out == old(out) + SigPropInits(h, old(level) + 1, old(first), values).value.0
      ensures st.Done? ==> first == SigPropInits(h, old(level) + 1, old(first), values).value.1
    {
      level := level + 1;
      st := Walk(values);
      level := level - 1;
    }

    method Walk(values: seq<Decl>) returns (st: Status)
      modifies this
      ensures level == old(level)
      ensures st == StatusOf(SigPropInits(h, old(level), old(first), values))
      ensures st.Done? ==> out == old(out) + SigPropInits(h, old(level), old(first), values).value.0
      ensures st.Done? ==> first == SigPropInits(h, old(level), old(first), values).value.1
    {
      ghost var first0, lv := first, level;
      var i := 0;
      while i < |values|
        invariant 0 <= i <= |values|
        invariant level == lv
        invariant SigPropInits(h, lv, first0, values[..i]).Ok?
        invariant out == old(out) + SigPropInits(h, lv, first0, values[..i]).value.0
        invariant first == SigPropInits(h, lv, first0, values[..i]).value.1
      {
        SigPropInitsStep(h, lv, first0, values, i);
        ghost var done := out;
        st := VisitDecl(values[i]);
        if st.Failed? {
          SigPropInitsStopAtError(h, lv, first0, values, i + 1);
          return;
        }
        AppendTwo(old(out), SigPropInits(h, lv, first0, values[..i]).value.0, out[|done|..]);
        i := i + 1;
      }
      assert values[..|values|] == values;
      st := Done;
    }
  }

  /** `QiLangGenIface`. */
  class IfaceGen {
    const h: Helpers
    const apiExport: string
    var out: seq<string>
    var level: nat
    var virtualAttr: bool
    var apiAttr: bool
    var constAttr: bool

    function Attributes(): Attrs
      reads this
    {
      Attrs(virtualAttr, apiAttr, constAttr)
    }

    constructor (h: Helpers, apiExport: string)
      ensures this.h == h && this.apiExport == apiExport
      ensures out == [] && level == 0 && Attributes() == FreshAttrs
    {
      this.h := h;
      this.apiExport := apiExport;
      out := [];
      level := 0;
      virtualAttr, apiAttr, constAttr := false, false, false;
    }

    /** One declaration, stated as the walk of the one-element list. */
    method VisitDecl(d: Decl) returns (st: Status)
      modifies this
      decreases d, 2
      ensures level == old(level) && Attributes() == old(Attributes())
      ensures st == StatusOf(SyncDecls(h, apiExport, old(level), old(Attributes()), [d]))
      ensures st.Done? ==> out == old(out) + SyncDecls(h, apiExport, old(level), old(Attributes()), [d]).value
    {
      SyncDeclsOne(h, apiExport, level, Attributes(), d);
      match d
      case InterfaceDeclNode(_, _, _, _) =>
        st := VisitInterface(d);
      case FnDeclNode(name, args, _) =>
        out := out + [h.indentText(level), Gate(apiAttr, apiExport + " "), Gate(virtualAttr, "virtual "),
                      h.typeText(EffectiveRet(d, h.noValue), constAttr), " ", name,
                      "(", h.paramsText(args, CppParamsFormat_Normal, constAttr), ")",
                      Gate(virtualAttr, " = 0"), ";", "\n"];
        st := Done;
      case SigDeclNode(_, _) =>
        VisitMember(d);
        st := Done;
      case PropDeclNode(_, _) =>
        VisitMember(d);
        st := Done;
      case ParamFieldDeclNode(_) =>
        st := Done;
      case _ =>
        st := Failed(NotModelled(DeclType(d)));
    }

    /** A signal or a property: the member and its accessor, with const
        blocked; the accessor's `return` line is one level deeper. */
    method VisitMember(d: Decl)
      requires d.SigDeclNode? || d.PropDeclNode?
      modifies this
      ensures level == old(level) && Attributes() == old(Attributes())
      ensures out == old(out) + SyncMember(h, level, d)
    {
      var saved := constAttr;
      constAttr := false;
      var kw := if d.SigDeclNode? then "qi::Signal< " else "qi::Property< ";
      var params := h.paramsText(d.args, CppParamsFormat_TypeOnly, constAttr);
      out := out + [h.indentText(level), kw, params, " >& ", d.name, ";", "\n",
                    h.indentText(level), kw, params, " >& _", d.name, "() {", "\n",
                    h.indentText(level + 1), "return ", d.name, ";", "\n",
                    h.indentText(level), "}", "\n"];
      constAttr := saved;
    }

    /** The `<Name>` class: virtual on and the export macro blocked for
        its members, restored afterwards. */
    method VisitInterface(d: Decl) returns (st: Status)
      requires d.InterfaceDeclNode?
      modifies this
      decreases d, 1
      ensures level == old(level) && Attributes() == old(Attributes())
      ensures st == StatusOf(SyncClass(h, apiExport, old(level), InterfaceAttrs(old(Attributes())), d))
      ensures st.Done? ==> out == old(out) + SyncClass(h, apiExport, old(level), InterfaceAttrs(old(Attributes())), d).value
    {
      var savedVirtual, savedApi := virtualAttr, apiAttr;
      virtualAttr, apiAttr := true, false;
      st := WriteClass(d);
      virtualAttr, apiAttr := savedVirtual, savedApi;
    }

    /** The class itself, its members written with the current attributes. */
    method WriteClass(d: Decl) returns (st: Status)
      requires d.InterfaceDeclNode?
      modifies this
      decreases d, 0
      ensures level == old(level) && Attributes() == old(Attributes())
      ensures st == StatusOf(SyncClass(h, apiExport, old(level), old(Attributes()), d))
      ensures st.Done? ==> out == old(out) + SyncClass(h, apiExport, old(level), old(Attributes()), d).value
    {
      WriteHead(d);
      st := WriteCtor(d);
      if st.Failed? {
        return;
      }
      ghost var ctor := SyncCtorOf(h, level, d).value;
      st := Scoped(d.values);
      if st.Done? {
        ghost var body := SyncDecls(h, apiExport, level + 1, Attributes(), d.values).value;
        out := out + [h.indentText(level), "};", "\n", "\n",
                      h.indentText(level), "typedef qi::Object<", d.name, "> ", d.name, "Ptr;", "\n"];
        AppendFour(old(out), SyncHead(h, level, d), ctor, body, SyncTail(h, level, d));
      }
    }

    /** The class line, the base list and `public:`. */
    method WriteHead(d: Decl)
      requires d.InterfaceDeclNode?
      modifies this
      ensures level == old(level) && Attributes() == old(Attributes())
      ensures out == old(out) + SyncHead(h, level, d)
    {
      var bases := WriteBaseList(d.inherits, "");
      out := out + ([h.indentText(level), "class ", d.name] + bases +
                    [" {", "\n", h.indentText(level), "public:", "\n"]);
    }

    /** The constructor, one level deeper: its parameters come from a
        fresh `QiLangGenIfaceSigPropParam` and its initializers from a
        fresh `QiLangGenIfaceSigPropParamInit`. */
    method WriteCtor(d: Decl) returns (st: Status)
      requires d.InterfaceDeclNode?
      modifies this
      ensures level == old(level) && Attributes() == old(Attributes())
      ensures st == StatusOf(SyncCtorOf(h, level, d))
      ensures st.Done? ==> out == old(out) + SyncCtorOf(h, level, d).value
    {
      var params, inits;
      st, params := CtorParams(d.values);
      if st.Failed? {
        return;
      }
      st, inits := CtorInits(d.values);
      if st.Failed? {
        return;
      }
      out := out + ([h.indentText(level + 1), d.name, "("] + params + [")", "\n"] + inits +
                    [h.indentText(level + 1), "{}", "\n",
                     h.indentText(level + 1), "virtual ~", d.name, "() {}", "\n",
                     h.indentText(level + 1), "virtual ", d.name, "Async& async() = 0;", "\n"]);
    }

    /** The initializer list: a `QiLangGenIfaceSigPropParamInit` built at
        the constructor's level walks the members one level deeper. */
    method CtorInits(values: seq<Decl>) returns (st: Status, ts: seq<string>)
      ensures st == StatusOf(SigPropInits(h, level + 2, true, values))
      ensures st.Done? ==> ts == SigPropInits(h, level + 2, true, values).value.0
    {
      var sigpropinit := new SigPropParamInitGen(h, level + 1);
      st := sigpropinit.Scoped(values);
      ts := sigpropinit.out;
    }

    /** The parameter list, written by a fresh `QiLangGenIfaceSigPropParam`
        over every member. */
    method CtorParams(values: seq<Decl>) returns (st: Status, ts: seq<string>)
      ensures st == StatusOf(SigPropParams(h, true, values))
      ensures st.Done? ==> ts == SigPropParams(h, true, values).value.0
    {
      var sigprop := new SigPropParamGen(h);
      var i := 0;
      ts := [];
      while i < |values|
        invariant 0 <= i <= |values|
        invariant sigprop.h == h
        invariant SigPropParams(h, true, values[..i]).Ok?
        invariant sigprop.out == SigPropParams(h, true, values[..i]).value.0
        invariant sigprop.first == SigPropParams(h, true, values[..i]).value.1
      {
        assert values[..i + 1][..i] == values[..i];
        st := sigprop.Accept(values[i]);
        if st.Failed? {
          SigPropParamsStopAtError(h, true, values, i + 1);
          return;
        }
        i := i + 1;
      }
      assert values[..|values|] == values;
      ts := sigprop.out;
      st := Done;
    }

    method Scoped(values: seq<Decl>) returns (st: Status)
      modifies this
      decreases values, 1
      ensures level == old(level) && Attributes() == old(Attributes())
      ensures st == StatusOf(SyncDecls(h, apiExport, old(level) + 1, old(Attributes()), values))
      ensures st.Done? ==> out == old(out) + SyncDecls(h, apiExport, old(level) + 1, old(Attributes()), values).value
    {
      level := level + 1;
      st := Walk(values);
      level := level - 1;
    }

    method Walk(values: seq<Decl>) returns (st: Status)
      modifies this
      decreases values, 0
      ensures level == old(level) && Attributes() == old(Attributes())
      ensures st == StatusOf(SyncDecls(h, apiExport, old(level), old(Attributes()), values))
      ensures st.Done? ==> out == old(out) + SyncDecls(h, apiExport, old(level), old(Attributes()), values).value
    {
      var i := 0;
      while i < |values|
        invariant 0 <= i <= |values|
        invariant level == old(level) && Attributes() == old(Attributes())
        invariant SyncDecls(h, apiExport, level, Attributes(), values[..i]).Ok?
        invariant out == old(out) + SyncDecls(h, apiExport, level, Attributes(), values[..i]).value
      {
        SyncDeclsStep(h, apiExport, level, Attributes(), values, i);
        st := VisitDecl(values[i]);
        if st.Failed? {
          SyncDeclsStopAtError(h, apiExport, level, Attributes(), values, i + 1);
          return;
        }
        i := i + 1;
      }
      assert values[..|values|] == values;
      st := Done;
    }
  }
}
