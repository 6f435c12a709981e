/**
 * The formatting engine the two C++ backends share: the output as a
 * sequence of tokens, format attributes that gate optional tokens, the
 * three ways the backends join a list, decimal numbers, and the helpers
 * whose code lives in headers that are not part of this model (type and
 * literal rendering, `cppParamsFormat`, `splitPkgName`, `formatNs`,
 * `pkgNameToAPI`, the indentation text and the namespace escaper).
 *
 * Every `<<` of the C++ code appends one token; `std::endl` is the token
 * "\n" and `indent()` the token `indentText(level)`.
 */
module Formatting {
  import opened Ast

  /** What a backend throws. `NotModelled` stands for a visit the backend
      inherits from a default visitor whose code is not part of this model:
      the model claims no output for it and stops there. */
  datatype GenError = RuntimeError(what: string) | NotModelled(nodeType: NodeType)

  const Unimplemented := "unimplemented"

  /** The outcome of one visit: done, or the error it threw. */
  datatype Status = Done | Failed(error: GenError)

  function StatusOf<T>(r: Result<T, GenError>): Status
  {
    match r
    case Ok(_) => Done
    case Err(e) => Failed(e)
  }

  /** The two modes of `cppParamsFormat` the backends use. */
  datatype ParamsFormat = CppParamsFormat_Normal | CppParamsFormat_TypeOnly

  /** The helpers whose code is not part of this model, as total functions.
      The `bool` arguments are whether the const attribute is active. */
  datatype Helpers = Helpers(
    indentText: nat -> string,
    typeText: (TypeExpr, bool) -> string,
    dataText: ConstData -> string,
    paramsText: (seq<ParamField>, ParamsFormat, bool) -> string,
    splitPkgName: string -> seq<string>,
    formatNs: string -> string,
    pkgNameToApi: string -> string,
    escapeNs: seq<string> -> string,
    reenterNs: seq<string> -> string,
    noValue: TypeExpr,
    literalType: ConstData -> TypeExpr)

  /** `attr(text)` of a `FormatAttr`: the text while the attribute is
      active, nothing otherwise. */
  function Gate(active: bool, text: string): string
  {
    if active then text else ""
  }

  lemma GateEmitsOnlyWhenActive(active: bool, text: string)
    requires text != ""
    ensures Gate(active, text) == text <==> active
    ensures Gate(active, text) == "" <==> !active
  {
  }

  // ---------------------------------------------------------------------
  // Tokens and text
  // ---------------------------------------------------------------------

  /** The text a token sequence stands for. */
  function Concat(ts: seq<string>): string
  {
    if ts == [] then "" else Concat(ts[..|ts| - 1]) + ts[|ts| - 1]
  }

  /** Appending three pieces one after the other appends their
      concatenation. */
  lemma AppendTwo<T>(o: seq<T>, x: seq<T>, y: seq<T>)
    ensures o + x + y == o + (x + y)
  {
  }

  lemma AppendThree<T>(o: seq<T>, x: seq<T>, y: seq<T>, z: seq<T>)
    ensures o + x + y + z == o + (x + y + z)
  {
  }

  lemma AppendFour<T>(o: seq<T>, w: seq<T>, x: seq<T>, y: seq<T>, z: seq<T>)
    ensures o + w + x + y + z == o + (w + x + y + z)
  {
  }

  lemma {:induction false} ConcatAppend(a: seq<string>, b: seq<string>)
    ensures Concat(a + b) == Concat(a) + Concat(b)
    decreases |b|
  {
    if b == [] {
      assert a + b == a;
    } else {
      var b', x := b[..|b| - 1], b[|b| - 1];
      assert (a + b)[..|a + b| - 1] == a + b' && (a + b)[|a + b| - 1] == x;
      assert Concat(a + b) == Concat(a + b') + x;
      ConcatAppend(a, b');
      AppendTwo(Concat(a), Concat(b'), x);
    }
  }

  lemma ConcatOne(x: string)
    ensures Concat([x]) == x
  {
    assert [x][..0] == [];
  }

  lemma ConcatCons(x: string, ys: seq<string>)
    ensures Concat([x] + ys) == x + Concat(ys)
  {
    ConcatAppend([x], ys);
    ConcatOne(x);
  }

  lemma ConcatFirst(ts: seq<string>)
    requires |ts| > 0
    ensures Concat(ts) == ts[0] + Concat(ts[1..])
  {
    assert ts == [ts[0]] + ts[1..];
    ConcatCons(ts[0], ts[1..]);
  }

  /** `n` copies of a token sequence. */
  function Times(n: nat, ts: seq<string>): (r: seq<string>)
    ensures |r| == n * |ts|
  {
    if n == 0 then [] else Times(n - 1, ts) + ts
  }

  // ---------------------------------------------------------------------
  // Joining lists
  // ---------------------------------------------------------------------

  /** `join(items, sep)`: the items with `sep` between neighbours. */
  function Join(xs: seq<string>, sep: string): string
  {
    if |xs| == 0 then ""
    else if |xs| == 1 then xs[0]
    else Join(xs[..|xs| - 1], sep) + sep + xs[|xs| - 1]
  }

  lemma JoinSnoc(xs: seq<string>, x: string, sep: string)
    ensures Join(xs + [x], sep) == if xs == [] then x else Join(xs, sep) + sep + x
  {
    assert (xs + [x])[..|xs|] == xs;
  }

  /** Writing the separator only when something came before extends the
      joined text by one item. */
  lemma JoinAppend(xs: seq<string>, x: string, sep: string)
    ensures Join(xs, sep) + ((if xs == [] then "" else sep) + x) == Join(xs + [x], sep)
  {
    JoinSnoc(xs, x, sep);
    if xs == [] {
      assert Join(xs, sep) + ("" + x) == x;
    } else {
      assert Join(xs, sep) + (sep + x) == Join(xs, sep) + sep + x;
    }
  }

  function SumLengths(xs: seq<string>): nat
  {
    if xs == [] then 0 else SumLengths(xs[..|xs| - 1]) + |xs[|xs| - 1]|
  }

  /** The joined text holds the items and exactly `|xs| - 1` separators. */
  lemma {:induction false} JoinLength(xs: seq<string>, sep: string)
    requires |xs| >= 1
    ensures |Join(xs, sep)| == SumLengths(xs) + (|xs| - 1) * |sep|
    decreases |xs|
  {
    if |xs| > 1 {
      var init := xs[..|xs| - 1];
      JoinLength(init, sep);
    } else {
      assert xs[..0] == [];
    }
  }

  /** The items each preceded by `sep`: the loops that write ", " before
      every item but the first, and `", " + _1` in the struct registration. */
  function Prefixed(xs: seq<string>, sep: string): (r: seq<string>)
    ensures |r| == |xs|
    ensures forall i :: 0 <= i < |xs| ==> r[i] == sep + xs[i]
  {
    seq(|xs|, i requires 0 <= i < |xs| => sep + xs[i])
  }

  /** Each item followed by `text`: `_1 + "()"` in the struct constructor. */
  function Suffixed(xs: seq<string>, text: string): (r: seq<string>)
    ensures |r| == |xs|
    ensures forall i :: 0 <= i < |xs| ==> r[i] == xs[i] + text
  {
    seq(|xs|, i requires 0 <= i < |xs| => xs[i] + text)
  }

  /** `join` with an empty separator is plain concatenation. */
  lemma {:induction false} JoinWithoutSeparator(xs: seq<string>)
    ensures Join(xs, "") == Concat(xs)
    decreases |xs|
  {
    if |xs| > 1 {
      JoinWithoutSeparator(xs[..|xs| - 1]);
    } else if |xs| == 1 {
      ConcatOne(xs[0]);
      assert xs == [xs[0]];
    }
  }

  /** The tokens of a loop that writes each item and then `sep` unless the
      item is the last: `if (i + 1 != size) out() << sep`. */
  function SeparatedTokens(xs: seq<string>, sep: string): seq<string>
  {
    if |xs| == 0 then []
    else if |xs| == 1 then [xs[0]]
    else SeparatedTokens(xs[..|xs| - 1], sep) + [sep, xs[|xs| - 1]]
  }

  /** Writing a separator after every item but the last is `join`. */
  lemma {:induction false} SeparatedTokensJoin(xs: seq<string>, sep: string)
    ensures Concat(SeparatedTokens(xs, sep)) == Join(xs, sep)
    decreases |xs|
  {
    if |xs| > 1 {
      var init := xs[..|xs| - 1];
      SeparatedTokensJoin(init, sep);
      ConcatAppend(SeparatedTokens(init, sep), [sep, xs[|xs| - 1]]);
      assert Concat([sep, xs[|xs| - 1]]) == sep + xs[|xs| - 1] by {
        assert [sep, xs[|xs| - 1]][..1] == [sep];
        assert Concat([sep]) == sep by { assert [sep][..0] == []; }
      }
    } else if |xs| == 1 {
      assert [xs[0]][..0] == [];
    }
  }

  /** Writing `sep` before every item but the first is `join` too; with an
      empty join the two spellings of the struct registration agree. */
  lemma {:induction false} PrefixedJoin(xs: seq<string>, sep: string)
    requires |xs| >= 1
    ensures xs[0] + Concat(Prefixed(xs[1..], sep)) == Join(xs, sep)
    decreases |xs|
  {
    if |xs| == 1 {
      assert Prefixed(xs[1..], sep) == [];
    } else {
      var init := xs[..|xs| - 1];
      PrefixedJoin(init, sep);
      assert init[1..] == xs[1..|xs| - 1];
      assert Prefixed(xs[1..], sep) == Prefixed(init[1..], sep) + [sep + xs[|xs| - 1]];
      ConcatAppend(Prefixed(init[1..], sep), [sep + xs[|xs| - 1]]);
      assert Concat([sep + xs[|xs| - 1]]) == sep + xs[|xs| - 1] by {
        assert [sep + xs[|xs| - 1]][..0] == [];
      }
    }
  }

  // ---------------------------------------------------------------------
  // Decimal numbers, as `<<` writes an int
  // ---------------------------------------------------------------------

  function DigitChar(d: nat): (c: char)
    requires d < 10
  {
    "0123456789"[d]
  }

  function NatToString(n: nat): (s: string)
    ensures |s| >= 1
    ensures forall i :: 0 <= i < |s| ==> '0' <= s[i] <= '9'
  {
    if n < 10 then [DigitChar(n)] else NatToString(n / 10) + [DigitChar(n % 10)]
  }

  lemma DigitCharInjective(a: nat, b: nat)
    requires a < 10 && b < 10 && DigitChar(a) == DigitChar(b)
    ensures a == b
  {
  }

  /** Distinct numbers print differently. */
  lemma {:induction false} NatToStringInjective(a: nat, b: nat)
    requires NatToString(a) == NatToString(b)
    ensures a == b
    decreases a
  {
    var s := NatToString(a);
    if a < 10 || b < 10 {
      if a < 10 && b < 10 {
        DigitCharInjective(a, b);
      }
    } else {
      assert s[|s| - 1] == DigitChar(a % 10) == DigitChar(b % 10);
      DigitCharInjective(a % 10, b % 10);
      assert s[..|s| - 1] == NatToString(a / 10) == NatToString(b / 10);
      NatToStringInjective(a / 10, b / 10);
    }
  }

  // ---------------------------------------------------------------------
  // Qualified names
  // ---------------------------------------------------------------------

  /** The tokens of `for ns: out() << "::" << ns`. */
  function NsTokens(ns: seq<string>): (r: seq<string>)
    ensures |r| == 2 * |ns|
  {
    if ns == [] then [] else NsTokens(ns[..|ns| - 1]) + ["::", ns[|ns| - 1]]
  }

  /** The fully qualified name `::a::b::Name` as the backends write it. */
  function QualifiedTokens(ns: seq<string>, name: string): seq<string>
  {
    NsTokens(ns) + ["::", name]
  }

  /** The loop the backends run to write a qualified name. */
  method QualifiedName(ns: seq<string>, name: string) returns (ts: seq<string>)
    ensures ts == QualifiedTokens(ns, name)
  {
    ts := [];
    var i := 0;
    while i < |ns|
      invariant 0 <= i <= |ns|
      invariant ts == NsTokens(ns[..i])
    {
      assert ns[..i + 1][..i] == ns[..i];
      ts := ts + ["::", ns[i]];
      i := i + 1;
    }
    assert ns[..|ns|] == ns;
    ts := ts + ["::", name];
  }

  /** The qualified name has "::" before each segment and before the name,
      and keeps the segments in order. */
  lemma {:induction false} QualifiedTokensShape(ns: seq<string>, name: string)
    ensures |QualifiedTokens(ns, name)| == 2 * |ns| + 2
    ensures forall i :: 0 <= i < |ns| ==>
      QualifiedTokens(ns, name)[2 * i] == "::" && QualifiedTokens(ns, name)[2 * i + 1] == ns[i]
    ensures QualifiedTokens(ns, name)[2 * |ns|] == "::" && QualifiedTokens(ns, name)[2 * |ns| + 1] == name
    decreases |ns|
  {
    if ns != [] {
      var init := ns[..|ns| - 1];
      QualifiedTokensShape(init, name);
      assert NsTokens(ns) == NsTokens(init) + ["::", ns[|ns| - 1]];
      forall i | 0 <= i < |init|
        ensures NsTokens(ns)[2 * i] == "::" && NsTokens(ns)[2 * i + 1] == ns[i]
      {
        assert NsTokens(ns)[2 * i] == QualifiedTokens(init, name)[2 * i];
        assert NsTokens(ns)[2 * i + 1] == QualifiedTokens(init, name)[2 * i + 1];
      }
    }
  }

  // ---------------------------------------------------------------------
  // Namespaces of package statements
  // ---------------------------------------------------------------------

  /** One `namespace <segment> {` line per package segment. */
  function NamespaceOpens(h: Helpers, level: nat, segs: seq<string>): (r: seq<string>)
    ensures |r| == 5 * |segs|
  {
    if segs == [] then []
    else NamespaceOpens(h, level, segs[..|segs| - 1]) +
         [h.indentText(level), "namespace ", segs[|segs| - 1], " {", "\n"]
  }

  /** How many namespaces the package statements open, all together. */
  function OpenedNamespaces(h: Helpers, bs: seq<NodeBody>): nat
  {
    if bs == [] then 0
    else OpenedNamespaces(h, bs[..|bs| - 1]) +
         (match bs[|bs| - 1]
          case StmtNode(PackageNode(name)) => |h.splitPkgName(name)|
          case _ => 0)
  }

  /** A package opens one namespace per segment, in order. */
  lemma {:induction false} NamespaceOpensShape(h: Helpers, level: nat, segs: seq<string>)
    ensures forall i :: 0 <= i < |segs| ==>
      NamespaceOpens(h, level, segs)[5 * i + 1] == "namespace " && NamespaceOpens(h, level, segs)[5 * i + 2] == segs[i]
    decreases |segs|
  {
    if segs != [] {
      var init := segs[..|segs| - 1];
      NamespaceOpensShape(h, level, init);
      var r := NamespaceOpens(h, level, segs);
      assert r == NamespaceOpens(h, level, init) + [h.indentText(level), "namespace ", segs[|segs| - 1], " {", "\n"];
      forall i | 0 <= i < |segs|
        ensures r[5 * i + 1] == "namespace " && r[5 * i + 2] == segs[i]
      {
        if i < |init| {
          assert r[5 * i + 1] == NamespaceOpens(h, level, init)[5 * i + 1];
          assert r[5 * i + 2] == NamespaceOpens(h, level, init)[5 * i + 2];
        }
      }
    }
  }
}
