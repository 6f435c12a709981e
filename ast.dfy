/**
 * The AST of the qilang IDL compiler: the node tags, the five node
 * categories (statements, declarations, expressions, constant data and type
 * expressions), their per-category visitors, the operator tables and the
 * small accessors of qilang/node.hpp and src/node.cpp.
 *
 * The header qilang/node.hpp is older than the code that uses it; the
 * datatypes below are the union of both: signals are `SigDeclNode` (the
 * header's `EmitDeclNode`), struct bodies may hold both `FieldDeclNode` and
 * the newer `StructFieldDeclNode` (several names sharing one type), and
 * function arguments are `ParamField`s that know whether they are variadic
 * or keyword collectors.
 */
module Ast {

  datatype Option<T> = None | Some(value: T)

  datatype Result<T, E> = Ok(value: T) | Err(error: E)

  /** A source span; line and column 0 mean "no location". */
  datatype Location = Location(begLine: nat, begColumn: nat, endLine: nat, endColumn: nat, filename: string)

  const NoLocation: Location := Location(0, 0, 0, 0, "")

  // ---------------------------------------------------------------------
  // Tags
  // ---------------------------------------------------------------------

  datatype NodeKind = ExprKind | TypeExprKind | ConstDataKind | DeclKind | StmtKind

  /** `NodeType_*` of the header, plus the tags of the newer declaration
      nodes (EnumDecl, EnumFieldDecl, TypeDefDecl, ParamFieldDecl,
      StructFieldDecl) that the header does not list yet. */
  datatype NodeType =
    | Package | Import
    | BinOpExpr | UOpExpr | VarExpr | ConstDataExpr
    | SimpleTypeExpr | MapTypeExpr | ListTypeExpr | TupleTypeExpr
    | BoolData | IntData | FloatData | StringData | MapData | ListData | TupleData
    | ObjectDef | PropDef | VarDef | At
    | InterfaceDecl | FnDecl | EmitDecl | PropDecl
    | StructDecl | FieldDecl | ConstDecl
    | StructFieldDecl | EnumDecl | EnumFieldDecl | TypeDefDecl | ParamFieldDecl

  datatype UnaryOpCode = Negate | UnaryMinus

  datatype BinaryOpCode =
    | BoolOr | BoolAnd
    | And | Or | Xor
    | EqEq | Ne | Gt | Lt | Ge | Le
    | Plus | Minus | Divide | Multiply | Modulus
    | FetchArray

  newtype uint64 = x: int | 0 <= x < 0x1_0000_0000_0000_0000

  /** The `double` payload of a float literal, kept as its bit pattern and
      never interpreted. */
  datatype Float64 = Float64(bits: bv64)

  // ---------------------------------------------------------------------
  // The five node categories
  // ---------------------------------------------------------------------

  datatype Expr =
    | BinaryOpExprNode(op: BinaryOpCode, n1: Expr, n2: Expr)
    | UnaryOpExprNode(uop: UnaryOpCode, n1: Expr)
    | VarExprNode(value: string)
    | ConstDataExprNode(data: ConstData)

  datatype ConstData =
    | BoolConstDataNode(boolValue: bool)
    | IntConstDataNode(intValue: uint64)
    | FloatConstDataNode(floatValue: Float64)
    | StringConstDataNode(strValue: string)
    | ListConstDataNode(values: seq<ConstData>)
    | TupleConstDataNode(values: seq<ConstData>)
    | DictConstDataNode(pairs: seq<(ConstData, ConstData)>)

  datatype TypeExpr =
    | SimpleTypeExprNode(sym: string)
    | ListTypeExprNode(element: TypeExpr)
    | MapTypeExprNode(key: TypeExpr, val: TypeExpr)
    | TupleTypeExprNode(elements: seq<TypeExpr>)

  datatype Stmt =
    | PackageNode(name: string)
    | ImportNode(name: string, imported: seq<string>)
    | ObjectDefNode(otype: TypeExpr, name: string, defs: seq<Stmt>)
    | PropertyDefNode(name: string, data: ConstData)
    | AtNode(sender: Expr, receiver: string)
    | VarDefNode(name: string, vtype: TypeExpr, vdata: Option<ConstData>)

  /** The trailing-position markers a function argument may carry. */
  datatype ParamKind = Plain | VarArgs | KeywordArgs

  datatype ParamField = ParamField(name: string, ptype: TypeExpr, paramKind: ParamKind)

  datatype EnumFieldType = EnumFieldType_Const | EnumFieldType_Type

  datatype Decl =
    | InterfaceDeclNode(pkg: string, name: string, values: seq<Decl>, inherits: seq<string>)
    | FnDeclNode(name: string, args: seq<ParamField>, ret: Option<TypeExpr>)
    | SigDeclNode(name: string, args: seq<ParamField>)
    | PropDeclNode(name: string, args: seq<ParamField>)
    | StructDeclNode(pkg: string, name: string, decls: seq<Decl>)
    | FieldDeclNode(name: string, ftype: TypeExpr)
    | StructFieldDeclNode(names: seq<string>, ftype: TypeExpr)
    | ConstDeclNode(pkg: string, name: string, ctype: Option<TypeExpr>, data: ConstData)
    | EnumDeclNode(pkg: string, name: string, fields: seq<Decl>)
    | EnumFieldDeclNode(fieldType: EnumFieldType, node: Decl)
    | TypeDefDeclNode(name: string, ttype: TypeExpr)
    | ParamFieldDeclNode(param: ParamField)

  /** A node seen through its category handle (`StmtNodePtr`, ...). */
  datatype NodeBody =
    | StmtNode(stmt: Stmt)
    | DeclNode(decl: Decl)
    | ExprNode(expr: Expr)
    | ConstDataNode(cdata: ConstData)
    | TypeExprNode(texpr: TypeExpr)

  /** A root node of a parsed file: its body, its source span and the
      comment that preceded it. */
  datatype Node = Node(body: NodeBody, loc: Location, comment: string)
  {
    function Kind(): NodeKind { KindOf(body) }
    function Type(): NodeType { TypeOf(body) }
  }

  // ---------------------------------------------------------------------
  // Tags of each variant
  // ---------------------------------------------------------------------

  function ExprType(e: Expr): NodeType
  {
    match e
    case BinaryOpExprNode(_, _, _) => BinOpExpr
    case UnaryOpExprNode(_, _) => UOpExpr
    case VarExprNode(_) => VarExpr
    case ConstDataExprNode(_) => ConstDataExpr
  }

  function ConstDataType(d: ConstData): NodeType
  {
    match d
    case BoolConstDataNode(_) => BoolData
    case IntConstDataNode(_) => IntData
    case FloatConstDataNode(_) => FloatData
    case StringConstDataNode(_) => StringData
    case ListConstDataNode(_) => ListData
    case TupleConstDataNode(_) => TupleData
    case DictConstDataNode(_) => MapData
  }

  function TypeExprType(t: TypeExpr): NodeType
  {
    match t
    case SimpleTypeExprNode(_) => SimpleTypeExpr
    case ListTypeExprNode(_) => ListTypeExpr
    case MapTypeExprNode(_, _) => MapTypeExpr
    case TupleTypeExprNode(_) => TupleTypeExpr
  }

  function StmtType(s: Stmt): NodeType
  {
    match s
    case PackageNode(_) => Package
    case ImportNode(_, _) => Import
    case ObjectDefNode(_, _, _) => ObjectDef
    case PropertyDefNode(_, _) => PropDef
    case AtNode(_, _) => At
    case VarDefNode(_, _, _) => VarDef
  }

  function DeclType(d: Decl): NodeType
  {
    match d
    case InterfaceDeclNode(_, _, _, _) => InterfaceDecl
    case FnDeclNode(_, _, _) => FnDecl
    case SigDeclNode(_, _) => EmitDecl
    case PropDeclNode(_, _) => PropDecl
    case StructDeclNode(_, _, _) => StructDecl
    case FieldDeclNode(_, _) => FieldDecl
    case StructFieldDeclNode(_, _) => StructFieldDecl
    case ConstDeclNode(_, _, _, _) => ConstDecl
    case EnumDeclNode(_, _, _) => EnumDecl
    case EnumFieldDeclNode(_, _) => EnumFieldDecl
    case TypeDefDeclNode(_, _) => TypeDefDecl
    case ParamFieldDeclNode(_) => ParamFieldDecl
  }

  /** The kind each category base constructor passes to `Node`. */
  function KindOf(b: NodeBody): NodeKind
  {
    match b
    case StmtNode(_) => StmtKind
    case DeclNode(_) => DeclKind
    case ExprNode(_) => ExprKind
    case ConstDataNode(_) => ConstDataKind
    case TypeExprNode(_) => TypeExprKind
  }

  /** The type each concrete constructor passes to its category base. */
  function TypeOf(b: NodeBody): NodeType
  {
    match b
    case StmtNode(s) => StmtType(s)
    case DeclNode(d) => DeclType(d)
    case ExprNode(e) => ExprType(e)
    case ConstDataNode(c) => ConstDataType(c)
    case TypeExprNode(t) => TypeExprType(t)
  }

  /** The category every tag belongs to. */
  function KindOfType(t: NodeType): NodeKind
  {
    match t
    case Package | Import | ObjectDef | PropDef | VarDef | At => StmtKind
    case BinOpExpr | UOpExpr | VarExpr | ConstDataExpr => ExprKind
    case SimpleTypeExpr | MapTypeExpr | ListTypeExpr | TupleTypeExpr => TypeExprKind
    case BoolData | IntData | FloatData | StringData | MapData | ListData | TupleData => ConstDataKind
    case InterfaceDecl | FnDecl | EmitDecl | PropDecl | StructDecl | FieldDecl | ConstDecl
      | StructFieldDecl | EnumDecl | EnumFieldDecl | TypeDefDecl | ParamFieldDecl => DeclKind
  }

  /** `Node(kind, type, loc, comment)`: the base constructor. Kind and type
      are not parameters here: they are functions of the variant, so they
      cannot disagree with it and nothing can change them later. */
  function NewNode(body: NodeBody, loc: Location, comment: string): (n: Node)
    ensures n.Kind() == KindOf(body) && n.Type() == TypeOf(body)
    ensures n.loc == loc && n.comment == comment && n.body == body
  {
    Node(body, loc, comment)
  }

  /** Each category base constructor fixes the kind: a node has kind K
      exactly when it is of the category K. */
  lemma KindIsCategory(n: Node)
    ensures n.Kind() == ExprKind <==> n.body.ExprNode?
    ensures n.Kind() == ConstDataKind <==> n.body.ConstDataNode?
    ensures n.Kind() == TypeExprKind <==> n.body.TypeExprNode?
    ensures n.Kind() == StmtKind <==> n.body.StmtNode?
    ensures n.Kind() == DeclKind <==> n.body.DeclNode?
  {
  }

  /** The type tag alone determines the kind: kind and type never disagree. */
  lemma KindFollowsType(b: NodeBody)
    ensures KindOf(b) == KindOfType(TypeOf(b))
  {
  }

  /** Within the declaration category the tag identifies the variant. */
  lemma DeclTypeIdentifiesVariant(d: Decl)
    ensures DeclType(d) == InterfaceDecl <==> d.InterfaceDeclNode?
    ensures DeclType(d) == FnDecl <==> d.FnDeclNode?
    ensures DeclType(d) == EmitDecl <==> d.SigDeclNode?
    ensures DeclType(d) == PropDecl <==> d.PropDeclNode?
    ensures DeclType(d) == StructDecl <==> d.StructDeclNode?
    ensures DeclType(d) == FieldDecl <==> d.FieldDeclNode?
    ensures DeclType(d) == StructFieldDecl <==> d.StructFieldDeclNode?
    ensures DeclType(d) == ConstDecl <==> d.ConstDeclNode?
    ensures DeclType(d) == EnumDecl <==> d.EnumDeclNode?
    ensures DeclType(d) == EnumFieldDecl <==> d.EnumFieldDeclNode?
    ensures DeclType(d) == TypeDefDecl <==> d.TypeDefDeclNode?
    ensures DeclType(d) == ParamFieldDecl <==> d.ParamFieldDeclNode?
  {
  }

  /** Within the statement category the tag identifies the variant. */
  lemma StmtTypeIdentifiesVariant(s: Stmt)
    ensures StmtType(s) == Package <==> s.PackageNode?
    ensures StmtType(s) == Import <==> s.ImportNode?
    ensures StmtType(s) == ObjectDef <==> s.ObjectDefNode?
    ensures StmtType(s) == PropDef <==> s.PropertyDefNode?
    ensures StmtType(s) == At <==> s.AtNode?
    ensures StmtType(s) == VarDef <==> s.VarDefNode?
  {
  }

  /** Literal nodes keep their tag: a dict literal is tagged `MapData`, a
      list `ListData`, a tuple `TupleData`, whatever they hold. */
  lemma CollectionLiteralTags(xs: seq<ConstData>, kvs: seq<(ConstData, ConstData)>)
    ensures ConstDataType(DictConstDataNode(kvs)) == MapData && DictConstDataNode(kvs).pairs == kvs
    ensures ConstDataType(ListConstDataNode(xs)) == ListData && ListConstDataNode(xs).values == xs
    ensures ConstDataType(TupleConstDataNode(xs)) == TupleData && TupleConstDataNode(xs).values == xs
  {
  }

  // ---------------------------------------------------------------------
  // Visitors: one overload per variant, `accept` picks the node's own
  // ---------------------------------------------------------------------

  datatype DeclVisitor<R> = DeclVisitor(
    visitInterface: Decl -> R, visitFn: Decl -> R, visitSig: Decl -> R, visitProp: Decl -> R,
    visitStruct: Decl -> R, visitField: Decl -> R, visitStructField: Decl -> R,
    visitConst: Decl -> R, visitEnum: Decl -> R, visitEnumField: Decl -> R,
    visitTypeDef: Decl -> R, visitParamField: Decl -> R)

  datatype StmtVisitor<R> = StmtVisitor(
    visitPackage: Stmt -> R, visitImport: Stmt -> R, visitObjectDef: Stmt -> R,
    visitPropertyDef: Stmt -> R, visitAt: Stmt -> R, visitVarDef: Stmt -> R)

  datatype ExprVisitor<R> = ExprVisitor(
    visitBinaryOp: Expr -> R, visitUnaryOp: Expr -> R, visitVar: Expr -> R, visitConstData: Expr -> R)

  datatype ConstDataVisitor<R> = ConstDataVisitor(
    visitBool: ConstData -> R, visitInt: ConstData -> R, visitFloat: ConstData -> R,
    visitString: ConstData -> R, visitTuple: ConstData -> R, visitList: ConstData -> R,
    visitDict: ConstData -> R)

  datatype TypeExprVisitor<R> = TypeExprVisitor(
    visitSimple: TypeExpr -> R, visitList: TypeExpr -> R, visitMap: TypeExpr -> R, visitTuple: TypeExpr -> R)

  /** `DeclNode::accept`: each variant calls back its own overload. */
  function AcceptDecl<R>(v: DeclVisitor<R>, d: Decl): R
  {
    match d
    case InterfaceDeclNode(_, _, _, _) => v.visitInterface(d)
    case FnDeclNode(_, _, _) => v.visitFn(d)
    case SigDeclNode(_, _) => v.visitSig(d)
    case PropDeclNode(_, _) => v.visitProp(d)
    case StructDeclNode(_, _, _) => v.visitStruct(d)
    case FieldDeclNode(_, _) => v.visitField(d)
    case StructFieldDeclNode(_, _) => v.visitStructField(d)
    case ConstDeclNode(_, _, _, _) => v.visitConst(d)
    case EnumDeclNode(_, _, _) => v.visitEnum(d)
    case EnumFieldDeclNode(_, _) => v.visitEnumField(d)
    case TypeDefDeclNode(_, _) => v.visitTypeDef(d)
    case ParamFieldDeclNode(_) => v.visitParamField(d)
  }

  function AcceptStmt<R>(v: StmtVisitor<R>, s: Stmt): R
  {
    match s
    case PackageNode(_) => v.visitPackage(s)
    case ImportNode(_, _) => v.visitImport(s)
    case ObjectDefNode(_, _, _) => v.visitObjectDef(s)
    case PropertyDefNode(_, _) => v.visitPropertyDef(s)
    case AtNode(_, _) => v.visitAt(s)
    case VarDefNode(_, _, _) => v.visitVarDef(s)
  }

  function AcceptExpr<R>(v: ExprVisitor<R>, e: Expr): R
  {
    match e
    case BinaryOpExprNode(_, _, _) => v.visitBinaryOp(e)
    case UnaryOpExprNode(_, _) => v.visitUnaryOp(e)
    case VarExprNode(_) => v.visitVar(e)
    case ConstDataExprNode(_) => v.visitConstData(e)
  }

  function AcceptData<R>(v: ConstDataVisitor<R>, d: ConstData): R
  {
    match d
    case BoolConstDataNode(_) => v.visitBool(d)
    case IntConstDataNode(_) => v.visitInt(d)
    case FloatConstDataNode(_) => v.visitFloat(d)
    case StringConstDataNode(_) => v.visitString(d)
    case ListConstDataNode(_) => v.visitList(d)
    case TupleConstDataNode(_) => v.visitTuple(d)
    case DictConstDataNode(_) => v.visitDict(d)
  }

  function AcceptTypeExpr<R>(v: TypeExprVisitor<R>, t: TypeExpr): R
  {
    match t
    case SimpleTypeExprNode(_) => v.visitSimple(t)
    case ListTypeExprNode(_) => v.visitList(t)
    case MapTypeExprNode(_, _) => v.visitMap(t)
    case TupleTypeExprNode(_) => v.visitTuple(t)
  }

  /** The overload a declaration visitor has for a declaration tag. */
  function DeclOverload<R>(v: DeclVisitor<R>, t: NodeType): Decl -> R
    requires KindOfType(t) == DeclKind
  {
    match t
    case InterfaceDecl => v.visitInterface
    case FnDecl => v.visitFn
    case EmitDecl => v.visitSig
    case PropDecl => v.visitProp
    case StructDecl => v.visitStruct
    case FieldDecl => v.visitField
    case StructFieldDecl => v.visitStructField
    case ConstDecl => v.visitConst
    case EnumDecl => v.visitEnum
    case EnumFieldDecl => v.visitEnumField
    case TypeDefDecl => v.visitTypeDef
    case ParamFieldDecl => v.visitParamField
  }

  function StmtOverload<R>(v: StmtVisitor<R>, t: NodeType): Stmt -> R
    requires KindOfType(t) == StmtKind
  {
    match t
    case Package => v.visitPackage
    case Import => v.visitImport
    case ObjectDef => v.visitObjectDef
    case PropDef => v.visitPropertyDef
    case At => v.visitAt
    case VarDef => v.visitVarDef
  }

  function ExprOverload<R>(v: ExprVisitor<R>, t: NodeType): Expr -> R
    requires KindOfType(t) == ExprKind
  {
    match t
    case BinOpExpr => v.visitBinaryOp
    case UOpExpr => v.visitUnaryOp
    case VarExpr => v.visitVar
    case ConstDataExpr => v.visitConstData
  }

  function DataOverload<R>(v: ConstDataVisitor<R>, t: NodeType): ConstData -> R
    requires KindOfType(t) == ConstDataKind
  {
    match t
    case BoolData => v.visitBool
    case IntData => v.visitInt
    case FloatData => v.visitFloat
    case StringData => v.visitString
    case ListData => v.visitList
    case TupleData => v.visitTuple
    case MapData => v.visitDict
  }

  function TypeExprOverload<R>(v: TypeExprVisitor<R>, t: NodeType): TypeExpr -> R
    requires KindOfType(t) == TypeExprKind
  {
    match t
    case SimpleTypeExpr => v.visitSimple
    case ListTypeExpr => v.visitList
    case MapTypeExpr => v.visitMap
    case TupleTypeExpr => v.visitTuple
  }

  /** Double dispatch: `accept` calls exactly the overload that the node's
      own type tag selects; here for every declaration node. */
  lemma AcceptDeclCallsOwnOverload<R>(v: DeclVisitor<R>, d: Decl)
    ensures KindOfType(DeclType(d)) == DeclKind && AcceptDecl(v, d) == DeclOverload(v, DeclType(d))(d)
  {
  }

  /** Double dispatch: `accept` calls exactly the overload that the node's
      own type tag selects; here for every statement node. */
  lemma AcceptStmtCallsOwnOverload<R>(v: StmtVisitor<R>, s: Stmt)
    ensures KindOfType(StmtType(s)) == StmtKind && AcceptStmt(v, s) == StmtOverload(v, StmtType(s))(s)
  {
  }

  /** Double dispatch: `accept` calls exactly the overload that the node's
      own type tag selects; here for every expression node. */
  lemma AcceptExprCallsOwnOverload<R>(v: ExprVisitor<R>, e: Expr)
    ensures KindOfType(ExprType(e)) == ExprKind && AcceptExpr(v, e) == ExprOverload(v, ExprType(e))(e)
  {
  }

  /** Double dispatch: `accept` calls exactly the overload that the node's
      own type tag selects; here for every constant node. */
  lemma AcceptDataCallsOwnOverload<R>(v: ConstDataVisitor<R>, c: ConstData)
    ensures KindOfType(ConstDataType(c)) == ConstDataKind && AcceptData(v, c) == DataOverload(v, ConstDataType(c))(c)
  {
  }

  /** Double dispatch: `accept` calls exactly the overload that the node's
      own type tag selects; here for every type expression node. */
  lemma AcceptTypeExprCallsOwnOverload<R>(v: TypeExprVisitor<R>, t: TypeExpr)
    ensures KindOfType(TypeExprType(t)) == TypeExprKind && AcceptTypeExpr(v, t) == TypeExprOverload(v, TypeExprType(t))(t)
  {
  }

  // ---------------------------------------------------------------------
  // Operator tables (src/node.cpp)
  // ---------------------------------------------------------------------

  function UnaryOpCodeToString(op: UnaryOpCode): (s: string)
    ensures s == "-" <==> op == UnaryMinus
    ensures s == "!" <==> op == Negate
  {
    match op
    case UnaryMinus => "-"
    case Negate => "!"
  }

  function BinaryOpCodeToString(op: BinaryOpCode): string
  {
    match op
    case BoolOr => "||"
    case BoolAnd => "&&"
    case And => "&"
    case Or => "|"
    case Xor => "^"
    case EqEq => "=="
    case Ne => "!="
    case Gt => ">"
    case Lt => "<"
    case Ge => ">="
    case Le => "<="
    case Plus => "+"
    case Minus => "-"
    case Divide => "/"
    case Multiply => "*"
    case Modulus => "%"
    case FetchArray => "[]"
  }

  /** The seventeen binary operator spellings are pairwise distinct, so the
      table can be read backwards. */
  lemma BinaryOpCodeToStringInjective(a: BinaryOpCode, b: BinaryOpCode)
    ensures BinaryOpCodeToString(a) == BinaryOpCodeToString(b) ==> a == b
    ensures 1 <= |BinaryOpCodeToString(a)| <= 2
  {
  }

  // ---------------------------------------------------------------------
  // Trailing argument markers (src/node.cpp)
  // ---------------------------------------------------------------------

  /** `FnDeclNode::hasKeywordArgs`. */
  function HasKeywordArgs(args: seq<ParamField>): (r: bool)
  {
    if |args| == 0 then false else args[|args| - 1].paramKind == KeywordArgs
  }

  /** `FnDeclNode::hasVarArgs`: the variadic argument sits last, or just
      before a trailing keyword collector. */
  function HasVarArgs(args: seq<ParamField>): (r: bool)
  {
    if |args| < 1 then false
    else if !HasKeywordArgs(args) then args[|args| - 1].paramKind == VarArgs
    else if |args| < 2 then false
    else args[|args| - 2].paramKind == VarArgs
  }

  /** The placement rule for the two markers: a keyword collector only in
      the last position, a variadic argument only last or second to last
      with a keyword collector after it. */
  predicate WellPlacedMarkers(args: seq<ParamField>)
  {
    && (forall i :: 0 <= i < |args| && args[i].paramKind == KeywordArgs ==> i == |args| - 1)
    && (forall i :: 0 <= i < |args| && args[i].paramKind == VarArgs ==>
          i == |args| - 1 || (i == |args| - 2 && args[|args| - 1].paramKind == KeywordArgs))
  }

  /** The two predicates read only the tail of the list. */
  lemma HasArgsReadOnlyTheTail(args: seq<ParamField>, prefix: seq<ParamField>)
    requires |args| >= 2
    ensures HasKeywordArgs(prefix + args) == HasKeywordArgs(args)
    ensures HasVarArgs(prefix + args) == HasVarArgs(args)
  {
    var full := prefix + args;
    assert full[|full| - 1] == args[|args| - 1];
    assert full[|full| - 2] == args[|args| - 2];
  }

  /** On a well-placed argument list the accessors are exact: each reports
      whether the marker occurs anywhere in the list. */
  lemma {:induction false} MarkersFoundWhereverPresent(args: seq<ParamField>)
    requires WellPlacedMarkers(args)
    ensures HasKeywordArgs(args) <==> exists i :: 0 <= i < |args| && args[i].paramKind == KeywordArgs
    ensures HasVarArgs(args) <==> exists i :: 0 <= i < |args| && args[i].paramKind == VarArgs
  {
    var n := |args|;
    if HasKeywordArgs(args) {
      assert args[n - 1].paramKind == KeywordArgs;
    }
    if HasVarArgs(args) {
      if HasKeywordArgs(args) {
        assert args[n - 2].paramKind == VarArgs;
      } else {
        assert args[n - 1].paramKind == VarArgs;
      }
    }
    if i :| 0 <= i < n && args[i].paramKind == VarArgs {
      if i == n - 1 {
        assert !HasKeywordArgs(args);
      } else {
        assert args[n - 1].paramKind == KeywordArgs;
      }
    }
  }

  // ---------------------------------------------------------------------
  // AtNode::sender (src/node.cpp)
  // ---------------------------------------------------------------------

  const ComplexSender: string := "COMPLEX expression"

  /** The sender of an `at` statement: the variable's name when the sender
      expression is tagged `VarExpr`, a fixed placeholder otherwise. */
  function Sender(at: Stmt): (r: string)
    requires at.AtNode?
    ensures at.sender.VarExprNode? ==> r == at.sender.value
    ensures !at.sender.VarExprNode? ==> r == ComplexSender
  {
    if ExprType(at.sender) == VarExpr then at.sender.value else ComplexSender
  }

  /** A variable named like the placeholder is indistinguishable from a
      complex sender: the accessor is not injective. */
  lemma SenderPlaceholderIsAmbiguous(receiver: string)
    ensures Sender(AtNode(VarExprNode(ComplexSender), receiver))
         == Sender(AtNode(UnaryOpExprNode(Negate, VarExprNode("x")), receiver))
  {
  }

  // ---------------------------------------------------------------------
  // Constructors with optional children (qilang/node.hpp)
  // ---------------------------------------------------------------------

  /** `ImportNode(name)`: imports the whole package. */
  function NewImport(name: string): (s: Stmt)
    ensures s.ImportNode? && s.name == name && s.imported == []
  {
    ImportNode(name, [])
  }

  /** `ImportNode(name, imported)`: refuses an empty explicit list. */
  function NewImportList(name: string, imported: seq<string>): (r: Result<Stmt, string>)
    ensures r.Err? <==> imported == []
    ensures r.Err? ==> r.error == "Empty import list"
    ensures r.Ok? ==> r.value.ImportNode? && r.value.name == name && r.value.imported == imported
  {
    if |imported| == 0 then Err("Empty import list") else Ok(ImportNode(name, imported))
  }

  /** An explicit import list built by the constructor is never empty, so a
      successful explicit import and a whole-package import never coincide. */
  lemma ExplicitImportDiffersFromWholePackage(name: string, imported: seq<string>)
    requires NewImportList(name, imported).Ok?
    ensures NewImportList(name, imported).value != NewImport(name)
    ensures |NewImportList(name, imported).value.imported| > 0
  {
  }

  /** The declared return type, or the "no value" marker when omitted. */
  function EffectiveRet(fn: Decl, noValue: TypeExpr): (t: TypeExpr)
    requires fn.FnDeclNode?
    ensures fn.ret.Some? ==> t == fn.ret.value
    ensures fn.ret.None? ==> t == noValue
  {
    match fn.ret
    case Some(r) => r
    case None => noValue
  }

  /** The declared type of a constant, or the one its literal implies. */
  function EffectiveConstType(c: Decl, literalType: ConstData -> TypeExpr): (t: TypeExpr)
    requires c.ConstDeclNode?
    ensures c.ctype.Some? ==> t == c.ctype.value
    ensures c.ctype.None? ==> t == literalType(c.data)
  {
    match c.ctype
    case Some(ty) => ty
    case None => literalType(c.data)
  }

  /** `FnDeclNode(name, args)`: no return type. */
  function NewFnDecl(name: string, args: seq<ParamField>): (d: Decl)
    ensures d.FnDeclNode? && d.name == name && d.args == args && d.ret.None?
  {
    FnDeclNode(name, args, None)
  }

  /** `ConstDeclNode(pkg, name, data)`: no explicit type. */
  function NewConstDecl(pkg: string, name: string, data: ConstData): (d: Decl)
    ensures d.ConstDeclNode? && d.pkg == pkg && d.name == name && d.data == data && d.ctype.None?
  {
    ConstDeclNode(pkg, name, None, data)
  }

  /** `InterfaceDeclNode(pkg, name, decls)`: no bases. */
  function NewInterfaceDecl(pkg: string, name: string, decls: seq<Decl>): (d: Decl)
    ensures d.InterfaceDeclNode? && d.pkg == pkg && d.name == name && d.values == decls && d.inherits == []
  {
    InterfaceDeclNode(pkg, name, decls, [])
  }

  /** `VarDefNode(name, type)`: no initial value. */
  function NewVarDef(name: string, vtype: TypeExpr): (s: Stmt)
    ensures s.VarDefNode? && s.name == name && s.vtype == vtype && s.vdata.None?
  {
    VarDefNode(name, vtype, None)
  }

  /** What the short constructors leave out is filled in by the effective
      accessors: a function built without a return type returns the "no
      value" marker, a constant built without a type takes its literal's,
      just as if the full constructor had been given those types. */
  lemma ShortConstructorsDefaults(name: string, args: seq<ParamField>, pkg: string, data: ConstData,
                                  noValue: TypeExpr, literalType: ConstData -> TypeExpr)
    ensures EffectiveRet(NewFnDecl(name, args), noValue) == noValue
    ensures EffectiveConstType(NewConstDecl(pkg, name, data), literalType) == literalType(data)
    ensures EffectiveRet(NewFnDecl(name, args), noValue) == EffectiveRet(FnDeclNode(name, args, Some(noValue)), noValue)
    ensures EffectiveConstType(NewConstDecl(pkg, name, data), literalType) ==
            EffectiveConstType(ConstDeclNode(pkg, name, Some(literalType(data)), data), literalType)
  {
  }
}
