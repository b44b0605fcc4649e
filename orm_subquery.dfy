/** The shared statement builder of orm/HW_subquery (orm/HW_subquery/builder.go).
    Its expression tree is richer than the other builders': columns and
    aggregates name the table they belong to, binary expressions come in three
    kinds (arithmetic, predicate, plain), and a subquery can be an operand.
    Identifiers are wrapped in the dialect's quote character. */
module HwSubquery {
  import opened Wrappers
  import opened OrmErrors
  import opened OrmExpr
  import opened SqlEmit
  import opened OrmRegistry

  // ------------------------------------------------------------ the tree

  /** A TableReference: none (the builder's own model), a Table of an entity,
      a Subquery, or any other reference (a join), which colName rejects. */
  datatype TableRef =
    | NoTable
    | Table(entity: EntityType, alias: string)
    | SubqueryRef(sub: Subquery)
    | OtherTable(alias: string)

  /** What colName asks of a subquery's selected column: the alias it is
      selected under, the field it names and the table it targets. */
  datatype SelItem = SelItem(selectedAlias: string, fieldName: string, target: TableRef)

  /** A Subquery: what its inner builder's Build returns, the entity it
      selects from, its selected columns and its alias. */
  datatype Subquery = Subquery(built: Result<Query, OrmError>, entity: TableRef,
                               columns: seq<SelItem>, alias: string)

  datatype Agg = Agg(table: TableRef, fn: string, arg: string, alias: string)

  /** An Expression. MathExpr, Predicate and binaryExpr share one shape. */
  datatype SExpr =
    | SNil
    | SColumn(table: TableRef, name: string)
    | SAggregate(agg: Agg)
    | SValue(v: Value)
    | SRaw(raw: string, rawArgs: seq<Value>)
    | SMath(left: SExpr, op: string, right: SExpr)
    | SPredicate(left: SExpr, op: string, right: SExpr)
    | SBinary(left: SExpr, op: string, right: SExpr)
    | SSubquery(sub: Subquery)
    | SSubqueryExpr(pred: string, sub: Subquery)
    | SOther

  predicate IsBinary(e: SExpr)
  {
    e.SMath? || e.SPredicate? || e.SBinary?
  }

  /** ps[0].And(ps[1]).And(ps[2])... */
  function AndFold(ps: seq<SExpr>): SExpr
    requires |ps| > 0
    decreases |ps|
  {
    if |ps| == 1 then ps[0] else SPredicate(AndFold(ps[..|ps| - 1]), "AND", ps[|ps| - 1])
  }

  /** A subquery whose Build succeeded returned a non-empty statement, so that
      dropping its last character is defined. */
  predicate Buildable(s: Subquery)
  {
    s.built.Success? ==> |s.built.value.sql| > 0
  }

  predicate SubqueriesBuildable(e: SExpr)
  {
    match e
    case SSubquery(s) => Buildable(s)
    case SSubqueryExpr(_, s) => Buildable(s)
    case SMath(l, _, r) => SubqueriesBuildable(l) && SubqueriesBuildable(r)
    case SPredicate(l, _, r) => SubqueriesBuildable(l) && SubqueriesBuildable(r)
    case SBinary(l, _, r) => SubqueriesBuildable(l) && SubqueriesBuildable(r)
    case _ => true
  }

  // ------------------------------------------------------------ what is written

  /** What the builder consults: its model's fields, its quote character and
      the registry's answer for each entity. */
  datatype Context = Context(fm: map<string, Field>, quoter: char, registry: EntityType -> Result<Model, OrmError>)

  /** quote(name). */
  function Quoted(q: char, name: string): string
  {
    [q] + name + [q]
  }

  /** tableAlias(): a nil reference has none. */
  function TableAlias(t: TableRef): string
  {
    match t
    case NoTable => ""
    case Table(_, a) => a
    case SubqueryRef(s) => s.alias
    case OtherTable(a) => a
  }

  function FieldIn(fm: map<string, Field>, fd: string): Result<string, OrmError>
  {
    if fd in fm then Success(fm[fd].colName) else Failure(UnknownField(fd))
  }

  /** colName: where a field's column name comes from, by kind of table. */
  function ColName(ctx: Context, t: TableRef, fd: string): Result<string, OrmError>
    decreases t, 0
  {
    match t
    case NoTable => FieldIn(ctx.fm, fd)
    case Table(ent, _) =>
      (match ctx.registry(ent)
       case Failure(e) => Failure(e)
       case Success(m) => FieldIn(m.fieldMap, fd))
    case SubqueryRef(s) =>
      if |s.columns| > 0 then ColumnsColName(ctx, s, 0, fd) else ColName(ctx, s.entity, fd)
    case OtherTable(_) => Failure(UnsupportedExpressionType)
  }

  /** The scan of a subquery's columns from index i: the first column selected
      under the alias fd gives fd itself; the first naming the field fd resolves
      against its own target. */
  function ColumnsColName(ctx: Context, s: Subquery, i: nat, fd: string): Result<string, OrmError>
    requires i <= |s.columns|
    decreases s, |s.columns| - i
  {
    if i == |s.columns| then Failure(UnknownField(fd))
    else if s.columns[i].selectedAlias == fd then Success(fd)
    else if s.columns[i].fieldName == fd then ColName(ctx, s.columns[i].target, fd)
    else ColumnsColName(ctx, s, i + 1, fd)
  }

  /** buildColumn: the quoted table alias and `.` when there is an alias,
      written before the column is looked up, then the quoted column name. */
  function ColumnEmit(ctx: Context, t: TableRef, fd: string): Emit
  {
    var prefix := if TableAlias(t) != "" then Quoted(ctx.quoter, TableAlias(t)) + "." else "";
    match ColName(ctx, t, fd)
    case Failure(e) => Emit(prefix, [], Some(e))
    case Success(n) => Text(prefix + Quoted(ctx.quoter, n))
  }

  /** buildAs. */
  function AsText(q: char, alias: string): string
  {
    if alias != "" then " AS " + Quoted(q, alias) else ""
  }

  /** buildAggregate: `fn(`, the column, `)`, then the alias when asked. */
  function AggregateEmit(ctx: Context, a: Agg, useAlias: bool): Emit
  {
    Then(Then(Text(a.fn + "("), ColumnEmit(ctx, a.table, a.arg)),
         Text(")" + (if useAlias then AsText(ctx.quoter, a.alias) else "")))
  }

  /** buildSubquery: the inner statement without its last character, in
      parentheses, with the inner arguments; ` AS ` and the quoted alias when
      asked. A failed inner Build is returned as it is. */
  function SubqueryEmit(ctx: Context, s: Subquery, useAlias: bool): Emit
    requires Buildable(s)
  {
    match s.built
    case Failure(e) => Fail(e)
    case Success(q) =>
      Emit("(" + q.sql[..|q.sql| - 1] + ")" + (if useAlias then " AS " + Quoted(ctx.quoter, s.alias) else ""),
           q.args, None)
  }

  /** buildExpression. */
  function ExprEmit(ctx: Context, e: SExpr): Emit
    requires SubqueriesBuildable(e)
    decreases e, 1
  {
    match e
    case SNil => Text("")
    case SColumn(t, n) => ColumnEmit(ctx, t, n)
    case SAggregate(a) => AggregateEmit(ctx, a, false)
    case SValue(v) => Emit("?", [v], None)
    case SRaw(raw, rargs) => Emit(raw, rargs, None)
    case SMath(_, _, _) => BinaryEmit(ctx, e)
    case SPredicate(_, _, _) => BinaryEmit(ctx, e)
    case SBinary(_, _, _) => BinaryEmit(ctx, e)
    case SSubquery(s) => SubqueryEmit(ctx, s, false)
    case SSubqueryExpr(pred, s) => Then(Text(pred + " "), SubqueryEmit(ctx, s, false))
    case SOther => Fail(UnsupportedExpressionType)
  }

  /** buildBinaryExpr: the left operand, ` op` for a non-empty operator, then a
      space and the right operand when there is one. */
  function BinaryEmit(ctx: Context, e: SExpr): Emit
    requires IsBinary(e) && SubqueriesBuildable(e)
    decreases e, 0
  {
    Then(Then(SubEmit(ctx, e.left), Text(if e.op != "" then " " + e.op else "")),
         if e.right != SNil then Then(Text(" "), SubEmit(ctx, e.right)) else Text(""))
  }

  /** buildSubExpr: a binary operand is parenthesised, any other is not. */
  function SubEmit(ctx: Context, e: SExpr): Emit
    requires SubqueriesBuildable(e)
    decreases e, 2
  {
    if IsBinary(e) then Wrapped(true, BinaryEmit(ctx, e)) else ExprEmit(ctx, e)
  }

  // ------------------------------------------------------------ the builder

  /** builder: the text and arguments written so far, the dialect's quote
      character, the model of the statement's entity and the registry. */
  class Builder {
    var sb: string
    var args: seq<Value>
    var quoter: char
    var model: Option<Model>
    var registry: EntityType -> Result<Model, OrmError>

    constructor (q: char, m: Option<Model>, r: EntityType -> Result<Model, OrmError>)
      ensures sb == "" && args == [] && quoter == q && model == m && registry == r
    {
      sb, args, quoter, model, registry := "", [], q, m, r;
    }

    function Ctx(): Context
      reads this
      requires model.Some?
    {
      Context(model.value.fieldMap, quoter, registry)
    }

    method Quote(name: string)
      modifies this`sb
      ensures sb == old(sb) + Quoted(quoter, name)
    {
      sb := sb + [quoter];
      sb := sb + name;
      sb := sb + [quoter];
    }

    method AddArgs(vals: seq<Value>)
      modifies this`args
      ensures args == old(args) + vals
    {
      args := args + vals;
    }

    /** raw: the text, and the arguments only when there are any. */
    method Raw(raw: string, rargs: seq<Value>)
      modifies this`sb, this`args
      ensures Extends(old(sb), old(args), sb, args, Emit(raw, rargs, None))
    {
      sb := sb + raw;
      if |rargs| != 0 {
        AddArgs(rargs);
      } else {
        assert args == args + rargs;
      }
    }

    method BuildAs(alias: string)
      modifies this`sb
      ensures sb == old(sb) + AsText(quoter, alias)
    {
      if alias != "" {
        sb := sb + " AS ";
        Quote(alias);
      }
    }

    method BuildColumn(t: TableRef, fd: string) returns (err: Option<OrmError>)
      requires model.Some?
      modifies this`sb
      ensures Extends(old(sb), args, sb, args, ColumnEmit(Ctx(), t, fd))
      ensures err == ColumnEmit(Ctx(), t, fd).err
    {
      var alias := "";
      if t != NoTable {
        alias := TableAlias(t);
      }
      if alias != "" {
        Quote(alias);
        sb := sb + ".";
      }
      var name := ColName(Ctx(), t, fd);
      if name.Failure? {
        return Some(name.error);
      }
      Quote(name.value);
      return None;
    }

    /** The closing parenthesis of an aggregate, then its alias when asked. */
    method BuildCloseAggregate(alias: string, useAlias: bool)
      modifies this`sb
      ensures sb == old(sb) + (")" + (if useAlias then AsText(quoter, alias) else ""))
    {
      sb := sb + ")";
      if useAlias {
        BuildAs(alias);
      }
    }

    method BuildAggregate(a: Agg, useAlias: bool) returns (err: Option<OrmError>)
      requires model.Some?
      modifies this`sb
      ensures Extends(old(sb), args, sb, args, AggregateEmit(Ctx(), a, useAlias))
      ensures err == AggregateEmit(Ctx(), a, useAlias).err
    {
      ghost var s0 := sb;
      sb := sb + (a.fn + "(");
      ghost var s1 := sb;
      err := BuildColumn(a.table, a.arg);
      ghost var col := ColumnEmit(Ctx(), a.table, a.arg);
      ExtendsThen(s0, args, s1, args, Text(a.fn + "("), sb, args, col);
      if err.Some? {
        return;
      }
      ghost var s2 := sb;
      BuildCloseAggregate(a.alias, useAlias);
      ExtendsThen(s0, args, s2, args, Then(Text(a.fn + "("), col), sb, args,
                  Text(")" + (if useAlias then AsText(quoter, a.alias) else "")));
    }

    method BuildSubquery(s: Subquery, useAlias: bool) returns (err: Option<OrmError>)
      requires model.Some? && Buildable(s)
      modifies this`sb, this`args
      ensures Extends(old(sb), old(args), sb, args, SubqueryEmit(Ctx(), s, useAlias))
      ensures err == SubqueryEmit(Ctx(), s, useAlias).err
    {
      if s.built.Failure? {
        assert sb == sb + "" && args == args + [];
        return Some(s.built.error);
      }
      var query := s.built.value;
      sb := sb + "(";
      sb := sb + query.sql[..|query.sql| - 1];
      if |query.args| > 0 {
        AddArgs(query.args);
      } else {
        assert args == args + query.args;
      }
      sb := sb + ")";
      if useAlias {
        sb := sb + " AS ";
        Quote(s.alias);
      }
      return None;
    }

    method BuildExpression(e: SExpr) returns (err: Option<OrmError>)
      requires model.Some? && SubqueriesBuildable(e)
      modifies this`sb, this`args
      ensures Extends(old(sb), old(args), sb, args, ExprEmit(Ctx(), e)) && err == ExprEmit(Ctx(), e).err
      decreases e, 1
    {
      match e
      case SNil =>
        assert sb == sb + "" && args == args + [];
        return None;
      case SColumn(t, n) =>
        err := BuildColumn(t, n);
        assert args == old(args) + [];
      case SAggregate(a) =>
        err := BuildAggregate(a, false);
        assert args == old(args) + [];
      case SValue(v) =>
        sb := sb + "?";
        AddArgs([v]);
        return None;
      case SRaw(raw, rargs) =>
        Raw(raw, rargs);
        return None;
      case SMath(_, _, _) =>
        err := BuildBinaryExpr(e);
      case SPredicate(_, _, _) =>
        err := BuildBinaryExpr(e);
      case SBinary(_, _, _) =>
        err := BuildBinaryExpr(e);
      case SSubquery(s) =>
        err := BuildSubquery(s, false);
      case SSubqueryExpr(pred, s) =>
        ghost var s0, a0 := sb, args;
        sb := sb + (pred + " ");
        ghost var s1, a1 := sb, args;
        err := BuildSubquery(s, false);
        ExtendsThen(s0, a0, s1, a1, Text(pred + " "), sb, args, SubqueryEmit(Ctx(), s, false));
      case SOther =>
        assert sb == sb + "" && args == args + [];
        return Some(UnsupportedExpressionType);
    }

    method BuildBinaryExpr(e: SExpr) returns (err: Option<OrmError>)
      requires model.Some? && IsBinary(e) && SubqueriesBuildable(e)
      modifies this`sb, this`args
      ensures Extends(old(sb), old(args), sb, args, BinaryEmit(Ctx(), e)) && err == BinaryEmit(Ctx(), e).err
      decreases e, 0
    {
      ghost var s0, a0 := sb, args;
      err := BuildSubExpr(e.left);
      ghost var l := SubEmit(Ctx(), e.left);
      if err.Some? {
        return;
      }
      ghost var s1, a1 := sb, args;
      if e.op != "" {
        sb := sb + (" " + e.op);
      } else {
        assert sb == sb + "" && args == args + [];
      }
      ghost var opText := Text(if e.op != "" then " " + e.op else "");
      ExtendsThen(s0, a0, s1, a1, l, sb, args, opText);
      if e.right != SNil {
        ghost var s2, a2 := sb, args;
        sb := sb + " ";
        ghost var s3, a3 := sb, args;
        err := BuildSubExpr(e.right);
        ExtendsThen(s2, a2, s3, a3, Text(" "), sb, args, SubEmit(Ctx(), e.right));
        ExtendsThen(s0, a0, s2, a2, Then(l, opText), sb, args, Then(Text(" "), SubEmit(Ctx(), e.right)));
        return;
      }
      assert sb == sb + "" && args == args + [];
      ExtendsThen(s0, a0, sb, args, Then(l, opText), sb, args, Text(""));
      return None;
    }

    method BuildSubExpr(e: SExpr) returns (err: Option<OrmError>)
      requires model.Some? && SubqueriesBuildable(e)
      modifies this`sb, this`args
      ensures Extends(old(sb), old(args), sb, args, SubEmit(Ctx(), e)) && err == SubEmit(Ctx(), e).err
      decreases e, 2
    {
      if IsBinary(e) {
        ghost var s0, a0 := sb, args;
        sb := sb + "(";
        ghost var s1, a1 := sb, args;
        err := BuildBinaryExpr(e);
        ghost var inner := BinaryEmit(Ctx(), e);
        ExtendsThen(s0, a0, s1, a1, Text("("), sb, args, inner);
        if err.Some? {
          return;
        }
        ghost var s2, a2 := sb, args;
        sb := sb + ")";
        ExtendsThen(s0, a0, s2, a2, Then(Text("("), inner), sb, args, Text(")"));
      } else {
        err := BuildExpression(e);
      }
    }

    /** buildPredicates: the list folded with And, then one expression. */
    method BuildPredicates(ps: seq<SExpr>) returns (err: Option<OrmError>)
      requires model.Some? && |ps| > 0
      requires forall i :: 0 <= i < |ps| ==> SubqueriesBuildable(ps[i])
      modifies this`sb, this`args
      ensures SubqueriesBuildable(AndFold(ps))
      ensures Extends(old(sb), old(args), sb, args, ExprEmit(Ctx(), AndFold(ps)))
      ensures err == ExprEmit(Ctx(), AndFold(ps)).err
    {
      var p := ps[0];
      var i := 1;
      while i < |ps|
        invariant 1 <= i <= |ps|
        invariant p == AndFold(ps[..i]) && SubqueriesBuildable(p)
      {
        assert ps[..i + 1][..i] == ps[..i];
        p := SPredicate(p, "AND", ps[i]);
        i := i + 1;
      }
      assert ps[..|ps|] == ps;
      err := BuildExpression(p);
    }
  }

  // ------------------------------------------------------------ colName

  /** Where a column name can come from: the builder's model, or the model the
      registry returns for some entity. */
  ghost predicate InSomeModel(ctx: Context, fd: string, col: string)
  {
    || (fd in ctx.fm && ctx.fm[fd].colName == col)
    || (exists ent :: ctx.registry(ent).Success? && fd in ctx.registry(ent).value.fieldMap
                      && ctx.registry(ent).value.fieldMap[fd].colName == col)
  }

  /** An error colName can return: the unknown field itself, the unsupported
      table reference, or what the registry returned for some entity. */
  ghost predicate ColNameError(ctx: Context, fd: string, err: OrmError)
  {
    err == UnknownField(fd) || err == UnsupportedExpressionType || exists ent :: ctx.registry(ent) == Failure(err)
  }

  /** colName either returns fd itself (a subquery column selected under that
      alias) or the column name a model gives fd; its errors are the ones above. */
  lemma {:induction false} ColNameOrigin(ctx: Context, t: TableRef, fd: string)
    ensures ColName(ctx, t, fd).Success? ==>
              ColName(ctx, t, fd).value == fd || InSomeModel(ctx, fd, ColName(ctx, t, fd).value)
    ensures ColName(ctx, t, fd).Failure? ==> ColNameError(ctx, fd, ColName(ctx, t, fd).error)
    decreases t, 0
  {
    match t
    case NoTable =>
    case Table(ent, _) =>
      if ctx.registry(ent).Success? {
        var m := ctx.registry(ent).value;
        if fd in m.fieldMap {
          assert InSomeModel(ctx, fd, m.fieldMap[fd].colName);
        }
      }
    case SubqueryRef(s) =>
      if |s.columns| > 0 {
        ColumnsOrigin(ctx, s, 0, fd);
      } else {
        ColNameOrigin(ctx, s.entity, fd);
      }
    case OtherTable(_) =>
  }

  lemma {:induction false} ColumnsOrigin(ctx: Context, s: Subquery, i: nat, fd: string)
    requires i <= |s.columns|
    ensures ColumnsColName(ctx, s, i, fd).Success? ==>
              ColumnsColName(ctx, s, i, fd).value == fd || InSomeModel(ctx, fd, ColumnsColName(ctx, s, i, fd).value)
    ensures ColumnsColName(ctx, s, i, fd).Failure? ==> ColNameError(ctx, fd, ColumnsColName(ctx, s, i, fd).error)
    decreases s, |s.columns| - i
  {
    if i < |s.columns| && s.columns[i].selectedAlias != fd {
      if s.columns[i].fieldName == fd {
        ColNameOrigin(ctx, s.columns[i].target, fd);
      } else {
        ColumnsOrigin(ctx, s, i + 1, fd);
      }
    }
  }

  /** True when column c of a subquery matches fd, by alias or by field name. */
  predicate Matches(c: SelItem, fd: string)
  {
    c.selectedAlias == fd || c.fieldName == fd
  }

  /** The first matching column decides: its alias gives fd itself, otherwise
      fd is resolved against that column's target. */
  lemma {:induction false} ColumnsFirstMatch(ctx: Context, s: Subquery, i: nat, j: nat, fd: string)
    requires i <= j < |s.columns| && Matches(s.columns[j], fd)
    requires forall k :: i <= k < j ==> !Matches(s.columns[k], fd)
    ensures ColumnsColName(ctx, s, i, fd) ==
              if s.columns[j].selectedAlias == fd then Success(fd) else ColName(ctx, s.columns[j].target, fd)
    decreases j - i
  {
    if i < j {
      assert !Matches(s.columns[i], fd);
      ColumnsFirstMatch(ctx, s, i + 1, j, fd);
    }
  }

  /** With no matching column the field is unknown. */
  lemma {:induction false} ColumnsMiss(ctx: Context, s: Subquery, i: nat, fd: string)
    requires i <= |s.columns|
    requires forall k :: i <= k < |s.columns| ==> !Matches(s.columns[k], fd)
    ensures ColumnsColName(ctx, s, i, fd) == Failure(UnknownField(fd))
    decreases |s.columns| - i
  {
    if i < |s.columns| {
      assert !Matches(s.columns[i], fd);
      ColumnsMiss(ctx, s, i + 1, fd);
    }
  }

  // ------------------------------------------------------------ expressions

  /** Everything an expression needs to be written: each column and aggregate
      argument resolves, each subquery built, and no unsupported node. */
  predicate Resolves(ctx: Context, e: SExpr)
  {
    match e
    case SColumn(t, n) => ColName(ctx, t, n).Success?
    case SAggregate(a) => ColName(ctx, a.table, a.arg).Success?
    case SMath(l, _, r) => Resolves(ctx, l) && Resolves(ctx, r)
    case SPredicate(l, _, r) => Resolves(ctx, l) && Resolves(ctx, r)
    case SBinary(l, _, r) => Resolves(ctx, l) && Resolves(ctx, r)
    case SSubquery(s) => s.built.Success?
    case SSubqueryExpr(_, s) => s.built.Success?
    case SOther => false
    case _ => true
  }

  /** The arguments an expression contributes, left to right: a value, a raw
      fragment's arguments, a subquery's arguments. */
  function SValues(e: SExpr): seq<Value>
  {
    match e
    case SValue(v) => [v]
    case SRaw(_, rargs) => rargs
    case SMath(l, _, r) => SValues(l) + SValues(r)
    case SPredicate(l, _, r) => SValues(l) + SValues(r)
    case SBinary(l, _, r) => SValues(l) + SValues(r)
    case SSubquery(s) => if s.built.Success? then s.built.value.args else []
    case SSubqueryExpr(_, s) => if s.built.Success? then s.built.value.args else []
    case _ => []
  }

  /** An operand fails or succeeds as the expression itself does and appends
      the same arguments; only parentheses differ. */
  lemma SubLikeExpr(ctx: Context, e: SExpr)
    requires SubqueriesBuildable(e)
    ensures SubEmit(ctx, e).err == ExprEmit(ctx, e).err
    ensures SubEmit(ctx, e).err.None? ==> SubEmit(ctx, e).args == ExprEmit(ctx, e).args
  {
    if IsBinary(e) {
      var b := BinaryEmit(ctx, e);
      assert ExprEmit(ctx, e) == b;
      if b.err.None? {
        assert Wrapped(true, b).args == [] + b.args + [];
      }
    }
  }

  /** An expression is written without error exactly when it resolves, and then
      its arguments are its values in order. */
  lemma {:induction false} ExprOutcome(ctx: Context, e: SExpr)
    requires SubqueriesBuildable(e)
    ensures ExprEmit(ctx, e).err.None? <==> Resolves(ctx, e)
    ensures Yields(ExprEmit(ctx, e), SValues(e))
    decreases e, 1
  {
    match e
    case SNil =>
    case SColumn(t, n) =>
    case SAggregate(a) =>
    case SValue(v) =>
    case SRaw(_, _) =>
    case SMath(l, _, r) => BinaryOutcome(ctx, e);
    case SPredicate(l, _, r) => BinaryOutcome(ctx, e);
    case SBinary(l, _, r) => BinaryOutcome(ctx, e);
    case SSubquery(s) =>
    case SSubqueryExpr(_, s) =>
    case SOther =>
  }

  lemma {:induction false} BinaryOutcome(ctx: Context, e: SExpr)
    requires IsBinary(e) && SubqueriesBuildable(e)
    ensures BinaryEmit(ctx, e).err.None? <==> Resolves(ctx, e.left) && Resolves(ctx, e.right)
    ensures Yields(BinaryEmit(ctx, e), SValues(e.left) + SValues(e.right))
    decreases e, 0
  {
    ExprOutcome(ctx, e.left);
    ExprOutcome(ctx, e.right);
    SubLikeExpr(ctx, e.left);
    SubLikeExpr(ctx, e.right);
    RightOperandOutcome(ctx, e.right);
    OperandsCombine(SubEmit(ctx, e.left), SValues(e.left), Text(if e.op != "" then " " + e.op else ""),
                    if e.right != SNil then Then(Text(" "), SubEmit(ctx, e.right)) else Text(""), SValues(e.right));
  }

  /** The right operand of a binary expression: absent, or a space and the operand. */
  lemma RightOperandOutcome(ctx: Context, r: SExpr)
    requires SubqueriesBuildable(r)
    requires SubEmit(ctx, r).err.None? <==> Resolves(ctx, r)
    requires Yields(SubEmit(ctx, r), SValues(r))
    ensures var re := if r != SNil then Then(Text(" "), SubEmit(ctx, r)) else Text("");
            (re.err.None? <==> Resolves(ctx, r)) && Yields(re, SValues(r))
  {
    if r != SNil {
      ThenYields(Text(" "), [], SubEmit(ctx, r), SValues(r));
      assert [] + SValues(r) == SValues(r);
    }
  }

  /** Left operand, operator, right operand: the whole succeeds when both
      operands do, and yields their arguments in order. */
  lemma OperandsCombine(l: Emit, vl: seq<Value>, op: Emit, r: Emit, vr: seq<Value>)
    requires Yields(l, vl) && op.err.None? && op.args == [] && Yields(r, vr)
    ensures Then(Then(l, op), r).err.None? <==> l.err.None? && r.err.None?
    ensures Yields(Then(Then(l, op), r), vl + vr)
  {
    ThenYields(l, vl, op, []);
    assert vl + [] == vl;
    ThenYields(Then(l, op), vl, r, vr);
  }

  lemma ThenOk(a: Emit, b: Emit)
    ensures Then(a, b).err.None? <==> a.err.None? && b.err.None?
  {
  }

  lemma {:induction false} AndFoldOutcome(ctx: Context, ps: seq<SExpr>)
    requires |ps| > 0
    ensures SValues(AndFold(ps)) == SValuesAll(ps)
    ensures Resolves(ctx, AndFold(ps)) <==> forall i :: 0 <= i < |ps| ==> Resolves(ctx, ps[i])
  {
    if |ps| == 1 {
      assert ps[..0] == [];
    } else {
      var init := ps[..|ps| - 1];
      AndFoldOutcome(ctx, init);
      assert forall i :: 0 <= i < |init| ==> init[i] == ps[i];
    }
  }

  function SValuesAll(ps: seq<SExpr>): seq<Value>
  {
    if ps == [] then [] else SValuesAll(ps[..|ps| - 1]) + SValues(ps[|ps| - 1])
  }

  /** buildPredicates, as a whole: it succeeds exactly when every predicate
      resolves, and appends their values in list order. */
  lemma PredicatesOutcome(ctx: Context, ps: seq<SExpr>)
    requires |ps| > 0 && forall i :: 0 <= i < |ps| ==> SubqueriesBuildable(ps[i])
    ensures SubqueriesBuildable(AndFold(ps))
    ensures ExprEmit(ctx, AndFold(ps)).err.None? <==> forall i :: 0 <= i < |ps| ==> Resolves(ctx, ps[i])
    ensures Yields(ExprEmit(ctx, AndFold(ps)), SValuesAll(ps))
  {
    AndFoldBuildable(ps);
    ExprOutcome(ctx, AndFold(ps));
    AndFoldOutcome(ctx, ps);
  }

  lemma {:induction false} AndFoldBuildable(ps: seq<SExpr>)
    requires |ps| > 0 && forall i :: 0 <= i < |ps| ==> SubqueriesBuildable(ps[i])
    ensures SubqueriesBuildable(AndFold(ps))
  {
    if |ps| > 1 {
      AndFoldBuildable(ps[..|ps| - 1]);
    }
  }

  // ------------------------------------------------------------ subqueries

  /** A built subquery ending in `;` is written as `(`, the statement without
      that `;`, then `)`, with its arguments; asking for the alias only adds
      ` AS ` and the quoted alias. */
  lemma SubqueryText(ctx: Context, s: Subquery)
    requires s.built.Success? && |s.built.value.sql| > 0
    requires s.built.value.sql[|s.built.value.sql| - 1] == ';'
    ensures SubqueryEmit(ctx, s, false).err == None
    ensures SubqueryEmit(ctx, s, false).args == s.built.value.args
    ensures |SubqueryEmit(ctx, s, false).sql| >= 2
    ensures SubqueryEmit(ctx, s, false).sql[0] == '('
    ensures SubqueryEmit(ctx, s, false).sql[|SubqueryEmit(ctx, s, false).sql| - 1] == ')'
    ensures SubqueryEmit(ctx, s, false).sql[1..|SubqueryEmit(ctx, s, false).sql| - 1] + ";" == s.built.value.sql
    ensures SubqueryEmit(ctx, s, true).sql == SubqueryEmit(ctx, s, false).sql + " AS " + Quoted(ctx.quoter, s.alias)
  {
    var q := s.built.value.sql;
    var inner := q[..|q| - 1];
    var w := SubqueryEmit(ctx, s, false).sql;
    assert w == "(" + inner + ")";
    assert w[1..|w| - 1] == inner;
    assert inner + ";" == q;
  }
}
