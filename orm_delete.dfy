/** The deleter (orm/HW_delete/deleter.go): `DELETE FROM` the table, an
    optional WHERE clause, then `;`. Its expression writer knows columns,
    values and predicates only. */
module HwDelete {
  import opened Wrappers
  import opened OrmErrors
  import opened OrmExpr
  import opened SqlEmit
  import opened OrmRegistry

  // ------------------------------------------------------------ what is written

  /** buildExpression. */
  function ExprEmit(fm: map<string, Field>, e: Expr): Emit
  {
    match e
    case Nil => Text("")
    case ColumnExpr(c) =>
      if c.name in fm then Text("`" + fm[c.name].colName + "`") else Fail(UnknownField(c.name))
    case ValueExpr(v) => Emit("?", [v], None)
    case RawExprE(_) => Fail(UnsupportedExpression)
    case AggregateExpr(_) => Fail(UnsupportedExpression)
    case PredicateExpr(p) =>
      PredicateShape(p.left, ExprEmit(fm, p.left), p.op, p.right, ExprEmit(fm, p.right))
  }

  /** The WHERE clause: present only for a non-empty list, which is folded with And. */
  function WhereEmit(fm: map<string, Field>, ps: seq<Predicate>): Emit
  {
    if |ps| > 0 then Then(Text(" WHERE "), ExprEmit(fm, PredicateExpr(FoldAnd(ps)))) else Text("")
  }

  function BuildEmit(table: string, where: seq<Predicate>, m: Model): Emit
  {
    Then(Then(Text("DELETE FROM " + TableText(table, m.tableName)), WhereEmit(m.fieldMap, where)), Text(";"))
  }

  // ------------------------------------------------------------ the builder

  /** Deleter[T]: the table and predicates set so far, the model found by
      Build, and the text and arguments written so far. */
  class Deleter {
    var table: string
    var where: seq<Predicate>
    var model: Option<Model>
    var sb: string
    var args: seq<Value>

    /** `&Deleter[T]{}`: every field empty. */
    constructor ()
      ensures table == "" && where == [] && model == None && sb == "" && args == []
    {
      table, where, model, sb, args := "", [], None, "", [];
    }

    function Fm(): map<string, Field>
      reads this
      requires model.Some?
    {
      model.value.fieldMap
    }

    method From(t: string) returns (d: Deleter)
      modifies this`table
      ensures d == this && table == t
    {
      table := t;
      d := this;
    }

    method Where(ps: seq<Predicate>) returns (d: Deleter)
      modifies this`where
      ensures d == this && where == ps
    {
      where := ps;
      d := this;
    }

    /** addArg: an empty batch changes nothing. */
    method AddArg(vals: seq<Value>)
      modifies this`args
      ensures args == old(args) + vals
    {
      if |vals| == 0 {
        return;
      }
      args := args + vals;
    }

    method BuildExpression(e: Expr) returns (err: Option<OrmError>)
      requires model.Some?
      modifies this`sb, this`args
      ensures Extends(old(sb), old(args), sb, args, ExprEmit(Fm(), e)) && err == ExprEmit(Fm(), e).err
      decreases e, 1
    {
      match e
      case Nil =>
        assert sb == sb + "" && args == args + [];
        return None;
      case ColumnExpr(c) =>
        if c.name !in model.value.fieldMap {
          assert sb == sb + "" && args == args + [];
          return Some(UnknownField(c.name));
        }
        var field := model.value.fieldMap[c.name];
        sb := sb + ("`" + field.colName + "`");
        assert args == args + [];
        return None;
      case ValueExpr(v) =>
        sb := sb + "?";
        AddArg([v]);
        return None;
      case RawExprE(_) =>
        assert sb == sb + "" && args == args + [];
        return Some(UnsupportedExpression);
      case AggregateExpr(_) =>
        assert sb == sb + "" && args == args + [];
        return Some(UnsupportedExpression);
      case PredicateExpr(p) =>
        err := BuildPredicate(p);
    }

    /** One operand of a predicate, in parentheses when it is itself a predicate. */
    method BuildOperand(paren: bool, e: Expr) returns (err: Option<OrmError>)
      requires model.Some?
      modifies this`sb, this`args
      ensures Extends(old(sb), old(args), sb, args, Wrapped(paren, ExprEmit(Fm(), e)))
      ensures err == Wrapped(paren, ExprEmit(Fm(), e)).err
      decreases e, 2
    {
      if paren {
        ghost var s0, a0 := sb, args;
        sb := sb + "(";
        ghost var s1, a1 := sb, args;
        err := BuildExpression(e);
        ghost var inner := ExprEmit(Fm(), e);
        ExtendsThen(s0, a0, s1, a1, Text("("), sb, args, inner);
        if err.Some? {
          return;
        }
        ghost var s2, a2 := sb, args;
        sb := sb + ")";
        ExtendsThen(s0, a0, s2, a2, Then(Text("("), inner), sb, args, Text(")"));
      } else {
        err := BuildExpression(e);
      }
    }

    /** The Predicate case: left operand, operator, right operand. */
    method BuildPredicate(p: Predicate) returns (err: Option<OrmError>)
      requires model.Some?
      modifies this`sb, this`args
      ensures Extends(old(sb), old(args), sb, args, ExprEmit(Fm(), PredicateExpr(p)))
      ensures err == ExprEmit(Fm(), PredicateExpr(p)).err
      decreases PredicateExpr(p), 0
    {
      ghost var s0, a0 := sb, args;
      err := BuildOperand(p.left.PredicateExpr?, p.left);
      ghost var l := Wrapped(p.left.PredicateExpr?, ExprEmit(Fm(), p.left));
      if err.Some? {
        return;
      }
      ghost var s1, a1 := sb, args;
      if p.op != OpNone {
        sb := sb + (" " + OpString(p.op) + " ");
      } else {
        assert sb == sb + "" && args == args + [];
      }
      ExtendsThen(s0, a0, s1, a1, l, sb, args, OpText(p.op));
      ghost var s2, a2 := sb, args;
      err := BuildOperand(p.right.PredicateExpr?, p.right);
      ExtendsThen(s0, a0, s2, a2, Then(l, OpText(p.op)), sb, args,
                  Wrapped(p.right.PredicateExpr?, ExprEmit(Fm(), p.right)));
    }

    /** The WHERE clause of Build: the keyword, the predicates folded with And,
        then the folded predicate as one expression. */
    method BuildWhere() returns (err: Option<OrmError>)
      requires model.Some?
      modifies this`sb, this`args
      ensures Extends(old(sb), old(args), sb, args, WhereEmit(Fm(), where))
      ensures err == WhereEmit(Fm(), where).err
    {
      var ps := where;
      if |ps| == 0 {
        assert sb == sb + "" && args == args + [];
        return None;
      }
      ghost var s0, a0 := sb, args;
      sb := sb + " WHERE ";
      ghost var s1, a1 := sb, args;
      var p := AndAll(ps);
      err := BuildExpression(PredicateExpr(p));
      ExtendsThen(s0, a0, s1, a1, Text(" WHERE "), sb, args, ExprEmit(Fm(), PredicateExpr(p)));
    }

    /** Build: look the model up (the answer is the parameter), then write the
        statement; an error is returned at once and what was written before it
        stays in sb. */
    method Build(lookup: Result<Model, OrmError>) returns (r: Result<Query, OrmError>)
      modifies this`model, this`sb, this`args
      ensures model == (if lookup.Success? then Some(lookup.value) else None)
      ensures lookup.Failure? ==> r == Failure(lookup.error) && sb == old(sb) && args == old(args)
      ensures lookup.Success? ==>
                && Extends(old(sb), old(args), sb, args, BuildEmit(table, where, lookup.value))
                && r == (if BuildEmit(table, where, lookup.value).err.Some?
                         then Failure(BuildEmit(table, where, lookup.value).err.value)
                         else Success(Query(sb, args)))
    {
      if lookup.Failure? {
        model := None;
        return Failure(lookup.error);
      }
      model := Some(lookup.value);
      ghost var m := lookup.value;
      ghost var s0, a0 := sb, args;
      if table == "" {
        sb := sb + ("DELETE FROM " + "`" + model.value.tableName + "`");
      } else {
        sb := sb + ("DELETE FROM " + table);
      }
      ghost var head := Text("DELETE FROM " + TableText(table, m.tableName));
      assert Extends(s0, a0, sb, args, head);
      ghost var s1, a1 := sb, args;
      var err := BuildWhere();
      ExtendsThen(s0, a0, s1, a1, head, sb, args, WhereEmit(m.fieldMap, where));
      if err.Some? {
        return Failure(err.value);
      }
      s1, a1 := sb, args;
      sb := sb + ";";
      ExtendsThen(s0, a0, s1, a1, Then(head, WhereEmit(m.fieldMap, where)), sb, args, Text(";"));
      return Success(Query(sb, args));
    }
  }

  // ------------------------------------------------------------ properties

  /** An expression succeeds exactly when it holds neither an Aggregate nor a
      RawExpr and every field it names is in the model. A failure names an
      unknown field of the tree, or is the unsupported-expression error of a
      tree holding an Aggregate or a RawExpr.
      On success the arguments are the tree's values, left to right. */
  lemma {:induction false} ExprOutcome(fm: map<string, Field>, e: Expr)
    ensures ExprEmit(fm, e).err.None? <==> OnlyColumnsValues(e) && FieldsOf(e) <= fm.Keys
    ensures ExprEmit(fm, e).err.Some? ==>
              || (ExprEmit(fm, e).err.value.UnknownField?
                  && ExprEmit(fm, e).err.value.name in FieldsOf(e)
                  && ExprEmit(fm, e).err.value.name !in fm.Keys)
              || (ExprEmit(fm, e).err.value == UnsupportedExpression && !OnlyColumnsValues(e))
    ensures Yields(ExprEmit(fm, e), ValuesOf(e))
  {
    match e
    case Nil =>
    case ColumnExpr(c) =>
    case ValueExpr(v) =>
    case RawExprE(r) =>
    case AggregateExpr(a) =>
    case PredicateExpr(p) =>
      ExprOutcome(fm, p.left);
      ExprOutcome(fm, p.right);
      ShapeOutcome(p.left, ExprEmit(fm, p.left), p.op, p.right, ExprEmit(fm, p.right));
  }

  /** Each `?` written comes with one argument. */
  lemma {:induction false} ExprBalanced(fm: map<string, Field>, e: Expr)
    requires PlainColumns(fm)
    ensures Balanced(ExprEmit(fm, e))
  {
    match e
    case Nil =>
      CountQNone("");
    case ColumnExpr(c) =>
      if c.name in fm {
        TextBalanced("`" + fm[c.name].colName + "`");
      }
    case ValueExpr(v) =>
    case RawExprE(r) =>
    case AggregateExpr(a) =>
    case PredicateExpr(p) =>
      ExprBalanced(fm, p.left);
      ExprBalanced(fm, p.right);
      ShapeBalanced(p.left, ExprEmit(fm, p.left), p.op, p.right, ExprEmit(fm, p.right));
  }

  /** The whole statement: it succeeds exactly when WHERE holds only columns
      of the model, values and predicates; a failure names an unknown field or is the
      unsupported-expression error; the arguments are WHERE's values in order. */
  lemma BuildSound(table: string, where: seq<Predicate>, m: Model)
    ensures BuildEmit(table, where, m).err.None? <==> AllOnlyColumnsValues(where) && FieldsOfAll(where) <= m.fieldMap.Keys
    ensures BuildEmit(table, where, m).err.Some? ==>
              || (BuildEmit(table, where, m).err.value.UnknownField?
                  && BuildEmit(table, where, m).err.value.name in FieldsOfAll(where)
                  && BuildEmit(table, where, m).err.value.name !in m.fieldMap.Keys)
              || (BuildEmit(table, where, m).err.value == UnsupportedExpression && !AllOnlyColumnsValues(where))
    ensures Yields(BuildEmit(table, where, m), ValuesOfAll(where))
  {
    if |where| > 0 {
      ExprOutcome(m.fieldMap, PredicateExpr(FoldAnd(where)));
      FoldAndOnlyColumnsValues(where);
      FoldAndFields(where);
      FoldAndValues(where);
    } else {
      assert where == [];
    }
  }

  /** With no `?` in the table or the column names, every `?` of the
      statement has its argument. */
  lemma BuildBalanced(table: string, where: seq<Predicate>, m: Model)
    requires '?' !in TableText(table, m.tableName) && PlainColumns(m.fieldMap)
    ensures Balanced(BuildEmit(table, where, m))
  {
    var fm := m.fieldMap;
    var head := Text("DELETE FROM " + TableText(table, m.tableName));
    if |where| > 0 {
      var p := PredicateExpr(FoldAnd(where));
      ExprBalanced(fm, p);
      TextBalanced(" WHERE ");
      ThenBalanced(Text(" WHERE "), ExprEmit(fm, p));
    } else {
      TextBalanced("");
    }
    TextBalanced("DELETE FROM " + TableText(table, m.tableName));
    TextBalanced(";");
    ThenBalanced(head, WhereEmit(fm, where));
    ThenBalanced(Then(head, WhereEmit(fm, where)), Text(";"));
  }

  /** What Build writes without failing: `DELETE FROM`, the table, the
      WHERE clause only for a non-empty list, and `;` at the end. */
  lemma BuildShape(table: string, where: seq<Predicate>, m: Model)
    ensures "DELETE FROM " + TableText(table, m.tableName) <= BuildEmit(table, where, m).sql
    ensures BuildEmit(table, where, m).err.None? ==>
              BuildEmit(table, where, m).sql[|BuildEmit(table, where, m).sql| - 1] == ';'
    ensures where == [] ==> BuildEmit(table, where, m) == Text("DELETE FROM " + TableText(table, m.tableName) + ";")
  {
    var head := "DELETE FROM " + TableText(table, m.tableName);
    var w := WhereEmit(m.fieldMap, where);
    if w.err.None? {
      assert BuildEmit(table, where, m).sql == head + (w.sql + ";");
    }
    if where == [] {
      assert head + "" == head;
    }
  }

  /** A lone Not(p) in WHERE is written with two spaces before NOT: the
      keyword's own trailing space and the operator's leading one. */
  lemma NotWhere(fm: map<string, Field>, p: Predicate)
    requires ExprEmit(fm, PredicateExpr(p)).err.None?
    ensures WhereEmit(fm, [Not(p)]).err == None
    ensures WhereEmit(fm, [Not(p)]).sql == " WHERE  NOT (" + ExprEmit(fm, PredicateExpr(p)).sql + ")"
    ensures WhereEmit(fm, [Not(p)]).args == ExprEmit(fm, PredicateExpr(p)).args
  {
    var r := ExprEmit(fm, PredicateExpr(p));
    WhereOfNot(fm, p);
    WhereNotText(p, r);
  }

  /** The WHERE clause of [Not(p)] is the keyword, then the Predicate case for Not(p). */
  lemma WhereOfNot(fm: map<string, Field>, p: Predicate)
    ensures WhereEmit(fm, [Not(p)]) ==
              Then(Text(" WHERE "), PredicateShape(Nil, Text(""), OpNot, PredicateExpr(p), ExprEmit(fm, PredicateExpr(p))))
  {
    assert FoldAnd([Not(p)]) == Not(p);
    assert ExprEmit(fm, Nil) == Text("");
  }
}
