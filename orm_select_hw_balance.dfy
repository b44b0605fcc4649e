/** Placeholders and arguments of the orm/HW_select builder: every `?` it
    writes comes with exactly one argument, provided that nothing it copies
    verbatim (table, column names, aliases, function names, ordering keywords)
    holds a `?` of its own and that every raw fragment carries one argument
    per `?` in its text. */
module HwSelectBalance {
  import opened Wrappers
  import opened OrmExpr
  import opened SqlEmit
  import opened OrmRegistry
  import opened HwSelect

  /** Within a WHERE or HAVING tree: an aggregate's function name (its alias
      is not written there) and a raw fragment's placeholders. */
  predicate ExprPlain(e: Expr)
  {
    match e
    case AggregateExpr(a) => '?' !in a.fn
    case RawExprE(r) => CountQ(r.raw) == |r.args|
    case PredicateExpr(p) => ExprPlain(p.left) && ExprPlain(p.right)
    case _ => true
  }

  predicate AllExprPlain(ps: seq<Predicate>)
  {
    forall i :: 0 <= i < |ps| ==> ExprPlain(PredicateExpr(ps[i]))
  }

  /** A select-list entry: the aliases and function names it writes. */
  predicate SelectablePlain(c: Selectable)
  {
    match c
    case SelectColumn(col) => '?' !in col.alias
    case SelectAggregate(a) => '?' !in a.fn && '?' !in a.alias
    case SelectRaw(r) => CountQ(r.raw) == |r.args|
  }

  predicate AllSelectablePlain(cols: seq<Selectable>)
  {
    forall i :: 0 <= i < |cols| ==> SelectablePlain(cols[i])
  }

  predicate AllOrdersPlain(obs: seq<OrderBy>)
  {
    forall i :: 0 <= i < |obs| ==> '?' !in obs[i].order
  }

  /** Everything the statement copies verbatim is free of `?`. */
  predicate PlainStatement(st: SelectState, m: Model)
  {
    && PlainColumns(m.fieldMap)
    && '?' !in TableText(st.table, m.tableName)
    && AllSelectablePlain(st.columns)
    && AllExprPlain(st.where) && AllExprPlain(st.having)
    && AllOrdersPlain(st.orderBy)
  }

  lemma ColumnBalanced(fm: map<string, Field>, name: string, alias: string)
    requires PlainColumns(fm) && '?' !in alias
    ensures Balanced(ColumnEmit(fm, name, alias))
  {
    if name in fm {
      TextBalanced("`" + fm[name].colName + "`" + AsText(alias));
    }
  }

  lemma AggregateBalanced(fm: map<string, Field>, a: Aggregate, aliasUsed: bool)
    requires PlainColumns(fm) && '?' !in a.fn && (aliasUsed ==> '?' !in a.alias)
    ensures Balanced(AggregateEmit(fm, a, aliasUsed))
  {
    TextBalanced(a.fn + "(`");
    if a.arg in fm {
      TextBalanced(fm[a.arg].colName + "`)" + (if aliasUsed then AsText(a.alias) else ""));
      ThenBalanced(Text(a.fn + "(`"), Text(fm[a.arg].colName + "`)" + (if aliasUsed then AsText(a.alias) else "")));
    } else {
      ThenBalanced(Text(a.fn + "(`"), Fail(OrmErrors.UnknownField(a.arg)));
    }
  }

  /** One placeholder, one argument. */
  lemma PlaceholderBalanced(v: Value)
    ensures Balanced(Emit("?", [v], None))
  {
    assert "?"[..0] == "";
  }

  lemma {:induction false} ExprBalanced(fm: map<string, Field>, e: Expr)
    requires PlainColumns(fm) && ExprPlain(e)
    ensures Balanced(ExprEmit(fm, e))
  {
    match e
    case Nil => TextBalanced("");
    case ColumnExpr(c) => ColumnBalanced(fm, c.name, "");
    case AggregateExpr(a) => AggregateBalanced(fm, a, false);
    case ValueExpr(v) => PlaceholderBalanced(v);
    case RawExprE(r) =>
    case PredicateExpr(p) =>
      ExprBalanced(fm, p.left);
      ExprBalanced(fm, p.right);
      ShapeBalanced(p.left, ExprEmit(fm, p.left), p.op, p.right, ExprEmit(fm, p.right));
  }

  lemma {:induction false} FoldAndPlain(ps: seq<Predicate>)
    requires |ps| > 0 && AllExprPlain(ps)
    ensures ExprPlain(PredicateExpr(FoldAnd(ps)))
  {
    if |ps| > 1 {
      assert AllExprPlain(ps[..|ps| - 1]) by {
        assert forall i :: 0 <= i < |ps| - 1 ==> ps[..|ps| - 1][i] == ps[i];
      }
      FoldAndPlain(ps[..|ps| - 1]);
    }
  }

  /** WHERE and HAVING. */
  lemma ClauseBalanced(fm: map<string, Field>, keyword: string, ps: seq<Predicate>)
    requires PlainColumns(fm) && '?' !in keyword && AllExprPlain(ps)
    ensures Balanced(Clause(fm, keyword, ps))
  {
    TextBalanced("");
    if |ps| > 0 {
      FoldAndPlain(ps);
      ExprBalanced(fm, PredicateExpr(FoldAnd(ps)));
      TextBalanced(keyword);
      ThenBalanced(Text(keyword), PredicatesEmit(fm, ps));
    }
  }

  lemma SelectableBalanced(fm: map<string, Field>, c: Selectable)
    requires PlainColumns(fm) && SelectablePlain(c)
    ensures Balanced(SelectableEmit(fm, c))
  {
    match c
    case SelectColumn(col) => ColumnBalanced(fm, col.name, col.alias);
    case SelectAggregate(a) => AggregateBalanced(fm, a, true);
    case SelectRaw(r) =>
  }

  lemma SepBalanced(i: nat)
    ensures Balanced(Sep(i))
  {
    TextBalanced(if i > 0 then "," else "");
  }

  lemma {:induction false} SelectListBalanced(fm: map<string, Field>, cols: seq<Selectable>)
    requires PlainColumns(fm) && AllSelectablePlain(cols)
    ensures Balanced(SelectListEmit(fm, cols))
    decreases |cols|
  {
    if cols == [] {
      TextBalanced("");
    } else {
      var init, last := cols[..|cols| - 1], cols[|cols| - 1];
      assert AllSelectablePlain(init) by {
        assert forall i :: 0 <= i < |init| ==> init[i] == cols[i];
      }
      SelectListBalanced(fm, init);
      SepBalanced(|cols| - 1);
      SelectableBalanced(fm, last);
      ThenBalanced(Sep(|cols| - 1), SelectableEmit(fm, last));
      ThenBalanced(SelectListEmit(fm, init), Then(Sep(|cols| - 1), SelectableEmit(fm, last)));
    }
  }

  lemma {:induction false} GroupByBalanced(fm: map<string, Field>, cols: seq<Column>)
    requires PlainColumns(fm)
    ensures Balanced(GroupByEmit(fm, cols))
    decreases |cols|
  {
    if cols == [] {
      TextBalanced("");
    } else {
      var init, last := cols[..|cols| - 1], cols[|cols| - 1];
      GroupByBalanced(fm, init);
      SepBalanced(|cols| - 1);
      ColumnBalanced(fm, last.name, "");
      ThenBalanced(Sep(|cols| - 1), ColumnEmit(fm, last.name, ""));
      ThenBalanced(GroupByEmit(fm, init), Then(Sep(|cols| - 1), ColumnEmit(fm, last.name, "")));
    }
  }

  lemma OrderTermBalanced(fm: map<string, Field>, o: OrderBy)
    requires PlainColumns(fm) && '?' !in o.order
    ensures Balanced(OrderTermEmit(fm, o))
  {
    ColumnBalanced(fm, o.col, "");
    TextBalanced(" " + o.order);
    ThenBalanced(ColumnEmit(fm, o.col, ""), Text(" " + o.order));
  }

  lemma {:induction false} OrderByBalanced(fm: map<string, Field>, obs: seq<OrderBy>)
    requires PlainColumns(fm) && AllOrdersPlain(obs)
    ensures Balanced(OrderByEmit(fm, obs))
    decreases |obs|
  {
    if obs == [] {
      TextBalanced("");
    } else {
      var init, last := obs[..|obs| - 1], obs[|obs| - 1];
      assert AllOrdersPlain(init) by {
        assert forall i :: 0 <= i < |init| ==> init[i] == obs[i];
      }
      OrderByBalanced(fm, init);
      SepBalanced(|obs| - 1);
      OrderTermBalanced(fm, last);
      ThenBalanced(Sep(|obs| - 1), OrderTermEmit(fm, last));
      ThenBalanced(OrderByEmit(fm, init), Then(Sep(|obs| - 1), OrderTermEmit(fm, last)));
    }
  }

  /** OFFSET ? and LIMIT ?: one placeholder with the number as its argument. */
  lemma CountBalanced(keyword: string, n: int)
    requires CountQ(keyword) == 1
    ensures Balanced(CountClause(keyword, n))
  {
    TextBalanced("");
  }

  lemma KeywordsHaveOnePlaceholder()
    ensures CountQ(" OFFSET ?") == 1 && CountQ(" LIMIT ?") == 1
  {
    CountQConcat(" OFFSET ", "?");
    CountQNone(" OFFSET ");
    assert " OFFSET ?" == " OFFSET " + "?";
    CountQConcat(" LIMIT ", "?");
    CountQNone(" LIMIT ");
    assert " LIMIT ?" == " LIMIT " + "?";
    assert "?"[..0] == "";
  }

  lemma HeadBalanced(st: SelectState, m: Model)
    requires PlainStatement(st, m)
    ensures Balanced(HeadEmit(st, m))
  {
    var fm := m.fieldMap;
    TextBalanced("SELECT ");
    if |st.columns| == 0 {
      TextBalanced("*");
    } else {
      SelectListBalanced(fm, st.columns);
    }
    TextBalanced(" FROM " + TableText(st.table, m.tableName));
    ThenBalanced(Text("SELECT "), ColumnsEmit(fm, st.columns));
    ThenBalanced(Then(Text("SELECT "), ColumnsEmit(fm, st.columns)), Text(" FROM " + TableText(st.table, m.tableName)));
  }

  lemma FilterBalanced(st: SelectState, m: Model)
    requires PlainStatement(st, m)
    ensures Balanced(FilterEmit(st, m))
  {
    var fm := m.fieldMap;
    HeadBalanced(st, m);
    ClauseBalanced(fm, " WHERE ", st.where);
    ClauseBalanced(fm, " HAVING ", st.having);
    TextBalanced("");
    if |st.groupBy| > 0 {
      TextBalanced(" GROUP BY ");
      GroupByBalanced(fm, st.groupBy);
      ThenBalanced(Text(" GROUP BY "), GroupByEmit(fm, st.groupBy));
    }
    if |st.orderBy| > 0 {
      TextBalanced(" ORDER BY ");
      OrderByBalanced(fm, st.orderBy);
      ThenBalanced(Text(" ORDER BY "), OrderByEmit(fm, st.orderBy));
    }
    var e1 := Then(HeadEmit(st, m), Clause(fm, " WHERE ", st.where));
    ThenBalanced(HeadEmit(st, m), Clause(fm, " WHERE ", st.where));
    ThenBalanced(e1, GroupByClause(fm, st.groupBy));
    var e2 := Then(e1, GroupByClause(fm, st.groupBy));
    ThenBalanced(e2, Clause(fm, " HAVING ", st.having));
    ThenBalanced(Then(e2, Clause(fm, " HAVING ", st.having)), OrderByClause(fm, st.orderBy));
  }

  /** Every `?` of the built statement has its argument. With no raw fragment
      in it, that makes the number of `?` the length of Args. */
  lemma BuildBalanced(st: SelectState, m: Model)
    requires PlainStatement(st, m)
    ensures Balanced(BuildEmit(st, m))
  {
    FilterBalanced(st, m);
    KeywordsHaveOnePlaceholder();
    CountBalanced(" OFFSET ?", st.offset);
    CountBalanced(" LIMIT ?", st.limit);
    TextBalanced(";");
    var f := FilterEmit(st, m);
    ThenBalanced(f, CountClause(" OFFSET ?", st.offset));
    ThenBalanced(Then(f, CountClause(" OFFSET ?", st.offset)), CountClause(" LIMIT ?", st.limit));
    ThenBalanced(Then(Then(f, CountClause(" OFFSET ?", st.offset)), CountClause(" LIMIT ?", st.limit)), Text(";"));
  }
}
