/** The SQL the orm/HW_select selector tests expect, derived from the model:
    each `...Example` lemma fixes one test case's statement and arguments for
    the TestModel struct (table `test_model`; fields Id, FirstName, Age,
    LastName). Longer statements are written as the concatenation of the
    pieces the builder writes; read together they are the test's string. */
module HwSelectExamples {
  import opened Wrappers
  import opened OrmErrors
  import opened OrmExpr
  import opened SqlEmit
  import opened OrmRegistry
  import opened HwSelect

  /** The model of TestModel as the registry parses it. */
  function TestModel(): Model
  {
    Model("test_model", map["Id" := Field("id"), "FirstName" := Field("first_name"),
                            "Age" := Field("age"), "LastName" := Field("last_name")])
  }

  /** What the examples use of that model: its table and column names, and
      that it has no field called Invalid. */
  predicate TestColumns(m: Model)
  {
    && m.tableName == "test_model"
    && "Id" in m.fieldMap && m.fieldMap["Id"].colName == "id"
    && "Age" in m.fieldMap && m.fieldMap["Age"].colName == "age"
    && "FirstName" in m.fieldMap && m.fieldMap["FirstName"].colName == "first_name"
    && "LastName" in m.fieldMap && m.fieldMap["LastName"].colName == "last_name"
    && "Invalid" !in m.fieldMap
  }

  lemma TestModelColumns()
    ensures TestColumns(TestModel())
  {
  }

  /** No From, no columns and no clauses: `&Selector[TestModel]{}`. */
  predicate Plain(st: SelectState)
  {
    st.table == "" && st.columns == [] && st.where == [] && st.groupBy == [] && st.having == [] && st.orderBy == []
  }

  /** A clause list that is empty writes nothing. */
  lemma EmptyClauses(st: SelectState, m: Model)
    requires st.where == [] && st.groupBy == [] && st.having == [] && st.orderBy == []
    ensures FilterEmit(st, m) == HeadEmit(st, m)
  {
    var h := HeadEmit(st, m);
    if h.err.None? {
      assert h.sql + "" + "" + "" + "" == h.sql;
      assert h.args + [] + [] + [] + [] == h.args;
    }
  }

  lemma HeadNoColumns(st: SelectState, m: Model, table: string)
    requires st.columns == [] && TableText(st.table, m.tableName) == table
    ensures HeadEmit(st, m) == Text("SELECT * FROM " + table)
  {
    assert "SELECT " + "*" + (" FROM " + table) == "SELECT * FROM " + table;
  }

  /** When every clause succeeds, the statement before OFFSET is the clauses' text in order. */
  lemma FilterParts(st: SelectState, m: Model)
    requires HeadEmit(st, m).err.None?
    requires Clause(m.fieldMap, " WHERE ", st.where).err.None?
    requires GroupByClause(m.fieldMap, st.groupBy).err.None?
    requires Clause(m.fieldMap, " HAVING ", st.having).err.None?
    requires OrderByClause(m.fieldMap, st.orderBy).err.None?
    ensures FilterEmit(st, m).err.None?
    ensures FilterEmit(st, m).sql == HeadEmit(st, m).sql + Clause(m.fieldMap, " WHERE ", st.where).sql
                                     + GroupByClause(m.fieldMap, st.groupBy).sql
                                     + Clause(m.fieldMap, " HAVING ", st.having).sql
                                     + OrderByClause(m.fieldMap, st.orderBy).sql
    ensures FilterEmit(st, m).args == HeadEmit(st, m).args + Clause(m.fieldMap, " WHERE ", st.where).args
                                      + GroupByClause(m.fieldMap, st.groupBy).args
                                      + Clause(m.fieldMap, " HAVING ", st.having).args
                                      + OrderByClause(m.fieldMap, st.orderBy).args
  {
  }

  lemma TailParts(st: SelectState, m: Model)
    requires FilterEmit(st, m).err.None?
    ensures BuildEmit(st, m).err.None?
    ensures BuildEmit(st, m).sql == FilterEmit(st, m).sql + (if st.offset > 0 then " OFFSET ?" else "")
                                    + (if st.limit > 0 then " LIMIT ?" else "") + ";"
    ensures BuildEmit(st, m).args == FilterEmit(st, m).args + CountArgs(st.offset) + CountArgs(st.limit)
  {
  }

  lemma OffsetLimitExample(st: SelectState, m: Model)
    requires TestColumns(m) && Plain(st) && st.offset == 10 && st.limit == 10
    ensures BuildEmit(st, m).sql == "SELECT * FROM " + "`test_model`" + " OFFSET ?" + " LIMIT ?" + ";"
    ensures BuildEmit(st, m).args == [IntValue(10), IntValue(10)]
    ensures BuildEmit(st, m).err == None
  {
    HeadNoColumns(st, m, "`test_model`");
    EmptyClauses(st, m);
    TailParts(st, m);
  }

  /** "invalid column": grouping by a field the model does not have fails with
      that field's name. */
  lemma InvalidGroupByExample(st: SelectState, m: Model)
    requires TestColumns(m) && st.table == "" && st.columns == [] && st.where == []
    requires st.groupBy == [C("Invalid")]
    ensures BuildEmit(st, m).err == Some(UnknownField("Invalid"))
  {
    HeadNoColumns(st, m, "`test_model`");
    assert GroupByClause(m.fieldMap, st.groupBy).err == Some(UnknownField("Invalid")) by {
      assert st.groupBy[..0] == [];
      assert ColumnEmit(m.fieldMap, "Invalid", "") == Fail(UnknownField("Invalid"));
      assert GroupByEmit(m.fieldMap, st.groupBy).err == Some(UnknownField("Invalid"));
    }
  }

  // ------------------------------------------------------------ pieces of the statements

  /** A known field is written as its backquoted column name. */
  lemma ColumnText(fm: map<string, Field>, name: string, col: string)
    requires name in fm && fm[name].colName == col
    ensures ColumnEmit(fm, name, "") == Text("`" + col + "`")
  {
  }

  /** `C(name).Eq(v)` is written as the column, ` = ` and a placeholder for v. */
  lemma EqText(fm: map<string, Field>, name: string, col: string, v: Value)
    requires name in fm && fm[name].colName == col
    ensures ExprEmit(fm, PredicateExpr(ColumnCompare(C(name), OpEq, v))).err == None
    ensures ExprEmit(fm, PredicateExpr(ColumnCompare(C(name), OpEq, v))).sql == "`" + col + "` = ?"
    ensures ExprEmit(fm, PredicateExpr(ColumnCompare(C(name), OpEq, v))).args == [v]
  {
    var p := ColumnCompare(C(name), OpEq, v);
    ColumnText(fm, name, col);
    assert ExprEmit(fm, p.left) == Text("`" + col + "`");
    assert ExprEmit(fm, p.right) == Emit("?", [v], None);
    assert ("`" + col + "`" + " = ") + "?" == "`" + col + "` = ?";
  }

  /** Two predicates joined by a binary operator: each in parentheses, the
      operator between them with a space on each side. */
  lemma JoinedText(p: Predicate, a: Emit, op: Op, q: Predicate, b: Emit)
    requires a.err.None? && b.err.None? && op != OpNone
    ensures PredicateShape(PredicateExpr(p), a, op, PredicateExpr(q), b).err == None
    ensures PredicateShape(PredicateExpr(p), a, op, PredicateExpr(q), b).sql
            == "(" + a.sql + ") " + OpString(op) + " (" + b.sql + ")"
    ensures PredicateShape(PredicateExpr(p), a, op, PredicateExpr(q), b).args == a.args + b.args
  {
    var l := Wrapped(true, a);
    assert l.sql == "(" + a.sql + ")" && l.err == None;
    assert l.args == a.args by { assert [] + a.args + [] == a.args; }
    var r := Wrapped(true, b);
    assert r.sql == "(" + b.sql + ")" && r.err == None;
    assert r.args == b.args by { assert [] + b.args + [] == b.args; }
    assert ("(" + a.sql + ")" + (" " + OpString(op) + " ")) + ("(" + b.sql + ")")
           == "(" + a.sql + ") " + OpString(op) + " (" + b.sql + ")";
    assert a.args + [] + b.args == a.args + b.args;
  }

  /** `Not(p)`: nothing on the left, ` NOT `, then p in parentheses. */
  lemma NotText(p: Predicate, b: Emit)
    requires b.err.None?
    ensures PredicateShape(Nil, Text(""), OpNot, PredicateExpr(p), b) == Emit(" NOT (" + b.sql + ")", b.args, None)
  {
    assert "" + " NOT " + ("(" + b.sql + ")") == " NOT (" + b.sql + ")";
    assert [] + [] + ([] + b.args + []) == b.args;
  }

  /** WHERE or HAVING over one predicate: the keyword, then the predicate. */
  lemma OneClause(fm: map<string, Field>, keyword: string, p: Predicate, e: Emit)
    requires ExprEmit(fm, PredicateExpr(p)) == e && e.err.None?
    ensures Clause(fm, keyword, [p]) == Emit(keyword + e.sql, e.args, None)
  {
    assert FoldAnd([p]) == p;
  }

  /** WHERE or HAVING over two predicates: they are joined with AND. */
  lemma TwoClause(fm: map<string, Field>, keyword: string, p: Predicate, q: Predicate)
    ensures Clause(fm, keyword, [p, q]) == Then(Text(keyword), ExprEmit(fm, PredicateExpr(AndP(p, q))))
  {
    assert [p, q][..1] == [p];
    assert FoldAnd([p, q]) == AndP(p, q);
  }

  /** Without OFFSET and LIMIT the statement is the clauses and `;`. */
  lemma NoCounts(st: SelectState, m: Model)
    requires st.offset == 0 && st.limit == 0 && FilterEmit(st, m).err.None?
    ensures BuildEmit(st, m) == Emit(FilterEmit(st, m).sql + ";", FilterEmit(st, m).args, None)
  {
    var f := FilterEmit(st, m);
    assert Then(f, CountClause(" OFFSET ?", st.offset)) == f by {
      assert f.sql + "" == f.sql && f.args + [] == f.args;
    }
  }

  /** A statement without OFFSET and LIMIT is the head, the four clauses in
      order and `;`, with the arguments of the clauses in the same order. */
  lemma Assembled(st: SelectState, m: Model, head: string, w: Emit, g: Emit, h: Emit, o: Emit)
    requires st.offset == 0 && st.limit == 0 && HeadEmit(st, m) == Text(head)
    requires Clause(m.fieldMap, " WHERE ", st.where) == w && w.err.None?
    requires GroupByClause(m.fieldMap, st.groupBy) == g && g.err.None?
    requires Clause(m.fieldMap, " HAVING ", st.having) == h && h.err.None?
    requires OrderByClause(m.fieldMap, st.orderBy) == o && o.err.None?
    ensures BuildEmit(st, m) == Emit(head + w.sql + g.sql + h.sql + o.sql + ";", w.args + g.args + h.args + o.args, None)
  {
    FilterParts(st, m);
    NoCounts(st, m);
    var f := FilterEmit(st, m);
    assert f.sql == head + w.sql + g.sql + h.sql + o.sql;
    assert f.args == w.args + g.args + h.args + o.args by {
      assert [] + w.args == w.args;
    }
  }

  /** The GROUP BY clause of `GroupBy(C("Age"), C("FirstName"))`. */
  lemma GroupByAgeFirstName(m: Model)
    requires TestColumns(m)
    ensures GroupByClause(m.fieldMap, [C("Age"), C("FirstName")]) == Text(" GROUP BY `age`,`first_name`")
  {
    var fm := m.fieldMap;
    ColumnText(fm, "Age", "age");
    ColumnText(fm, "FirstName", "first_name");
    assert [C("Age"), C("FirstName")][..1] == [C("Age")];
    assert GroupByEmit(fm, [C("Age")]) == Text("`age`");
    assert " GROUP BY " + ("`age`" + ("," + "`first_name`")) == " GROUP BY `age`,`first_name`";
  }

  /** `GROUP BY C("Age"), C("FirstName")`. */
  lemma GroupByMultipleExample(st: SelectState, m: Model)
    requires TestColumns(m) && st == SelectState("", [], [], [C("Age"), C("FirstName")], [], [], 0, 0)
    ensures BuildEmit(st, m) == Text("SELECT * FROM " + "`test_model`" + " GROUP BY `age`,`first_name`" + ";")
  {
    var head, g := "SELECT * FROM " + "`test_model`", " GROUP BY `age`,`first_name`";
    HeadNoColumns(st, m, "`test_model`");
    GroupByAgeFirstName(m);
    Assembled(st, m, head, Text(""), Text(g), Text(""), Text(""));
    assert head + "" == head && head + g + "" == head + g;
  }

  /** The GROUP BY clause of `GroupBy(C("Age"))`. */
  lemma GroupByAge(m: Model)
    requires TestColumns(m)
    ensures GroupByClause(m.fieldMap, [C("Age")]) == Text(" GROUP BY `age`")
  {
    ColumnText(m.fieldMap, "Age", "age");
    assert [C("Age")][..0] == [];
    assert " GROUP BY " + ("" + ("" + "`age`")) == " GROUP BY `age`";
  }

  /** The ORDER BY clause of `OrderBy(Asc("Age"), Desc("Id"))`. */
  lemma OrderByAgeId(m: Model)
    requires TestColumns(m)
    ensures OrderByClause(m.fieldMap, [Asc("Age"), Desc("Id")]) == Text(" ORDER BY " + ("`age`" + " ASC" + "," + ("`id`" + " DESC")))
  {
    var fm := m.fieldMap;
    ColumnText(fm, "Age", "age");
    ColumnText(fm, "Id", "id");
    assert "`" + "age" + "`" == "`age`" && "`" + "id" + "`" == "`id`";
    assert [Asc("Age"), Desc("Id")][..1] == [Asc("Age")];
    assert [Asc("Age")][..0] == [];
    assert OrderByEmit(fm, [Asc("Age")]) == Text("`age`" + " ASC") by {
      assert "" + ("" + ("`age`" + " ASC")) == "`age`" + " ASC";
    }
  }

  /** The HAVING clause of `Having(C("LastName").Eq("Jared"), C("FirstName").Eq("Wang"))`. */
  lemma HavingLastFirst(m: Model)
    requires TestColumns(m)
    ensures Clause(m.fieldMap, " HAVING ", [ColumnEq(C("LastName"), StringValue("Jared")), ColumnEq(C("FirstName"), StringValue("Wang"))])
            == Emit(" HAVING " + ("(" + ("`" + "last_name" + "` = ?") + ") " + "AND" + " (" + ("`" + "first_name" + "` = ?") + ")"),
                    [StringValue("Jared"), StringValue("Wang")], None)
  {
    var fm := m.fieldMap;
    var p, q := ColumnEq(C("LastName"), StringValue("Jared")), ColumnEq(C("FirstName"), StringValue("Wang"));
    TwoClause(fm, " HAVING ", p, q);
    EqText(fm, "LastName", "last_name", StringValue("Jared"));
    EqText(fm, "FirstName", "first_name", StringValue("Wang"));
    var a, b := ExprEmit(fm, PredicateExpr(p)), ExprEmit(fm, PredicateExpr(q));
    JoinedText(p, a, OpAnd, q, b);
    assert ExprEmit(fm, PredicateExpr(AndP(p, q))) == PredicateShape(PredicateExpr(p), a, OpAnd, PredicateExpr(q), b);
  }

  /** The HAVING clause of `Having(Avg("Age").Eq(18))`. */
  lemma HavingAvgAge(m: Model)
    requires TestColumns(m)
    ensures Clause(m.fieldMap, " HAVING ", [AggregateEq(Avg("Age"), IntValue(18))])
            == Emit(" HAVING " + ("AVG(`age`)" + " = " + "?"), [IntValue(18)], None)
  {
    var fm := m.fieldMap;
    var p := AggregateEq(Avg("Age"), IntValue(18));
    assert p == Predicate(AggregateExpr(Avg("Age")), OpEq, ValueExpr(IntValue(18)));
    assert ExprEmit(fm, p.left) == Text("AVG(`age`)") by {
      assert "AVG" + "(`" + ("age" + "`)" + "") == "AVG(`age`)";
    }
    assert ExprEmit(fm, p.right) == Emit("?", [IntValue(18)], None);
    assert OpText(OpEq) == Text(" = ");
    OneClause(fm, " HAVING ", p, Emit("AVG(`age`)" + " = " + "?", [IntValue(18)], None));
  }

  /** `Avg("Age").Eq(nil)`: nil is not an Expression, so it is written as a
      placeholder and passed as the argument, like any other value. */
  lemma AvgEqNilText(m: Model)
    requires TestColumns(m)
    ensures ExprEmit(m.fieldMap, PredicateExpr(AggregateEq(Avg("Age"), Boxed(Nil))))
            == Emit("AVG(`age`)" + " = " + "?", [Boxed(Nil)], None)
  {
    var fm := m.fieldMap;
    var p := AggregateEq(Avg("Age"), Boxed(Nil));
    assert p == Predicate(AggregateExpr(Avg("Age")), OpEq, ValueExpr(Boxed(Nil)));
    assert ExprEmit(fm, p.left) == Text("AVG(`age`)") by {
      assert "AVG" + "(`" + ("age" + "`)" + "") == "AVG(`age`)";
    }
    assert ExprEmit(fm, p.right) == Emit("?", [Boxed(Nil)], None);
    assert OpText(OpEq) == Text(" = ");
  }

  /** The WHERE clause of `Where(C("Id").Eq(1).Or(C("Id").Eq(12)))`. */
  lemma WhereIdOrId(m: Model)
    requires TestColumns(m)
    ensures Clause(m.fieldMap, " WHERE ", [OrP(ColumnEq(C("Id"), IntValue(1)), ColumnEq(C("Id"), IntValue(12)))])
            == Emit(" WHERE " + ("(" + "`id` = ?" + ") " + "OR" + " (" + "`id` = ?" + ")"), [IntValue(1), IntValue(12)], None)
  {
    var fm := m.fieldMap;
    var p, q := ColumnEq(C("Id"), IntValue(1)), ColumnEq(C("Id"), IntValue(12));
    EqText(fm, "Id", "id", IntValue(1));
    EqText(fm, "Id", "id", IntValue(12));
    assert "`" + "id" + "` = ?" == "`id` = ?";
    var a, b := ExprEmit(fm, PredicateExpr(p)), ExprEmit(fm, PredicateExpr(q));
    JoinedText(p, a, OpOr, q, b);
    var e := ExprEmit(fm, PredicateExpr(OrP(p, q)));
    assert e == PredicateShape(PredicateExpr(p), a, OpOr, PredicateExpr(q), b);
    OneClause(fm, " WHERE ", OrP(p, q), e);
  }

  /** The WHERE clause of `Where(Not(C("Id").Eq(1)))`: Go writes the keyword's
      trailing space and then the operator's leading one. */
  lemma WhereNotId(m: Model)
    requires TestColumns(m)
    ensures Clause(m.fieldMap, " WHERE ", [Not(ColumnEq(C("Id"), IntValue(1)))])
            == Emit(" WHERE " + (" NOT (" + "`id` = ?" + ")"), [IntValue(1)], None)
  {
    var fm := m.fieldMap;
    var p := ColumnEq(C("Id"), IntValue(1));
    EqText(fm, "Id", "id", IntValue(1));
    assert "`" + "id" + "` = ?" == "`id` = ?";
    NotText(p, ExprEmit(fm, PredicateExpr(p)));
    var e := ExprEmit(fm, PredicateExpr(Not(p)));
    assert Not(p) == Predicate(Nil, OpNot, PredicateExpr(p));
    assert ExprEmit(fm, Nil) == Text("");
    assert e == PredicateShape(Nil, Text(""), OpNot, PredicateExpr(p), ExprEmit(fm, PredicateExpr(p)));
    OneClause(fm, " WHERE ", Not(p), e);
  }

  /** `OrderBy(Asc("Age"), Desc("Id"))`. */
  lemma OrderByColumnsExample(st: SelectState, m: Model)
    requires TestColumns(m) && st == SelectState("", [], [], [], [], [Asc("Age"), Desc("Id")], 0, 0)
    ensures BuildEmit(st, m) == Text("SELECT * FROM " + "`test_model`" + (" ORDER BY " + ("`age`" + " ASC" + "," + ("`id`" + " DESC"))) + ";")
  {
    var head := "SELECT * FROM " + "`test_model`";
    HeadNoColumns(st, m, "`test_model`");
    OrderByAgeId(m);
    Assembled(st, m, head, Text(""), Text(""), Text(""), Text(" ORDER BY " + ("`age`" + " ASC" + "," + ("`id`" + " DESC"))));
    assert head + "" + "" + "" == head;
  }

  /** `GroupBy(C("Age")).Having(C("LastName").Eq("Jared"), C("FirstName").Eq("Wang"))`. */
  lemma HavingMultipleExample(st: SelectState, m: Model)
    requires TestColumns(m)
    requires st == SelectState("", [], [], [C("Age")],
                               [ColumnEq(C("LastName"), StringValue("Jared")), ColumnEq(C("FirstName"), StringValue("Wang"))],
                               [], 0, 0)
    ensures BuildEmit(st, m) == Emit("SELECT * FROM " + "`test_model`" + " GROUP BY `age`"
                                     + (" HAVING " + ("(" + ("`" + "last_name" + "` = ?") + ") " + "AND" + " (" + ("`" + "first_name" + "` = ?") + ")")) + ";",
                                     [StringValue("Jared"), StringValue("Wang")], None)
  {
    var head, g := "SELECT * FROM " + "`test_model`", " GROUP BY `age`";
    var h := " HAVING " + ("(" + ("`" + "last_name" + "` = ?") + ") " + "AND" + " (" + ("`" + "first_name" + "` = ?") + ")");
    var args := [StringValue("Jared"), StringValue("Wang")];
    HeadNoColumns(st, m, "`test_model`");
    GroupByAge(m);
    HavingLastFirst(m);
    Assembled(st, m, head, Text(""), Text(g), Emit(h, args, None), Text(""));
    assert head + "" == head && head + g + h + "" == head + g + h;
    assert [] + [] + args + [] == args;
  }

  /** `GroupBy(C("Age")).Having(Avg("Age").Eq(18))`. */
  lemma HavingAvgExample(st: SelectState, m: Model)
    requires TestColumns(m)
    requires st == SelectState("", [], [], [C("Age")], [AggregateEq(Avg("Age"), IntValue(18))], [], 0, 0)
    ensures BuildEmit(st, m) == Emit("SELECT * FROM " + "`test_model`" + " GROUP BY `age`"
                                     + (" HAVING " + ("AVG(`age`)" + " = " + "?")) + ";", [IntValue(18)], None)
  {
    var head, g, h := "SELECT * FROM " + "`test_model`", " GROUP BY `age`", " HAVING " + ("AVG(`age`)" + " = " + "?");
    HeadNoColumns(st, m, "`test_model`");
    GroupByAge(m);
    HavingAvgAge(m);
    Assembled(st, m, head, Text(""), Text(g), Emit(h, [IntValue(18)], None), Text(""));
    assert head + "" == head && head + g + h + "" == head + g + h;
    assert [] + [] + [IntValue(18)] + [] == [IntValue(18)];
  }

  /** `From("`test_db`.`test_table`")`: the table is written as given. */
  lemma FromDbExample(st: SelectState, m: Model)
    requires st == SelectState("`test_db`.`test_table`", [], [], [], [], [], 0, 0)
    ensures BuildEmit(st, m) == Text("SELECT * FROM " + "`test_db`.`test_table`" + ";")
  {
    HeadNoColumns(st, m, "`test_db`.`test_table`");
    EmptyClauses(st, m);
    NoCounts(st, m);
  }

  /** `From("`test_table`").Where(C("Id").Eq(1).Or(C("Id").Eq(12)))`. */
  lemma OrExample(st: SelectState, m: Model)
    requires TestColumns(m)
    requires st == SelectState("`test_table`", [], [OrP(ColumnEq(C("Id"), IntValue(1)), ColumnEq(C("Id"), IntValue(12)))], [], [], [], 0, 0)
    ensures BuildEmit(st, m) == Emit("SELECT * FROM " + "`test_table`"
                                     + (" WHERE " + ("(" + "`id` = ?" + ") " + "OR" + " (" + "`id` = ?" + ")")) + ";",
                                     [IntValue(1), IntValue(12)], None)
  {
    var head, w := "SELECT * FROM " + "`test_table`", " WHERE " + ("(" + "`id` = ?" + ") " + "OR" + " (" + "`id` = ?" + ")");
    var args := [IntValue(1), IntValue(12)];
    HeadNoColumns(st, m, "`test_table`");
    WhereIdOrId(m);
    Assembled(st, m, head, Emit(w, args, None), Text(""), Text(""), Text(""));
    assert head + w + "" + "" + "" == head + w;
    assert args + [] + [] + [] == args;
  }

  /** `From("`test_table`").Where(Not(C("Id").Eq(1)))`: two spaces before NOT. */
  lemma NotExample(st: SelectState, m: Model)
    requires TestColumns(m)
    requires st == SelectState("`test_table`", [], [Not(ColumnEq(C("Id"), IntValue(1)))], [], [], [], 0, 0)
    ensures BuildEmit(st, m) == Emit("SELECT * FROM " + "`test_table`" + (" WHERE " + (" NOT (" + "`id` = ?" + ")")) + ";",
                                     [IntValue(1)], None)
  {
    var head, w := "SELECT * FROM " + "`test_table`", " WHERE " + (" NOT (" + "`id` = ?" + ")");
    HeadNoColumns(st, m, "`test_table`");
    WhereNotId(m);
    Assembled(st, m, head, Emit(w, [IntValue(1)], None), Text(""), Text(""), Text(""));
    assert head + w + "" + "" + "" == head + w;
    assert [IntValue(1)] + [] + [] + [] == [IntValue(1)];
  }
}
