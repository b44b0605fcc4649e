/** The SELECT builder of orm/HW_select: selected columns and aggregates, FROM,
    WHERE, GROUP BY, HAVING, ORDER BY, OFFSET and LIMIT. `Selector` keeps the
    Go struct's fields and appends to `sb` and `args` as the Go code does; the
    functions beside it say what each step appends. */
module HwSelect {
  import opened Wrappers
  import opened OrmErrors
  import opened OrmExpr
  import opened SqlEmit
  import opened OrmRegistry

  // ------------------------------------------------------------ what is written

  /** buildAs: ` AS `alias`` for a non-empty alias, nothing otherwise. */
  function AsText(alias: string): string
  {
    if alias != "" then " AS `" + alias + "`" else ""
  }

  /** buildColumn: the backquoted column name of a known field, then the alias. */
  function ColumnEmit(fm: map<string, Field>, name: string, alias: string): Emit
  {
    if name in fm then Text("`" + fm[name].colName + "`" + AsText(alias)) else Fail(UnknownField(name))
  }

  /** buildAggregate: `fn(` and a backquote are written before the field is
      looked up; the alias only in a select list. */
  function AggregateEmit(fm: map<string, Field>, a: Aggregate, aliasUsed: bool): Emit
  {
    Then(Text(a.fn + "(`"),
         if a.arg in fm then Text(fm[a.arg].colName + "`)" + (if aliasUsed then AsText(a.alias) else ""))
         else Fail(UnknownField(a.arg)))
  }

  /** buildExpression: a raw fragment is written as it is, without parentheses. */
  function ExprEmit(fm: map<string, Field>, e: Expr): Emit
  {
    match e
    case Nil => Text("")
    case ColumnExpr(c) => ColumnEmit(fm, c.name, "")
    case AggregateExpr(a) => AggregateEmit(fm, a, false)
    case ValueExpr(v) => Emit("?", [v], None)
    case RawExprE(r) => Emit(r.raw, r.args, None)
    case PredicateExpr(p) =>
      PredicateShape(p.left, ExprEmit(fm, p.left), p.op, p.right, ExprEmit(fm, p.right))
  }

  /** One entry of the select list. */
  function SelectableEmit(fm: map<string, Field>, c: Selectable): Emit
  {
    match c
    case SelectColumn(col) => ColumnEmit(fm, col.name, col.alias)
    case SelectAggregate(a) => AggregateEmit(fm, a, true)
    case SelectRaw(r) => Emit(r.raw, r.args, None)
  }

  /** A comma before every entry but the first. */
  function Sep(i: nat): Emit
  {
    Text(if i > 0 then "," else "")
  }

  function SelectListEmit(fm: map<string, Field>, cols: seq<Selectable>): Emit
    decreases |cols|
  {
    if cols == [] then Text("")
    else Then(SelectListEmit(fm, cols[..|cols| - 1]), Then(Sep(|cols| - 1), SelectableEmit(fm, cols[|cols| - 1])))
  }

  /** buildColumns: `*` when nothing is selected. */
  function ColumnsEmit(fm: map<string, Field>, cols: seq<Selectable>): Emit
  {
    if |cols| == 0 then Text("*") else SelectListEmit(fm, cols)
  }

  /** buildGroupBy: the columns, comma-separated, without aliases. */
  function GroupByEmit(fm: map<string, Field>, cols: seq<Column>): Emit
    decreases |cols|
  {
    if cols == [] then Text("")
    else Then(GroupByEmit(fm, cols[..|cols| - 1]), Then(Sep(|cols| - 1), ColumnEmit(fm, cols[|cols| - 1].name, "")))
  }

  /** One ordering term: the column, a space, the keyword. */
  function OrderTermEmit(fm: map<string, Field>, o: OrderBy): Emit
  {
    Then(ColumnEmit(fm, o.col, ""), Text(" " + o.order))
  }

  function OrderByEmit(fm: map<string, Field>, obs: seq<OrderBy>): Emit
    decreases |obs|
  {
    if obs == [] then Text("")
    else Then(OrderByEmit(fm, obs[..|obs| - 1]), Then(Sep(|obs| - 1), OrderTermEmit(fm, obs[|obs| - 1])))
  }

  /** buildPredicates: the list folded with And, then written as one expression. */
  function PredicatesEmit(fm: map<string, Field>, ps: seq<Predicate>): Emit
    requires |ps| > 0
  {
    ExprEmit(fm, PredicateExpr(FoldAnd(ps)))
  }

  /** WHERE or HAVING: present only for a non-empty list. */
  function Clause(fm: map<string, Field>, keyword: string, ps: seq<Predicate>): Emit
  {
    if |ps| > 0 then Then(Text(keyword), PredicatesEmit(fm, ps)) else Text("")
  }

  function GroupByClause(fm: map<string, Field>, cols: seq<Column>): Emit
  {
    if |cols| > 0 then Then(Text(" GROUP BY "), GroupByEmit(fm, cols)) else Text("")
  }

  function OrderByClause(fm: map<string, Field>, obs: seq<OrderBy>): Emit
  {
    if |obs| > 0 then Then(Text(" ORDER BY "), OrderByEmit(fm, obs)) else Text("")
  }

  /** OFFSET or LIMIT: a placeholder and the number, only for a positive number. */
  function CountClause(keyword: string, n: int): Emit
  {
    if n > 0 then Emit(keyword, [IntValue(n)], None) else Text("")
  }

  datatype SelectState = SelectState(table: string, columns: seq<Selectable>, where: seq<Predicate>,
                                     groupBy: seq<Column>, having: seq<Predicate>,
                                     orderBy: seq<OrderBy>, offset: int, limit: int)

  /** SELECT, the select list and FROM. */
  function HeadEmit(st: SelectState, m: Model): Emit
  {
    Then(Then(Text("SELECT "), ColumnsEmit(m.fieldMap, st.columns)),
         Text(" FROM " + TableText(st.table, m.tableName)))
  }

  /** The head, then WHERE, GROUP BY, HAVING and ORDER BY. */
  function FilterEmit(st: SelectState, m: Model): Emit
  {
    var fm := m.fieldMap;
    Then(Then(Then(Then(HeadEmit(st, m),
      Clause(fm, " WHERE ", st.where)),
      GroupByClause(fm, st.groupBy)),
      Clause(fm, " HAVING ", st.having)),
      OrderByClause(fm, st.orderBy))
  }

  /** Build after the model lookup succeeded: the clauses, OFFSET, LIMIT, `;`. */
  function BuildEmit(st: SelectState, m: Model): Emit
  {
    Then(Then(Then(FilterEmit(st, m),
      CountClause(" OFFSET ?", st.offset)),
      CountClause(" LIMIT ?", st.limit)),
      Text(";"))
  }

  // ------------------------------------------------------------ the builder

  /** Selector[T]: the clauses set so far, the model found by Build, and the
      text and arguments written so far. A second Build appends to them again. */
  class Selector {
    var table: string
    var columns: seq<Selectable>
    var where: seq<Predicate>
    var model: Option<Model>
    var sb: string
    var args: seq<Value>
    var groupBy: seq<Column>
    var having: seq<Predicate>
    var orderBy: seq<OrderBy>
    var offset: int
    var limit: int

    /** NewSelector: every clause empty. */
    constructor ()
      ensures State() == SelectState("", [], [], [], [], [], 0, 0)
      ensures model == None && sb == "" && args == []
    {
      table, columns, where, model, sb, args := "", [], [], None, "", [];
      groupBy, having, orderBy, offset, limit := [], [], [], 0, 0;
    }

    function State(): SelectState
      reads this
    {
      SelectState(table, columns, where, groupBy, having, orderBy, offset, limit)
    }

    function Fm(): map<string, Field>
      reads this
      requires model.Some?
    {
      model.value.fieldMap
    }

    method Select(cols: seq<Selectable>) returns (s: Selector)
      modifies this`columns
      ensures s == this && columns == cols
    {
      columns := cols;
      s := this;
    }

    method From(t: string) returns (s: Selector)
      modifies this`table
      ensures s == this && table == t
    {
      table := t;
      s := this;
    }

    method Where(ps: seq<Predicate>) returns (s: Selector)
      modifies this`where
      ensures s == this && where == ps
    {
      where := ps;
      s := this;
    }

    method GroupBy(cols: seq<Column>) returns (s: Selector)
      modifies this`groupBy
      ensures s == this && groupBy == cols
    {
      groupBy := cols;
      s := this;
    }

    method Having(ps: seq<Predicate>) returns (s: Selector)
      modifies this`having
      ensures s == this && having == ps
    {
      having := ps;
      s := this;
    }

    method OrderBy(orders: seq<OrderBy>) returns (s: Selector)
      modifies this`orderBy
      ensures s == this && orderBy == orders
    {
      orderBy := orders;
      s := this;
    }

    method Offset(n: int) returns (s: Selector)
      modifies this`offset
      ensures s == this && offset == n
    {
      offset := n;
      s := this;
    }

    method Limit(n: int) returns (s: Selector)
      modifies this`limit
      ensures s == this && limit == n
    {
      limit := n;
      s := this;
    }

    /** addArgs: an empty batch changes nothing. */
    method AddArgs(vals: seq<Value>)
      modifies this`args
      ensures args == old(args) + vals
    {
      if |vals| == 0 {
        return;
      }
      args := args + vals;
    }

    method BuildAs(alias: string)
      modifies this`sb
      ensures sb == old(sb) + AsText(alias)
    {
      if alias != "" {
        sb := sb + (" AS `" + alias + "`");
      }
    }

    method BuildColumn(c: string, alias: string) returns (err: Option<OrmError>)
      requires model.Some?
      modifies this`sb
      ensures Extends(old(sb), args, sb, args, ColumnEmit(Fm(), c, alias))
      ensures err == ColumnEmit(Fm(), c, alias).err
    {
      if c !in model.value.fieldMap {
        assert sb == sb + "";
        return Some(UnknownField(c));
      }
      var field := model.value.fieldMap[c];
      sb := sb + ("`" + field.colName + "`");
      if alias != "" {
        BuildAs(alias);
      }
      return None;
    }

    method BuildAggregate(a: Aggregate, aliasUsed: bool) returns (err: Option<OrmError>)
      requires model.Some?
      modifies this`sb
      ensures Extends(old(sb), args, sb, args, AggregateEmit(Fm(), a, aliasUsed))
      ensures err == AggregateEmit(Fm(), a, aliasUsed).err
    {
      ghost var s0 := sb;
      sb := sb + (a.fn + "(`");
      ghost var s1 := sb;
      if a.arg !in model.value.fieldMap {
        ExtendsThen(s0, args, s1, args, Text(a.fn + "(`"), sb, args, Fail(UnknownField(a.arg)));
        return Some(UnknownField(a.arg));
      }
      var field := model.value.fieldMap[a.arg];
      sb := sb + (field.colName + "`)");
      if aliasUsed {
        BuildAs(a.alias);
      }
      ExtendsThen(s0, args, s1, args, Text(a.fn + "(`"), sb, args,
                  Text(field.colName + "`)" + (if aliasUsed then AsText(a.alias) else "")));
      return None;
    }

    method BuildExpression(e: Expr) returns (err: Option<OrmError>)
      requires model.Some?
      modifies this`sb, this`args
      ensures Extends(old(sb), old(args), sb, args, ExprEmit(Fm(), e)) && err == ExprEmit(Fm(), e).err
      decreases e, 1
    {
      match e
      case Nil =>
        assert sb == sb + "" && args == args + [];
        return None;
      case ColumnExpr(c) =>
        err := BuildColumn(c.name, "");
      case AggregateExpr(a) =>
        err := BuildAggregate(a, false);
      case ValueExpr(v) =>
        sb := sb + "?";
        AddArgs([v]);
        return None;
      case RawExprE(r) =>
        sb := sb + r.raw;
        if |r.args| != 0 {
          AddArgs(r.args);
        }
        return None;
      case PredicateExpr(p) =>
        err := BuildPredicate(p);
    }

    /** One operand of a predicate, in parentheses when it is itself a predicate. */
    method BuildOperand(paren: bool, e: Expr) returns (err: Option<OrmError>)
      requires model.Some?
      modifies this`sb, this`args
      ensures Extends(old(sb), old(args), sb, args, Wrapped(paren, ExprEmit(Fm(), e)))
      ensures err == Wrapped(paren, ExprEmit(Fm(), e)).err
      decreases e, 2
    {
      if paren {
        ghost var s0, a0 := sb, args;
        sb := sb + "(";
        ghost var s1, a1 := sb, args;
        err := BuildExpression(e);
        ghost var inner := ExprEmit(Fm(), e);
        ExtendsThen(s0, a0, s1, a1, Text("("), sb, args, inner);
        if err.Some? {
          return;
        }
        ghost var s2, a2 := sb, args;
        sb := sb + ")";
        ExtendsThen(s0, a0, s2, a2, Then(Text("("), inner), sb, args, Text(")"));
      } else {
        err := BuildExpression(e);
      }
    }

    /** The Predicate case: left operand, operator, right operand. */
    method BuildPredicate(p: Predicate) returns (err: Option<OrmError>)
      requires model.Some?
      modifies this`sb, this`args
      ensures Extends(old(sb), old(args), sb, args, ExprEmit(Fm(), PredicateExpr(p)))
      ensures err == ExprEmit(Fm(), PredicateExpr(p)).err
      decreases PredicateExpr(p), 0
    {
      ghost var s0, a0 := sb, args;
      err := BuildOperand(p.left.PredicateExpr?, p.left);
      ghost var l := Wrapped(p.left.PredicateExpr?, ExprEmit(Fm(), p.left));
      if err.Some? {
        return;
      }
      ghost var s1, a1 := sb, args;
      if p.op != OpNone {
        sb := sb + (" " + OpString(p.op) + " ");
      } else {
        assert sb == sb + "" && args == args + [];
      }
      ExtendsThen(s0, a0, s1, a1, l, sb, args, OpText(p.op));
      ghost var s2, a2 := sb, args;
      err := BuildOperand(p.right.PredicateExpr?, p.right);
      ExtendsThen(s0, a0, s2, a2, Then(l, OpText(p.op)), sb, args,
                  Wrapped(p.right.PredicateExpr?, ExprEmit(Fm(), p.right)));
    }

    /** buildPredicates: ps[0].And(ps[1]).And(ps[2])..., then one expression. */
    method BuildPredicates(ps: seq<Predicate>) returns (err: Option<OrmError>)
      requires model.Some? && |ps| > 0
      modifies this`sb, this`args
      ensures Extends(old(sb), old(args), sb, args, PredicatesEmit(Fm(), ps))
      ensures err == PredicatesEmit(Fm(), ps).err
    {
      var p := ps[0];
      var i := 1;
      while i < |ps|
        invariant 1 <= i <= |ps|
        invariant p == FoldAnd(ps[..i])
      {
        assert ps[..i + 1][..i] == ps[..i];
        p := AndP(p, ps[i]);
        i := i + 1;
      }
      assert ps[..|ps|] == ps;
      err := BuildExpression(PredicateExpr(p));
    }

    method BuildSelectable(c: Selectable) returns (err: Option<OrmError>)
      requires model.Some?
      modifies this`sb, this`args
      ensures Extends(old(sb), old(args), sb, args, SelectableEmit(Fm(), c))
      ensures err == SelectableEmit(Fm(), c).err
    {
      match c
      case SelectColumn(col) =>
        err := BuildColumn(col.name, col.alias);
      case SelectAggregate(a) =>
        err := BuildAggregate(a, true);
      case SelectRaw(r) =>
        sb := sb + r.raw;
        if |r.args| != 0 {
          AddArgs(r.args);
        }
        return None;
    }

    /** The comma written before every entry of a list but the first. */
    method WriteSep(i: nat)
      modifies this`sb
      ensures Extends(old(sb), args, sb, args, Sep(i))
    {
      if i > 0 {
        sb := sb + ",";
      } else {
        assert sb == sb + "" && args == args + [];
      }
    }

    /** One entry of the select list: the comma, then the entry. */
    method BuildSelectEntry(i: nat, c: Selectable) returns (err: Option<OrmError>)
      requires model.Some?
      modifies this`sb, this`args
      ensures Extends(old(sb), old(args), sb, args, Then(Sep(i), SelectableEmit(Fm(), c)))
      ensures err == SelectableEmit(Fm(), c).err
    {
      ghost var s1, a1 := sb, args;
      WriteSep(i);
      ghost var s2, a2 := sb, args;
      err := BuildSelectable(c);
      ExtendsThen(s1, a1, s2, a2, Sep(i), sb, args, SelectableEmit(Fm(), c));
    }

    /** The select list, entry by entry, up to the first error. */
    method BuildSelectList(cols: seq<Selectable>) returns (err: Option<OrmError>)
      requires model.Some?
      modifies this`sb, this`args
      ensures Extends(old(sb), old(args), sb, args, SelectListEmit(Fm(), cols))
      ensures err == SelectListEmit(Fm(), cols).err
    {
      ghost var fm := Fm();
      ghost var s0, a0 := sb, args;
      var i := 0;
      assert Extends(s0, a0, sb, args, SelectListEmit(fm, cols[..0]));
      while i < |cols|
        invariant 0 <= i <= |cols|
        invariant Extends(s0, a0, sb, args, SelectListEmit(fm, cols[..i]))
        invariant SelectListEmit(fm, cols[..i]).err == None
      {
        SelectListPrefix(fm, cols, i);
        ghost var s1, a1 := sb, args;
        err := BuildSelectEntry(i, cols[i]);
        ExtendsThen(s0, a0, s1, a1, SelectListEmit(fm, cols[..i]), sb, args, Then(Sep(i), SelectableEmit(fm, cols[i])));
        if err.Some? {
          SelectListFailSticks(fm, cols, i + 1);
          return;
        }
        i := i + 1;
      }
      assert cols[..|cols|] == cols;
      return None;
    }

    /** buildColumns: `*` for an empty select list. */
    method BuildColumns() returns (err: Option<OrmError>)
      requires model.Some?
      modifies this`sb, this`args
      ensures Extends(old(sb), old(args), sb, args, ColumnsEmit(Fm(), columns))
      ensures err == ColumnsEmit(Fm(), columns).err
    {
      if |columns| == 0 {
        sb := sb + "*";
        return None;
      }
      err := BuildSelectList(columns);
    }

    method BuildGroupBy(cols: seq<Column>) returns (err: Option<OrmError>)
      requires model.Some?
      modifies this`sb
      ensures Extends(old(sb), args, sb, args, GroupByEmit(Fm(), cols))
      ensures err == GroupByEmit(Fm(), cols).err
    {
      ghost var fm := Fm();
      ghost var s0 := sb;
      var i := 0;
      assert Extends(s0, args, sb, args, GroupByEmit(fm, cols[..0]));
      while i < |cols|
        invariant 0 <= i <= |cols|
        invariant Extends(s0, args, sb, args, GroupByEmit(fm, cols[..i]))
        invariant GroupByEmit(fm, cols[..i]).err == None
      {
        assert cols[..i + 1][..i] == cols[..i];
        ghost var prev := GroupByEmit(fm, cols[..i]);
        ghost var item := ColumnEmit(fm, cols[i].name, "");
        ghost var s1 := sb;
        WriteSep(i);
        ghost var s2 := sb;
        err := BuildColumn(cols[i].name, "");
        ExtendsThen(s1, args, s2, args, Sep(i), sb, args, item);
        ExtendsThen(s0, args, s1, args, prev, sb, args, Then(Sep(i), item));
        assert GroupByEmit(fm, cols[..i + 1]) == Then(prev, Then(Sep(i), item));
        if err.Some? {
          GroupByFailSticks(fm, cols, i + 1);
          return;
        }
        i := i + 1;
      }
      assert cols[..|cols|] == cols;
      return None;
    }

    method BuildOrderTerm(o: OrderBy) returns (err: Option<OrmError>)
      requires model.Some?
      modifies this`sb
      ensures Extends(old(sb), args, sb, args, OrderTermEmit(Fm(), o))
      ensures err == OrderTermEmit(Fm(), o).err
    {
      ghost var s0 := sb;
      err := BuildColumn(o.col, "");
      if err.Some? {
        return;
      }
      ghost var s1 := sb;
      sb := sb + (" " + o.order);
      ExtendsThen(s0, args, s1, args, ColumnEmit(Fm(), o.col, ""), sb, args, Text(" " + o.order));
    }

    /** One entry of the ORDER BY list: the comma, then the term. */
    method BuildOrderEntry(i: nat, o: OrderBy) returns (err: Option<OrmError>)
      requires model.Some?
      modifies this`sb
      ensures Extends(old(sb), args, sb, args, Then(Sep(i), OrderTermEmit(Fm(), o)))
      ensures err == OrderTermEmit(Fm(), o).err
    {
      ghost var s1 := sb;
      WriteSep(i);
      ghost var s2 := sb;
      err := BuildOrderTerm(o);
      ExtendsThen(s1, args, s2, args, Sep(i), sb, args, OrderTermEmit(Fm(), o));
    }

    method BuildOrderBy(obs: seq<OrderBy>) returns (err: Option<OrmError>)
      requires model.Some?
      modifies this`sb
      ensures Extends(old(sb), args, sb, args, OrderByEmit(Fm(), obs))
      ensures err == OrderByEmit(Fm(), obs).err
    {
      ghost var fm := Fm();
      ghost var s0 := sb;
      var i := 0;
      assert Extends(s0, args, sb, args, OrderByEmit(fm, obs[..0]));
      while i < |obs|
        invariant 0 <= i <= |obs|
        invariant Extends(s0, args, sb, args, OrderByEmit(fm, obs[..i]))
        invariant OrderByEmit(fm, obs[..i]).err == None
      {
        OrderByPrefix(fm, obs, i);
        ghost var s1 := sb;
        err := BuildOrderEntry(i, obs[i]);
        ExtendsThen(s0, args, s1, args, OrderByEmit(fm, obs[..i]), sb, args, Then(Sep(i), OrderTermEmit(fm, obs[i])));
        if err.Some? {
          OrderByFailSticks(fm, obs, i + 1);
          return;
        }
        i := i + 1;
      }
      assert obs[..|obs|] == obs;
      return None;
    }

    /** A WHERE or HAVING clause: keyword and predicates, only when there are any. */
    method BuildClause(keyword: string, ps: seq<Predicate>) returns (err: Option<OrmError>)
      requires model.Some?
      modifies this`sb, this`args
      ensures Extends(old(sb), old(args), sb, args, Clause(Fm(), keyword, ps))
      ensures err == Clause(Fm(), keyword, ps).err
    {
      if |ps| > 0 {
        ghost var s0, a0 := sb, args;
        sb := sb + keyword;
        ghost var s1, a1 := sb, args;
        err := BuildPredicates(ps);
        ExtendsThen(s0, a0, s1, a1, Text(keyword), sb, args, PredicatesEmit(Fm(), ps));
      } else {
        assert sb == sb + "" && args == args + [];
        err := None;
      }
    }

    method BuildGroupByClause() returns (err: Option<OrmError>)
      requires model.Some?
      modifies this`sb
      ensures Extends(old(sb), args, sb, args, GroupByClause(Fm(), groupBy))
      ensures err == GroupByClause(Fm(), groupBy).err
    {
      if |groupBy| > 0 {
        ghost var s0 := sb;
        sb := sb + " GROUP BY ";
        ghost var s1 := sb;
        err := BuildGroupBy(groupBy);
        ExtendsThen(s0, args, s1, args, Text(" GROUP BY "), sb, args, GroupByEmit(Fm(), groupBy));
      } else {
        assert sb == sb + "" && args == args + [];
        err := None;
      }
    }

    method BuildOrderByClause() returns (err: Option<OrmError>)
      requires model.Some?
      modifies this`sb
      ensures Extends(old(sb), args, sb, args, OrderByClause(Fm(), orderBy))
      ensures err == OrderByClause(Fm(), orderBy).err
    {
      if |orderBy| > 0 {
        ghost var s0 := sb;
        sb := sb + " ORDER BY ";
        ghost var s1 := sb;
        err := BuildOrderBy(orderBy);
        ExtendsThen(s0, args, s1, args, Text(" ORDER BY "), sb, args, OrderByEmit(Fm(), orderBy));
      } else {
        assert sb == sb + "" && args == args + [];
        err := None;
      }
    }

    /** OFFSET ? or LIMIT ?: only for a positive number, which becomes an argument. */
    method BuildCount(keyword: string, n: int)
      modifies this`sb, this`args
      ensures Extends(old(sb), old(args), sb, args, CountClause(keyword, n))
    {
      if n > 0 {
        sb := sb + keyword;
        AddArgs([IntValue(n)]);
      } else {
        assert sb == sb + "" && args == args + [];
      }
    }

    /** SELECT, the select list, FROM and the table; nothing after a failing column. */
    method BuildHead() returns (err: Option<OrmError>)
      requires model.Some?
      modifies this`sb, this`args
      ensures Extends(old(sb), old(args), sb, args, HeadEmit(State(), model.value))
      ensures err == HeadEmit(State(), model.value).err
    {
      ghost var m := model.value;
      ghost var s0, a0 := sb, args;
      sb := sb + "SELECT ";
      ghost var s1, a1 := sb, args;
      err := BuildColumns();
      ExtendsThen(s0, a0, s1, a1, Text("SELECT "), sb, args, ColumnsEmit(m.fieldMap, columns));
      if err.Some? {
        return;
      }
      s1, a1 := sb, args;
      if table == "" {
        sb := sb + (" FROM " + "`" + model.value.tableName + "`");
      } else {
        sb := sb + (" FROM " + table);
      }
      ExtendsThen(s0, a0, s1, a1, Then(Text("SELECT "), ColumnsEmit(m.fieldMap, columns)),
                  sb, args, Text(" FROM " + TableText(table, m.tableName)));
    }

    /** The head, then WHERE, GROUP BY, HAVING and ORDER BY, up to the first error. */
    method BuildFilter() returns (err: Option<OrmError>)
      requires model.Some?
      modifies this`sb, this`args
      ensures Extends(old(sb), old(args), sb, args, FilterEmit(State(), model.value))
      ensures err == FilterEmit(State(), model.value).err
    {
      ghost var m := model.value;
      ghost var fm := m.fieldMap;
      ghost var s0, a0 := sb, args;
      err := BuildHead();
      ghost var acc := HeadEmit(State(), m);
      if err.Some? {
        return;
      }
      ghost var s1, a1 := sb, args;
      err := BuildClause(" WHERE ", where);
      ExtendsThen(s0, a0, s1, a1, acc, sb, args, Clause(fm, " WHERE ", where));
      acc := Then(acc, Clause(fm, " WHERE ", where));
      if err.Some? {
        return;
      }
      s1, a1 := sb, args;
      err := BuildGroupByClause();
      ExtendsThen(s0, a0, s1, a1, acc, sb, args, GroupByClause(fm, groupBy));
      acc := Then(acc, GroupByClause(fm, groupBy));
      if err.Some? {
        return;
      }
      s1, a1 := sb, args;
      err := BuildClause(" HAVING ", having);
      ExtendsThen(s0, a0, s1, a1, acc, sb, args, Clause(fm, " HAVING ", having));
      acc := Then(acc, Clause(fm, " HAVING ", having));
      if err.Some? {
        return;
      }
      s1, a1 := sb, args;
      err := BuildOrderByClause();
      ExtendsThen(s0, a0, s1, a1, acc, sb, args, OrderByClause(fm, orderBy));
    }

    /** Build: look the model up (the registry's answer is the parameter), then
        write the clauses; the first error is returned and what was written
        before it stays in sb. */
    method Build(lookup: Result<Model, OrmError>) returns (r: Result<Query, OrmError>)
      modifies this`model, this`sb, this`args
      ensures model == (if lookup.Success? then Some(lookup.value) else None)
      ensures lookup.Failure? ==> r == Failure(lookup.error) && sb == old(sb) && args == old(args)
      ensures lookup.Success? ==>
                && Extends(old(sb), old(args), sb, args, BuildEmit(State(), lookup.value))
                && r == (if BuildEmit(State(), lookup.value).err.Some?
                         then Failure(BuildEmit(State(), lookup.value).err.value)
                         else Success(Query(sb, args)))
    {
      if lookup.Failure? {
        model := None;
        return Failure(lookup.error);
      }
      model := Some(lookup.value);
      ghost var m := lookup.value;
      ghost var s0, a0 := sb, args;
      var err := BuildFilter();
      if err.Some? {
        return Failure(err.value);
      }
      ghost var acc := FilterEmit(State(), m);
      ghost var s1, a1 := sb, args;
      BuildCount(" OFFSET ?", offset);
      ExtendsThen(s0, a0, s1, a1, acc, sb, args, CountClause(" OFFSET ?", offset));
      acc := Then(acc, CountClause(" OFFSET ?", offset));
      s1, a1 := sb, args;
      BuildCount(" LIMIT ?", limit);
      ExtendsThen(s0, a0, s1, a1, acc, sb, args, CountClause(" LIMIT ?", limit));
      acc := Then(acc, CountClause(" LIMIT ?", limit));
      s1, a1 := sb, args;
      sb := sb + ";";
      ExtendsThen(s0, a0, s1, a1, acc, sb, args, Text(";"));
      return Success(Query(sb, args));
    }
  }

  // ------------------------------------------------------------ failures stick

  /** One more select-list entry: the list so far, a comma unless it is the first, the entry. */
  lemma SelectListPrefix(fm: map<string, Field>, cols: seq<Selectable>, i: nat)
    requires i < |cols|
    ensures SelectListEmit(fm, cols[..i + 1]) == Then(SelectListEmit(fm, cols[..i]), Then(Sep(i), SelectableEmit(fm, cols[i])))
  {
    assert cols[..i + 1][..i] == cols[..i];
  }

  lemma {:induction false} SelectListFailSticks(fm: map<string, Field>, cols: seq<Selectable>, i: nat)
    requires i <= |cols| && SelectListEmit(fm, cols[..i]).err.Some?
    ensures SelectListEmit(fm, cols) == SelectListEmit(fm, cols[..i])
    decreases |cols| - i
  {
    if i < |cols| {
      assert cols[..i + 1][..i] == cols[..i];
      SelectListFailSticks(fm, cols, i + 1);
    } else {
      assert cols[..i] == cols;
    }
  }

  lemma {:induction false} GroupByFailSticks(fm: map<string, Field>, cols: seq<Column>, i: nat)
    requires i <= |cols| && GroupByEmit(fm, cols[..i]).err.Some?
    ensures GroupByEmit(fm, cols) == GroupByEmit(fm, cols[..i])
    decreases |cols| - i
  {
    if i < |cols| {
      assert cols[..i + 1][..i] == cols[..i];
      GroupByFailSticks(fm, cols, i + 1);
    } else {
      assert cols[..i] == cols;
    }
  }

  /** One more ordering term: the list so far, a comma unless it is the first, the term. */
  lemma OrderByPrefix(fm: map<string, Field>, obs: seq<OrderBy>, i: nat)
    requires i < |obs|
    ensures OrderByEmit(fm, obs[..i + 1]) == Then(OrderByEmit(fm, obs[..i]), Then(Sep(i), OrderTermEmit(fm, obs[i])))
  {
    assert obs[..i + 1][..i] == obs[..i];
  }

  lemma {:induction false} OrderByFailSticks(fm: map<string, Field>, obs: seq<OrderBy>, i: nat)
    requires i <= |obs| && OrderByEmit(fm, obs[..i]).err.Some?
    ensures OrderByEmit(fm, obs) == OrderByEmit(fm, obs[..i])
    decreases |obs| - i
  {
    if i < |obs| {
      assert obs[..i + 1][..i] == obs[..i];
      OrderByFailSticks(fm, obs, i + 1);
    } else {
      assert obs[..i] == obs;
    }
  }

  // ------------------------------------------------------------ properties

  /** The fields a select-list entry refers to, and the arguments it carries. */
  function SelectableFields(c: Selectable): set<string>
  {
    match c
    case SelectColumn(col) => {col.name}
    case SelectAggregate(a) => {a.arg}
    case SelectRaw(_) => {}
  }

  function SelectableArgs(c: Selectable): seq<Value>
  {
    if c.SelectRaw? then c.rawExpr.args else []
  }

  function SelectedFields(cols: seq<Selectable>): set<string>
    decreases |cols|
  {
    if cols == [] then {} else SelectedFields(cols[..|cols| - 1]) + SelectableFields(cols[|cols| - 1])
  }

  function SelectedArgs(cols: seq<Selectable>): seq<Value>
    decreases |cols|
  {
    if cols == [] then [] else SelectedArgs(cols[..|cols| - 1]) + SelectableArgs(cols[|cols| - 1])
  }

  function ColumnNames(cols: seq<Column>): set<string>
    decreases |cols|
  {
    if cols == [] then {} else ColumnNames(cols[..|cols| - 1]) + {cols[|cols| - 1].name}
  }

  function OrderColumns(obs: seq<OrderBy>): set<string>
    decreases |obs|
  {
    if obs == [] then {} else OrderColumns(obs[..|obs| - 1]) + {obs[|obs| - 1].col}
  }

  function CountArgs(n: int): seq<Value>
  {
    if n > 0 then [IntValue(n)] else []
  }

  /** Every field name a select statement refers to. */
  function BuildFields(st: SelectState): set<string>
  {
    SelectedFields(st.columns) + FieldsOfAll(st.where) + ColumnNames(st.groupBy)
      + FieldsOfAll(st.having) + OrderColumns(st.orderBy)
  }

  /** The placeholder arguments of a select statement in clause order. */
  function BuildValues(st: SelectState): seq<Value>
  {
    SelectedArgs(st.columns) + ValuesOfAll(st.where) + ValuesOfAll(st.having)
      + CountArgs(st.offset) + CountArgs(st.limit)
  }

  lemma AggregateSound(fm: map<string, Field>, a: Aggregate, aliasUsed: bool)
    ensures ReportsUnknown(AggregateEmit(fm, a, aliasUsed), {a.arg}, fm.Keys)
    ensures Yields(AggregateEmit(fm, a, aliasUsed), [])
  {
    var tail := if a.arg in fm then Text(fm[a.arg].colName + "`)" + (if aliasUsed then AsText(a.alias) else ""))
                else Fail(UnknownField(a.arg));
    assert ReportsUnknown(tail, {a.arg}, fm.Keys);
    ThenReports(Text(a.fn + "(`"), {}, tail, {a.arg}, fm.Keys);
    assert {} + {a.arg} == {a.arg};
  }

  /** An expression fails exactly on a field the model does not know, naming
      it, and otherwise appends its values left to right. */
  lemma {:induction false} ExprSound(fm: map<string, Field>, e: Expr)
    ensures ReportsUnknown(ExprEmit(fm, e), FieldsOf(e), fm.Keys)
    ensures Yields(ExprEmit(fm, e), ValuesOf(e))
  {
    match e
    case Nil =>
    case ColumnExpr(c) =>
    case ValueExpr(v) =>
    case AggregateExpr(a) =>
      AggregateSound(fm, a, false);
    case RawExprE(r) =>
    case PredicateExpr(p) =>
      ExprSound(fm, p.left);
      ExprSound(fm, p.right);
      ShapeReports(p.left, ExprEmit(fm, p.left), FieldsOf(p.left), ValuesOf(p.left), p.op,
                   p.right, ExprEmit(fm, p.right), FieldsOf(p.right), ValuesOf(p.right), fm.Keys);
  }

  lemma PredicatesSound(fm: map<string, Field>, ps: seq<Predicate>)
    requires |ps| > 0
    ensures ReportsUnknown(PredicatesEmit(fm, ps), FieldsOfAll(ps), fm.Keys)
    ensures Yields(PredicatesEmit(fm, ps), ValuesOfAll(ps))
  {
    ExprSound(fm, PredicateExpr(FoldAnd(ps)));
    FoldAndFields(ps);
    FoldAndValues(ps);
  }

  lemma ClauseSound(fm: map<string, Field>, keyword: string, ps: seq<Predicate>)
    ensures ReportsUnknown(Clause(fm, keyword, ps), FieldsOfAll(ps), fm.Keys)
    ensures Yields(Clause(fm, keyword, ps), ValuesOfAll(ps))
  {
    if |ps| > 0 {
      PredicatesSound(fm, ps);
      ThenReports(Text(keyword), {}, PredicatesEmit(fm, ps), FieldsOfAll(ps), fm.Keys);
      assert {} + FieldsOfAll(ps) == FieldsOfAll(ps);
      ThenYields(Text(keyword), [], PredicatesEmit(fm, ps), ValuesOfAll(ps));
    } else {
      assert ps == [];
    }
  }

  lemma {:induction false} SelectListSound(fm: map<string, Field>, cols: seq<Selectable>)
    ensures ReportsUnknown(SelectListEmit(fm, cols), SelectedFields(cols), fm.Keys)
    ensures Yields(SelectListEmit(fm, cols), SelectedArgs(cols))
    decreases |cols|
  {
    if cols != [] {
      var init, c := cols[..|cols| - 1], cols[|cols| - 1];
      SelectListSound(fm, init);
      if c.SelectAggregate? {
        AggregateSound(fm, c.aggregate, true);
      }
      ThenReports(Sep(|cols| - 1), {}, SelectableEmit(fm, c), SelectableFields(c), fm.Keys);
      assert {} + SelectableFields(c) == SelectableFields(c);
      ThenYields(Sep(|cols| - 1), [], SelectableEmit(fm, c), SelectableArgs(c));
      ThenReports(SelectListEmit(fm, init), SelectedFields(init),
                  Then(Sep(|cols| - 1), SelectableEmit(fm, c)), SelectableFields(c), fm.Keys);
      ThenYields(SelectListEmit(fm, init), SelectedArgs(init),
                 Then(Sep(|cols| - 1), SelectableEmit(fm, c)), SelectableArgs(c));
    }
  }

  lemma {:induction false} GroupBySound(fm: map<string, Field>, cols: seq<Column>)
    ensures ReportsUnknown(GroupByEmit(fm, cols), ColumnNames(cols), fm.Keys)
    ensures Yields(GroupByEmit(fm, cols), [])
    decreases |cols|
  {
    if cols != [] {
      var init, c := cols[..|cols| - 1], cols[|cols| - 1];
      GroupBySound(fm, init);
      ThenReports(Sep(|cols| - 1), {}, ColumnEmit(fm, c.name, ""), {c.name}, fm.Keys);
      assert {} + {c.name} == {c.name};
      ThenReports(GroupByEmit(fm, init), ColumnNames(init),
                  Then(Sep(|cols| - 1), ColumnEmit(fm, c.name, "")), {c.name}, fm.Keys);
    }
  }

  lemma {:induction false} OrderBySound(fm: map<string, Field>, obs: seq<OrderBy>)
    ensures ReportsUnknown(OrderByEmit(fm, obs), OrderColumns(obs), fm.Keys)
    ensures Yields(OrderByEmit(fm, obs), [])
    decreases |obs|
  {
    if obs != [] {
      var init, o := obs[..|obs| - 1], obs[|obs| - 1];
      OrderBySound(fm, init);
      ThenReports(ColumnEmit(fm, o.col, ""), {o.col}, Text(" " + o.order), {}, fm.Keys);
      assert {o.col} + {} == {o.col};
      ThenReports(Sep(|obs| - 1), {}, OrderTermEmit(fm, o), {o.col}, fm.Keys);
      assert {} + {o.col} == {o.col};
      ThenReports(OrderByEmit(fm, init), OrderColumns(init),
                  Then(Sep(|obs| - 1), OrderTermEmit(fm, o)), {o.col}, fm.Keys);
    }
  }

  lemma Step(e: Emit, f: set<string>, v: seq<Value>, x: Emit, fx: set<string>, vx: seq<Value>, K: set<string>)
    requires ReportsUnknown(e, f, K) && Yields(e, v)
    requires ReportsUnknown(x, fx, K) && Yields(x, vx)
    ensures ReportsUnknown(Then(e, x), f + fx, K) && Yields(Then(e, x), v + vx)
  {
    ThenReports(e, f, x, fx, K);
    ThenYields(e, v, x, vx);
  }

  lemma HeadSound(st: SelectState, m: Model)
    ensures ReportsUnknown(HeadEmit(st, m), SelectedFields(st.columns), m.fieldMap.Keys)
    ensures Yields(HeadEmit(st, m), SelectedArgs(st.columns))
  {
    var fm, K := m.fieldMap, m.fieldMap.Keys;
    var cols := ColumnsEmit(fm, st.columns);
    if |st.columns| > 0 {
      SelectListSound(fm, st.columns);
    } else {
      assert st.columns == [];
    }
    Step(Text("SELECT "), {}, [], cols, SelectedFields(st.columns), SelectedArgs(st.columns), K);
    Step(Then(Text("SELECT "), cols), {} + SelectedFields(st.columns), [] + SelectedArgs(st.columns),
         Text(" FROM " + TableText(st.table, m.tableName)), {}, [], K);
    assert {} + SelectedFields(st.columns) + {} == SelectedFields(st.columns);
    assert [] + SelectedArgs(st.columns) + [] == SelectedArgs(st.columns);
  }

  lemma GroupByClauseSound(fm: map<string, Field>, cols: seq<Column>)
    ensures ReportsUnknown(GroupByClause(fm, cols), ColumnNames(cols), fm.Keys)
    ensures Yields(GroupByClause(fm, cols), [])
  {
    if |cols| > 0 {
      GroupBySound(fm, cols);
      Step(Text(" GROUP BY "), {}, [], GroupByEmit(fm, cols), ColumnNames(cols), [], fm.Keys);
      assert {} + ColumnNames(cols) == ColumnNames(cols);
    } else {
      assert cols == [];
    }
  }

  lemma OrderByClauseSound(fm: map<string, Field>, obs: seq<OrderBy>)
    ensures ReportsUnknown(OrderByClause(fm, obs), OrderColumns(obs), fm.Keys)
    ensures Yields(OrderByClause(fm, obs), [])
  {
    if |obs| > 0 {
      OrderBySound(fm, obs);
      Step(Text(" ORDER BY "), {}, [], OrderByEmit(fm, obs), OrderColumns(obs), [], fm.Keys);
      assert {} + OrderColumns(obs) == OrderColumns(obs);
    } else {
      assert obs == [];
    }
  }

  /** Five steps in a row report the union of their fields. */
  lemma Chain5Reports(e1: Emit, f1: set<string>, e2: Emit, f2: set<string>, e3: Emit, f3: set<string>,
                      e4: Emit, f4: set<string>, e5: Emit, f5: set<string>, K: set<string>)
    requires ReportsUnknown(e1, f1, K) && ReportsUnknown(e2, f2, K) && ReportsUnknown(e3, f3, K)
    requires ReportsUnknown(e4, f4, K) && ReportsUnknown(e5, f5, K)
    ensures ReportsUnknown(Then(Then(Then(Then(e1, e2), e3), e4), e5), f1 + f2 + f3 + f4 + f5, K)
  {
    ThenReports(e1, f1, e2, f2, K);
    ThenReports(Then(e1, e2), f1 + f2, e3, f3, K);
    ThenReports(Then(Then(e1, e2), e3), f1 + f2 + f3, e4, f4, K);
    ThenReports(Then(Then(Then(e1, e2), e3), e4), f1 + f2 + f3 + f4, e5, f5, K);
  }

  lemma FilterReports(st: SelectState, m: Model)
    ensures ReportsUnknown(FilterEmit(st, m), BuildFields(st), m.fieldMap.Keys)
  {
    var fm := m.fieldMap;
    HeadSound(st, m);
    ClauseSound(fm, " WHERE ", st.where);
    ClauseSound(fm, " HAVING ", st.having);
    GroupByClauseSound(fm, st.groupBy);
    OrderByClauseSound(fm, st.orderBy);
    Chain5Reports(HeadEmit(st, m), SelectedFields(st.columns), Clause(fm, " WHERE ", st.where), FieldsOfAll(st.where),
                  GroupByClause(fm, st.groupBy), ColumnNames(st.groupBy),
                  Clause(fm, " HAVING ", st.having), FieldsOfAll(st.having),
                  OrderByClause(fm, st.orderBy), OrderColumns(st.orderBy), fm.Keys);
  }

  /** A step that adds no arguments leaves what has been yielded unchanged. */
  lemma ThenYieldsNothing(a: Emit, va: seq<Value>, b: Emit)
    requires Yields(a, va) && Yields(b, [])
    ensures Yields(Then(a, b), va)
  {
  }

  lemma FilterYields(st: SelectState, m: Model)
    ensures Yields(FilterEmit(st, m), SelectedArgs(st.columns) + ValuesOfAll(st.where) + ValuesOfAll(st.having))
  {
    var fm := m.fieldMap;
    HeadSound(st, m);
    ClauseSound(fm, " WHERE ", st.where);
    ClauseSound(fm, " HAVING ", st.having);
    GroupByClauseSound(fm, st.groupBy);
    OrderByClauseSound(fm, st.orderBy);
    var v1, v2, v4 := SelectedArgs(st.columns), ValuesOfAll(st.where), ValuesOfAll(st.having);
    var e := Then(HeadEmit(st, m), Clause(fm, " WHERE ", st.where));
    ThenYields(HeadEmit(st, m), v1, Clause(fm, " WHERE ", st.where), v2);
    ThenYieldsNothing(e, v1 + v2, GroupByClause(fm, st.groupBy));
    e := Then(e, GroupByClause(fm, st.groupBy));
    ThenYields(e, v1 + v2, Clause(fm, " HAVING ", st.having), v4);
    e := Then(e, Clause(fm, " HAVING ", st.having));
    ThenYieldsNothing(e, v1 + v2 + v4, OrderByClause(fm, st.orderBy));
  }

  /** Everything before OFFSET: an unknown field is reported, and on success
      the arguments are the select list's, WHERE's and HAVING's. */
  lemma FilterSound(st: SelectState, m: Model)
    ensures ReportsUnknown(FilterEmit(st, m), BuildFields(st), m.fieldMap.Keys)
    ensures Yields(FilterEmit(st, m), SelectedArgs(st.columns) + ValuesOfAll(st.where) + ValuesOfAll(st.having))
  {
    FilterReports(st, m);
    FilterYields(st, m);
  }

  /** Build fails exactly when the statement refers to a field the model does
      not know, and its error then names such a field; when it succeeds the
      arguments are the selected raw arguments, WHERE's values, HAVING's
      values, then OFFSET and LIMIT, in that order. */
  lemma BuildSound(st: SelectState, m: Model)
    ensures ReportsUnknown(BuildEmit(st, m), BuildFields(st), m.fieldMap.Keys)
    ensures Yields(BuildEmit(st, m), BuildValues(st))
  {
    var K := m.fieldMap.Keys;
    FilterSound(st, m);
    var f := FilterEmit(st, m);
    var v := SelectedArgs(st.columns) + ValuesOfAll(st.where) + ValuesOfAll(st.having);
    var off := CountClause(" OFFSET ?", st.offset);
    var lim := CountClause(" LIMIT ?", st.limit);
    Step(f, BuildFields(st), v, off, {}, CountArgs(st.offset), K);
    Step(Then(f, off), BuildFields(st) + {}, v + CountArgs(st.offset), lim, {}, CountArgs(st.limit), K);
    Step(Then(Then(f, off), lim), BuildFields(st) + {} + {}, v + CountArgs(st.offset) + CountArgs(st.limit),
         Text(";"), {}, [], K);
    assert BuildFields(st) + {} + {} + {} == BuildFields(st);
    assert v + CountArgs(st.offset) + CountArgs(st.limit) + [] == BuildValues(st);
  }

  /** A lone Not(p) in WHERE is written with two spaces before NOT: the
      keyword's own trailing space and the operator's leading one. */
  lemma NotWhere(fm: map<string, Field>, p: Predicate)
    requires ExprEmit(fm, PredicateExpr(p)).err.None?
    ensures Clause(fm, " WHERE ", [Not(p)]).err == None
    ensures Clause(fm, " WHERE ", [Not(p)]).sql == " WHERE  NOT (" + ExprEmit(fm, PredicateExpr(p)).sql + ")"
    ensures Clause(fm, " WHERE ", [Not(p)]).args == ExprEmit(fm, PredicateExpr(p)).args
  {
    var r := ExprEmit(fm, PredicateExpr(p));
    WhereOfNot(fm, p);
    WhereNotText(p, r);
  }

  /** The WHERE clause of [Not(p)] is the keyword, then the Predicate case for Not(p). */
  lemma WhereOfNot(fm: map<string, Field>, p: Predicate)
    ensures Clause(fm, " WHERE ", [Not(p)]) ==
              Then(Text(" WHERE "), PredicateShape(Nil, Text(""), OpNot, PredicateExpr(p), ExprEmit(fm, PredicateExpr(p))))
  {
    assert FoldAnd([Not(p)]) == Not(p);
    assert ExprEmit(fm, Nil) == Text("");
  }
}
