/** The query-condition tree shared by the `orm` root package, `orm/HW_select`
    and `orm/HW_delete`: columns, placeholder values, aggregates, raw SQL
    fragments and predicates, with their constructors. Everything here is a
    value; the builders walk it. */
module OrmExpr {

  /** Go's `any` as an argument: an int, a string, a bool, or an Expression
      handed over where a value was expected. `Boxed(Nil)` is the untyped nil:
      a nil `any` holds no Expression, so exprOf treats it as a plain value. */
  datatype Value =
    | IntValue(i: int)
    | StringValue(s: string)
    | BoolValue(b: bool)
    | Boxed(e: Expr)

  /** The operator of a Predicate; `OpNone` is the zero value "" that
      RawExpr.AsPredicate leaves behind. */
  datatype Op = OpNone | OpAnd | OpOr | OpNot | OpEq | OpLt | OpGt

  datatype Column = Column(name: string, alias: string)

  datatype Aggregate = Aggregate(fn: string, arg: string, alias: string)

  datatype RawExpr = RawExpr(raw: string, args: seq<Value>)

  datatype Predicate = Predicate(left: Expr, op: Op, right: Expr)

  /** The Expression interface. `Nil` is the nil interface value (the missing
      left side of NOT, the missing right side of AsPredicate). */
  datatype Expr =
    | Nil
    | ColumnExpr(column: Column)
    | ValueExpr(value: Value)
    | AggregateExpr(aggregate: Aggregate)
    | RawExprE(rawExpr: RawExpr)
    | PredicateExpr(pred: Predicate)

  /** The Selectable interface: Column, Aggregate and RawExpr implement it. */
  datatype Selectable =
    | SelectColumn(column: Column)
    | SelectAggregate(aggregate: Aggregate)
    | SelectRaw(rawExpr: RawExpr)

  datatype OrderBy = OrderBy(col: string, order: string)

  /** op.String(): the literal operator text. */
  function OpString(o: Op): (s: string)
    ensures (s == "") <==> (o == OpNone)
  {
    match o
    case OpNone => ""
    case OpAnd => "AND"
    case OpOr => "OR"
    case OpNot => "NOT"
    case OpEq => "="
    case OpLt => "<"
    case OpGt => ">"
  }

  lemma OpStringInjective(a: Op, b: Op)
    requires OpString(a) == OpString(b)
    ensures a == b
  {
  }

  /** C(name): a column with no alias. */
  function C(name: string): (c: Column)
    ensures c.name == name && c.alias == ""
  {
    Column(name, "")
  }

  /** Column.As returns a fresh Column; the receiver, a value, is unchanged. */
  function As(c: Column, alias: string): (r: Column)
    ensures r.name == c.name && r.alias == alias
  {
    Column(c.name, alias)
  }

  /** valueOf(v): wraps v as a placeholder value. */
  function ValueOf(v: Value): (e: Expr)
    ensures e.ValueExpr? && e.value == v
  {
    ValueExpr(v)
  }

  /** exprOf(e): an Expression is kept as it is, anything else becomes a value.
      The type switch never matches `case Expression` for nil, so nil takes the
      default branch and becomes a placeholder value too. */
  function ExprOf(v: Value): (e: Expr)
    ensures v.Boxed? && !v.e.Nil? ==> e == v.e
    ensures !v.Boxed? || v.e.Nil? ==> e == ValueExpr(v)
    ensures !e.Nil?
  {
    match v
    case Boxed(inner) => if inner.Nil? then ValueOf(v) else inner
    case _ => ValueOf(v)
  }

  /** Column.Eq / Lt / Gt: the column on the left, the argument as a value
      on the right (never passed through exprOf). */
  function ColumnCompare(c: Column, op: Op, arg: Value): (p: Predicate)
    requires op in {OpEq, OpLt, OpGt}
    ensures p.left == ColumnExpr(c) && p.op == op && p.right == ValueExpr(arg)
  {
    Predicate(ColumnExpr(c), op, ValueExpr(arg))
  }

  function ColumnEq(c: Column, arg: Value): Predicate { ColumnCompare(c, OpEq, arg) }
  function ColumnLt(c: Column, arg: Value): Predicate { ColumnCompare(c, OpLt, arg) }
  function ColumnGt(c: Column, arg: Value): Predicate { ColumnCompare(c, OpGt, arg) }

  /** Avg(c): function AVG over the field c, no alias. */
  function Avg(c: string): (a: Aggregate)
    ensures a.fn == "AVG" && a.arg == c && a.alias == ""
  {
    Aggregate("AVG", c, "")
  }

  /** Aggregate.As keeps fn and arg and sets the alias on a new value. */
  function AggregateAs(a: Aggregate, alias: string): (r: Aggregate)
    ensures r.fn == a.fn && r.arg == a.arg && r.alias == alias
  {
    Aggregate(a.fn, a.arg, alias)
  }

  /** Aggregate.Eq / Gt / Lt: the aggregate on the left, exprOf(arg) on the right. */
  function AggregateCompare(a: Aggregate, op: Op, arg: Value): (p: Predicate)
    requires op in {OpEq, OpLt, OpGt}
    ensures p.left == AggregateExpr(a) && p.op == op && p.right == ExprOf(arg)
  {
    Predicate(AggregateExpr(a), op, ExprOf(arg))
  }

  function AggregateEq(a: Aggregate, arg: Value): Predicate { AggregateCompare(a, OpEq, arg) }
  function AggregateGt(a: Aggregate, arg: Value): Predicate { AggregateCompare(a, OpGt, arg) }
  function AggregateLt(a: Aggregate, arg: Value): Predicate { AggregateCompare(a, OpLt, arg) }

  /** Raw(expr, args...): the text and the arguments are kept verbatim. */
  function Raw(expr: string, args: seq<Value>): (r: RawExpr)
    ensures r.raw == expr && r.args == args
  {
    RawExpr(expr, args)
  }

  /** RawExpr.AsPredicate: the raw text on the left, no operator, no right side. */
  function AsPredicate(r: RawExpr): (p: Predicate)
    ensures p.left == RawExprE(r) && p.op == OpNone && p.right == Nil
  {
    Predicate(RawExprE(r), OpNone, Nil)
  }

  /** Not(p): nil on the left, NOT, p on the right. */
  function Not(p: Predicate): (r: Predicate)
    ensures r.left == Nil && r.op == OpNot && r.right == PredicateExpr(p)
  {
    Predicate(Nil, OpNot, PredicateExpr(p))
  }

  /** left.And(right): receiver on the left, argument on the right, no simplification. */
  function AndP(left: Predicate, right: Predicate): (r: Predicate)
    ensures r.left == PredicateExpr(left) && r.op == OpAnd && r.right == PredicateExpr(right)
  {
    Predicate(PredicateExpr(left), OpAnd, PredicateExpr(right))
  }

  /** left.Or(right): receiver on the left, argument on the right. */
  function OrP(left: Predicate, right: Predicate): (r: Predicate)
    ensures r.left == PredicateExpr(left) && r.op == OpOr && r.right == PredicateExpr(right)
  {
    Predicate(PredicateExpr(left), OpOr, PredicateExpr(right))
  }

  /** Asc(col) / Desc(col): an ordering term with the literal keyword. */
  function Asc(col: string): (o: OrderBy)
    ensures o.col == col && o.order == "ASC"
  {
    OrderBy(col, "ASC")
  }

  function Desc(col: string): (o: OrderBy)
    ensures o.col == col && o.order == "DESC"
  {
    OrderBy(col, "DESC")
  }

  /** The builders fold a list of predicates left to right with And:
      ps[0].And(ps[1]).And(ps[2])... */
  function FoldAnd(ps: seq<Predicate>): Predicate
    requires |ps| > 0
    decreases |ps|
  {
    if |ps| == 1 then ps[0] else AndP(FoldAnd(ps[..|ps| - 1]), ps[|ps| - 1])
  }

  /** The fold as orm/selector.go and orm/HW_delete/deleter.go write it in
      Build: start from the first predicate and And each next one onto it. */
  method AndAll(ps: seq<Predicate>) returns (p: Predicate)
    requires |ps| > 0
    ensures p == FoldAnd(ps)
  {
    p := ps[0];
    var i := 1;
    while i < |ps|
      invariant 1 <= i <= |ps|
      invariant p == FoldAnd(ps[..i])
    {
      assert ps[..i + 1][..i] == ps[..i];
      p := AndP(p, ps[i]);
      i := i + 1;
    }
    assert ps[..|ps|] == ps;
  }

  /** The values a tree contributes as placeholder arguments, left to right:
      one per value, all of a raw fragment's arguments. */
  function ValuesOf(e: Expr): seq<Value>
  {
    match e
    case Nil => []
    case ColumnExpr(_) => []
    case ValueExpr(v) => [v]
    case AggregateExpr(_) => []
    case RawExprE(r) => r.args
    case PredicateExpr(p) => ValuesOf(p.left) + ValuesOf(p.right)
  }

  function ValuesOfAll(ps: seq<Predicate>): seq<Value>
  {
    if ps == [] then [] else ValuesOfAll(ps[..|ps| - 1]) + ValuesOf(PredicateExpr(ps[|ps| - 1]))
  }

  /** Folding with And neither drops nor reorders arguments: the folded
      predicate's values are the predicates' values, in list order. */
  lemma {:induction false} FoldAndValues(ps: seq<Predicate>)
    requires |ps| > 0
    ensures ValuesOf(PredicateExpr(FoldAnd(ps))) == ValuesOfAll(ps)
  {
    if |ps| == 1 {
      assert ps[..0] == [];
    } else {
      FoldAndValues(ps[..|ps| - 1]);
    }
  }

  /** Every field name a tree refers to: columns' names and aggregates' arguments. */
  function FieldsOf(e: Expr): set<string>
  {
    match e
    case Nil => {}
    case ColumnExpr(c) => {c.name}
    case ValueExpr(_) => {}
    case AggregateExpr(a) => {a.arg}
    case RawExprE(_) => {}
    case PredicateExpr(p) => FieldsOf(p.left) + FieldsOf(p.right)
  }

  function FieldsOfAll(ps: seq<Predicate>): set<string>
  {
    if ps == [] then {} else FieldsOfAll(ps[..|ps| - 1]) + FieldsOf(PredicateExpr(ps[|ps| - 1]))
  }

  lemma {:induction false} FoldAndFields(ps: seq<Predicate>)
    requires |ps| > 0
    ensures FieldsOf(PredicateExpr(FoldAnd(ps))) == FieldsOfAll(ps)
  {
    if |ps| == 1 {
      assert ps[..0] == [];
    } else {
      FoldAndFields(ps[..|ps| - 1]);
    }
  }

  /** True when no Aggregate appears in the tree. */
  predicate NoAggregate(e: Expr)
  {
    match e
    case AggregateExpr(_) => false
    case PredicateExpr(p) => NoAggregate(p.left) && NoAggregate(p.right)
    case _ => true
  }

  /** True when neither an Aggregate nor a RawExpr appears in the tree. */
  predicate OnlyColumnsValues(e: Expr)
  {
    match e
    case AggregateExpr(_) => false
    case RawExprE(_) => false
    case PredicateExpr(p) => OnlyColumnsValues(p.left) && OnlyColumnsValues(p.right)
    case _ => true
  }

  predicate AllNoAggregate(ps: seq<Predicate>)
  {
    forall i :: 0 <= i < |ps| ==> NoAggregate(PredicateExpr(ps[i]))
  }

  predicate AllOnlyColumnsValues(ps: seq<Predicate>)
  {
    forall i :: 0 <= i < |ps| ==> OnlyColumnsValues(PredicateExpr(ps[i]))
  }

  /** The folded predicate holds no Aggregate exactly when none of the list does. */
  lemma {:induction false} FoldAndNoAggregate(ps: seq<Predicate>)
    requires |ps| > 0
    ensures NoAggregate(PredicateExpr(FoldAnd(ps))) <==> AllNoAggregate(ps)
  {
    if |ps| > 1 {
      var init := ps[..|ps| - 1];
      FoldAndNoAggregate(init);
      assert AllNoAggregate(ps) <==> AllNoAggregate(init) && NoAggregate(PredicateExpr(ps[|ps| - 1])) by {
        assert forall i :: 0 <= i < |init| ==> init[i] == ps[i];
      }
    }
  }

  lemma {:induction false} FoldAndOnlyColumnsValues(ps: seq<Predicate>)
    requires |ps| > 0
    ensures OnlyColumnsValues(PredicateExpr(FoldAnd(ps))) <==> AllOnlyColumnsValues(ps)
  {
    if |ps| > 1 {
      var init := ps[..|ps| - 1];
      FoldAndOnlyColumnsValues(init);
      assert AllOnlyColumnsValues(ps) <==> AllOnlyColumnsValues(init) && OnlyColumnsValues(PredicateExpr(ps[|ps| - 1])) by {
        assert forall i :: 0 <= i < |init| ==> init[i] == ps[i];
      }
    }
  }

  /** A raw fragment whose text holds as many `?` as it has arguments. */
  function CountQ(s: string): nat
  {
    if s == [] then 0 else CountQ(s[..|s| - 1]) + (if s[|s| - 1] == '?' then 1 else 0)
  }

  lemma {:induction false} CountQConcat(a: string, b: string)
    ensures CountQ(a + b) == CountQ(a) + CountQ(b)
    decreases |b|
  {
    if b == [] {
      assert a + b == a;
    } else {
      assert (a + b)[..|a + b| - 1] == a + b[..|b| - 1];
      CountQConcat(a, b[..|b| - 1]);
    }
  }

  lemma {:induction false} CountQNone(s: string)
    requires '?' !in s
    ensures CountQ(s) == 0
    decreases |s|
  {
    if s != [] {
      assert '?' !in s[..|s| - 1];
      CountQNone(s[..|s| - 1]);
    }
  }

  /** Every raw fragment in the tree carries one argument per `?` in its text. */
  predicate RawBalanced(e: Expr)
  {
    match e
    case RawExprE(r) => CountQ(r.raw) == |r.args|
    case PredicateExpr(p) => RawBalanced(p.left) && RawBalanced(p.right)
    case _ => true
  }

  predicate AllRawBalanced(ps: seq<Predicate>)
  {
    forall i :: 0 <= i < |ps| ==> RawBalanced(PredicateExpr(ps[i]))
  }

  lemma {:induction false} FoldAndRawBalanced(ps: seq<Predicate>)
    requires |ps| > 0 && AllRawBalanced(ps)
    ensures RawBalanced(PredicateExpr(FoldAnd(ps)))
  {
    if |ps| > 1 {
      FoldAndRawBalanced(ps[..|ps| - 1]);
    }
  }
}
