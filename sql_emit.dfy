/** What the query builders write. Every builder appends SQL text to a
    `strings.Builder` and placeholder arguments to an `args` slice, and stops at
    the first error; the text written before the error stays in the builder.
    An `Emit` records exactly that: the appended text, the appended arguments
    and the error the step stopped with. */
module SqlEmit {
  import opened Wrappers
  import opened OrmErrors
  import opened OrmExpr
  import opened OrmRegistry

  /** The built statement: SQL text and its arguments (a nil Args slice is the
      empty sequence; the builders never append an empty batch). */
  datatype Query = Query(sql: string, args: seq<Value>)

  datatype Emit = Emit(sql: string, args: seq<Value>, err: Option<OrmError>)

  function Text(s: string): Emit { Emit(s, [], None) }

  function Fail(e: OrmError): Emit { Emit("", [], Some(e)) }

  /** Run `a`, then `b` only when `a` did not fail. */
  function Then(a: Emit, b: Emit): Emit
  {
    if a.err.Some? then a else Emit(a.sql + b.sql, a.args + b.args, b.err)
  }

  /** An operand written between `(` and `)` when `paren` holds; the closing
      parenthesis is not written when the operand fails. */
  function Wrapped(paren: bool, inner: Emit): Emit
  {
    if paren then Then(Then(Text("("), inner), Text(")")) else inner
  }

  /** A non-empty operator is written with one space on each side. */
  function OpText(op: Op): Emit
  {
    if op == OpNone then Text("") else Text(" " + OpString(op) + " ")
  }

  /** The Predicate case shared by orm/selector.go, orm/HW_select/selector.go
      and orm/HW_delete/deleter.go: left operand (parenthesised when it is a
      Predicate), operator, right operand (parenthesised when it is a Predicate). */
  function PredicateShape(left: Expr, l: Emit, op: Op, right: Expr, r: Emit): Emit
  {
    Then(Then(Wrapped(left.PredicateExpr?, l), OpText(op)), Wrapped(right.PredicateExpr?, r))
  }

  /** Each `?` written comes with exactly one argument. */
  predicate Balanced(e: Emit)
  {
    CountQ(e.sql) == |e.args|
  }

  lemma ThenBalanced(a: Emit, b: Emit)
    requires Balanced(a) && Balanced(b)
    ensures Balanced(Then(a, b))
  {
    if a.err.None? {
      CountQConcat(a.sql, b.sql);
    }
  }

  lemma TextBalanced(s: string)
    requires '?' !in s
    ensures Balanced(Text(s))
  {
    CountQNone(s);
  }

  lemma ShapeBalanced(left: Expr, l: Emit, op: Op, right: Expr, r: Emit)
    requires Balanced(l) && Balanced(r)
    ensures Balanced(PredicateShape(left, l, op, right, r))
  {
    TextBalanced("(");
    TextBalanced(")");
    TextBalanced("");
    if op != OpNone {
      assert '?' !in " " + OpString(op) + " ";
      TextBalanced(" " + OpString(op) + " ");
    }
    ThenBalanced(Text("("), l);
    ThenBalanced(Then(Text("("), l), Text(")"));
    ThenBalanced(Text("("), r);
    ThenBalanced(Then(Text("("), r), Text(")"));
    ThenBalanced(Wrapped(left.PredicateExpr?, l), OpText(op));
    ThenBalanced(Then(Wrapped(left.PredicateExpr?, l), OpText(op)), Wrapped(right.PredicateExpr?, r));
  }

  /** The shape fails exactly when an operand fails, with the left operand's
      error first; on success its arguments are the left's then the right's. */
  lemma ShapeOutcome(left: Expr, l: Emit, op: Op, right: Expr, r: Emit)
    ensures PredicateShape(left, l, op, right, r).err ==
              (if l.err.Some? then l.err else r.err)
    ensures l.err.None? && r.err.None? ==>
              PredicateShape(left, l, op, right, r).args == l.args + r.args
  {
  }

  /** Not(p) as the Predicate case writes it: the nil left side writes nothing,
      so the text opens with the operator's own leading space. */
  lemma NotShape(p: Predicate, r: Emit)
    requires r.err.None?
    ensures PredicateShape(Nil, Text(""), OpNot, PredicateExpr(p), r).err == None
    ensures PredicateShape(Nil, Text(""), OpNot, PredicateExpr(p), r).sql == " NOT (" + r.sql + ")"
    ensures PredicateShape(Nil, Text(""), OpNot, PredicateExpr(p), r).args == r.args
  {
    var operand := Wrapped(true, r);
    assert operand.sql == "(" + r.sql + ")" && operand.err == None;
    assert operand.args == r.args by {
      assert [] + r.args + [] == r.args;
    }
    var lead := Then(Wrapped(false, Text("")), OpText(OpNot));
    assert lead.sql == " NOT " && lead.args == [] && lead.err == None by {
      assert "" + " NOT " == " NOT ";
    }
    assert " NOT " + ("(" + r.sql + ")") == " NOT (" + r.sql + ")";
  }

  /** ` WHERE ` followed by Not(p): two spaces before NOT. */
  lemma WhereNotText(p: Predicate, r: Emit)
    requires r.err.None?
    ensures Then(Text(" WHERE "), PredicateShape(Nil, Text(""), OpNot, PredicateExpr(p), r)).err == None
    ensures Then(Text(" WHERE "), PredicateShape(Nil, Text(""), OpNot, PredicateExpr(p), r)).sql
            == " WHERE  NOT (" + r.sql + ")"
    ensures Then(Text(" WHERE "), PredicateShape(Nil, Text(""), OpNot, PredicateExpr(p), r)).args == r.args
  {
    NotShape(p, r);
    assert " WHERE " + (" NOT (" + r.sql + ")") == " WHERE  NOT (" + r.sql + ")";
  }

  /** Then is associative, so a builder may group its steps either way. */
  lemma ThenAssoc(a: Emit, b: Emit, c: Emit)
    ensures Then(Then(a, b), c) == Then(a, Then(b, c))
  {
    if a.err.None? && b.err.None? {
      assert (a.sql + b.sql) + c.sql == a.sql + (b.sql + c.sql);
      assert (a.args + b.args) + c.args == a.args + (b.args + c.args);
    }
  }

  /** `e` fails exactly when some field in `fields` is missing from `keys`, and
      its error then names one such field. */
  predicate ReportsUnknown(e: Emit, fields: set<string>, keys: set<string>)
  {
    && (e.err.None? <==> fields <= keys)
    && (e.err.Some? ==> e.err.value.UnknownField? && e.err.value.name in fields && e.err.value.name !in keys)
  }

  /** On success `e` appended exactly `vals`. */
  predicate Yields(e: Emit, vals: seq<Value>)
  {
    e.err.None? ==> e.args == vals
  }

  lemma TextReports(s: string, keys: set<string>)
    ensures ReportsUnknown(Text(s), {}, keys) && Yields(Text(s), [])
  {
  }

  lemma {:induction false} ThenReports(a: Emit, fa: set<string>, b: Emit, fb: set<string>, keys: set<string>)
    requires ReportsUnknown(a, fa, keys) && ReportsUnknown(b, fb, keys)
    ensures ReportsUnknown(Then(a, b), fa + fb, keys)
  {
    if a.err.Some? {
      assert !(fa <= keys);
      assert a.err.value.name in fa + fb;
    } else {
      assert fa <= keys;
      assert (fb <= keys) <==> (fa + fb <= keys);
    }
  }

  lemma ThenYields(a: Emit, va: seq<Value>, b: Emit, vb: seq<Value>)
    requires Yields(a, va) && Yields(b, vb)
    ensures Yields(Then(a, b), va + vb)
  {
  }

  /** The shared Predicate case inherits both properties from its operands. */
  lemma ShapeReports(left: Expr, l: Emit, fl: set<string>, vl: seq<Value>, op: Op,
                     right: Expr, r: Emit, fr: set<string>, vr: seq<Value>, keys: set<string>)
    requires ReportsUnknown(l, fl, keys) && Yields(l, vl)
    requires ReportsUnknown(r, fr, keys) && Yields(r, vr)
    ensures ReportsUnknown(PredicateShape(left, l, op, right, r), fl + fr, keys)
    ensures Yields(PredicateShape(left, l, op, right, r), vl + vr)
  {
    ShapeOutcome(left, l, op, right, r);
    if l.err.Some? {
      assert l.err.value.name in fl + fr;
    } else if r.err.Some? {
      assert r.err.value.name in fl + fr;
    }
  }

  /** From (s0, a0) to (s1, a1) exactly what `e` describes was appended. */
  predicate Extends(s0: string, a0: seq<Value>, s1: string, a1: seq<Value>, e: Emit)
  {
    s1 == s0 + e.sql && a1 == a0 + e.args
  }

  /** Two steps, the first successful, append what their composition describes. */
  lemma ExtendsThen(s0: string, a0: seq<Value>, s1: string, a1: seq<Value>, e1: Emit,
                    s2: string, a2: seq<Value>, e2: Emit)
    requires Extends(s0, a0, s1, a1, e1) && e1.err.None? && Extends(s1, a1, s2, a2, e2)
    ensures Extends(s0, a0, s2, a2, Then(e1, e2))
  {
    assert s2 == s0 + (e1.sql + e2.sql);
    assert a2 == a0 + (e1.args + e2.args);
  }

  /** The table: the model's table name in backquotes, unless the builder's From set one,
      which is written verbatim. */
  function TableText(table: string, tableName: string): string
  {
    if table == "" then "`" + tableName + "`" else table
  }


  /** No column name of the model holds a `?`. */
  predicate PlainColumns(fm: map<string, Field>)
  {
    forall k :: k in fm ==> '?' !in fm[k].colName
  }
}
