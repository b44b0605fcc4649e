/** The errors the ORM packages return (the `errs` packages). Each constructor
    stands for one `errs.NewErr...` or one sentinel error value. */
module OrmErrors {

  datatype OrmError =
    | UnknownField(name: string)          // errs.NewErrUnknownField(name)
    | UnsupportedExpression               // errs.NewErrUnsupportedExpression(expr)
    | UnsupportedSelectable               // errs.NewErrUnsupportedSelectable(col)
    | UnsupportedExpressionType           // errs.NewErrUnsupportedExpressionType(tab)
    | PointerOnly                         // errs.ErrPointerOnly
    | InvalidTagContent(pair: string)     // errs.NewErrInvalidTagContent(pair)
    | OptionRejected(message: string)     // an error returned by a registry Option
}
