/** The call options a request's Meta carries (micro/rpc/server.go, handleConn):
    a deadline as a decimal count of Unix milliseconds under "deadline", and
    the oneway flag as "true" under "one-way". The client writes them with
    strconv.FormatInt; the server reads them back with strconv.ParseInt. */
module RpcMeta {
  import opened Wrappers

  /** What handleConn puts into the call's context. */
  datatype CallOptions = CallOptions(deadline: Option<int>, oneway: bool)

  const MinInt64: int := -0x8000_0000_0000_0000
  const MaxInt64: int := 0x7fff_ffff_ffff_ffff

  predicate IsDigit(c: char)
  {
    '0' <= c <= '9'
  }

  predicate AllDigits(s: string)
  {
    forall i :: 0 <= i < |s| ==> IsDigit(s[i])
  }

  /** The value of a string of decimal digits. */
  function DigitsValue(s: string): nat
    requires AllDigits(s)
  {
    if s == [] then 0 else DigitsValue(s[..|s| - 1]) * 10 + (s[|s| - 1] - '0') as nat
  }

  /** strconv.ParseInt(s, 10, 64): an optional sign, then one or more decimal
      digits, whose value must fit in 64 bits; anything else is an error (None). */
  function ParseInt64(s: string): (r: Option<int>)
    ensures r.Some? ==> MinInt64 <= r.value <= MaxInt64
  {
    if s == [] then None
    else
      var neg := s[0] == '-';
      var digits := if s[0] == '+' || s[0] == '-' then s[1..] else s;
      if digits == [] || !AllDigits(digits) then None
      else
        var v: int := DigitsValue(digits);
        var n := if neg then -v else v;
        if MinInt64 <= n <= MaxInt64 then Some(n) else None
  }

  /** The decimal digits of n, without leading zeros. */
  function FormatNat(n: nat): string
  {
    if n < 10 then [('0' as int + n) as char] else FormatNat(n / 10) + [('0' as int + n % 10) as char]
  }

  /** strconv.FormatInt(n, 10): a minus sign for a negative n, then its digits. */
  function FormatInt(n: int): string
  {
    if n < 0 then "-" + FormatNat(-n) else FormatNat(n)
  }

  /** handleConn's reading of Meta: a deadline only when "deadline" parses as a
      base-10 int64 (otherwise it is ignored); oneway only when "one-way" is
      exactly "true". */
  function OptionsOf(meta: map<string, string>): CallOptions
  {
    CallOptions(if "deadline" in meta then ParseInt64(meta["deadline"]) else None,
                "one-way" in meta && meta["one-way"] == "true")
  }

  /** The client's writing of the options into Meta. */
  function MetaOf(opts: CallOptions): map<string, string>
  {
    var m := if opts.deadline.Some? then map["deadline" := FormatInt(opts.deadline.value)] else map[];
    if opts.oneway then m["one-way" := "true"] else m
  }

  /** FormatNat writes digits only, at least one, and their value is n. */
  lemma {:induction false} FormatNatDigits(n: nat)
    ensures |FormatNat(n)| > 0 && AllDigits(FormatNat(n)) && DigitsValue(FormatNat(n)) == n
  {
    if n >= 10 {
      FormatNatDigits(n / 10);
      var s := FormatNat(n);
      assert s[..|s| - 1] == FormatNat(n / 10);
    }
  }

  /** ParseInt undoes FormatInt on every 64-bit integer. */
  lemma ParseFormat(n: int)
    requires MinInt64 <= n <= MaxInt64
    ensures ParseInt64(FormatInt(n)) == Some(n)
  {
    if n < 0 {
      FormatNatDigits(-n);
      assert FormatInt(n)[1..] == FormatNat(-n);
    } else {
      FormatNatDigits(n);
      assert IsDigit(FormatNat(n)[0]);
    }
  }

  /** The server reads back exactly the options the client wrote, for any
      deadline that fits in 64 bits. */
  lemma OptionsRoundTrip(opts: CallOptions)
    requires opts.deadline.Some? ==> MinInt64 <= opts.deadline.value <= MaxInt64
    ensures OptionsOf(MetaOf(opts)) == opts
  {
    if opts.deadline.Some? {
      ParseFormat(opts.deadline.value);
    }
  }

  /** A deadline value that is not a base-10 integer is ignored, not an error. */
  lemma UnparsableDeadlineIgnored(meta: map<string, string>)
    requires "deadline" in meta && ParseInt64(meta["deadline"]).None?
    ensures OptionsOf(meta).deadline.None?
  {
  }
}
