/**
 * The Python values a decoded JSON payload is made of, and the parts of
 * Python's semantics the trend validator applies to them: `key in v`,
 * `int(v)`, `bool(v)`, and the exceptions these raise, carried as data.
 */
module PyJson {
  import opened Wrappers
  import opened Text

  /**
   * A value as `json.loads` returns it. Numbers with a fraction or an
   * exponent, and NaN and Infinity, which decode to floats, are not modelled.
   */
  datatype Json =
    | JNull
    | JBool(b: bool)
    | JInt(i: int)
    | JStr(s: string)
    | JArr(items: seq<Json>)
    | JObj(fields: map<string, Json>)

  /** The name Python gives the value's type in error messages. */
  function TypeName(v: Json): string
  {
    match v
    case JNull => "NoneType"
    case JBool(_) => "bool"
    case JInt(_) => "int"
    case JStr(_) => "str"
    case JArr(_) => "list"
    case JObj(_) => "dict"
  }

  /** `bool(v)`: Python truthiness. */
  predicate Truthy(v: Json)
    // the falsy values are exactly None, False, 0, "", [] and {}
    ensures !Truthy(v) <==> v in {JNull, JBool(false), JInt(0), JStr(""), JArr([]), JObj(map[])}
  {
    match v
    case JNull => false
    case JBool(b) => b
    case JInt(i) => i != 0
    case JStr(s) => s != ""
    case JArr(items) => items != []
    case JObj(fields) => fields != map[]
  }

  /** The exceptions the validator can raise, by what raised them. */
  datatype PyError =
    | AttributeError(owner: string, attribute: string)
    /** The TypeError of `key in v` on a value that is not a container. */
    | NotIterable(typeName: string)
    /** The TypeError of `int(v)` on a value of the wrong type. */
    | IntArgumentType(typeName: string)
    /** The ValueError of `int(s)` on a string that is not an integer literal. */
    | InvalidIntLiteral(literal: string)
    /** The ValueError of `int(s)` on a literal with more digits than the conversion limit allows. */
    | IntMaxStrDigits(digits: nat)
    /** The RecursionError `json.loads` raises on arrays or objects nested too deeply. */
    | RecursionLimit(container: string)

  /** `str(e)`. */
  function Message(e: PyError): string
  {
    match e
    case AttributeError(owner, attribute) =>
      "'" + owner + "' object has no attribute '" + attribute + "'"
    case NotIterable(typeName) => "argument of type '" + typeName + "' is not iterable"
    case IntArgumentType(typeName) =>
      "int() argument must be a string, a bytes-like object or a real number, not '" + typeName + "'"
    case InvalidIntLiteral(literal) => "invalid literal for int() with base 10: '" + literal + "'"
    case IntMaxStrDigits(digits) =>
      "Exceeds the limit (" + ShowNat(MaxStrDigits) + " digits) for integer string conversion: value has "
      + ShowNat(digits) + " digits; use sys.set_int_max_str_digits() to increase the limit"
    case RecursionLimit(container) =>
      "maximum recursion depth exceeded while decoding a JSON " + container + " from a unicode string"
  }

  /** The default of `sys.get_int_max_str_digits()`: the most digits `int()` converts from a string. */
  const MaxStrDigits: nat := 4300

  /** The number of decimal digits in `s`. */
  function DigitCount(s: string): (n: nat)
    ensures n <= |s|
  {
    if s == [] then 0 else (if IsDigit(s[0]) then 1 else 0) + DigitCount(s[1..])
  }

  /** The text of the ValueError `int("high")` raises. */
  lemma HighLiteralMessage()
    ensures Message(InvalidIntLiteral("high")) == "invalid literal for int() with base 10: 'high'"
  {
  }

  /** `int("high")` raises the invalid-literal ValueError. */
  lemma IntOfHigh()
    ensures IntOf(JStr("high")) == Raised(InvalidIntLiteral("high"))
  {
    HighIsNoLiteral();
  }

  /** "high" is not an integer literal: it has no sign and does not end in a digit. */
  lemma HighIsNoLiteral()
    ensures ParseInt("high") == None
  {
    var t := "high";
    assert t[0] == 'h' && t[|t| - 1] == 'h';
    assert !IsSpace('h');
    ParseIntUnstripped(t);
    assert !DigitRun(t);
  }

  /** A Python computation either returns a value or raises. */
  datatype Outcome<+T> = Returned(value: T) | Raised(error: PyError)

  /**
   * `key in v` for a string key: key membership on a dict, element
   * membership on a list, substring on a str; a TypeError otherwise.
   */
  function Member(v: Json, key: string): (r: Outcome<bool>)
    ensures r.Raised? <==> v.JNull? || v.JBool? || v.JInt?
    ensures r.Raised? ==> r.error == NotIterable(TypeName(v))
    ensures v.JObj? ==> r == Returned(key in v.fields)
  {
    match v
    case JObj(fields) => Returned(key in fields)
    case JArr(items) => Returned(JStr(key) in items)
    case JStr(s) => Returned(Contains(s, key))
    case _ => Raised(NotIterable(TypeName(v)))
  }

  predicate IsDigit(c: char)
  {
    '0' <= c <= '9'
  }

  /**
   * A run of decimal digits with single underscores between digits, as
   * `int()` accepts: it ends in a digit, and what precedes that digit
   * (after one optional underscore) is again a digit run, or nothing.
   */
  predicate DigitRun(s: string)
    decreases |s|
  {
    && s != []
    && IsDigit(s[|s| - 1])
    && (|s| == 1 || (if s[|s| - 2] == '_' then DigitRun(s[..|s| - 2]) else DigitRun(s[..|s| - 1])))
  }

  predicate AllDigits(s: string)
  {
    forall i :: 0 <= i < |s| ==> IsDigit(s[i])
  }

  /** The value of the digits of `s`, underscores skipped. */
  function DigitsValue(s: string): nat
  {
    if s == [] then 0
    else if IsDigit(s[|s| - 1]) then DigitsValue(s[..|s| - 1]) * 10 + (s[|s| - 1] as int - '0' as int)
    else DigitsValue(s[..|s| - 1])
  }

  /** `int(s)` on a str: surrounding whitespace, an optional sign, then a digit run. */
  function ParseInt(s: string): Option<int>
  {
    ParseSigned(Strip(s))
  }

  /** An optional sign, then a digit run. */
  function ParseSigned(t: string): Option<int>
  {
    if t != [] && (t[0] == '+' || t[0] == '-') then
      if DigitRun(t[1..]) then
        var magnitude: int := DigitsValue(t[1..]);
        Some(if t[0] == '-' then -magnitude else magnitude)
      else None
    else if DigitRun(t) then Some(DigitsValue(t))
    else None
  }

  /** `int(v)`. */
  function IntOf(v: Json): (r: Outcome<int>)
    ensures v.JInt? ==> r == Returned(v.i)
    ensures v.JBool? ==> r == Returned(if v.b then 1 else 0)
    // a str converts when it is a literal of at most `MaxStrDigits` digits, to the literal's value
    ensures v.JStr? ==> (r.Returned? <==> ParseInt(v.s).Some? && DigitCount(v.s) <= MaxStrDigits)
    ensures v.JStr? && r.Returned? ==> r.value == ParseInt(v.s).value
    ensures v.JStr? && r.Raised? ==>
      r.error == if ParseInt(v.s).None? then InvalidIntLiteral(v.s) else IntMaxStrDigits(DigitCount(v.s))
    ensures v.JNull? || v.JArr? || v.JObj? ==> r == Raised(IntArgumentType(TypeName(v)))
  {
    match v
    case JInt(i) => Returned(i)
    case JBool(b) => Returned(if b then 1 else 0)
    case JStr(s) =>
      (match ParseInt(s)
       case Some(n) => if DigitCount(s) > MaxStrDigits then Raised(IntMaxStrDigits(DigitCount(s))) else Returned(n)
       case None => Raised(InvalidIntLiteral(s)))
    case _ => Raised(IntArgumentType(TypeName(v)))
  }

  /** `str(n)` for a natural number. */
  function ShowNat(n: nat): string
  {
    if n < 10 then [('0' as int + n) as char]
    else ShowNat(n / 10) + [('0' as int + n % 10) as char]
  }

  /** `str(n)`. */
  function Show(n: int): string
  {
    if n < 0 then "-" + ShowNat(-n) else ShowNat(n)
  }

  lemma {:induction false} ShowNatDigits(n: nat)
    ensures DigitRun(ShowNat(n))
    ensures AllDigits(ShowNat(n))
    ensures DigitsValue(ShowNat(n)) == n
  {
    var s := ShowNat(n);
    if n >= 10 {
      var p := ShowNat(n / 10);
      ShowNatDigits(n / 10);
      assert s == p + [s[|s| - 1]];
      assert s[..|s| - 1] == p;
      assert s[|s| - 2] == p[|p| - 1];
      forall i | 0 <= i < |s| ensures IsDigit(s[i]) {
        if i < |p| { assert s[i] == p[i]; }
      }
    }
  }

  /** A digit run, with or without a minus sign, parses to its value. */
  lemma ParseDigits(d: string, m: nat)
    requires DigitRun(d) && AllDigits(d) && DigitsValue(d) == m
    ensures ParseInt(d) == Some(m)
    ensures ParseInt("-" + d) == Some(-(m as int))
  {
    assert IsDigit(d[0]) && IsDigit(d[|d| - 1]);
    StripUnchanged(d);
    UnsignedDigits(d, m);
    NegatedDigits(d, m);
  }

  /** A digit run with no sign reads as its value. */
  lemma UnsignedDigits(d: string, m: nat)
    requires DigitRun(d) && IsDigit(d[0]) && DigitsValue(d) == m
    ensures ParseSigned(d) == Some(m)
  {
  }

  /** The minus-sign half of `ParseDigits`. */
  lemma NegatedDigits(d: string, m: nat)
    requires DigitRun(d) && IsDigit(d[|d| - 1]) && DigitsValue(d) == m
    ensures ParseInt("-" + d) == Some(-(m as int))
  {
    var t := "-" + d;
    assert t[0] == '-' && t[1..] == d && t[|t| - 1] == d[|d| - 1];
    assert !IsSpace(t[0]) && !IsSpace(t[|t| - 1]);
    ParseIntUnstripped(t);
    NegativeSigned(t, m);
  }

  /** `int()` of text with no whitespace at its ends reads the sign and digits directly. */
  lemma ParseIntUnstripped(t: string)
    requires t == [] || (!IsSpace(t[0]) && !IsSpace(t[|t| - 1]))
    ensures ParseInt(t) == ParseSigned(t)
  {
    StripUnchanged(t);
  }

  /** A minus sign before a digit run reads as the negated value. */
  lemma NegativeSigned(t: string, m: nat)
    requires |t| >= 2 && t[0] == '-' && DigitRun(t[1..]) && DigitsValue(t[1..]) == m
    ensures ParseSigned(t) == Some(-(m as int))
  {
  }

  /**
   * `int(str(n))`: gives back `n` when its decimal text has at most
   * `MaxStrDigits` digits, and raises the conversion-limit ValueError otherwise.
   */
  lemma IntOfShow(n: int)
    ensures var digits := |ShowNat(if n < 0 then -n else n)|;
      IntOf(JStr(Show(n))) == if digits <= MaxStrDigits then Returned(n) else Raised(IntMaxStrDigits(digits))
  {
    ShowParses(n);
  }

  /** `str(n)` is an integer literal for `n` whose digits are those of `str(abs(n))`. */
  lemma ShowParses(n: int)
    ensures ParseInt(Show(n)) == Some(n)
    ensures DigitCount(Show(n)) == |ShowNat(if n < 0 then -n else n)|
  {
    var m: nat := if n < 0 then -n else n;
    var d := ShowNat(m);
    ShowNatDigits(m);
    ParseDigits(d, m);
    DigitCountAll(d);
    if n < 0 {
      assert ("-" + d)[1..] == d;
    }
  }

  /** Text made only of digits has as many digits as characters. */
  lemma {:induction false} DigitCountAll(d: string)
    requires AllDigits(d)
    ensures DigitCount(d) == |d|
  {
    if d != [] {
      assert AllDigits(d[1..]) by {
        forall i | 0 <= i < |d[1..]| ensures IsDigit(d[1..][i]) { assert d[1..][i] == d[i + 1]; }
      }
      DigitCountAll(d[1..]);
    }
  }

}
