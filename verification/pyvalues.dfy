/** The values a tool call receives once its JSON arguments are decoded, and
    the Python built-ins the handlers apply to them: truth testing, `int(...)`,
    `str(...)`, and the exceptions these raise. */
module PyValues {
  import opened Wrappers

  /** A decoded JSON value as Python holds it. JSON numbers with a fraction
      or an exponent are not modelled. */
  datatype Value =
    | Null
    | Bool(b: bool)
    | Int(i: int)
    | Str(s: string)
    | Arr(items: seq<Value>)
    | Obj(fields: map<string, Value>)

  /** `type(v).__name__` */
  function TypeNameOf(v: Value): string {
    match v
    case Null => "NoneType"
    case Bool(_) => "bool"
    case Int(_) => "int"
    case Str(_) => "str"
    case Arr(_) => "list"
    case Obj(_) => "dict"
  }

  /** Python truth testing: None, False, 0 and empty containers are false. */
  predicate Truthy(v: Value) {
    match v
    case Null => false
    case Bool(b) => b
    case Int(i) => i != 0
    case Str(s) => s != ""
    case Arr(items) => items != []
    case Obj(fields) => fields != map[]
  }

  /** The exceptions the modelled code can raise, with the text `str(e)` gives. */
  datatype Fault =
    | KeyError(key: string)
    | TypeError(message: string)
    | ValueError(message: string)
    | OverflowError(message: string)
    | ProgrammingError(message: string)
    | IntegrityError(message: string)
  {
    /** `type(e).__name__` */
    function TypeName(): string {
      match this
      case KeyError(_) => "KeyError"
      case TypeError(_) => "TypeError"
      case ValueError(_) => "ValueError"
      case OverflowError(_) => "OverflowError"
      case ProgrammingError(_) => "ProgrammingError"
      case IntegrityError(_) => "IntegrityError"
    }

    /** `str(e)`; a KeyError shows the repr of its key. */
    function Text(): string {
      match this
      case KeyError(k) => Quoted(k)
      case TypeError(m) => m
      case ValueError(m) => m
      case OverflowError(m) => m
      case ProgrammingError(m) => m
      case IntegrityError(m) => m
    }
  }

  /** The repr of a string, without Python's escaping of quotes and control characters. */
  function Quoted(s: string): string {
    "'" + s + "'"
  }

  // ---------------------------------------------------------------------
  // str(n) for an integer

  predicate IsDigit(c: char) {
    '0' <= c <= '9'
  }

  function DigitValue(c: char): nat {
    if IsDigit(c) then (c as int) - ('0' as int) else 0
  }

  function DigitChar(d: nat): (c: char)
    requires d < 10
    ensures IsDigit(c) && DigitValue(c) == d
  {
    ('0' as int + d) as char
  }

  /** The decimal digits of n, most significant first, without leading zeros. */
  function Digits(n: nat): (s: string)
    ensures |s| > 0
    ensures forall i :: 0 <= i < |s| ==> IsDigit(s[i])
    decreases n
  {
    if n < 10 then [DigitChar(n)] else Digits(n / 10) + [DigitChar(n % 10)]
  }

  /** `str(n)` */
  function Decimal(n: int): string {
    if n < 0 then "-" + Digits(-n) else Digits(n)
  }

  // ---------------------------------------------------------------------
  // int(s) for a string, base 10

  /** The characters `int()` ignores around its argument: the six ASCII
      whitespace characters, and the non-ASCII characters `str.isspace()`
      accepts (which `int()` first turns into ASCII spaces). The ASCII
      separators U+001C to U+001F are not among them. */
  predicate IsSpace(c: char) {
    || c == ' ' || c == '\t' || c == '\n' || c == '\U{000B}' || c == '\U{000C}' || c == '\r'
    || c == '\U{0085}' || c == '\U{00A0}' || c == '\U{1680}'
    || ('\U{2000}' <= c <= '\U{200A}') || c == '\U{2028}' || c == '\U{2029}' || c == '\U{202F}'
    || c == '\U{205F}' || c == '\U{3000}'
  }

  predicate AllSpace(w: string) {
    forall i :: 0 <= i < |w| ==> IsSpace(w[i])
  }

  function StripLeading(s: string): string {
    if |s| > 0 && IsSpace(s[0]) then StripLeading(s[1..]) else s
  }

  function StripTrailing(s: string): string {
    if |s| > 0 && IsSpace(s[|s| - 1]) then StripTrailing(s[..|s| - 1]) else s
  }

  function Strip(s: string): string {
    StripTrailing(StripLeading(s))
  }

  /** Digits with single underscores between them, as `int()` accepts: "1_000" but not "_1", "1_" or "1__0". */
  predicate Grouped(s: string) {
    && |s| > 0
    && IsDigit(s[0])
    && IsDigit(s[|s| - 1])
    && forall i :: 0 <= i < |s| ==>
         IsDigit(s[i]) || (s[i] == '_' && 0 < i < |s| - 1 && IsDigit(s[i - 1]) && IsDigit(s[i + 1]))
  }

  /** The number the digits of s spell, underscores skipped. */
  function GroupedValue(s: string): nat {
    if s == [] then 0
    else if IsDigit(s[|s| - 1]) then 10 * GroupedValue(s[..|s| - 1]) + DigitValue(s[|s| - 1])
    else GroupedValue(s[..|s| - 1])
  }

  /** An optional sign followed by grouped digits, nothing else. */
  function ParseSigned(t: string): Option<int> {
    if |t| > 0 && (t[0] == '+' || t[0] == '-') then
      if Grouped(t[1..]) then
        var magnitude: int := GroupedValue(t[1..]);
        Some(if t[0] == '-' then -magnitude else magnitude)
      else None
    else if Grouped(t) then Some(GroupedValue(t))
    else None
  }

  /** `int(s)` for a str s: None where Python raises ValueError. Non-ASCII decimal digits are not modelled. */
  function ParseInt(s: string): Option<int> {
    ParseSigned(Strip(s))
  }

  /** The message of `int()`'s ValueError shows at most 200 characters of the argument's repr. */
  function Clipped(q: string): (r: string)
    ensures |q| <= 200 ==> r == q
    ensures |q| > 200 ==> |r| == 200 && r <= q
  {
    if |q| <= 200 then q else q[..200]
  }

  /** `int(v)` as the handlers apply it to an argument. */
  function PyInt(v: Value): (r: Result<int, Fault>)
    ensures v.Int? ==> r == Ok(v.i)
    ensures v.Bool? ==> r == Ok(if v.b then 1 else 0)
    ensures v.Str? ==> (r.Ok? <==> ParseInt(v.s).Some?)
    ensures v.Str? && r.Ok? ==> r.value == ParseInt(v.s).value
    ensures v.Str? && r.Err? ==> r.error == ValueError("invalid literal for int() with base 10: " + Clipped(Quoted(v.s)))
    ensures (v.Null? || v.Arr? || v.Obj?) ==> r.Err? && r.error.TypeError?
  {
    match v
    case Bool(b) => Ok(if b then 1 else 0)
    case Int(i) => Ok(i)
    case Str(s) =>
      (match ParseInt(s)
       case Some(n) => Ok(n)
       case None => Err(ValueError("invalid literal for int() with base 10: " + Clipped(Quoted(s)))))
    case _ =>
      Err(TypeError("int() argument must be a string, a bytes-like object or a real number, not '"
                    + TypeNameOf(v) + "'"))
  }

  // ---------------------------------------------------------------------
  // str(v)

  /** `str(v)`. Lists render element by element; a non-empty dict renders as a
      placeholder, since the model does not keep a dict's key order. */
  function PyStr(v: Value): (s: string)
    ensures v.Str? ==> s == v.s
    ensures v.Int? ==> s == Decimal(v.i)
    ensures v.Null? ==> s == "None"
    ensures v.Bool? ==> s == if v.b then "True" else "False"
    ensures v.Arr? ==> |s| >= 2 && s[0] == '[' && s[|s| - 1] == ']'
    decreases v, 2, 0
  {
    match v
    case Null => "None"
    case Bool(b) => if b then "True" else "False"
    case Int(i) => Decimal(i)
    case Str(s) => s
    case Arr(items) => "[" + ReprItems(v, 0) + "]"
    case Obj(fields) => if fields == map[] then "{}" else "{...}"
  }

  /** `repr(v)`: as `str(v)`, except that a string is quoted. */
  function PyRepr(v: Value): string
    decreases v, 3, 0
  {
    if v.Str? then Quoted(v.s) else PyStr(v)
  }

  function ReprItems(v: Value, i: nat): string
    requires v.Arr? && i <= |v.items|
    decreases v, 1, |v.items| - i
  {
    if i == |v.items| then ""
    else (if i == 0 then "" else ", ") + PyRepr(v.items[i]) + ReprItems(v, i + 1)
  }

  // ---------------------------------------------------------------------
  // dict(v)

  function SequenceLengthMessage(i: nat, length: nat): string {
    "dictionary update sequence element #" + Decimal(i) + " has length " + Decimal(length) + "; 2 is required"
  }

  /** The i-th element of a list handed to `dict()`, read as a key/value pair. */
  function PairAt(items: seq<Value>, i: nat): Result<(Value, Value), Fault>
    requires i < |items|
  {
    match items[i]
    case Arr(xs) => if |xs| == 2 then Ok((xs[0], xs[1])) else Err(ValueError(SequenceLengthMessage(i, |xs|)))
    case Str(s) => if |s| == 2 then Ok((Str([s[0]]), Str([s[1]]))) else Err(ValueError(SequenceLengthMessage(i, |s|)))
    case Obj(fields) => Err(ValueError(SequenceLengthMessage(i, |fields|)))
    case _ => Err(TypeError("cannot convert dictionary update sequence element #" + Decimal(i) + " to a sequence"))
  }

  /** `dict()` over a list of pairs from position i on; a later pair overwrites
      an earlier one with the same key. Keys that are not strings are hashed
      but kept out of the result, since no string lookup can find them. */
  function DictFromPairs(items: seq<Value>, i: nat, acc: map<string, Value>): Result<map<string, Value>, Fault>
    requires i <= |items|
    decreases |items| - i
  {
    if i == |items| then Ok(acc)
    else
      var pair :- PairAt(items, i);
      if pair.0.Arr? || pair.0.Obj? then Err(TypeError("unhashable type: " + Quoted(TypeNameOf(pair.0))))
      else DictFromPairs(items, i + 1, if pair.0.Str? then acc[pair.0.s := pair.1] else acc)
  }

  /** `dict(v)` */
  function PyDict(v: Value): (r: Result<map<string, Value>, Fault>)
    ensures v.Obj? ==> r == Ok(v.fields)
    ensures (v.Null? || v.Bool? || v.Int?) ==> r.Err? && r.error.TypeError?
  {
    match v
    case Obj(fields) => Ok(fields)
    case Arr(items) => DictFromPairs(items, 0, map[])
    case Str(s) => if s == "" then Ok(map[]) else Err(ValueError(SequenceLengthMessage(0, 1)))
    case _ => Err(TypeError(Quoted(TypeNameOf(v)) + " object is not iterable"))
  }

  // ---------------------------------------------------------------------
  // Properties of int() and str()

  lemma {:induction false} DigitsParse(n: nat)
    ensures Grouped(Digits(n)) && GroupedValue(Digits(n)) == n
    decreases n
  {
    var s := Digits(n);
    if n >= 10 {
      DigitsParse(n / 10);
      assert s[..|s| - 1] == Digits(n / 10);
    }
  }

  lemma {:induction false} StripLeadingSpaces(w: string, s: string)
    requires AllSpace(w)
    ensures StripLeading(w + s) == StripLeading(s)
    decreases |w|
  {
    if |w| == 0 {
      assert w + s == s;
    } else {
      assert (w + s)[0] == w[0] && (w + s)[1..] == w[1..] + s;
      StripLeadingSpaces(w[1..], s);
    }
  }

  lemma {:induction false} StripTrailingSpaces(s: string, w: string)
    requires AllSpace(w)
    ensures StripTrailing(s + w) == StripTrailing(s)
    decreases |w|
  {
    if |w| == 0 {
      assert s + w == s;
    } else {
      var w' := w[..|w| - 1];
      assert (s + w)[|s + w| - 1] == w[|w| - 1];
      assert (s + w)[..|s + w| - 1] == s + w';
      StripTrailingSpaces(s, w');
    }
  }

  /** int() reads back what str() wrote, whatever whitespace surrounds it. */
  lemma PyIntReadsDecimal(n: int, before: string, after: string)
    requires AllSpace(before) && AllSpace(after)
    ensures PyInt(Str(before + Decimal(n) + after)) == Ok(n)
  {
    var d := Decimal(n);
    var digits := if n < 0 then Digits(-n) else Digits(n);
    DigitsParse(if n < 0 then -n else n);
    assert d[0] == '-' || IsDigit(d[0]);
    assert IsDigit(d[|d| - 1]);
    assert before + d + after == before + (d + after);
    StripLeadingSpaces(before, d + after);
    assert StripLeading(d + after) == d + after;
    StripTrailingSpaces(d, after);
    assert StripTrailing(d) == d;
    assert Strip(before + d + after) == d;
    if n < 0 {
      assert d[1..] == digits;
    }
  }

  /** The round trip `int(str(n)) == n`. */
  lemma PyIntOfPyStr(n: int)
    ensures PyInt(Str(PyStr(Int(n)))) == Ok(n)
  {
    PyIntReadsDecimal(n, "", "");
    assert "" + Decimal(n) + "" == Decimal(n);
  }
}
