/**
 * The slice of PHP's semantics the plugin relies on: values, ordered arrays
 * (`array_key_exists`, `isset`, reading `$a[$k]`, writing `$a[$k] = $v`),
 * `empty`, string conversion, `trim`, `is_numeric`, `substr` and `implode`.
 */
module Php {
  import opened Wrappers

  /** An array key: PHP keys are integers or strings. */
  datatype Key = IntKey(n: int) | StrKey(s: string)

  /** A PHP value. An array keeps its entries in insertion order. */
  datatype Value =
    | Null
    | Bool(b: bool)
    | Int(n: int)
    | Str(s: string)
    | Arr(entries: seq<(Key, Value)>)

  type Entries = seq<(Key, Value)>

  /** `array_keys($a)`: the keys in array order. */
  function Keys(a: Entries): seq<Key> {
    if a == [] then [] else [a[0].0] + Keys(a[1..])
  }

  /** `array_key_exists($k, $a)`, and if so the value `$a[$k]`. */
  function Lookup(a: Entries, k: Key): (r: Option<Value>)
    ensures r.Some? <==> k in Keys(a)
    ensures r.Some? ==> (k, r.value) in a
  {
    if a == [] then None
    else if a[0].0 == k then Some(a[0].1)
    else Lookup(a[1..], k)
  }

  /**
   * `$a[$k] = $v` on a value-copied array: the entry for `k` is overwritten
   * where it stands, or a new entry is appended at the end.
   */
  function Put(a: Entries, k: Key, v: Value): (r: Entries)
    ensures Keys(r) == if k in Keys(a) then Keys(a) else Keys(a) + [k]
    ensures Lookup(r, k) == Some(v)
    ensures forall j :: j != k ==> Lookup(r, j) == Lookup(a, j)
  {
    if a == [] then [(k, v)]
    else if a[0].0 == k then [(k, v)] + a[1..]
    else
      var rest := Put(a[1..], k, v);
      assert ([a[0]] + rest)[1..] == rest;
      [a[0]] + rest
  }

  /** Reading `$v['k']`: null when `v` is not an array or has no entry `k`. */
  function At(v: Value, k: string): Value {
    if v.Arr? then Lookup(v.entries, StrKey(k)).GetOr(Null) else Null
  }

  /** `isset($v['k'])`: the entry exists and is not null. */
  predicate IsSet(v: Value, k: string) {
    At(v, k) != Null
  }

  /** PHP's `empty($v)`: null, false, 0, "", "0" and the empty array. */
  predicate Empty(v: Value) {
    match v
    case Null => true
    case Bool(b) => !b
    case Int(n) => n == 0
    case Str(s) => s == "" || s == "0"
    case Arr(e) => e == []
  }

  predicate IsDigit(c: char) {
    '0' <= c <= '9'
  }

  function DigitChar(d: nat): (c: char)
    requires d < 10
    ensures IsDigit(c)
  {
    ('0' as int + d) as char
  }

  /** The decimal digits of a natural number, most significant first. */
  function Digits(n: nat): (s: string)
    ensures 1 <= |s|
    ensures 10 <= n ==> 2 <= |s|
    ensures forall i :: 0 <= i < |s| ==> IsDigit(s[i])
    decreases n
  {
    if n < 10 then [DigitChar(n)] else Digits(n / 10) + [DigitChar(n % 10)]
  }

  /** PHP's decimal rendering of an integer. */
  function Decimal(n: int): string {
    if n < 0 then "-" + Digits(-n) else Digits(n)
  }

  /** Distinct numbers have distinct decimal renderings. */
  lemma {:induction false} DigitsInjective(a: nat, b: nat)
    requires Digits(a) == Digits(b)
    ensures a == b
    decreases a
  {
    var s := Digits(a);
    if 10 <= a && 10 <= b {
      assert Digits(a) == Digits(a / 10) + [DigitChar(a % 10)];
      assert Digits(b) == Digits(b / 10) + [DigitChar(b % 10)];
      assert Digits(a / 10) == s[..|s| - 1] == Digits(b / 10);
      assert DigitChar(a % 10) == s[|s| - 1] == DigitChar(b % 10);
      DigitsInjective(a / 10, b / 10);
    }
  }

  /** PHP's `(string)` conversion. */
  function ToStr(v: Value): string {
    match v
    case Null => ""
    case Bool(b) => if b then "1" else ""
    case Int(n) => Decimal(n)
    case Str(s) => s
    case Arr(_) => "Array"
  }

  /** The characters `trim` strips by default: space, tab, LF, CR, NUL, vertical tab. */
  predicate IsTrimChar(c: char) {
    c == ' ' || c == '\t' || c == '\n' || c == '\r' || c == '\0' || c == '\U{B}'
  }

  /** `ltrim($s)`. */
  function TrimLeft(s: string): (r: string)
    ensures |r| <= |s| && r == s[|s| - |r|..]
    ensures r == [] || !IsTrimChar(r[0])
    ensures forall i :: 0 <= i < |s| - |r| ==> IsTrimChar(s[i])
  {
    if s != [] && IsTrimChar(s[0]) then TrimLeft(s[1..]) else s
  }

  /** `rtrim($s)`. */
  function TrimRight(s: string): (r: string)
    ensures |r| <= |s| && r == s[..|r|]
    ensures r == [] || !IsTrimChar(r[|r| - 1])
    ensures forall i :: |r| <= i < |s| ==> IsTrimChar(s[i])
  {
    if s != [] && IsTrimChar(s[|s| - 1]) then TrimRight(s[..|s| - 1]) else s
  }

  /** `trim($s)`: what is left has no trim character at either end. */
  function Trim(s: string): (r: string)
    ensures |r| <= |s|
    ensures r == [] || (!IsTrimChar(r[0]) && !IsTrimChar(r[|r| - 1]))
  {
    TrimRight(TrimLeft(s))
  }

  /** Trimming twice is trimming once. */
  lemma {:induction false} TrimIdempotent(s: string)
    ensures Trim(Trim(s)) == Trim(s)
  {
    var r := Trim(s);
    assert TrimLeft(r) == r;
    assert TrimRight(r) == r;
  }

  /** The length of the run of digits `s` starts with. */
  function DigitRun(s: string): (n: nat)
    ensures n <= |s|
    ensures forall i :: 0 <= i < n ==> IsDigit(s[i])
    ensures n < |s| ==> !IsDigit(s[n])
  {
    if s != [] && IsDigit(s[0]) then 1 + DigitRun(s[1..]) else 0
  }

  /** An unsigned decimal number: `12`, `12.`, `12.5` or `.5`. */
  predicate IsUnsignedDecimal(s: string) {
    var n := DigitRun(s);
    if n == |s| then 0 < n
    else s[n] == '.' && DigitRun(s[n + 1..]) == |s| - n - 1 && (0 < n || n + 1 < |s|)
  }

  /** `is_numeric($v)` for integers and for optionally signed decimal strings. */
  predicate IsNumeric(v: Value) {
    match v
    case Int(_) => true
    case Str(s) =>
      IsUnsignedDecimal(if s != [] && (s[0] == '+' || s[0] == '-') then s[1..] else s)
    case _ => false
  }

  /** `substr($s, 0, $n)`. */
  function Head(s: string, n: nat): (r: string)
    ensures r <= s
  {
    if |s| <= n then s else s[..n]
  }

  /** `implode($sep, $parts)`. */
  function Implode(sep: string, parts: seq<string>): string
  {
    if parts == [] then ""
    else if |parts| == 1 then parts[0]
    else parts[0] + sep + Implode(sep, parts[1..])
  }

  /** Appending a part appends the separator and that part, so parts keep their order. */
  lemma {:induction false} ImplodeSnoc(sep: string, parts: seq<string>, x: string)
    requires parts != []
    ensures Implode(sep, parts + [x]) == Implode(sep, parts) + sep + x
    decreases |parts|
  {
    if |parts| > 1 {
      assert (parts + [x])[1..] == parts[1..] + [x];
      ImplodeSnoc(sep, parts[1..], x);
    }
  }
}
