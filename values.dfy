/** Python values as they reach the service in JSON requests and document metadata:
    strings, integers, booleans and `None`, with Python's truthiness, `str()` and `dict.get`. */
module Values {

  datatype Option<+T> = None | Some(value: T)

  datatype Value = Str(s: string) | Int(i: int) | Bool(b: bool) | NoneValue

  /** Python truthiness: empty strings, zero, False and None are false. */
  predicate Truthy(v: Value) {
    match v
    case Str(s) => s != ""
    case Int(i) => i != 0
    case Bool(b) => b
    case NoneValue => false
  }

  /** The name Python reports for the type of a value, as in `'int' object ...`. */
  function TypeName(v: Value): string {
    match v
    case Str(_) => "str"
    case Int(_) => "int"
    case Bool(_) => "bool"
    case NoneValue => "NoneType"
  }

  function DigitChar(d: nat): (c: char)
    requires d < 10
    ensures '0' <= c <= '9' && c as int - '0' as int == d
  {
    "0123456789"[d]
  }

  /** The number a string of decimal digits denotes, most significant digit first. */
  function DigitsValue(s: string): nat
    requires forall k :: 0 <= k < |s| ==> '0' <= s[k] <= '9'
    decreases |s|
  {
    if s == [] then 0
    else DigitsValue(s[..|s| - 1]) * 10 + (s[|s| - 1] as int - '0' as int)
  }

  /** Decimal digits of a natural number, most significant first, without leading zeros. */
  function NatToString(n: nat): (r: string)
    ensures |r| > 0
    ensures forall k :: 0 <= k < |r| ==> '0' <= r[k] <= '9'
    ensures DigitsValue(r) == n
    ensures |r| == 1 || r[0] != '0'
    decreases n
  {
    if n < 10 then [DigitChar(n)]
    else
      var init := NatToString(n / 10);
      var r := init + [DigitChar(n % 10)];
      assert r[..|r| - 1] == init;
      r
  }

  /** The year the request handler falls back on reaches the crew as the text `2026`. */
  lemma DefaultYearText()
    ensures ToStr(Int(2026)) == "2026"
  {
    assert DigitChar(0) == '0' && DigitChar(2) == '2' && DigitChar(6) == '6';
    assert NatToString(2) == "2";
    assert 20 / 10 == 2 && 20 % 10 == 0;
    assert NatToString(20) == "20";
    assert 202 / 10 == 20 && 202 % 10 == 2;
    assert NatToString(202) == "202";
    assert 2026 / 10 == 202 && 2026 % 10 == 6;
    assert NatToString(2026) == "2026";
  }

  /** Python's `str(v)`, which is also what an f-string inserts. */
  function ToStr(v: Value): string {
    match v
    case Str(s) => s
    case Int(i) => if i < 0 then "-" + NatToString(-i) else NatToString(i)
    case Bool(b) => if b then "True" else "False"
    case NoneValue => "None"
  }

  /** `m.get(k)`: None when the key is absent. */
  function Get(m: map<string, Value>, k: string): Value {
    if k in m then m[k] else NoneValue
  }

  /** `m.get(k, d)`. */
  function GetOr<V>(m: map<string, V>, k: string, d: V): V {
    if k in m then m[k] else d
  }

  /** Concatenation regrouped; stated once so that the loops that build a sequence piece by
      piece need not prove it each time. */
  lemma Regroup<T>(a: seq<T>, b: seq<T>, c: seq<T>)
    ensures a + (b + c) == (a + b) + c
  {
  }

  /** A non-empty second half gives the last element and the prefix before it. */
  lemma SnocPrefix<T>(a: seq<T>, b: seq<T>)
    requires b != []
    ensures (a + b)[..|a + b| - 1] == a + b[..|b| - 1] && (a + b)[|a + b| - 1] == b[|b| - 1]
  {
  }

  /** A sequence around its `k`-th element. */
  lemma SplitAt<T>(s: seq<T>, k: nat)
    requires k < |s|
    ensures s == s[..k] + [s[k]] + s[k + 1..]
  {
  }
}
