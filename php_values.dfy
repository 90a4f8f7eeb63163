/**
 * PHP values as the controller sees them once the JSON request body has been
 * decoded, and the few PHP built-ins the controller applies to them:
 * `empty()`, `isset()`, `array_key_exists()`, `is_array()` and the conversion
 * a value undergoes when it is interpolated into a string.
 */
module PhpValues {
  import opened Wrappers

  /**
   * A decoded request value. PHP arrays are either lists (keys 0..n-1) or
   * dictionaries with string keys.
   */
  datatype PVal =
    | PNull
    | PBool(b: bool)
    | PInt(i: int)
    | PStr(s: string)
    | PList(items: seq<PVal>)
    | PDict(entries: map<string, PVal>)

  /** `is_array($v)` */
  predicate IsArray(v: PVal) {
    v.PList? || v.PDict?
  }

  /** `empty($v)`: null, false, 0, "", "0" and the empty array. */
  predicate PhpEmpty(v: PVal) {
    match v
    case PNull => true
    case PBool(b) => !b
    case PInt(i) => i == 0
    case PStr(s) => s == "" || s == "0"
    case PList(items) => |items| == 0
    case PDict(entries) => |entries| == 0
  }

  /** `empty($m[$k])`: a missing key counts as empty and raises no warning. */
  predicate EmptyAt(m: map<string, PVal>, k: string) {
    k !in m || PhpEmpty(m[k])
  }

  /** `isset($m[$k])`: the key is there and its value is not null. */
  predicate IssetAt(m: map<string, PVal>, k: string) {
    k in m && !m[k].PNull?
  }

  /** `array_key_exists($k, $m)`: the key is there, whatever its value. */
  predicate KeyExists(m: map<string, PVal>, k: string) {
    k in m
  }

  /**
   * The three presence tests are ordered (non-empty implies set implies the
   * key exists) and the order is strict: a null value exists but is not set,
   * and `false` is set but empty.
   */
  lemma PresenceTestsOrdered(m: map<string, PVal>, k: string)
    ensures !EmptyAt(m, k) ==> IssetAt(m, k)
    ensures IssetAt(m, k) ==> KeyExists(m, k)
    ensures KeyExists(map[k := PNull], k) && !IssetAt(map[k := PNull], k)
    ensures IssetAt(map[k := PBool(false)], k) && EmptyAt(map[k := PBool(false)], k)
  {
  }

  predicate IsDigit(c: char) {
    '0' <= c <= '9'
  }

  function DigitChar(d: nat): (c: char)
    requires d < 10
    ensures IsDigit(c) && c as int - '0' as int == d
  {
    ('0' as int + d) as char
  }

  /** The number a string of decimal digits denotes, most significant digit first. */
  function DecimalValue(s: string): nat
    requires forall i :: 0 <= i < |s| ==> IsDigit(s[i])
  {
    if s == [] then 0
    else
      var last := s[|s| - 1];
      assert IsDigit(last);
      assert '0' as int <= last as int;
      DecimalValue(s[..|s| - 1]) * 10 + (last as int - '0' as int)
  }

  /** The decimal spelling PHP gives a non-negative integer: digits only, no leading zero, denoting n. */
  function NatToDecimal(n: nat): (s: string)
    ensures 1 <= |s|
    ensures forall i :: 0 <= i < |s| ==> IsDigit(s[i])
    ensures DecimalValue(s) == n
    ensures s[0] == '0' ==> s == "0"
    decreases n
  {
    if n < 10 then
      var s := [DigitChar(n)];
      assert s[..0] == [];
      s
    else
      var front := NatToDecimal(n / 10);
      var s := front + [DigitChar(n % 10)];
      assert s[..|s| - 1] == front;
      s
  }

  /** Different numbers are spelled differently. */
  lemma NatToDecimalInjective(a: nat, b: nat)
    requires NatToDecimal(a) == NatToDecimal(b)
    ensures a == b
  {
    assert a == DecimalValue(NatToDecimal(a));
  }

  /** The decimal spelling PHP gives any integer. */
  function IntToDecimal(i: int): string {
    if i < 0 then "-" + NatToDecimal(-i) else NatToDecimal(i)
  }

  /**
   * The string a value becomes when PHP interpolates it ("...`$v`..."):
   * null and false become "", true becomes "1", integers their decimal
   * spelling. An array raises "Array to string conversion", which the
   * framework turns into an exception: None.
   */
  function PhpString(v: PVal): (r: Option<string>)
    ensures r.None? <==> IsArray(v)
    ensures v.PStr? ==> r == Some(v.s)
  {
    match v
    case PNull => Some("")
    case PBool(b) => Some(if b then "1" else "")
    case PInt(i) => Some(IntToDecimal(i))
    case PStr(s) => Some(s)
    case PList(_) => None
    case PDict(_) => None
  }
}
