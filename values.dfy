/**
 * The decoded form of the exchange's data entries, as the pipeline reads
 * them, and the two Python conversions it applies to their fields, `int()`
 * and `float()`.
 *
 * A field's value is a string, a list, or `Null`; `Null` also stands for an
 * absent field, because `dict.get` answers `None` for both.  `side` and
 * `instId` are typed as optional strings, `None` meaning absent: any other
 * value of `side` makes `.lower()` raise, and a null or non-string `instId`
 * would be formatted into the ring key, which the model does not represent.
 */
module Values {
  import opened Wrappers

  datatype Value = Null | Str(s: string) | List(items: seq<Value>)

  /** One element of the `data` array of a message. */
  datatype Entry = Entry(
    ts: Value,
    instId: Option<string>,
    side: Option<string>,
    px: Value,
    sz: Value,
    bids: Value,
    asks: Value)

  /** Python truthiness: `None`, the empty string and the empty list are false. */
  predicate Truthy(v: Value)
  {
    match v
    case Null => false
    case Str(s) => s != []
    case List(items) => items != []
  }

  /**
   * Python's `v[i]`: an element of a list, a one-character string of a
   * string; `None` where Python raises `IndexError` or `TypeError`.
   */
  function Index(v: Value, i: nat): (r: Option<Value>)
    ensures r.Some? <==> (v.Str? && i < |v.s|) || (v.List? && i < |v.items|)
  {
    match v
    case Null => None
    case Str(s) => if i < |s| then Some(Str([s[i]])) else None
    case List(items) => if i < |items| then Some(items[i]) else None
  }

  predicate IsDigit(c: char)
  {
    '0' <= c <= '9'
  }

  predicate AllDigits(s: string)
  {
    forall i :: 0 <= i < |s| ==> IsDigit(s[i])
  }

  /** The number a string of decimal digits denotes, read left to right. */
  function DigitsValue(s: string): (n: nat)
    requires AllDigits(s)
  {
    if s == [] then 0
    else DigitsValue(s[..|s| - 1]) * 10 + (s[|s| - 1] as int - '0' as int)
  }

  function Pow10(k: nat): (p: nat)
    ensures p >= 1
  {
    if k == 0 then 1 else 10 * Pow10(k - 1)
  }

  /** Splits an optional leading `+` or `-` off, returning the sign as +1 or -1. */
  function SplitSign(s: string): (r: (int, string))
    ensures |r.1| == |s| || |r.1| == |s| - 1
    ensures forall i :: 0 <= i < |r.1| ==> r.1[i] == s[|s| - |r.1| + i]
  {
    if |s| > 0 && s[0] == '-' then (-1, s[1..])
    else if |s| > 0 && s[0] == '+' then (1, s[1..])
    else (1, s)
  }

  /** Python's `int(v)` on the grammar `[+-]digits`; `None` where it raises. */
  function ParseInt(v: Value): (r: Option<int>)
    ensures !v.Str? ==> r.None?
    ensures v.Str? && (v.s == [] || v.s == "-" || v.s == "+") ==> r.None?
    ensures v.Str? && v.s != [] && AllDigits(v.s) ==> r == Some(DigitsValue(v.s))
    ensures r.Some? ==> forall i :: 0 < i < |v.s| ==> IsDigit(v.s[i])
  {
    if !v.Str? then None
    else
      var (sign, digits) := SplitSign(v.s);
      if digits != [] && AllDigits(digits) then Some(sign * DigitsValue(digits)) else None
  }

  /** The position of the first `.` in `s`, or `|s|` when there is none. */
  function DotAt(s: string): (k: nat)
    ensures k <= |s|
    ensures forall i :: 0 <= i < k ==> s[i] != '.'
    ensures k < |s| ==> s[k] == '.'
  {
    if s == [] then 0 else if s[0] == '.' then 0 else 1 + DotAt(s[1..])
  }

  /**
   * Python's `float(v)` on the grammar `[+-]digits[.digits]` with at least
   * one digit; `None` where it raises.
   */
  function ParseFloat(v: Value): (r: Option<real>)
    ensures !v.Str? ==> r.None?
    ensures v.Str? && (v.s == [] || v.s == "." || v.s == "-" || v.s == "+") ==> r.None?
    ensures r.Some? ==> forall i :: 0 < i < |v.s| ==> IsDigit(v.s[i]) || v.s[i] == '.'
  {
    if !v.Str? then None
    else
      var (sign, body) := SplitSign(v.s);
      var k := DotAt(body);
      var whole := body[..k];
      var frac := if k < |body| then body[k + 1..] else [];
      if AllDigits(whole) && AllDigits(frac) && |whole| + |frac| > 0 then
        DigitsAroundDot(body, k);
        Some(sign as real * (DigitsValue(whole) as real + DigitsValue(frac) as real / Pow10(|frac|) as real))
      else None
  }

  /** Digits before the first `.` and digits after it leave only digits and that one `.`. */
  lemma DigitsAroundDot(body: string, k: nat)
    requires k == DotAt(body) && AllDigits(body[..k])
    requires k < |body| ==> AllDigits(body[k + 1..])
    ensures forall i :: 0 <= i < |body| ==> IsDigit(body[i]) || body[i] == '.'
  {
    forall i | 0 <= i < |body|
      ensures IsDigit(body[i]) || body[i] == '.'
    {
      if i < k {
        assert body[..k][i] == body[i];
      } else if i > k {
        assert body[k + 1..][i - k - 1] == body[i];
      }
    }
  }

  /** Wherever `int()` accepts a string, `float()` accepts it too, with the same value. */
  lemma ParseFloatExtendsParseInt(v: Value)
    requires ParseInt(v).Some?
    ensures ParseFloat(v) == Some(ParseInt(v).value as real)
  {
    var (sign, body) := SplitSign(v.s);
    assert DotAt(body) == |body| by {
      assert DotAt(body) < |body| ==> IsDigit(body[DotAt(body)]);
    }
    assert body[..|body|] == body;
  }

  /** The digits of a natural number, most significant first. */
  function ShowNat(n: nat): (s: string)
    ensures s != [] && AllDigits(s)
  {
    if n < 10 then [('0' as int + n) as char]
    else ShowNat(n / 10) + [('0' as int + n % 10) as char]
  }

  /** Reading back the digits of a number gives the number. */
  lemma {:induction false} DigitsOfShowNat(n: nat)
    ensures DigitsValue(ShowNat(n)) == n
  {
    var s := ShowNat(n);
    if n >= 10 {
      DigitsOfShowNat(n / 10);
      assert s[..|s| - 1] == ShowNat(n / 10);
    }
  }

  /** `int()` reads back the decimal form of every integer, negative ones with a `-`. */
  lemma ParseIntShowRoundTrip(n: int)
    ensures ParseInt(Str(if n < 0 then "-" + ShowNat(-n) else ShowNat(n))) == Some(n)
  {
    if n < 0 {
      var d := ShowNat(-n);
      DigitsOfShowNat(-n);
      assert ("-" + d)[1..] == d;
      assert SplitSign("-" + d) == (-1, d);
      assert -1 * DigitsValue(d) == n;
    } else {
      var d := ShowNat(n);
      DigitsOfShowNat(n);
      assert IsDigit(d[0]);
      assert SplitSign(d) == (1, d);
    }
  }
}
