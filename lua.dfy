/**
 * Values of the host scripting language (Lua) as the two translators see
 * them: tables keyed by field name, and the C view of Lua strings.
 */
module Lua {

  datatype Option<T> = None | Some(value: T)

  /** One byte of the emitted YAML text. */
  newtype byte = b: int | 0 <= b < 256

  /**
   * A Lua value that may appear in an event table.  A table has a part keyed
   * by strings and a list part; `items[i]` is the value stored under key i+1.
   */
  datatype Value =
    | Str(s: string)
    | Int(n: int)
    | Bool(b: bool)
    | Table(fields: map<string, Value>, items: seq<Value>)

  /** An event table, or any Lua table read by field name. */
  type Fields = map<string, Value>

  /**
   * The C view of a Lua string: what a `const char *` denotes, that is,
   * everything before the first zero byte.
   */
  function CStr(s: string): (r: string)
    ensures |r| <= |s|
  {
    if s == [] || s[0] == '\0' then [] else [s[0]] + CStr(s[1..])
  }

  /** The C view is a prefix without zero bytes that stops at the first zero byte. */
  lemma {:induction false} CStrIsNulFreePrefix(s: string)
    ensures CStr(s) <= s
    ensures '\0' !in CStr(s)
    ensures |CStr(s)| < |s| ==> s[|CStr(s)|] == '\0'
  {
    if s != [] && s[0] != '\0' {
      CStrIsNulFreePrefix(s[1..]);
    }
  }

  /** A string without zero bytes is its own C view. */
  lemma {:induction false} CStrOfNulFree(s: string)
    requires '\0' !in s
    ensures CStr(s) == s
  {
    if s != [] {
      assert s[0] in s;
      assert forall k :: 0 <= k < |s[1..]| ==> s[1..][k] == s[k + 1];
      CStrOfNulFree(s[1..]);
    }
  }

  /** Taking the C view twice changes nothing. */
  lemma CStrIdempotent(s: string)
    ensures CStr(CStr(s)) == CStr(s)
  {
    CStrIsNulFreePrefix(s);
    CStrOfNulFree(CStr(s));
  }

  /**
   * `lua_tostring` as C sees it: a string is cut at its first zero byte, an
   * integer is written in decimal, and anything else is NULL.
   */
  function ToCString(v: Value): Option<string>
  {
    if v.Str? then Some(CStr(v.s)) else if v.Int? then Some(IntToString(v.n)) else None
  }

  /** String field `k` as C reads it; NULL when the field is absent. */
  function GetString(t: Fields, k: string): (r: Option<string>)
    ensures r.Some? <==> k in t && (t[k].Str? || t[k].Int?)
    ensures k in t && t[k].Str? ==> r == Some(CStr(t[k].s))
    ensures k in t && t[k].Int? ==> r == Some(IntToString(t[k].n))
  {
    if k in t then ToCString(t[k]) else None
  }

  /** Boolean field `k` with Lua truthiness: only `false` is false. */
  function GetBoolean(t: Fields, k: string, default: bool): (b: bool)
    ensures !b <==> (k !in t && !default) || (k in t && t[k] == Bool(false))
  {
    if k !in t then default
    else match t[k]
      case Bool(b) => b
      case _ => true
  }

  /** Integer field `k`; a present value that is not an integer reads as 0. */
  function GetInteger(t: Fields, k: string): (r: Option<int>)
    ensures r.None? <==> k !in t
    ensures k in t && t[k].Int? ==> r == Some(t[k].n)
    ensures k in t && !t[k].Int? ==> r == Some(0)
  {
    if k !in t then None
    else match t[k]
      case Int(n) => Some(n)
      case _ => Some(0)
  }

  /** Table field `k`, if present and a table. */
  function GetTable(t: Fields, k: string): (r: Option<Value>)
    ensures r.Some? <==> k in t && t[k].Table?
    ensures r.Some? ==> r.value == t[k]
  {
    if k in t && t[k].Table? then Some(t[k]) else None
  }

  function OrZero(o: Option<int>): int
  {
    if o.Some? then o.value else 0
  }

  function DigitChar(d: nat): char
    requires d < 10
  {
    "0123456789"[d]
  }

  function DigitValue(c: char): (d: nat)
    requires '0' <= c <= '9'
    ensures d < 10
  {
    (c as int - '0' as int) as nat
  }

  /** Decimal text of `n`, as `%d` prints it. */
  function NatToString(n: nat): (r: string)
    ensures r != []
    ensures forall k :: 0 <= k < |r| ==> '0' <= r[k] <= '9'
  {
    if n < 10 then [DigitChar(n)] else NatToString(n / 10) + [DigitChar(n % 10)]
  }

  /** Decimal text of `i`, with a leading minus sign when negative, as `%d` prints it. */
  function IntToString(i: int): string
  {
    if i < 0 then "-" + NatToString(-i) else NatToString(i)
  }

  /** The number a string of decimal digits denotes. */
  function DecimalValue(s: string): nat
    requires forall k :: 0 <= k < |s| ==> '0' <= s[k] <= '9'
  {
    if s == [] then 0 else 10 * DecimalValue(s[..|s| - 1]) + DigitValue(s[|s| - 1])
  }

  /** The number printed into a message can be read back: `%d` loses nothing. */
  lemma {:induction false} NatToStringReadsBack(n: nat)
    ensures DecimalValue(NatToString(n)) == n
  {
    var r := NatToString(n);
    if n < 10 {
      assert DigitValue(r[0]) == n;
    } else {
      NatToStringReadsBack(n / 10);
      assert r[..|r| - 1] == NatToString(n / 10);
      assert DigitValue(r[|r| - 1]) == n % 10;
    }
  }
}
