/**
  JSON scalars as they arrive in response bodies, the JavaScript coercions the
  client applies to them, and JSON string literals (writing and reading).
 */
module Json {
  import opened Wrappers

  /** The JSON values that appear in the `message` field of a response. */
  datatype JsonValue = JNull | JNum(n: int) | JStr(s: string)

  /** JavaScript truthiness of a decoded JSON scalar. */
  predicate Truthy(v: JsonValue) {
    match v
    case JNull => false
    case JNum(n) => n != 0
    case JStr(s) => s != ""
  }

  function Digit(d: nat): char
    requires d < 10
  {
    "0123456789"[d]
  }

  /** Decimal digits of a natural number, most significant first. */
  function Decimal(n: nat): (r: string)
    ensures |r| > 0
    ensures forall i :: 0 <= i < |r| ==> '0' <= r[i] <= '9'
    ensures |r| > 1 ==> r[0] != '0'
  {
    if n < 10 then [Digit(n)] else Decimal(n / 10) + [Digit(n % 10)]
  }

  /** The number a string of decimal digits denotes, read independently of Decimal. */
  function DigitsValue(s: string): nat
    requires forall i :: 0 <= i < |s| ==> '0' <= s[i] <= '9'
  {
    if s == [] then 0 else DigitsValue(s[..|s| - 1]) * 10 + (s[|s| - 1] as int - '0' as int)
  }

  /** Decimal writes the number it is given. */
  lemma {:induction false} DecimalValue(n: nat)
    ensures DigitsValue(Decimal(n)) == n
  {
    if n >= 10 {
      var d := Decimal(n);
      assert d[..|d| - 1] == Decimal(n / 10);
      DecimalValue(n / 10);
    }
  }

  /** `String(v)`: how `new Error(v)` turns a message value into text. */
  function ToText(v: JsonValue): (r: string)
    ensures v.JStr? ==> r == v.s
    ensures v.JNull? ==> r == "null"
    ensures v.JNum? && v.n >= 0 ==>
      |r| > 0 && (forall i :: 0 <= i < |r| ==> '0' <= r[i] <= '9') && (|r| <= 1 || r[0] != '0') && DigitsValue(r) == v.n
    ensures v.JNum? && v.n < 0 ==>
      |r| > 1 && r[0] == '-' && r[1] != '0' && (forall i :: 1 <= i < |r| ==> '0' <= r[i] <= '9') && DigitsValue(r[1..]) == -v.n
  {
    match v
    case JNull => "null"
    case JNum(n) =>
      if n < 0 then DecimalValue(-n); assert ("-" + Decimal(-n))[1..] == Decimal(-n); "-" + Decimal(-n)
      else DecimalValue(n); Decimal(n)
    case JStr(s) => s
  }

  /**
    The message of `new Error(data.message || fallback)`: the server's message
    when it is truthy, the operation's fixed fallback text otherwise.
   */
  function ErrorMessage(message: JsonValue, fallback: string): (m: string)
    ensures !Truthy(message) ==> m == fallback
    ensures Truthy(message) ==> m == ToText(message)
    ensures message.JStr? && message.s != "" ==> m == message.s
    ensures fallback != "" ==> m != ""
  {
    if Truthy(message) then ToText(message) else fallback
  }

  /** The characters a JSON string literal must escape with a backslash. */
  predicate NeedsEscape(c: char) {
    c == '"' || c == '\\'
  }

  /** Body of a JSON string literal for `s`, without the surrounding quotes. */
  function Escape(s: string): string {
    if s == [] then []
    else (if NeedsEscape(s[0]) then ['\\', s[0]] else [s[0]]) + Escape(s[1..])
  }

  /** A JSON string literal for `s`. */
  function Quote(s: string): string {
    "\"" + Escape(s) + "\""
  }

  /**
    Reads the body of a string literal up to and including its closing quote;
    yields the decoded text and the input that follows the quote.
   */
  function ReadStringBody(s: string): Option<(string, string)> {
    if s == [] then None
    else if s[0] == '"' then Some(([], s[1..]))
    else if s[0] == '\\' then
      if |s| >= 2 && NeedsEscape(s[1]) then
        match ReadStringBody(s[2..])
        case None => None
        case Some((t, rest)) => Some(([s[1]] + t, rest))
      else None
    else
      match ReadStringBody(s[1..])
      case None => None
      case Some((t, rest)) => Some(([s[0]] + t, rest))
  }

  /** Reads one string literal at the head of `s`. */
  function ReadString(s: string): Option<(string, string)> {
    if |s| > 0 && s[0] == '"' then ReadStringBody(s[1..]) else None
  }

  /** Reading back an escaped body yields the original text and leaves the rest untouched. */
  lemma {:induction false} ReadEscapedBody(x: string, rest: string)
    ensures ReadStringBody(Escape(x) + "\"" + rest) == Some((x, rest))
  {
    if x == [] {
      assert Escape(x) + "\"" + rest == ['"'] + rest;
    } else {
      var tail := Escape(x[1..]) + "\"" + rest;
      ReadEscapedBody(x[1..], rest);
      if NeedsEscape(x[0]) {
        assert Escape(x) + "\"" + rest == ['\\', x[0]] + tail;
        assert (['\\', x[0]] + tail)[2..] == tail;
      } else {
        assert Escape(x) + "\"" + rest == [x[0]] + tail;
        assert ([x[0]] + tail)[1..] == tail;
      }
      assert [x[0]] + x[1..] == x;
    }
  }

  /** The reader accepts nothing but escaped bodies: what it reads is exactly what it consumed. */
  lemma {:induction false} ReadBodyIsEscaped(s: string, x: string, rest: string)
    requires ReadStringBody(s) == Some((x, rest))
    ensures s == Escape(x) + "\"" + rest
    decreases |s|
  {
    if s[0] == '"' {
      assert s == ['"'] + s[1..];
    } else if s[0] == '\\' {
      var inner := ReadStringBody(s[2..]).value;
      ReadBodyIsEscaped(s[2..], inner.0, inner.1);
      assert x == [s[1]] + inner.0;
      assert x[1..] == inner.0;
      assert s == ['\\', s[1]] + s[2..];
    } else {
      var inner := ReadStringBody(s[1..]).value;
      ReadBodyIsEscaped(s[1..], inner.0, inner.1);
      assert x == [s[0]] + inner.0;
      assert x[1..] == inner.0;
      assert s == [s[0]] + s[1..];
    }
  }

  /** A quoted string followed by anything reads back as that string. */
  lemma ReadQuoted(x: string, rest: string)
    ensures ReadString(Quote(x) + rest) == Some((x, rest))
  {
    ReadEscapedBody(x, rest);
    assert Quote(x) + rest == ['"'] + (Escape(x) + "\"" + rest);
  }

  /** A successful read consumed exactly one quoted string. */
  lemma ReadStringIsQuoted(s: string, x: string, rest: string)
    requires ReadString(s) == Some((x, rest))
    ensures s == Quote(x) + rest
  {
    ReadBodyIsEscaped(s[1..], x, rest);
    assert s == ['"'] + s[1..];
  }
}
