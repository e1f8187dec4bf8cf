/** A model of `encodeURIComponent` / `decodeURIComponent`.

    ASCII characters outside the unreserved set of `encodeURIComponent`
    (letters, digits and `- _ . ! ~ * ' ( )`) are written as `%XX` with
    upper-case hex digits; all other characters pass through unchanged.
    Decoding turns `%XX` (either case, value below 0x80) back into its
    character. It fails, like the URIError of `decodeURIComponent`, on a `%`
    not followed by two hex digits. It also fails on an escape of value 0x80
    or above, which `decodeURIComponent` would read as part of a UTF-8
    sequence; for those the failure is this model's, not the browser's. */
module Percent {
  import opened Base

  predicate Unreserved(c: char) {
    ('a' <= c <= 'z') || ('A' <= c <= 'Z') || ('0' <= c <= '9') ||
    c == '-' || c == '_' || c == '.' || c == '!' || c == '~' ||
    c == '*' || c == '\'' || c == '(' || c == ')'
  }

  /** Characters that delimit fragment parameters and so must never appear
      raw inside an encoded key or value. */
  predicate Delimiter(c: char) {
    c == '&' || c == '=' || c == '#' || c == '?'
  }

  predicate IsHex(c: char) {
    ('0' <= c <= '9') || ('A' <= c <= 'F') || ('a' <= c <= 'f')
  }

  function HexDigit(n: nat): (c: char)
    requires n < 16
    ensures IsHex(c) && HexValue(c) == n
  {
    if n < 10 then ('0' as int + n) as char else ('A' as int + n - 10) as char
  }

  function HexValue(c: char): (n: nat)
    requires IsHex(c)
    ensures n < 16
  {
    if '0' <= c <= '9' then c as int - '0' as int
    else if 'A' <= c <= 'F' then c as int - 'A' as int + 10
    else c as int - 'a' as int + 10
  }

  /** Whether `c` is written unchanged by the encoder. */
  predicate PassesRaw(c: char) {
    Unreserved(c) || c as int >= 128
  }

  function EncodeChar(c: char): (e: string)
    ensures PassesRaw(c) ==> e == [c]
    ensures !PassesRaw(c) ==> |e| == 3 && e[0] == '%'
  {
    if PassesRaw(c) then [c]
    else [('%'), HexDigit(c as int / 16), HexDigit(c as int % 16)]
  }

  /** `encodeURIComponent`. */
  function Encode(s: string): string
  {
    if s == [] then [] else EncodeChar(s[0]) + Encode(s[1..])
  }

  /** `decodeURIComponent` on escapes below 0x80; `None` stands for the URIError
      it throws, and also for any escape of 0x80 or above (no UTF-8 decoding). */
  function Decode(s: string): Option<string>
  {
    if s == [] then Some([])
    else if s[0] != '%' then
      match Decode(s[1..])
      case Some(t) => Some([s[0]] + t)
      case None => None
    else if |s| >= 3 && IsHex(s[1]) && IsHex(s[2]) && HexValue(s[1]) * 16 + HexValue(s[2]) < 128 then
      match Decode(s[3..])
      case Some(t) => Some([(HexValue(s[1]) * 16 + HexValue(s[2])) as char] + t)
      case None => None
    else None
  }

  /** Decoding undoes encoding, for every string. */
  lemma {:induction false} DecodeEncode(s: string)
    ensures Decode(Encode(s)) == Some(s)
  {
    if s != [] {
      var c := s[0];
      var e := EncodeChar(c);
      var rest := Encode(s[1..]);
      DecodeEncode(s[1..]);
      assert Encode(s) == e + rest;
      if PassesRaw(c) {
        assert (e + rest)[0] == c;
        assert c != '%';
        assert (e + rest)[1..] == rest;
      } else {
        var hi := c as int / 16;
        var lo := c as int % 16;
        assert (e + rest)[0] == '%';
        assert (e + rest)[1] == HexDigit(hi) && (e + rest)[2] == HexDigit(lo);
        assert (e + rest)[3..] == rest;
        assert hi * 16 + lo == c as int < 128;
        assert (hi * 16 + lo) as char == c;
      }
      assert s == [c] + s[1..];
    }
  }

  /** The encoder never emits a raw delimiter character. */
  lemma {:induction false} EncodeHasNoDelimiter(s: string)
    ensures forall i :: 0 <= i < |Encode(s)| ==> !Delimiter(Encode(s)[i])
  {
    if s != [] {
      EncodeHasNoDelimiter(s[1..]);
      var e := EncodeChar(s[0]);
      assert Encode(s) == e + Encode(s[1..]);
      forall i | 0 <= i < |Encode(s)|
        ensures !Delimiter(Encode(s)[i])
      {
        if i >= |e| {
          assert Encode(s)[i] == Encode(s[1..])[i - |e|];
        }
      }
    }
  }

  lemma EncodeAppend(a: string, b: string)
    ensures Encode(a + b) == Encode(a) + Encode(b)
  {
    if a != [] {
      assert (a + b)[1..] == a[1..] + b;
      EncodeAppend(a[1..], b);
    } else {
      assert a + b == b;
    }
  }

  /** An unreserved string encodes to itself (the fixed parameter names
      `__WA__` and `__WA_RES__` are such strings). */
  lemma {:induction false} EncodeUnreserved(s: string)
    requires forall i :: 0 <= i < |s| ==> Unreserved(s[i])
    ensures Encode(s) == s
  {
    if s != [] {
      EncodeUnreserved(s[1..]);
      assert s == [s[0]] + s[1..];
    }
  }

  /** Decoding succeeds on a string without `%` and returns it unchanged. */
  lemma {:induction false} DecodeNoPercent(s: string)
    requires '%' !in s
    ensures Decode(s) == Some(s)
  {
    if s != [] {
      assert '%' !in s[1..] by {
        forall i | 0 <= i < |s[1..]| ensures s[1..][i] != '%' { assert s[1..][i] == s[i + 1]; }
      }
      DecodeNoPercent(s[1..]);
      assert s == [s[0]] + s[1..];
    }
  }

  /** A `%` that does not start a hex pair makes decoding fail, wherever it is. */
  lemma {:induction false} DecodeFailsAtBadPercent(a: string, b: string)
    requires b != [] && b[0] == '%'
    requires |b| < 3 || !IsHex(b[1]) || !IsHex(b[2])
    ensures Decode(a + b) == None
  {
    if a == [] {
      assert a + b == b;
    } else {
      assert (a + b)[1..] == a[1..] + b;
      DecodeFailsAtBadPercent(a[1..], b);
      if a[0] == '%' {
        var s := a + b;
        if |a| >= 3 {
          assert s[3..] == a[3..] + b;
          DecodeFailsAtBadPercent(a[3..], b);
        } else {
          // The `%` that starts b sits where a hex digit of this triple should be.
          assert s[|a|] == '%';
        }
      }
    }
  }
}
