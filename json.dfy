/** JSON values as the protocol exchanges them (`JSON.stringify` / `JSON.parse`
    and the structured payloads of `postMessage`).

    `Stringify` writes no whitespace; inside strings it escapes `"`, `\` and
    the control characters as `JSON.stringify` does. `Parse` reads that
    grammar with every escape JSON allows, and refuses a leading zero and a
    raw control character as `JSON.parse` does. Numbers are integers. */
module Json {
  import opened Base

  datatype Json =
    | JNull
    | JBool(b: bool)
    | JNum(n: int)
    | JStr(s: string)
    | JArr(items: seq<Json>)
    | JObj(members: seq<Member>)

  datatype Member = Member(key: string, value: Json)

  /** JavaScript truthiness: `!v` holds exactly for these values. */
  predicate Falsy(j: Json) {
    j == JNull || j == JBool(false) || j == JNum(0) || j == JStr("")
  }

  /** `v || null`. */
  function OrNull(j: Json): (r: Json)
    ensures Falsy(j) ==> r == JNull
    ensures !Falsy(j) ==> r == j
  {
    if Falsy(j) then JNull else j
  }

  /** The last member named `key` (the one `JSON.parse` keeps). */
  function LastMember(ms: seq<Member>, key: string): (r: Option<Json>)
    ensures r.Some? <==> exists i :: 0 <= i < |ms| && ms[i].key == key
    ensures r.Some? ==> exists i :: 0 <= i < |ms| && ms[i].key == key && ms[i].value == r.value &&
                                    forall k :: i < k < |ms| ==> ms[k].key != key
  {
    if ms == [] then None
    else if ms[|ms| - 1].key == key then Some(ms[|ms| - 1].value)
    else
      var r := LastMember(ms[..|ms| - 1], key);
      assert forall i :: 0 <= i < |ms| - 1 ==> ms[..|ms| - 1][i] == ms[i];
      r
  }

  /** `v[key]` on a non-null value: `None` is `undefined`. (On `null` the
      lookup throws; callers check for `JNull` first.) */
  function Get(j: Json, key: string): Option<Json>
  {
    match j
    case JObj(ms) => LastMember(ms, key)
    case _ => None
  }

  /** `v[key]` where an absent member reads as `null` after `|| null`. */
  function GetOrNull(j: Json, key: string): Json
  {
    match Get(j, key)
    case Some(v) => OrNull(v)
    case None => JNull
  }

  // ---------------------------------------------------------------------
  // Writing

  function DigitChar(d: nat): (c: char)
    requires d < 10
    ensures IsDigit(c) && DigitValue(c) == d
  {
    ('0' as int + d) as char
  }

  predicate IsDigit(c: char) { '0' <= c <= '9' }

  function DigitValue(c: char): (d: nat)
    requires IsDigit(c)
    ensures d < 10
  {
    c as int - '0' as int
  }

  /** Decimal digits of a natural number, most significant first. */
  function NatText(n: nat): (t: string)
    ensures |t| > 0
    ensures forall i :: 0 <= i < |t| ==> IsDigit(t[i])
    ensures t[0] == '0' <==> n == 0
    ensures n == 0 ==> |t| == 1
  {
    if n < 10 then [DigitChar(n)] else NatText(n / 10) + [DigitChar(n % 10)]
  }

  function IntText(n: int): (t: string)
    ensures |t| > 0
  {
    if n < 0 then "-" + NatText(-n) else NatText(n)
  }

  /** A hexadecimal digit of a `\u` escape, in either case. */
  function EscapeHexValue(c: char): (r: Option<nat>)
    ensures r.Some? ==> r.value < 16
  {
    if '0' <= c <= '9' then Some(c as int - '0' as int)
    else if 'a' <= c <= 'f' then Some(c as int - 'a' as int + 10)
    else if 'A' <= c <= 'F' then Some(c as int - 'A' as int + 10)
    else None
  }

  /** The lower-case hexadecimal digit `JSON.stringify` writes. */
  function EscapeHexDigit(d: nat): (c: char)
    requires d < 16
    ensures EscapeHexValue(c) == Some(d)
  {
    if d < 10 then ('0' as int + d) as char else ('a' as int + d - 10) as char
  }

  /** How `JSON.stringify` writes one character inside a string literal:
      `"` and `\` behind a backslash, the five control characters with a
      short name by that name, the other control characters as `\u00xx`. */
  function EscapeChar(c: char): string
  {
    if c == '"' || c == '\\' then ['\\', c]
    else if c as int == 8 then "\\b"
    else if c as int == 12 then "\\f"
    else if c as int == 10 then "\\n"
    else if c as int == 13 then "\\r"
    else if c as int == 9 then "\\t"
    else if c as int < 0x20 then "\\u00" + [EscapeHexDigit(c as int / 16), EscapeHexDigit(c as int % 16)]
    else [c]
  }

  function Escape(s: string): string
  {
    if s == [] then [] else EscapeChar(s[0]) + Escape(s[1..])
  }

  function Quote(s: string): string
  {
    "\"" + Escape(s) + "\""
  }

  /** `JSON.stringify`. */
  function Stringify(j: Json): string
    decreases j
  {
    match j
    case JNull => "null"
    case JBool(b) => if b then "true" else "false"
    case JNum(n) => IntText(n)
    case JStr(s) => Quote(s)
    case JArr(items) => "[" + StringifyItems(items) + "]"
    case JObj(ms) => "{" + StringifyMembers(ms) + "}"
  }

  function StringifyItems(items: seq<Json>): string
    decreases items
  {
    if items == [] then ""
    else if |items| == 1 then Stringify(items[0])
    else Stringify(items[0]) + "," + StringifyItems(items[1..])
  }

  function StringifyMember(m: Member): string
    decreases m
  {
    Quote(m.key) + ":" + Stringify(m.value)
  }

  function StringifyMembers(ms: seq<Member>): string
    decreases ms
  {
    if ms == [] then ""
    else if |ms| == 1 then StringifyMember(ms[0])
    else StringifyMember(ms[0]) + "," + StringifyMembers(ms[1..])
  }

  // ---------------------------------------------------------------------
  // Reading

  /** Number of leading decimal digits of `s`. */
  function DigitRun(s: string): (k: nat)
    ensures k <= |s|
    ensures forall i :: 0 <= i < k ==> IsDigit(s[i])
    ensures k < |s| ==> !IsDigit(s[k])
  {
    if s == [] || !IsDigit(s[0]) then 0 else 1 + DigitRun(s[1..])
  }

  function DigitsValue(d: string): nat
    requires forall i :: 0 <= i < |d| ==> IsDigit(d[i])
  {
    if d == [] then 0 else DigitsValue(d[..|d| - 1]) * 10 + DigitValue(d[|d| - 1])
  }

  /** Digits with no leading zero (a lone `0` is allowed). */
  function ParseNat(s: string): (r: Option<(nat, string)>)
    ensures r.Some? ==> |r.value.1| < |s|
  {
    var k := DigitRun(s);
    if k == 0 || (k > 1 && s[0] == '0') then None else Some((DigitsValue(s[..k]), s[k..]))
  }

  function ParseNumber(s: string): (r: Option<(int, string)>)
    ensures r.Some? ==> |r.value.1| < |s|
  {
    if s != [] && s[0] == '-' then
      match ParseNat(s[1..])
      case Some((n, rest)) => Some((-(n as int), rest))
      case None => None
    else
      match ParseNat(s)
      case Some((n, rest)) => Some((n, rest))
      case None => None
  }

  /** The body of a string literal after its opening quote, through the
      closing quote. */
  function ParseStringBody(s: string): (r: Option<(string, string)>)
    ensures r.Some? ==> |r.value.1| < |s|
  {
    if s == [] then None
    else if s[0] == '"' then Some(([], s[1..]))
    else if s[0] as int < 0x20 then None
    else if s[0] == '\\' then
      match EscapeAt(s[1..])
      case Some((c, n)) =>
        (match ParseStringBody(s[1 + n..])
         case Some((t, rest)) => Some(([c] + t, rest))
         case None => None)
      case None => None
    else
      match ParseStringBody(s[1..])
      case Some((t, rest)) => Some(([s[0]] + t, rest))
      case None => None
  }

  /** The escape after a backslash: the character it stands for and how
      many characters it spans. A `\u` escape naming a surrogate code unit is
      refused, since a character here is a Unicode scalar value. */
  function EscapeAt(s: string): (r: Option<(char, nat)>)
    ensures r.Some? ==> 1 <= r.value.1 <= |s|
  {
    if s == [] then None
    else if s[0] == 'u' then
      if |s| < 5 then None
      else
        match (EscapeHexValue(s[1]), EscapeHexValue(s[2]), EscapeHexValue(s[3]), EscapeHexValue(s[4]))
        case (Some(a), Some(b), Some(c), Some(d)) =>
          var v := ((a * 16 + b) * 16 + c) * 16 + d;
          if 0xD800 <= v < 0xE000 then None else Some((v as char, 5))
        case _ => None
    else if s[0] == '"' || s[0] == '\\' || s[0] == '/' then Some((s[0], 1))
    else if s[0] == 'b' then Some((8 as char, 1))
    else if s[0] == 'f' then Some((12 as char, 1))
    else if s[0] == 'n' then Some((10 as char, 1))
    else if s[0] == 'r' then Some((13 as char, 1))
    else if s[0] == 't' then Some((9 as char, 1))
    else None
  }

  function ParseValue(s: string): (r: Option<(Json, string)>)
    decreases |s|, 1
    ensures r.Some? ==> |r.value.1| < |s|
  {
    if s == [] then None
    else if s[0] == 'n' then (if IsPrefix("null", s) then Some((JNull, s[4..])) else None)
    else if s[0] == 't' then (if IsPrefix("true", s) then Some((JBool(true), s[4..])) else None)
    else if s[0] == 'f' then (if IsPrefix("false", s) then Some((JBool(false), s[5..])) else None)
    else if s[0] == '"' then
      match ParseStringBody(s[1..])
      case Some((t, rest)) => Some((JStr(t), rest))
      case None => None
    else if s[0] == '[' then ParseArrayRest(s[1..])
    else if s[0] == '{' then ParseObjectRest(s[1..])
    else
      match ParseNumber(s)
      case Some((n, rest)) => Some((JNum(n), rest))
      case None => None
  }

  /** An array after its opening bracket. */
  function ParseArrayRest(s: string): (r: Option<(Json, string)>)
    decreases |s|, 3
    ensures r.Some? ==> |r.value.1| < |s|
  {
    if s != [] && s[0] == ']' then Some((JArr([]), s[1..]))
    else
      match ParseItems(s)
      case Some((items, rest)) => Some((JArr(items), rest))
      case None => None
  }

  /** An object after its opening brace. */
  function ParseObjectRest(s: string): (r: Option<(Json, string)>)
    decreases |s|, 3
    ensures r.Some? ==> |r.value.1| < |s|
  {
    if s != [] && s[0] == '}' then Some((JObj([]), s[1..]))
    else
      match ParseMembers(s)
      case Some((ms, rest)) => Some((JObj(ms), rest))
      case None => None
  }

  /** A non-empty item list followed by `]`. */
  function ParseItems(s: string): (r: Option<(seq<Json>, string)>)
    decreases |s|, 2
    ensures r.Some? ==> |r.value.1| < |s|
  {
    match ParseValue(s)
    case None => None
    case Some((v, rest)) =>
      if rest != [] && rest[0] == ']' then Some(([v], rest[1..]))
      else if rest != [] && rest[0] == ',' then
        match ParseItems(rest[1..])
        case Some((vs, rest2)) => Some(([v] + vs, rest2))
        case None => None
      else None
  }

  /** A non-empty member list followed by `}`. */
  function ParseMembers(s: string): (r: Option<(seq<Member>, string)>)
    decreases |s|, 2
    ensures r.Some? ==> |r.value.1| < |s|
  {
    if s == [] || s[0] != '"' then None
    else
      match ParseStringBody(s[1..])
      case None => None
      case Some((key, afterKey)) =>
        if afterKey == [] || afterKey[0] != ':' then None
        else
          match ParseValue(afterKey[1..])
          case None => None
          case Some((v, rest)) =>
            if rest != [] && rest[0] == '}' then Some(([Member(key, v)], rest[1..]))
            else if rest != [] && rest[0] == ',' then
              match ParseMembers(rest[1..])
              case Some((ms, rest2)) => Some(([Member(key, v)] + ms, rest2))
              case None => None
            else None
  }

  /** `JSON.parse`; `None` is the SyntaxError it throws. */
  function Parse(s: string): Option<Json>
  {
    match ParseValue(s)
    case Some((j, rest)) => if rest == [] then Some(j) else None
    case None => None
  }

  // ---------------------------------------------------------------------
  // Round trip

  /** What may follow a value inside the text `Stringify` writes. */
  predicate Terminator(rest: string) {
    rest == [] || rest[0] == ',' || rest[0] == ']' || rest[0] == '}'
  }

  lemma {:induction false} DigitsValueNatText(n: nat)
    ensures DigitsValue(NatText(n)) == n
  {
    if n >= 10 {
      DigitsValueNatText(n / 10);
      var t := NatText(n);
      assert t[..|t| - 1] == NatText(n / 10);
    }
  }

  lemma ParseNatText(n: nat, rest: string)
    requires Terminator(rest)
    ensures ParseNat(NatText(n) + rest) == Some((n, rest))
  {
    var t := NatText(n);
    var s := t + rest;
    assert DigitRun(s) == |t| by { DigitRunPrefix(t, rest); }
    assert s[..|t|] == t && s[|t|..] == rest;
    DigitsValueNatText(n);
  }

  lemma {:induction false} DigitRunPrefix(t: string, rest: string)
    requires forall i :: 0 <= i < |t| ==> IsDigit(t[i])
    requires Terminator(rest)
    ensures DigitRun(t + rest) == |t|
  {
    if t != [] {
      assert (t + rest)[1..] == t[1..] + rest;
      DigitRunPrefix(t[1..], rest);
    } else {
      assert t + rest == rest;
    }
  }

  lemma ParseIntText(n: int, rest: string)
    requires Terminator(rest)
    ensures ParseNumber(IntText(n) + rest) == Some((n, rest))
  {
    if n < 0 {
      var t := NatText(-n) + rest;
      assert IntText(n) + rest == "-" + t;
      ParseNatText(-n, rest);
      NegativeNumber(t, -n, rest);
    } else {
      assert (NatText(n) + rest)[0] == NatText(n)[0];
      ParseNatText(n, rest);
      NonNegativeNumber(NatText(n) + rest, n, rest);
    }
  }

  lemma NegativeNumber(t: string, m: nat, rest: string)
    requires ParseNat(t) == Some((m, rest))
    ensures ParseNumber("-" + t) == Some((-(m as int), rest))
  {
    assert ("-" + t)[0] == '-' && ("-" + t)[1..] == t;
  }

  lemma NonNegativeNumber(t: string, m: nat, rest: string)
    requires t != [] && IsDigit(t[0])
    requires ParseNat(t) == Some((m, rest))
    ensures ParseNumber(t) == Some((m, rest))
  {
  }

  lemma {:induction false} ParseEscaped(s: string, rest: string)
    ensures ParseStringBody(Escape(s) + "\"" + rest) == Some((s, rest))
  {
    if s == [] {
      assert Escape(s) + "\"" + rest == "\"" + rest;
    } else {
      var head := EscapeChar(s[0]);
      var e := Escape(s[1..]);
      var tail := e + "\"" + rest;
      assert Escape(s) == head + e;
      ConcatAssoc(head, e, "\"");
      ConcatAssoc(head, e + "\"", rest);
      ParseEscaped(s[1..], rest);
      ParseEscapedChar(s[0], tail);
      assert s == [s[0]] + s[1..];
    }
  }

  /** One escaped character in front of a string body. */
  lemma ParseEscapedChar(c: char, tail: string)
    ensures ParseStringBody(EscapeChar(c) + tail) ==
              match ParseStringBody(tail)
              case Some((t, rest)) => Some(([c] + t, rest))
              case None => None
  {
    var head := EscapeChar(c);
    var s := head + tail;
    assert s[|head|..] == tail;
    if |head| > 1 {
      assert s[0] == '\\' && s[1..][|head| - 1..] == tail;
      if c as int < 0x20 && c as int != 8 && c as int != 12 && c as int != 10 && c as int != 13 && c as int != 9 {
        var h := c as int / 16;
        var l := c as int % 16;
        assert s[1..][0] == 'u' && s[1..][1] == '0' && s[1..][2] == '0';
        assert s[1..][3] == EscapeHexDigit(h) && s[1..][4] == EscapeHexDigit(l);
        assert ((0 * 16 + 0) * 16 + h) * 16 + l == c as int;
        assert EscapeAt(s[1..]) == Some((c, 5));
      } else {
        assert EscapeAt(s[1..]) == Some((c, 1));
      }
    }
  }

  /** `JSON.parse` refuses a raw control character inside a string: a body
      that reaches one before its closing quote does not parse. */
  lemma {:induction false} RawControlRefused(a: string, c: char, b: string)
    requires forall i :: 0 <= i < |a| ==> a[i] != '"' && a[i] != '\\' && a[i] as int >= 0x20
    requires c as int < 0x20
    ensures ParseStringBody(a + [c] + b) == None
  {
    if a == [] {
      assert a + [c] + b == [c] + b;
    } else {
      assert (a + [c] + b)[1..] == a[1..] + [c] + b;
      RawControlRefused(a[1..], c, b);
    }
  }

  /** A leading zero followed by another digit is a syntax error. */
  lemma LeadingZeroRefused(s: string)
    requires |s| >= 2 && s[0] == '0' && IsDigit(s[1])
    ensures ParseValue(s) == None
  {
    assert DigitRun(s) >= 2 by {
      assert DigitRun(s) == 1 + DigitRun(s[1..]);
      assert s[1..][0] == s[1];
    }
  }

  /** The text `Stringify` writes for a string holds no raw control
      character, so `JSON.parse` accepts it. */
  lemma {:induction false} EscapeHasNoControl(s: string)
    ensures forall i :: 0 <= i < |Escape(s)| ==> Escape(s)[i] as int >= 0x20
  {
    if s != [] {
      EscapeHasNoControl(s[1..]);
      var h := EscapeChar(s[0]);
      assert forall i :: 0 <= i < |h| ==> h[i] as int >= 0x20;
      assert Escape(s) == h + Escape(s[1..]);
      forall i | 0 <= i < |Escape(s)|
        ensures Escape(s)[i] as int >= 0x20
      {
        if i >= |h| {
          assert Escape(s)[i] == Escape(s[1..])[i - |h|];
        }
      }
    }
  }

  /** The first character of any written value: never a separator or a
      closing bracket. */
  lemma FirstChar(j: Json)
    ensures |Stringify(j)| > 0 && Stringify(j)[0] != ']'
  {
    match j
    case JNum(n) =>
      if n >= 0 { assert IsDigit(NatText(n)[0]); }
    case _ =>
  }

  /** Parsing reads back exactly what stringifying wrote, and stops where it ended. */
  lemma {:induction false} ParseStringifyValue(j: Json, rest: string)
    requires Terminator(rest)
    ensures ParseValue(Stringify(j) + rest) == Some((j, rest))
    decreases j, 0
  {
    match j
    case JNull =>
      var s := Stringify(j) + rest;
      assert IsPrefix("null", s) && s[4..] == rest;
    case JBool(b) =>
      ParseBoolText(b, rest);
    case JNum(n) =>
      NumberNotKeyword(n, rest);
      ParseIntText(n, rest);
    case JStr(t) =>
      ParseStrText(t, rest);
    case JArr(items) =>
      ParseArrText(items, rest);
    case JObj(ms) =>
      ParseObjText(ms, rest);
  }

  lemma ParseBoolText(b: bool, rest: string)
    ensures ParseValue(Stringify(JBool(b)) + rest) == Some((JBool(b), rest))
  {
    var s := Stringify(JBool(b)) + rest;
    if b {
      assert s[0] == 't';
      assert IsPrefix("true", s) && s[4..] == rest;
    } else {
      assert s[0] == 'f';
      assert IsPrefix("false", s) && s[5..] == rest;
    }
  }

  lemma ParseStrText(t: string, rest: string)
    ensures ParseValue(Stringify(JStr(t)) + rest) == Some((JStr(t), rest))
  {
    var s := Stringify(JStr(t)) + rest;
    assert s[0] == '"';
    assert s[1..] == Escape(t) + "\"" + rest;
    ParseEscaped(t, rest);
  }

  lemma {:induction false} ParseArrText(items: seq<Json>, rest: string)
    ensures ParseValue(Stringify(JArr(items)) + rest) == Some((JArr(items), rest))
    decreases items, 1
  {
    var s := Stringify(JArr(items)) + rest;
    var text := StringifyItems(items);
    var body := text + "]" + rest;
    ConcatAssoc("[", text, "]");
    ConcatAssoc("[", text + "]", rest);
    assert s == "[" + body;
    assert s[0] == '[' && s[1..] == body;
    if items == [] {
      assert body == "]" + rest;
      assert body[1..] == rest;
    } else {
      FirstChar(items[0]);
      assert body[0] == Stringify(items[0])[0];
      ParseStringifyItems(items, rest);
    }
  }

  lemma {:induction false} ParseObjText(ms: seq<Member>, rest: string)
    ensures ParseValue(Stringify(JObj(ms)) + rest) == Some((JObj(ms), rest))
    decreases ms, 1
  {
    var text := StringifyMembers(ms);
    var body := text + "}" + rest;
    ConcatAssoc("{", text, "}");
    ConcatAssoc("{", text + "}", rest);
    BraceValue(body);
    if ms == [] {
      assert body == "}" + rest;
      assert body[1..] == rest;
    } else {
      MembersFirstChar(ms);
      HeadOfAppend(text, "}");
      HeadOfAppend(text + "}", rest);
      ParseStringifyMembers(ms, rest);
    }
  }

  lemma BraceValue(body: string)
    ensures ParseValue("{" + body) == ParseObjectRest(body)
  {
    var s := "{" + body;
    assert s[0] == '{' && s[1..] == body;
  }

  /** Written members start with the quote of the first key. */
  lemma MembersFirstChar(ms: seq<Member>)
    requires ms != []
    ensures StringifyMembers(ms) != [] && StringifyMembers(ms)[0] == '"'
  {
    var k := ms[0].key;
    var first := StringifyMember(ms[0]);
    HeadOfAppend("\"" + Escape(k), "\"");
    HeadOfAppend("\"", Escape(k));
    HeadOfAppend(Quote(k), ":");
    HeadOfAppend(Quote(k) + ":", Stringify(ms[0].value));
    if |ms| > 1 {
      HeadOfAppend(first, ",");
      HeadOfAppend(first + ",", StringifyMembers(ms[1..]));
    }
  }

  lemma HeadOfAppend(a: string, b: string)
    requires a != []
    ensures a + b != [] && (a + b)[0] == a[0]
  {
  }

  lemma NumberNotKeyword(n: int, rest: string)
    ensures var s := IntText(n) + rest;
      s != [] && s[0] != '"' && s[0] != '[' && s[0] != '{' &&
      !IsPrefix("null", s) && !IsPrefix("true", s) && !IsPrefix("false", s)
  {
    var s := IntText(n) + rest;
    if n >= 0 {
      assert IsDigit(NatText(n)[0]);
      assert s[0] == NatText(n)[0];
    } else {
      assert s[0] == '-';
    }
  }

  lemma {:induction false} ParseStringifyItems(items: seq<Json>, rest: string)
    requires items != []
    ensures ParseItems(StringifyItems(items) + "]" + rest) == Some((items, rest))
    decreases items, 0
  {
    var head := Stringify(items[0]);
    if |items| == 1 {
      assert StringifyItems(items) == head;
      assert StringifyItems(items) + "]" + rest == head + ("]" + rest);
      ParseStringifyValue(items[0], "]" + rest);
      assert ("]" + rest)[1..] == rest;
      assert [items[0]] == items;
    } else {
      var tail := StringifyItems(items[1..]) + "]" + rest;
      assert StringifyItems(items) + "]" + rest == head + ("," + tail);
      ParseStringifyValue(items[0], "," + tail);
      assert ("," + tail)[1..] == tail;
      ParseStringifyItems(items[1..], rest);
      assert [items[0]] + items[1..] == items;
    }
  }

  /** One member written before `after` reads back, leaving `after`. */
  lemma ParseMemberText(m: Member, after: string)
    requires Terminator(after)
    ensures var s := StringifyMember(m) + after;
      s != [] && s[0] == '"' &&
      ParseStringBody(s[1..]) == Some((m.key, ":" + (Stringify(m.value) + after))) &&
      ParseValue(Stringify(m.value) + after) == Some((m.value, after))
  {
    var tailK := ":" + (Stringify(m.value) + after);
    var s := StringifyMember(m) + after;
    assert s == "\"" + (Escape(m.key) + "\"" + tailK);
    assert s[1..] == Escape(m.key) + "\"" + tailK;
    ParseEscaped(m.key, tailK);
    ParseStringifyValue(m.value, after);
  }

  lemma {:induction false} ParseStringifyMembers(ms: seq<Member>, rest: string)
    requires ms != []
    ensures ParseMembers(StringifyMembers(ms) + "}" + rest) == Some((ms, rest))
    decreases ms, 0
  {
    var m := ms[0];
    var after := MembersAfter(ms, rest);
    var s := StringifyMembers(ms) + "}" + rest;
    MembersText(ms, rest);
    ParseMemberText(m, after);
    MembersStep(s, m.key, Stringify(m.value) + after, m.value, after);
    if |ms| == 1 {
      assert after[1..] == rest;
      assert [Member(m.key, m.value)] == ms;
    } else {
      assert after[1..] == StringifyMembers(ms[1..]) + "}" + rest;
      ParseStringifyMembers(ms[1..], rest);
      ConsTail(ms);
    }
  }

  /** What follows the first written member. */
  function MembersAfter(ms: seq<Member>, rest: string): string
    requires ms != []
  {
    if |ms| == 1 then "}" + rest else "," + (StringifyMembers(ms[1..]) + "}" + rest)
  }

  lemma MembersText(ms: seq<Member>, rest: string)
    requires ms != []
    ensures StringifyMembers(ms) + "}" + rest == StringifyMember(ms[0]) + MembersAfter(ms, rest)
  {
    var first := StringifyMember(ms[0]);
    if |ms| > 1 {
      var more := StringifyMembers(ms[1..]);
      assert StringifyMembers(ms) == first + "," + more;
      ConcatAssoc(first, ",", more);
      ConcatAssoc(first, "," + more, "}");
      ConcatAssoc(first, "," + more + "}", rest);
      ConcatAssoc(",", more, "}");
      ConcatAssoc(",", more + "}", rest);
    } else {
      assert StringifyMembers(ms) == first;
      ConcatAssoc(first, "}", rest);
    }
  }

  /** One step of `ParseMembers` over a key and a value already read. */
  lemma MembersStep(s: string, key: string, x: string, v: Json, after: string)
    requires s != [] && s[0] == '"'
    requires ParseStringBody(s[1..]) == Some((key, ":" + x))
    requires ParseValue(x) == Some((v, after))
    ensures after != [] && after[0] == '}' ==> ParseMembers(s) == Some(([Member(key, v)], after[1..]))
    ensures after != [] && after[0] == ',' ==>
      ParseMembers(s) == match ParseMembers(after[1..])
                         case Some((ms, rest2)) => Some(([Member(key, v)] + ms, rest2))
                         case None => None
  {
    assert (":" + x)[0] == ':' && (":" + x)[1..] == x;
  }

  lemma ConsTail<T>(xs: seq<T>)
    requires xs != []
    ensures [xs[0]] + xs[1..] == xs
  {
  }

  /** `JSON.parse(JSON.stringify(v))` gives back `v`. */
  lemma ParseStringify(j: Json)
    ensures Parse(Stringify(j)) == Some(j)
  {
    ParseStringifyValue(j, []);
    assert Stringify(j) + [] == Stringify(j);
  }
}
