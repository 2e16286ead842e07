/**
 * The part of JSON (RFC 8259) that the console's storage writes and reads:
 * strings, and flat objects whose values are strings, `null` or booleans.
 * `Quote` is `JSON.stringify` on a string, `EncodeObject` on such an object;
 * the parsers read exactly that language back.
 */
module Json {
  import opened Wrappers

  /** A lowercase hexadecimal digit, as `JSON.stringify` writes them. */
  function HexDigit(n: int): (c: char)
    requires 0 <= n < 16
  {
    if n < 10 then ('0' as int + n) as char else ('a' as int + n - 10) as char
  }

  function HexValue(c: char): (r: Option<int>)
    ensures r.Some? ==> 0 <= r.value < 16
  {
    if '0' <= c <= '9' then Some(c as int - '0' as int)
    else if 'a' <= c <= 'f' then Some(c as int - 'a' as int + 10)
    else if 'A' <= c <= 'F' then Some(c as int - 'A' as int + 10)
    else None
  }

  lemma HexRoundTrip(n: int)
    requires 0 <= n < 16
    ensures HexValue(HexDigit(n)) == Some(n)
  {
  }

  /** One character of a string literal, escaped as section 7 of RFC 8259 requires and `JSON.stringify` chooses. */
  function EscapeChar(c: char): (e: string)
    ensures 1 <= |e| <= 6
    ensures e[0] != '"'
    ensures |e| == 1 <==> c != '"' && c != '\\' && c >= ' '
  {
    if c == '"' then "\\\""
    else if c == '\\' then "\\\\"
    else if c == '\U{8}' then "\\b"
    else if c == '\t' then "\\t"
    else if c == '\n' then "\\n"
    else if c == '\U{c}' then "\\f"
    else if c == '\r' then "\\r"
    else if c < ' ' then "\\u00" + [HexDigit(c as int / 16), HexDigit(c as int % 16)]
    else [c]
  }

  function EscapeAll(s: string): string {
    if s == [] then [] else EscapeChar(s[0]) + EscapeAll(s[1..])
  }

  /** `JSON.stringify(s)` for a string. */
  function Quote(s: string): (q: string)
    ensures |q| >= 2 && q[0] == '"' && q[|q| - 1] == '"'
  {
    "\"" + EscapeAll(s) + "\""
  }

  /** The character an escape sequence at the start of `t` stands for, and its length. */
  function DecodeEscape(t: string): (r: Option<(char, nat)>)
    requires |t| >= 1 && t[0] == '\\'
    ensures r.Some? ==> 2 <= r.value.1 <= |t|
  {
    if |t| < 2 then None
    else match t[1]
      case '"' => Some(('"', 2))
      case '\\' => Some(('\\', 2))
      case '/' => Some(('/', 2))
      case 'b' => Some(('\U{8}', 2))
      case 'f' => Some(('\U{c}', 2))
      case 'n' => Some(('\n', 2))
      case 'r' => Some(('\r', 2))
      case 't' => Some(('\t', 2))
      case 'u' =>
        if |t| < 6 then None
        else
          (match (HexValue(t[2]), HexValue(t[3]), HexValue(t[4]), HexValue(t[5]))
           case (Some(a), Some(b), Some(c), Some(d)) =>
             var v := ((a * 16 + b) * 16 + c) * 16 + d;
             // A surrogate half is no character of its own.
             if 0xD800 <= v <= 0xDFFF then None else Some((v as char, 6))
           case _ => None)
      case _ => None
  }

  /** One character of a string literal that is not its closing quote. */
  function ReadChar(t: string): (r: Option<(char, nat)>)
    requires |t| >= 1 && t[0] != '"'
    ensures r.Some? ==> 1 <= r.value.1 <= |t|
  {
    if t[0] == '\\' then DecodeEscape(t)
    else if t[0] < ' ' then None
    else Some((t[0], 1))
  }

  /** The rest of a string literal after its opening quote: the characters and what follows the closing quote. */
  function ParseBody(t: string): (r: Option<(string, string)>)
    ensures r.Some? ==> |r.value.1| < |t|
    decreases |t|
  {
    if t == [] then None
    else if t[0] == '"' then Some(([], t[1..]))
    else match ReadChar(t)
      case None => None
      case Some((c, n)) =>
        match ParseBody(t[n..])
        case None => None
        case Some((s, rest)) => Some(([c] + s, rest))
  }

  /** A string literal at the start of `t`, and the text after it. */
  function ParseString(t: string): (r: Option<(string, string)>)
    ensures r.Some? ==> |r.value.1| < |t|
  {
    if t != [] && t[0] == '"' then ParseBody(t[1..]) else None
  }

  /** Every escape reads back as the character it escapes. */
  lemma ReadEscaped(c: char, t: string)
    ensures (EscapeChar(c) + t)[0] != '"'
    ensures ReadChar(EscapeChar(c) + t) == Some((c, |EscapeChar(c)|))
  {
    var e := EscapeChar(c);
    var u := e + t;
    assert u[..|e|] == e;
    if c < ' ' && c != '\U{8}' && c != '\t' && c != '\n' && c != '\U{c}' && c != '\r' {
      var hi, lo := c as int / 16, c as int % 16;
      HexRoundTrip(hi);
      HexRoundTrip(lo);
      assert u[0] == '\\' && u[1] == 'u' && u[2] == '0' && u[3] == '0' && u[4] == HexDigit(hi) && u[5] == HexDigit(lo);
      assert ((0 * 16 + 0) * 16 + hi) * 16 + lo == c as int;
    } else if c == '"' || c == '\\' || c < ' ' {
      assert u[0] == '\\' && u[1] == e[1];
    }
  }

  lemma {:induction false} BodyRoundTrip(s: string, rest: string)
    ensures ParseBody(EscapeAll(s) + "\"" + rest) == Some((s, rest))
    decreases |s|
  {
    if s == [] {
      assert EscapeAll(s) + "\"" + rest == "\"" + rest;
    } else {
      var e := EscapeChar(s[0]);
      var t := EscapeAll(s[1..]) + "\"" + rest;
      assert EscapeAll(s) + "\"" + rest == e + t;
      ReadEscaped(s[0], t);
      assert (e + t)[|e|..] == t;
      BodyRoundTrip(s[1..], rest);
      assert [s[0]] + s[1..] == s;
    }
  }

  /** A quoted string reads back as itself, whatever follows it. */
  lemma QuoteRoundTrip(s: string, rest: string)
    ensures ParseString(Quote(s) + rest) == Some((s, rest))
  {
    var t := Quote(s) + rest;
    assert t[1..] == EscapeAll(s) + "\"" + rest;
    BodyRoundTrip(s, rest);
  }

  /** `JSON.parse` of a text that must be one string literal. */
  function ParseJsonString(t: string): (r: Option<string>)
    ensures r.Some? ==> ParseString(t) == Some((r.value, []))
  {
    match ParseString(t)
    case Some((s, rest)) => if rest == [] then Some(s) else None
    case None => None
  }

  lemma JsonStringRoundTrip(s: string)
    ensures ParseJsonString(Quote(s)) == Some(s)
  {
    QuoteRoundTrip(s, []);
    assert Quote(s) + [] == Quote(s);
  }

  /** A member value of a flat object. */
  datatype Value = JString(s: string) | JNull | JBool(b: bool)

  function ValueText(v: Value): string {
    match v
    case JString(s) => Quote(s)
    case JNull => "null"
    case JBool(b) => if b then "true" else "false"
  }

  /** A value at the start of `t`, and the text after it. */
  function ParseValue(t: string): (r: Option<(Value, string)>)
    ensures r.Some? ==> |r.value.1| < |t|
  {
    if |t| >= 4 && t[..4] == "null" then Some((JNull, t[4..]))
    else if |t| >= 4 && t[..4] == "true" then Some((JBool(true), t[4..]))
    else if |t| >= 5 && t[..5] == "false" then Some((JBool(false), t[5..]))
    else match ParseString(t)
      case Some((s, rest)) => Some((JString(s), rest))
      case None => None
  }

  lemma ValueRoundTrip(v: Value, rest: string)
    ensures ParseValue(ValueText(v) + rest) == Some((v, rest))
  {
    var t := ValueText(v) + rest;
    match v
    case JString(s) =>
      QuoteRoundTrip(s, rest);
      assert t[0] == '"';
    case JNull =>
      assert t[..4] == "null" && t[4..] == rest;
    case JBool(b) =>
      if b {
        assert t[..4] == "true" && t[4..] == rest;
      } else {
        assert t[0] == 'f';
        assert t[..5] == "false" && t[5..] == rest;
      }
  }

  /** `"key":value`. */
  function MemberText(m: (string, Value)): string {
    Quote(m.0) + ":" + ValueText(m.1)
  }

  /** Members separated by commas. */
  function JoinMembers(ms: seq<(string, Value)>): string {
    if ms == [] then ""
    else if |ms| == 1 then MemberText(ms[0])
    else MemberText(ms[0]) + "," + JoinMembers(ms[1..])
  }

  /** `JSON.stringify` of a flat object whose members are `ms`, in order. */
  function EncodeObject(ms: seq<(string, Value)>): (t: string)
    ensures |t| >= 2 && t[0] == '{'
  {
    "{" + JoinMembers(ms) + "}"
  }

  function ParseMember(t: string): (r: Option<((string, Value), string)>)
    ensures r.Some? ==> |r.value.1| < |t|
  {
    match ParseString(t)
    case None => None
    case Some((k, rest)) =>
      if rest != [] && rest[0] == ':' then
        match ParseValue(rest[1..])
        case None => None
        case Some((v, rest')) => Some(((k, v), rest'))
      else None
  }

  /** Members up to and including the closing brace. */
  function ParseMembers(t: string): (r: Option<(seq<(string, Value)>, string)>)
    ensures r.Some? ==> |r.value.1| < |t|
    decreases |t|
  {
    match ParseMember(t)
    case None => None
    case Some((m, rest)) =>
      if rest != [] && rest[0] == '}' then Some(([m], rest[1..]))
      else if rest != [] && rest[0] == ',' then
        match ParseMembers(rest[1..])
        case None => None
        case Some((ms, rest')) => Some(([m] + ms, rest'))
      else None
  }

  /** `JSON.parse` of a text that must be one flat object. */
  function ParseObject(t: string): (r: Option<seq<(string, Value)>>)
  {
    if |t| >= 2 && t[..2] == "{}" then (if |t| == 2 then Some([]) else None)
    else if t != [] && t[0] == '{' then
      match ParseMembers(t[1..])
      case Some((ms, rest)) => if rest == [] then Some(ms) else None
      case None => None
    else None
  }

  lemma MemberRoundTrip(m: (string, Value), rest: string)
    ensures ParseMember(MemberText(m) + rest) == Some((m, rest))
  {
    var vt := ValueText(m.1) + rest;
    var after := ":" + vt;
    assert MemberText(m) + rest == Quote(m.0) + after;
    QuoteRoundTrip(m.0, after);
    ValueRoundTrip(m.1, rest);
    assert after[1..] == vt;
    ParseMemberStep(MemberText(m) + rest, m.0, after, m.1, rest);
  }

  /** How a member is read: a key, a colon, a value. */
  lemma ParseMemberStep(t: string, k: string, after: string, v: Value, rest: string)
    requires ParseString(t) == Some((k, after))
    requires after != [] && after[0] == ':' && ParseValue(after[1..]) == Some((v, rest))
    ensures ParseMember(t) == Some(((k, v), rest))
  {
  }

  /** How a member list continues: a member, then `}` to end it or `,` and more members. */
  lemma ParseMembersStep(t: string, m: (string, Value), after: string)
    requires ParseMember(t) == Some((m, after)) && after != []
    ensures after[0] == '}' ==> ParseMembers(t) == Some(([m], after[1..]))
    ensures after[0] == ',' && ParseMembers(after[1..]).Some? ==>
              ParseMembers(t) == Some(([m] + ParseMembers(after[1..]).value.0, ParseMembers(after[1..]).value.1))
  {
  }

  /** The last member, then the closing brace. */
  lemma LastMemberRoundTrip(m: (string, Value), rest: string)
    ensures ParseMembers(MemberText(m) + "}" + rest) == Some(([m], rest))
  {
    var after := "}" + rest;
    MemberRoundTrip(m, after);
    assert MemberText(m) + "}" + rest == MemberText(m) + after;
    assert after[1..] == rest;
    ParseMembersStep(MemberText(m) + after, m, after);
  }

  /** A member followed by a comma, then the members after it. */
  lemma NextMemberRoundTrip(m: (string, Value), tail: string, ms: seq<(string, Value)>, rest: string)
    requires ParseMembers(tail) == Some((ms, rest))
    ensures ParseMembers(MemberText(m) + "," + tail) == Some(([m] + ms, rest))
  {
    var after := "," + tail;
    MemberRoundTrip(m, after);
    assert MemberText(m) + "," + tail == MemberText(m) + after;
    assert after[1..] == tail;
    ParseMembersStep(MemberText(m) + after, m, after);
  }

  lemma JoinUnfold(ms: seq<(string, Value)>, rest: string)
    requires |ms| >= 2
    ensures JoinMembers(ms) + "}" + rest == MemberText(ms[0]) + "," + (JoinMembers(ms[1..]) + "}" + rest)
  {
  }

  lemma {:induction false} MembersRoundTrip(ms: seq<(string, Value)>, rest: string)
    requires ms != []
    ensures ParseMembers(JoinMembers(ms) + "}" + rest) == Some((ms, rest))
    decreases |ms|
  {
    if |ms| == 1 {
      assert JoinMembers(ms) == MemberText(ms[0]) && ms == [ms[0]];
      LastMemberRoundTrip(ms[0], rest);
    } else {
      var tail := JoinMembers(ms[1..]) + "}" + rest;
      MembersRoundTrip(ms[1..], rest);
      NextMemberRoundTrip(ms[0], tail, ms[1..], rest);
      JoinUnfold(ms, rest);
      assert [ms[0]] + ms[1..] == ms;
    }
  }

  /** An encoded flat object reads back as the same members in the same order. */
  lemma ObjectRoundTrip(ms: seq<(string, Value)>)
    ensures ParseObject(EncodeObject(ms)) == Some(ms)
  {
    var t := EncodeObject(ms);
    if ms == [] {
      assert t == "{}";
    } else {
      var body := JoinMembers(ms);
      assert body[0] == MemberText(ms[0])[0] == '"';
      assert t[1..] == body + "}" + [];
      MembersRoundTrip(ms, []);
      ParseObjectStep(t, ms);
    }
  }

  /** How an object with members is read: `{`, then members through the closing brace, then nothing. */
  lemma ParseObjectStep(t: string, ms: seq<(string, Value)>)
    requires |t| >= 2 && t[0] == '{' && t[1] != '}'
    requires ParseMembers(t[1..]) == Some((ms, []))
    ensures ParseObject(t) == Some(ms)
  {
    assert t[..2] != "{}" by {
      assert t[..2][1] == t[1];
    }
  }
}
