/** The user object the pages keep under the `'user'` key of `localStorage`, and the two
    conversions they apply to it: `JSON.stringify` on the way in and `JSON.parse` on the way out.

    The object is modelled with the three fields the pages read (`full_name`, `email`, `role`),
    each of which may be absent.  Serialisation follows `JSON.stringify` for such an object:
    absent fields are omitted, string escapes are the ones `JSON.stringify` emits.  Parsing
    accepts a JSON object whose member values are strings or `null`, with optional whitespace
    between tokens; a later duplicate key wins, as in `JSON.parse`. */
module StoredUser {
  import opened Wrappers

  datatype UserProfile = UserProfile(fullName: Option<string>, email: Option<string>, role: Option<string>)

  // ---------------------------------------------------------------- strings

  const HexDigits: string := "0123456789abcdef"

  /** How `JSON.stringify` writes one character inside a string literal. */
  function EscapeChar(c: char): string
  {
    if c == '"' then "\\\""
    else if c == '\\' then "\\\\"
    else if c == '\U{0008}' then "\\b"
    else if c == '\U{000C}' then "\\f"
    else if c == '\n' then "\\n"
    else if c == '\r' then "\\r"
    else if c == '\t' then "\\t"
    else if (c as int) < 0x20 then "\\u00" + [HexDigits[(c as int) / 16], HexDigits[(c as int) % 16]]
    else [c]
  }

  function Escape(s: string): string
  {
    if s == [] then [] else EscapeChar(s[0]) + Escape(s[1..])
  }

  /** A JSON string literal for `s`. */
  function Quote(s: string): string
  {
    "\"" + Escape(s) + "\""
  }

  function HexValue(c: char): Option<int>
  {
    if '0' <= c <= '9' then Some(c as int - '0' as int)
    else if 'a' <= c <= 'f' then Some(c as int - 'a' as int + 10)
    else if 'A' <= c <= 'F' then Some(c as int - 'A' as int + 10)
    else None
  }

  /** The four hex digits of a `\uXXXX` escape. */
  function Hex4(t: string): (r: Option<int>)
    requires |t| == 4
    ensures r.Some? ==> 0 <= r.value < 0x10000
  {
    match (HexValue(t[0]), HexValue(t[1]), HexValue(t[2]), HexValue(t[3]))
    case (Some(a), Some(b), Some(c), Some(d)) =>
      if 0 <= a < 16 && 0 <= b < 16 && 0 <= c < 16 && 0 <= d < 16
      then Some(((a * 16 + b) * 16 + c) * 16 + d) else None
    case _ => None
  }

  /** The character a one-letter escape `\e` stands for. */
  function SimpleEscape(e: char): Option<char>
  {
    if e == '"' || e == '\\' || e == '/' then Some(e)
    else if e == 'b' then Some('\U{0008}')
    else if e == 'f' then Some('\U{000C}')
    else if e == 'n' then Some('\n')
    else if e == 'r' then Some('\r')
    else if e == 't' then Some('\t')
    else None
  }

  /** Reads the inside of a JSON string literal (after its opening quote) up to the closing
      quote; yields the decoded text and the input after the closing quote.  Raw control
      characters, unknown escapes and escaped surrogate halves are parse errors. */
  function ReadString(t: string): (r: Option<(string, string)>)
    ensures r.Some? ==> |r.value.1| < |t|
    decreases |t|
  {
    if t == [] then None
    else if t[0] == '"' then Some(([], t[1..]))
    else if t[0] == '\\' then
      if |t| < 2 then None
      else if t[1] == 'u' then
        if |t| < 6 then None
        else match Hex4(t[2..6])
          case None => None
          case Some(code) =>
            if 0xD800 <= code < 0xE000 then None
            else match ReadString(t[6..])
              case None => None
              case Some((v, rest)) => Some(([code as char] + v, rest))
      else match SimpleEscape(t[1])
        case None => None
        case Some(c) =>
          match ReadString(t[2..])
          case None => None
          case Some((v, rest)) => Some(([c] + v, rest))
    else if (t[0] as int) < 0x20 then None
    else match ReadString(t[1..])
      case None => None
      case Some((v, rest)) => Some(([t[0]] + v, rest))
  }

  lemma HexDigitValue(n: int)
    requires 0 <= n < 16
    ensures HexValue(HexDigits[n]) == Some(n)
  {
  }

  /** One escaped character is read back as itself. */
  lemma ReadEscapedChar(c: char, tail: string, v: string, rest: string)
    requires ReadString(tail) == Some((v, rest))
    ensures ReadString(EscapeChar(c) + tail) == Some(([c] + v, rest))
  {
    var t := EscapeChar(c) + tail;
    if c == '"' || c == '\\' || c == '\U{0008}' || c == '\U{000C}' || c == '\n' || c == '\r' || c == '\t' {
      assert t[2..] == tail;
    } else if (c as int) < 0x20 {
      var n := c as int;
      HexDigitValue(n / 16);
      HexDigitValue(n % 16);
      assert t[2..6] == "00" + [HexDigits[n / 16], HexDigits[n % 16]];
      assert Hex4(t[2..6]) == Some(n);
      assert t[6..] == tail;
    } else {
      assert t[1..] == tail;
    }
  }

  /** `ReadString` undoes `Escape` followed by the closing quote. */
  lemma {:induction false} ReadEscaped(s: string, rest: string)
    ensures ReadString(Escape(s) + "\"" + rest) == Some((s, rest))
  {
    if s == [] {
      assert Escape(s) + "\"" + rest == "\"" + rest;
    } else {
      ReadEscaped(s[1..], rest);
      var tail := Escape(s[1..]) + "\"" + rest;
      assert Escape(s) + "\"" + rest == EscapeChar(s[0]) + tail;
      ReadEscapedChar(s[0], tail, s[1..], rest);
      assert [s[0]] + s[1..] == s;
    }
  }

  // ---------------------------------------------------------------- objects

  /** Whitespace JSON allows between tokens. */
  predicate IsJsonSpace(c: char)
  {
    c == ' ' || c == '\t' || c == '\n' || c == '\r'
  }

  function SkipSpace(t: string): (r: string)
    ensures |r| <= |t|
    ensures r == [] || !IsJsonSpace(r[0])
    ensures t != [] && !IsJsonSpace(t[0]) ==> r == t
  {
    if t != [] && IsJsonSpace(t[0]) then SkipSpace(t[1..]) else t
  }

  /** A member value: a string, or `null` (read as an absent field). */
  function ReadValue(t: string): (r: Option<(Option<string>, string)>)
    ensures r.Some? ==> |r.value.1| < |t|
  {
    if t != [] && t[0] == '"' then
      match ReadString(t[1..])
      case None => None
      case Some((v, rest)) => Some((Some(v), rest))
    else if |t| >= 4 && t[..4] == "null" then Some((None, t[4..]))
    else None
  }

  type Member = (string, Option<string>)

  /** Reads `"key" : value ( , "key" : value )* }` starting at the first key's quote;
      yields the members in order and the input after the closing brace. */
  function ReadMembers(t: string): (r: Option<(seq<Member>, string)>)
    ensures r.Some? ==> |r.value.1| < |t|
    decreases |t|
  {
    if t == [] || t[0] != '"' then None
    else match ReadString(t[1..])
      case None => None
      case Some((key, t1)) =>
        var t2 := SkipSpace(t1);
        if t2 == [] || t2[0] != ':' then None
        else match ReadValue(SkipSpace(t2[1..]))
          case None => None
          case Some((val, t3)) =>
            var t4 := SkipSpace(t3);
            if t4 == [] then None
            else if t4[0] == '}' then Some(([(key, val)], t4[1..]))
            else if t4[0] == ',' then
              match ReadMembers(SkipSpace(t4[1..]))
              case None => None
              case Some((more, t5)) => Some(([(key, val)] + more, t5))
            else None
  }

  /** A whole text that is one JSON object (with optional surrounding whitespace). */
  function ParseObject(text: string): Option<seq<Member>>
  {
    var t := SkipSpace(text);
    if t == [] || t[0] != '{' then None
    else
      var t1 := SkipSpace(t[1..]);
      if t1 != [] && t1[0] == '}' then
        if SkipSpace(t1[1..]) == [] then Some([]) else None
      else match ReadMembers(t1)
        case None => None
        case Some((ms, rest)) => if SkipSpace(rest) == [] then Some(ms) else None
  }

  /** Property access on the parsed object: the last member with that key wins; `null` and
      a missing key both read as absent. */
  function Lookup(ms: seq<Member>, key: string): Option<string>
  {
    if ms == [] then None
    else if ms[|ms| - 1].0 == key then ms[|ms| - 1].1
    else Lookup(ms[..|ms| - 1], key)
  }

  /** `JSON.parse(text)`, read as a user object. */
  function Parse(text: string): Option<UserProfile>
  {
    match ParseObject(text)
    case None => None
    case Some(ms) => Some(UserProfile(Lookup(ms, "full_name"), Lookup(ms, "email"), Lookup(ms, "role")))
  }

  // ---------------------------------------------------------------- serialisation

  /** The present fields of a user, in the order they are written. */
  function Fields(u: UserProfile): seq<(string, string)>
  {
    (if u.fullName.Some? then [("full_name", u.fullName.value)] else [])
    + (if u.email.Some? then [("email", u.email.value)] else [])
    + (if u.role.Some? then [("role", u.role.value)] else [])
  }

  /** `"k":"v","k":"v",...` */
  function RenderMembers(fs: seq<(string, string)>): string
  {
    if fs == [] then ""
    else Quote(fs[0].0) + ":" + Quote(fs[0].1) + (if |fs| == 1 then "" else "," + RenderMembers(fs[1..]))
  }

  /** `JSON.stringify(user)`. */
  function Serialize(u: UserProfile): string
  {
    "{" + RenderMembers(Fields(u)) + "}"
  }

  /** The members a parser should find for the rendered fields. */
  function AsMembers(fs: seq<(string, string)>): (ms: seq<Member>)
    ensures |ms| == |fs|
    ensures forall k :: 0 <= k < |fs| ==> ms[k] == (fs[k].0, Some(fs[k].1))
  {
    if fs == [] then [] else [(fs[0].0, Some(fs[0].1))] + AsMembers(fs[1..])
  }

  /** Reading a quoted string back, whatever follows it. */
  lemma ReadQuoted(s: string, after: string)
    ensures (Quote(s) + after)[0] == '"'
    ensures ReadString((Quote(s) + after)[1..]) == Some((s, after))
  {
    assert (Quote(s) + after)[1..] == Escape(s) + "\"" + after;
    ReadEscaped(s, after);
  }

  /** `ReadMembers` on a text whose first member has already been taken apart. */
  lemma ReadMembersUnfold(t: string, key: string, t1: string, val: Option<string>, t3: string)
    requires t != [] && t[0] == '"' && ReadString(t[1..]) == Some((key, t1))
    requires t1 != [] && t1[0] == ':' && t1[1..] != [] && !IsJsonSpace(t1[1])
    requires ReadValue(t1[1..]) == Some((val, t3))
    requires t3 != [] && !IsJsonSpace(t3[0])
    ensures t3[0] == '}' ==> ReadMembers(t) == Some(([(key, val)], t3[1..]))
    ensures t3[0] == ',' ==>
      ReadMembers(t) ==
        match ReadMembers(SkipSpace(t3[1..]))
        case None => None
        case Some((ms, t5)) => Some(([(key, val)] + ms, t5))
  {
    assert SkipSpace(t1) == t1;
    assert SkipSpace(t1[1..]) == t1[1..];
    assert SkipSpace(t3) == t3;
  }

  /** A rendered member followed by the closing brace. */
  lemma ReadLastMember(key: string, val: string, rest: string, t: string)
    requires t == Quote(key) + (":" + Quote(val) + ("}" + rest))
    ensures ReadMembers(t) == Some(([(key, Some(val))], rest))
  {
    var more := "}" + rest;
    var t1 := ":" + Quote(val) + more;
    ReadQuoted(key, t1);
    assert t1[1..] == Quote(val) + more;
    ReadQuoted(val, more);
    ReadMembersUnfold(t, key, t1, Some(val), more);
    assert more[1..] == rest;
  }

  /** A rendered member followed by a comma and further members. */
  lemma ReadFirstMember(key: string, val: string, tail: string, t: string)
    requires t == Quote(key) + (":" + Quote(val) + ("," + tail))
    requires tail != [] && tail[0] == '"'
    ensures ReadMembers(t) ==
      match ReadMembers(tail)
      case None => None
      case Some((ms, t5)) => Some(([(key, Some(val))] + ms, t5))
  {
    var more := "," + tail;
    var t1 := ":" + Quote(val) + more;
    ReadQuoted(key, t1);
    assert t1[1..] == Quote(val) + more;
    ReadQuoted(val, more);
    ReadMembersUnfold(t, key, t1, Some(val), more);
    assert more[1..] == tail;
    assert SkipSpace(tail) == tail;
  }

  lemma Regroup(a: string, b: string, c: string, x: string, y: string)
    ensures a + b + c + x + y == a + (b + c + (x + y))
  {
  }

  lemma RenderSplitLast(fs: seq<(string, string)>, rest: string)
    requires |fs| == 1
    ensures RenderMembers(fs) + "}" + rest == Quote(fs[0].0) + (":" + Quote(fs[0].1) + ("}" + rest))
  {
    assert RenderMembers(fs) == Quote(fs[0].0) + ":" + Quote(fs[0].1) + "";
  }

  lemma RegroupComma(a: string, c: string, r: string, rest: string)
    ensures a + ":" + c + ("," + r) + "}" + rest == a + (":" + c + ("," + (r + "}" + rest)))
  {
  }

  lemma RenderSplitFirst(fs: seq<(string, string)>, rest: string)
    requires |fs| > 1
    ensures RenderMembers(fs) + "}" + rest
      == Quote(fs[0].0) + (":" + Quote(fs[0].1) + ("," + (RenderMembers(fs[1..]) + "}" + rest)))
  {
    var a, c, r := Quote(fs[0].0), Quote(fs[0].1), RenderMembers(fs[1..]);
    assert RenderMembers(fs) == a + ":" + c + ("," + r);
    RegroupComma(a, c, r, rest);
  }

  lemma RenderedStartsWithQuote(fs: seq<(string, string)>, rest: string)
    requires fs != []
    ensures (RenderMembers(fs) + "}" + rest)[0] == '"'
  {
  }

  /** `ReadMembers` undoes `RenderMembers` followed by the closing brace. */
  lemma {:induction false} ReadRendered(fs: seq<(string, string)>, rest: string)
    requires fs != []
    ensures ReadMembers(RenderMembers(fs) + "}" + rest) == Some((AsMembers(fs), rest))
  {
    var t := RenderMembers(fs) + "}" + rest;
    if |fs| == 1 {
      RenderSplitLast(fs, rest);
      ReadLastMember(fs[0].0, fs[0].1, rest, t);
      assert AsMembers(fs) == [(fs[0].0, Some(fs[0].1))];
    } else {
      RenderSplitFirst(fs, rest);
      var tail := RenderMembers(fs[1..]) + "}" + rest;
      RenderedStartsWithQuote(fs[1..], rest);
      ReadFirstMember(fs[0].0, fs[0].1, tail, t);
      ReadRendered(fs[1..], rest);
      assert AsMembers(fs) == [(fs[0].0, Some(fs[0].1))] + AsMembers(fs[1..]);
    }
  }

  lemma LookupSnoc(ms: seq<Member>, m: Member, key: string)
    ensures Lookup(ms + [m], key) == if m.0 == key then m.1 else Lookup(ms, key)
  {
    assert (ms + [m])[..|ms|] == ms;
  }

  /** Each field is found under its own key. */
  lemma LookupFields(u: UserProfile)
    ensures Lookup(AsMembers(Fields(u)), "full_name") == u.fullName
    ensures Lookup(AsMembers(Fields(u)), "email") == u.email
    ensures Lookup(AsMembers(Fields(u)), "role") == u.role
  {
    var a: seq<Member> := if u.fullName.Some? then [("full_name", u.fullName)] else [];
    var ab: seq<Member> := a + (if u.email.Some? then [("email", u.email)] else []);
    var abc: seq<Member> := ab + (if u.role.Some? then [("role", u.role)] else []);
    assert AsMembers(Fields(u)) == abc;
    assert Lookup([], "full_name") == None && Lookup([], "email") == None && Lookup([], "role") == None;
    if u.fullName.Some? {
      LookupSnoc([], ("full_name", u.fullName), "full_name");
      LookupSnoc([], ("full_name", u.fullName), "email");
      LookupSnoc([], ("full_name", u.fullName), "role");
    }
    if u.email.Some? {
      LookupSnoc(a, ("email", u.email), "full_name");
      LookupSnoc(a, ("email", u.email), "email");
      LookupSnoc(a, ("email", u.email), "role");
    }
    if u.role.Some? {
      LookupSnoc(ab, ("role", u.role), "full_name");
      LookupSnoc(ab, ("role", u.role), "email");
      LookupSnoc(ab, ("role", u.role), "role");
    }
  }

  /** `ParseObject` reads back a rendered object. */
  lemma ParseRendered(fs: seq<(string, string)>)
    ensures ParseObject("{" + RenderMembers(fs) + "}") == Some(AsMembers(fs))
  {
    var text := "{" + RenderMembers(fs) + "}";
    assert text[0] == '{';
    if fs == [] {
      assert text == "{}";
      assert AsMembers(fs) == [];
    } else {
      var t1 := RenderMembers(fs) + "}" + "";
      assert text[1..] == t1;
      RenderedStartsWithQuote(fs, "");
      ReadRendered(fs, "");
    }
  }

  /** Round trip: what `Serialize` writes, `Parse` reads back unchanged. */
  lemma ParseSerialize(u: UserProfile)
    ensures Parse(Serialize(u)) == Some(u)
  {
    ParseRendered(Fields(u));
    LookupFields(u);
  }

  /** What `localStorage.setItem('user', JSON.stringify(user))` stores: the serialised object,
      or, when the value is absent, the string "undefined" (`JSON.stringify(undefined)` is
      `undefined`, which `setItem` turns into that string). */
  function StoredText(u: Option<UserProfile>): (t: string)
    ensures u.None? <==> t == "undefined"
    ensures u.Some? ==> Parse(t) == Some(u.value)
  {
    match u
    case None => "undefined"
    case Some(p) => ParseSerialize(p); Serialize(p)
  }
}
