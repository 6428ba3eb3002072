/** JSON values as the pipeline exchanges them: the compact text that
    pydantic's `model_dump_json()` writes (no spaces, fields in declaration
    order, control characters escaped, other characters written as they
    are), the inverse of its string escaping, and member lookup in an
    object. */
module Json {
  import opened Wrappers
  import Text

  datatype Json =
    | JNull
    | JBool(b: bool)
    | JInt(n: int)
    | JString(s: string)
    | JArray(items: seq<Json>)
    | JObject(members: seq<Member>)

  datatype Member = Member(key: string, value: Json)

  /** The value of `key` in an object's members; with a repeated key the
      last one wins, as in a Python dict built from the text. */
  function Get(members: seq<Member>, key: string): Option<Json>
  {
    if members == [] then None
    else if members[|members| - 1].key == key then Some(members[|members| - 1].value)
    else Get(members[..|members| - 1], key)
  }

  /** A key is found exactly when some member carries it, and then with the
      value of the last such member. */
  lemma {:induction false} GetFinds(members: seq<Member>, key: string)
    ensures Get(members, key).Some? <==> exists i :: 0 <= i < |members| && members[i].key == key
    ensures Get(members, key).Some? ==>
      exists i :: 0 <= i < |members| && members[i].key == key && members[i].value == Get(members, key).value
        && forall k :: i < k < |members| ==> members[k].key != key
  {
    if members != [] && members[|members| - 1].key != key {
      var init := members[..|members| - 1];
      GetFinds(init, key);
      assert forall i :: 0 <= i < |init| ==> init[i] == members[i];
    }
  }

  /** Looking up a key in an object of one to four members, as written by
      the schema models. */
  lemma Get1(a: Member, key: string)
    ensures Get([a], key) == if a.key == key then Some(a.value) else None
  {
    assert [a][..0] == [];
  }

  lemma Get2(a: Member, b: Member, key: string)
    ensures Get([a, b], key) == if b.key == key then Some(b.value) else Get([a], key)
  {
    assert [a, b][..1] == [a];
  }

  lemma Get3(a: Member, b: Member, c: Member, key: string)
    ensures Get([a, b, c], key) == if c.key == key then Some(c.value) else Get([a, b], key)
  {
    assert [a, b, c][..2] == [a, b];
  }

  lemma Get4(a: Member, b: Member, c: Member, d: Member, key: string)
    ensures Get([a, b, c, d], key) == if d.key == key then Some(d.value) else Get([a, b, c], key)
  {
    assert [a, b, c, d][..3] == [a, b, c];
  }

  /** Lower-case hexadecimal digit. */
  function HexDigit(d: nat): (c: char)
    requires d < 16
  {
    if d < 10 then (48 + d) as char else (87 + d) as char
  }

  function HexValue(c: char): (r: Option<nat>)
    ensures r.Some? ==> r.value < 16
  {
    if '0' <= c <= '9' then Some(c as int - 48)
    else if 'a' <= c <= 'f' then Some(c as int - 87)
    else if 'A' <= c <= 'F' then Some(c as int - 55)
    else None
  }

  /** How one character is written inside a JSON string. */
  function EscapeChar(c: char): (r: string)
    ensures |r| >= 1
  {
    if c == '"' then "\\\""
    else if c == '\\' then "\\\\"
    else if c == '\n' then "\\n"
    else if c == '\r' then "\\r"
    else if c == '\t' then "\\t"
    else if c as int == 8 then "\\b"
    else if c as int == 12 then "\\f"
    else if (c as int) < 0x20 then "\\u00" + [HexDigit(c as int / 16), HexDigit(c as int % 16)]
    else [c]
  }

  function Escape(s: string): string
  {
    if s == [] then "" else EscapeChar(s[0]) + Escape(s[1..])
  }

  /** Decoding of the body of a JSON string: `None` for text a JSON parser
      rejects (a bare quote, a raw control character, an unknown escape).
      A `\u` escape of a surrogate half is rejected too: pairs are not
      combined here. */
  function Unescape(s: string): Option<string>
  {
    if s == [] then Some("")
    else if s[0] == '"' || (s[0] as int) < 0x20 then None
    else if s[0] != '\\' then
      match Unescape(s[1..])
      case Some(rest) => Some([s[0]] + rest)
      case None => None
    else if |s| < 2 then None
    else
      var e := s[1];
      var decoded: Option<(char, nat)> :=
        if e == '"' then Some(('"', 2))
        else if e == '\\' then Some(('\\', 2))
        else if e == '/' then Some(('/', 2))
        else if e == 'b' then Some((8 as char, 2))
        else if e == 'f' then Some((12 as char, 2))
        else if e == 'n' then Some(('\n', 2))
        else if e == 'r' then Some(('\r', 2))
        else if e == 't' then Some(('\t', 2))
        else if e == 'u' && |s| >= 6 then
          match HexQuad(s[2..6])
          case Some(v) => if v < 0xD800 || 0xE000 <= v then Some((v as char, 6)) else None
          case None => None
        else None;
      match decoded
      case None => None
      case Some((c, n)) =>
        match Unescape(s[n..])
        case Some(rest) => Some([c] + rest)
        case None => None
  }

  function HexQuad(h: string): (r: Option<nat>)
    requires |h| == 4
    ensures r.Some? ==> r.value < 0x10000
  {
    match (HexValue(h[0]), HexValue(h[1]), HexValue(h[2]), HexValue(h[3]))
    case (Some(a), Some(b), Some(c), Some(d)) => Some(((a * 16 + b) * 16 + c) * 16 + d)
    case _ => None
  }

  /** Decoding what `EscapeChar` wrote gives the character back. */
  lemma EscapeCharDecodes(c: char, rest: string)
    ensures Unescape(EscapeChar(c) + rest) == (match Unescape(rest) case Some(r) => Some([c] + r) case None => None)
  {
    var e := EscapeChar(c) + rest;
    if (c as int) < 0x20 && c != '\n' && c != '\r' && c != '\t' && c as int != 8 && c as int != 12 {
      var hi, lo := c as int / 16, c as int % 16;
      assert e[..6] == "\\u00" + [HexDigit(hi), HexDigit(lo)];
      assert e[2..6] == ['0', '0', HexDigit(hi), HexDigit(lo)];
      assert HexValue(HexDigit(hi)) == Some(hi);
      assert HexValue(HexDigit(lo)) == Some(lo);
      assert HexQuad(e[2..6]) == Some(c as int);
      assert e[6..] == rest;
    } else if EscapeChar(c) == [c] {
      assert e[1..] == rest;
    } else {
      assert e[2..] == rest;
    }
  }

  /** `json.loads` of a string written by `model_dump_json` gives back the
      original text. */
  lemma {:induction false} UnescapeEscape(s: string)
    ensures Unescape(Escape(s)) == Some(s)
  {
    if s != [] {
      UnescapeEscape(s[1..]);
      EscapeCharDecodes(s[0], Escape(s[1..]));
      assert [s[0]] + s[1..] == s;
    }
  }

  /** No character below U+0020, so in particular no line break. */
  predicate NoControl(s: string)
  {
    forall i :: 0 <= i < |s| ==> (s[i] as int) >= 0x20
  }

  lemma NoControlAppend(a: string, b: string)
    requires NoControl(a) && NoControl(b)
    ensures NoControl(a + b)
  {
    assert forall i :: |a| <= i < |a + b| ==> (a + b)[i] == b[i - |a|];
  }

  lemma NoControlNoNewline(s: string)
    requires NoControl(s)
    ensures '\n' !in s
  {
  }

  lemma {:induction false} EscapeNoControl(s: string)
    ensures NoControl(Escape(s))
  {
    if s != [] {
      EscapeNoControl(s[1..]);
      var c := s[0];
      var e := EscapeChar(c);
      if (c as int) < 0x20 && c != '\n' && c != '\r' && c != '\t' && c as int != 8 && c as int != 12 {
        var hi, lo := c as int / 16, c as int % 16;
        assert e == ['\\', 'u', '0', '0', HexDigit(hi), HexDigit(lo)];
      }
      assert NoControl(e);
      NoControlAppend(e, Escape(s[1..]));
    }
  }

  function Digits(n: nat): (r: string)
    ensures NoControl(r)
  {
    var d := [(48 + n % 10) as char];
    if n < 10 then d
    else
      var r := Digits(n / 10) + d;
      NoControlAppend(Digits(n / 10), d);
      r
  }

  function Quote(s: string): string
  {
    "\"" + Escape(s) + "\""
  }

  /** The compact text of a value: `model_dump_json()` for the schema
      models and their fields. */
  function Render(j: Json): string
    decreases j, 1
  {
    match j
    case JNull => "null"
    case JBool(b) => if b then "true" else "false"
    case JInt(n) => if n < 0 then "-" + Digits(-n) else Digits(n)
    case JString(s) => Quote(s)
    case JArray(items) => "[" + RenderItems(j, items) + "]"
    case JObject(members) => "{" + RenderMembers(j, members) + "}"
  }

  function RenderItems(ghost parent: Json, items: seq<Json>): string
    requires forall i :: 0 <= i < |items| ==> items[i] < parent
    decreases parent, 0, |items|
  {
    if items == [] then ""
    else if |items| == 1 then Render(items[0])
    else Render(items[0]) + "," + RenderItems(parent, items[1..])
  }

  function RenderMembers(ghost parent: Json, members: seq<Member>): string
    requires forall i :: 0 <= i < |members| ==> members[i].value < parent
    decreases parent, 0, |members|
  {
    if members == [] then ""
    else
      var m := Quote(members[0].key) + ":" + Render(members[0].value);
      if |members| == 1 then m else m + "," + RenderMembers(parent, members[1..])
  }

  lemma QuoteNoControl(s: string)
    ensures NoControl(Quote(s))
  {
    EscapeNoControl(s);
    NoControlAppend("\"", Escape(s));
    NoControlAppend("\"" + Escape(s), "\"");
  }

  /** The text of a value is a single line: every control character inside
      a string is escaped, and the compact form puts no line break between
      tokens. */
  lemma {:induction false} RenderNoControl(j: Json)
    ensures NoControl(Render(j))
    decreases j, 1
  {
    match j
    case JNull =>
    case JBool(b) =>
    case JInt(n) =>
      if n < 0 { NoControlAppend("-", Digits(-n)); }
    case JString(s) => QuoteNoControl(s);
    case JArray(items) =>
      RenderItemsNoControl(j, items);
      NoControlAppend("[", RenderItems(j, items));
      NoControlAppend("[" + RenderItems(j, items), "]");
    case JObject(members) =>
      RenderMembersNoControl(j, members);
      NoControlAppend("{", RenderMembers(j, members));
      NoControlAppend("{" + RenderMembers(j, members), "}");
  }

  lemma {:induction false} RenderItemsNoControl(parent: Json, items: seq<Json>)
    requires forall i :: 0 <= i < |items| ==> items[i] < parent
    ensures NoControl(RenderItems(parent, items))
    decreases parent, 0, |items|
  {
    if items != [] {
      RenderNoControl(items[0]);
      if |items| > 1 {
        RenderItemsNoControl(parent, items[1..]);
        NoControlAppend(Render(items[0]), ",");
        NoControlAppend(Render(items[0]) + ",", RenderItems(parent, items[1..]));
      }
    }
  }

  lemma {:induction false} RenderMembersNoControl(parent: Json, members: seq<Member>)
    requires forall i :: 0 <= i < |members| ==> members[i].value < parent
    ensures NoControl(RenderMembers(parent, members))
    decreases parent, 0, |members|
  {
    if members != [] {
      var k := Quote(members[0].key);
      RenderNoControl(members[0].value);
      QuoteNoControl(members[0].key);
      NoControlAppend(k, ":");
      NoControlAppend(k + ":", Render(members[0].value));
      var m := k + ":" + Render(members[0].value);
      if |members| > 1 {
        RenderMembersNoControl(parent, members[1..]);
        NoControlAppend(m, ",");
        NoControlAppend(m + ",", RenderMembers(parent, members[1..]));
      }
    }
  }

  /** What `model_dump_json()` writes has no line break in it. */
  lemma RenderSingleLine(j: Json)
    ensures '\n' !in Render(j)
  {
    RenderNoControl(j);
    NoControlNoNewline(Render(j));
  }
}
