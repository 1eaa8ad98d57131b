/** The JavaScript values the relay handles: JSON request bodies and query
    objects, the truthiness that `||` and `&&` test, the string conversion a
    template literal applies, and `JSON.stringify` of a query object (an object
    whose values are all strings). */
module Json {
  import opened Wrappers

  /** A parsed JSON value. Numbers are integers (see README). */
  datatype JsonValue =
    | JNull
    | JBool(b: bool)
    | JNum(n: int)
    | JStr(s: string)
    | JArr(items: seq<JsonValue>)
    | JObj(fields: map<string, JsonValue>)

  /** JavaScript truthiness of a property read; `None` is `undefined`. */
  predicate Truthy(v: Option<JsonValue>) {
    match v
    case None => false
    case Some(JNull) => false
    case Some(JBool(b)) => b
    case Some(JNum(n)) => n != 0
    case Some(JStr(s)) => s != ""
    case Some(_) => true
  }

  /** `a || b`: the left operand when it is truthy, the right one otherwise. */
  function Or(a: Option<JsonValue>, b: Option<JsonValue>): (r: Option<JsonValue>)
    ensures Truthy(r) <==> Truthy(a) || Truthy(b)
    ensures Truthy(a) ==> r == a
    ensures !Truthy(a) ==> r == b
  {
    if Truthy(a) then a else b
  }

  /** `obj.k` on a parsed value: only objects have the relay's property names. */
  function Get(v: JsonValue, k: string): (r: Option<JsonValue>)
    ensures r.Some? <==> v.JObj? && k in v.fields
    ensures r.Some? ==> r.value == v.fields[k]
  {
    if v.JObj? && k in v.fields then Some(v.fields[k]) else None
  }

  // ---------------------------------------------------------------------------
  // String conversion, as `${v}` performs it

  function Digit(d: nat): (c: char)
    requires d < 10
    ensures '0' <= c <= '9'
  {
    (48 + d) as char
  }

  function NatText(n: nat): (r: string)
    ensures r != [] && forall i :: 0 <= i < |r| ==> '0' <= r[i] <= '9'
  {
    if n < 10 then [Digit(n)] else NatText(n / 10) + [Digit(n % 10)]
  }

  function IntText(n: int): (r: string)
    ensures r != []
    ensures (r[0] == '-') <==> n < 0
  {
    if n < 0 then "-" + NatText(-n) else NatText(n)
  }

  /** `String(v)`: arrays join their items with "," (null items become ""),
      objects become "[object Object]". */
  function ToText(v: JsonValue): string {
    match v
    case JNull => "null"
    case JBool(b) => if b then "true" else "false"
    case JNum(n) => IntText(n)
    case JStr(s) => s
    case JArr(items) => ItemsText(v, items)
    case JObj(_) => "[object Object]"
  }

  function ItemsText(whole: JsonValue, items: seq<JsonValue>): string
    requires forall i :: 0 <= i < |items| ==> items[i] < whole
    decreases whole, |items|
  {
    if items == [] then ""
    else
      var first := if items[0] == JNull then "" else ToText(items[0]);
      if |items| == 1 then first else first + "," + ItemsText(whole, items[1..])
  }

  // ---------------------------------------------------------------------------
  // JSON.stringify of an object whose values are strings

  function HexDigit(d: nat): (c: char)
    requires d < 16
  {
    if d < 10 then (48 + d) as char else (87 + d) as char
  }

  /** The escape JSON.stringify writes for one character of a string. */
  function EscapeChar(c: char): (r: string)
    ensures r != []
  {
    if c == '"' then "\\\""
    else if c == '\\' then "\\\\"
    else if c == '\U{8}' then "\\b"
    else if c == '\U{C}' then "\\f"
    else if c == '\n' then "\\n"
    else if c == '\r' then "\\r"
    else if c == '\t' then "\\t"
    else if (c as int) < 0x20 then "\\u00" + [HexDigit(c as int / 16), HexDigit(c as int % 16)]
    else [c]
  }

  function Escape(s: string): string {
    if s == [] then [] else EscapeChar(s[0]) + Escape(s[1..])
  }

  /** A string literal as JSON.stringify writes it. */
  function Quote(s: string): string {
    "\"" + Escape(s) + "\""
  }

  function MemberText(m: (string, string)): string {
    Quote(m.0) + ":" + Quote(m.1)
  }

  function MembersText(q: seq<(string, string)>): string {
    if q == [] then ""
    else if |q| == 1 then MemberText(q[0])
    else MemberText(q[0]) + "," + MembersText(q[1..])
  }

  /** `JSON.stringify(obj)` for an object with string values, its members in
      property order. */
  function QueryJson(q: seq<(string, string)>): string {
    "{" + MembersText(q) + "}"
  }

  // ---------------------------------------------------------------------------
  // Reading the text back: a left inverse of QueryJson, used to prove that
  // distinct query objects serialize to distinct texts

  function HexValue(c: char): (r: Option<nat>)
    ensures r.Some? ==> r.value < 16
  {
    if '0' <= c <= '9' then Some(c as int - 48)
    else if 'a' <= c <= 'f' then Some(c as int - 87)
    else None
  }

  function ShortUnescape(c: char): Option<char> {
    if c == '"' then Some('"')
    else if c == '\\' then Some('\\')
    else if c == 'b' then Some('\U{8}')
    else if c == 'f' then Some('\U{C}')
    else if c == 'n' then Some('\n')
    else if c == 'r' then Some('\r')
    else if c == 't' then Some('\t')
    else None
  }

  function Prepend(c: char, r: Option<(string, string)>): Option<(string, string)> {
    match r
    case None => None
    case Some((d, rest)) => Some(([c] + d, rest))
  }

  /** The characters of a string literal up to its closing quote, and the text
      after that quote. */
  function Unescape(s: string): (r: Option<(string, string)>)
    ensures r.Some? ==> |r.value.1| < |s|
    decreases |s|
  {
    if s == [] then None
    else if s[0] == '"' then Some(([], s[1..]))
    else if s[0] == '\\' then
      if |s| < 2 then None
      else if s[1] == 'u' then
        if |s| < 6 || s[2] != '0' || s[3] != '0' then None
        else
          match (HexValue(s[4]), HexValue(s[5]))
          case (Some(h), Some(l)) => Prepend((16 * h + l) as char, Unescape(s[6..]))
          case _ => None
      else
        match ShortUnescape(s[1])
        case Some(c) => Prepend(c, Unescape(s[2..]))
        case None => None
    else Prepend(s[0], Unescape(s[1..]))
  }

  function ParseQuoted(s: string): (r: Option<(string, string)>)
    ensures r.Some? ==> |r.value.1| < |s|
  {
    if s != [] && s[0] == '"' then Unescape(s[1..]) else None
  }

  /** The members of an object after its `{`, through the closing `}`. */
  function ParseMembers(s: string): Option<seq<(string, string)>>
    decreases |s|
  {
    match ParseQuoted(s)
    case None => None
    case Some((k, r1)) =>
      if r1 == [] || r1[0] != ':' then None
      else
        match ParseQuoted(r1[1..])
        case None => None
        case Some((v, r2)) =>
          if r2 == "}" then Some([(k, v)])
          else if r2 != [] && r2[0] == ',' then
            match ParseMembers(r2[1..])
            case None => None
            case Some(more) => Some([(k, v)] + more)
          else None
  }

  function ParseObject(s: string): Option<seq<(string, string)>> {
    if s == "{}" then Some([])
    else if s != [] && s[0] == '{' then ParseMembers(s[1..])
    else None
  }

  lemma HexRoundTrip(d: nat)
    requires d < 16
    ensures HexValue(HexDigit(d)) == Some(d)
  {
  }

  /** Reading one escaped character back gives the character. */
  lemma UnescapeChar(c: char, t: string)
    ensures Unescape(EscapeChar(c) + t) == Prepend(c, Unescape(t))
  {
    var s := EscapeChar(c) + t;
    if c == '"' || c == '\\' || c == '\U{8}' || c == '\U{C}' || c == '\n' || c == '\r' || c == '\t' {
      assert s[2..] == t;
    } else if (c as int) < 0x20 {
      var hi, lo := c as int / 16, c as int % 16;
      HexRoundTrip(hi);
      HexRoundTrip(lo);
      assert s[1] == 'u' && s[2] == '0' && s[3] == '0';
      assert s[4] == HexDigit(hi) && s[5] == HexDigit(lo);
      assert s[6..] == t;
      assert (16 * hi + lo) as char == c;
    } else {
      assert s[1..] == t;
    }
  }

  /** Reading an escaped string followed by its closing quote gives back the
      string and whatever followed the quote. */
  lemma {:induction false} UnescapeEscape(x: string, t: string)
    ensures Unescape(Escape(x) + "\"" + t) == Some((x, t))
  {
    if x == [] {
      assert Escape(x) + "\"" + t == "\"" + t;
    } else {
      UnescapeEscape(x[1..], t);
      assert Escape(x) + "\"" + t == EscapeChar(x[0]) + (Escape(x[1..]) + "\"" + t);
      UnescapeChar(x[0], Escape(x[1..]) + "\"" + t);
      assert [x[0]] + x[1..] == x;
    }
  }

  lemma QuoteRoundTrip(x: string, t: string)
    ensures ParseQuoted(Quote(x) + t) == Some((x, t))
  {
    assert (Quote(x) + t)[1..] == Escape(x) + "\"" + t;
    UnescapeEscape(x, t);
  }

  lemma DropPrefix(a: string, b: string)
    ensures (a + b)[|a|..] == b
  {
  }

  /** ParseMembers after its key and value have been read. */
  lemma ParseMembersAfter(s: string, k: string, r1: string, v: string, r2: string, more: seq<(string, string)>)
    requires ParseQuoted(s) == Some((k, r1)) && r1 != [] && r1[0] == ':'
    requires ParseQuoted(r1[1..]) == Some((v, r2))
    requires r2 == "}" ==> more == []
    requires r2 != "}" ==> r2 != [] && r2[0] == ',' && ParseMembers(r2[1..]) == Some(more)
    ensures ParseMembers(s) == Some([(k, v)] + more)
  {
    if r2 == "}" {
      assert [(k, v)] + more == [(k, v)];
    }
  }

  /** One member read back: its key and value, then the text after it. */
  lemma MemberStep(k: string, v: string, tail: string, more: seq<(string, string)>)
    requires tail == "}" ==> more == []
    requires tail != "}" ==> tail != [] && tail[0] == ',' && ParseMembers(tail[1..]) == Some(more)
    ensures ParseMembers(Quote(k) + (":" + (Quote(v) + tail))) == Some([(k, v)] + more)
  {
    var x := Quote(v) + tail;
    var r1 := ":" + x;
    var s := Quote(k) + r1;
    QuoteRoundTrip(k, r1);
    DropPrefix(":", x);
    QuoteRoundTrip(v, tail);
    ParseMembersAfter(s, k, r1, v, tail, more);
  }

  lemma Regroup(a: string, b: string, c: string, d: string)
    ensures a + b + c + d == a + (b + (c + d))
  {
  }

  lemma Regroup6(a: string, b: string, c: string, d: string, e: string, f: string)
    ensures a + b + c + d + e + f == a + (b + (c + (d + (e + f))))
  {
  }

  lemma MembersSingle(q: seq<(string, string)>)
    requires |q| == 1
    ensures ParseMembers(MembersText(q) + "}") == Some(q)
  {
    var k, v := q[0].0, q[0].1;
    assert MembersText(q) == Quote(k) + ":" + Quote(v);
    Regroup(Quote(k), ":", Quote(v), "}");
    MemberStep(k, v, "}", []);
    assert [(k, v)] + [] == q;
  }

  lemma MembersConsText(q: seq<(string, string)>)
    requires |q| > 1
    ensures MembersText(q) + "}" == Quote(q[0].0) + (":" + (Quote(q[0].1) + ("," + (MembersText(q[1..]) + "}"))))
  {
    assert MembersText(q) == Quote(q[0].0) + ":" + Quote(q[0].1) + "," + MembersText(q[1..]);
    Regroup6(Quote(q[0].0), ":", Quote(q[0].1), ",", MembersText(q[1..]), "}");
  }

  lemma MemberThenMore(k: string, v: string, m: string, more: seq<(string, string)>)
    requires ParseMembers(m + "}") == Some(more)
    ensures ParseMembers(Quote(k) + (":" + (Quote(v) + ("," + (m + "}"))))) == Some([(k, v)] + more)
  {
    var tail := "," + (m + "}");
    DropPrefix(",", m + "}");
    assert tail != "}" by { assert |tail| > 1; }
    MemberStep(k, v, tail, more);
  }

  /** A non-empty query is its first pair followed by the rest. */
  lemma HeadThenRest(q: seq<(string, string)>)
    requires q != []
    ensures [(q[0].0, q[0].1)] + q[1..] == q
  {
  }

  lemma {:induction false} MembersRoundTrip(q: seq<(string, string)>)
    requires q != []
    ensures ParseMembers(MembersText(q) + "}") == Some(q)
  {
    if |q| == 1 {
      MembersSingle(q);
    } else {
      var rest := q[1..];
      MembersRoundTrip(rest);
      MembersConsText(q);
      MemberThenMore(q[0].0, q[0].1, MembersText(rest), rest);
      HeadThenRest(q);
    }
  }

  /** The members of a non-empty query start with a quoted key. */
  lemma MembersTextOpens(q: seq<(string, string)>)
    requires q != []
    ensures MembersText(q) != [] && MembersText(q)[0] == '"'
  {
    assert MemberText(q[0])[0] == '"';
  }

  /** An object whose members start with a quote is read as its members. */
  lemma ObjectText(m: string)
    requires m != [] && m[0] == '"'
    ensures ParseObject("{" + m + "}") == ParseMembers(m + "}")
  {
    var s := "{" + m + "}";
    assert s[1] == '"';
    assert s[1..] == m + "}";
  }

  /** Reading the serialized query object back gives the query. */
  lemma QueryJsonRoundTrip(q: seq<(string, string)>)
    ensures ParseObject(QueryJson(q)) == Some(q)
  {
    if q != [] {
      MembersTextOpens(q);
      ObjectText(MembersText(q));
      MembersRoundTrip(q);
    }
  }

  /** Distinct query objects serialize to distinct texts. */
  lemma QueryJsonInjective(q1: seq<(string, string)>, q2: seq<(string, string)>)
    requires QueryJson(q1) == QueryJson(q2)
    ensures q1 == q2
  {
    QueryJsonRoundTrip(q1);
    QueryJsonRoundTrip(q2);
  }
}
