/** `JSON.stringify(value, null, 2)`, the serialiser behind the error, debug
    and verbose channels (logger.service.ts, lines 199-200, 222, 235, 267),
    following the SerializeJSONProperty, SerializeJSONObject,
    SerializeJSONArray and QuoteJSONString algorithms of ECMA-262 section 25.5.2. */
module Json {
  import opened Wrappers
  import opened Text
  import opened Values

  /** What serialising one value gives: nothing (`undefined`), a text, or a
      thrown TypeError. */
  datatype Serialized = Omitted | Text(text: string) | Throws

  /** One indentation step: the `2` of `JSON.stringify(x, null, 2)`. */
  const Gap := "  "

  function HexDigit(d: nat): (c: char)
    requires d < 16
  {
    if d < 10 then DigitChar(d) else ('a' as int + d - 10) as char
  }

  /** The JSON escape of one character. */
  function EscapeChar(c: char): (r: string)
    ensures r != []
  {
    if c == '"' then "\\\""
    else if c == '\\' then "\\\\"
    else if c == '\U{8}' then "\\b"
    else if c == '\U{C}' then "\\f"
    else if c == '\n' then "\\n"
    else if c == '\r' then "\\r"
    else if c == '\t' then "\\t"
    else if c < ' ' then "\\u00" + [HexDigit(c as int / 16), HexDigit(c as int % 16)]
    else [c]
  }

  function Escape(s: string): string
  {
    if s == [] then "" else EscapeChar(s[0]) + Escape(s[1..])
  }

  /** QuoteJSONString. */
  function Quote(s: string): (r: string)
    ensures |r| >= 2 && r[0] == '"' && r[|r| - 1] == '"'
  {
    "\"" + Escape(s) + "\""
  }

  function HexValue(c: char): Option<nat>
  {
    if '0' <= c <= '9' then Some(c as int - '0' as int)
    else if 'a' <= c <= 'f' then Some(c as int - 'a' as int + 10)
    else if 'A' <= c <= 'F' then Some(c as int - 'A' as int + 10)
    else None
  }

  function Prepend(c: char, rest: Option<string>): Option<string>
  {
    match rest
    case Some(s) => Some([c] + s)
    case None => None
  }

  /** Reference reader of the inside of a JSON string literal: the escapes of
      RFC 8259 section 7; an unescaped quote or control character, a bad escape
      or an escaped surrogate gives None. */
  function Unescape(t: string): Option<string>
    decreases |t|
  {
    if t == [] then Some("")
    else if t[0] == '\\' then
      if |t| < 2 then None
      else if t[1] == 'u' then
        if |t| < 6 then None
        else
          match (HexValue(t[2]), HexValue(t[3]), HexValue(t[4]), HexValue(t[5]))
          case (Some(a), Some(b), Some(c), Some(d)) =>
            var code := ((a * 16 + b) * 16 + c) * 16 + d;
            if code < 0xD800 || 0xE000 <= code < 0x1_0000 then Prepend(code as char, Unescape(t[6..]))
            else None
          case _ => None
      else
        var e := t[1];
        var c :=
          if e == '"' then Some('"') else if e == '\\' then Some('\\') else if e == '/' then Some('/')
          else if e == 'b' then Some('\U{8}') else if e == 'f' then Some('\U{C}')
          else if e == 'n' then Some('\n') else if e == 'r' then Some('\r')
          else if e == 't' then Some('\t') else None;
        if c.None? then None else Prepend(c.value, Unescape(t[2..]))
    else if t[0] == '"' || t[0] < ' ' then None
    else Prepend(t[0], Unescape(t[1..]))
  }

  lemma EscapeCharRead(c: char, rest: string)
    ensures Unescape(EscapeChar(c) + rest) == Prepend(c, Unescape(rest))
  {
    var t := EscapeChar(c) + rest;
    if c < ' ' && c != '\U{8}' && c != '\U{C}' && c != '\n' && c != '\r' && c != '\t' {
      var hi, lo := c as int / 16, c as int % 16;
      assert t[..6] == ['\\', 'u', '0', '0', HexDigit(hi), HexDigit(lo)];
      assert t[6..] == rest;
      assert HexValue(HexDigit(hi)) == Some(hi);
      assert HexValue(HexDigit(lo)) == Some(lo);
      assert ((0 * 16 + 0) * 16 + hi) * 16 + lo == c as int;
    } else if |EscapeChar(c)| == 2 {
      assert t[2..] == rest;
    } else {
      assert t[1..] == rest;
    }
  }

  /** Quoting loses nothing: reading the escaped text back gives the string. */
  lemma {:induction false} EscapeRoundTrip(s: string)
    ensures Unescape(Escape(s)) == Some(s)
  {
    if s != [] {
      EscapeCharRead(s[0], Escape(s[1..]));
      EscapeRoundTrip(s[1..]);
      assert [s[0]] + s[1..] == s;
    }
  }

  /** A quoted string is a single line: every line terminator is escaped. */
  lemma {:induction false} EscapeSingleLine(s: string)
    ensures forall i | 0 <= i < |Escape(s)| :: Escape(s)[i] != '\n' && Escape(s)[i] != '\r'
  {
    if s != [] {
      EscapeSingleLine(s[1..]);
      var e := EscapeChar(s[0]);
      assert Escape(s) == e + Escape(s[1..]);
      assert forall i | 0 <= i < |e| :: e[i] != '\n' && e[i] != '\r';
    }
  }

  /** A number's JSON text: non-finite numbers become `null`. */
  function NumberText(text: string): string
  {
    if text in NonFinite then "null" else text
  }

  /** `String(n)` of the numbers JSON cannot write. */
  const NonFinite := ["NaN", "Infinity", "-Infinity"]

  /** JSON.stringify throws on a BigInt anywhere it looks; it looks at array
      items and at the values of enumerable own properties. */
  predicate Serializable(v: JsValue)
    decreases v
  {
    match v
    case Prim(BigInt, _) => false
    case Arr(items, _) => forall i | 0 <= i < |items| :: Serializable(items[i])
    case Obj(props, _) => forall p | p in props && p.enumerable :: Serializable(p.value)
    case _ => true
  }

  /** An object serialises exactly when the value of each of its entries does. */
  lemma EntriesSerializable(props: seq<Prop>)
    ensures (forall p | p in props && p.enumerable :: Serializable(p.value))
      <==> forall i | 0 <= i < |Entries(props)| :: Serializable(Entries(props)[i].value)
  {
    if forall i | 0 <= i < |Entries(props)| :: Serializable(Entries(props)[i].value) {
      forall p | p in props && p.enumerable
        ensures Serializable(p.value)
      {
        assert p in Entries(props);
        var i :| 0 <= i < |Entries(props)| && Entries(props)[i] == p;
      }
    }
    if forall p | p in props && p.enumerable :: Serializable(p.value) {
      forall i | 0 <= i < |Entries(props)|
        ensures Serializable(Entries(props)[i].value)
      {
        assert Entries(props)[i] in props && Entries(props)[i].enumerable;
      }
    }
  }

  predicate AnyThrows(parts: seq<Serialized>)
  {
    exists i | 0 <= i < |parts| :: parts[i].Throws?
  }

  /** The bracketed, indented layout of SerializeJSONArray and SerializeJSONObject. */
  function Block(open: string, members: seq<string>, close: string, indent: string): (r: string)
    ensures members == [] ==> r == open + close
    ensures members != [] ==> StartsWith(r, open + "\n" + indent + Gap)
  {
    if members == [] then open + close
    else
      var inner := indent + Gap;
      var r := open + "\n" + inner + JoinWith(members, ",\n" + inner) + "\n" + indent + close;
      assert r[..|open + "\n" + inner|] == open + "\n" + inner;
      r
  }

  /** Array members: an omitted item is written as `null`. */
  function ItemTexts(parts: seq<Serialized>): (r: seq<string>)
    ensures |r| == |parts|
  {
    seq(|parts|, i requires 0 <= i < |parts| => if parts[i].Text? then parts[i].text else "null")
  }

  /** Object members: `"key": value`, with omitted values dropped with their key. */
  function MemberTexts(keys: seq<string>, parts: seq<Serialized>): (r: seq<string>)
    requires |keys| == |parts|
    ensures |r| <= |parts|
  {
    if parts == [] then []
    else
      (if parts[0].Text? then [Quote(keys[0]) + ": " + parts[0].text] else [])
      + MemberTexts(keys[1..], parts[1..])
  }

  /** SerializeJSONProperty at the current `indent`. */
  function Serialize(v: JsValue, indent: string): (r: Serialized)
    ensures r.Throws? <==> !Serializable(v)
    ensures r.Omitted? <==> v.Undefined? || v.Func? || (v.Prim? && v.kind == Symbol)
    ensures v.Str? ==> r == Text(Quote(v.s))
    decreases v
  {
    match v
    case Undefined => Omitted
    case Func(_, _) => Omitted
    case Prim(Symbol, _) => Omitted
    case Prim(BigInt, _) => Throws
    case Prim(Boolean, text) => Text(text)
    case Prim(Number, text) => Text(NumberText(text))
    case Null => Text("null")
    case Str(s) => Text(Quote(s))
    case Arr(items, _) =>
      var parts := seq(|items|, i requires 0 <= i < |items| => Serialize(items[i], indent + Gap));
      assert forall i | 0 <= i < |items| :: parts[i].Throws? <==> !Serializable(items[i]);
      if AnyThrows(parts) then Throws
      else Text(Block("[", ItemTexts(parts), "]", indent))
    case Obj(props, _) =>
      var entries := Entries(props);
      var parts := seq(|entries|, i requires 0 <= i < |entries| =>
        assert entries[i] in props;
        Serialize(entries[i].value, indent + Gap));
      assert forall i | 0 <= i < |entries| :: parts[i].Throws? <==> !Serializable(entries[i].value);
      EntriesSerializable(props);
      if AnyThrows(parts) then Throws
      else Text(Block("{", MemberTexts(Keys(entries), parts), "}", indent))
  }

  /** `JSON.stringify(v, null, 2)`. */
  function Stringify(v: JsValue): Serialized
  {
    Serialize(v, "")
  }

  /** An empty array or an object without enumerable properties prints on one line. */
  lemma EmptyStructures(p: Proto, hidden: seq<Prop>)
    requires forall i | 0 <= i < |hidden| :: !hidden[i].enumerable
    ensures Stringify(Arr([], p)) == Text("[]")
    ensures Stringify(Obj(hidden, p)) == Text("{}")
  {
  }

  /** A non-empty array opens a new line indented by one step per item. */
  lemma ArrayLayout(items: seq<JsValue>, p: Proto)
    requires items != [] && Serializable(Arr(items, p))
    ensures Stringify(Arr(items, p)).Text? && StartsWith(Stringify(Arr(items, p)).text, "[\n  ")
  {
  }
}
