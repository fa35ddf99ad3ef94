/**
  JSON values as JavaScript programs see them after JSON.parse, with the two
  built-ins the system relies on: String(value) and JSON.stringify(value,
  null, space). Objects keep their members in insertion order, and
  Object.entries and JSON.stringify visit them in that order. JavaScript
  visits integer-like keys ("0", "200") first, in ascending order; the model
  does not. Numbers are integers.
 */
module Json {
  import opened Wrappers
  import opened Text

  datatype Json =
    | Null
    | Bool(b: bool)
    | Num(n: int)
    | Str(s: string)
    | Arr(elems: seq<Json>)
    | Obj(members: seq<Member>)

  datatype Member = Member(key: string, value: Json)

  /** JavaScript truthiness: null, false, 0 and "" are falsy; every object and array is truthy. */
  predicate Truthy(j: Json) {
    match j
    case Null => false
    case Bool(b) => b
    case Num(n) => n != 0
    case Str(s) => s != ""
    case _ => true
  }

  /** Primitive values: the ones JavaScript compares by value (SameValueZero) rather than by identity. */
  predicate IsPrimitive(j: Json) {
    !j.Arr? && !j.Obj?
  }

  predicate HasKey(ms: seq<Member>, key: string) {
    exists i :: 0 <= i < |ms| && ms[i].key == key
  }

  /** Reading `obj[key]`: the first member with that key, if any. */
  function Get(ms: seq<Member>, key: string): (r: Option<Json>)
    ensures r.Some? <==> HasKey(ms, key)
    ensures r.Some? ==> exists i :: 0 <= i < |ms| && ms[i] == Member(key, r.value)
  {
    if ms == [] then None
    else if ms[0].key == key then Some(ms[0].value)
    else
      var r := Get(ms[1..], key);
      assert HasKey(ms, key) <==> HasKey(ms[1..], key) by {
        if HasKey(ms, key) {
          var i :| 0 <= i < |ms| && ms[i].key == key;
          assert ms[1..][i - 1].key == key;
        }
      }
      if r.Some? then
        var i :| 0 <= i < |ms[1..]| && ms[1..][i] == Member(key, r.value);
        assert ms[i + 1] == Member(key, r.value);
        r
      else r
  }

  /** Property read `j.key` on any value: only objects have members. */
  function Prop(j: Json, key: string): Option<Json> {
    if j.Obj? then Get(j.members, key) else None
  }

  /** Assignment `obj[key] = v`: an existing member keeps its position, a new one is appended. */
  function Put(ms: seq<Member>, key: string, v: Json): (r: seq<Member>)
    ensures Get(r, key) == Some(v)
    ensures forall k :: k != key ==> Get(r, k) == Get(ms, k)
    ensures HasKey(ms, key) ==> |r| == |ms|
    ensures !HasKey(ms, key) ==> r == ms + [Member(key, v)]
  {
    if ms == [] then [Member(key, v)]
    else if ms[0].key == key then [Member(key, v)] + ms[1..]
    else
      assert HasKey(ms, key) <==> HasKey(ms[1..], key) by {
        if HasKey(ms, key) {
          var i :| 0 <= i < |ms| && ms[i].key == key;
          assert ms[1..][i - 1].key == key;
        }
      }
      [ms[0]] + Put(ms[1..], key, v)
  }

  /** `delete obj[key]`: every member with that key goes, the others keep their order. */
  function Remove(ms: seq<Member>, key: string): (r: seq<Member>)
    ensures Get(r, key) == None
    ensures forall k :: k != key ==> Get(r, k) == Get(ms, k)
    ensures |r| <= |ms|
  {
    if ms == [] then []
    else if ms[0].key == key then Remove(ms[1..], key)
    else [ms[0]] + Remove(ms[1..], key)
  }

  /** `String(value)` for a value that is not an Error: arrays join their elements with commas (null becoming ""), objects give "[object Object]". */
  function JsString(j: Json): string {
    match j
    case Null => "null"
    case Bool(b) => if b then "true" else "false"
    case Num(n) => IntToString(n)
    case Str(s) => s
    case Arr(es) => Join(seq(|es|, i requires 0 <= i < |es| => if es[i].Null? then "" else JsString(es[i])), ",")
    case Obj(_) => "[object Object]"
  }

  function Join(parts: seq<string>, sep: string): string {
    if |parts| == 0 then ""
    else if |parts| == 1 then parts[0]
    else parts[0] + sep + Join(parts[1..], sep)
  }

  lemma {:induction false} JoinAvoids(parts: seq<string>, sep: string, c: char)
    requires forall i :: 0 <= i < |parts| ==> c !in parts[i]
    requires c !in sep
    ensures c !in Join(parts, sep)
  {
    if |parts| > 1 {
      JoinAvoids(parts[1..], sep, c);
    }
  }

  function HexDigit(d: nat): (c: char)
    requires d < 16
  {
    "0123456789abcdef"[d]
  }

  /** How JSON.stringify writes one character inside a string literal. */
  function EscapeChar(c: char): (r: string)
    ensures c != '\n' && c != '\r' && c != '"' && c != '\\' && c as int >= 0x20 ==> r == [c]
  {
    if c == '"' then "\\\""
    else if c == '\\' then "\\\\"
    else if c == '\U{8}' then "\\b"
    else if c == '\t' then "\\t"
    else if c == '\n' then "\\n"
    else if c == '\U{C}' then "\\f"
    else if c == '\r' then "\\r"
    else if c as int < 0x20 then "\\u00" + [HexDigit(c as int / 16), HexDigit(c as int % 16)]
    else [c]
  }

  /** The quoted JSON string literal for `s`. */
  function Quote(s: string): string {
    "\"" + QuoteBody(s) + "\""
  }

  function QuoteBody(s: string): string {
    if s == [] then "" else EscapeChar(s[0]) + QuoteBody(s[1..])
  }

  lemma EscapeCharHasNoLineBreak(c: char)
    ensures '\n' !in EscapeChar(c) && '\r' !in EscapeChar(c)
  {
    if c as int < 0x20 && c != '\U{8}' && c != '\t' && c != '\n' && c != '\U{C}' && c != '\r' {
      var e := "\\u00" + [HexDigit(c as int / 16), HexDigit(c as int % 16)];
      assert forall i :: 0 <= i < |e| ==> e[i] != '\n' && e[i] != '\r';
    }
  }

  lemma {:induction false} QuoteBodyHasNoLineBreak(s: string)
    ensures '\n' !in QuoteBody(s) && '\r' !in QuoteBody(s)
  {
    if s != [] {
      EscapeCharHasNoLineBreak(s[0]);
      QuoteBodyHasNoLineBreak(s[1..]);
    }
  }

  function Spaces(n: nat): (r: string)
    ensures |r| == n && forall i :: 0 <= i < n ==> r[i] == ' '
  {
    seq(n, _ => ' ')
  }

  /**
    The gap JSON.stringify derives from a numeric `space` argument: at most ten
    spaces, and none for a value below one (compact output).
   */
  function Gap(space: int): (r: string)
    ensures |r| == if space < 1 then 0 else if space > 10 then 10 else space
  {
    Spaces(if space < 1 then 0 else if space > 10 then 10 else space)
  }

  /**
    JSON.stringify's serialisation of `j` with the given gap, at the given
    current indentation: never empty, and an object, array or string is
    enclosed in its own brackets or quotes. With an empty gap everything is on one line; with a
    non-empty gap every non-empty array and object puts each element on its own
    line, one gap deeper, and a space follows each member's colon.
   */
  function Serialize(j: Json, gap: string, indent: string): (r: string)
    ensures |r| > 0
    ensures j.Obj? ==> r[0] == '{' && r[|r| - 1] == '}'
    ensures j.Arr? ==> r[0] == '[' && r[|r| - 1] == ']'
    ensures j.Str? ==> r[0] == '"' && r[|r| - 1] == '"'
  {
    match j
    case Null => "null"
    case Bool(b) => if b then "true" else "false"
    case Num(n) => IntToString(n)
    case Str(s) => Quote(s)
    case Arr(es) =>
      if es == [] then "[]"
      else if gap == "" then
        "[" + Join(seq(|es|, i requires 0 <= i < |es| => Serialize(es[i], gap, indent)), ",") + "]"
      else
        var inner := indent + gap;
        "[\n" + inner + Join(seq(|es|, i requires 0 <= i < |es| => Serialize(es[i], gap, inner)), ",\n" + inner) + "\n" + indent + "]"
    case Obj(ms) =>
      if ms == [] then "{}"
      else if gap == "" then
        "{" + Join(seq(|ms|, i requires 0 <= i < |ms| => Quote(ms[i].key) + ":" + Serialize(ms[i].value, gap, indent)), ",") + "}"
      else
        var inner := indent + gap;
        "{\n" + inner + Join(seq(|ms|, i requires 0 <= i < |ms| => Quote(ms[i].key) + ": " + Serialize(ms[i].value, gap, inner)), ",\n" + inner) + "\n" + indent + "}"
  }

  /** `JSON.stringify(j)`: the compact form, a single line. */
  function Stringify(j: Json): (r: string)
    ensures '\n' !in r && '\r' !in r
  {
    CompactHasNoLineBreak(j);
    Serialize(j, "", "")
  }

  /** `JSON.stringify(j, null, space)` for a numeric `space`. */
  function StringifyIndented(j: Json, space: int): (r: string)
    ensures space < 1 ==> r == Stringify(j)
  {
    Serialize(j, Gap(space), "")
  }

  /** Compact serialisation never produces a line break: strings escape them and no whitespace is inserted. */
  lemma {:induction false} CompactHasNoLineBreak(j: Json)
    ensures '\n' !in Serialize(j, "", "") && '\r' !in Serialize(j, "", "")
  {
    match j
    case Null =>
    case Bool(_) =>
    case Num(n) =>
      var r := IntToString(n);
      assert forall i :: 0 <= i < |r| ==> r[i] != '\n' && r[i] != '\r';
    case Str(s) =>
      QuoteBodyHasNoLineBreak(s);
    case Arr(es) =>
      if es != [] {
        var parts := seq(|es|, i requires 0 <= i < |es| => Serialize(es[i], "", ""));
        forall i | 0 <= i < |es|
          ensures '\n' !in parts[i] && '\r' !in parts[i]
        {
          CompactHasNoLineBreak(es[i]);
        }
        JoinAvoids(parts, ",", '\n');
        JoinAvoids(parts, ",", '\r');
      }
    case Obj(ms) =>
      if ms != [] {
        var parts := seq(|ms|, i requires 0 <= i < |ms| => Quote(ms[i].key) + ":" + Serialize(ms[i].value, "", ""));
        forall i | 0 <= i < |ms|
          ensures '\n' !in parts[i] && '\r' !in parts[i]
        {
          CompactHasNoLineBreak(ms[i].value);
          QuoteBodyHasNoLineBreak(ms[i].key);
        }
        JoinAvoids(parts, ",", '\n');
        JoinAvoids(parts, ",", '\r');
      }
  }
}
