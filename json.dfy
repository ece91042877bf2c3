/** JSON values as JavaScript builds them (objects keep their keys in
    insertion order) and `JSON.stringify`. Numbers are integers here. */
module Json {
  import opened Wrappers
  import Text

  datatype Json =
    | JNull
    | JBool(b: bool)
    | JNum(n: int)
    | JStr(s: string)
    | JArr(items: seq<Json>)
    | JObj(fields: seq<Field>)

  /** One own property of an object. */
  datatype Field = Field(key: string, value: Json)

  function KeyList(fs: seq<Field>): (ks: seq<string>)
    ensures |ks| == |fs|
    ensures forall i :: 0 <= i < |fs| ==> ks[i] == fs[i].key
  {
    if fs == [] then [] else [fs[0].key] + KeyList(fs[1..])
  }

  /** The value of property `k`: the first field with that key. */
  function Lookup(fs: seq<Field>, k: string): (r: Option<Json>)
    ensures r.None? <==> k !in KeyList(fs)
  {
    if fs == [] then None
    else if fs[0].key == k then Some(fs[0].value)
    else Lookup(fs[1..], k)
  }

  /** A property of joined field lists comes from the first list that
      has it. */
  lemma {:induction false} LookupAppend(a: seq<Field>, b: seq<Field>, k: string)
    ensures Lookup(a + b, k) == if Lookup(a, k).Some? then Lookup(a, k) else Lookup(b, k)
  {
    if a == [] {
      assert a + b == b;
    } else {
      assert (a + b)[1..] == a[1..] + b;
      LookupAppend(a[1..], b, k);
    }
  }

  /** No string occurs twice. */
  predicate Distinct(ks: seq<string>) {
    forall i, j :: 0 <= i < j < |ks| ==> ks[i] != ks[j]
  }

  /** No key occurs twice, as in every JavaScript object. */
  predicate UniqueKeys(fs: seq<Field>) {
    Distinct(KeyList(fs))
  }

  /** The object literal `{ ks[0]: vs[0], ks[1]: vs[1], ... }`. */
  function Object(ks: seq<string>, vs: seq<Json>): (fs: seq<Field>)
    requires |ks| == |vs|
    ensures KeyList(fs) == ks
  {
    if ks == [] then []
    else
      var fs := [Field(ks[0], vs[0])] + Object(ks[1..], vs[1..]);
      assert fs[1..] == Object(ks[1..], vs[1..]);
      fs
  }

  /** Each property of an object literal without repeated keys is found
      with the value written for it. */
  lemma {:induction false} ObjectLookup(ks: seq<string>, vs: seq<Json>, i: nat)
    requires |ks| == |vs| && Distinct(ks) && i < |ks|
    ensures Lookup(Object(ks, vs), ks[i]) == Some(vs[i])
  {
    if i > 0 {
      assert ks[0] != ks[i];
      assert ks[1..][i - 1] == ks[i] && vs[1..][i - 1] == vs[i];
      ObjectLookup(ks[1..], vs[1..], i - 1);
    }
  }

  /** Property assignment `obj[k] = v`: an existing property keeps its place
      and takes the new value; a new property is appended. */
  function Put(fs: seq<Field>, k: string, v: Json): (r: seq<Field>)
    ensures Lookup(r, k) == Some(v)
    ensures forall k' :: k' != k ==> Lookup(r, k') == Lookup(fs, k')
  {
    if fs == [] then [Field(k, v)]
    else if fs[0].key == k then
      var r := [Field(k, v)] + fs[1..];
      assert r[1..] == fs[1..];
      r
    else
      var tail := Put(fs[1..], k, v);
      var r := [fs[0]] + tail;
      assert r[1..] == tail;
      r
  }

  /** Assignment keeps the order of the existing keys and appends a new one. */
  lemma {:induction false} PutKeyList(fs: seq<Field>, k: string, v: Json)
    ensures KeyList(Put(fs, k, v)) == if k in KeyList(fs) then KeyList(fs) else KeyList(fs) + [k]
  {
    if fs != [] {
      var r := Put(fs, k, v);
      if fs[0].key == k {
        assert KeyList(r) == [k] + KeyList(fs[1..]) == KeyList(fs);
      } else {
        PutKeyList(fs[1..], k, v);
        assert r[1..] == Put(fs[1..], k, v);
        assert KeyList(r) == [fs[0].key] + KeyList(r[1..]);
        assert KeyList(fs) == [fs[0].key] + KeyList(fs[1..]);
      }
    }
  }

  /** Assigning the same value twice is the same as assigning it once. */
  lemma {:induction false} PutTwice(fs: seq<Field>, k: string, v: Json)
    ensures Put(Put(fs, k, v), k, v) == Put(fs, k, v)
  {
    if fs != [] && fs[0].key != k {
      var r := Put(fs, k, v);
      assert r[0] == fs[0] && r[1..] == Put(fs[1..], k, v);
      PutTwice(fs[1..], k, v);
    }
  }

  /** Assignment never creates a second property with the same key. */
  lemma PutUnique(fs: seq<Field>, k: string, v: Json)
    requires UniqueKeys(fs)
    ensures UniqueKeys(Put(fs, k, v))
  {
    PutKeyList(fs, k, v);
  }

  // ---------------------------------------------------------------------
  // JSON.stringify

  function HexDigit(d: nat): (c: char)
    requires d < 16
  {
    if d < 10 then ('0' as int + d) as char else ('a' as int + d - 10) as char
  }

  function HexValue(c: char): Option<nat> {
    if '0' <= c <= '9' then Some(c as int - '0' as int)
    else if 'a' <= c <= 'f' then Some(c as int - 'a' as int + 10)
    else if 'A' <= c <= 'F' then Some(c as int - 'A' as int + 10)
    else None
  }

  /** How `JSON.stringify` writes one character inside a string literal. */
  function EscapeChar(c: char): (e: string)
    ensures |e| >= 1
  {
    if c == '"' then "\\\""
    else if c == '\\' then "\\\\"
    else if c == '\U{8}' then "\\b"
    else if c == '\t' then "\\t"
    else if c == '\n' then "\\n"
    else if c == '\U{C}' then "\\f"
    else if c == '\r' then "\\r"
    else if c < ' ' then "\\u00" + [HexDigit((c as int) / 16), HexDigit((c as int) % 16)]
    else [c]
  }

  function Escape(s: string): string {
    if s == [] then "" else EscapeChar(s[0]) + Escape(s[1..])
  }

  /** A JSON string literal. */
  function Quote(s: string): (q: string)
    ensures |q| >= 2 && q[0] == '"' && q[|q| - 1] == '"'
  {
    "\"" + Escape(s) + "\""
  }

  /** `JSON.stringify(j)` without indentation. */
  function Stringify(j: Json): (t: string)
    ensures |t| >= 1
    ensures t[0] == '{' <==> j.JObj?
    ensures t[0] == '[' <==> j.JArr?
    ensures t[0] == '"' <==> j.JStr?
    decreases j, 1
  {
    match j
    case JNull => "null"
    case JBool(b) => if b then "true" else "false"
    case JNum(n) => Text.IntToDecimal(n)
    case JStr(s) => Quote(s)
    case JArr(items) => "[" + Items(j, 0) + "]"
    case JObj(fields) => "{" + Members(j) + "}"
  }

  /** The elements of an array from index `i` on, comma-separated. */
  function Items(j: Json, i: nat): string
    requires j.JArr? && i <= |j.items|
    decreases j, 0, |j.items| - i
  {
    if i == |j.items| then ""
    else
      assert j.items[i] < j;
      (if i > 0 then "," else "") + Stringify(j.items[i]) + Items(j, i + 1)
  }

  /** The members of an object, comma-separated. */
  function Members(j: Json): string
    requires j.JObj?
    decreases j, 0, |j.fields| + 1
  {
    if |j.fields| == 0 then "" else Member(j, 0) + MoreMembers(j, 1)
  }

  /** The members from index `i` on, each after a comma. */
  function MoreMembers(j: Json, i: nat): string
    requires j.JObj? && 1 <= i <= |j.fields|
    decreases j, 0, |j.fields| - i, 1
  {
    if i == |j.fields| then "" else "," + Member(j, i) + MoreMembers(j, i + 1)
  }

  /** The member at index `i`: its quoted key, a colon and its value. */
  function Member(j: Json, i: nat): string
    requires j.JObj? && i < |j.fields|
    decreases j, 0, |j.fields| - i, 0
  {
    var f := j.fields[i];
    assert f.value < f < j;
    Quote(f.key) + ":" + Stringify(f.value)
  }

  // ---------------------------------------------------------------------
  // JSON.parse, for objects whose values are not arrays or objects

  /** The rest of a string literal after its opening quote: the string it
      denotes and the text after its closing quote; None when it is
      malformed or not closed. */
  function ReadStringBody(t: string): (r: Option<(string, string)>)
    ensures r.Some? ==> |r.value.1| < |t|
    decreases |t|
  {
    if t == [] || t[0] < ' ' then None
    else if t[0] == '"' then Some(("", t[1..]))
    else if t[0] != '\\' then Prepend(t[0], ReadStringBody(t[1..]))
    else
      match ReadEscape(t)
      case None => None
      case Some((c, n)) => Prepend(c, ReadStringBody(t[n..]))
  }

  /** `c` in front of the string read. */
  function Prepend(c: char, r: Option<(string, string)>): (r': Option<(string, string)>)
    ensures r'.Some? <==> r.Some?
    ensures r'.Some? ==> r'.value == ([c] + r.value.0, r.value.1)
  {
    match r
    case Some((u, rest)) => Some(([c] + u, rest))
    case None => None
  }

  /** The escape sequence at the start of `t`: the character it stands for
      and its length. */
  function ReadEscape(t: string): (r: Option<(char, nat)>)
    ensures r.Some? ==> 2 <= r.value.1 <= |t|
  {
    if |t| < 2 || t[0] != '\\' then None
    else if t[1] == '"' then Some(('"', 2)) else if t[1] == '\\' then Some(('\\', 2))
    else if t[1] == '/' then Some(('/', 2)) else if t[1] == 'b' then Some(('\U{8}', 2))
    else if t[1] == 'f' then Some(('\U{C}', 2)) else if t[1] == 'n' then Some(('\n', 2))
    else if t[1] == 'r' then Some(('\r', 2)) else if t[1] == 't' then Some(('\t', 2))
    else if t[1] == 'u' && |t| >= 6 && t[2] == '0' && t[3] == '0'
            && HexValue(t[4]).Some? && HexValue(t[5]).Some? then
      Some(((HexValue(t[4]).value * 16 + HexValue(t[5]).value) as char, 6))
    else None
  }

  /** A string literal at the start of `t`. */
  function ReadString(t: string): (r: Option<(string, string)>)
    ensures r.Some? ==> |r.value.1| < |t|
  {
    if t != [] && t[0] == '"' then ReadStringBody(t[1..]) else None
  }

  /** One escaped character is read back as itself. */
  lemma ReadEscapedChar(c: char, rest: string)
    ensures ReadStringBody(EscapeChar(c) + rest) == Prepend(c, ReadStringBody(rest))
  {
    if c == '"' || c == '\\' || c == '\U{8}' || c == '\t' || c == '\n' || c == '\U{C}' || c == '\r' {
      ReadShortEscape(c, rest);
    } else if c < ' ' {
      ReadHexEscape(c, rest);
    } else {
      assert (EscapeChar(c) + rest)[1..] == rest;
    }
  }

  /** A two-character escape such as `\n`. */
  lemma ReadShortEscape(c: char, rest: string)
    requires c == '"' || c == '\\' || c == '\U{8}' || c == '\t' || c == '\n' || c == '\U{C}' || c == '\r'
    ensures ReadStringBody(EscapeChar(c) + rest) == Prepend(c, ReadStringBody(rest))
  {
    var t := EscapeChar(c) + rest;
    assert ReadEscape(t) == Some((c, 2));
    assert t[2..] == rest;
  }

  /** A control character written as `\u00` and two hex digits. */
  lemma ReadHexEscape(c: char, rest: string)
    requires c < ' '
    requires !(c == '\U{8}' || c == '\t' || c == '\n' || c == '\U{C}' || c == '\r')
    ensures ReadStringBody(EscapeChar(c) + rest) == Prepend(c, ReadStringBody(rest))
  {
    var hi, lo := (c as int) / 16, (c as int) % 16;
    assert hi < 2;
    var e := "\\u00" + [HexDigit(hi), HexDigit(lo)];
    assert EscapeChar(c) == e;
    var t := e + rest;
    assert t[0] == '\\' && t[1] == 'u' && t[2] == '0' && t[3] == '0';
    assert t[4] == HexDigit(hi) && t[5] == HexDigit(lo);
    assert HexValue(HexDigit(hi)) == Some(hi);
    assert HexValue(HexDigit(lo)) == Some(lo);
    assert ReadEscape(t) == Some((c, 6));
    assert t[6..] == rest;
  }

  /** An escaped string and its closing quote are read back as the string,
      leaving exactly the text after the quote. */
  lemma {:induction false} ReadEscaped(s: string, rest: string)
    ensures ReadStringBody(Escape(s) + "\"" + rest) == Some((s, rest))
  {
    if s == [] {
      assert Escape(s) + "\"" + rest == "\"" + rest;
      assert ("\"" + rest)[1..] == rest;
    } else {
      ReadEscaped(s[1..], rest);
      assert Escape(s) + "\"" + rest == EscapeChar(s[0]) + (Escape(s[1..]) + "\"" + rest);
      ReadEscapedChar(s[0], Escape(s[1..]) + "\"" + rest);
      assert [s[0]] + s[1..] == s;
    }
  }

  /** Every string survives `JSON.stringify` and parsing back. */
  lemma ReadQuote(s: string, rest: string)
    ensures ReadString(Quote(s) + rest) == Some((s, rest))
  {
    ReadEscaped(s, rest);
    assert (Quote(s) + rest)[1..] == Escape(s) + "\"" + rest;
  }

  /** A value that is neither an array nor an object. */
  predicate IsScalar(j: Json) {
    !j.JArr? && !j.JObj?
  }

  /** An object whose values are all scalars. */
  predicate FlatFields(fs: seq<Field>) {
    forall i :: 0 <= i < |fs| ==> IsScalar(fs[i].value)
  }

  /** A scalar at the start of `t` and the text after it. */
  function ReadScalar(t: string): (r: Option<(Json, string)>)
    ensures r.Some? ==> IsScalar(r.value.0) && |r.value.1| < |t|
  {
    if t == [] then None
    else if t[0] == '"' then
      match ReadString(t)
      case Some((s, rest)) => Some((JStr(s), rest))
      case None => None
    else if t[0] == 'n' then
      if |t| >= 4 && t[1] == 'u' && t[2] == 'l' && t[3] == 'l' then Some((JNull, t[4..])) else None
    else if t[0] == 't' then
      if |t| >= 4 && t[1] == 'r' && t[2] == 'u' && t[3] == 'e' then Some((JBool(true), t[4..])) else None
    else if t[0] == 'f' then
      if |t| >= 5 && t[1] == 'a' && t[2] == 'l' && t[3] == 's' && t[4] == 'e' then Some((JBool(false), t[5..]))
      else None
    else ReadNumber(t)
  }

  /** An integer at the start of `t`: an optional minus sign and a run of
      digits. */
  function ReadNumber(t: string): (r: Option<(Json, string)>)
    ensures r.Some? ==> r.value.0.JNum? && |r.value.1| < |t|
  {
    var negative := t != [] && t[0] == '-';
    var body := if negative then t[1..] else t;
    var ds := Text.DigitPrefix(body);
    if ds == [] then None
    else
      var n := Text.DigitsValue(ds);
      Some((JNum(if negative then -(n as int) else n), body[|ds|..]))
  }

  /** One member at the start of `t`: a key, a colon and a scalar. */
  function ReadMember(t: string): (r: Option<(Field, string)>)
    ensures r.Some? ==> IsScalar(r.value.0.value) && |r.value.1| < |t|
  {
    match ReadString(t)
    case None => None
    case Some((k, r1)) =>
      if r1 == [] || r1[0] != ':' then None
      else
        match ReadScalar(r1[1..])
        case None => None
        case Some((v, r2)) => Some((Field(k, v), r2))
  }

  /** The members of an object after its opening brace, through the closing
      brace that ends the text. */
  function ReadMembers(t: string): (r: Option<seq<Field>>)
    ensures r.Some? ==> FlatFields(r.value)
  {
    if |t| == 1 && t[0] == '}' then Some([])
    else
      match ReadMember(t)
      case None => None
      case Some((f, rest)) =>
        match ReadMoreMembers(rest)
        case None => None
        case Some(fs) => Some([f] + fs)
  }

  /** The members after the first, each after a comma, through the closing
      brace that ends the text. */
  function ReadMoreMembers(t: string): (r: Option<seq<Field>>)
    ensures r.Some? ==> FlatFields(r.value)
    decreases |t|
  {
    if |t| == 1 && t[0] == '}' then Some([])
    else if t == [] || t[0] != ',' then None
    else
      match ReadMember(t[1..])
      case None => None
      case Some((f, rest)) =>
        match ReadMoreMembers(rest)
        case None => None
        case Some(fs) => Some([f] + fs)
  }

  /** `JSON.parse(t)` when `t` is an object of scalars. */
  function ParseFlatObject(t: string): (r: Option<seq<Field>>)
    ensures r.Some? ==> FlatFields(r.value)
  {
    if t != [] && t[0] == '{' then ReadMembers(t[1..]) else None
  }

  /** A stringified scalar followed by a separator is read back as itself. */
  lemma ReadScalarOf(v: Json, rest: string)
    requires IsScalar(v) && rest != [] && (rest[0] == ',' || rest[0] == '}')
    ensures ReadScalar(Stringify(v) + rest) == Some((v, rest))
  {
    var t := Stringify(v) + rest;
    match v
    case JNull =>
      assert t[4..] == rest;
    case JBool(b) =>
      if b {
        assert t[4..] == rest;
      } else {
        assert t[5..] == rest;
      }
    case JStr(s) =>
      ReadQuote(s, rest);
    case JNum(n) =>
      ReadNumberOf(n, rest);
      assert t[0] == '-' || Text.IsDigit(t[0]);
  }

  /** A number is read back as itself when a separator follows it. */
  lemma ReadNumberOf(n: int, rest: string)
    requires rest != [] && (rest[0] == ',' || rest[0] == '}')
    ensures ReadNumber(Text.IntToDecimal(n) + rest) == Some((JNum(n), rest))
  {
    if n < 0 {
      ReadNegativeOf(n, rest);
    } else {
      var ds := Text.NatToDecimal(n);
      Text.DigitPrefixOfDigits(ds, rest);
      ReadDigitsAt(ds + rest, false, ds, rest);
    }
  }

  lemma ReadNegativeOf(n: int, rest: string)
    requires n < 0 && rest != [] && (rest[0] == ',' || rest[0] == '}')
    ensures ReadNumber(Text.IntToDecimal(n) + rest) == Some((JNum(n), rest))
  {
    var ds := Text.NatToDecimal(-n);
    Text.DigitPrefixOfDigits(ds, rest);
    NegativeDecimal(n, rest);
    ReadDigitsAt(Text.IntToDecimal(n) + rest, true, ds, rest);
  }

  /** A negative number is written as a minus sign and its magnitude. */
  lemma NegativeDecimal(n: int, rest: string)
    requires n < 0
    ensures var t := Text.IntToDecimal(n) + rest;
            |t| > 0 && t[0] == '-' && t[1..] == Text.NatToDecimal(-n) + rest
  {
    var t := Text.IntToDecimal(n) + rest;
    assert t == "-" + (Text.NatToDecimal(-n) + rest);
  }

  /** A minus sign when `negative`, a run of digits `ds`, then text that
      does not start with a digit. */
  lemma ReadDigitsAt(t: string, negative: bool, ds: string, rest: string)
    requires ds != [] && forall k :: 0 <= k < |ds| ==> Text.IsDigit(ds[k])
    requires Text.DigitPrefix(ds + rest) == ds
    requires negative ==> |t| > 0 && t[0] == '-' && t[1..] == ds + rest
    requires !negative ==> t == ds + rest
    ensures ReadNumber(t) ==
              Some((JNum(if negative then -(Text.DigitsValue(ds) as int) else Text.DigitsValue(ds)), rest))
  {
    assert (ds + rest)[|ds|..] == rest;
    assert !negative ==> t[0] == ds[0] && t[0] != '-';
  }

  /** A key, a colon and a stringified scalar are read back as that
      member when a separator follows. */
  lemma ReadMemberOf(k: string, v: Json, tail: string)
    requires IsScalar(v) && tail != [] && (tail[0] == ',' || tail[0] == '}')
    ensures ReadMember(Quote(k) + ":" + Stringify(v) + tail) == Some((Field(k, v), tail))
  {
    ReadQuote(k, ":" + Stringify(v) + tail);
    ReadScalarOf(v, tail);
    ReadMemberAt(Quote(k), Stringify(v), tail, k, v);
  }

  /** A string literal `q`, a colon and a scalar's text `sv` read as a
      member. */
  lemma ReadMemberAt(q: string, sv: string, tail: string, k: string, v: Json)
    requires ReadString(q + (":" + sv + tail)) == Some((k, ":" + sv + tail))
    requires ReadScalar(sv + tail) == Some((v, tail))
    ensures ReadMember(q + ":" + sv + tail) == Some((Field(k, v), tail))
  {
    ColonSplit(q, sv, tail);
    ReadMemberParts(q + (":" + sv + tail), ":" + sv + tail, sv + tail, tail, k, v);
  }

  /** The text after a colon, and the text around it regrouped. */
  lemma ColonSplit(q: string, sv: string, tail: string)
    ensures q + ":" + sv + tail == q + (":" + sv + tail)
    ensures (":" + sv + tail)[1..] == sv + tail
  {
  }

  /** A text whose string literal leaves `u`, a colon followed by a
      scalar's text `w`, reads as a member. */
  lemma ReadMemberParts(t: string, u: string, w: string, tail: string, k: string, v: Json)
    requires ReadString(t) == Some((k, u))
    requires u != [] && u[0] == ':' && u[1..] == w
    requires ReadScalar(w) == Some((v, tail))
    ensures ReadMember(t) == Some((Field(k, v), tail))
  {
  }

  /** The member at index `k` is read back as field `k`, leaving the
      members after it and the closing brace. */
  predicate ReadsBack(j: Json, k: nat)
    requires j.JObj? && k < |j.fields|
  {
    ReadMember(Member(j, k) + (MoreMembers(j, k + 1) + "}")) == Some((j.fields[k], MoreMembers(j, k + 1) + "}"))
  }

  /** Every member of the object is read back as its field. */
  predicate AllReadBack(j: Json)
    requires j.JObj?
  {
    forall k :: 0 <= k < |j.fields| ==> ReadsBack(j, k)
  }

  /** Each member of an object of scalars is read back as its field. */
  lemma ReadMembersBack(j: Json)
    requires j.JObj? && FlatFields(j.fields)
    ensures AllReadBack(j)
  {
    forall k | 0 <= k < |j.fields|
      ensures ReadsBack(j, k)
    {
      var f := j.fields[k];
      ReadMemberOf(f.key, f.value, MoreMembers(j, k + 1) + "}");
    }
  }

  /** The members from index `i` on, and the closing brace, are read back
      as their fields. */
  lemma {:induction false} ReadMoreMembersOf(j: Json, i: nat)
    requires j.JObj? && 1 <= i <= |j.fields| && AllReadBack(j)
    ensures ReadMoreMembers(MoreMembers(j, i) + "}") == Some(j.fields[i..])
    decreases |j.fields| - i
  {
    if i == |j.fields| {
      ReadNoMoreMembers(j);
    } else {
      ReadMoreMembersOf(j, i + 1);
      ReadMoreStep(j, i);
    }
  }

  /** After the last member there is only the closing brace. */
  lemma ReadNoMoreMembers(j: Json)
    requires j.JObj? && 1 <= |j.fields|
    ensures ReadMoreMembers(MoreMembers(j, |j.fields|) + "}") == Some(j.fields[|j.fields|..])
  {
    assert MoreMembers(j, |j.fields|) + "}" == "}";
    assert j.fields[|j.fields|..] == [];
  }

  /** Reading from index `i`: the comma and member at `i`, then the ones
      after it. */
  lemma ReadMoreStep(j: Json, i: nat)
    requires j.JObj? && 1 <= i < |j.fields|
    requires ReadsBack(j, i)
    requires ReadMoreMembers(MoreMembers(j, i + 1) + "}") == Some(j.fields[i + 1..])
    ensures ReadMoreMembers(MoreMembers(j, i) + "}") == Some(j.fields[i..])
  {
    var fs := j.fields;
    var rest := MoreMembers(j, i + 1) + "}";
    MoreMembersCons(j, i);
    SliceCons(fs, i);
    ReadCommaMember(MoreMembers(j, i) + "}", Member(j, i) + rest, fs[i], rest, fs[i + 1..]);
  }

  /** The members from index `i` on are a comma, member `i`, and the ones
      after it. */
  lemma MoreMembersCons(j: Json, i: nat)
    requires j.JObj? && 1 <= i < |j.fields|
    ensures MoreMembers(j, i) + "}" == "," + (Member(j, i) + (MoreMembers(j, i + 1) + "}"))
  {
  }

  /** A slice is its first element and the slice after it. */
  lemma SliceCons(fs: seq<Field>, i: nat)
    requires i < |fs|
    ensures fs[i..] == [fs[i]] + fs[i + 1..]
  {
  }

  /** A comma, a member and the members after it. */
  lemma ReadCommaMember(t: string, u: string, f: Field, rest: string, fs: seq<Field>)
    requires t == "," + u
    requires ReadMember(u) == Some((f, rest))
    requires ReadMoreMembers(rest) == Some(fs)
    ensures ReadMoreMembers(t) == Some([f] + fs)
  {
    assert t[1..] == u;
  }

  /** The members and closing brace `JSON.stringify` wrote for an object of
      scalars are read back as its fields. */
  lemma ReadMembersOfObject(fs: seq<Field>)
    requires FlatFields(fs)
    ensures ReadMembers(Members(JObj(fs)) + "}") == Some(fs)
  {
    if fs != [] {
      var j := JObj(fs);
      ReadMembersBack(j);
      ReadMoreMembersOf(j, 1);
      assert ReadsBack(j, 0);
      var rest := MoreMembers(j, 1) + "}";
      assert Members(j) + "}" == Member(j, 0) + rest;
      ReadFirstMember(Member(j, 0), rest, fs[0], fs[1..]);
      assert [fs[0]] + fs[1..] == fs;
    }
  }

  /** The first member and the members after it. */
  lemma ReadFirstMember(m: string, rest: string, f: Field, fs: seq<Field>)
    requires ReadMember(m + rest) == Some((f, rest))
    requires ReadMoreMembers(rest) == Some(fs)
    ensures ReadMembers(m + rest) == Some([f] + fs)
  {
  }

  /** Parsing what `JSON.stringify` wrote for an object of scalars gives the
      object back, keys in order. */
  lemma FlatObjectRoundTrip(fs: seq<Field>)
    requires FlatFields(fs)
    ensures ParseFlatObject(Stringify(JObj(fs))) == Some(fs)
  {
    ReadMembersOfObject(fs);
    assert Stringify(JObj(fs))[1..] == Members(JObj(fs)) + "}";
  }
}
