/** The canonical state encoding: the byte string under which judgments are compared, deduplicated
    and cached. A decoder recovers every well-formed value from its encoding, so two states with
    the same kind and the same bytes are the same state. */
module Canonical {
  import opened Text
  import opened Utf8Bytes = Utf8
  import opened Json
  import opened Collections

  const CANONICAL_VERSION: nat := 1

  datatype StateKind = TextState | StructState

  /** A finite f64 stands for its shortest round-trip text. */
  datatype F64 = Finite(text: string) | NaN | Infinite

  datatype Field = Field(name: string, value: TypedValue)

  /** A struct holds its fields as a `BTreeMap` iterates them: strictly ascending by name. */
  datatype TypedValue =
    | Null
    | Bool(b: bool)
    | Int(i: int)
    | UInt(u: nat)
    | Float(f: F64)
    | Decimal(text: string)
    | BigInt(text: string)
    | UBigInt(text: string)
    | Text(text: string)
    | Struct(fields: seq<Field>)

  // ---- Field maps

  predicate Before(a: string, b: string) {
    if b == "" then false
    else if a == "" then true
    else a[0] < b[0] || (a[0] == b[0] && Before(a[1..], b[1..]))
  }

  ghost predicate Ascending(fields: seq<Field>) {
    forall i, j :: 0 <= i < j < |fields| ==> Before(fields[i].name, fields[j].name)
  }

  /** The order of field names: by the first character in which they differ, a name before its
      extensions. */
  lemma {:induction false} BeforeIsLexicographic(a: string, b: string)
    ensures Before(a, b) <==>
      || (|a| < |b| && a == b[..|a|])
      || (exists i :: 0 <= i < |a| && i < |b| && a[..i] == b[..i] && a[i] < b[i])
  {
    if a != "" && b != "" && a[0] == b[0] {
      BeforeIsLexicographic(a[1..], b[1..]);
      assert a == [a[0]] + a[1..] && b == [b[0]] + b[1..];
      if |a| < |b| {
        assert b[..|a|] == [b[0]] + b[1..][..|a| - 1];
      }
      if i :| 0 <= i < |a[1..]| && i < |b[1..]| && a[1..][..i] == b[1..][..i] && a[1..][i] < b[1..][i] {
        assert a[..i + 1] == [a[0]] + a[1..][..i] && b[..i + 1] == [b[0]] + b[1..][..i];
        assert a[i + 1] < b[i + 1];
      }
      if i :| 0 <= i < |a| && i < |b| && a[..i] == b[..i] && a[i] < b[i] {
        assert i > 0 && a[1..][..i - 1] == a[..i][1..] && b[1..][..i - 1] == b[..i][1..];
        assert a[1..][i - 1] < b[1..][i - 1];
      }
    } else if a != "" && b != "" {
      assert a[..0] == b[..0];
      if a[0] < b[0] {
        assert a[..0] == b[..0] && a[0] < b[0];
      }
    }
  }

  /** The field map a field list stands for. */
  ghost function FieldMap(fields: seq<Field>): map<string, TypedValue> {
    if fields == [] then map[] else FieldMap(fields[1..])[fields[0].name := fields[0].value]
  }

  /** `BTreeMap::insert`: a new name takes its place in the order, a known one gets a new value. */
  function InsertField(fields: seq<Field>, name: string, value: TypedValue): seq<Field> {
    if fields == [] || Before(name, fields[0].name) then [Field(name, value)] + fields
    else if name == fields[0].name then [Field(name, value)] + fields[1..]
    else [fields[0]] + InsertField(fields[1..], name, value)
  }

  /** The struct built by inserting `columns` in the order given. */
  function BuildFields(columns: seq<Field>): seq<Field> {
    if columns == [] then []
    else
      var last := columns[|columns| - 1];
      InsertField(BuildFields(columns[..|columns| - 1]), last.name, last.value)
  }

  /** The map those inserts describe: the last value of each name. */
  ghost function ColumnMap(columns: seq<Field>): map<string, TypedValue> {
    if columns == [] then map[]
    else
      var last := columns[|columns| - 1];
      ColumnMap(columns[..|columns| - 1])[last.name := last.value]
  }

  lemma {:induction false} BeforeTransitive(a: string, b: string, c: string)
    requires Before(a, b) && Before(b, c)
    ensures Before(a, c)
  {
    if a != "" && a[0] == b[0] == c[0] {
      BeforeTransitive(a[1..], b[1..], c[1..]);
    }
  }

  lemma {:induction false} BeforeTotal(a: string, b: string)
    ensures a == b || Before(a, b) || Before(b, a)
    ensures !Before(a, a)
    ensures !(Before(a, b) && Before(b, a))
  {
    if a != "" {
      BeforeTotal(a[1..], a[1..]);
      if b != "" {
        BeforeTotal(a[1..], b[1..]);
        assert a == [a[0]] + a[1..] && b == [b[0]] + b[1..];
      }
    }
  }

  lemma {:induction false} FieldMapKeys(fields: seq<Field>, name: string)
    ensures name in FieldMap(fields) <==> exists i :: 0 <= i < |fields| && fields[i].name == name
  {
    if fields != [] {
      FieldMapKeys(fields[1..], name);
      if name in FieldMap(fields[1..]) {
        var i :| 0 <= i < |fields[1..]| && fields[1..][i].name == name;
        assert fields[i + 1].name == name;
      }
      if exists i :: 0 <= i < |fields| && fields[i].name == name {
        var i :| 0 <= i < |fields| && fields[i].name == name;
        if i > 0 { assert fields[1..][i - 1].name == name; }
      }
    }
  }

  /** An ascending head is absent from the tail's map. */
  lemma HeadIsFresh(fields: seq<Field>)
    requires fields != [] && Ascending(fields)
    ensures fields[0].name !in FieldMap(fields[1..]) && Ascending(fields[1..])
    ensures forall n :: n in FieldMap(fields[1..]) ==> Before(fields[0].name, n)
  {
    forall n | n in FieldMap(fields[1..])
      ensures Before(fields[0].name, n)
    {
      FieldMapKeys(fields[1..], n);
    }
    BeforeTotal(fields[0].name, fields[0].name);
  }

  /** An ascending field list is determined by its map. */
  lemma {:induction false} AscendingIsCanonical(xs: seq<Field>, ys: seq<Field>)
    requires Ascending(xs) && Ascending(ys) && FieldMap(xs) == FieldMap(ys)
    ensures xs == ys
  {
    assert xs != [] ==> xs[0].name in FieldMap(xs);
    assert ys != [] ==> ys[0].name in FieldMap(ys);
    if xs != [] {
      HeadIsFresh(xs);
      HeadIsFresh(ys);
      assert xs[0].name in FieldMap(ys) && ys[0].name in FieldMap(xs);
      BeforeTotal(xs[0].name, ys[0].name);
      assert xs[0].name == ys[0].name;
      assert xs[0].value == FieldMap(xs)[xs[0].name] == ys[0].value;
      assert FieldMap(xs[1..]) == FieldMap(xs) - {xs[0].name};
      assert FieldMap(ys[1..]) == FieldMap(ys) - {ys[0].name};
      AscendingIsCanonical(xs[1..], ys[1..]);
      assert xs == [xs[0]] + xs[1..] && ys == [ys[0]] + ys[1..];
    }
  }

  lemma AscendingCons(f: Field, tail: seq<Field>)
    requires Ascending(tail) && (tail == [] || Before(f.name, tail[0].name))
    ensures Ascending([f] + tail)
  {
    var r := [f] + tail;
    forall j | 0 < j < |r|
      ensures Before(f.name, r[j].name)
    {
      if j > 1 { BeforeTransitive(f.name, tail[0].name, tail[j - 1].name); }
    }
  }

  lemma FieldMapCons(f: Field, tail: seq<Field>)
    ensures FieldMap([f] + tail) == FieldMap(tail)[f.name := f.value]
  {
    assert ([f] + tail)[1..] == tail;
  }

  lemma TailAscending(fields: seq<Field>)
    requires fields != [] && Ascending(fields)
    ensures Ascending(fields[1..]) && forall k :: 1 <= k < |fields| ==> Before(fields[0].name, fields[k].name)
  {
  }

  lemma {:induction false} InsertFieldCorrect(fields: seq<Field>, name: string, value: TypedValue)
    requires Ascending(fields)
    ensures Ascending(InsertField(fields, name, value))
    ensures FieldMap(InsertField(fields, name, value)) == FieldMap(fields)[name := value]
    ensures var r := InsertField(fields, name, value);
            r != [] && (r[0].name == name || (fields != [] && r[0] == fields[0]))
  {
    hide Before, Ascending, FieldMap;
    var f := Field(name, value);
    if fields == [] {
      AscendingCons(f, []) by { NoFieldsAscending(); }
      FieldMapCons(f, fields);
    } else if Before(name, fields[0].name) {
      AscendingCons(f, fields);
      FieldMapCons(f, fields);
    } else {
      TailAscending(fields);
      assert fields == [fields[0]] + fields[1..];
      FieldMapCons(fields[0], fields[1..]);
      if name == fields[0].name {
        AscendingCons(f, fields[1..]);
        FieldMapCons(f, fields[1..]);
      } else {
        BeforeTotal(name, fields[0].name);
        InsertFieldCorrect(fields[1..], name, value);
        AscendingCons(fields[0], InsertField(fields[1..], name, value));
        FieldMapCons(fields[0], InsertField(fields[1..], name, value));
      }
    }
  }

  lemma NoFieldsAscending()
    ensures Ascending([])
  {
  }

  lemma {:induction false} BuildFieldsCorrect(columns: seq<Field>)
    ensures Ascending(BuildFields(columns)) && FieldMap(BuildFields(columns)) == ColumnMap(columns)
  {
    if columns != [] {
      var last := columns[|columns| - 1];
      BuildFieldsCorrect(columns[..|columns| - 1]);
      InsertFieldCorrect(BuildFields(columns[..|columns| - 1]), last.name, last.value);
    }
  }

  // ---- Encoding

  const OPEN := "{\"t\":\""

  function Quoted(text: string): string { ",\"v\":\"" + text + "\"}" }
  function Bare(text: string): string { ",\"v\":" + text + "}" }
  function Literal(text: string): string { ",\"v\":" + StringLiteral(text) + "}" }

  function Tag(v: TypedValue): string {
    match v
    case Null => "null"
    case Bool(_) => "bool"
    case Int(_) => "int"
    case UInt(_) => "uint"
    case Float(_) => "float"
    case Decimal(_) => "decimal"
    case BigInt(_) => "int128"
    case UBigInt(_) => "uint128"
    case Text(_) => "text"
    case Struct(_) => "struct"
  }

  /** Rust's `{:?}` on an f64; non-finite values never reach the writer. */
  function FloatText(f: F64): string {
    match f
    case Finite(text) => text
    case NaN => "NaN"
    case Infinite => "inf"
  }

  /** What follows the tag. */
  function Payload(v: TypedValue): string
    decreases v, 0
  {
    match v
    case Null => "}"
    case Bool(b) => Bare(if b then "true" else "false")
    case Int(i) => Quoted(IntText(i))
    case UInt(u) => Quoted(NatText(u))
    case Float(f) => Bare(FloatText(f))
    case Decimal(text) => Literal(text)
    case BigInt(text) => Quoted(text)
    case UBigInt(text) => Quoted(text)
    case Text(text) => Literal(text)
    case Struct(fields) => ",\"f\":{" + EncodeFields(fields) + "}}"
  }

  function EncodeValue(v: TypedValue): string
    decreases v, 1
  {
    OPEN + Tag(v) + "\"" + Payload(v)
  }

  function EncodeField(f: Field): string
    decreases f, 2
  {
    StringLiteral(f.name) + ":" + EncodeValue(f.value)
  }

  function EncodeFields(fields: seq<Field>): string
    decreases fields, 0
  {
    if fields == [] then ""
    else if |fields| == 1 then EncodeField(fields[0])
    else EncodeField(fields[0]) + "," + EncodeFields(fields[1..])
  }

  lemma {:induction false} EncodeFieldsSnoc(fields: seq<Field>, f: Field)
    ensures EncodeFields(fields + [f])
         == EncodeFields(fields) + (if fields == [] then "" else ",") + EncodeField(f)
  {
    hide EncodeField;
    var all := fields + [f];
    if fields == [] {
      assert all == [f];
    } else {
      assert all[1..] == fields[1..] + [f];
      EncodeFieldsSnoc(fields[1..], f);
      if |fields| == 1 {
        assert fields[1..] == [];
      }
    }
  }

  /** What stands between the tag and the text. */
  function Key(v: TypedValue): string {
    if v.Null? then "}"
    else if v.Struct? then ",\"f\":{"
    else if v.Int? || v.UInt? || v.BigInt? || v.UBigInt? then ",\"v\":\""
    else ",\"v\":"
  }

  /** What `write_value` pushes first, up to where the text of the value begins. */
  function Head(v: TypedValue): string {
    OPEN + Tag(v) + "\"" + Key(v)
  }

  /** Pushing head, text and close in turn appends the tagged value. */
  lemma Assembled(buf: string, v: TypedValue, text: string, close: string)
    requires Payload(v) == Key(v) + text + close
    ensures buf + Head(v) + text + close == buf + EncodeValue(v)
  {
  }

  /** `write_value`: appends to the buffer exactly the encoding. */
  method WriteValue(buf: string, v: TypedValue) returns (out: string)
    ensures out == buf + EncodeValue(v)
    decreases v, 1
  {
    out := buf + Head(v);
    match v
    case Null => Assembled(buf, v, "", "");
    case Bool(b) =>
      out := out + if b then "true" else "false";
      out := out + "}";
      Assembled(buf, v, if b then "true" else "false", "}");
    case Int(i) =>
      out := out + IntText(i);
      out := out + "\"}";
      Assembled(buf, v, IntText(i), "\"}");
    case UInt(u) =>
      out := out + NatText(u);
      out := out + "\"}";
      Assembled(buf, v, NatText(u), "\"}");
    case Float(f) =>
      out := out + FloatText(f);
      out := out + "}";
      Assembled(buf, v, FloatText(f), "}");
    case Decimal(text) =>
      out := out + StringLiteral(text);
      out := out + "}";
      Assembled(buf, v, StringLiteral(text), "}");
    case BigInt(text) =>
      out := out + text;
      out := out + "\"}";
      Assembled(buf, v, text, "\"}");
    case UBigInt(text) =>
      out := out + text;
      out := out + "\"}";
      Assembled(buf, v, text, "\"}");
    case Text(text) =>
      out := out + StringLiteral(text);
      out := out + "}";
      Assembled(buf, v, StringLiteral(text), "}");
    case Struct(fields) =>
      out := WriteFields(out, fields);
      out := out + "}}";
      Assembled(buf, v, EncodeFields(fields), "}}");
  }

  lemma Reassociated(a: string, b: string, c: string, d: string, e: string, f: string)
    ensures a + b + c + d + e + f == a + (b + c + (d + e + f))
  {
  }

  /** The field loop of `write_value`. */
  method WriteFields(buf: string, fields: seq<Field>) returns (out: string)
    ensures out == buf + EncodeFields(fields)
    decreases fields, 0
  {
    out := buf;
    for idx := 0 to |fields|
      invariant out == buf + EncodeFields(fields[..idx])
    {
      ghost var before := EncodeFields(fields[..idx]);
      if idx > 0 {
        out := out + ",";
      }
      out := out + StringLiteral(fields[idx].name);
      out := out + ":";
      out := WriteValue(out, fields[idx].value);
      Reassociated(buf, before, if idx > 0 then "," else "", StringLiteral(fields[idx].name), ":",
                   EncodeValue(fields[idx].value));
      EncodeFieldsSnoc(fields[..idx], fields[idx]);
      assert fields[..idx + 1] == fields[..idx] + [fields[idx]];
    }
    assert fields[..|fields|] == fields;
  }

  // ---- Decoding

  function DecodeQuoted(s: string): (r: Option<(string, string)>)
    ensures r.Some? ==> |r.value.1| < |s|
  {
    var s1 :- Strip(s, ",\"v\":\"");
    var (text, s2) :- ReadUntil(s1, '\"');
    var rest :- Strip(s2, "}");
    Some((text, rest))
  }

  function DecodeBare(s: string): (r: Option<(string, string)>)
    ensures r.Some? ==> |r.value.1| < |s|
  {
    var s1 :- Strip(s, ",\"v\":");
    ReadUntil(s1, '}')
  }

  function DecodeLiteral(s: string): (r: Option<(string, string)>)
    ensures r.Some? ==> |r.value.1| < |s|
  {
    var s1 :- Strip(s, ",\"v\":");
    var (text, s2) :- ReadString(s1);
    var rest :- Strip(s2, "}");
    Some((text, rest))
  }

  function DecodeTag(s: string): (r: Option<(string, string)>)
    ensures r.Some? ==> |r.value.1| < |s|
  {
    var s1 :- Strip(s, OPEN);
    ReadUntil(s1, '\"')
  }

  /** The value of a payload already read as text. */
  function ScalarOf(tag: string, text: string): Option<TypedValue> {
    if tag == "bool" then Some(Bool(text == "true"))
    else if tag == "int" then
      var i :- ParseInt(text);
      Some(Int(i))
    else if tag == "uint" then
      if AllDigits(text) then Some(UInt(ParseNat(text))) else None
    else if tag == "float" then Some(Float(Finite(text)))
    else if tag == "decimal" then Some(Decimal(text))
    else if tag == "int128" then Some(BigInt(text))
    else if tag == "uint128" then Some(UBigInt(text))
    else if tag == "text" then Some(Text(text))
    else None
  }

  function DecodeScalar(tag: string, s: string): (r: Option<(string, string)>)
    ensures r.Some? ==> |r.value.1| < |s|
  {
    if tag == "bool" || tag == "float" then DecodeBare(s)
    else if tag == "decimal" || tag == "text" then DecodeLiteral(s)
    else DecodeQuoted(s)
  }

  /** Reads one value off the front of `s`. */
  function DecodeValue(s: string): (r: Option<(TypedValue, string)>)
    ensures r.Some? ==> |r.value.1| < |s|
    decreases |s|, 0
  {
    var (tag, s1) :- DecodeTag(s);
    if tag == "null" then
      var rest :- Strip(s1, "}");
      Some((Null, rest))
    else if tag == "struct" then
      var s2 :- Strip(s1, ",\"f\":{");
      var (fields, s3) :- DecodeFields(s2);
      var rest :- Strip(s3, "}");
      Some((Struct(fields), rest))
    else
      var (text, rest) :- DecodeScalar(tag, s1);
      var v :- ScalarOf(tag, text);
      Some((v, rest))
  }

  /** Reads fields up to and including the closing brace of the field object. */
  function DecodeFields(s: string): (r: Option<(seq<Field>, string)>)
    ensures r.Some? ==> |r.value.1| < |s|
    decreases |s|, 0
  {
    if s != "" && s[0] == '}' then Some(([], s[1..]))
    else
      var (name, s1) :- ReadString(s);
      var s2 :- Strip(s1, ":");
      var (value, s3) :- DecodeValue(s2);
      if s3 == "" then None
      else if s3[0] == '}' then Some(([Field(name, value)], s3[1..]))
      else if s3[0] == ',' then
        var (more, rest) :- DecodeFields(s3[1..]);
        Some(([Field(name, value)] + more, rest))
      else None
  }

  // ---- Unique decodability

  /** Number text: what Rust prints for a finite f64 or a 128-bit integer. */
  predicate NumberText(s: string) {
    forall c :: c in s ==> IsDigit(c) || c == '-' || c == '.' || c == 'e'
  }

  /** Trees the reader builds: finite floats, number text for floats and the 128-bit kinds, fields
      in map order. */
  ghost predicate WellFormed(v: TypedValue) {
    match v
    case Float(f) => f.Finite? && NumberText(f.text)
    case BigInt(text) => NumberText(text)
    case UBigInt(text) => NumberText(text)
    case Struct(fields) => Ascending(fields) && forall f :: f in fields ==> WellFormed(f.value)
    case _ => true
  }

  lemma QuotedDecodes(text: string, rest: string)
    requires '\"' !in text
    ensures DecodeQuoted(Quoted(text) + rest) == Some((text, rest))
  {
    assert Quoted(text) + rest == ",\"v\":\"" + (text + ['\"'] + ("}" + rest));
    StripAppend(",\"v\":\"", text + ['\"'] + ("}" + rest));
    ReadUntilAppend(text, '\"', "}" + rest);
    StripAppend("}", rest);
  }

  lemma BareDecodes(text: string, rest: string)
    requires '}' !in text
    ensures DecodeBare(Bare(text) + rest) == Some((text, rest))
  {
    assert Bare(text) + rest == ",\"v\":" + (text + ['}'] + rest);
    StripAppend(",\"v\":", text + ['}'] + rest);
    ReadUntilAppend(text, '}', rest);
  }

  lemma LiteralDecodes(text: string, rest: string)
    ensures DecodeLiteral(Literal(text) + rest) == Some((text, rest))
  {
    assert Literal(text) + rest == ",\"v\":" + (StringLiteral(text) + ("}" + rest));
    StripAppend(",\"v\":", StringLiteral(text) + ("}" + rest));
    StringReadsBack(text, "}" + rest);
    StripAppend("}", rest);
  }

  lemma TagDecodes(v: TypedValue, rest: string)
    ensures DecodeTag(EncodeValue(v) + rest) == Some((Tag(v), Payload(v) + rest))
  {
    var s := Tag(v) + ['\"'] + (Payload(v) + rest);
    assert EncodeValue(v) + rest == OPEN + s;
    StripAppend(OPEN, s);
    assert '\"' !in Tag(v);
    ReadUntilAppend(Tag(v), '\"', Payload(v) + rest);
  }

  /** The text that stands for a scalar in its payload. */
  function ScalarText(v: TypedValue): string
    requires !v.Null? && !v.Struct?
  {
    match v
    case Bool(b) => if b then "true" else "false"
    case Int(i) => IntText(i)
    case UInt(u) => NatText(u)
    case Float(f) => FloatText(f)
    case Decimal(text) => text
    case BigInt(text) => text
    case UBigInt(text) => text
    case Text(text) => text
  }

  lemma IntTextIsNumber(i: int)
    ensures NumberText(IntText(i))
  {
  }

  lemma PayloadDecodes(v: TypedValue, rest: string)
    requires WellFormed(v) && !v.Null? && !v.Struct?
    ensures DecodeScalar(Tag(v), Payload(v) + rest) == Some((ScalarText(v), rest))
  {
    var text := ScalarText(v);
    if v.Bool? || v.Float? {
      BareDecodes(text, rest);
    } else if v.Decimal? || v.Text? {
      LiteralDecodes(text, rest);
    } else {
      if v.Int? { IntTextIsNumber(v.i); } else if v.UInt? { IntTextIsNumber(v.u); }
      QuotedDecodes(text, rest);
    }
  }

  lemma ScalarReadsBack(v: TypedValue)
    requires WellFormed(v) && !v.Null? && !v.Struct?
    ensures ScalarOf(Tag(v), ScalarText(v)) == Some(v)
  {
    if v.Int? { ParseIntText(v.i); } else if v.UInt? { ParseNatText(v.u); }
  }

  lemma ScalarDecodes(v: TypedValue, rest: string)
    requires WellFormed(v) && !v.Null? && !v.Struct?
    ensures DecodeValue(EncodeValue(v) + rest) == Some((v, rest))
  {
    TagDecodes(v, rest);
    PayloadDecodes(v, rest);
    ScalarReadsBack(v);
  }

  lemma NullDecodes(rest: string)
    ensures DecodeValue(EncodeValue(Null) + rest) == Some((Null, rest))
  {
    TagDecodes(Null, rest);
    StripAppend("}", rest);
    hide EncodeValue, DecodeTag, Strip;
  }

  lemma StructOpens(fields: seq<Field>, rest: string)
    ensures Payload(Struct(fields)) + rest == ",\"f\":{" + (EncodeFields(fields) + ['}'] + ("}" + rest))
  {
    hide EncodeFields;
    var text := EncodeFields(fields);
    assert Payload(Struct(fields)) == ",\"f\":{" + text + "}}";
    assert text + "}}" + rest == text + ['}'] + ("}" + rest);
  }

  lemma StructDecodes(fields: seq<Field>, rest: string)
    requires DecodeFields(EncodeFields(fields) + ['}'] + ("}" + rest)) == Some((fields, "}" + rest))
    ensures DecodeValue(EncodeValue(Struct(fields)) + rest) == Some((Struct(fields), rest))
  {
    TagDecodes(Struct(fields), rest);
    StructOpens(fields, rest);
    StripAppend(",\"f\":{", EncodeFields(fields) + ['}'] + ("}" + rest));
    StripAppend("}", rest);
    hide EncodeValue, EncodeFields, Payload, DecodeTag, DecodeFields, Strip;
  }

  /** Every well-formed value is read back exactly, whatever follows it: the format is
      unambiguous and self-delimiting. */
  lemma {:induction false} ValueDecodes(v: TypedValue, rest: string)
    requires WellFormed(v)
    ensures DecodeValue(EncodeValue(v) + rest) == Some((v, rest))
    decreases v, 1
  {
    hide DecodeValue, EncodeValue, DecodeFields, EncodeFields;
    match v
    case Null => NullDecodes(rest);
    case Struct(fields) =>
      FieldsDecode(fields, "}" + rest);
      StructDecodes(fields, rest);
    case _ => ScalarDecodes(v, rest);
  }

  /** What follows the first value of a nonempty field list. */
  function FieldsTail(fields: seq<Field>, rest: string): string
    requires fields != []
  {
    if |fields| == 1 then ['}'] + rest else [','] + (EncodeFields(fields[1..]) + ['}'] + rest)
  }

  lemma FieldsSplit(fields: seq<Field>, rest: string)
    requires fields != []
    ensures EncodeFields(fields) + ['}'] + rest
         == StringLiteral(fields[0].name) + (":" + (EncodeValue(fields[0].value) + FieldsTail(fields, rest)))
  {
    var name, value, tail := StringLiteral(fields[0].name), EncodeValue(fields[0].value), FieldsTail(fields, rest);
    var first := EncodeField(fields[0]);
    assert EncodeFields(fields) + ['}'] + rest == first + tail by {
      if |fields| == 1 {
        ConcatAssociative(first, ['}'], rest);
      } else {
        var more := EncodeFields(fields[1..]);
        ConcatAssociative(first, [','], more);
        ConcatAssociative(first, [','] + more, ['}']);
        ConcatAssociative(first, [','] + more + ['}'], rest);
        ConcatAssociative([','], more, ['}']);
        ConcatAssociative([','], more + ['}'], rest);
      }
    }
    ConcatAssociative(name + ":", value, tail);
    ConcatAssociative(name, ":", value + tail);
  }

  lemma {:induction false} FieldsDecode(fields: seq<Field>, rest: string)
    requires forall f :: f in fields ==> WellFormed(f.value)
    ensures DecodeFields(EncodeFields(fields) + ['}'] + rest) == Some((fields, rest))
    decreases fields, 0
  {
    var s := EncodeFields(fields) + ['}'] + rest;
    if fields == [] {
      assert s[1..] == rest;
    } else {
      var name, value, tail := fields[0].name, fields[0].value, FieldsTail(fields, rest);
      FieldsSplit(fields, rest);
      StringReadsBack(name, ":" + (EncodeValue(value) + tail));
      StripAppend(":", EncodeValue(value) + tail);
      ValueDecodes(value, tail);
      if |fields| == 1 {
        assert tail[1..] == rest && fields == [Field(name, value)];
      } else {
        FieldsDecode(fields[1..], rest);
        assert tail[1..] == EncodeFields(fields[1..]) + ['}'] + rest;
        assert fields == [Field(name, value)] + fields[1..];
      }
    }
  }

  lemma ValueEncodingInjective(v: TypedValue, w: TypedValue)
    requires WellFormed(v) && WellFormed(w) && EncodeValue(v) == EncodeValue(w)
    ensures v == w
  {
    ValueDecodes(v, "");
    ValueDecodes(w, "");
    assert EncodeValue(v) + "" == EncodeValue(v);
  }

  // ---- States

  datatype CanonicalState = CanonicalState(version: nat, kind: StateKind, canonical: seq<Byte>, value: TypedValue)

  datatype Encoded = Accepted(state: CanonicalState) | NonFinite

  function EncodeText(text: string): CanonicalState {
    CanonicalState(CANONICAL_VERSION, TextState, Encode(text), Text(text))
  }

  /** `validate_value`: the first non-finite float anywhere in the tree is an error. */
  predicate AllFinite(v: TypedValue) {
    match v
    case Float(f) => f.Finite?
    case Struct(fields) => forall f :: f in fields ==> AllFinite(f.value)
    case _ => true
  }

  function StructText(fields: seq<Field>): string {
    "{\"canonical_version\":" + NatText(CANONICAL_VERSION) + ",\"state\":" + EncodeValue(Struct(fields)) + "}"
  }

  /** What `encode_struct` yields: an error for a non-finite float, otherwise the encoded state. */
  function StructEncoding(fields: seq<Field>): Encoded {
    if AllFinite(Struct(fields)) then
      Accepted(CanonicalState(CANONICAL_VERSION, StructState, Encode(StructText(fields)), Struct(fields)))
    else NonFinite
  }

  method EncodeStruct(fields: seq<Field>) returns (r: Encoded)
    ensures r == StructEncoding(fields)
  {
    if !AllFinite(Struct(fields)) {
      return NonFinite;
    }
    hide EncodeValue, NatText, AllFinite, Encode;
    var buf := "";
    buf := buf + "{\"canonical_version\":";
    buf := buf + NatText(CANONICAL_VERSION);
    buf := buf + ",\"state\":";
    buf := WriteValue(buf, Struct(fields));
    buf := buf + "}";
    assert buf == StructText(fields);
    return Accepted(CanonicalState(CANONICAL_VERSION, StructState, Encode(buf), Struct(fields)));
  }

  /** The states the two encoders produce from well-formed input. */
  ghost predicate IsEncoded(s: CanonicalState) {
    || (s.value.Text? && s == EncodeText(s.value.text))
    || (s.value.Struct? && WellFormed(s.value)
        && s == CanonicalState(CANONICAL_VERSION, StructState, Encode(StructText(s.value.fields)), s.value))
  }

  lemma StructTextInjective(xs: seq<Field>, ys: seq<Field>)
    requires WellFormed(Struct(xs)) && WellFormed(Struct(ys)) && StructText(xs) == StructText(ys)
    ensures xs == ys
  {
    var head := "{\"canonical_version\":" + NatText(CANONICAL_VERSION) + ",\"state\":";
    assert StructText(xs)[|head|..] == EncodeValue(Struct(xs)) + "}";
    assert StructText(ys)[|head|..] == EncodeValue(Struct(ys)) + "}";
    ValueDecodes(Struct(xs), "}");
    ValueDecodes(Struct(ys), "}");
  }

  /** Soundness of comparing states by kind and bytes: they determine the whole state. */
  lemma BytesDetermineState(s: CanonicalState, t: CanonicalState)
    requires IsEncoded(s) && IsEncoded(t)
    requires s.kind == t.kind && s.canonical == t.canonical
    ensures s == t
  {
    if s.kind == TextState {
      Injective(s.value.text, t.value.text);
    } else {
      Injective(StructText(s.value.fields), StructText(t.value.fields));
      StructTextInjective(s.value.fields, t.value.fields);
    }
  }

  /** Two structs filled column by column get the same bytes exactly when they are the same
      field map, in whatever order the columns came. */
  lemma StructBytesCompareFieldMaps(xs: seq<Field>, ys: seq<Field>)
    requires WellFormed(Struct(BuildFields(xs))) && WellFormed(Struct(BuildFields(ys)))
    ensures Encode(StructText(BuildFields(xs))) == Encode(StructText(BuildFields(ys)))
       <==> ColumnMap(xs) == ColumnMap(ys)
  {
    BuildFieldsCorrect(xs);
    BuildFieldsCorrect(ys);
    if ColumnMap(xs) == ColumnMap(ys) {
      AscendingIsCanonical(BuildFields(xs), BuildFields(ys));
    }
    if Encode(StructText(BuildFields(xs))) == Encode(StructText(BuildFields(ys))) {
      Injective(StructText(BuildFields(xs)), StructText(BuildFields(ys)));
      StructTextInjective(BuildFields(xs), BuildFields(ys));
    }
  }

  // ---- The DJST envelope

  function BigEndian(n: nat, width: nat): (bytes: seq<Byte>)
    ensures |bytes| == width
  {
    if width == 0 then [] else BigEndian(n / 256, width - 1) + [n % 256]
  }

  function FromBigEndian(bytes: seq<Byte>): nat {
    if bytes == [] then 0 else FromBigEndian(bytes[..|bytes| - 1]) * 256 + bytes[|bytes| - 1]
  }

  function Power256(n: nat): nat { if n == 0 then 1 else 256 * Power256(n - 1) }

  lemma {:induction false} BigEndianReadsBack(n: nat, width: nat)
    requires n < Power256(width)
    ensures FromBigEndian(BigEndian(n, width)) == n
  {
    if width > 0 {
      BigEndianReadsBack(n / 256, width - 1);
      assert BigEndian(n, width)[..width - 1] == BigEndian(n / 256, width - 1);
    }
  }

  const MAGIC: seq<Byte> := [0x44, 0x4A, 0x53, 0x54]

  method VersionedCanonicalBytes(s: CanonicalState) returns (bytes: seq<Byte>)
    ensures bytes == Envelope(s)
    ensures s.version < Power256(4) && |s.canonical| < Power256(8) ==>
      forall rest :: OpenEnvelope(bytes + rest) == Some((s.version, s.kind, s.canonical, rest))
  {
    if s.version < Power256(4) && |s.canonical| < Power256(8) {
      forall rest: seq<Byte>
        ensures OpenEnvelope(Envelope(s) + rest) == Some((s.version, s.kind, s.canonical, rest))
      {
        EnvelopeOpens(s, rest);
      }
    }
    hide OpenEnvelope, BigEndian;
    bytes := MAGIC;
    bytes := bytes + BigEndian(s.version, 4);
    bytes := bytes + [if s.kind == TextState then 1 else 2];
    bytes := bytes + BigEndian(|s.canonical|, 8);
    bytes := bytes + s.canonical;
  }

  /** Magic, version, kind and payload length in seventeen bytes, then the payload. */
  function Envelope(s: CanonicalState): seq<Byte> {
    MAGIC + BigEndian(s.version, 4) + [if s.kind == TextState then 1 else 2] + BigEndian(|s.canonical|, 8) + s.canonical
  }

  /** Reads an envelope off the front of a byte string: version, kind, payload and the rest. */
  function OpenEnvelope(bytes: seq<Byte>): Option<(nat, StateKind, seq<Byte>, seq<Byte>)> {
    if |bytes| < 17 || bytes[..4] != MAGIC || bytes[8] !in {1, 2} then None
    else
      var length := FromBigEndian(bytes[9..17]);
      if |bytes| < 17 + length then None
      else Some((FromBigEndian(bytes[4..8]), if bytes[8] == 1 then TextState else StructState,
                 bytes[17..17 + length], bytes[17 + length..]))
  }

  /** The envelope is self-delimiting and carries kind and payload exactly. */
  lemma EnvelopeOpens(s: CanonicalState, rest: seq<Byte>)
    requires s.version < Power256(4) && |s.canonical| < Power256(8)
    ensures OpenEnvelope(Envelope(s) + rest) == Some((s.version, s.kind, s.canonical, rest))
  {
    var bytes := Envelope(s) + rest;
    assert bytes[..4] == MAGIC;
    assert bytes[4..8] == BigEndian(s.version, 4);
    assert bytes[9..17] == BigEndian(|s.canonical|, 8);
    BigEndianReadsBack(s.version, 4);
    BigEndianReadsBack(|s.canonical|, 8);
    assert bytes[17..17 + |s.canonical|] == s.canonical;
    assert bytes[17 + |s.canonical|..] == rest;
  }

  /** Equal envelopes mean equal states, text and struct states included. */
  lemma EnvelopeDeterminesState(s: CanonicalState, t: CanonicalState)
    requires IsEncoded(s) && IsEncoded(t)
    requires |s.canonical| < Power256(8) && |t.canonical| < Power256(8)
    requires Envelope(s) == Envelope(t)
    ensures s == t
  {
    assert CANONICAL_VERSION < Power256(4);
    EnvelopeOpens(s, []);
    EnvelopeOpens(t, []);
    BytesDetermineState(s, t);
  }

  /** The number in four bytes from `i` on, the most significant first. */
  function Word(e: seq<Byte>, i: nat): int
    requires i + 4 <= |e|
  {
    (e[i] as int) * 0x100_0000 + (e[i + 1] as int) * 0x1_0000 + (e[i + 2] as int) * 0x100 + e[i + 3] as int
  }

  /** The envelope byte by byte: "DJST", the version, 1 for a text and 2 for a struct, the length in eight
      bytes, the payload. */
  lemma EnvelopeLayout(s: CanonicalState)
    requires s.version < 0x1_0000_0000 && |s.canonical| < 0x1_0000_0000_0000_0000
    ensures var e := Envelope(s);
            && |e| == 17 + |s.canonical| && e[..4] == [0x44, 0x4A, 0x53, 0x54] && e[17..] == s.canonical
            && s.version == Word(e, 4) && e[8] == (if s.kind == TextState then 1 else 2)
            && |s.canonical| == Word(e, 9) * 0x1_0000_0000 + Word(e, 13)
  {
    var e := Envelope(s);
    assert Power256(4) == 0x1_0000_0000;
    assert Power256(8) == 0x1_0000_0000_0000_0000 by {
      assert Power256(8) == 256 * (256 * (256 * (256 * Power256(4))));
    }
    BigEndianReadsBack(s.version, 4);
    BigEndianReadsBack(|s.canonical|, 8);
    assert e[4..8] == BigEndian(s.version, 4) && e[9..17] == BigEndian(|s.canonical|, 8);
    FourBytes(e[4..8]);
    EightBytes(e[9..17]);
  }

  lemma FourBytes(b: seq<Byte>)
    requires |b| == 4
    ensures FromBigEndian(b) == Word(b, 0)
  {
    assert b[..3][..2] == b[..2] && b[..2][..1] == b[..1] && b[..1][..0] == [];
    assert FromBigEndian(b[..1]) == b[0];
    assert FromBigEndian(b[..2]) == FromBigEndian(b[..1]) * 256 + b[1] as int;
    assert FromBigEndian(b[..3]) == FromBigEndian(b[..2]) * 256 + b[2] as int;
  }

  lemma EightBytes(b: seq<Byte>)
    requires |b| == 8
    ensures FromBigEndian(b) == Word(b, 0) * 0x1_0000_0000 + Word(b, 4)
  {
    FourBytes(b[..4]);
    assert b[..7][..6] == b[..6] && b[..6][..5] == b[..5] && b[..5][..4] == b[..4];
    assert FromBigEndian(b[..5]) == FromBigEndian(b[..4]) * 256 + b[4] as int;
    assert FromBigEndian(b[..6]) == FromBigEndian(b[..5]) * 256 + b[5] as int;
    assert FromBigEndian(b[..7]) == FromBigEndian(b[..6]) * 256 + b[6] as int;
  }

  // ---- What is written, read from outside

  /** A text's canonical bytes are its own UTF-8 bytes, with nothing around them: those of an ASCII text
      are its characters. */
  lemma {:induction false} TextIsRaw(text: string)
    requires forall i :: 0 <= i < |text| ==> text[i] < 128 as char
    ensures EncodeText(text).version == 1 && EncodeText(text).kind == TextState
    ensures |EncodeText(text).canonical| == |text|
    ensures forall i :: 0 <= i < |text| ==> EncodeText(text).canonical[i] == text[i] as int
  {
    if text != "" {
      TextIsRaw(text[1..]);
      assert forall i :: 1 <= i < |text| ==> text[1..][i - 1] == text[i];
    }
  }

  /** A struct's canonical text is a version 1 document around a value that reads back. */
  lemma StructTextReads(fields: seq<Field>)
    requires WellFormed(Struct(fields))
    ensures exists v :: StructText(fields) == "{\"canonical_version\":1,\"state\":" + v + "}"
                        && DecodeValue(v) == Some((Struct(fields), ""))
  {
    ValueDecodes(Struct(fields), "");
    var v := EncodeValue(Struct(fields));
    assert v + "" == v;
    hide EncodeValue, DecodeValue;
    assert NatText(1) == "1";
    assert StructText(fields) == "{\"canonical_version\":1,\"state\":" + v + "}";
  }
}
