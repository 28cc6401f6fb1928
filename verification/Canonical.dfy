/** The canonical encoder: a type-tagged, sorted-key, ASCII-escaped JSON printer behind a domain
    separator, and a parser for what it prints. Strings are sequences of Unicode code points,
    surrogates included, as Python has them. */
module Canonical {
  import opened Vocabulary
  import Sorting

  type Code = c: int | 0 <= c <= 0x10FFFF
  type Unit = u: int | 0 <= u <= 0xFFFF   // a UTF-16 code unit
  type Byte = b: int | 0 <= b <= 0xFF
  type Str = seq<Code>
  type Bytes = seq<Byte>

  /** The instant of a timezone-aware datetime, as its UTC calendar fields. */
  datatype Calendar = Calendar(year: nat, month: nat, day: nat, hour: nat, minute: nat, second: nat, micro: nat)
  /** Four digits of year, two of everything else, six of microseconds. */
  predicate Printable(i: Calendar) {
    1000 <= i.year <= 9999 && 1 <= i.month <= 12 && 1 <= i.day <= 31 && i.hour < 24 && i.minute < 60 && i.second < 60 && i.micro < 1000000
  }

  type Instant = i: Calendar | Printable(i) witness Calendar(1970, 1, 1, 0, 0, 0, 0)

  datatype Value = VStr(s: Str) | VInt(n: int) | VBool(b: bool) | VTime(t: Instant) | VNull | VNaiveTime | VUnsupported

  datatype Field = Field(name: Str, value: Value)

  /** A mapping in its insertion order. */
  type Fields = seq<Field>

  datatype Error = EmptyDomain | DomainNotAscii | NaiveTimestamp | UnsupportedType
  datatype Result<+T> = Ok(value: T) | Err(error: Error)

  const QUOTE: Byte := 0x22
  const BACKSLASH: Byte := 0x5C
  const COMMA: Byte := 0x2C
  const COLON: Byte := 0x3A
  const MINUS: Byte := 0x2D
  const OPEN_LIST: Byte := 0x5B
  const CLOSE_LIST: Byte := 0x5D
  const OPEN_OBJECT: Byte := 0x7B
  const CLOSE_OBJECT: Byte := 0x7D
  const SEPARATOR: Byte := 0x1F

  // ---- Strings -----------------------------------------------------------------------------

  predicate High(u: int) { 0xD800 <= u <= 0xDBFF }
  predicate Low(u: int) { 0xDC00 <= u <= 0xDFFF }

  function HexDigit(d: int): Byte
    requires 0 <= d < 16
  {
    if d < 10 then 0x30 + d else 0x57 + d
  }

  function Hex4(u: Unit): Bytes {
    [HexDigit(u / 4096), HexDigit(u / 256 % 16), HexDigit(u / 16 % 16), HexDigit(u % 16)]
  }

  /** The two-character escapes: quote, backslash, and the five named controls. */
  function ShortEscape(u: Unit): Option<Byte> {
    if u == 0x22 then Some(0x22) else if u == 0x5C then Some(0x5C)
    else if u == 0x0A then Some(0x6E) else if u == 0x0D then Some(0x72) else if u == 0x09 then Some(0x74)
    else if u == 0x0C then Some(0x66) else if u == 0x08 then Some(0x62) else None
  }

  function EscapeUnit(u: Unit): Bytes {
    if ShortEscape(u).Some? then [BACKSLASH, ShortEscape(u).value]
    else if 0x20 <= u <= 0x7E then [u]
    else [BACKSLASH, 0x75] + Hex4(u)
  }

  /** A code point beyond the basic plane is written as a surrogate pair. */
  function EscapeCode(c: Code): Bytes {
    if c < 0x10000 then EscapeUnit(c)
    else EscapeUnit(0xD800 + (c - 0x10000) / 0x400) + EscapeUnit(0xDC00 + (c - 0x10000) % 0x400)
  }

  function Escape(s: Str): Bytes {
    if s == [] then [] else EscapeCode(s[0]) + Escape(s[1..])
  }

  function Quoted(s: Str): Bytes { [QUOTE] + Escape(s) + [QUOTE] }

  // ---- Integers and timestamps -------------------------------------------------------------

  function Digits(n: nat): Bytes {
    if n < 10 then [0x30 + n] else Digits(n / 10) + [0x30 + n % 10]
  }

  function Decimal(n: int): Bytes { if n < 0 then [MINUS] + Digits(-n) else Digits(n) }

  function Padded(n: nat, width: nat): Str {
    if width == 0 then [] else Padded(n / 10, width - 1) + [0x30 + n % 10]
  }

  /** Year-month-day, `T`, time of day with microseconds, `Z`. */
  function Stamp(t: Instant): Str {
    Padded(t.year, 4) + [0x2D] + Padded(t.month, 2) + [0x2D] + Padded(t.day, 2) + [0x54] +
    Padded(t.hour, 2) + [0x3A] + Padded(t.minute, 2) + [0x3A] + Padded(t.second, 2) + [0x2E] + Padded(t.micro, 6) + [0x5A]
  }

  // ---- Values and objects ------------------------------------------------------------------

  predicate Supported(v: Value) { !v.VNaiveTime? && !v.VUnsupported? }

  function Tag(v: Value): Byte
    requires Supported(v)
  {
    match v
    case VStr(_) => 0x73
    case VInt(_) => 0x69
    case VBool(_) => 0x62
    case VTime(_) => 0x74
    case VNull => 0x6E
  }

  const TRUE: Bytes := [0x74, 0x72, 0x75, 0x65]
  const FALSE: Bytes := [0x66, 0x61, 0x6C, 0x73, 0x65]
  const NULL: Bytes := [0x6E, 0x75, 0x6C, 0x6C]

  function Content(v: Value): Bytes
    requires Supported(v)
  {
    match v
    case VStr(s) => Quoted(s)
    case VInt(n) => Decimal(n)
    case VBool(b) => if b then TRUE else FALSE
    case VTime(t) => Quoted(Stamp(t))
    case VNull => NULL
  }

  /** A two-element list: the type tag, then the value. */
  function Tagged(v: Value): Bytes
    requires Supported(v)
  {
    [OPEN_LIST, QUOTE, Tag(v), QUOTE, COMMA] + Content(v) + [CLOSE_LIST]
  }

  predicate AllSupported(fs: Fields) { forall i :: 0 <= i < |fs| ==> Supported(fs[i].value) }

  function Member(f: Field): Bytes
    requires Supported(f.value)
  {
    Quoted(f.name) + [COLON] + Tagged(f.value)
  }

  function Members(fs: Fields): Bytes
    requires AllSupported(fs)
  {
    if fs == [] then [] else if |fs| == 1 then Member(fs[0]) else Member(fs[0]) + [COMMA] + Members(fs[1..])
  }

  /** The order of strings by code point. */
  predicate StrLe(a: Str, b: Str) {
    a == [] || (b != [] && (if a[0] != b[0] then a[0] < b[0] else StrLe(a[1..], b[1..])))
  }

  predicate FieldLe(x: Field, y: Field) { StrLe(x.name, y.name) }

  function Ordered(fs: Fields): Fields { Sorting.Sort(FieldLe, fs) }

  /** The first value that cannot be encoded decides the error. */
  function FieldError(fs: Fields): Option<Error> {
    if fs == [] then None
    else if fs[0].value.VNaiveTime? then Some(NaiveTimestamp)
    else if fs[0].value.VUnsupported? then Some(UnsupportedType)
    else FieldError(fs[1..])
  }

  function Object(fs: Fields): Bytes
    requires AllSupported(fs)
  {
    [OPEN_OBJECT] + Members(fs) + [CLOSE_OBJECT]
  }

  lemma {:induction false} NoErrorMeansSupported(fs: Fields)
    ensures FieldError(fs).None? <==> AllSupported(fs)
  {
    if fs != [] {
      NoErrorMeansSupported(fs[1..]);
      if AllSupported(fs[1..]) && Supported(fs[0].value) {
        forall i | 0 <= i < |fs| ensures Supported(fs[i].value) {
          if i > 0 { assert fs[1..][i - 1] == fs[i]; }
        }
      }
    }
  }

  lemma OrderedSupported(fs: Fields)
    requires AllSupported(fs)
    ensures AllSupported(Ordered(fs))
  {
    Sorting.SortPermutes(FieldLe, fs);
    Sorting.SameMembers(Ordered(fs), fs);
    forall i | 0 <= i < |Ordered(fs)| ensures Supported(Ordered(fs)[i].value) {
      assert Ordered(fs)[i] in fs;
    }
  }

  /** `canonical_bytes`: refuse what has no canonical form, else print with sorted names. */
  function CanonicalBytes(fs: Fields): Result<Bytes> {
    var failure := FieldError(fs);
    if failure.Some? then Err(failure.value)
    else
      NoErrorMeansSupported(fs);
      OrderedSupported(fs);
      Ok(Object(Ordered(fs)))
  }

  predicate Ascii(s: Str) { forall i :: 0 <= i < |s| ==> s[i] < 0x80 }

  /** `canonical_message`: domain, separator byte, body. */
  function Message(domain: Str, fs: Fields): Result<Bytes> {
    if domain == [] then Err(EmptyDomain)
    else if !Ascii(domain) then Err(DomainNotAscii)
    else
      var body := CanonicalBytes(fs);
      if body.Err? then body else Ok(AsBytes(domain) + [SEPARATOR] + body.value)
  }

  function AsBytes(s: Str): (b: Bytes)
    requires Ascii(s)
    ensures |b| == |s| && forall i :: 0 <= i < |s| ==> b[i] == s[i]
  {
    seq(|s|, i requires 0 <= i < |s| && s[i] < 0x80 => s[i])
  }

  // ---- Parser ------------------------------------------------------------------------------

  /** A value read from the front, and what is left. */
  datatype Read<+T> = Read(value: T, rest: Bytes) | Bad

  function HexValue(b: Byte): Option<int> {
    if 0x30 <= b <= 0x39 then Some(b - 0x30) else if 0x61 <= b <= 0x66 then Some(b - 0x57) else None
  }

  function ReadHex4(b: Bytes): (r: Read<Unit>)
    ensures r.Read? ==> |r.rest| < |b|
  {
    if |b| < 4 then Bad
    else
      var h0, h1, h2, h3 := HexValue(b[0]), HexValue(b[1]), HexValue(b[2]), HexValue(b[3]);
      if h0.Some? && h1.Some? && h2.Some? && h3.Some? && 0 <= h0.value < 16 && 0 <= h1.value < 16 && 0 <= h2.value < 16 && 0 <= h3.value < 16
      then Read(h0.value * 4096 + h1.value * 256 + h2.value * 16 + h3.value, b[4..]) else Bad
  }

  function ShortUnescape(b: Byte): Option<Unit> {
    if b == 0x22 then Some(0x22) else if b == 0x5C then Some(0x5C)
    else if b == 0x6E then Some(0x0A) else if b == 0x72 then Some(0x0D) else if b == 0x74 then Some(0x09)
    else if b == 0x66 then Some(0x0C) else if b == 0x62 then Some(0x08) else None
  }

  function ReadUnit(b: Bytes): (r: Read<Unit>)
    ensures r.Read? ==> |r.rest| < |b|
  {
    if b == [] then Bad
    else if b[0] != BACKSLASH then
      if 0x20 <= b[0] <= 0x7E && b[0] != QUOTE then Read(b[0], b[1..]) else Bad
    else if |b| == 1 then Bad
    else if b[1] == 0x75 then ReadHex4(b[2..])
    else if ShortUnescape(b[1]).Some? then Read(ShortUnescape(b[1]).value, b[2..])
    else Bad
  }

  /** The code units up to the closing quote. */
  function ReadUnits(b: Bytes): (r: Read<seq<Unit>>)
    ensures r.Read? ==> |r.rest| < |b|
    decreases |b|
  {
    if b == [] then Bad
    else if b[0] == QUOTE then Read([], b[1..])
    else
      var head := ReadUnit(b);
      if head.Bad? then Bad
      else
        var tail := ReadUnits(head.rest);
        if tail.Bad? then Bad else Read([head.value] + tail.value, tail.rest)
  }

  /** Adjacent surrogate halves make one code point; a lone half stands for itself. */
  function FromUnits(us: seq<Unit>): Str {
    if us == [] then []
    else if |us| >= 2 && High(us[0]) && Low(us[1]) then
      [0x10000 + (us[0] - 0xD800) * 0x400 + (us[1] - 0xDC00)] + FromUnits(us[2..])
    else [us[0]] + FromUnits(us[1..])
  }

  function ReadString(b: Bytes): (r: Read<Str>)
    ensures r.Read? ==> |r.rest| < |b|
  {
    if b == [] || b[0] != QUOTE then Bad
    else
      var units := ReadUnits(b[1..]);
      if units.Bad? then Bad else Read(FromUnits(units.value), units.rest)
  }

  predicate IsDigit(b: int) { 0x30 <= b <= 0x39 }

  function ReadDigits(b: Bytes, acc: nat): (r: (nat, Bytes))
    ensures |r.1| <= |b|
    decreases |b|
  {
    if b == [] || !IsDigit(b[0]) then (acc, b) else ReadDigits(b[1..], acc * 10 + (b[0] - 0x30))
  }

  function ReadNat(b: Bytes): (r: Read<nat>)
    ensures r.Read? ==> |r.rest| < |b|
  {
    if b == [] || !IsDigit(b[0]) then Bad
    else
      var r := ReadDigits(b[1..], b[0] - 0x30);
      Read(r.0, r.1)
  }

  function ReadInt(b: Bytes): (r: Read<int>)
    ensures r.Read? ==> |r.rest| < |b|
  {
    var negative := b != [] && b[0] == MINUS;
    var r := ReadNat(if negative then b[1..] else b);
    if r.Bad? then Bad
    else
      var magnitude: int := r.value;
      Read(if negative then -magnitude else magnitude, r.rest)
  }

  function Number(s: Str): nat {
    if s == [] then 0 else Number(s[..|s| - 1]) * 10 + (if IsDigit(s[|s| - 1]) then s[|s| - 1] - 0x30 else 0)
  }

  function Unstamp(s: Str): Option<Instant> {
    if |s| != 27 then None
    else
      var t := Calendar(Number(s[0..4]), Number(s[5..7]), Number(s[8..10]), Number(s[11..13]), Number(s[14..16]), Number(s[17..19]), Number(s[20..26]));
      if Printable(t) then Some(t) else None
  }

  function ReadLiteral(b: Bytes, literal: Bytes, v: Value): (r: Read<Value>)
    requires literal != []
    ensures r.Read? ==> |r.rest| < |b|
  {
    if literal <= b then Read(v, b[|literal|..]) else Bad
  }

  function ReadContent(tag: Byte, b: Bytes): (r: Read<Value>)
    ensures r.Read? ==> |r.rest| < |b|
  {
    if tag == 0x73 then
      var s := ReadString(b);
      if s.Bad? then Bad else Read(VStr(s.value), s.rest)
    else if tag == 0x69 then
      var n := ReadInt(b);
      if n.Bad? then Bad else Read(VInt(n.value), n.rest)
    else if tag == 0x62 then
      if TRUE <= b then ReadLiteral(b, TRUE, VBool(true)) else ReadLiteral(b, FALSE, VBool(false))
    else if tag == 0x74 then
      var s := ReadString(b);
      if s.Bad? || Unstamp(s.value).None? then Bad else Read(VTime(Unstamp(s.value).value), s.rest)
    else if tag == 0x6E then ReadLiteral(b, NULL, VNull)
    else Bad
  }

  function ReadTagged(b: Bytes): (r: Read<Value>)
    ensures r.Read? ==> |r.rest| < |b|
  {
    if |b| < 5 || b[0] != OPEN_LIST || b[1] != QUOTE || b[3] != QUOTE || b[4] != COMMA then Bad
    else
      var v := ReadContent(b[2], b[5..]);
      if v.Bad? || v.rest == [] || v.rest[0] != CLOSE_LIST then Bad else Read(v.value, v.rest[1..])
  }

  function ReadMember(b: Bytes): (r: Read<Field>)
    ensures r.Read? ==> |r.rest| < |b|
  {
    var name := ReadString(b);
    if name.Bad? || name.rest == [] || name.rest[0] != COLON then Bad
    else
      var v := ReadTagged(name.rest[1..]);
      if v.Bad? then Bad else Read(Field(name.value, v.value), v.rest)
  }

  /** One or more members up to the closing brace. */
  function ReadMembers(b: Bytes): Read<Fields>
    decreases |b|
  {
    var head := ReadMember(b);
    if head.Bad? || head.rest == [] then Bad
    else if head.rest[0] == CLOSE_OBJECT then Read([head.value], head.rest[1..])
    else if head.rest[0] == COMMA then
      var tail := ReadMembers(head.rest[1..]);
      if tail.Bad? then Bad else Read([head.value] + tail.value, tail.rest)
    else Bad
  }

  function ReadObject(b: Bytes): Read<Fields> {
    if |b| < 2 || b[0] != OPEN_OBJECT then Bad
    else if b[1] == CLOSE_OBJECT then Read([], b[2..])
    else ReadMembers(b[1..])
  }

  function LastSeparator(b: Bytes): (i: int)
    ensures -1 <= i < |b|
    ensures i >= 0 ==> b[i] == SEPARATOR
    ensures forall k :: i < k < |b| ==> b[k] != SEPARATOR
  {
    if b == [] then -1 else if b[|b| - 1] == SEPARATOR then |b| - 1 else LastSeparator(b[..|b| - 1])
  }

  datatype Parsed = Parsed(domain: Str, fields: Fields)

  /** Split at the last separator byte, then read the body to its end. */
  function Parse(b: Bytes): Option<Parsed> {
    var i := LastSeparator(b);
    if i < 0 then None
    else
      var body := ReadObject(b[i + 1..]);
      if body.Bad? || body.rest != [] then None
      else Some(Parsed(seq(i, k requires 0 <= k < i => b[k]), body.value))
  }
}
