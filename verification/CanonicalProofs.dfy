/** The parser undoes the printer: exactly for the strings the printer does not conflate. */
module CanonicalProofs {
  import opened Vocabulary
  import opened Canonical
  import Sorting

  // ---- Code units --------------------------------------------------------------------------

  lemma HexSplits(u: Unit)
    ensures u == u / 4096 * 4096 + u / 256 % 16 * 256 + u / 16 % 16 * 16 + u % 16
  {
    assert u / 256 == u / 4096 * 16 + u / 256 % 16;
    assert u / 16 == u / 256 * 16 + u / 16 % 16;
  }

  lemma HexDigitsRead(d0: int, d1: int, d2: int, d3: int, rest: Bytes)
    requires 0 <= d0 < 16 && 0 <= d1 < 16 && 0 <= d2 < 16 && 0 <= d3 < 16
    ensures ReadHex4([HexDigit(d0), HexDigit(d1), HexDigit(d2), HexDigit(d3)] + rest) == Read(d0 * 4096 + d1 * 256 + d2 * 16 + d3, rest)
  {
  }

  lemma Hex4Reads(u: Unit, rest: Bytes)
    ensures ReadHex4(Hex4(u) + rest) == Read(u, rest)
  {
    hide ReadHex4, HexDigit;
    HexSplits(u);
    HexDigitsRead(u / 4096, u / 256 % 16, u / 16 % 16, u % 16, rest);
  }

  lemma UnitReads(u: Unit, rest: Bytes)
    ensures ReadUnit(EscapeUnit(u) + rest) == Read(u, rest)
    ensures EscapeUnit(u) != [] && EscapeUnit(u)[0] != QUOTE
  {
    var b := EscapeUnit(u) + rest;
    if ShortEscape(u).Some? {
      assert b[2..] == rest;
    } else if 0x20 <= u <= 0x7E {
      assert b[1..] == rest;
    } else {
      assert b[2..] == Hex4(u) + rest;
      Hex4Reads(u, rest);
    }
  }

  function UnitsOf(c: Code): seq<Unit> {
    if c < 0x10000 then [c] else [0xD800 + (c - 0x10000) / 0x400, 0xDC00 + (c - 0x10000) % 0x400]
  }

  /** The UTF-16 form of a string. */
  function ToUnits(s: Str): seq<Unit> {
    if s == [] then [] else UnitsOf(s[0]) + ToUnits(s[1..])
  }

  function EscapeUnits(us: seq<Unit>): Bytes {
    if us == [] then [] else EscapeUnit(us[0]) + EscapeUnits(us[1..])
  }

  lemma {:induction false} EscapeUnitsAppend(a: seq<Unit>, b: seq<Unit>)
    ensures EscapeUnits(a + b) == EscapeUnits(a) + EscapeUnits(b)
  {
    hide EscapeUnit;
    if a == [] {
      assert a + b == b;
    } else {
      EscapeUnitsAppend(a[1..], b);
      assert (a + b)[0] == a[0] && (a + b)[1..] == a[1..] + b;
      assert EscapeUnits(a + b) == EscapeUnit(a[0]) + (EscapeUnits(a[1..]) + EscapeUnits(b));
    }
  }

  lemma CodeEscapes(c: Code)
    ensures EscapeCode(c) == EscapeUnits(UnitsOf(c))
  {
    var us := UnitsOf(c);
    if c < 0x10000 {
      assert us[1..] == [];
    } else {
      assert us[1..] == [us[1]] && us[1..][1..] == [];
      assert EscapeUnits(us[1..]) == EscapeUnit(us[1]);
    }
  }

  lemma {:induction false} EscapesUnits(s: Str)
    ensures Escape(s) == EscapeUnits(ToUnits(s))
  {
    if s != [] {
      EscapesUnits(s[1..]);
      CodeEscapes(s[0]);
      EscapeUnitsAppend(UnitsOf(s[0]), ToUnits(s[1..]));
    }
  }

  lemma {:induction false} UnitsRead(us: seq<Unit>, rest: Bytes)
    ensures ReadUnits(EscapeUnits(us) + [QUOTE] + rest) == Read(us, rest)
  {
    var b := EscapeUnits(us) + [QUOTE] + rest;
    if us == [] {
      assert b == [QUOTE] + rest;
    } else {
      var after := EscapeUnits(us[1..]) + [QUOTE] + rest;
      assert b == EscapeUnit(us[0]) + after;
      UnitReads(us[0], after);
      assert b[0] == EscapeUnit(us[0])[0];
      UnitsRead(us[1..], rest);
      assert [us[0]] + us[1..] == us;
    }
  }

  // ---- Strings -----------------------------------------------------------------------------

  /** No high surrogate immediately followed by a low one. Holds of all Unicode text. */
  predicate PairFree(s: Str) {
    forall i :: 0 < i < |s| ==> !(High(s[i - 1]) && Low(s[i]))
  }

  /** Adjacent surrogate halves replaced by the code point they spell. */
  function Joined(s: Str): Str {
    if s == [] then []
    else if |s| >= 2 && High(s[0]) && Low(s[1]) then
      [0x10000 + (s[0] - 0xD800) * 0x400 + (s[1] - 0xDC00)] + Joined(s[2..])
    else [s[0]] + Joined(s[1..])
  }

  lemma {:induction false} JoinedLength(s: Str)
    ensures |Joined(s)| <= |s|
    ensures |Joined(s)| == |s| ==> Joined(s) == s && PairFree(s)
    ensures PairFree(s) ==> Joined(s) == s
    decreases |s|
  {
    if s != [] {
      if |s| >= 2 && High(s[0]) && Low(s[1]) {
        JoinedLength(s[2..]);
        assert !PairFree(s) by { assert High(s[1 - 1]) && Low(s[1]); }
      } else {
        JoinedLength(s[1..]);
        if PairFree(s) { assert PairFree(s[1..]); }
        if PairFree(s[1..]) {
          forall i | 0 < i < |s| ensures !(High(s[i - 1]) && Low(s[i])) {
            if i > 1 { assert s[1..][i - 2] == s[i - 1] && s[1..][i - 1] == s[i]; }
          }
        }
      }
    }
  }

  /** A string survives exactly when it has no adjacent surrogate halves. */
  lemma JoinedIff(s: Str)
    ensures Joined(s) == s <==> PairFree(s)
  {
  }

  lemma FirstUnit(s: Str)
    requires s != []
    ensures ToUnits(s) != []
    ensures ToUnits(s)[0] == UnitsOf(s[0])[0]
    ensures Low(ToUnits(s)[0]) <==> Low(s[0])
  {
  }

  lemma {:induction false} UnitsDecode(s: Str)
    ensures FromUnits(ToUnits(s)) == Joined(s)
    decreases |s|
  {
    if s != [] {
      var us := ToUnits(s);
      if s[0] >= 0x10000 {
        assert us[2..] == ToUnits(s[1..]);
        UnitsDecode(s[1..]);
      } else {
        assert us[1..] == ToUnits(s[1..]);
        if |s| >= 2 { FirstUnit(s[1..]); }
        if |s| >= 2 && High(s[0]) && Low(s[1]) {
          assert ToUnits(s[1..]) == [s[1]] + ToUnits(s[1..][1..]) && s[1..][1..] == s[2..];
          assert us[2..] == ToUnits(s[2..]);
          UnitsDecode(s[2..]);
        } else {
          UnitsDecode(s[1..]);
        }
      }
    }
  }

  lemma StringReads(s: Str, rest: Bytes)
    ensures ReadString(Quoted(s) + rest) == Read(Joined(s), rest)
  {
    var b := Quoted(s) + rest;
    EscapesUnits(s);
    assert b[1..] == EscapeUnits(ToUnits(s)) + [QUOTE] + rest;
    UnitsRead(ToUnits(s), rest);
    UnitsDecode(s);
  }

  /** Two lone halves and the code point they spell are printed alike: without the condition on
      strings the encoding is not injective. */
  lemma SurrogatesCollide()
    ensures Quoted([0xD800, 0xDC00]) == Quoted([0x10000])
    ensures !PairFree([0xD800, 0xDC00])
  {
    var s: Str := [0xD800, 0xDC00];
    assert s[1..] == [0xDC00] && s[1..][1..] == [];
    assert Escape([0xDC00]) == EscapeUnit(0xDC00);
    assert Escape(s) == EscapeUnit(0xD800) + EscapeUnit(0xDC00);
    var t: Str := [0x10000];
    assert t[1..] == [];
    assert Escape(t) == EscapeUnit(0xD800) + EscapeUnit(0xDC00);
    assert High(s[1 - 1]) && Low(s[1]);
  }

  /** Exactly which strings are printed alike: those that spell the same text. */
  lemma QuotedAlikeIff(a: Str, b: Str)
    ensures Quoted(a) == Quoted(b) <==> Joined(a) == Joined(b)
  {
    StringReads(a, []);
    StringReads(b, []);
    if Joined(a) == Joined(b) {
      JoinedEscapes(a);
      JoinedEscapes(b);
    } else {
      assert Quoted(a) + [] == Quoted(a) && Quoted(b) + [] == Quoted(b);
    }
  }

  lemma PairEscapes(high: Code, low: Code)
    requires High(high) && Low(low)
    ensures EscapeCode(0x10000 + (high - 0xD800) * 0x400 + (low - 0xDC00)) == EscapeCode(high) + EscapeCode(low)
  {
    hide EscapeUnit;
    var c := (high - 0xD800) * 0x400 + (low - 0xDC00);
    assert c / 0x400 == high - 0xD800 && c % 0x400 == low - 0xDC00;
  }

  lemma EscapeCons(c: Code, s: Str)
    ensures Escape([c] + s) == EscapeCode(c) + Escape(s)
  {
  }

  lemma {:induction false} JoinedEscapes(s: Str)
    ensures Escape(Joined(s)) == Escape(s)
    decreases |s|
  {
    hide EscapeCode, Escape;
    if s != [] {
      var rest := s[1..];
      assert s == [s[0]] + rest;
      EscapeCons(s[0], rest);
      if |s| >= 2 && High(s[0]) && Low(s[1]) {
        assert rest == [s[1]] + s[2..];
        EscapeCons(s[1], s[2..]);
        JoinedEscapes(s[2..]);
        PairEscapes(s[0], s[1]);
        EscapeCons(Joined(s)[0], Joined(s[2..]));
        assert EscapeCode(s[0]) + (EscapeCode(s[1]) + Escape(s[2..])) == (EscapeCode(s[0]) + EscapeCode(s[1])) + Escape(s[2..]);
      } else {
        JoinedEscapes(rest);
        EscapeCons(s[0], Joined(rest));
      }
    } else {
      assert Joined(s) == s;
    }
  }

  // ---- Integers ----------------------------------------------------------------------------

  predicate AllDigits(b: Bytes) { forall i :: 0 <= i < |b| ==> IsDigit(b[i]) }

  /** The number a run of digits spells. */
  function Spelled(b: Bytes, acc: nat): nat
    requires AllDigits(b)
  {
    if b == [] then acc else Spelled(b[1..], acc * 10 + (b[0] - 0x30))
  }

  predicate Stops(rest: Bytes) { rest == [] || !IsDigit(rest[0]) }

  lemma {:induction false} DigitsRead(b: Bytes, rest: Bytes, acc: nat)
    requires AllDigits(b) && Stops(rest)
    ensures ReadDigits(b + rest, acc) == (Spelled(b, acc), rest)
  {
    if b == [] {
      assert b + rest == rest;
    } else {
      assert (b + rest)[1..] == b[1..] + rest;
      DigitsRead(b[1..], rest, acc * 10 + (b[0] - 0x30));
    }
  }

  lemma {:induction false} SpelledAppend(b: Bytes, d: Byte, acc: nat)
    requires AllDigits(b) && IsDigit(d)
    ensures Spelled(b + [d], acc) == Spelled(b, acc) * 10 + (d - 0x30)
  {
    if b == [] {
      assert (b + [d])[1..] == [];
    } else {
      assert (b + [d])[1..] == b[1..] + [d];
      SpelledAppend(b[1..], d, acc * 10 + (b[0] - 0x30));
    }
  }

  lemma {:induction false} DigitsSpell(n: nat)
    ensures AllDigits(Digits(n)) && Digits(n) != [] && Spelled(Digits(n), 0) == n
  {
    if n < 10 {
      assert Digits(n)[1..] == [];
    } else {
      DigitsSpell(n / 10);
      SpelledAppend(Digits(n / 10), 0x30 + n % 10, 0);
    }
  }

  lemma NatReads(n: nat, rest: Bytes)
    requires Stops(rest)
    ensures ReadNat(Digits(n) + rest) == Read(n, rest)
  {
    DigitsSpell(n);
    var d := Digits(n);
    assert (d + rest)[1..] == d[1..] + rest;
    DigitsRead(d[1..], rest, d[0] - 0x30);
    assert Spelled(d, 0) == Spelled(d[1..], d[0] - 0x30);
  }

  lemma IntReads(n: int, rest: Bytes)
    requires Stops(rest)
    ensures ReadInt(Decimal(n) + rest) == Read(n, rest)
  {
    hide Digits, ReadNat;
    if n < 0 {
      assert (Decimal(n) + rest)[1..] == Digits(-n) + rest;
      NatReads(-n, rest);
    } else {
      NatReads(n, rest);
      DigitsSpell(n);
      assert (Decimal(n) + rest)[0] == Digits(n)[0];
    }
  }

  // ---- Timestamps --------------------------------------------------------------------------

  function Pow10(k: nat): nat { if k == 0 then 1 else 10 * Pow10(k - 1) }

  lemma {:induction false} PaddedReads(n: nat, width: nat)
    requires n < Pow10(width)
    ensures |Padded(n, width)| == width && Number(Padded(n, width)) == n
    ensures forall i :: 0 <= i < width ==> IsDigit(Padded(n, width)[i])
  {
    if width > 0 {
      PaddedReads(n / 10, width - 1);
      var p := Padded(n, width);
      assert p[..|p| - 1] == Padded(n / 10, width - 1);
    }
  }

  lemma StampParts(t: Instant)
    ensures Number(Padded(t.year, 4)) == t.year && |Padded(t.year, 4)| == 4
    ensures Number(Padded(t.month, 2)) == t.month && |Padded(t.month, 2)| == 2
    ensures Number(Padded(t.day, 2)) == t.day && |Padded(t.day, 2)| == 2
    ensures Number(Padded(t.hour, 2)) == t.hour && |Padded(t.hour, 2)| == 2
    ensures Number(Padded(t.minute, 2)) == t.minute && |Padded(t.minute, 2)| == 2
    ensures Number(Padded(t.second, 2)) == t.second && |Padded(t.second, 2)| == 2
    ensures Number(Padded(t.micro, 6)) == t.micro && |Padded(t.micro, 6)| == 6
  {
    assert Pow10(2) == 100 && Pow10(4) == 10000 && Pow10(6) == 1000000 by {
      assert Pow10(1) == 10 && Pow10(2) == 10 * Pow10(1);
      assert Pow10(3) == 10 * Pow10(2) && Pow10(4) == 10 * Pow10(3);
      assert Pow10(5) == 10 * Pow10(4) && Pow10(6) == 10 * Pow10(5);
    }
    PaddedReads(t.year, 4);
    PaddedReads(t.month, 2);
    PaddedReads(t.day, 2);
    PaddedReads(t.hour, 2);
    PaddedReads(t.minute, 2);
    PaddedReads(t.second, 2);
    PaddedReads(t.micro, 6);
  }

  lemma StampReads(t: Instant)
    ensures Unstamp(Stamp(t)) == Some(t)
  {
    hide Padded, Number;
    StampParts(t);
    var s := Stamp(t);
    assert |s| == 27;
    assert s[0..4] == Padded(t.year, 4);
    assert s[5..7] == Padded(t.month, 2);
    assert s[8..10] == Padded(t.day, 2);
    assert s[11..13] == Padded(t.hour, 2);
    assert s[14..16] == Padded(t.minute, 2);
    assert s[17..19] == Padded(t.second, 2);
    assert s[20..26] == Padded(t.micro, 6);
  }

  lemma {:induction false} PaddedPlain(n: nat, width: nat)
    ensures Ascii(Padded(n, width))
  {
    if width > 0 { PaddedPlain(n / 10, width - 1); }
  }

  lemma PlainPairFree(s: Str)
    requires Ascii(s)
    ensures Joined(s) == s
  {
  }

  lemma StampPlain(t: Instant)
    ensures Joined(Stamp(t)) == Stamp(t)
  {
    hide Padded;
    PaddedPlain(t.year, 4);
    PaddedPlain(t.month, 2);
    PaddedPlain(t.day, 2);
    PaddedPlain(t.hour, 2);
    PaddedPlain(t.minute, 2);
    PaddedPlain(t.second, 2);
    PaddedPlain(t.micro, 6);
    PlainPairFree(Stamp(t));
  }

  // ---- Values and members ------------------------------------------------------------------

  function JoinedValue(v: Value): Value { if v.VStr? then VStr(Joined(v.s)) else v }
  function JoinedField(f: Field): Field { Field(Joined(f.name), JoinedValue(f.value)) }

  function JoinedFields(fs: Fields): Fields {
    if fs == [] then [] else [JoinedField(fs[0])] + JoinedFields(fs[1..])
  }

  lemma LiteralReads(literal: Bytes, v: Value, rest: Bytes)
    requires literal != []
    ensures ReadLiteral(literal + rest, literal, v) == Read(v, rest)
  {
  }

  lemma ContentReads(v: Value, rest: Bytes)
    requires Supported(v) && Stops(rest)
    ensures ReadContent(Tag(v), Content(v) + rest) == Read(JoinedValue(v), rest)
  {
    hide Quoted, Decimal, ReadString, ReadInt, Joined, Stamp, Unstamp;
    match v
    case VStr(s) => StringReads(s, rest);
    case VInt(n) => IntReads(n, rest);
    case VBool(b) =>
      LiteralReads(TRUE, v, rest);
      LiteralReads(FALSE, v, rest);
      assert (FALSE + rest)[0] != TRUE[0];
    case VTime(t) =>
      StringReads(Stamp(t), rest);
      StampPlain(t);
      StampReads(t);
    case VNull => LiteralReads(NULL, v, rest);
  }

  lemma TaggedReads(v: Value, rest: Bytes)
    requires Supported(v)
    ensures ReadTagged(Tagged(v) + rest) == Read(JoinedValue(v), rest)
  {
    hide Content, ReadContent, JoinedValue;
    var b := Tagged(v) + rest;
    assert b[5..] == Content(v) + ([CLOSE_LIST] + rest);
    ContentReads(v, [CLOSE_LIST] + rest);
    assert ([CLOSE_LIST] + rest)[1..] == rest;
  }

  lemma MemberReads(f: Field, rest: Bytes)
    requires Supported(f.value)
    ensures ReadMember(Member(f) + rest) == Read(JoinedField(f), rest)
  {
    hide Quoted, ReadString, Tagged, ReadTagged, Joined, JoinedValue;
    var after := [COLON] + Tagged(f.value) + rest;
    assert Member(f) + rest == Quoted(f.name) + after;
    StringReads(f.name, after);
    assert after[1..] == Tagged(f.value) + rest;
    TaggedReads(f.value, rest);
  }

  lemma {:induction false} MembersRead(fs: Fields, rest: Bytes)
    requires AllSupported(fs) && fs != []
    ensures ReadMembers(Members(fs) + [CLOSE_OBJECT] + rest) == Read(JoinedFields(fs), rest)
  {
    hide Member, ReadMember, JoinedField;
    var b := Members(fs) + [CLOSE_OBJECT] + rest;
    if |fs| == 1 {
      var after := [CLOSE_OBJECT] + rest;
      assert b == Member(fs[0]) + after;
      MemberReads(fs[0], after);
      assert after[1..] == rest;
      assert fs[1..] == [] && JoinedFields(fs[1..]) == [];
      assert JoinedFields(fs) == [JoinedField(fs[0])];
    } else {
      var more := Members(fs[1..]) + [CLOSE_OBJECT] + rest;
      var after := [COMMA] + more;
      assert b == Member(fs[0]) + after;
      MemberReads(fs[0], after);
      assert after[1..] == more;
      MembersRead(fs[1..], rest);
    }
  }

  lemma MembersNotClosed(fs: Fields)
    requires AllSupported(fs) && fs != []
    ensures Members(fs) != [] && Members(fs)[0] == QUOTE
  {
  }

  lemma ObjectReads(fs: Fields)
    requires AllSupported(fs)
    ensures ReadObject(Object(fs)) == Read(JoinedFields(fs), [])
  {
    hide Member, ReadMember;
    var b := Object(fs);
    if fs == [] {
      assert b == [OPEN_OBJECT, CLOSE_OBJECT];
    } else {
      MembersNotClosed(fs);
      MembersRead(fs, []);
      assert b[1..] == Members(fs) + [CLOSE_OBJECT] + [];
    }
  }

  // ---- The body is printable ASCII ---------------------------------------------------------

  predicate Visible(b: Bytes) { forall i :: 0 <= i < |b| ==> 0x20 <= b[i] <= 0x7E }

  lemma UnitVisible(u: Unit)
    ensures Visible(EscapeUnit(u))
  {
  }

  lemma {:induction false} StringVisible(s: Str)
    ensures Visible(Escape(s)) && Visible(Quoted(s))
  {
    hide EscapeUnit;
    if s != [] {
      StringVisible(s[1..]);
      if s[0] < 0x10000 { UnitVisible(s[0]); }
      else {
        UnitVisible(0xD800 + (s[0] - 0x10000) / 0x400);
        UnitVisible(0xDC00 + (s[0] - 0x10000) % 0x400);
      }
    }
  }

  lemma MemberVisible(f: Field)
    requires Supported(f.value)
    ensures Visible(Member(f))
  {
    hide Escape, Digits, Stamp;
    StringVisible(f.name);
    match f.value
    case VStr(s) => StringVisible(s);
    case VInt(n) => DigitsSpell(if n < 0 then -n else n);
    case VBool(_) =>
    case VTime(t) => StringVisible(Stamp(t));
    case VNull =>
  }

  lemma {:induction false} MembersVisible(fs: Fields)
    requires AllSupported(fs)
    ensures Visible(Members(fs))
  {
    hide Member;
    if fs != [] {
      MemberVisible(fs[0]);
      if |fs| > 1 { MembersVisible(fs[1..]); }
    }
  }

  /** The body holds no separator byte, whatever the strings hold. */
  lemma BodyHasNoSeparator(fs: Fields)
    requires CanonicalBytes(fs).Ok?
    ensures Visible(CanonicalBytes(fs).value) && SEPARATOR !in CanonicalBytes(fs).value
  {
    NoErrorMeansSupported(fs);
    OrderedSupported(fs);
    MembersVisible(Ordered(fs));
  }

  // ---- The message -------------------------------------------------------------------------

  lemma MessageSplits(domain: Str, fs: Fields)
    requires Message(domain, fs).Ok?
    ensures LastSeparator(Message(domain, fs).value) == |domain|
  {
    hide CanonicalBytes;
    BodyHasNoSeparator(fs);
    var b := Message(domain, fs).value;
    var i := LastSeparator(b);
    var body := CanonicalBytes(fs).value;
    assert b[|domain|] == SEPARATOR;
    assert forall k :: |domain| < k < |b| ==> b[k] == body[k - |domain| - 1];
  }

  /** What the parser makes of any message: the domain, and the sorted fields with every string's
      surrogate pairs joined. */
  lemma MessageParses(domain: Str, fs: Fields)
    requires Message(domain, fs).Ok?
    ensures Parse(Message(domain, fs).value) == Some(Parsed(domain, JoinedFields(Ordered(fs))))
  {
    hide Ordered, Object, ReadObject;
    MessageSplits(domain, fs);
    NoErrorMeansSupported(fs);
    OrderedSupported(fs);
    var b := Message(domain, fs).value;
    var body := Object(Ordered(fs));
    assert b[|domain| + 1..] == body;
    ObjectReads(Ordered(fs));
    assert seq(|domain|, k requires 0 <= k < |domain| => b[k]) == domain;
  }

  /** Every string in the mapping survives. */
  predicate Unambiguous(fs: Fields) {
    forall i :: 0 <= i < |fs| ==> PairFree(fs[i].name) && (fs[i].value.VStr? ==> PairFree(fs[i].value.s))
  }

  lemma {:induction false} JoinedFieldsIff(fs: Fields)
    ensures JoinedFields(fs) == fs <==> Unambiguous(fs)
  {
    if fs != [] {
      JoinedFieldsIff(fs[1..]);
      JoinedIff(fs[0].name);
      if fs[0].value.VStr? { JoinedIff(fs[0].value.s); }
      assert JoinedFields(fs)[1..] == JoinedFields(fs[1..]);
      if Unambiguous(fs[1..]) && JoinedField(fs[0]) == fs[0] {
        forall i | 0 <= i < |fs| ensures PairFree(fs[i].name) && (fs[i].value.VStr? ==> PairFree(fs[i].value.s)) {
          if i > 0 { assert fs[i] == fs[1..][i - 1]; }
        }
        assert fs == [fs[0]] + fs[1..];
      }
    }
  }

  lemma OrderedUnambiguous(fs: Fields)
    ensures Unambiguous(Ordered(fs)) <==> Unambiguous(fs)
  {
    Sorting.SortPermutes(FieldLe, fs);
    Sorting.SameMembers(Ordered(fs), fs);
    assert Unambiguous(fs) <==> forall f :: f in fs ==> PairFree(f.name) && (f.value.VStr? ==> PairFree(f.value.s));
    assert Unambiguous(Ordered(fs)) <==> forall f :: f in Ordered(fs) ==> PairFree(f.name) && (f.value.VStr? ==> PairFree(f.value.s));
  }

  /** Round trip: the parser recovers the domain and every typed field, in sorted order, exactly
      when no string holds two adjacent surrogate halves. */
  lemma RoundTrip(domain: Str, fs: Fields)
    requires Message(domain, fs).Ok?
    ensures Parse(Message(domain, fs).value) == Some(Parsed(domain, Ordered(fs))) <==> Unambiguous(fs)
  {
    hide Ordered, Message, Parse;
    MessageParses(domain, fs);
    JoinedFieldsIff(Ordered(fs));
    OrderedUnambiguous(fs);
  }

  /** Distinct domains or distinct mappings give distinct messages. */
  lemma MessagesAreDistinct(d1: Str, f1: Fields, d2: Str, f2: Fields)
    requires Message(d1, f1).Ok? && Message(d2, f2).Ok? && Unambiguous(f1) && Unambiguous(f2)
    requires Message(d1, f1) == Message(d2, f2)
    ensures d1 == d2 && multiset(f1) == multiset(f2)
  {
    hide Message, Parse, Unambiguous;
    RoundTrip(d1, f1);
    RoundTrip(d2, f2);
    Sorting.SortPermutes(FieldLe, f1);
    Sorting.SortPermutes(FieldLe, f2);
  }

  /** Messages of different domains differ whatever they carry. */
  lemma DomainsSeparate(d1: Str, f1: Fields, d2: Str, f2: Fields)
    requires Message(d1, f1).Ok? && Message(d2, f2).Ok? && d1 != d2
    ensures Message(d1, f1) != Message(d2, f2)
  {
    hide Message, Parse;
    MessageParses(d1, f1);
    MessageParses(d2, f2);
  }

  /** An error is reported exactly when the domain or some value has no canonical form. */
  lemma MessageFailsIff(domain: Str, fs: Fields)
    ensures Message(domain, fs).Ok? <==> domain != [] && Ascii(domain) && AllSupported(fs)
  {
    NoErrorMeansSupported(fs);
  }

  // ---- Insertion order ---------------------------------------------------------------------

  lemma {:induction false} StrLeTotal(a: Str, b: Str)
    ensures StrLe(a, b) || StrLe(b, a)
    ensures StrLe(a, b) && StrLe(b, a) ==> a == b
  {
    if a != [] && b != [] && a[0] == b[0] {
      StrLeTotal(a[1..], b[1..]);
      assert a == [a[0]] + a[1..] && b == [b[0]] + b[1..];
    }
  }

  lemma {:induction false} StrLeTransitive(a: Str, b: Str, c: Str)
    requires StrLe(a, b) && StrLe(b, c)
    ensures StrLe(a, c)
  {
    if a != [] && a[0] == b[0] == c[0] {
      StrLeTransitive(a[1..], b[1..], c[1..]);
    }
  }

  lemma FieldLeIsTotal()
    ensures Sorting.TotalPreorder(FieldLe)
  {
    forall x, y ensures FieldLe(x, y) || FieldLe(y, x) {
      StrLeTotal(x.name, y.name);
    }
    forall x, y, z | FieldLe(x, y) && FieldLe(y, z) ensures FieldLe(x, z) {
      StrLeTransitive(x.name, y.name, z.name);
    }
  }

  /** A mapping holds each name once. */
  ghost predicate Mapping(fs: Fields) {
    forall x, y :: x in fs && y in fs && x.name == y.name ==> x == y
  }

  /** The message depends on the mapping, not on the order its fields were written in. */
  lemma OrderDoesNotMatter(domain: Str, f1: Fields, f2: Fields)
    requires Mapping(f1) && multiset(f1) == multiset(f2) && Message(domain, f1).Ok?
    ensures Message(domain, f1) == Message(domain, f2)
  {
    hide Object;
    FieldLeIsTotal();
    forall x, y | x in f1 && y in f1 && FieldLe(x, y) && FieldLe(y, x) ensures x == y {
      StrLeTotal(x.name, y.name);
    }
    Sorting.SortForgetsOrder(FieldLe, f1, f2);
    NoErrorMeansSupported(f1);
    NoErrorMeansSupported(f2);
    Sorting.SameMembers(f1, f2);
    forall i | 0 <= i < |f2| ensures Supported(f2[i].value) {
      assert f2[i] in f1;
    }
  }
}
