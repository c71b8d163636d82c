/**
 Strings as UTF-16 code units, their form inside a JSON text (section 7 of
 RFC 8259, with lone surrogates escaped) and the number of UTF-8 bytes.
 */
module JsonText {
  import opened Prelude

  type Unit = u: nat | u < 0x10000
  type Text = seq<Unit>

  const QUOTE: Unit := 0x22
  const BACKSLASH: Unit := 0x5C
  const SPACE: Unit := 0x20

  predicate High(u: Unit) { 0xD800 <= u <= 0xDBFF }
  predicate Low(u: Unit) { 0xDC00 <= u <= 0xDFFF }

  /** A surrogate pair at the start of the text is one character. */
  predicate StartsWithPair(s: Text) {
    |s| >= 2 && High(s[0]) && Low(s[1])
  }

  function UnitBytes(u: Unit): nat {
    if u < 0x80 then 1 else if u < 0x800 then 2 else 3
  }

  /** The bytes of the UTF-8 form; a lone surrogate becomes the three-byte replacement character. */
  function Utf8Bytes(s: Text): nat {
    if s == [] then 0
    else if StartsWithPair(s) then 4 + Utf8Bytes(s[2..])
    else UnitBytes(s[0]) + Utf8Bytes(s[1..])
  }

  function HexDigit(d: nat): Unit
    requires d < 16
  {
    if d < 10 then 0x30 + d else 0x61 + d - 10
  }

  function UnicodeEscape(u: Unit): Text {
    [BACKSLASH, 0x75, HexDigit(u / 0x1000), HexDigit(u / 0x100 % 16), HexDigit(u / 16 % 16), HexDigit(u % 16)]
  }

  /** One code unit that is not part of a surrogate pair. */
  function EscapeUnit(u: Unit): Text {
    if u == QUOTE || u == BACKSLASH then [BACKSLASH, u]
    else if u == 0x08 then [BACKSLASH, 0x62]
    else if u == 0x09 then [BACKSLASH, 0x74]
    else if u == 0x0A then [BACKSLASH, 0x6E]
    else if u == 0x0C then [BACKSLASH, 0x66]
    else if u == 0x0D then [BACKSLASH, 0x72]
    else if u < SPACE || High(u) || Low(u) then UnicodeEscape(u)
    else [u]
  }

  function Escape(s: Text): Text {
    if s == [] then []
    else if StartsWithPair(s) then s[..2] + Escape(s[2..])
    else EscapeUnit(s[0]) + Escape(s[1..])
  }

  /** The JSON string that a string value is serialized to. */
  function Quote(s: Text): Text {
    [QUOTE] + Escape(s) + [QUOTE]
  }

  // ----- Reading a JSON string back -----

  function HexValue(u: Unit): Option<nat> {
    if 0x30 <= u <= 0x39 then Some(u - 0x30)
    else if 0x61 <= u <= 0x66 then Some(u - 0x61 + 10)
    else if 0x41 <= u <= 0x46 then Some(u - 0x41 + 10)
    else None
  }

  function SimpleEscape(u: Unit): Option<Unit> {
    if u == QUOTE || u == BACKSLASH || u == 0x2F then Some(u)
    else if u == 0x62 then Some(0x08)
    else if u == 0x66 then Some(0x0C)
    else if u == 0x6E then Some(0x0A)
    else if u == 0x72 then Some(0x0D)
    else if u == 0x74 then Some(0x09)
    else None
  }

  /** The first code unit that the contents of a JSON string stand for, and how long its form is. */
  function ReadUnit(t: Text): Option<(Unit, nat)>
    requires t != []
    ensures ReadUnit(t).Some? ==> 1 <= ReadUnit(t).value.1 <= |t|
  {
    if t[0] != BACKSLASH then
      if t[0] < SPACE || t[0] == QUOTE then None else Some((t[0], 1))
    else if |t| >= 2 && SimpleEscape(t[1]).Some? then Some((SimpleEscape(t[1]).value, 2))
    else if |t| >= 6 && t[1] == 0x75 && HexValue(t[2]).Some? && HexValue(t[3]).Some? && HexValue(t[4]).Some? && HexValue(t[5]).Some? then
      var u := HexValue(t[2]).value * 0x1000 + HexValue(t[3]).value * 0x100 + HexValue(t[4]).value * 16 + HexValue(t[5]).value;
      if u < 0x10000 then Some((u, 6)) else None
    else None
  }

  /** What the contents of a JSON string stand for, if they are well formed. */
  function Unescape(t: Text): Option<Text>
    decreases |t|
  {
    if t == [] then Some([])
    else
      var first := ReadUnit(t);
      if first.None? then None
      else
        var rest := Unescape(t[first.value.1..]);
        if rest.None? then None else Some([first.value.0] + rest.value)
  }

  lemma ReadEscapedUnit(u: Unit, rest: Text)
    requires !(High(u) || Low(u)) || EscapeUnit(u) == UnicodeEscape(u)
    ensures ReadUnit(EscapeUnit(u) + rest) == Some((u, |EscapeUnit(u)|))
  {
    if EscapeUnit(u) == UnicodeEscape(u) {
      HexDigitsRead(u);
    }
  }

  lemma HexDigitsRead(u: Unit)
    ensures forall d :: 0 <= d < 16 ==> HexValue(HexDigit(d)) == Some(d)
    ensures u / 0x1000 * 0x1000 + u / 0x100 % 16 * 0x100 + u / 16 % 16 * 16 + u % 16 == u
  {
    assert u / 0x100 == u / 0x1000 * 16 + u / 0x100 % 16;
    assert u / 16 == u / 0x100 * 16 + u / 16 % 16;
  }

  lemma UnescapeStep(t: Text, u: Unit, n: nat)
    requires t != [] && ReadUnit(t) == Some((u, n)) && Unescape(t[n..]).Some?
    ensures Unescape(t) == Some([u] + Unescape(t[n..]).value)
  {
  }

  /** Escaping loses nothing: a reader gets the string back. */
  lemma {:induction false} UnescapeEscape(s: Text)
    ensures Unescape(Escape(s)) == Some(s)
  {
    hide Unescape, ReadUnit, EscapeUnit;
    if s == [] {
      assert Unescape([]) == Some([]) by { UnescapeEmpty(); }
    } else if StartsWithPair(s) {
      UnescapeEscape(s[2..]);
      var tail := Escape(s[2..]);
      var t := Escape(s);
      assert t == [s[0], s[1]] + tail && t[1..] == [s[1]] + tail && t[1..][1..] == tail;
      ReadPlain(s[1], t[1..]);
      UnescapeStep(t[1..], s[1], 1);
      ReadPlain(s[0], t);
      UnescapeStep(t, s[0], 1);
      assert s == [s[0]] + ([s[1]] + s[2..]);
    } else {
      UnescapeEscape(s[1..]);
      var tail := Escape(s[1..]);
      EscapedIsEscape(s[0]);
      ReadEscapedUnit(s[0], tail);
      var n := |EscapeUnit(s[0])|;
      assert Escape(s) == EscapeUnit(s[0]) + tail && (EscapeUnit(s[0]) + tail)[n..] == tail;
      EscapeNotEmpty(s[0]);
      UnescapeStep(Escape(s), s[0], n);
      assert s == [s[0]] + s[1..];
    }
  }

  lemma UnescapeEmpty()
    ensures Unescape([]) == Some([])
  {
  }

  lemma EscapeNotEmpty(u: Unit)
    ensures EscapeUnit(u) != []
  {
  }

  lemma EscapedIsEscape(u: Unit)
    ensures !(High(u) || Low(u)) || EscapeUnit(u) == UnicodeEscape(u)
  {
  }

  lemma ReadPlain(u: Unit, t: Text)
    requires t != [] && t[0] == u && (High(u) || Low(u))
    ensures ReadUnit(t) == Some((u, 1))
  {
  }

  // ----- No shorter form reads back -----

  /** Every half of a surrogate pair stands with its other half. */
  predicate Paired(s: Text) {
    s == [] || if StartsWithPair(s) then Paired(s[2..]) else !High(s[0]) && !Low(s[0]) && Paired(s[1..])
  }

  lemma FirstRead(t: Text, s: Text) returns (n: nat)
    requires Unescape(t) == Some(s) && s != []
    ensures 1 <= n <= |t| && ReadUnit(t) == Some((s[0], n)) && Unescape(t[n..]) == Some(s[1..])
  {
    n := ReadUnit(t).value.1;
  }

  lemma UnitIsShortest(u: Unit, t: Text, n: nat)
    requires t != [] && ReadUnit(t) == Some((u, n)) && !High(u) && !Low(u)
    ensures |EscapeUnit(u)| <= n
  {
  }

  /** Of all texts that read back as a string without lone surrogates, its escaped form is a shortest one. */
  lemma {:induction false} EscapeIsShortest(s: Text, t: Text)
    requires Paired(s) && Unescape(t) == Some(s)
    ensures |Escape(s)| <= |t|
  {
    hide Unescape, ReadUnit, EscapeUnit;
    if s != [] {
      var n := FirstRead(t, s);
      if StartsWithPair(s) {
        var m := FirstRead(t[n..], s[1..]);
        assert s[1..][1..] == s[2..];
        EscapeIsShortest(s[2..], t[n..][m..]);
      } else {
        UnitIsShortest(s[0], t, n);
        EscapeIsShortest(s[1..], t[n..]);
      }
    }
  }

  /** A lone surrogate, and only it, is written as six units that are none, with small hexadecimal digits. */
  lemma LoneSurrogateIsEscaped(u: Unit)
    ensures if High(u) || Low(u) then |EscapeUnit(u)| == 6 && forall c :: c in EscapeUnit(u) ==> c < 0x80 && !(0x41 <= c <= 0x5A)
            else forall c :: c in EscapeUnit(u) ==> !High(c) && !Low(c)
  {
  }

  /** How many values an encoded form of so many bytes has room for (section 3 of RFC 3629). */
  function Room(bytes: nat): nat {
    if bytes == 0 then 0 else if bytes == 1 then 0x80 else if bytes == 2 then 0x800 else 0x10000
  }

  lemma UnitBytesIsLeast(u: Unit)
    ensures 1 <= UnitBytes(u) <= 3 && Room(UnitBytes(u) - 1) <= u < Room(UnitBytes(u))
  {
  }

  // ----- Bytes of texts put together -----

  /** No surrogate pair spans the border of the two texts. */
  predicate Apart(a: Text, b: Text) {
    a != [] && b != [] ==> !(High(a[|a| - 1]) && Low(b[0]))
  }

  lemma {:induction false} BytesAdd(a: Text, b: Text)
    requires Apart(a, b)
    ensures Utf8Bytes(a + b) == Utf8Bytes(a) + Utf8Bytes(b)
    decreases |a|
  {
    if a == [] {
      assert a + b == b;
    } else if StartsWithPair(a) {
      BytesAdd(a[2..], b);
      assert (a + b)[2..] == a[2..] + b;
    } else {
      assert !StartsWithPair(a + b);
      BytesAdd(a[1..], b);
      assert (a + b)[1..] == a[1..] + b;
    }
  }

  /** A quoted string counts for itself wherever it stands: quotes are no surrogates. */
  lemma QuotedCountsAlone(before: Text, s: Text, after: Text)
    ensures Utf8Bytes(before + Quote(s) + after) == Utf8Bytes(before) + Utf8Bytes(Quote(s)) + Utf8Bytes(after)
  {
    BytesAdd(before + Quote(s), after);
    BytesAdd(before, Quote(s));
  }
}
