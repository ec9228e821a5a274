/** Unpadded standard base64 (section 4 of RFC 4648), decoded the way Go's
    lenient decoder does: line breaks are skipped and the unused low bits of the
    last character are ignored. */
module Base64 {
  import opened Common

  type Sextet = x: int | 0 <= x < 64

  function Char(v: Sextet): (c: char)
    ensures Value(c) == Some(v)
    ensures c != '\n' && c != '\r' && c != '$'
  {
    if v < 26 then 'A' + v as char
    else if v < 52 then 'a' + (v - 26) as char
    else if v < 62 then '0' + (v - 52) as char
    else if v == 62 then '+' else '/'
  }

  function Value(c: char): Option<Sextet> {
    if 'A' <= c <= 'Z' then Some(c as int - 'A' as int)
    else if 'a' <= c <= 'z' then Some(c as int - 'a' as int + 26)
    else if '0' <= c <= '9' then Some(c as int - '0' as int + 52)
    else if c == '+' then Some(62)
    else if c == '/' then Some(63)
    else None
  }

  function Encode(data: seq<Byte>): string {
    if |data| == 0 then ""
    else if |data| == 1 then
      [Char(data[0] / 4), Char(data[0] % 4 * 16)]
    else if |data| == 2 then
      [Char(data[0] / 4), Char(data[0] % 4 * 16 + data[1] / 16), Char(data[1] % 16 * 4)]
    else
      [Char(data[0] / 4), Char(data[0] % 4 * 16 + data[1] / 16), Char(data[1] % 16 * 4 + data[2] / 64),
       Char(data[2] % 64)] + Encode(data[3..])
  }

  function SkipBreaks(s: string): string {
    if s == "" then ""
    else if s[0] == '\n' || s[0] == '\r' then SkipBreaks(s[1..])
    else [s[0]] + SkipBreaks(s[1..])
  }

  /** Every character's value, or None if some character has none. */
  function Values(s: string): Option<seq<Sextet>> {
    if s == "" then Some([])
    else
      var rest := Values(s[1..]);
      if Value(s[0]).None? || rest.None? then None else Some([Value(s[0]).value] + rest.value)
  }

  function First(a: Sextet, b: Sextet): Byte { (a as int) * 4 + (b as int) / 16 }

  function Second(b: Sextet, c: Sextet): Byte { (b as int) % 16 * 16 + (c as int) / 4 }

  function Third(c: Sextet, d: Sextet): Byte { (c as int) % 4 * 64 + (d as int) }

  /** Four characters make three bytes; a group of two or three makes one or two
      bytes, and a single character left over is an error. */
  function Group(v: seq<Sextet>): Option<seq<Byte>> {
    if |v| == 0 then Some([])
    else if |v| == 1 then None
    else if |v| == 2 then Some([First(v[0], v[1])])
    else if |v| == 3 then Some([First(v[0], v[1]), Second(v[1], v[2])])
    else
      var rest := Group(v[4..]);
      if rest.None? then None
      else Some([First(v[0], v[1]), Second(v[1], v[2]), Third(v[2], v[3])] + rest.value)
  }

  function Decode(s: string): Option<seq<Byte>> {
    var values := Values(SkipBreaks(s));
    if values.None? then None else Group(values.value)
  }

  // ---- Round trip

  /** The sextets of the encoding, before they are spelled. */
  function Sextets(data: seq<Byte>): seq<Sextet> {
    if |data| == 0 then []
    else if |data| == 1 then [data[0] / 4, data[0] % 4 * 16]
    else if |data| == 2 then [data[0] / 4, data[0] % 4 * 16 + data[1] / 16, data[1] % 16 * 4]
    else
      [data[0] / 4, data[0] % 4 * 16 + data[1] / 16, data[1] % 16 * 4 + data[2] / 64, data[2] % 64]
      + Sextets(data[3..])
  }

  function Spell(v: seq<Sextet>): string {
    if v == [] then "" else [Char(v[0])] + Spell(v[1..])
  }

  lemma {:induction false} SpellConcat(a: seq<Sextet>, b: seq<Sextet>)
    ensures Spell(a + b) == Spell(a) + Spell(b)
  {
    if a == [] {
      assert a + b == b;
    } else {
      assert (a + b)[1..] == a[1..] + b;
      SpellConcat(a[1..], b);
    }
  }

  lemma SpellFour(a: Sextet, b: Sextet, c: Sextet, d: Sextet)
    ensures Spell([a]) == [Char(a)] && Spell([a, b]) == [Char(a), Char(b)]
    ensures Spell([a, b, c]) == [Char(a), Char(b), Char(c)]
    ensures Spell([a, b, c, d]) == [Char(a), Char(b), Char(c), Char(d)]
  {
    assert [a][1..] == [] && [a, b][1..] == [b] && [a, b, c][1..] == [b, c] && [a, b, c, d][1..] == [b, c, d];
    assert [b][1..] == [] && [b, c][1..] == [c] && [b, c, d][1..] == [c, d] && [c][1..] == [] && [c, d][1..] == [d];
    assert [d][1..] == [];
    assert Spell([d]) == [Char(d)] && Spell([c]) == [Char(c)] && Spell([b]) == [Char(b)];
    assert Spell([c, d]) == [Char(c), Char(d)] && Spell([b, c]) == [Char(b), Char(c)];
    assert Spell([b, c, d]) == [Char(b), Char(c), Char(d)];
  }

  lemma {:induction false} EncodeSpells(data: seq<Byte>)
    ensures Encode(data) == Spell(Sextets(data))
  {
    var v := Sextets(data);
    if |data| >= 3 {
      EncodeSpells(data[3..]);
      SpellFour(v[0], v[1], v[2], v[3]);
      SpellConcat([v[0], v[1], v[2], v[3]], Sextets(data[3..]));
    } else if |data| == 2 {
      SpellFour(v[0], v[1], v[2], 0);
    } else if |data| == 1 {
      SpellFour(v[0], v[1], 0, 0);
    }
  }

  /** A spelling has no line breaks or dollars, and reads back. */
  lemma {:induction false} SpellReads(v: seq<Sextet>)
    ensures SkipBreaks(Spell(v)) == Spell(v) && Values(Spell(v)) == Some(v)
    ensures '$' !in Spell(v)
  {
    if v != [] {
      SpellReads(v[1..]);
      assert Spell(v)[1..] == Spell(v[1..]);
      assert [v[0]] + v[1..] == v;
    }
  }

  lemma BytesBack(a: Byte, b: Byte, c: Byte)
    ensures First(a / 4, a % 4 * 16 + b / 16) == a
    ensures Second(a % 4 * 16 + b / 16, b % 16 * 4 + c / 64) == b
    ensures Third(b % 16 * 4 + c / 64, c % 64) == c
  {}

  lemma GroupFour(v: seq<Sextet>, a: Byte, b: Byte, c: Byte, data: seq<Byte>)
    requires |v| >= 4 && First(v[0], v[1]) == a && Second(v[1], v[2]) == b && Third(v[2], v[3]) == c
    requires Group(v[4..]) == Some(data)
    ensures Group(v) == Some([a, b, c] + data)
  {}

  lemma TwoBytesBack(a: Byte, b: Byte)
    ensures First(a / 4, a % 4 * 16 + b / 16) == a
    ensures Second(a % 4 * 16 + b / 16, b % 16 * 4) == b
  {}

  lemma OneByteBack(a: Byte)
    ensures First(a / 4, a % 4 * 16) == a
  {}

  lemma GroupShort(u: Sextet, v: Sextet, w: Sextet, a: Byte, b: Byte)
    requires First(u, v) == a
    ensures Group([u, v]) == Some([a])
    ensures Second(v, w) == b ==> Group([u, v, w]) == Some([a, b])
  {}

  lemma OneByteGroup(a: Byte)
    ensures Group(Sextets([a])) == Some([a])
  {
    OneByteBack(a);
    var v := Sextets([a]);
    GroupShort(v[0], v[1], 0, a, 0);
    assert v == [v[0], v[1]];
  }

  lemma TwoByteGroup(a: Byte, b: Byte)
    ensures Group(Sextets([a, b])) == Some([a, b])
  {
    TwoBytesBack(a, b);
    var v := Sextets([a, b]);
    GroupShort(v[0], v[1], v[2], a, b);
    assert v == [v[0], v[1], v[2]];
  }

  lemma {:induction false} GroupSextets(data: seq<Byte>)
    ensures Group(Sextets(data)) == Some(data)
  {
    if |data| == 1 {
      OneByteGroup(data[0]);
      assert data == [data[0]];
    } else if |data| == 2 {
      TwoByteGroup(data[0], data[1]);
      assert data == [data[0], data[1]];
    } else if |data| > 2 {
      GroupSextets(data[3..]);
      var v := Sextets(data);
      BytesBack(data[0], data[1], data[2]);
      assert v[4..] == Sextets(data[3..]);
      GroupFour(v, data[0], data[1], data[2], data[3..]);
      assert data == [data[0], data[1], data[2]] + data[3..];
    }
  }

  /** Decoding undoes encoding, on every byte string. */
  lemma RoundTrip(data: seq<Byte>)
    ensures Decode(Encode(data)) == Some(data)
    ensures '$' !in Encode(data)
  {
    EncodeSpells(data);
    SpellReads(Sextets(data));
    GroupSextets(data);
  }

  /** The decoder is lenient: the low bits that the last character of a short
      group has to spare do not matter, so a value has several texts. */
  lemma SpareBitsIgnored(a: Sextet, b: Sextet, c: Sextet)
    requires b as int / 16 == c as int / 16
    ensures Decode(Spell([a, b])) == Decode(Spell([a, c])) == Some([First(a, b)])
  {
    SpellReads([a, b]);
    SpellReads([a, c]);
  }

  // ---- Known answers

  /** Table 1 of RFC 4648: three runs of consecutive characters and two more. */
  lemma CharsAreTheTable(v: Sextet)
    ensures Char(0) == 'A' && Char(25) == 'Z' && Char(26) == 'a' && Char(51) == 'z'
    ensures Char(52) == '0' && Char(61) == '9' && Char(62) == '+' && Char(63) == '/'
    ensures 0 < v < 62 && v != 26 && v != 52 ==> Char(v) as int == Char(v - 1) as int + 1
  {}

  lemma OneGroup(a: Byte, b: Byte, c: Byte, w: Sextet, x: Sextet, y: Sextet, z: Sextet)
    requires a / 4 == w && a % 4 * 16 + b / 16 == x && b % 16 * 4 + c / 64 == y && c % 64 == z
    ensures Encode([a, b, c]) == [Char(w), Char(x), Char(y), Char(z)]
  {
    assert [a, b, c][3..] == [];
  }

  /** Of the test vectors of section 10 of RFC 4648, without their padding: "f",
      "fo" and "foo". */
  lemma KnownAnswers()
    ensures Encode([102]) == "Zg" && Encode([102, 111]) == "Zm8" && Encode([102, 111, 111]) == "Zm9v"
  {
    ShortAnswers();
    LongAnswer();
  }

  lemma ShortAnswers()
    ensures Encode([102]) == "Zg" && Encode([102, 111]) == "Zm8"
  {}

  lemma LongAnswer()
    ensures Encode([102, 111, 111]) == "Zm9v"
  {
    OneGroup(102, 111, 111, 25, 38, 61, 47);
    assert Char(25) == 'Z' && Char(38) == 'm' && Char(61) == '9' && Char(47) == 'v';
  }

  lemma {:induction false} BreakSkipped(a: string, c: char, b: string)
    requires c == '\n' || c == '\r'
    ensures SkipBreaks(a + [c] + b) == SkipBreaks(a + b)
  {
    if a == "" {
      assert (a + [c] + b)[1..] == b && a + b == b;
    } else {
      assert (a + [c] + b)[1..] == a[1..] + [c] + b && (a + b)[1..] == a[1..] + b;
      BreakSkipped(a[1..], c, b);
    }
  }

  /** A line feed or a carriage return anywhere changes nothing. */
  lemma BreaksIgnored(a: string, c: char, b: string)
    requires c == '\n' || c == '\r'
    ensures Decode(a + [c] + b) == Decode(a + b)
  {
    BreakSkipped(a, c, b);
  }

  // ---- What decodes at all

  predicate InAlphabet(s: string) {
    forall i :: 0 <= i < |s| ==> Value(s[i]).Some?
  }

  lemma {:induction false} ValuesExist(s: string)
    ensures Values(s).Some? <==> InAlphabet(s)
    ensures Values(s).Some? ==> |Values(s).value| == |s|
  {
    if s != "" {
      ValuesExist(s[1..]);
      if InAlphabet(s) {
        assert forall i :: 0 <= i < |s[1..]| ==> s[1..][i] == s[i + 1];
      }
      if Values(s).Some? {
        forall i | 0 <= i < |s| ensures Value(s[i]).Some? {
          if i > 0 { assert s[1..][i - 1] == s[i]; }
        }
      }
    }
  }

  lemma FourMore(n: nat)
    ensures (n + 4) % 4 == n % 4 && (n + 4) * 3 / 4 == n * 3 / 4 + 3
  {}

  lemma {:induction false} GroupExists(v: seq<Sextet>)
    ensures Group(v).Some? <==> |v| % 4 != 1
    ensures Group(v).Some? ==> |Group(v).value| == |v| * 3 / 4
  {
    if |v| >= 4 {
      GroupExists(v[4..]);
      FourMore(|v| - 4);
    }
  }

  /** A text decodes exactly when, line breaks aside, it is all alphabet and does
      not leave a single character over; its length decides how many bytes. */
  lemma DecodesIff(s: string)
    ensures var text := SkipBreaks(s);
            && (Decode(s).Some? <==> InAlphabet(text) && |text| % 4 != 1)
            && (Decode(s).Some? ==> |Decode(s).value| == |text| * 3 / 4)
  {
    ValuesExist(SkipBreaks(s));
    if Values(SkipBreaks(s)).Some? {
      GroupExists(Values(SkipBreaks(s)).value);
    }
  }

  lemma {:induction false} AlphabetHasNoBreaks(s: string)
    requires InAlphabet(s)
    ensures SkipBreaks(s) == s
  {
    if s != "" {
      assert Value(s[0]).Some?;
      assert forall i :: 0 <= i < |s[1..]| ==> s[1..][i] == s[i + 1];
      AlphabetHasNoBreaks(s[1..]);
    }
  }
}
