/** Argon2id PHC strings: how they are printed, how strictly and how leniently
    they are parsed, and password verification on top. */
module Phc {
  import opened Common
  import opened Base64

  const MAX_MEMORY := 0x10_0000
  const MAX_TIME := 16
  const MAX_THREADS := 16
  const MAX_TAG := 1024
  const TWO_TO_THE_8 := 0x100
  const TWO_TO_THE_32 := 0x1_0000_0000
  const TWO_TO_THE_64 := 0x1_0000_0000_0000_0000

  // ---- Decimal numbers

  predicate IsDigit(c: char) { '0' <= c <= '9' }

  predicate AllDigits(s: string) {
    forall i :: 0 <= i < |s| ==> IsDigit(s[i])
  }

  function DigitChar(d: nat): (c: char)
    requires d < 10
    ensures IsDigit(c) && DigitValue(c) == d
  {
    '0' + d as char
  }

  function DigitValue(c: char): nat
    requires IsDigit(c)
  {
    c as int - '0' as int
  }

  /** %d of an unsigned number. */
  function Decimal(n: nat): (s: string)
    ensures s != "" && AllDigits(s)
  {
    if n < 10 then [DigitChar(n)] else Decimal(n / 10) + [DigitChar(n % 10)]
  }

  function Number(s: string): nat
    requires AllDigits(s)
  {
    if s == "" then 0 else Number(s[..|s| - 1]) * 10 + DigitValue(s[|s| - 1])
  }

  lemma {:induction false} DecimalRoundTrip(n: nat)
    ensures Number(Decimal(n)) == n
  {
    if n >= 10 {
      DecimalRoundTrip(n / 10);
      var s := Decimal(n);
      assert s[..|s| - 1] == Decimal(n / 10);
    } else {
      assert [DigitChar(n)][..0] == "";
    }
  }

  // ---- strings.Split(s, "$")

  function Split(s: string): (parts: seq<string>)
    ensures |parts| >= 1
  {
    if s == "" then [""]
    else
      var rest := Split(s[1..]);
      if s[0] == '$' then [""] + rest else [[s[0]] + rest[0]] + rest[1..]
  }

  function Join(parts: seq<string>): string
    requires |parts| >= 1
  {
    if |parts| == 1 then parts[0] else parts[0] + "$" + Join(parts[1..])
  }

  lemma {:induction false} SplitAfter(a: string, s: string)
    requires '$' !in a
    ensures Split(a + s) == [a + Split(s)[0]] + Split(s)[1..]
  {
    if a == "" {
      assert a + s == s && a + Split(s)[0] == Split(s)[0];
    } else {
      assert (a + s)[1..] == a[1..] + s;
      SplitAfter(a[1..], s);
      assert [a[0]] + (a[1..] + Split(s)[0]) == a + Split(s)[0];
    }
  }

  /** Splitting undoes joining parts that hold no dollar. */
  lemma {:induction false} SplitJoin(parts: seq<string>)
    requires |parts| >= 1 && forall i :: 0 <= i < |parts| ==> '$' !in parts[i]
    ensures Split(Join(parts)) == parts
  {
    if |parts| == 1 {
      SplitAfter(parts[0], "");
      assert parts[0] + "" == parts[0];
    } else {
      var rest := "$" + Join(parts[1..]);
      SplitJoin(parts[1..]);
      assert rest[1..] == Join(parts[1..]);
      assert Split(rest) == [""] + parts[1..];
      SplitAfter(parts[0], rest);
      assert Join(parts) == parts[0] + rest;
      assert parts[0] + "" == parts[0];
    }
  }

  lemma JoinCons(a: string, rest: seq<string>)
    requires |rest| >= 1
    ensures Join([a] + rest) == a + "$" + Join(rest)
  {
    assert ([a] + rest)[1..] == rest;
  }

  lemma PutInFront(c: char, a: string, b: string)
    ensures ([c] + a) + "$" + b == [c] + (a + "$" + b)
  {
    assert ([c] + a) + ("$" + b) == [c] + (a + ("$" + b));
    assert ([c] + a) + "$" + b == ([c] + a) + ("$" + b);
    assert a + "$" + b == a + ("$" + b);
  }

  lemma JoinLonger(c: char, a: string, tail: seq<string>)
    ensures Join([[c] + a] + tail) == [c] + Join([a] + tail)
  {
    if tail == [] {
      assert [[c] + a] + tail == [[c] + a] && [a] + tail == [a];
    } else {
      JoinCons([c] + a, tail);
      JoinCons(a, tail);
      PutInFront(c, a, Join(tail));
    }
  }

  /** And joining always undoes splitting. */
  lemma {:induction false} JoinSplit(s: string)
    ensures Join(Split(s)) == s
  {
    if s != "" {
      var rest := Split(s[1..]);
      JoinSplit(s[1..]);
      if s[0] == '$' {
        JoinCons("", rest);
        assert "" + "$" + Join(rest) == [s[0]] + s[1..];
      } else {
        JoinLonger(s[0], rest[0], rest[1..]);
        assert [rest[0]] + rest[1..] == rest;
      }
      assert s == [s[0]] + s[1..];
    }
  }

  lemma {:induction false} PartsHoldNoDollar(s: string)
    ensures forall i :: 0 <= i < |Split(s)| ==> '$' !in Split(s)[i]
  {
    if s != "" { PartsHoldNoDollar(s[1..]); }
  }

  // ---- fmt.Sscanf(s, "m=%d,t=%d,p=%d", ...)

  predicate IsSpace(c: char) {
    c == ' ' || '\t' <= c <= '\r' || c == '\U{85}' || c == '\U{A0}' || c == '\U{1680}'
    || '\U{2000}' <= c <= '\U{200A}' || c == '\U{2028}' || c == '\U{2029}' || c == '\U{202F}'
    || c == '\U{205F}' || c == '\U{3000}'
  }

  /** Blanks before a number are skipped; a line feed is an error. */
  function SkipSpace(s: string): Option<string> {
    if s == "" then Some(s)
    else if s[0] == '\n' then None
    else if IsSpace(s[0]) then SkipSpace(s[1..])
    else Some(s)
  }

  /** How many digits `s` starts with. */
  function DigitCount(s: string): (n: nat)
    ensures n <= |s| && AllDigits(s[..n])
  {
    if s == "" || !IsDigit(s[0]) then 0 else 1 + DigitCount(s[1..])
  }

  /** %d into a uint64: at least one digit, no sign, no overflow. */
  function ScanUint(s: string): Option<(nat, string)> {
    var t := SkipSpace(s);
    if t.None? then None
    else
      var n := DigitCount(t.value);
      if n == 0 || Number(t.value[..n]) >= TWO_TO_THE_64 then None
      else Some((Number(t.value[..n]), t.value[n..]))
  }

  function ScanLiteral(literal: string, s: string): Option<string> {
    if literal <= s then Some(s[|literal|..]) else None
  }

  /** A literal, then a number. */
  function ScanField(literal: string, s: string): Option<(nat, string)> {
    var t := ScanLiteral(literal, s);
    if t.None? then None else ScanUint(t.value)
  }

  /** Whatever follows the last number is ignored. */
  function ScanParams(s: string): Option<(nat, nat, nat)> {
    var m := ScanField("m=", s);
    if m.None? then None
    else
      var t := ScanField(",t=", m.value.1);
      if t.None? then None
      else
        var p := ScanField(",p=", t.value.1);
        if p.None? then None else Some((m.value.0, t.value.0, p.value.0))
  }

  lemma {:induction false} DigitsThen(a: string, rest: string)
    requires AllDigits(a) && (rest == "" || !IsDigit(rest[0]))
    ensures DigitCount(a + rest) == |a|
  {
    if a == "" {
      assert a + rest == rest;
    } else {
      assert (a + rest)[1..] == a[1..] + rest;
      DigitsThen(a[1..], rest);
    }
  }

  lemma FieldRoundTrip(literal: string, n: nat, rest: string)
    requires n < TWO_TO_THE_64 && (rest == "" || !IsDigit(rest[0]))
    ensures ScanField(literal, literal + Decimal(n) + rest) == Some((n, rest))
  {
    var digits := Decimal(n);
    var s := literal + digits + rest;
    assert s == literal + (digits + rest);
    assert s[|literal|..] == digits + rest;
    assert IsDigit((digits + rest)[0]);
    assert SkipSpace(digits + rest) == Some(digits + rest);
    DigitsThen(digits, rest);
    assert (digits + rest)[..|digits|] == digits && (digits + rest)[|digits|..] == rest;
    DecimalRoundTrip(n);
  }

  function PrintParams(m: nat, t: nat, p: nat): string {
    "m=" + Decimal(m) + (",t=" + Decimal(t) + (",p=" + Decimal(p) + ""))
  }

  lemma ParamsRoundTrip(m: nat, t: nat, p: nat)
    requires m < TWO_TO_THE_64 && t < TWO_TO_THE_64 && p < TWO_TO_THE_64
    ensures ScanParams(PrintParams(m, t, p)) == Some((m, t, p))
  {
    var third := ",p=" + Decimal(p) + "";
    var second := ",t=" + Decimal(t) + third;
    FieldRoundTrip("m=", m, second);
    FieldRoundTrip(",t=", t, third);
    FieldRoundTrip(",p=", p, "");
  }

  // ---- What Sscanf accepts

  /** The white space of the Unicode standard, but for the line feed. */
  predicate BlankCode(code: int) {
    code in {0x09, 0x0B, 0x0C, 0x0D, 0x20, 0x85, 0xA0, 0x1680, 0x2028, 0x2029, 0x202F, 0x205F, 0x3000}
    || 0x2000 <= code <= 0x200A
  }

  ghost predicate Blank(s: string) {
    forall i :: 0 <= i < |s| ==> BlankCode(s[i] as int)
  }

  /** Blanks, then digits that make a 64-bit number, then what does not go on
      with a digit. */
  ghost predicate Reads(s: string, blank: string, digits: string, n: nat, rest: string) {
    && s == blank + digits + rest && Blank(blank) && digits != "" && AllDigits(digits)
    && Number(digits) == n < TWO_TO_THE_64 && (rest == "" || !('0' <= rest[0] <= '9'))
  }

  lemma SpacesAreBlanks(c: char)
    ensures IsSpace(c) && c != '\n' <==> BlankCode(c as int)
  {}

  lemma {:induction false} SkipsBlanks(blank: string, rest: string)
    requires Blank(blank) && rest != "" && IsDigit(rest[0])
    ensures SkipSpace(blank + rest) == Some(rest)
  {
    if blank == "" {
      assert blank + rest == rest;
    } else {
      assert (blank + rest)[1..] == blank[1..] + rest;
      SpacesAreBlanks(blank[0]);
      SkipsBlanks(blank[1..], rest);
    }
  }

  lemma {:induction false} SkippedAreBlanks(s: string) returns (blank: string)
    requires SkipSpace(s).Some?
    ensures Blank(blank) && s == blank + SkipSpace(s).value
  {
    if s == "" || !IsSpace(s[0]) {
      blank := "";
    } else {
      SpacesAreBlanks(s[0]);
      var tail := SkippedAreBlanks(s[1..]);
      blank := [s[0]] + tail;
      assert s == [s[0]] + s[1..];
    }
  }

  lemma {:induction false} DigitsEnd(s: string)
    ensures DigitCount(s) < |s| ==> !IsDigit(s[DigitCount(s)])
  {
    if s != "" && IsDigit(s[0]) { DigitsEnd(s[1..]); }
  }

  lemma ScanReads(s: string, n: nat, rest: string) returns (blank: string, digits: string)
    requires ScanUint(s) == Some((n, rest))
    ensures Reads(s, blank, digits, n, rest)
  {
    var t := SkipSpace(s).value;
    blank := SkippedAreBlanks(s);
    digits := t[..DigitCount(t)];
    DigitsEnd(t);
    assert t == digits + rest;
  }

  lemma ReadScans(s: string, blank: string, digits: string, n: nat, rest: string)
    requires Reads(s, blank, digits, n, rest)
    ensures ScanUint(s) == Some((n, rest))
  {
    assert s == blank + (digits + rest);
    assert IsDigit((digits + rest)[0]);
    SkipsBlanks(blank, digits + rest);
    DigitsThen(digits, rest);
    assert (digits + rest)[..|digits|] == digits && (digits + rest)[|digits|..] == rest;
  }

  /** A literal, then a number as above. */
  ghost predicate ReadsField(literal: string, s: string, n: nat, rest: string) {
    exists tail, blank, digits :: s == literal + tail && Reads(tail, blank, digits, n, rest)
  }

  lemma ScanFieldIff(literal: string, s: string, n: nat, rest: string)
    ensures ScanField(literal, s) == Some((n, rest)) <==> ReadsField(literal, s, n, rest)
  {
    if ScanField(literal, s) == Some((n, rest)) {
      var tail := s[|literal|..];
      var blank, digits := ScanReads(tail, n, rest);
      assert s == literal + tail && Reads(tail, blank, digits, n, rest);
    }
    if tail, blank, digits :| s == literal + tail && Reads(tail, blank, digits, n, rest) {
      assert s[|literal|..] == tail;
      ReadScans(tail, blank, digits, n, rest);
    }
  }

  /** The three numbers are scanned exactly from the texts that spell them one
      after the other, with blanks before each and anything behind the last. */
  lemma ScannedIffSpelled(s: string, m: nat, t: nat, p: nat)
    ensures ScanParams(s) == Some((m, t, p)) <==>
              exists afterM, afterT, rest ::
                && ReadsField("m=", s, m, afterM) && ReadsField(",t=", afterM, t, afterT)
                && ReadsField(",p=", afterT, p, rest)
  {
    if ScanParams(s) == Some((m, t, p)) {
      var afterM := ScanField("m=", s).value.1;
      var afterT := ScanField(",t=", afterM).value.1;
      var rest := ScanField(",p=", afterT).value.1;
      ScanFieldIff("m=", s, m, afterM);
      ScanFieldIff(",t=", afterM, t, afterT);
      ScanFieldIff(",p=", afterT, p, rest);
    }
    if afterM, afterT, rest :| ReadsField("m=", s, m, afterM) && ReadsField(",t=", afterM, t, afterT)
                               && ReadsField(",p=", afterT, p, rest) {
      ScanFieldIff("m=", s, m, afterM);
      ScanFieldIff(",t=", afterM, t, afterT);
      ScanFieldIff(",p=", afterT, p, rest);
    }
  }

  lemma ConcatAvoids(a: string, b: string)
    requires '$' !in a && '$' !in b
    ensures '$' !in a + b
  {}

  lemma DigitsAvoid(s: string)
    requires AllDigits(s)
    ensures '$' !in s
  {}

  lemma ParamsAvoid(m: nat, t: nat, p: nat)
    ensures '$' !in PrintParams(m, t, p)
  {
    DigitsAvoid(Decimal(m));
    DigitsAvoid(Decimal(t));
    DigitsAvoid(Decimal(p));
    ConcatAvoids(",p=", Decimal(p));
    ConcatAvoids(",p=" + Decimal(p), "");
    ConcatAvoids(",t=", Decimal(t));
    ConcatAvoids(",t=" + Decimal(t), ",p=" + Decimal(p) + "");
    ConcatAvoids("m=", Decimal(m));
    ConcatAvoids("m=" + Decimal(m), ",t=" + Decimal(t) + (",p=" + Decimal(p) + ""));
  }

  // ---- The PHC string

  datatype Params = Params(time: nat, memory: nat, threads: nat, salt: seq<Byte>, tag: seq<Byte>, tagLen: nat)

  /** The first three parts of every accepted string. */
  predicate Header(parts: seq<string>) {
    |parts| == 6 && parts[0] == "" && parts[1] == "argon2id" && parts[2] == "v=19"
  }

  /** Go's conversions keep the low bits. */
  function Uint32(n: nat): (r: nat)
    ensures n < TWO_TO_THE_32 ==> r == n
  {
    n % TWO_TO_THE_32
  }

  function Uint8(n: nat): (r: nat)
    ensures n < TWO_TO_THE_8 ==> r == n
  {
    n % TWO_TO_THE_8
  }

  /** encodePHC */
  function EncodePHC(time: nat, memory: nat, threads: nat, salt: seq<Byte>, tag: seq<Byte>): string {
    "$argon2id$v=19$" + (PrintParams(memory, time, threads) + "$" + (Encode(salt) + "$" + Encode(tag)))
  }

  predicate InBounds(time: nat, memory: nat, threads: nat, tagLen: nat) {
    1 <= memory <= MAX_MEMORY && 1 <= time <= MAX_TIME && 1 <= threads <= MAX_THREADS && 1 <= tagLen <= MAX_TAG
  }

  /** parsePHC after the split, with its conversions to 32 and 8 bits. */
  function ParseParts(parts: seq<string>): Option<Params> {
    if !Header(parts) then None
    else
      var scanned := ScanParams(parts[3]);
      if scanned.None? then None
      else
        var (m, t, p) := scanned.value;
        if m == 0 || m > MAX_MEMORY || t == 0 || t > MAX_TIME || p == 0 || p > MAX_THREADS then None
        else
          var salt, tag := Decode(parts[4]), Decode(parts[5]);
          if salt.None? || tag.None? then None
          else if |tag.value| < 1 || |tag.value| > MAX_TAG then None
          else
            Some(Params(Uint32(t), Uint32(m), Uint8(p), salt.value, tag.value, Uint32(|tag.value|)))
  }

  function ParsePHC(s: string): Option<Params> {
    ParseParts(Split(s))
  }

  lemma PrintedHeader(rest: string)
    ensures "" + "$" + ("argon2id" + "$" + ("v=19" + "$" + rest)) == "$argon2id$v=19$" + rest
  {}

  lemma SplitsAsPrinted(time: nat, memory: nat, threads: nat, salt: seq<Byte>, tag: seq<Byte>)
    ensures Split(EncodePHC(time, memory, threads, salt, tag))
         == ["", "argon2id", "v=19", PrintParams(memory, time, threads), Encode(salt), Encode(tag)]
  {
    RoundTrip(salt);
    RoundTrip(tag);
    ParamsAvoid(memory, time, threads);
    JoinedSplits(PrintParams(memory, time, threads), Encode(salt), Encode(tag));
  }

  lemma JoinedSplits(params: string, salt: string, tag: string)
    requires '$' !in params && '$' !in salt && '$' !in tag
    ensures Split("$argon2id$v=19$" + (params + "$" + (salt + "$" + tag)))
         == ["", "argon2id", "v=19", params, salt, tag]
  {
    JoinSix("", "argon2id", "v=19", params, salt, tag);
    PrintedHeader(params + "$" + (salt + "$" + tag));
    SplitJoin(["", "argon2id", "v=19", params, salt, tag]);
  }

  lemma JoinSix(a: string, b: string, c: string, d: string, e: string, f: string)
    ensures Join([a, b, c, d, e, f]) == a + "$" + (b + "$" + (c + "$" + (d + "$" + (e + "$" + f))))
  {
    assert [a, b, c, d, e, f][1..] == [b, c, d, e, f] && [b, c, d, e, f][1..] == [c, d, e, f];
    assert [c, d, e, f][1..] == [d, e, f] && [d, e, f][1..] == [e, f] && [e, f][1..] == [f];
    assert Join([e, f]) == e + "$" + f;
    assert Join([d, e, f]) == d + "$" + (e + "$" + f);
    assert Join([c, d, e, f]) == c + "$" + (d + "$" + (e + "$" + f));
    assert Join([b, c, d, e, f]) == b + "$" + (c + "$" + (d + "$" + (e + "$" + f)));
  }

  /** On well-formed parts the bounds decide, and the conversions lose nothing. */
  lemma PartsParse(parts: seq<string>, time: nat, memory: nat, threads: nat, salt: seq<Byte>, tag: seq<Byte>)
    requires Header(parts) && ScanParams(parts[3]) == Some((memory, time, threads))
    requires Decode(parts[4]) == Some(salt) && Decode(parts[5]) == Some(tag)
    ensures ParseParts(parts)
         == if InBounds(time, memory, threads, |tag|) then Some(Params(time, memory, threads, salt, tag, |tag|))
            else None
  {}

  lemma SplitParses(s: string, params: string, saltText: string, tagText: string,
                    time: nat, memory: nat, threads: nat, salt: seq<Byte>, tag: seq<Byte>)
    requires Split(s) == ["", "argon2id", "v=19", params, saltText, tagText]
    requires ScanParams(params) == Some((memory, time, threads))
    requires Decode(saltText) == Some(salt) && Decode(tagText) == Some(tag)
    ensures ParsePHC(s)
         == if InBounds(time, memory, threads, |tag|) then Some(Params(time, memory, threads, salt, tag, |tag|))
            else None
  {
    PartsParse(Split(s), time, memory, threads, salt, tag);
  }

  /** What is printed parses back to exactly those values if they are in bounds,
      and is refused otherwise. */
  lemma PrintedParsesIffInBounds(time: nat, memory: nat, threads: nat, salt: seq<Byte>, tag: seq<Byte>)
    requires time < TWO_TO_THE_32 && memory < TWO_TO_THE_32 && threads < TWO_TO_THE_8
    ensures ParsePHC(EncodePHC(time, memory, threads, salt, tag))
         == if InBounds(time, memory, threads, |tag|) then Some(Params(time, memory, threads, salt, tag, |tag|))
            else None
  {
    ParamsRoundTrip(memory, time, threads);
    SplitsAsPrinted(time, memory, threads, salt, tag);
    RoundTrip(salt);
    RoundTrip(tag);
    SplitParses(EncodePHC(time, memory, threads, salt, tag), PrintParams(memory, time, threads),
                Encode(salt), Encode(tag), time, memory, threads, salt, tag);
  }

  /** `s` is a header and three segments that read as the values of `r`, all of
      them in bounds: at most a gibibyte of memory, sixteen passes and threads,
      and a kilobyte of tag, and none of them zero. */
  ghost predicate Spells(s: string, params: string, salt: string, tag: string, r: Params) {
    && '$' !in params && '$' !in salt && '$' !in tag
    && s == "$argon2id$v=19$" + (params + "$" + (salt + "$" + tag))
    && ScanParams(params) == Some((r.memory, r.time, r.threads))
    && Decode(salt) == Some(r.salt) && Decode(tag) == Some(r.tag)
    && 1 <= r.memory <= 1024 * 1024 && 1 <= r.time <= 16 && 1 <= r.threads <= 16
    && 1 <= r.tagLen <= 1024 && r.tagLen == |r.tag|
  }

  /** What was accepted is in bounds, so the narrowing conversions lost
      nothing: the values are those scanned. */
  lemma AcceptedInBounds(s: string)
    requires ParsePHC(s).Some?
    ensures var r := ParsePHC(s).value;
            && InBounds(r.time, r.memory, r.threads, r.tagLen) && r.tagLen == |r.tag|
            && Header(Split(s)) && ScanParams(Split(s)[3]) == Some((r.memory, r.time, r.threads))
            && Decode(Split(s)[4]) == Some(r.salt) && Decode(Split(s)[5]) == Some(r.tag)
  {}

  lemma SegmentsSpell(s: string, parts: seq<string>)
    requires parts == Split(s) && Header(parts)
    ensures s == "$argon2id$v=19$" + (parts[3] + "$" + (parts[4] + "$" + parts[5]))
  {
    JoinSplit(s);
    assert parts == ["", "argon2id", "v=19", parts[3], parts[4], parts[5]];
    JoinSix("", "argon2id", "v=19", parts[3], parts[4], parts[5]);
    PrintedHeader(parts[3] + "$" + (parts[4] + "$" + parts[5]));
  }

  /** Exactly the strings that spell bounded values are accepted, as those
      values. */
  lemma AcceptedIffSpelled(s: string, r: Params)
    ensures ParsePHC(s) == Some(r) <==> exists params, salt, tag :: Spells(s, params, salt, tag, r)
  {
    if ParsePHC(s) == Some(r) {
      var parts := Split(s);
      AcceptedInBounds(s);
      PartsHoldNoDollar(s);
      SegmentsSpell(s, parts);
      assert Spells(s, parts[3], parts[4], parts[5], r);
    }
    if params, salt, tag :| Spells(s, params, salt, tag, r) {
      JoinedSplits(params, salt, tag);
      SplitParses(s, params, salt, tag, r.time, r.memory, r.threads, r.salt, r.tag);
    }
  }

  /** Printing what was parsed, and parsing it again, gives the same values:
      a lenient text and its canonical text verify alike. */
  lemma ReprintParses(s: string)
    requires ParsePHC(s).Some?
    ensures var r := ParsePHC(s).value;
            ParsePHC(EncodePHC(r.time, r.memory, r.threads, r.salt, r.tag)) == Some(r)
  {
    AcceptedInBounds(s);
    var r := ParsePHC(s).value;
    PrintedParsesIffInBounds(r.time, r.memory, r.threads, r.salt, r.tag);
  }

  // ---- Verification

  const TIME := 2
  const MEMORY := 19456
  const THREADS := 1
  const KEY_LEN := 32

  /** Argon2id itself: password, salt, time, memory, threads, tag length. */
  type Kdf = (string, seq<Byte>, nat, nat, nat, nat) -> seq<Byte>

  ghost predicate SizedTags(kdf: Kdf) {
    forall password, salt, t, m, p, n :: |kdf(password, salt, t, m, p, n)| == n
  }

  /** hashWithParams; the salt is drawn at random. */
  function Hash(kdf: Kdf, password: string, salt: seq<Byte>, time: nat, memory: nat, threads: nat): string {
    EncodePHC(time, memory, threads, salt, kdf(password, salt, time, memory, threads, KEY_LEN))
  }

  datatype Verification = Verification(ok: bool, needsRehash: bool)

  function Verify(kdf: Kdf, stored: string, candidate: string): Verification {
    var params := ParsePHC(stored);
    if params.None? then Verification(false, false)
    else
      var r := params.value;
      if kdf(candidate, r.salt, r.time, r.memory, r.threads, r.tagLen) != r.tag then Verification(false, false)
      else Verification(true, r.time != TIME || r.memory != MEMORY || r.threads != THREADS)
  }

  /** A stored hash made with any accepted parameters verifies a candidate just
      when their keys agree, and asks for a rehash just when it does and its
      parameters are not the pinned ones. A hash the bounds refuse never does. */
  lemma HashVerifies(kdf: Kdf, password: string, salt: seq<Byte>, time: nat, memory: nat, threads: nat,
                     candidate: string)
    requires SizedTags(kdf) && time < TWO_TO_THE_32 && memory < TWO_TO_THE_32 && threads < TWO_TO_THE_8
    ensures var v := Verify(kdf, Hash(kdf, password, salt, time, memory, threads), candidate);
            && (v.ok <==> InBounds(time, memory, threads, KEY_LEN)
                          && kdf(candidate, salt, time, memory, threads, KEY_LEN)
                          == kdf(password, salt, time, memory, threads, KEY_LEN))
            && (v.needsRehash <==> v.ok && (time, memory, threads) != (TIME, MEMORY, THREADS))
  {
    PrintedParsesIffInBounds(time, memory, threads, salt, kdf(password, salt, time, memory, threads, KEY_LEN));
  }

  // ---- The dummy hash

  const DUMMY_SALT := "AQIDBAUGBwgJCgsMDQ4PEA"
  const DUMMY_TAG := "l/JyVVuBVRBthgGcJA7KioGWEAiWM7dyjaDsebKFB6w"
  const DUMMY_HASH := "$argon2id$v=19$" + ("m=19456,t=2,p=1" + "$" + (DUMMY_SALT + "$" + DUMMY_TAG))

  lemma DummyTexts()
    ensures InAlphabet(DUMMY_SALT) && InAlphabet(DUMMY_TAG) && |DUMMY_SALT| == 22 && |DUMMY_TAG| == 43
  {}

  lemma {:induction false} AlphabetAvoids(s: string)
    requires InAlphabet(s)
    ensures '$' !in s
  {
    forall i | 0 <= i < |s| ensures s[i] != '$' {
      assert Value(s[i]).Some?;
    }
  }

  lemma PinnedDecimals()
    ensures Decimal(MEMORY) == "19456" && Decimal(TIME) == "2" && Decimal(THREADS) == "1"
  {
    assert Decimal(19) == "19";
    assert Decimal(194) == "194";
    assert Decimal(1945) == "1945";
  }

  lemma PinnedParams()
    ensures PrintParams(MEMORY, TIME, THREADS) == "m=19456,t=2,p=1"
  {
    PinnedDecimals();
  }

  /** Any texts of the pinned lengths make an acceptable pinned hash. */
  lemma PinnedTextParses(salt: string, tag: string)
    requires InAlphabet(salt) && InAlphabet(tag) && |salt| == 22 && |tag| == 43
    ensures var r := ParsePHC("$argon2id$v=19$" + ("m=19456,t=2,p=1" + "$" + (salt + "$" + tag)));
            r.Some? && r.value.time == TIME && r.value.memory == MEMORY && r.value.threads == THREADS
            && |r.value.salt| == 16 && r.value.tagLen == KEY_LEN
  {
    PinnedParams();
    ParamsRoundTrip(MEMORY, TIME, THREADS);
    ParamsAvoid(MEMORY, TIME, THREADS);
    AlphabetAvoids(salt);
    AlphabetAvoids(tag);
    JoinedSplits("m=19456,t=2,p=1", salt, tag);
    AlphabetHasNoBreaks(salt);
    AlphabetHasNoBreaks(tag);
    DecodesIff(salt);
    DecodesIff(tag);
    SplitParses("$argon2id$v=19$" + ("m=19456,t=2,p=1" + "$" + (salt + "$" + tag)), "m=19456,t=2,p=1", salt, tag,
                TIME, MEMORY, THREADS, Decode(salt).value, Decode(tag).value);
  }

  /** An unknown address costs the same work: the dummy hash is accepted, with
      the pinned parameters and a salt and tag of the usual lengths. */
  lemma DummyIsWellFormed()
    ensures var r := ParsePHC(DUMMY_HASH);
            r.Some? && r.value.time == TIME && r.value.memory == MEMORY && r.value.threads == THREADS
            && |r.value.salt| == 16 && r.value.tagLen == KEY_LEN
  {
    DummyTexts();
    PinnedTextParses(DUMMY_SALT, DUMMY_TAG);
  }
}
