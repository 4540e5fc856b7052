/**
 * Base 64 encoding with the URL and filename safe alphabet of section 5 of
 * RFC 4648 (`-` and `_` in place of `+` and `/`), with `=` padding, as
 * Python's `base64.urlsafe_b64encode` / `urlsafe_b64decode` apply it to a
 * byte string. The file cache names its files after this encoding of the
 * cache key, so the round trip below is what makes distinct keys land in
 * distinct files and lets a directory listing give the keys back.
 */
module Base64Url {
  import opened Py
  import opened Strs

  /** A 6-bit value. */
  type Sextet = x: int | 0 <= x < 64

  /** The 64 characters of the alphabet in section 5 of RFC 4648. */
  predicate IsAlphabetChar(c: char) {
    ('A' <= c <= 'Z') || ('a' <= c <= 'z') || ('0' <= c <= '9') || c == '-' || c == '_'
  }

  /** The character of a 6-bit value: A-Z, a-z, 0-9, '-', '_' for 0..63. */
  function SextetChar(x: Sextet): (c: char)
    ensures IsAlphabetChar(c)
  {
    if x < 26 then ('A' as int + x) as char
    else if x < 52 then ('a' as int + x - 26) as char
    else if x < 62 then ('0' as int + x - 52) as char
    else if x == 62 then '-'
    else '_'
  }

  /** The 6-bit value of an alphabet character; None for any other character. */
  function CharSextet(c: char): (r: Option<Sextet>)
    ensures r.Some? <==> IsAlphabetChar(c)
  {
    if 'A' <= c <= 'Z' then Some(c as int - 'A' as int)
    else if 'a' <= c <= 'z' then Some(c as int - 'a' as int + 26)
    else if '0' <= c <= '9' then Some(c as int - '0' as int + 52)
    else if c == '-' then Some(62)
    else if c == '_' then Some(63)
    else None
  }

  /** Each alphabet character gives back the 6-bit value it stands for. */
  lemma SextetRoundTrip(x: Sextet)
    ensures CharSextet(SextetChar(x)) == Some(x)
  {
  }

  /** The four 6-bit values of a group of three bytes. */
  function GroupValues(b0: byte, b1: byte, b2: byte): (r: seq<Sextet>)
    ensures |r| == 4
  {
    var y0, y1, y2 := b0 as int, b1 as int, b2 as int;
    [y0 / 4, (y0 % 4) * 16 + y1 / 16, (y1 % 16) * 4 + y2 / 64, y2 % 64]
  }

  /**
   * The 6-bit values an encoding writes: four per group of three bytes, and
   * two or three for a final one or two bytes, whose missing bits are zero.
   */
  function Values(b: seq<byte>): seq<Sextet>
    decreases |b|
  {
    if |b| == 0 then []
    else if |b| == 1 then
      var y0 := b[0] as int;
      [y0 / 4, (y0 % 4) * 16]
    else if |b| == 2 then
      var y0, y1 := b[0] as int, b[1] as int;
      [y0 / 4, (y0 % 4) * 16 + y1 / 16, (y1 % 16) * 4]
    else
      GroupValues(b[0], b[1], b[2]) + Values(b[3..])
  }

  /** The characters of a sequence of 6-bit values. */
  function Text(xs: seq<Sextet>): (r: string)
    ensures |r| == |xs| && forall i | 0 <= i < |xs| :: r[i] == SextetChar(xs[i])
    decreases |xs|
  {
    if xs == [] then "" else [SextetChar(xs[0])] + Text(xs[1..])
  }

  /** The '=' characters that complete the last group of an encoding of `n` bytes. */
  function Padding(n: nat): string {
    if n % 3 == 1 then "==" else if n % 3 == 2 then "=" else ""
  }

  /** The encoding of a byte sequence: its 6-bit values as characters, then the padding. */
  function EncodeBytes(b: seq<byte>): string {
    Text(Values(b)) + Padding(|b|)
  }

  /** `base64.urlsafe_b64encode(s)`: four characters per started group of three bytes, all from the URL-safe alphabet or '='. */
  function Encode(s: ByteString): (r: string)
    ensures |r| == 4 * ((|s| + 2) / 3)
    ensures forall i | 0 <= i < |r| :: IsAlphabetChar(r[i]) || r[i] == '='
  {
    EncodeBytesLength(Bytes(s));
    EncodeBytesAlphabet(Bytes(s));
    EncodeBytes(Bytes(s))
  }

  // ---------------------------------------------------------------- decoding

  /**
   * The value `urlsafe_b64decode` reads from a character. It maps '-' and '_'
   * to '+' and '/' and decodes with the alphabet of section 4 of RFC 4648,
   * so both spellings of 62 and 63 are read.
   */
  function DecodeValue(c: char): (r: Option<Sextet>)
    ensures IsAlphabetChar(c) ==> r == CharSextet(c)
    ensures r.None? <==> !IsAlphabetChar(c) && c != '+' && c != '/'
  {
    if c == '+' then Some(62) else if c == '/' then Some(63) else CharSextet(c)
  }

  /** A character `a2b_base64` does not skip: a data character or the pad. */
  predicate Significant(c: char) {
    DecodeValue(c).Some? || c == '='
  }

  /** The first character of `t` that is not skipped, if any. */
  function NextSignificant(t: string): Option<char>
    decreases |t|
  {
    if t == [] then None else if Significant(t[0]) then Some(t[0]) else NextSignificant(t[1..])
  }

  /**
   * The data values `a2b_base64` reads from `t`, when `q` values (mod 4)
   * of the current group come before it, and whether a pad sequence ended
   * the input. Any character outside the alphabet is skipped. A '=' is also
   * skipped when it follows fewer than two values of a group, or exactly two
   * and the next character not skipped is not '='. Any other '=' ends the input.
   */
  function Scan(t: string, q: nat): (seq<Sextet>, bool)
    requires q < 4
    decreases |t|
  {
    if t == [] then ([], false)
    else if t[0] == '=' then
      if q < 2 || (q == 2 && NextSignificant(t[1..]) != Some('=')) then Scan(t[1..], q)
      else ([], true)
    else
      match DecodeValue(t[0])
      case None => Scan(t[1..], q)
      case Some(v) =>
        var rest := Scan(t[1..], (q + 1) % 4);
        ([v] + rest.0, rest.1)
  }

  function First(x0: Sextet, x1: Sextet): byte { (x0 * 4 + x1 / 16) as byte }
  function Second(x1: Sextet, x2: Sextet): byte { ((x1 % 16) * 16 + x2 / 4) as byte }
  function Third(x2: Sextet, x3: Sextet): byte { ((x2 % 4) * 64 + x3) as byte }

  /**
   * The bytes `a2b_base64` emits for the values read: 8 bits out whenever 8
   * are in, so four values make three bytes and the bits of an unfinished
   * byte at the end are dropped.
   */
  function Assemble(xs: seq<Sextet>): (r: seq<byte>)
    ensures |r| == |xs| * 3 / 4
    decreases |xs|
  {
    if |xs| >= 4 then [First(xs[0], xs[1]), Second(xs[1], xs[2]), Third(xs[2], xs[3])] + Assemble(xs[4..])
    else if |xs| == 3 then [First(xs[0], xs[1]), Second(xs[1], xs[2])]
    else if |xs| == 2 then [First(xs[0], xs[1])]
    else []
  }

  /**
   * `base64.urlsafe_b64decode(t)` of Python 2, which goes through
   * `binascii.a2b_base64`: None where that raises "Incorrect padding",
   * which is when the values read leave bits over and no pad sequence
   * ended the input.
   */
  function Decode(t: string): (r: Option<ByteString>)
    ensures r.Some? ==> |r.value| == |Scan(t, 0).0| * 3 / 4
    ensures r.None? <==> !Scan(t, 0).1 && |Scan(t, 0).0| % 4 != 0
  {
    var (xs, padded) := Scan(t, 0);
    if !padded && |xs| % 4 != 0 then None else Some(Chars(Assemble(xs)))
  }

  /** '+' reads as '-' does, so both alphabets of RFC 4648 decode alike. */
  lemma DecodeReadsBothAlphabets()
    ensures Decode("ab+c") == Decode("ab-c") == Some(Chars([105, 191, 156]))
  {
    ScanWithValue62('+');
    ScanWithValue62('-');
    var four: seq<Sextet> := [26, 27, 62, 28];
    assert four[4..] == [];
    assert Assemble(four) == [105, 191, 156];
  }

  /** "ab", a character of value 62, then "c": four values and no padding. */
  lemma ScanWithValue62(c: char)
    requires c == '+' || c == '-'
    ensures Scan(['a', 'b', c, 'c'], 0).0 == [26, 27, 62, 28] && !Scan(['a', 'b', c, 'c'], 0).1
  {
    ScanStep('c', "", 3, 28);
    assert Scan("c", 3).0 == [28] && !Scan("c", 3).1;
    ScanStep(c, "c", 2, 62);
    assert Scan([c] + "c", 2).0 == [62, 28];
    ScanStep('b', [c] + "c", 1, 27);
    assert Scan(['b'] + ([c] + "c"), 1).0 == [27, 62, 28];
    ScanStep('a', ['b'] + ([c] + "c"), 0, 26);
    assert ['a', 'b', c, 'c'] == ['a'] + (['b'] + ([c] + "c"));
  }

  /** A pad sequence ends the input: the group after it is never read. */
  lemma DecodeStopsAtPadding()
    ensures Decode("YQ==YQ==") == Some("a")
  {
    assert NextSignificant("=YQ==") == Some('=');
    ScanEndsAtPad('Y', 'Q', 24, 16, "=YQ==");
    assert "YQ==YQ==" == ['Y', 'Q', '='] + "=YQ==";
    assert Assemble([24, 16]) == [97];
    assert Chars([97]) == "a";
  }

  /** Two values, then '=' followed by another '=': the pad sequence ends the input there. */
  lemma ScanEndsAtPad(c0: char, c1: char, x0: Sextet, x1: Sextet, rest: string)
    requires c0 != '=' && DecodeValue(c0) == Some(x0) && c1 != '=' && DecodeValue(c1) == Some(x1)
    requires NextSignificant(rest) == Some('=')
    ensures Scan([c0, c1, '='] + rest, 0).0 == [x0, x1] && Scan([c0, c1, '='] + rest, 0).1
  {
    assert (['='] + rest)[1..] == rest;
    assert Scan(['='] + rest, 2) == ([], true);
    ScanStep(c1, ['='] + rest, 1, x1);
    assert Scan([c1] + (['='] + rest), 1).0 == [x1];
    ScanStep(c0, [c1] + (['='] + rest), 0, x0);
    assert [c0, c1, '='] + rest == [c0] + ([c1] + (['='] + rest));
  }

  /** A character outside the alphabet is skipped. */
  lemma DecodeSkipsForeignCharacters()
    ensures Decode("Y.Q==") == Some("a")
  {
    PadsEnd();
    ScanStep('Q', "==", 1, 16);
    assert Scan("Q==", 1).0 == [16] && Scan("Q==", 1).1;
    assert ".Q==" [1..] == "Q==";
    assert Scan(".Q==", 1).0 == [16] && Scan(".Q==", 1).1;
    ScanStep('Y', ".Q==", 0, 24);
    assert Scan("Y.Q==", 0).0 == [24, 16] && Scan("Y.Q==", 0).1;
    assert Assemble([24, 16]) == [97];
    assert Chars([97]) == "a";
  }

  /** Bits left over with no padding make "Incorrect padding". */
  lemma DecodeRefusesLeftoverBits()
    ensures Decode("abc") == None
  {
    ScanStep('c', "", 2, 28);
    ScanStep('b', "c", 1, 27);
    ScanStep('a', "bc", 0, 26);
    assert |Scan("abc", 0).0| == 3 && !Scan("abc", 0).1;
  }

  /** A data character followed by more text scans as its value, then the rest. */
  lemma ScanStep(c: char, rest: string, q: nat, v: Sextet)
    requires q < 4 && c != '=' && DecodeValue(c) == Some(v)
    ensures Scan([c] + rest, q) == ([v] + Scan(rest, (q + 1) % 4).0, Scan(rest, (q + 1) % 4).1)
  {
    assert ([c] + rest)[0] == c && ([c] + rest)[1..] == rest;
  }

  /** Every character of the encoding alphabet reads back as its own value. */
  lemma DecodeValueOfChar(x: Sextet)
    ensures SextetChar(x) != '=' && DecodeValue(SextetChar(x)) == Some(x)
  {
    SextetRoundTrip(x);
  }

  /** The characters of a sequence of values scan back as those values. */
  lemma {:induction false} ScanText(xs: seq<Sextet>, rest: string, q: nat)
    requires q < 4
    ensures Scan(Text(xs) + rest, q).0 == xs + Scan(rest, (q + |xs|) % 4).0
    ensures Scan(Text(xs) + rest, q).1 == Scan(rest, (q + |xs|) % 4).1
    decreases |xs|
  {
    if xs != [] {
      var q' := (q + 1) % 4;
      ScanText(xs[1..], rest, q');
      AdvanceAfterOne(q, |xs|);
      ScanTextStep(xs, rest, q);
      var r := Scan(rest, (q + |xs|) % 4).0;
      assert [xs[0]] + (xs[1..] + r) == xs + r;
    } else {
      assert Text(xs) + rest == rest;
    }
  }

  /** One value read, then `n - 1` more, is `n` values read, modulo 4. */
  lemma AdvanceAfterOne(q: nat, n: nat)
    requires q < 4 && n >= 1
    ensures ((q + 1) % 4 + (n - 1)) % 4 == (q + n) % 4
  {
  }

  /** The first character of the text of some values scans as the first value. */
  lemma ScanTextStep(xs: seq<Sextet>, rest: string, q: nat)
    requires q < 4 && xs != []
    ensures Scan(Text(xs) + rest, q).0 == [xs[0]] + Scan(Text(xs[1..]) + rest, (q + 1) % 4).0
    ensures Scan(Text(xs) + rest, q).1 == Scan(Text(xs[1..]) + rest, (q + 1) % 4).1
  {
    DecodeValueOfChar(xs[0]);
    assert Text(xs) + rest == [SextetChar(xs[0])] + (Text(xs[1..]) + rest);
    ScanStep(SextetChar(xs[0]), Text(xs[1..]) + rest, q, xs[0]);
  }

  /** How many values an encoding writes, modulo 4, follows from the byte count modulo 3. */
  lemma {:induction false} ValuesCount(b: seq<byte>)
    ensures |Values(b)| % 4 == (if |b| % 3 == 1 then 2 else if |b| % 3 == 2 then 3 else 0)
    ensures |Values(b)| == 4 * (|b| / 3) + (if |b| % 3 == 1 then 2 else if |b| % 3 == 2 then 3 else 0)
    decreases |b|
  {
    if |b| >= 3 {
      ValuesCount(b[3..]);
      assert |b[3..]| / 3 == |b| / 3 - 1 && |b[3..]| % 3 == |b| % 3;
    }
  }

  /** The values of a full group assemble to its three bytes. */
  lemma AssembleGroup(b0: byte, b1: byte, b2: byte, xs: seq<Sextet>)
    ensures Assemble(GroupValues(b0, b1, b2) + xs) == [b0, b1, b2] + Assemble(xs)
  {
    var q := GroupValues(b0, b1, b2);
    assert (q + xs)[..4] == q && (q + xs)[4..] == xs;
    assert First(q[0], q[1]) == b0;
    assert Second(q[1], q[2]) == b1;
    assert Third(q[2], q[3]) == b2;
  }

  /** The values an encoding writes assemble back to the bytes. */
  lemma {:induction false} AssembleValues(b: seq<byte>)
    ensures Assemble(Values(b)) == b
    decreases |b|
  {
    if |b| == 1 {
      AssembleTailOne(b);
    } else if |b| == 2 {
      AssembleTailTwo(b);
    } else if |b| >= 3 {
      AssembleValues(b[3..]);
      AssembleGroup(b[0], b[1], b[2], Values(b[3..]));
      assert [b[0], b[1], b[2]] + b[3..] == b;
    }
  }

  /** The two values of a final byte assemble back to it. */
  lemma AssembleTailOne(b: seq<byte>)
    requires |b| == 1
    ensures Assemble(Values(b)) == b
  {
    var xs := Values(b);
    AssembleOne(b[0]);
    assert xs == [b[0] as int / 4, (b[0] as int % 4) * 16];
    assert First(xs[0], xs[1]) == b[0];
    assert Assemble(xs) == [b[0]];
    assert [b[0]] == b;
  }

  /** The three values of two final bytes assemble back to them. */
  lemma AssembleTailTwo(b: seq<byte>)
    requires |b| == 2
    ensures Assemble(Values(b)) == b
  {
    var xs := Values(b);
    var y0, y1 := b[0] as int, b[1] as int;
    AssembleTwo(b[0], b[1]);
    assert xs == [y0 / 4, (y0 % 4) * 16 + y1 / 16, (y1 % 16) * 4];
    assert First(xs[0], xs[1]) == b[0] && Second(xs[1], xs[2]) == b[1];
    assert Assemble(xs) == [b[0], b[1]];
    assert [b[0], b[1]] == b;
  }

  /** A final byte: its two values give it back. */
  lemma AssembleOne(b0: byte)
    ensures var y0 := b0 as int; First(y0 / 4, (y0 % 4) * 16) == b0
  {
  }

  /** Two final bytes: their three values give them back. */
  lemma AssembleTwo(b0: byte, b1: byte)
    ensures var y0, y1 := b0 as int, b1 as int;
      var x1 := (y0 % 4) * 16 + y1 / 16;
      First(y0 / 4, x1) == b0 && Second(x1, (y1 % 16) * 4) == b1
  {
    var y0, y1 := b0 as int, b1 as int;
    var x1 := (y0 % 4) * 16 + y1 / 16;
    assert x1 / 16 == y0 % 4;
    assert x1 % 16 == y1 / 16;
  }

  /** The pad sequences that end an encoding. */
  lemma PadsEnd()
    ensures Scan("==", 2) == ([], true) && Scan("=", 3) == ([], true)
  {
    assert NextSignificant("=") == Some('=');
  }

  /** Scanning an encoding reads its values, and a pad sequence ends it wherever bits would be left over. */
  lemma EncodeScan(b: seq<byte>)
    ensures Scan(EncodeBytes(b), 0).0 == Values(b)
    ensures Scan(EncodeBytes(b), 0).1 || |Scan(EncodeBytes(b), 0).0| % 4 == 0
  {
    var xs := Values(b);
    ScanText(xs, Padding(|b|), 0);
    ValuesCount(b);
    PadsEnd();
    assert xs + [] == xs;
  }

  /** Decoding the encoding of a byte string gives the byte string back (RFC 4648 section 5). */
  lemma DecodeEncode(s: ByteString)
    ensures Decode(Encode(s)) == Some(s)
  {
    EncodeScan(Bytes(s));
    AssembleValues(Bytes(s));
    CharsBytes(s);
  }

  /** Distinct byte strings never share an encoding, so never share a file name. */
  lemma EncodeInjective(a: ByteString, b: ByteString)
    requires Encode(a) == Encode(b)
    ensures a == b
  {
    DecodeEncode(a);
    DecodeEncode(b);
  }

  /** The encoding uses only the alphabet of section 5 of RFC 4648 and the pad character. */
  lemma EncodeBytesAlphabet(b: seq<byte>)
    ensures forall i | 0 <= i < |EncodeBytes(b)| :: IsAlphabetChar(EncodeBytes(b)[i]) || EncodeBytes(b)[i] == '='
  {
    var t, p := Text(Values(b)), Padding(|b|);
    assert forall i | 0 <= i < |p| :: p[i] == '=';
    assert forall i | 0 <= i < |t| + |p| :: (t + p)[i] == if i < |t| then t[i] else p[i - |t|];
  }

  /** Every three bytes, and a final one or two, take four characters. */
  lemma EncodeBytesLength(b: seq<byte>)
    ensures |EncodeBytes(b)| == 4 * ((|b| + 2) / 3)
  {
    ValuesCount(b);
  }

  /** Encoded keys contain neither '/' nor '.', so they are plain file-name stems. */
  lemma EncodeIsFileStem(s: ByteString)
    ensures '/' !in Encode(s) && '.' !in Encode(s)
  {
    EncodeBytesAlphabet(Bytes(s));
  }
}
