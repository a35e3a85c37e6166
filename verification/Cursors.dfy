/** The text of a cursor: unpadded base64url (section 5 of RFC 4648) around a payload of bytes, and the
    lenient decoder that reads it back (backend/common/cursors.py). */
module Cursors {

  newtype Byte = n: int | 0 <= n < 256

  type Sextet = n: nat | n < 64

  datatype Option<T> = None | Some(value: T)

  function Letter(x: Sextet): char {
    if x < 26 then 'A' + x as char
    else if x < 52 then 'a' + (x - 26) as char
    else if x < 62 then '0' + (x - 52) as char
    else if x == 62 then '-' else '_'
  }

  /** The decoder also takes the two letters of the standard alphabet. */
  function Index(c: char): Option<Sextet> {
    if 'A' <= c <= 'Z' then Some(c as int - 'A' as int)
    else if 'a' <= c <= 'z' then Some(c as int - 'a' as int + 26)
    else if '0' <= c <= '9' then Some(c as int - '0' as int + 52)
    else if c == '-' || c == '+' then Some(62)
    else if c == '_' || c == '/' then Some(63)
    else None
  }

  lemma LetterIndex(x: Sextet)
    ensures Index(Letter(x)) == Some(x) && Letter(x) != '='
  {}

  /** The four sextets of three bytes. */
  function S1(x: Byte): Sextet { x as nat / 4 }

  function S2(x: Byte, y: Byte): Sextet { x as nat % 4 * 16 + y as nat / 16 }

  function S3(y: Byte, z: Byte): Sextet { y as nat % 16 * 4 + z as nat / 64 }

  function S4(z: Byte): Sextet { z as nat % 64 }

  function Encode(bytes: seq<Byte>): string {
    if bytes == [] then ""
    else if |bytes| == 1 then [Letter(S1(bytes[0])), Letter(S2(bytes[0], 0))]
    else if |bytes| == 2 then [Letter(S1(bytes[0])), Letter(S2(bytes[0], bytes[1])), Letter(S3(bytes[1], 0))]
    else
      [Letter(S1(bytes[0])), Letter(S2(bytes[0], bytes[1])), Letter(S3(bytes[1], bytes[2])), Letter(S4(bytes[2]))] +
      Encode(bytes[3..])
  }

  /** The decoder: letters of the current group of four, the bits left over, padding seen, and whether
      padding has closed the text. */
  datatype Decoder = Decoder(pos: nat, left: nat, pads: nat, closed: bool, out: seq<Byte>)

  function ToByte(n: nat): Byte {
    (n % 256) as Byte
  }

  function Feed(d: Decoder, c: char): Decoder {
    if d.closed then d
    else if c == '=' then
      if d.pos >= 2 then d.(pads := d.pads + 1, closed := d.pos + d.pads + 1 >= 4) else d
    else
      match Index(c)
      case None => d
      case Some(x) =>
        if d.pos == 0 then Decoder(1, x, 0, false, d.out)
        else if d.pos == 1 then Decoder(2, x % 16, 0, false, d.out + [ToByte(d.left * 4 + x / 16)])
        else if d.pos == 2 then Decoder(3, x % 4, 0, false, d.out + [ToByte(d.left * 16 + x / 4)])
        else Decoder(0, 0, 0, false, d.out + [ToByte(d.left * 64 + x)])
  }

  function Run(d: Decoder, text: string): Decoder
    decreases |text|
  {
    if text == "" then d else Run(Feed(d, text[0]), text[1..])
  }

  function Padding(n: nat): string {
    if n % 4 == 0 then "" else if n % 4 == 1 then "===" else if n % 4 == 2 then "==" else "="
  }

  function Padded(text: string): string {
    text + Padding(|text|)
  }

  /** `None` stands for a `CursorError`. */
  function Decode(text: string): Option<seq<Byte>> {
    if exists c :: c in text && c as int >= 128 then None
    else
      var d := Run(Decoder(0, 0, 0, false, []), Padded(text));
      if d.closed || d.pos == 0 then Some(d.out) else None
  }

  predicate UrlSafe(c: char) {
    'A' <= c <= 'Z' || 'a' <= c <= 'z' || '0' <= c <= '9' || c == '-' || c == '_'
  }

  /** The text needs no escaping in a URL and has the length RFC 4648 gives without padding. */
  lemma {:induction false} EncodedText(bytes: seq<Byte>)
    ensures forall c :: c in Encode(bytes) ==> UrlSafe(c)
    ensures |Encode(bytes)| == (8 * |bytes| + 5) / 6
  {
    if |bytes| >= 3 {
      EncodedText(bytes[3..]);
    }
  }

  /** The letters of the sextets that end in four zero bits. */
  predicate FourBitsLeft(c: char) {
    c == 'A' || c == 'Q' || c == 'g' || c == 'w'
  }

  /** And of those that end in two. */
  predicate TwoBitsLeft(c: char) {
    || FourBitsLeft(c) || c == 'E' || c == 'I' || c == 'M' || c == 'U' || c == 'Y' || c == 'c'
    || c == 'k' || c == 'o' || c == 's' || c == '0' || c == '4' || c == '8'
  }

  lemma LastBehind(front: string, rest: string)
    requires rest != ""
    ensures (front + rest)[|front + rest| - 1] == rest[|rest| - 1]
  {}

  predicate LastFits(n: nat, text: string) {
    text != "" && if n % 3 == 1 then FourBitsLeft(text[|text| - 1]) else TwoBitsLeft(text[|text| - 1])
  }

  lemma BitsLeft(x: Byte)
    ensures S2(x, 0) % 16 == 0 && S3(x, 0) % 4 == 0
  {}

  lemma OneByteLast(x: Byte)
    ensures FourBitsLeft(Letter(S2(x, 0)))
  {
    BitsLeft(x);
    LastOfOne(S2(x, 0));
  }

  lemma TwoBytesLast(x: Byte)
    ensures TwoBitsLeft(Letter(S3(x, 0)))
  {
    BitsLeft(x);
    LastOfTwo(S3(x, 0));
  }

  lemma ShortLast(bytes: seq<Byte>)
    requires |bytes| == 1 || |bytes| == 2
    ensures LastFits(|bytes|, Encode(bytes))
  {
    OneByteLast(bytes[0]);
    TwoBytesLast(bytes[|bytes| - 1]);
  }

  lemma LongLast(bytes: seq<Byte>)
    requires |bytes| >= 3 && LastFits(|bytes| - 3, Encode(bytes[3..]))
    ensures LastFits(|bytes|, Encode(bytes))
  {
    LastBehind([Letter(S1(bytes[0])), Letter(S2(bytes[0], bytes[1])), Letter(S3(bytes[1], bytes[2])), Letter(S4(bytes[2]))], Encode(bytes[3..]));
  }

  /** Bits left over in the last letter are zero. */
  lemma {:induction false} EncodedLast(bytes: seq<Byte>)
    requires |bytes| % 3 != 0
    ensures LastFits(|bytes|, Encode(bytes))
  {
    if |bytes| < 3 {
      ShortLast(bytes);
    } else {
      EncodedLast(bytes[3..]);
      LongLast(bytes);
    }
  }

  lemma LastOfOne(x: Sextet)
    requires x % 16 == 0
    ensures FourBitsLeft(Letter(x))
  {
    assert x == 0 || x == 16 || x == 32 || x == 48;
  }

  lemma LastOfTwo(x: Sextet)
    requires x % 4 == 0
    ensures TwoBitsLeft(Letter(x))
  {
    if x < 32 {
      assert x == 0 || x == 4 || x == 8 || x == 12 || x == 16 || x == 20 || x == 24 || x == 28;
    } else {
      assert x == 32 || x == 36 || x == 40 || x == 44 || x == 48 || x == 52 || x == 56 || x == 60;
    }
  }

  // ---- Texts cut short ----

  predicate IsLetter(c: char) {
    UrlSafe(c) || c == '+' || c == '/'
  }

  lemma {:induction false} RunLetters(d: Decoder, text: string)
    requires !d.closed && d.pads == 0 && d.pos < 4 && forall c :: c in text ==> IsLetter(c)
    ensures var e := Run(d, text); !e.closed && e.pads == 0 && e.pos == (d.pos + |text|) % 4
    decreases |text|
  {
    if text != "" {
      assert text[0] in text && IsLetter(text[0]) && Index(text[0]).Some?;
      RunLetters(Feed(d, text[0]), text[1..]);
    }
  }

  lemma {:induction false} RunConcat(d: Decoder, a: string, b: string)
    ensures Run(d, a + b) == Run(Run(d, a), b)
    decreases |a|
  {
    if a == "" {
      assert a + b == b;
    } else {
      assert (a + b)[1..] == a[1..] + b;
      RunConcat(Feed(d, a[0]), a[1..], b);
    }
  }

  lemma PaddingCloses(d: Decoder)
    requires !d.closed && d.pads == 0 && d.pos < 4
    ensures var e := Run(d, Padding(d.pos)); (e.closed || e.pos == 0) <==> d.pos != 1
  {
    if d.pos == 3 {
      RunCons(d, '=', "");
    } else if d.pos == 2 {
      RunCons(d, '=', "=");
      RunCons(Feed(d, '='), '=', "");
    } else if d.pos == 1 {
      RunCons(d, '=', "==");
      RunCons(d, '=', "=");
      RunCons(d, '=', "");
    }
  }

  lemma LettersAscii(text: string)
    requires forall c :: c in text ==> IsLetter(c)
    ensures !exists c :: c in text && c as int >= 128
  {}

  /** Of all texts in the letters of either alphabet, the decoder refuses exactly those with one letter left
      over from the groups of four, which no encoding has. */
  lemma RefusedExactly(text: string)
    requires forall c :: c in text ==> IsLetter(c)
    ensures Decode(text).None? <==> |text| % 4 == 1
  {
    var start := Decoder(0, 0, 0, false, []);
    LettersAscii(text);
    RunLetters(start, text);
    var read := Run(start, text);
    RunConcat(start, text, Padding(|text|));
    assert Padding(|text|) == Padding(read.pos);
    PaddingCloses(read);
    var d := Run(start, Padded(text));
    assert d == Run(read, Padding(read.pos));
  }

  lemma RunCons(d: Decoder, c: char, rest: string)
    ensures Run(d, [c] + rest) == Run(Feed(d, c), rest)
  {
    assert ([c] + rest)[1..] == rest;
  }

  /** One letter at each place of a group; `b` is the byte it completes. */
  lemma FeedFirst(out: seq<Byte>, x: Sextet)
    ensures Feed(Decoder(0, 0, 0, false, out), Letter(x)) == Decoder(1, x, 0, false, out)
  {
    LetterIndex(x);
  }

  lemma FeedSecond(out: seq<Byte>, left: nat, x: Sextet, b: Byte)
    requires left * 4 + x / 16 == b as nat
    ensures Feed(Decoder(1, left, 0, false, out), Letter(x)) == Decoder(2, x % 16, 0, false, out + [b])
  {
    LetterIndex(x);
  }

  lemma FeedThird(out: seq<Byte>, left: nat, x: Sextet, b: Byte)
    requires left * 16 + x / 4 == b as nat
    ensures Feed(Decoder(2, left, 0, false, out), Letter(x)) == Decoder(3, x % 4, 0, false, out + [b])
  {
    LetterIndex(x);
  }

  lemma FeedFourth(out: seq<Byte>, left: nat, x: Sextet, b: Byte)
    requires left * 64 + x == b as nat
    ensures Feed(Decoder(3, left, 0, false, out), Letter(x)) == Decoder(0, 0, 0, false, out + [b])
  {
    LetterIndex(x);
  }

  /** Three bytes out of four sextets. */
  lemma Regroup(x: Byte, y: Byte, z: Byte)
    ensures S1(x) * 4 + S2(x, y) / 16 == x as nat && S2(x, y) % 16 == y as nat / 16
    ensures S2(x, y) % 16 * 16 + S3(y, z) / 4 == y as nat && S3(y, z) % 4 == z as nat / 64
    ensures S3(y, z) % 4 * 64 + S4(z) == z as nat
  {}

  lemma First(out: seq<Byte>, a: Byte, b: Byte, rest: string)
    ensures Run(Decoder(0, 0, 0, false, out), [Letter(S1(a))] + ([Letter(S2(a, b))] + rest))
            == Run(Decoder(2, b as nat / 16, 0, false, out + [a]), rest)
  {
    Regroup(a, b, 0);
    RunCons(Decoder(0, 0, 0, false, out), Letter(S1(a)), [Letter(S2(a, b))] + rest);
    FeedFirst(out, S1(a));
    RunCons(Decoder(1, S1(a), 0, false, out), Letter(S2(a, b)), rest);
    FeedSecond(out, S1(a), S2(a, b), a);
  }

  lemma Second(out: seq<Byte>, b: Byte, c: Byte, rest: string)
    ensures Run(Decoder(2, b as nat / 16, 0, false, out), [Letter(S3(b, c))] + rest)
            == Run(Decoder(3, c as nat / 64, 0, false, out + [b]), rest)
  {
    Regroup(0, b, c);
    RunCons(Decoder(2, b as nat / 16, 0, false, out), Letter(S3(b, c)), rest);
    FeedThird(out, b as nat / 16, S3(b, c), b);
  }

  lemma Third(out: seq<Byte>, c: Byte, rest: string)
    ensures Run(Decoder(3, c as nat / 64, 0, false, out), [Letter(S4(c))] + rest) == Run(Decoder(0, 0, 0, false, out + [c]), rest)
  {
    RunCons(Decoder(3, c as nat / 64, 0, false, out), Letter(S4(c)), rest);
    Regroup(0, 0, c);
    FeedFourth(out, c as nat / 64, S4(c), c);
  }

  lemma Four(out: seq<Byte>, a: Byte, b: Byte, c: Byte, rest: string)
    ensures Run(Decoder(0, 0, 0, false, out),
                [Letter(S1(a))] + ([Letter(S2(a, b))] + ([Letter(S3(b, c))] + ([Letter(S4(c))] + rest))))
            == Run(Decoder(0, 0, 0, false, out + [a] + [b] + [c]), rest)
  {
    First(out, a, b, [Letter(S3(b, c))] + ([Letter(S4(c))] + rest));
    Second(out + [a], b, c, [Letter(S4(c))] + rest);
    Third(out + [a] + [b], c, rest);
  }

  /** The text of three bytes or more, taken apart. */
  lemma Apart(bytes: seq<Byte>)
    requires |bytes| >= 3
    ensures var (a, b, c) := (bytes[0], bytes[1], bytes[2]);
            Padded(Encode(bytes)) ==
              [Letter(S1(a))] + ([Letter(S2(a, b))] + ([Letter(S3(b, c))] + ([Letter(S4(c))] + Padded(Encode(bytes[3..])))))
  {
    var a, b, c := bytes[0], bytes[1], bytes[2];
    OneByOne(Letter(S1(a)), Letter(S2(a, b)), Letter(S3(b, c)), Letter(S4(c)), Encode(bytes[3..]));
  }

  lemma OneByOne(p: char, q: char, r: char, s: char, rest: string)
    ensures Padded([p, q, r, s] + rest) == [p] + ([q] + ([r] + ([s] + Padded(rest))))
  {
    assert Padding(|[p, q, r, s] + rest|) == Padding(|rest|);
  }

  ghost predicate Reads(d: Decoder, bytes: seq<Byte>) {
    d.out == bytes && (d.closed || d.pos == 0)
  }

  lemma ThreeMore(out: seq<Byte>, bytes: seq<Byte>)
    requires |bytes| >= 3
    ensures out + [bytes[0]] + [bytes[1]] + [bytes[2]] + bytes[3..] == out + bytes
  {}

  lemma {:induction false} RunEncoded(out: seq<Byte>, bytes: seq<Byte>)
    ensures Reads(Run(Decoder(0, 0, 0, false, out), Padded(Encode(bytes))), out + bytes)
    decreases |bytes|
  {
    if |bytes| >= 3 {
      Apart(bytes);
      Four(out, bytes[0], bytes[1], bytes[2], Padded(Encode(bytes[3..])));
      RunEncoded(out + [bytes[0]] + [bytes[1]] + [bytes[2]], bytes[3..]);
      ThreeMore(out, bytes);
    } else if |bytes| == 2 {
      TwoLeft(out, bytes[0], bytes[1]);
      assert bytes == [bytes[0], bytes[1]];
    } else if |bytes| == 1 {
      OneLeft(out, bytes[0]);
      assert bytes == [bytes[0]];
    } else {
      assert Padded(Encode(bytes)) == "";
    }
  }

  lemma OneLeft(out: seq<Byte>, a: Byte)
    ensures Reads(Run(Decoder(0, 0, 0, false, out), Padded(Encode([a]))), out + [a])
  {
    assert Padded(Encode([a])) == [Letter(S1(a))] + ([Letter(S2(a, 0))] + "==");
    First(out, a, 0, "==");
    var d := Decoder(2, 0, 0, false, out + [a]);
    assert "==" == ['='] + "=" && "=" == ['='] + "";
    RunCons(d, '=', "=");
    RunCons(Feed(d, '='), '=', "");
  }

  lemma TwoLeft(out: seq<Byte>, a: Byte, b: Byte)
    ensures Reads(Run(Decoder(0, 0, 0, false, out), Padded(Encode([a, b]))), out + [a, b])
  {
    assert Padded(Encode([a, b])) == [Letter(S1(a))] + ([Letter(S2(a, b))] + ([Letter(S3(b, 0))] + "="));
    First(out, a, b, [Letter(S3(b, 0))] + "=");
    Second(out + [a], b, 0, "=");
    var d := Decoder(3, 0, 0, false, out + [a] + [b]);
    assert "=" == ['='] + "";
    RunCons(d, '=', "");
    assert out + [a] + [b] == out + [a, b];
  }

  /** A cursor is read back as the payload it was made from. */
  lemma CursorRoundTrip(bytes: seq<Byte>)
    ensures Decode(Encode(bytes)) == Some(bytes)
  {
    EncodedText(bytes);
    RunEncoded([], bytes);
    assert [] + bytes == bytes;
  }
}
