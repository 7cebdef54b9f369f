/** Unpadded base64url, section 5 of RFC 4648, as `base64.RawURLEncoding` reads and writes it. */
module Base64Url {
  import opened Text

  type Byte = n: int | 0 <= n < 256

  type Sextet = n: int | 0 <= n < 64

  function CharOf(i: Sextet): char {
    if i < 26 then 'A' + (i as char)
    else if i < 52 then 'a' + ((i - 26) as char)
    else if i < 62 then '0' + ((i - 52) as char)
    else if i == 62 then '-'
    else '_'
  }

  /** The table of section 5 of RFC 4648: three runs of consecutive letters, and two more. */
  lemma CharsAreTheAlphabet(i: Sextet)
    ensures CharOf(0) == 'A' && CharOf(25) == 'Z' && CharOf(26) == 'a' && CharOf(51) == 'z'
    ensures CharOf(52) == '0' && CharOf(61) == '9' && CharOf(62) == '-' && CharOf(63) == '_'
    ensures i < 61 && i != 25 && i != 51 ==> CharOf(i + 1) as int == CharOf(i) as int + 1
  {
  }

  function ValueOf(c: char): Option<Sextet> {
    if 'A' <= c <= 'Z' then Some((c as int) - 65)
    else if 'a' <= c <= 'z' then Some((c as int) - 97 + 26)
    else if '0' <= c <= '9' then Some((c as int) - 48 + 52)
    else if c == '-' then Some(62)
    else if c == '_' then Some(63)
    else None
  }

  function Encode(bs: seq<Byte>): string {
    if |bs| == 0 then []
    else if |bs| == 1 then [CharOf(bs[0] / 4), CharOf(bs[0] % 4 * 16)]
    else if |bs| == 2 then [CharOf(bs[0] / 4), CharOf(bs[0] % 4 * 16 + bs[1] / 16), CharOf(bs[1] % 16 * 4)]
    else
      [CharOf(bs[0] / 4), CharOf(bs[0] % 4 * 16 + bs[1] / 16), CharOf(bs[1] % 16 * 4 + bs[2] / 64), CharOf(bs[2] % 64)]
      + Encode(bs[3..])
  }

  /** Line breaks are skipped wherever they stand. */
  function WithoutBreaks(s: string): string {
    if s == [] then []
    else (if s[0] == '\r' || s[0] == '\n' then [] else [s[0]]) + WithoutBreaks(s[1..])
  }

  /** The last group may have two or three characters; its spare bits are ignored. */
  function DecodeGroups(s: string): Option<seq<Byte>> {
    if |s| == 0 then Some([])
    else if |s| == 1 then None
    else
      match (ValueOf(s[0]), ValueOf(s[1]))
      case (Some(a), Some(b)) =>
        if |s| == 2 then Some([a * 4 + b / 16])
        else (
          match ValueOf(s[2])
          case None => None
          case Some(c) =>
            if |s| == 3 then Some([a * 4 + b / 16, b % 16 * 16 + c / 4])
            else
              match (ValueOf(s[3]), DecodeGroups(s[4..]))
              case (Some(d), Some(rest)) => Some([a * 4 + b / 16, b % 16 * 16 + c / 4, c % 4 * 64 + d] + rest)
              case _ => None
        )
      case _ => None
  }

  function Decode(s: string): Option<seq<Byte>> {
    DecodeGroups(WithoutBreaks(s))
  }

  lemma ValueOfChar(i: Sextet)
    ensures ValueOf(CharOf(i)) == Some(i)
    ensures CharOf(i) != '.' && CharOf(i) != '\r' && CharOf(i) != '\n'
  {
  }

  lemma {:induction false} EncodedIsPlain(bs: seq<Byte>)
    ensures forall c | c in Encode(bs) :: c != '.' && c != '\r' && c != '\n'
  {
    forall i: Sextet ensures CharOf(i) != '.' && CharOf(i) != '\r' && CharOf(i) != '\n' {
      ValueOfChar(i);
    }
    if |bs| > 2 {
      EncodedIsPlain(bs[3..]);
    }
  }

  lemma {:induction false} PlainIsKept(s: string)
    requires forall c | c in s :: c != '\r' && c != '\n'
    ensures WithoutBreaks(s) == s
  {
    if s == [] {
    } else {
      assert s[0] in s && forall c | c in s[1..] :: c in s;
      PlainIsKept(s[1..]);
      assert s == [s[0]] + s[1..];
    }
  }

  lemma Bits(x: Byte, y: Byte, z: Byte)
    ensures x / 4 * 4 + (x % 4 * 16 + y / 16) / 16 == x
    ensures (x % 4 * 16 + y / 16) % 16 * 16 + (y % 16 * 4 + z / 64) / 4 == y
    ensures (y % 16 * 4 + z / 64) % 4 * 64 + z % 64 == z
  {
  }

  lemma FourChars(s: string, a: Sextet, b: Sextet, c: Sextet, d: Sextet, rest: string)
    requires s == [CharOf(a), CharOf(b), CharOf(c), CharOf(d)] + rest
    requires DecodeGroups(rest).Some?
    ensures DecodeGroups(s) ==
            Some([a * 4 + b / 16, b % 16 * 16 + c / 4, c % 4 * 64 + d] + DecodeGroups(rest).value)
  {
    ValueOfChar(a);
    ValueOfChar(b);
    ValueOfChar(c);
    ValueOfChar(d);
    assert s[4..] == rest;
  }

  lemma TwoChars(a: Sextet, b: Sextet)
    ensures DecodeGroups([CharOf(a), CharOf(b)]) == Some([a * 4 + b / 16])
  {
    ValueOfChar(a);
    ValueOfChar(b);
  }

  lemma ThreeChars(a: Sextet, b: Sextet, c: Sextet)
    ensures DecodeGroups([CharOf(a), CharOf(b), CharOf(c)]) == Some([a * 4 + b / 16, b % 16 * 16 + c / 4])
  {
    ValueOfChar(a);
    ValueOfChar(b);
    ValueOfChar(c);
  }

  lemma OneByte(x: Byte)
    ensures DecodeGroups([CharOf(x / 4), CharOf(x % 4 * 16)]) == Some([x])
  {
    Bits(x, 0, 0);
    TwoChars(x / 4, x % 4 * 16);
  }

  lemma TwoBytes(x: Byte, y: Byte)
    ensures DecodeGroups([CharOf(x / 4), CharOf(x % 4 * 16 + y / 16), CharOf(y % 16 * 4)]) == Some([x, y])
  {
    Bits(x, y, 0);
    ThreeChars(x / 4, x % 4 * 16 + y / 16, y % 16 * 4);
  }

  lemma ThreeBytes(x: Byte, y: Byte, z: Byte, rest: string)
    requires DecodeGroups(rest).Some?
    ensures DecodeGroups([CharOf(x / 4), CharOf(x % 4 * 16 + y / 16), CharOf(y % 16 * 4 + z / 64),
                          CharOf(z % 64)] + rest)
         == Some([x, y, z] + DecodeGroups(rest).value)
  {
    Bits(x, y, z);
    var a, b, c, d := x / 4, x % 4 * 16 + y / 16, y % 16 * 4 + z / 64, z % 64;
    FourChars([CharOf(a), CharOf(b), CharOf(c), CharOf(d)] + rest, a, b, c, d, rest);
  }

  lemma {:induction false} DecodeGroupsEncode(bs: seq<Byte>)
    ensures DecodeGroups(Encode(bs)) == Some(bs)
  {
    if |bs| == 1 {
      OneByte(bs[0]);
      assert bs == [bs[0]];
    } else if |bs| == 2 {
      TwoBytes(bs[0], bs[1]);
      assert bs == [bs[0], bs[1]];
    } else if |bs| > 2 {
      DecodeGroupsEncode(bs[3..]);
      ThreeBytes(bs[0], bs[1], bs[2], Encode(bs[3..]));
      assert bs == [bs[0], bs[1], bs[2]] + bs[3..];
    }
  }

  /** The number that two, three or four letters stand for, high bits first. */
  function NumberOf(s: string): Option<int> {
    if s == [] then Some(0)
    else
      match (NumberOf(s[..|s| - 1]), ValueOf(s[|s| - 1]))
      case (Some(high), Some(low)) => Some(high * 64 + low)
      case _ => None
  }

  lemma NumberOfMore(s: string, i: Sextet)
    ensures NumberOf(s + [CharOf(i)]) ==
            match NumberOf(s) case None => None case Some(high) => Some(high * 64 + i)
  {
    assert (s + [CharOf(i)])[..|s|] == s;
    ValueOfChar(i);
  }

  lemma NumberOfTwo(a: Sextet, b: Sextet)
    ensures NumberOf([CharOf(a), CharOf(b)]) == Some(a * 64 + b)
  {
    assert NumberOf([]) == Some(0);
    NumberOfMore([], a);
    NumberOfMore([] + [CharOf(a)], b);
    assert [] + [CharOf(a)] + [CharOf(b)] == [CharOf(a), CharOf(b)];
  }

  lemma NumberOfThree(a: Sextet, b: Sextet, c: Sextet)
    ensures NumberOf([CharOf(a), CharOf(b), CharOf(c)]) == Some(a * 4096 + b * 64 + c)
  {
    NumberOfTwo(a, b);
    NumberOfMore([CharOf(a), CharOf(b)], c);
    assert [CharOf(a), CharOf(b)] + [CharOf(c)] == [CharOf(a), CharOf(b), CharOf(c)];
  }

  lemma NumberOfFour(a: Sextet, b: Sextet, c: Sextet, d: Sextet)
    ensures NumberOf([CharOf(a), CharOf(b), CharOf(c), CharOf(d)]) == Some(a * 262144 + b * 4096 + c * 64 + d)
  {
    NumberOfThree(a, b, c);
    NumberOfMore([CharOf(a), CharOf(b), CharOf(c)], d);
    assert [CharOf(a), CharOf(b), CharOf(c)] + [CharOf(d)] == [CharOf(a), CharOf(b), CharOf(c), CharOf(d)];
  }

  lemma SplitOne(x: Byte)
    ensures x / 4 * 64 + x % 4 * 16 == (x as int) * 16
  {
  }

  lemma SplitTwo(x: Byte, y: Byte)
    ensures x / 4 * 4096 + (x % 4 * 16 + y / 16) * 64 + y % 16 * 4 == (x as int) * 1024 + (y as int) * 4
  {
  }

  lemma SplitThree(x: Byte, y: Byte, z: Byte)
    ensures x / 4 * 262144 + (x % 4 * 16 + y / 16) * 4096 + (y % 16 * 4 + z / 64) * 64 + z % 64
            == (x as int) * 65536 + (y as int) * 256 + (z as int)
  {
  }

  lemma EncodedThree(x: Byte, y: Byte, z: Byte)
    ensures Encode([x, y, z]) ==
            [CharOf(x / 4), CharOf(x % 4 * 16 + y / 16), CharOf(y % 16 * 4 + z / 64), CharOf(z % 64)]
  {
    var four := [CharOf(x / 4), CharOf(x % 4 * 16 + y / 16), CharOf(y % 16 * 4 + z / 64), CharOf(z % 64)];
    assert [x, y, z][3..] == [];
    assert four + Encode([]) == four;
  }

  lemma EncodedShort(x: Byte, y: Byte)
    ensures Encode([x]) == [CharOf(x / 4), CharOf(x % 4 * 16)]
    ensures Encode([x, y]) == [CharOf(x / 4), CharOf(x % 4 * 16 + y / 16), CharOf(y % 16 * 4)]
  {
  }

  lemma TwoFillUp(x: Byte, y: Byte)
    ensures NumberOf(Encode([x, y])) == Some((x as int) * 1024 + (y as int) * 4)
  {
    EncodedShort(x, y);
    SplitTwo(x, y);
    NumberOfThree(x / 4, x % 4 * 16 + y / 16, y % 16 * 4);
  }

  lemma OneFillsUp(x: Byte)
    ensures NumberOf(Encode([x])) == Some((x as int) * 16)
  {
    EncodedShort(x, 0);
    SplitOne(x);
    NumberOfTwo(x / 4, x % 4 * 16);
  }

  lemma ThreeFit(x: Byte, y: Byte, z: Byte)
    ensures NumberOf(Encode([x, y, z])) == Some((x as int) * 65536 + (y as int) * 256 + (z as int))
  {
    SplitThree(x, y, z);
    EncodedThree(x, y, z);
    NumberOfFour(x / 4, x % 4 * 16 + y / 16, y % 16 * 4 + z / 64, z % 64);
  }

  /** A group of bytes and its letters are the same number; a short last group is filled up with zero bits, section 4
      of RFC 4648. */
  lemma GroupIsOneNumber(x: Byte, y: Byte, z: Byte)
    ensures NumberOf(Encode([x])) == Some((x as int) * 16)
    ensures NumberOf(Encode([x, y])) == Some((x as int) * 1024 + (y as int) * 4)
    ensures NumberOf(Encode([x, y, z])) == Some((x as int) * 65536 + (y as int) * 256 + (z as int))
  {
    OneFillsUp(x);
    TwoFillUp(x, y);
    ThreeFit(x, y, z);
  }

  /** Longer texts go group by group. */
  lemma GroupByGroup(bs: seq<Byte>, rest: seq<Byte>)
    requires |bs| == 3
    ensures Encode(bs + rest) == Encode(bs) + Encode(rest)
  {
    assert (bs + rest)[3..] == rest && bs[3..] == [];
    assert Encode([]) == [];
  }

  /** Decoding undoes encoding, and the encoding never holds a dot. */
  lemma RoundTrip(bs: seq<Byte>)
    ensures Decode(Encode(bs)) == Some(bs)
    ensures '.' !in Encode(bs)
  {
    EncodedIsPlain(bs);
    PlainIsKept(Encode(bs));
    DecodeGroupsEncode(bs);
  }
}
