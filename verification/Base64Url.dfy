/**
 The URL-safe alphabet of section 5 of RFC 4648 as `base64.urlsafe_b64encode` prints it and `urlsafe_b64decode` reads
 it: the reader skips characters outside the alphabet, takes '+' and '/' as well, and stops at a sufficient padding.
 */
module Base64Url {
  import opened Wrappers

  type Sextet = x: int | 0 <= x < 64

  function Letter(x: Sextet): (c: char)
    ensures Value(c) == Some(x)
  {
    if x < 26 then (x + 65) as char
    else if x < 52 then (x + 71) as char
    else if x < 62 then (x - 4) as char
    else if x == 62 then '-'
    else '_'
  }

  function Value(c: char): Option<Sextet> {
    if 'A' <= c <= 'Z' then Some((c - 'A') as int)
    else if 'a' <= c <= 'z' then Some(26 + (c - 'a') as int)
    else if '0' <= c <= '9' then Some(52 + (c - '0') as int)
    else if c == '-' || c == '+' then Some(62)
    else if c == '_' || c == '/' then Some(63)
    else None
  }

  function Encode(bytes: seq<Byte>): string {
    if bytes == [] then ""
    else if |bytes| == 1 then [Letter(bytes[0] / 4), Letter(bytes[0] % 4 * 16)] + "=="
    else if |bytes| == 2 then
      [Letter(bytes[0] / 4), Letter(bytes[0] % 4 * 16 + bytes[1] / 16), Letter(bytes[1] % 16 * 4)] + "="
    else
      [Letter(bytes[0] / 4), Letter(bytes[0] % 4 * 16 + bytes[1] / 16),
       Letter(bytes[1] % 16 * 4 + bytes[2] / 64), Letter(bytes[2] % 64)] + Encode(bytes[3..])
  }

  /** The bytes read from `text` in the middle of a group: `left` holds what is left of its `quad` sextets. */
  function DecodeFrom(text: string, quad: nat, left: Sextet, pads: nat): Option<seq<Byte>>
    requires quad < 4 && (quad == 2 ==> left < 16) && (quad == 3 ==> left < 4)
  {
    if text == "" then if quad == 0 then Some([]) else None
    else if text[0] == '=' then
      if quad >= 2 && quad + pads + 1 >= 4 then Some([])
      else DecodeFrom(text[1..], quad, left, if quad >= 2 then pads + 1 else pads)
    else if Value(text[0]).None? then DecodeFrom(text[1..], quad, left, pads)
    else
      var x := Value(text[0]).value;
      match quad
      case 0 => DecodeFrom(text[1..], 1, x, 0)
      case 1 => Before(left * 4 + x / 16, DecodeFrom(text[1..], 2, x % 16, 0))
      case 2 => Before(left * 16 + x / 4, DecodeFrom(text[1..], 3, x % 4, 0))
      case _ => Before(left * 64 + x, DecodeFrom(text[1..], 0, 0, 0))
  }

  function Before(b: Byte, rest: Option<seq<Byte>>): Option<seq<Byte>> {
    if rest.None? then None else Some([b] + rest.value)
  }

  function Decode(text: string): Option<seq<Byte>> {
    DecodeFrom(text, 0, 0, 0)
  }

  /** Reading one letter. */
  lemma {:induction false} ReadLetter(x: Sextet, rest: string, quad: nat, left: Sextet, pads: nat)
    requires quad < 4 && (quad == 2 ==> left < 16) && (quad == 3 ==> left < 4)
    ensures
      DecodeFrom([Letter(x)] + rest, quad, left, pads) ==
      match quad
      case 0 => DecodeFrom(rest, 1, x, 0)
      case 1 => Before(left * 4 + x / 16, DecodeFrom(rest, 2, x % 16, 0))
      case 2 => Before(left * 16 + x / 4, DecodeFrom(rest, 3, x % 4, 0))
      case _ => Before(left * 64 + x, DecodeFrom(rest, 0, 0, 0))
  {
  }

  /** A padding that completes the group ends the text. */
  lemma ReadPadding(quad: nat, left: Sextet)
    requires 2 <= quad < 4 && (quad == 2 ==> left < 16) && (quad == 3 ==> left < 4)
    ensures DecodeFrom(if quad == 2 then "==" else "=", quad, left, 0) == Some([])
  {
  }

  /** Three bytes cut into sextets and put together again. */
  lemma {:induction false} Regroup(b: Byte, c: Byte, d: Byte)
    ensures b / 4 * 4 + (b % 4 * 16 + c / 16) / 16 == b && (b % 4 * 16 + c / 16) % 16 == c / 16
    ensures c / 16 * 16 + (c % 16 * 4 + d / 64) / 4 == c && (c % 16 * 4 + d / 64) % 4 == d / 64
    ensures d / 64 * 64 + d % 64 == d
  {
  }

  lemma {:induction false} ReadOne(b: Byte)
    ensures Decode(Encode([b])) == Some([b])
  {
    hide DecodeFrom, Letter;
    Regroup(b, 0, 0);
    assert Encode([b]) == [Letter(b / 4)] + ([Letter(b % 4 * 16)] + "==");
    ReadLetter(b / 4, [Letter(b % 4 * 16)] + "==", 0, 0, 0);
    ReadLetter(b % 4 * 16, "==", 1, b / 4, 0);
    ReadPadding(2, 0);
    assert [b] + [] == [b];
  }

  lemma {:induction false} ReadTwo(b: Byte, c: Byte)
    ensures Decode(Encode([b, c])) == Some([b, c])
  {
    hide DecodeFrom, Letter;
    Regroup(b, c, 0);
    var y := b % 4 * 16 + c / 16;
    assert Encode([b, c]) == [Letter(b / 4)] + ([Letter(y)] + ([Letter(c % 16 * 4)] + "="));
    ReadLetter(b / 4, [Letter(y)] + ([Letter(c % 16 * 4)] + "="), 0, 0, 0);
    ReadLetter(y, [Letter(c % 16 * 4)] + "=", 1, b / 4, 0);
    ReadLetter(c % 16 * 4, "=", 2, c / 16, 0);
    ReadPadding(3, 0);
    assert [b] + ([c] + []) == [b, c];
  }

  lemma {:induction false} ReadThree(b: Byte, c: Byte, d: Byte, rest: string)
    ensures
      Decode([Letter(b / 4), Letter(b % 4 * 16 + c / 16), Letter(c % 16 * 4 + d / 64), Letter(d % 64)] + rest) ==
      Before(b, Before(c, Before(d, Decode(rest))))
  {
    hide DecodeFrom, Letter;
    Regroup(b, c, d);
    var y, z := b % 4 * 16 + c / 16, c % 16 * 4 + d / 64;
    var three := [Letter(y)] + ([Letter(z)] + ([Letter(d % 64)] + rest));
    assert [Letter(b / 4), Letter(y), Letter(z), Letter(d % 64)] + rest == [Letter(b / 4)] + three;
    ReadLetter(b / 4, three, 0, 0, 0);
    ReadLetter(y, [Letter(z)] + ([Letter(d % 64)] + rest), 1, b / 4, 0);
    ReadLetter(z, [Letter(d % 64)] + rest, 2, c / 16, 0);
    ReadLetter(d % 64, rest, 3, d / 64, 0);
  }

  lemma {:induction false} DecodeReadsEncode(bytes: seq<Byte>)
    ensures Decode(Encode(bytes)) == Some(bytes)
  {
    if |bytes| == 1 {
      ReadOne(bytes[0]);
      assert bytes == [bytes[0]];
    } else if |bytes| == 2 {
      ReadTwo(bytes[0], bytes[1]);
      assert bytes == [bytes[0], bytes[1]];
    } else if |bytes| > 2 {
      hide DecodeFrom, Letter;
      ReadThree(bytes[0], bytes[1], bytes[2], Encode(bytes[3..]));
      DecodeReadsEncode(bytes[3..]);
      assert [bytes[0]] + ([bytes[1]] + ([bytes[2]] + bytes[3..])) == bytes;
    }
  }

  // ----- The alphabet and the groups of RFC 4648 -----

  /** Sections 4 and 5: the 62 alphanumeric characters in order, then the two that tell the alphabets apart. */
  lemma {:induction false} AlphabetIsUrlSafe(x: Sextet, c: char)
    ensures x < 26 ==> Letter(x) == "ABCDEFGHIJKLMNOPQRSTUVWXYZ"[x]
    ensures 26 <= x < 52 ==> Letter(x) == "abcdefghijklmnopqrstuvwxyz"[x - 26]
    ensures 52 <= x ==> Letter(x) == "0123456789-_"[x - 52]
    ensures Value(c) == Some(x) <==> c == Letter(x) || (x == 62 && c == '+') || (x == 63 && c == '/')
  {
  }

  /** Each group of four letters carries the 24 bits of three bytes; a shorter last group is filled up with zeros and pads. */
  lemma {:induction false} GroupsCarryTheBits(bytes: seq<Byte>)
    requires bytes != []
    ensures |Encode(bytes)| >= 4
    ensures
      var text := Encode(bytes);
      var a, b := Value(text[0]), Value(text[1]);
      a.Some? && b.Some?
      && (|bytes| == 1 ==> text[2..] == "==" && a.value as int * 64 + b.value == bytes[0] as int * 16)
      && (|bytes| == 2 ==>
            && text[3..] == "=" && Value(text[2]).Some?
            && (a.value as int * 64 + b.value) * 64 + Value(text[2]).value == (bytes[0] as int * 256 + bytes[1]) * 4)
      && (|bytes| >= 3 ==>
            && Value(text[2]).Some? && Value(text[3]).Some?
            && ((a.value as int * 64 + b.value) * 64 + Value(text[2]).value) * 64 + Value(text[3]).value ==
               (bytes[0] as int * 256 + bytes[1]) * 256 + bytes[2]
            && text[4..] == Encode(bytes[3..]))
  {
    hide Letter, Value;
  }

  /** Some of the test vectors of section 10, and the same texts without their padding, which are refused. */
  lemma {:induction false} TestVectors()
    ensures Encode([102]) == "Zg==" && Encode([102, 111]) == "Zm8=" && Encode([102, 111, 111]) == "Zm9v"
    ensures Decode("Zg") == None && Decode("Zg=") == None && Decode("Zm8") == None && Decode("Z") == None
  {
    assert Value('Z') == Some(25) && Value('g') == Some(32) && Value('m') == Some(38) && Value('8') == Some(60);
    assert "Zg="[1..] == "g=" && "g="[1..] == "=" && "="[1..] == "";
    assert "Zg"[1..] == "g" && "g"[1..] == "" && "Z"[1..] == "";
    assert "Zm8"[1..] == "m8" && "m8"[1..] == "8" && "8"[1..] == "";
    hide Letter, Value;
    assert DecodeFrom("", 2, 0, 0) == None && DecodeFrom("", 2, 0, 1) == None && DecodeFrom("", 3, 0, 0) == None;
    assert DecodeFrom("=", 2, 0, 0) == None;
    assert DecodeFrom("g", 1, 25, 0) == None && DecodeFrom("g=", 1, 25, 0) == None && DecodeFrom("8", 2, 6, 0) == None;
  }
}
