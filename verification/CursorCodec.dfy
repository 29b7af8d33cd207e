/**
 The opaque cursor (app/api/pagination.py): the URL-safe base64 of an instant's ISO text, a bar and an id. The two
 standard-library calls on instants, `isoformat` and `fromisoformat`, are parameters.
 */
module CursorCodec {
  import opened Wrappers
  import opened Decimal
  import opened Base64Url

  datatype Position<T> = Position(collectedAt: T, itemId: int)

  predicate IsAscii(text: string) {
    forall i :: 0 <= i < |text| ==> text[i] as int < 128
  }

  /** `text.encode()` for ASCII text. */
  function Bytes(text: string): (bytes: seq<Byte>)
    requires IsAscii(text)
    ensures |bytes| == |text| && forall i :: 0 <= i < |text| ==> bytes[i] == text[i] as int < 128
  {
    seq(|text|, i requires 0 <= i < |text| => text[i] as int)
  }

  /** `bytes.decode()`, refusing what is not ASCII. */
  function Text(bytes: seq<Byte>): Option<string> {
    if forall i :: 0 <= i < |bytes| ==> bytes[i] < 128 then
      Some(seq(|bytes|, i requires 0 <= i < |bytes| => bytes[i] as char))
    else None
  }

  /** `text.partition("|")`, without its middle part. */
  function Partition(text: string): (string, string) {
    if text == "" then ("", "")
    else if text[0] == '|' then ("", text[1..])
    else
      var parts := Partition(text[1..]);
      ([text[0]] + parts.0, parts.1)
  }

  function EncodeCursor<T>(isoformat: T -> string, p: Position<T>): string
    requires IsAscii(isoformat(p.collectedAt))
  {
    PrintedIsAscii(p.itemId);
    Encode(Bytes(isoformat(p.collectedAt) + "|" + PrintInt(p.itemId)))
  }

  /** None where the endpoint answers with status 400. */
  function DecodeCursor<T>(fromisoformat: string -> Option<T>, value: string): Option<Position<T>> {
    var bytes := Decode(value);
    if bytes.None? then None
    else
      var raw := Text(bytes.value);
      if raw.None? then None
      else
        var parts := Partition(raw.value);
        var at, id := fromisoformat(parts.0), ParseInt(parts.1);
        if at.None? || id.None? then None else Some(Position(at.value, id.value))
  }

  lemma PrintedIsAscii(n: int)
    ensures IsAscii(PrintInt(n))
  {
  }

  lemma {:induction false} PartitionAtFirstBar(before: string, after: string)
    requires '|' !in before
    ensures Partition(before + "|" + after) == (before, after)
  {
    var text := before + "|" + after;
    if before == "" {
      assert text[1..] == after;
    } else {
      PartitionAtFirstBar(before[1..], after);
      assert text[1..] == before[1..] + "|" + after;
      assert [before[0]] + before[1..] == before;
    }
  }

  lemma {:induction false} TextOfBytes(text: string)
    requires IsAscii(text)
    ensures Text(Bytes(text)) == Some(text)
  {
    var read := Text(Bytes(text)).value;
    assert forall i :: 0 <= i < |text| ==> read[i] == text[i];
    assert read == text;
  }

  /** Decoding a cursor gives back the position it was made from, for every instant and every id. */
  lemma {:induction false} CursorRoundTrip<T>(isoformat: T -> string, fromisoformat: string -> Option<T>, p: Position<T>)
    requires IsAscii(isoformat(p.collectedAt)) && '|' !in isoformat(p.collectedAt)
    requires fromisoformat(isoformat(p.collectedAt)) == Some(p.collectedAt)
    ensures DecodeCursor(fromisoformat, EncodeCursor(isoformat, p)) == Some(p)
  {
    hide Encode, Decode, Parse, Print;
    PrintedIsAscii(p.itemId);
    var raw := isoformat(p.collectedAt) + "|" + PrintInt(p.itemId);
    DecodeReadsEncode(Bytes(raw));
    TextOfBytes(raw);
    PartitionAtFirstBar(isoformat(p.collectedAt), PrintInt(p.itemId));
    ParseIntReadsPrintInt(p.itemId);
  }

  /** Two positions never share a cursor. */
  lemma {:induction false} CursorsAreDistinct<T>(isoformat: T -> string, fromisoformat: string -> Option<T>,
                                                 p: Position<T>, q: Position<T>)
    requires IsAscii(isoformat(p.collectedAt)) && '|' !in isoformat(p.collectedAt)
    requires IsAscii(isoformat(q.collectedAt)) && '|' !in isoformat(q.collectedAt)
    requires fromisoformat(isoformat(p.collectedAt)) == Some(p.collectedAt)
    requires fromisoformat(isoformat(q.collectedAt)) == Some(q.collectedAt)
    ensures EncodeCursor(isoformat, p) == EncodeCursor(isoformat, q) ==> p == q
  {
    CursorRoundTrip(isoformat, fromisoformat, p);
    CursorRoundTrip(isoformat, fromisoformat, q);
  }

  /** Reading bytes as ASCII text undoes writing it, and refuses everything else. */
  lemma {:induction false} TextReadsBytes(bytes: seq<Byte>, text: string)
    ensures Text(bytes) == Some(text) <==> IsAscii(text) && |bytes| == |text|
                                           && forall i :: 0 <= i < |text| ==> bytes[i] == text[i] as int
  {
    var raw := Text(bytes);
    if IsAscii(text) && |bytes| == |text| && forall i :: 0 <= i < |text| ==> bytes[i] == text[i] as int {
      assert raw.Some? && raw.value == text;
    }
  }
}
