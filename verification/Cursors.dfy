/** Pagination cursors: the position of the last row shown, as unpadded URL-safe base64. */
module Cursors {
  import opened Common
  import opened Base64

  /** The byte of "|". */
  const BAR: Byte := 124

  /** How timestamps and row ids are written and read; reading rejects what it cannot parse. */
  datatype Codec<!Time(==), !Id(==)> = Codec(
    showTime: Time -> seq<Byte>, readTime: seq<Byte> -> Option<Time>,
    showId: Id -> seq<Byte>, readId: seq<Byte> -> Option<Id>)

  /** Reading undoes writing, and a written timestamp has no bar in it. */
  ghost predicate Faithful<Time(!new), Id(!new)>(c: Codec<Time, Id>) {
    && (forall t :: c.readTime(c.showTime(t)) == Some(t) && BAR !in c.showTime(t))
    && (forall i :: c.readId(c.showId(i)) == Some(i))
  }

  function EncodeBytes(raw: seq<Byte>): string { StripPads(Encode(true, raw)) }

  function DecodeBytes(value: string): Option<seq<Byte>> { Decode(true, false, Repad(value)) }

  /** `split("|", 1)` into exactly two parts. */
  function SplitBar(raw: seq<Byte>): Option<(seq<Byte>, seq<Byte>)> {
    if raw == [] then None
    else if raw[0] == BAR then Some(([], raw[1..]))
    else
      var rest := SplitBar(raw[1..]);
      if rest.None? then None else Some(([raw[0]] + rest.value.0, rest.value.1))
  }

  function EncodeCursor<Time, Id>(c: Codec<Time, Id>, time: Time, id: Id): string {
    EncodeBytes(c.showTime(time) + [BAR] + c.showId(id))
  }

  function DecodeCursor<Time, Id>(c: Codec<Time, Id>, value: string): Option<(Time, Id)> {
    var raw := DecodeBytes(value);
    if raw.None? then None
    else
      var parts := SplitBar(raw.value);
      if parts.None? then None
      else
        var time, id := c.readTime(parts.value.0), c.readId(parts.value.1);
        if time.None? || id.None? then None else Some((time.value, id.value))
  }

  /** Every byte string survives the trip, whatever its length. */
  lemma BytesRoundTrip(raw: seq<Byte>)
    ensures DecodeBytes(EncodeBytes(raw)) == Some(raw)
  {
    PaddingRestored(true, raw);
    RoundTrip(true, false, raw);
  }

  /** Letters, digits, "-" and "_": what a URL can hold as it is. */
  predicate UrlSafe(c: char) { 'A' <= c <= 'Z' || 'a' <= c <= 'z' || '0' <= c <= '9' || c == '-' || c == '_' }

  /** All characters are safe up to the padding, which is at the end. */
  predicate SafeThenPads(e: string) {
    && (forall i :: 0 <= i < |e| ==> UrlSafe(e[i]) || e[i] == PAD)
    && (forall i, j :: 0 <= i < j < |e| && e[i] == PAD ==> e[j] == PAD)
  }

  lemma {:induction false} EncodedSafeThenPads(bytes: seq<Byte>)
    ensures SafeThenPads(Encode(true, bytes))
    decreases |bytes|
  {
    if |bytes| >= 3 {
      EncodedSafeThenPads(bytes[3..]);
      var rest := Encode(true, bytes[3..]);
      assert forall i :: 4 <= i < |Encode(true, bytes)| ==> Encode(true, bytes)[i] == rest[i - 4];
    }
  }

  /** An encoded cursor can stand in a URL as it is. */
  lemma {:induction false} EncodedIsUrlSafe(raw: seq<Byte>)
    ensures forall i :: 0 <= i < |EncodeBytes(raw)| ==> UrlSafe(EncodeBytes(raw)[i])
  {
    EncodedSafeThenPads(raw);
    var e, r := Encode(true, raw), EncodeBytes(raw);
    forall i | 0 <= i < |r|
      ensures UrlSafe(r[i])
    {
      assert r[i] == e[i] && r[|r| - 1] == e[|r| - 1];
    }
  }

  /** Splitting at the first bar gives back the two fields exactly when the first has no bar. */
  lemma {:induction false} SplitExactly(first: seq<Byte>, second: seq<Byte>)
    ensures SplitBar(first + [BAR] + second) == Some((first, second)) <==> BAR !in first
  {
    var raw := first + [BAR] + second;
    if first == [] {
      assert raw[1..] == second;
    } else {
      SplitExactly(first[1..], second);
      assert raw[1..] == first[1..] + [BAR] + second;
      assert first == [first[0]] + first[1..];
      if SplitBar(raw) == Some((first, second)) {
        assert SplitBar(raw[1..]).value.0 == first[1..];
      }
    }
  }

  lemma {:induction false} SplitOnlyAtBars(raw: seq<Byte>)
    ensures SplitBar(raw).None? <==> BAR !in raw
  {
    if raw != [] {
      SplitOnlyAtBars(raw[1..]);
      assert raw == [raw[0]] + raw[1..];
    }
  }

  /** A text is a cursor exactly if it decodes to a timestamp and an id with the first bar between them. */
  lemma {:induction false} CursorExactly<Time(!new), Id(!new)>(c: Codec<Time, Id>, value: string, time: Time, id: Id)
    ensures DecodeCursor(c, value) == Some((time, id)) <==>
      exists first, second ::
        DecodeBytes(value) == Some(first + [BAR] + second) && BAR !in first &&
        c.readTime(first) == Some(time) && c.readId(second) == Some(id)
  {
    if exists first, second ::
        DecodeBytes(value) == Some(first + [BAR] + second) && BAR !in first &&
        c.readTime(first) == Some(time) && c.readId(second) == Some(id)
    {
      var first, second :|
        DecodeBytes(value) == Some(first + [BAR] + second) && BAR !in first &&
        c.readTime(first) == Some(time) && c.readId(second) == Some(id);
      SplitExactly(first, second);
    }
    if DecodeCursor(c, value) == Some((time, id)) {
      var raw := DecodeBytes(value).value;
      var parts := SplitBar(raw).value;
      SplitParts(raw);
      assert DecodeBytes(value) == Some(parts.0 + [BAR] + parts.1);
    }
  }

  lemma {:induction false} SplitParts(raw: seq<Byte>)
    requires SplitBar(raw).Some?
    ensures raw == SplitBar(raw).value.0 + [BAR] + SplitBar(raw).value.1 && BAR !in SplitBar(raw).value.0
  {
    if raw[0] != BAR {
      SplitParts(raw[1..]);
      assert raw == [raw[0]] + raw[1..];
    }
  }

  lemma {:induction false} CursorRoundTrip<Time(!new), Id(!new)>(c: Codec<Time, Id>, time: Time, id: Id)
    requires Faithful(c)
    ensures DecodeCursor(c, EncodeCursor(c, time, id)) == Some((time, id))
    ensures EncodeCursor(c, time, id) != ""
    ensures Decode(true, false, Repad(EncodeCursor(c, time, id))) == Some(c.showTime(time) + [124] + c.showId(id))
  {
    var raw := c.showTime(time) + [BAR] + c.showId(id);
    BytesRoundTrip(raw);
    SplitExactly(c.showTime(time), c.showId(id));
    assert DecodeBytes("") == Some([]) by {
      assert Repad("") == "";
    }
  }
}
