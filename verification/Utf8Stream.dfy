/**
 Bytes on the wire: the server encodes each frame as UTF-8, the page decodes chunk by chunk with a decoder that keeps an
 unfinished character until the next chunk.
 */
module Utf8Stream {
  import opened Text
  import opened SseWire

  type Byte = b: int | 0 <= b < 256

  function EncodeChar(c: char): (r: seq<Byte>)
    ensures 1 <= |r| <= 4 && |r| == Width(r[0])
  {
    var n := c as int;
    if n < 0x80 then [n]
    else
      var n1 := n / 64;
      if n < 0x800 then [0xC0 + n1, 0x80 + n % 64]
      else
        var n2 := n1 / 64;
        if n < 0x1_0000 then [0xE0 + n2, 0x80 + n1 % 64, 0x80 + n % 64]
        else [0xF0 + n2 / 64, 0x80 + n2 % 64, 0x80 + n1 % 64, 0x80 + n % 64]
  }

  function Encode(s: string): seq<Byte> {
    if s == "" then [] else EncodeChar(s[0]) + Encode(s[1..])
  }

  /** How many bytes the character takes that starts with this one. */
  function Width(lead: Byte): nat {
    if lead < 0x80 then 1 else if lead < 0xE0 then 2 else if lead < 0xF0 then 3 else 4
  }

  /** Appends the six bits of a continuation byte. */
  function Six(n: int, b: Byte): int { n * 64 + b - 0x80 }

  function Less(b: Byte, mark: int): int { b - mark }

  function DecodeChar(b: seq<Byte>): char
    requires b != [] && |b| == Width(b[0])
  {
    var n :=
      if |b| == 1 then Less(b[0], 0)
      else if |b| == 2 then Six(Less(b[0], 0xC0), b[1])
      else if |b| == 3 then Six(Six(Less(b[0], 0xE0), b[1]), b[2])
      else Six(Six(Six(Less(b[0], 0xF0), b[1]), b[2]), b[3]);
    if 0 <= n < 0xD800 || 0xE000 <= n < 0x11_0000 then n as char else '\U{FFFD}'
  }

  datatype Decoded = Decoded(text: string, pending: seq<Byte>)

  /** Decodes as far as whole characters go. */
  function Decode(b: seq<Byte>): Decoded
    decreases |b|
  {
    if b == [] || |b| < Width(b[0]) then Decoded("", b)
    else
      var w := Width(b[0]);
      var rest := Decode(b[w..]);
      Decoded([DecodeChar(b[..w])] + rest.text, rest.pending)
  }

  /** Decoding what was encoded gives the text back and leaves nothing pending. */
  lemma {:induction false} EncodedTextReturns(s: string)
    ensures Decode(Encode(s)) == Decoded(s, [])
  {
    if s != "" {
      EncodedTextReturns(s[1..]);
      assert [s[0]] + s[1..] == s;
    }
  }

  /** Stopping after `a` and resuming with what is pending makes no difference. */
  predicate Resumes(a: seq<Byte>, b: seq<Byte>) {
    && Decode(a + b).text == Decode(a).text + Decode(Decode(a).pending + b).text
    && Decode(a + b).pending == Decode(Decode(a).pending + b).pending
  }

  lemma Associates<T>(a: seq<T>, b: seq<T>, c: seq<T>)
    ensures a + b + c == a + (b + c)
  {
  }

  lemma ResumesBehind(p: seq<Byte>, q: seq<Byte>, b: seq<Byte>)
    requires p != [] && |p| == Width(p[0]) && Resumes(q, b)
    ensures Resumes(p + q, b)
  {
    Associates(p, q, b);
    Associates([DecodeChar(p)], Decode(q).text, Decode(Decode(q).pending + b).text);
  }

  lemma {:induction false} DecodeResumes(a: seq<Byte>, b: seq<Byte>)
    ensures Resumes(a, b)
    decreases |a|
  {
    if a != [] && |a| >= Width(a[0]) {
      var w := Width(a[0]);
      DecodeResumes(a[w..], b);
      ResumesBehind(a[..w], a[w..], b);
      assert a[..w] + a[w..] == a;
    }
  }

  function Joined(chunks: seq<seq<Byte>>): seq<Byte> {
    if chunks == [] then [] else chunks[0] + Joined(chunks[1..])
  }

  /** The text each chunk yields, given what the chunks before left pending. */
  function DecodeChunks(pending: seq<Byte>, chunks: seq<seq<Byte>>): (texts: seq<string>)
    ensures |texts| == |chunks|
    decreases |chunks|
  {
    if chunks == [] then []
    else
      var d := Decode(pending + chunks[0]);
      [d.text] + DecodeChunks(d.pending, chunks[1..])
  }

  /** However the bytes are cut, even inside a character, the decoded chunks join up to the decoded whole. */
  lemma {:induction false} CutsDecodeAlike(pending: seq<Byte>, chunks: seq<seq<Byte>>)
    requires Decode(pending).text == ""
    ensures Concat(DecodeChunks(pending, chunks)) == Decode(pending + Joined(chunks)).text
    decreases |chunks|
  {
    if chunks == [] {
      assert pending + Joined(chunks) == pending;
    } else {
      PendingIsUnfinished(pending + chunks[0]);
      CutsDecodeAlike(Decode(pending + chunks[0]).pending, chunks[1..]);
      OneChunkMore(pending, chunks[0], chunks[1..]);
    }
  }

  lemma OneChunkMore(pending: seq<Byte>, chunk: seq<Byte>, later: seq<seq<Byte>>)
    requires var d := Decode(pending + chunk);
      Concat(DecodeChunks(d.pending, later)) == Decode(d.pending + Joined(later)).text
    ensures var d := Decode(pending + chunk);
      Concat([d.text] + DecodeChunks(d.pending, later)) == Decode(pending + (chunk + Joined(later))).text
  {
    DecodeResumes(pending + chunk, Joined(later));
    Associates(pending, chunk, Joined(later));
  }

  lemma {:induction false} PendingIsUnfinished(b: seq<Byte>)
    ensures Decode(Decode(b).pending) == Decoded("", Decode(b).pending)
    decreases |b|
  {
    if b != [] && |b| >= Width(b[0]) {
      PendingIsUnfinished(b[Width(b[0])..]);
    }
  }

  /** The decoded chunks of an encoded text join up to that text. */
  lemma BytesCarryText(s: string, chunks: seq<seq<Byte>>)
    requires Joined(chunks) == Encode(s)
    ensures Concat(DecodeChunks([], chunks)) == s
  {
    CutsDecodeAlike([], chunks);
    EncodedTextReturns(s);
    assert [] + Joined(chunks) == Encode(s);
  }

  /** What the server prints and encodes is what the page reads, wherever the network cuts the bytes. */
  lemma ByteRoundTrip(frames: seq<Frame>, chunks: seq<seq<Byte>>)
    requires forall f :: f in frames ==> Printable(f)
    requires Joined(chunks) == Encode(Printed(frames))
    ensures var (blocks, rest) := Feed("", DecodeChunks([], chunks)); ParseAll(blocks) == Sent(frames) && rest == ""
  {
    BytesCarryText(Printed(frames), chunks);
    RoundTrip(frames, DecodeChunks([], chunks));
  }
}
