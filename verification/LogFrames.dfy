/**
  The sandbox's log demultiplexer: the container daemon multiplexes stdout and stderr into frames of
  an eight-byte header (stream number, three unused bytes, big-endian payload size) and a payload.
 */
module LogFrames {

  newtype byte = x: int | 0 <= x < 0x100

  type bytes = seq<byte>

  /** `int.from_bytes(s, "big")`. */
  function FromBytes(s: bytes): nat {
    if s == [] then 0 else FromBytes(s[..|s| - 1]) * 0x100 + s[|s| - 1] as nat
  }

  /** The payload size a header announces. */
  function Size(header: bytes): nat
    requires |header| == 8
  {
    FromBytes(header[4..])
  }

  /** Does `rest` start with a whole frame? */
  predicate StartsWithFrame(rest: bytes) {
    |rest| >= 8 && |rest| >= 8 + Size(rest[..8])
  }

  datatype Streams = Streams(out: bytes, err: bytes)

  /** Stream 2 is stderr; every other number counts as stdout. */
  function Prepend(stream: byte, payload: bytes, s: Streams): Streams {
    if stream == 2 then Streams(s.out, payload + s.err) else Streams(payload + s.out, s.err)
  }

  /** The two streams multiplexed in `rest`, up to the first incomplete frame. */
  function Demultiplex(rest: bytes): Streams {
    if StartsWithFrame(rest) then
      var end := 8 + Size(rest[..8]);
      Prepend(rest[0], rest[8..end], Demultiplex(rest[end..]))
    else Streams([], [])
  }

  lemma FromBytesAppend(s: bytes, b: byte)
    ensures FromBytes(s + [b]) == FromBytes(s) * 0x100 + b as nat
  {
    assert (s + [b])[..|s|] == s;
  }

  /** A header's last four bytes are the size, the first of them the most significant. */
  lemma SizeIsBigEndian(header: bytes)
    requires |header| == 8
    ensures Size(header) ==
            0x100_0000 * header[4] as nat + 0x1_0000 * header[5] as nat + 0x100 * header[6] as nat + header[7] as nat
  {
    var one, two, three := [header[4]], [header[4]] + [header[5]], [header[4]] + [header[5]] + [header[6]];
    FromBytesAppend([], header[4]);
    FromBytesAppend(one, header[5]);
    FromBytesAppend(two, header[6]);
    FromBytesAppend(three, header[7]);
    assert [] + [header[4]] == one && header[4..] == three + [header[7]];
  }

  lemma FrameAt(data: bytes, offset: nat)
    requires offset + 8 <= |data|
    ensures var end := offset + 8 + FromBytes(data[offset + 4..offset + 8]);
            Demultiplex(data[offset..]) ==
            if end > |data| then Streams([], [])
            else Prepend(data[offset], data[offset + 8..end], Demultiplex(data[end..]))
  {
    var rest, size := data[offset..], FromBytes(data[offset + 4..offset + 8]);
    assert rest[..8][4..] == data[offset + 4..offset + 8];
    if offset + 8 + size <= |data| {
      assert rest[8..8 + size] == data[offset + 8..offset + 8 + size];
      assert rest[8 + size..] == data[offset + 8 + size..];
    }
  }

  /** `_decode_logs`: the two streams, cut to `limit` bytes together, stdout first. */
  method DecodeLogs(data: bytes, limit: nat) returns (out: bytes, err: bytes, truncated: bool)
    ensures var all := Demultiplex(data);
            && out <= all.out && (out == all.out || |out| == limit)
            && err <= all.err && (err == all.err || |out| + |err| == limit)
            && (truncated <==> |all.out| + |all.err| > limit)
            && (!truncated <==> out == all.out && err == all.err)
    ensures |out| + |err| <= limit
  {
    var stdout, stderr := ReadFrames(data);
    truncated := |stdout| + |stderr| > limit;
    var remaining := limit;
    out := if |stdout| <= remaining then stdout else stdout[..remaining];
    remaining := remaining - |out|;
    err := if |stderr| <= remaining then stderr else stderr[..remaining];
  }

  /** Its loop. */
  method ReadFrames(data: bytes) returns (stdout: bytes, stderr: bytes)
    ensures Streams(stdout, stderr) == Demultiplex(data)
  {
    stdout, stderr := [], [];
    var offset := 0;
    while offset + 8 <= |data|
      invariant 0 <= offset <= |data|
      invariant Join(Streams(stdout, stderr), Demultiplex(data[offset..])) == Demultiplex(data)
      decreases |data| - offset
    {
      FrameAt(data, offset);
      var stream := data[offset];
      var size := FromBytes(data[offset + 4..offset + 8]);
      var start, end := offset + 8, offset + 8 + size;
      if end > |data| {
        return;
      }
      JoinPrepend(Streams(stdout, stderr), stream, data[start..end], Demultiplex(data[end..]));
      if stream == 2 {
        stderr := stderr + data[start..end];
      } else {
        stdout := stdout + data[start..end];
      }
      offset := end;
    }
  }

  function Join(s: Streams, t: Streams): Streams {
    Streams(s.out + t.out, s.err + t.err)
  }

  lemma JoinPrepend(s: Streams, stream: byte, payload: bytes, t: Streams)
    ensures Join(s, Prepend(stream, payload, t)) ==
            Join(if stream == 2 then Streams(s.out, s.err + payload) else Streams(s.out + payload, s.err), t)
  {
    assert s.out + (payload + t.out) == (s.out + payload) + t.out;
    assert s.err + (payload + t.err) == (s.err + payload) + t.err;
  }

  // ---------------------------------------------------------------- framing

  datatype Frame = Frame(stream: byte, unused: (byte, byte, byte), payload: bytes)

  predicate Encodable(f: Frame) {
    |f.payload| < 0x1_0000_0000
  }

  /** `n` in `width` big-endian bytes. */
  function ToBytes(n: nat, width: nat): (s: bytes)
    ensures |s| == width
  {
    if width == 0 then [] else ToBytes(n / 0x100, width - 1) + [(n % 0x100) as byte]
  }

  function Power256(width: nat): nat {
    if width == 0 then 1 else 0x100 * Power256(width - 1)
  }

  lemma {:induction false} BytesRoundTrip(n: nat, width: nat)
    requires n < Power256(width)
    ensures FromBytes(ToBytes(n, width)) == n
  {
    if width > 0 {
      BytesRoundTrip(n / 0x100, width - 1);
      assert ToBytes(n, width)[..width - 1] == ToBytes(n / 0x100, width - 1);
    }
  }

  function Header(f: Frame): (h: bytes)
    ensures |h| == 8
  {
    [f.stream, f.unused.0, f.unused.1, f.unused.2] + ToBytes(|f.payload|, 4)
  }

  function Encode(f: Frame): bytes {
    Header(f) + f.payload
  }

  function EncodeAll(fs: seq<Frame>): bytes {
    if fs == [] then [] else Encode(fs[0]) + EncodeAll(fs[1..])
  }

  /** One stream's payloads, joined. */
  function Payloads(fs: seq<Frame>, wantErr: bool): bytes {
    if fs == [] then []
    else (if (fs[0].stream == 2) == wantErr then fs[0].payload else []) + Payloads(fs[1..], wantErr)
  }

  predicate AllEncodable(fs: seq<Frame>) {
    forall i :: 0 <= i < |fs| ==> Encodable(fs[i])
  }

  lemma HeaderReadsBack(f: Frame)
    requires Encodable(f)
    ensures Size(Header(f)) == |f.payload| && Header(f)[0] == f.stream
  {
    assert Header(f)[4..] == ToBytes(|f.payload|, 4);
    assert Power256(4) == 0x1_0000_0000;
    BytesRoundTrip(|f.payload|, 4);
  }

  /** A whole frame in front goes to its stream. */
  lemma FrameIsRead(f: Frame, after: bytes)
    requires Encodable(f)
    ensures Demultiplex(Encode(f) + after) == Prepend(f.stream, f.payload, Demultiplex(after))
  {
    var rest := Encode(f) + after;
    HeaderReadsBack(f);
    assert rest[..8] == Header(f);
    assert rest[8..8 + |f.payload|] == f.payload && rest[8 + |f.payload|..] == after;
  }

  /** What `fs` contributes to both streams, in front of `tail`. */
  function Joined(fs: seq<Frame>, tail: Streams): Streams {
    Streams(Payloads(fs, false) + tail.out, Payloads(fs, true) + tail.err)
  }

  lemma FirstFrameJoins(f: Frame, fs: seq<Frame>, tail: Streams)
    ensures Prepend(f.stream, f.payload, Joined(fs, tail)) == Joined([f] + fs, tail)
  {
    assert ([f] + fs)[1..] == fs;
    assert Payloads([f] + fs, true) == (if f.stream == 2 then f.payload else []) + Payloads(fs, true);
    assert Payloads([f] + fs, false) == (if f.stream == 2 then [] else f.payload) + Payloads(fs, false);
  }

  lemma {:induction false} FramesAreRead(fs: seq<Frame>, after: bytes)
    requires AllEncodable(fs)
    ensures Demultiplex(EncodeAll(fs) + after) == Joined(fs, Demultiplex(after))
  {
    if fs == [] {
      assert EncodeAll(fs) + after == after;
    } else {
      var f, rest := fs[0], fs[1..];
      FramesAreRead(rest, after);
      FrameIsRead(f, EncodeAll(rest) + after);
      assert EncodeAll(fs) + after == Encode(f) + (EncodeAll(rest) + after);
      FirstFrameJoins(f, rest, Demultiplex(after));
      assert [f] + rest == fs;
    }
  }

  /** Decoding undoes framing: each stream is the concatenation of its frames' payloads. */
  lemma DemultiplexUndoesFraming(fs: seq<Frame>)
    requires AllEncodable(fs)
    ensures Demultiplex(EncodeAll(fs)) == Streams(Payloads(fs, false), Payloads(fs, true))
  {
    FramesAreRead(fs, []);
    assert EncodeAll(fs) + [] == EncodeAll(fs);
  }

  /** A frame cut short is dropped, and everything before it is kept. */
  lemma CutFrameIsDropped(fs: seq<Frame>, f: Frame, n: nat)
    requires AllEncodable(fs) && Encodable(f) && n < |Encode(f)|
    ensures Demultiplex(EncodeAll(fs) + Encode(f)[..n]) == Streams(Payloads(fs, false), Payloads(fs, true))
  {
    var cut := Encode(f)[..n];
    FramesAreRead(fs, cut);
    if n >= 8 {
      HeaderReadsBack(f);
      assert cut[..8] == Header(f);
    }
  }

  lemma PrependKeepsPrefix(stream: byte, payload: bytes, s: Streams, t: Streams)
    requires s.out <= t.out && s.err <= t.err
    ensures Prepend(stream, payload, s).out <= Prepend(stream, payload, t).out
    ensures Prepend(stream, payload, s).err <= Prepend(stream, payload, t).err
  {
  }

  lemma PrefixParts(data: bytes, n: nat, end: nat)
    requires 8 <= end <= n <= |data|
    ensures data[..n][8..end] == data[8..end] && data[..n][end..] == data[end..][..n - end]
  {
  }

  /** Of any bytes, framed or not: what a prefix yields is a prefix of what the whole yields. */
  lemma {:induction false} PrefixYieldsPrefix(data: bytes, n: nat)
    requires n <= |data|
    ensures Demultiplex(data[..n]).out <= Demultiplex(data).out
    ensures Demultiplex(data[..n]).err <= Demultiplex(data).err
    decreases |data|
  {
    var part := data[..n];
    if StartsWithFrame(part) {
      assert part[..8] == data[..8];
      var end := 8 + Size(data[..8]);
      PrefixParts(data, n, end);
      PrefixYieldsPrefix(data[end..], n - end);
      var s, t := Demultiplex(part[end..]), Demultiplex(data[end..]);
      PrependKeepsPrefix(data[0], data[8..end], s, t);
      assert Demultiplex(part) == Prepend(data[0], data[8..end], s);
      assert Demultiplex(data) == Prepend(data[0], data[8..end], t);
    }
  }
}
