/** Bytes from a capture tool to whole frames of samples
    (server/crates/dialf/src/audio/command_backend.rs and backend.rs). */
module Capture {
  import opened Arithmetic
  import opened Seqs

  type Byte = x: int | 0 <= x < 0x100 witness 0

  /** Two bytes, little end first, as a two's-complement sample. */
  function FromLe(lo: Byte, hi: Byte): Sample {
    var w := lo + 0x100 * hi;
    if w < 0x8000 then w else w - 0x1_0000
  }

  /** The sample is what its bytes add up to, the low one first, but for a turn of 65536. */
  lemma LittleEndian(lo: Byte, hi: Byte)
    ensures FromLe(lo, hi) == lo + 256 * hi || FromLe(lo, hi) == lo + 256 * hi - 65536
  {
  }

  function ToLe(s: Sample): (b: (Byte, Byte)) {
    var w := if s < 0 then s + 0x1_0000 else s;
    (w % 0x100, w / 0x100)
  }

  function Decode(bytes: seq<Byte>): (r: seq<Sample>)
    ensures |r| == |bytes| / 2
  {
    seq(|bytes| / 2, i requires 0 <= i < |bytes| / 2 => FromLe(bytes[2 * i], bytes[2 * i + 1]))
  }

  /** The playback side: every sample as two bytes. */
  method EncodePcm(pcm: seq<Sample>) returns (bytes: seq<Byte>)
    ensures |bytes| == 2 * |pcm| && Decode(bytes) == pcm
  {
    bytes := [];
    for i := 0 to |pcm|
      invariant |bytes| == 2 * i && Decode(bytes) == pcm[..i]
    {
      var (lo, hi) := ToLe(pcm[i]);
      FromLeInvertsToLe(pcm[i]);
      assert Decode(bytes + [lo, hi]) == Decode(bytes) + [pcm[i]];
      bytes := bytes + [lo, hi];
    }
  }

  lemma FromLeInvertsToLe(s: Sample)
    ensures FromLe(ToLe(s).0, ToLe(s).1) == s
  {
  }

  lemma ToLeInvertsFromLe(lo: Byte, hi: Byte)
    ensures ToLe(FromLe(lo, hi)) == (lo, hi)
  {
  }

  /** Nothing but whole frames of `ch` samples. */
  ghost predicate WholeFrames(s: seq<Sample>, ch: nat)
    requires ch > 0
  {
    Leftover(s, ch) == []
  }

  /** The tool's output pipe. A read hands over as much of it as the system likes. */
  class Pipe {
    var rest: seq<Byte>

    constructor (bytes: seq<Byte>)
      ensures rest == bytes
    {
      rest := bytes;
    }

    method Read(max: nat) returns (chunk: seq<Byte>)
      requires max > 0
      modifies this
      ensures old(rest) == chunk + rest && |chunk| <= max
      ensures chunk == [] ==> old(rest) == []
    {
      if rest == [] {
        return [];
      }
      var n: nat :| 1 <= n <= |rest| && n <= max;
      chunk, rest := rest[..n], rest[n..];
    }
  }

  /** The first n samples that the bytes spell. */
  method DecodeInto(out: array<Sample>, bytes: seq<Byte>, n: nat)
    requires n <= out.Length && 2 * n <= |bytes|
    modifies out
    ensures out[..n] == Decode(bytes[..2 * n])
  {
    for i := 0 to n
      invariant forall j :: 0 <= j < i ==> out[j] == FromLe(bytes[2 * j], bytes[2 * j + 1])
    {
      out[i] := FromLe(bytes[2 * i], bytes[2 * i + 1]);
    }
  }

  class CommandCaptureSource {
    const channels: nat
    const stdout: Pipe
    var leftover: seq<Byte>

    ghost predicate Valid() { channels >= 1 }

    /** The bytes the tool has still to deliver to the caller. */
    ghost function Remaining(): seq<Byte>
      reads this, stdout
    {
      leftover + stdout.rest
    }

    constructor (stdout: Pipe, channels: nat)
      ensures Valid() && this.channels == Max(channels, 1) && this.stdout == stdout && leftover == []
    {
      this.stdout, this.channels, leftover := stdout, Max(channels, 1), [];
    }

    /** Deliver the next whole frames, however the pipe splits them. With room for one frame, 0 means
        the tool is done and at most a torn frame is left; that frame is never delivered. */
    method Read(out: array<Sample>) returns (n: nat)
      requires Valid()
      modifies this, stdout, out
      ensures n <= out.Length && WholeFrames(out[..n], channels)
      ensures 2 * n <= |old(Remaining())|
      ensures out[..n] == Decode(old(Remaining())[..2 * n]) && Remaining() == old(Remaining())[2 * n..]
      ensures n == 0 <==> out.Length < channels || |old(Remaining())| < 2 * channels
      ensures n == 0 && out.Length >= channels ==> stdout.rest == []
    {
      var ch := channels;
      if out.Length < ch {
        assert out[..0] == [];
        return 0;
      }
      var frameBytes := ch * 2;
      var wantBytes := out.Length / ch * frameBytes;
      while |leftover| < frameBytes
        invariant Remaining() == old(Remaining())
        decreases |stdout.rest|
      {
        var chunk := stdout.Read(Max(wantBytes, frameBytes));
        if chunk == [] {
          return 0;
        }
        assert leftover + (chunk + stdout.rest) == (leftover + chunk) + stdout.rest;
        leftover := leftover + chunk;
      }
      n := FramesThatFit(out.Length, ch);
      DecodeInto(out, leftover, n);
      assert old(Remaining())[..2 * n] == leftover[..2 * n];
      leftover := leftover[2 * n..];
    }

    /** Samples in the frames that are both buffered and fit in `room` samples. */
    method FramesThatFit(room: nat, ch: nat) returns (n: nat)
      requires ch >= 1 && room >= ch && |leftover| >= 2 * ch
      ensures ch <= n <= room && 2 * n <= |leftover|
      ensures forall s: seq<Sample> :: |s| == n ==> WholeFrames(s, ch)
    {
      var frames := Min(|leftover| / (ch * 2), room / ch);
      n := frames * ch;
      FramesFit(frames, |leftover|, room, ch);
      forall s: seq<Sample> | |s| == n
        ensures WholeFrames(s, ch)
      {
        BlocksCount(s, ch, frames);
      }
    }
  }

  lemma FramesFit(frames: nat, buffered: nat, room: nat, ch: nat)
    requires ch >= 1 && room >= ch && buffered >= 2 * ch && frames == Min(buffered / (ch * 2), room / ch)
    ensures ch <= frames * ch <= room && 2 * (frames * ch) <= buffered
  {
    DivAtLeastOne(buffered, ch * 2);
    DivAtLeastOne(room, ch);
    MulLe(1, frames, ch);
    MulDivLe(frames, room, ch);
    MulDivLe(frames, buffered, ch * 2);
    Doubled(frames, ch);
  }

  lemma Doubled(a: nat, b: nat)
    ensures a * (b * 2) == 2 * (a * b)
  {
  }

  // ---- reducing to the call channel ----------------------------------------------------------

  /** Channel 0 of each frame: the call channel. */
  function Voice(frames: seq<seq<Sample>>): (r: seq<Sample>)
    requires forall i :: 0 <= i < |frames| ==> frames[i] != []
    ensures |r| == |frames|
  {
    seq(|frames|, i requires 0 <= i < |frames| => frames[i][0])
  }

  function CallChannel(s: seq<Sample>, ch: nat): (r: seq<Sample>)
    requires ch > 0
  {
    Voice(Blocks(s, ch))
  }

  lemma VoiceAppend(a: seq<seq<Sample>>, b: seq<seq<Sample>>)
    requires (forall i :: 0 <= i < |a| ==> a[i] != []) && (forall i :: 0 <= i < |b| ==> b[i] != [])
    ensures Voice(a + b) == Voice(a) + Voice(b)
  {
  }

  lemma CallChannelAppend(a: seq<Sample>, b: seq<Sample>, ch: nat)
    requires ch > 0 && WholeFrames(a, ch)
    ensures CallChannel(a + b, ch) == CallChannel(a, ch) + CallChannel(b, ch)
  {
    BlocksAppend(a, b, ch);
    AfterNothing(Leftover(a, ch), b);
    VoiceAppend(Blocks(a, ch), Blocks(b, ch));
  }

  lemma {:induction false} CallChannelOfMono(s: seq<Sample>)
    ensures CallChannel(s, 1) == s
  {
    if s != [] {
      CallChannelOfMono(s[1..]);
      assert Blocks(s, 1) == [s[..1]] + Blocks(s[1..], 1);
      assert s == [s[0]] + s[1..];
      assert CallChannel(s, 1) == [s[0]] + CallChannel(s[1..], 1);
    }
  }

  lemma {:induction false} BlockAt(s: seq<Sample>, ch: nat, i: nat, at: nat)
    requires ch > 0 && i < |Blocks(s, ch)| && at == i * ch
    ensures at + ch <= |s| && Blocks(s, ch)[i] == s[at..at + ch]
  {
    if i > 0 {
      MulPred(i, ch);
      BlockAt(s[ch..], ch, i - 1, at - ch);
      assert s[ch..][at - ch..at] == s[at..at + ch];
    }
  }

  /** The call channel is the first sample of each whole frame. */
  lemma CallChannelAt(s: seq<Sample>, ch: nat, i: nat)
    requires ch > 0
    ensures |CallChannel(s, ch)| == |s| / ch
    ensures i < |s| / ch ==> i * ch < |s| && CallChannel(s, ch)[i] == s[i * ch]
  {
    BlocksByDivision(s, ch);
    if i < |s| / ch {
      BlockAt(s, ch, i, i * ch);
    }
  }

  lemma DecodeAppend(a: seq<Byte>, b: seq<Byte>)
    requires |a| % 2 == 0
    ensures Decode(a + b) == Decode(a) + Decode(b)
  {
  }

  /** `DownmixMono` around the capture tool: one sample a frame. */
  class DownmixMono {
    const inner: CommandCaptureSource

    constructor (inner: CommandCaptureSource)
      ensures this.inner == inner
    {
      this.inner := inner;
    }

    method Read(out: array<Sample>) returns (n: nat)
      requires inner.Valid()
      modifies inner, inner.stdout, out
      ensures n <= out.Length
      ensures out.Length > 0 ==>
        && CallChannel(Decode(old(inner.Remaining())), inner.channels)
             == out[..n] + CallChannel(Decode(inner.Remaining()), inner.channels)
        && (n == 0 <==> |old(inner.Remaining())| < 2 * inner.channels)
        && |inner.Remaining()| <= |old(inner.Remaining())| - n
    {
      var ch := inner.channels;
      ghost var before := inner.Remaining();
      if ch == 1 {
        n := inner.Read(out);
        DecodeAppend(before[..2 * n], before[2 * n..]);
        assert before == before[..2 * n] + before[2 * n..];
        CallChannelOfMono(Decode(before));
        CallChannelOfMono(Decode(inner.Remaining()));
        return;
      }
      var buf := new Sample[Max(out.Length * ch, ch)];
      var m := inner.Read(buf);
      ghost var got := buf[..m];
      n := FirstSamples(buf, m, ch, out);
      assert before == before[..2 * m] + before[2 * m..];
      DecodeAppend(before[..2 * m], before[2 * m..]);
      CallChannelAppend(got, Decode(before[2 * m..]), ch);
    }

    method FirstSamples(buf: array<Sample>, m: nat, ch: nat, out: array<Sample>) returns (n: nat)
      requires ch > 0 && m <= buf.Length == Max(out.Length * ch, ch) && WholeFrames(buf[..m], ch)
      requires buf != out
      modifies out
      ensures n <= out.Length && n <= m && (out.Length > 0 ==> (n == 0 <==> m == 0))
      ensures out.Length > 0 ==> out[..n] == CallChannel(buf[..m], ch)
    {
      BlocksByDivision(buf[..m], ch);
      ghost var frames := Blocks(buf[..m], ch);
      FramesBounded(m, ch, out.Length);
      n := Min(m / ch, out.Length);
      for i := 0 to n
        invariant forall j :: 0 <= j < i ==> out[j] == frames[j][0]
      {
        BlockAt(buf[..m], ch, i, i * ch);
        out[i] := buf[i * ch];
      }
    }
  }

  lemma FramesBounded(m: nat, ch: nat, room: nat)
    requires ch > 0 && m <= Max(room * ch, ch) && m % ch == 0
    ensures m / ch <= m && (room > 0 ==> m / ch <= room) && (m / ch == 0 <==> m == 0)
  {
    var q := m / ch;
    assert m == q * ch;
    if q > 0 {
      MulLe(1, ch, q);
    }
    if room > 0 {
      MulLe(1, room, ch);
      GroupsFit(q, room, ch);
    }
  }
}
