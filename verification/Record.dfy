/** Full-duplex recording on one clock (server/crates/dialf/src/audio/record.rs).

    A WAV sink is the sequence of samples written to it. A leg is read as a sequence of frames, each
    one sample per channel, so positions on the timeline are frame numbers. */
module Record {
  import opened Arithmetic
  import opened Capture
  import opened Resample
  import opened Seqs

  const RECORD_RATE: nat := 16_000

  type Frame = seq<Sample>

  predicate Frames(frames: seq<Frame>, ch: nat) {
    forall i :: 0 <= i < |frames| ==> |frames[i]| == ch
  }

  function Silence(ch: nat): Frame { Repeat(0, ch) }

  /** A leg extended with silence to n frames. */
  function Padded(frames: seq<Frame>, n: nat, ch: nat): (r: seq<Frame>)
    requires Frames(frames, ch)
    ensures Frames(r, ch) && (n >= |frames| ==> |r| == n)
  {
    frames + Repeat(Silence(ch), Max(n - |frames|, 0))
  }

  /** A prompt, and the rx clock at the moment it was placed on tx. */
  datatype Prompt = Prompt(clock: nat, samples: seq<Sample>)

  /** The tx leg after a list of prompts: each starts at the later of the tx end and its clock, with
      silence up to there. */
  function Timeline(ps: seq<Prompt>, ch: nat): (r: seq<Frame>)
    requires ch > 0
    ensures Frames(r, ch)
  {
    if ps == [] then []
    else
      var before := Timeline(ps[..|ps| - 1], ch);
      var p := ps[|ps| - 1];
      Padded(before, p.clock, ch) + Blocks(p.samples, ch)
  }

  /** The frame prompt i starts on. */
  function StartOf(ps: seq<Prompt>, i: nat, ch: nat): nat
    requires ch > 0 && i < |ps|
  {
    Max(|Timeline(ps[..i], ch)|, ps[i].clock)
  }

  function EndOf(ps: seq<Prompt>, i: nat, ch: nat): nat
    requires ch > 0 && i < |ps|
  {
    StartOf(ps, i, ch) + |Blocks(ps[i].samples, ch)|
  }

  // ---- padding -------------------------------------------------------------------------------

  /** Silence from frame `have` up to frame `want`, written in pieces of at most 4096 samples. */
  method PadTo(sink: seq<Sample>, channels: nat, have: nat, want: nat) returns (padded: seq<Sample>)
    ensures padded == sink + Repeat(0, if want <= have then 0 else (want - have) * Max(channels, 1))
  {
    padded := sink;
    if want <= have {
      return;
    }
    var scratch: seq<Sample> := Repeat(0, 4096);
    ghost var amount := (want - have) * Max(channels, 1);
    var remaining := (want - have) * Max(channels, 1);
    while remaining > 0
      invariant 0 <= remaining <= amount
      invariant padded == sink + Repeat(0, amount - remaining)
    {
      var chunk := Min(remaining, |scratch|);
      padded := padded + scratch[..chunk];
      remaining := remaining - chunk;
    }
  }

  /** `PadTo` in frames: a whole-frame leg gains that many silent frames and nothing else. */
  lemma {:induction false} SilenceIsFrames(ch: nat, k: nat)
    requires ch > 0
    ensures Repeat(0 as Sample, k * ch) == Flatten(Repeat(Silence(ch), k))
  {
    if k == 0 {
    } else {
      SilenceIsFrames(ch, k - 1);
      assert k * ch == (k - 1) * ch + ch;
      assert Repeat(0 as Sample, k * ch) == Repeat(0 as Sample, (k - 1) * ch) + Silence(ch);
      assert Repeat(Silence(ch), k) == Repeat(Silence(ch), k - 1) + [Silence(ch)];
      FlattenSnoc(Repeat(Silence(ch), k - 1), Silence(ch));
    }
  }

  method PadLeg(sink: seq<Sample>, ghost frames: seq<Frame>, ch: nat, want: nat, have: nat)
      returns (padded: seq<Sample>)
    requires ch > 0 && sink == Flatten(frames) && have == |frames|
    requires Frames(frames, ch)
    ensures padded == Flatten(Padded(frames, want, ch))
  {
    padded := PadTo(sink, ch, have, want);
    SilenceIsFrames(ch, Max(want - have, 0));
    FlattenConcat(frames, Repeat(Silence(ch), Max(want - have, 0)));
    assert want <= have ==> 0 * ch == 0;
  }

  /** What one more read adds after `captured`: the whole frames of the carried samples and the read. */
  lemma ChunkOf(captured: seq<Sample>, read: seq<Sample>, ch: nat)
    requires ch > 0
    ensures var joined := Leftover(captured, ch) + read; var chunk := Flatten(Blocks(joined, ch));
      && Flatten(Blocks(captured + read, ch)) == Flatten(Blocks(captured, ch)) + chunk
      && Blocks(captured + read, ch) == Blocks(captured, ch) + Blocks(chunk, ch)
      && Leftover(captured + read, ch) == Leftover(joined, ch)
      && WholeFrames(chunk, ch)
      && (Leftover(captured, ch) == [] && WholeFrames(read, ch) ==> chunk == read && Leftover(joined, ch) == [])
  {
    var joined := Leftover(captured, ch) + read;
    BlocksAppend(captured, read, ch);
    FlattenConcat(Blocks(captured, ch), Blocks(joined, ch));
    BlocksOfBlocks(Blocks(joined, ch), ch);
    BlocksAndLeftover(joined, ch);
    if Leftover(captured, ch) == [] {
      assert [] + read == read;
    }
  }

  method CutWhole(s: seq<Sample>, ch: nat) returns (chunk: seq<Sample>, rest: seq<Sample>)
    requires ch > 0
    ensures chunk == Flatten(Blocks(s, ch)) && rest == Leftover(s, ch)
  {
    var whole := |s| / ch * ch;
    CutAtWhole(s, ch, whole);
    chunk, rest := s[..whole], s[whole..];
  }

  // ---- the live session ----------------------------------------------------------------------

  class DuplexSession {
    const rate: nat
    const channels: nat
    const mix: bool
    const mixTxLeft: bool
    // Owned by the capture thread.
    var rx: seq<Sample>
    var carry: seq<Sample>
    var total: nat
    // Shared: the clock the capture thread publishes.
    var rxLen: nat
    // Owned by the job thread.
    var tx: seq<Sample>
    var txLen: nat

    ghost var captured: seq<Sample>
    ghost var prompts: seq<Prompt>

    ghost predicate RxValid()
      reads this`rx, this`carry, this`total, this`captured
      requires channels > 0
    {
      && rx == Flatten(Blocks(captured, channels))
      && carry == Leftover(captured, channels)
      && total == |Blocks(captured, channels)|
    }

    ghost predicate TxValid()
      reads this`tx, this`txLen, this`prompts
      requires channels > 0
    {
      && tx == Flatten(Timeline(prompts, channels))
      && txLen == |Timeline(prompts, channels)|
      && forall i :: 0 <= i < |prompts| ==> WholeFrames(prompts[i].samples, channels)
    }

    ghost predicate Valid()
      reads this
    {
      && channels > 0 && RxValid() && TxValid() && rxLen <= total
      && forall i :: 0 <= i < |prompts| ==> prompts[i].clock <= rxLen
    }

    constructor (rate: nat, channels: nat, mix: bool, mixTxLeft: bool)
      ensures Valid() && captured == [] && prompts == [] && rxLen == 0
      ensures this.rate == rate && this.channels == Max(channels, 1) && this.mix == mix && this.mixTxLeft == mixTxLeft
    {
      this.rate, this.channels, this.mix, this.mixTxLeft := rate, Max(channels, 1), mix, mixTxLeft;
      rx, carry, total, rxLen, tx, txLen := [], [], 0, 0, [], 0;
      captured, prompts := [], [];
    }

    /** One read of the capture thread: write the whole frames, carry the rest. */
    method CaptureRead(read: seq<Sample>) returns (chunk: seq<Sample>)
      requires Valid()
      modifies this`rx, this`carry, this`total, this`captured
      ensures Valid() && captured == old(captured) + read
      ensures rx == old(rx) + chunk && WholeFrames(chunk, channels)
      ensures Blocks(captured, channels) == Blocks(old(captured), channels) + Blocks(chunk, channels)
    {
      ChunkOf(captured, read, channels);
      chunk := TakeWhole(read);
      captured := captured + read;
      if chunk != [] {
        rx := rx + chunk;
        BlocksByDivision(chunk, channels);
        total := total + |chunk| / channels;
      }
    }

    /** The whole frames now available; the carry keeps the rest. */
    method TakeWhole(read: seq<Sample>) returns (chunk: seq<Sample>)
      requires channels > 0
      modifies this`carry
      ensures chunk == Flatten(Blocks(old(carry) + read, channels)) && carry == Leftover(old(carry) + read, channels)
    {
      if carry == [] && |read| % channels == 0 {
        AfterNothing(carry, read);
        WholeIsItself(read, channels);
        return read;
      }
      carry := carry + read;
      chunk, carry := CutWhole(carry, channels);
    }

    method Publish()
      requires Valid()
      modifies this`rxLen
      ensures Valid() && rxLen == total
    {
      rxLen := total;
    }

    /** Place a prompt at the rx clock. */
    method PushTx(samples: seq<Sample>)
      requires Valid() && WholeFrames(samples, channels)
      modifies this`tx, this`txLen, this`prompts
      ensures Valid() && prompts == old(prompts) + [Prompt(rxLen, samples)]
    {
      var target := rxLen;
      ghost var p := Prompt(target, samples);
      TimelineSnoc(prompts, p, channels);
      tx := PadLeg(tx, Timeline(prompts, channels), channels, target, txLen);
      txLen := Max(txLen, target);
      tx := tx + samples;
      txLen := txLen + |samples| / channels;
      prompts := prompts + [p];
    }

    /** Stop the capture, pad both legs to the longer one and mix them. */
    method Finish() returns (out: Recording)
      requires Valid()
      ensures out == Finished(Blocks(captured, channels), Timeline(prompts, channels), channels, mix, mixTxLeft)
    {
      out := FinishLegs(rx, tx, Blocks(captured, channels), Timeline(prompts, channels), total, txLen,
                        rate, channels, mix, mixTxLeft);
    }
  }

  lemma TimelineSnoc(ps: seq<Prompt>, p: Prompt, ch: nat)
    requires ch > 0 && WholeFrames(p.samples, ch)
    ensures var before := Timeline(ps, ch); var after := Timeline(ps + [p], ch);
      && Flatten(after) == Flatten(Padded(before, p.clock, ch)) + p.samples
      && |after| == Max(|before|, p.clock) + |p.samples| / ch
  {
    assert (ps + [p])[..|ps|] == ps;
    FlattenConcat(Padded(Timeline(ps, ch), p.clock, ch), Blocks(p.samples, ch));
    BlocksAndLeftover(p.samples, ch);
    BlocksByDivision(p.samples, ch);
  }

  // ---- finishing -----------------------------------------------------------------------------

  datatype Recording = Recording(rx: seq<Sample>, tx: seq<Sample>, mix: Option<seq<Sample>>)

  function SampleAt(s: seq<Sample>, i: nat): Sample { if i < |s| then s[i] else 0 }

  function Skip(s: seq<Sample>, n: nat): seq<Sample> { s[Min(n, |s|)..] }

  /** Two voices as left and right, the shorter one followed by silence. */
  function Interleave(left: seq<Sample>, right: seq<Sample>): seq<Sample>
    decreases |left| + |right|
  {
    if left == [] && right == [] then []
    else [SampleAt(left, 0), SampleAt(right, 0)] + Interleave(Skip(left, 1), Skip(right, 1))
  }

  /** Every second sample of a mix is one of its voices. */
  lemma {:induction false} InterleaveAt(left: seq<Sample>, right: seq<Sample>, i: nat)
    ensures |Interleave(left, right)| == 2 * Max(|left|, |right|)
    ensures i < Max(|left|, |right|) ==>
      && Interleave(left, right)[2 * i] == SampleAt(left, i)
      && Interleave(left, right)[2 * i + 1] == SampleAt(right, i)
    decreases |left| + |right|
  {
    if left != [] || right != [] {
      var rest := Interleave(Skip(left, 1), Skip(right, 1));
      InterleaveAt(Skip(left, 1), Skip(right, 1), if i == 0 then 0 else i - 1);
      if 0 < i < Max(|left|, |right|) {
        assert Interleave(left, right)[2 * i] == rest[2 * (i - 1)];
        assert Interleave(left, right)[2 * i + 1] == rest[2 * (i - 1) + 1];
      }
    }
  }

  /** What finishing a session leaves: both legs padded to the longer one, and their mix. */
  function Finished(rx: seq<Frame>, tx: seq<Frame>, ch: nat, mix: bool, txLeft: bool): Recording
    requires ch > 0 && Frames(rx, ch) && Frames(tx, ch)
  {
    var n := Max(|rx|, |tx|);
    var r, t := Padded(rx, n, ch), Padded(tx, n, ch);
    Recording(Flatten(r), Flatten(t),
      if mix then Some(if txLeft then Interleave(Voice(t), Voice(r)) else Interleave(Voice(r), Voice(t))) else None)
  }

  /** Both finished legs have the length of the longer one. */
  lemma LegsEqual(rx: seq<Frame>, tx: seq<Frame>, ch: nat, mix: bool, txLeft: bool)
    requires ch > 0 && Frames(rx, ch) && Frames(tx, ch)
    ensures var out := Finished(rx, tx, ch, mix, txLeft); var n := Max(|rx|, |tx|);
      && Blocks(out.rx, ch) == Padded(rx, n, ch) && Leftover(out.rx, ch) == []
      && Blocks(out.tx, ch) == Padded(tx, n, ch) && Leftover(out.tx, ch) == []
      && |Blocks(out.rx, ch)| == |Blocks(out.tx, ch)| == n && out.mix.Some? == mix
  {
    var n := Max(|rx|, |tx|);
    BlocksOfBlocks(Padded(rx, n, ch), ch);
    BlocksOfBlocks(Padded(tx, n, ch), ch);
  }

  /** Taking the mix apart again gives channel 0 of each finished leg, on the side chosen for it. */
  lemma MixComesApart(rx: seq<Frame>, tx: seq<Frame>, ch: nat, txLeft: bool, i: nat)
    requires ch > 0 && Frames(rx, ch) && Frames(tx, ch)
    ensures var out := Finished(rx, tx, ch, true, txLeft); var n := Max(|rx|, |tx|);
      && out.mix.Some? && |out.mix.value| == 2 * n
      && (i < n ==>
          var local, remote := Padded(tx, n, ch)[i][0], Padded(rx, n, ch)[i][0];
          && out.mix.value[2 * i] == (if txLeft then local else remote)
          && out.mix.value[2 * i + 1] == (if txLeft then remote else local))
  {
    var n := Max(|rx|, |tx|);
    var t, v := Voice(Padded(tx, n, ch)), Voice(Padded(rx, n, ch));
    InterleaveAt(t, v, i);
    InterleaveAt(v, t, i);
  }

  datatype Wav = Wav(rate: nat, channels: nat, samples: seq<Sample>)

  /** Every step-th sample, the first one included. */
  function StepBy(s: seq<Sample>, step: nat): seq<Sample>
    requires step > 0
  {
    if s == [] then [] else [s[0]] + StepBy(Skip(s, step), step)
  }

  lemma {:induction false} StepByAt(s: seq<Sample>, step: nat, i: nat, at: nat)
    requires step > 0 && at == i * step
    ensures i < |StepBy(s, step)| <==> at < |s|
    ensures at < |s| ==> StepBy(s, step)[i] == s[at]
    decreases i
  {
    if i > 0 {
      MulPred(i, step);
      StepByAt(Skip(s, step), step, i - 1, at - step);
    }
  }

  lemma {:induction false} StepByIsCallChannel(s: seq<Sample>, ch: nat)
    requires ch > 0 && WholeFrames(s, ch)
    ensures StepBy(s, ch) == CallChannel(s, ch)
    decreases |s|
  {
    if s != [] {
      StepByIsCallChannel(s[ch..], ch);
      assert CallChannel(s, ch) == [s[0]] + CallChannel(s[ch..], ch);
    }
  }

  /** The stereo mix of two legs: one sample of each leg's call channel a frame, left then right. */
  method MixWavs(tx: Wav, rx: Wav, txLeft: bool) returns (r: Result<seq<Sample>, string>)
    ensures r.Err? <==> tx.rate != rx.rate
    ensures r.Ok? ==> r.value == MixOf(tx.samples, Max(tx.channels, 1), rx.samples, Max(rx.channels, 1), txLeft)
  {
    if tx.rate != rx.rate {
      return Err("cannot mix legs recorded at different rates");
    }
    var txCh, rxCh := Max(tx.channels, 1), Max(rx.channels, 1);
    var txRest, rxRest := tx.samples, rx.samples;
    var w: seq<Sample> := [];
    ghost var whole := MixOf(txRest, txCh, rxRest, rxCh, txLeft);
    while txRest != [] || rxRest != []
      invariant w + MixOf(txRest, txCh, rxRest, rxCh, txLeft) == whole
      decreases |txRest| + |rxRest|
    {
      MixStep(txRest, txCh, rxRest, rxCh, txLeft);
      var a, b := SampleAt(txRest, 0), SampleAt(rxRest, 0);
      var (l, r) := if txLeft then (a, b) else (b, a);
      Associate(w, [l, r], MixOf(Skip(txRest, txCh), txCh, Skip(rxRest, rxCh), rxCh, txLeft));
      w := w + [l, r];
      txRest, rxRest := Skip(txRest, txCh), Skip(rxRest, rxCh);
    }
    return Ok(w);
  }

  /** The mix of two interleaved legs: their first channels side by side. */
  function MixOf(tx: seq<Sample>, txCh: nat, rx: seq<Sample>, rxCh: nat, txLeft: bool): seq<Sample>
    requires txCh > 0 && rxCh > 0
  {
    if txLeft then Interleave(StepBy(tx, txCh), StepBy(rx, rxCh)) else Interleave(StepBy(rx, rxCh), StepBy(tx, txCh))
  }

  lemma StepByHead(s: seq<Sample>, step: nat)
    requires step > 0
    ensures SampleAt(StepBy(s, step), 0) == SampleAt(s, 0) && Skip(StepBy(s, step), 1) == StepBy(Skip(s, step), step)
  {
  }

  lemma MixStep(tx: seq<Sample>, txCh: nat, rx: seq<Sample>, rxCh: nat, txLeft: bool)
    requires txCh > 0 && rxCh > 0 && (tx != [] || rx != [])
    ensures MixOf(tx, txCh, rx, rxCh, txLeft) ==
      (if txLeft then [SampleAt(tx, 0), SampleAt(rx, 0)] else [SampleAt(rx, 0), SampleAt(tx, 0)])
      + MixOf(Skip(tx, txCh), txCh, Skip(rx, rxCh), rxCh, txLeft)
  {
    StepByHead(tx, txCh);
    StepByHead(rx, rxCh);
  }

  method FinishLegs(rx: seq<Sample>, tx: seq<Sample>, ghost rxFrames: seq<Frame>, ghost txFrames: seq<Frame>,
                    rxLen: nat, txLen: nat, rate: nat, ch: nat, mix: bool, txLeft: bool) returns (out: Recording)
    requires ch > 0 && Frames(rxFrames, ch) && Frames(txFrames, ch)
    requires rx == Flatten(rxFrames) && tx == Flatten(txFrames) && rxLen == |rxFrames| && txLen == |txFrames|
    ensures out == Finished(rxFrames, txFrames, ch, mix, txLeft)
  {
    var n := Max(rxLen, txLen);
    var rxPadded := PadLeg(rx, rxFrames, ch, n, rxLen);
    var txPadded := PadLeg(tx, txFrames, ch, n, txLen);
    if !mix {
      return Recording(rxPadded, txPadded, None);
    }
    MixOfLeg(rxPadded, Padded(rxFrames, n, ch), ch);
    MixOfLeg(txPadded, Padded(txFrames, n, ch), ch);
    var m := MixWavs(Wav(rate, ch, txPadded), Wav(rate, ch, rxPadded), txLeft);
    return Recording(rxPadded, txPadded, Some(m.value));
  }

  lemma MixOfLeg(leg: seq<Sample>, frames: seq<Frame>, ch: nat)
    requires ch > 0 && Frames(frames, ch) && leg == Flatten(frames)
    ensures StepBy(leg, ch) == Voice(frames)
  {
    BlocksOfBlocks(frames, ch);
    StepByIsCallChannel(leg, ch);
  }

  // ---- the passive recorder ------------------------------------------------------------------

  class DuplexRecorder {
    const channels: nat
    const mix: bool
    const mixTxLeft: bool
    var rx: seq<Sample>
    var tx: seq<Sample>
    var rxLen: nat
    var txLen: nat

    ghost var rxFrames: seq<Frame>
    ghost var prompts: seq<Prompt>

    ghost predicate Valid()
      reads this
    {
      && channels > 0 && Frames(rxFrames, channels)
      && rx == Flatten(rxFrames) && rxLen == |rxFrames|
      && tx == Flatten(Timeline(prompts, channels)) && txLen == |Timeline(prompts, channels)|
    }

    constructor (channels: nat, mix: bool, mixTxLeft: bool)
      ensures Valid() && rxFrames == [] && prompts == []
      ensures this.channels == Max(channels, 1) && this.mix == mix && this.mixTxLeft == mixTxLeft
    {
      this.channels, this.mix, this.mixTxLeft := Max(channels, 1), mix, mixTxLeft;
      rx, tx, rxLen, txLen, rxFrames, prompts := [], [], 0, 0, [], [];
    }

    method PushRx(samples: seq<Sample>) returns (n: nat)
      requires Valid() && WholeFrames(samples, channels)
      modifies this`rx, this`rxLen, this`rxFrames
      ensures Valid() && rxFrames == old(rxFrames) + Blocks(samples, channels) && n == |rxFrames|
    {
      FlattenConcat(rxFrames, Blocks(samples, channels));
      BlocksAndLeftover(samples, channels);
      BlocksByDivision(samples, channels);
      rx := rx + samples;
      rxLen := rxLen + |samples| / channels;
      rxFrames := rxFrames + Blocks(samples, channels);
      n := rxLen;
    }

    method PushTxAt(offset: nat, samples: seq<Sample>)
      requires Valid() && WholeFrames(samples, channels)
      modifies this`tx, this`txLen, this`prompts
      ensures Valid() && prompts == old(prompts) + [Prompt(offset, samples)]
    {
      ghost var p := Prompt(offset, samples);
      TimelineSnoc(prompts, p, channels);
      tx := PadLeg(tx, Timeline(prompts, channels), channels, offset, txLen);
      txLen := Max(txLen, offset);
      tx := tx + samples;
      txLen := txLen + |samples| / channels;
      prompts := prompts + [p];
    }

    method Finish() returns (out: Recording)
      requires Valid()
      ensures out == Finished(rxFrames, Timeline(prompts, channels), channels, mix, mixTxLeft)
    {
      out := FinishLegs(rx, tx, rxFrames, Timeline(prompts, channels), rxLen, txLen, RECORD_RATE, channels, mix,
                        mixTxLeft);
    }
  }

  // ---- where the prompts are -----------------------------------------------------------------

  lemma TimelineGrows(ps: seq<Prompt>, p: Prompt, ch: nat)
    requires ch > 0
    ensures Timeline(ps + [p], ch) == Padded(Timeline(ps, ch), p.clock, ch) + Blocks(p.samples, ch)
  {
    assert (ps + [p])[..|ps|] == ps;
  }

  /** Every prompt lies whole on tx, from the later of its clock and the end of what was there before. */
  lemma {:induction false} PromptPlaced(ps: seq<Prompt>, i: nat, ch: nat)
    requires ch > 0 && i < |ps|
    ensures ps[i].clock <= StartOf(ps, i, ch) && EndOf(ps, i, ch) <= |Timeline(ps, ch)|
    ensures Timeline(ps, ch)[StartOf(ps, i, ch)..EndOf(ps, i, ch)] == Blocks(ps[i].samples, ch)
  {
    var init, last := ps[..|ps| - 1], ps[|ps| - 1];
    assert ps == init + [last];
    TimelineGrows(init, last, ch);
    if i < |init| {
      PromptPlaced(init, i, ch);
      assert init[..i] == ps[..i];
    } else {
      assert ps[..i] == init;
    }
  }

  /** A prompt starts at its clock, unless the one before it is not over by then: and then right after that. */
  lemma PromptStartsAt(ps: seq<Prompt>, i: nat, ch: nat)
    requires ch > 0 && i < |ps|
    ensures StartOf(ps, i, ch) ==
      if i > 0 && EndOf(ps, i - 1, ch) > ps[i].clock then EndOf(ps, i - 1, ch) else ps[i].clock
  {
    if i > 0 {
      TimelineEnds(ps[..i], ch);
      assert ps[..i][..i - 1] == ps[..i - 1];
    }
  }

  /** The tx leg ends with its last prompt. */
  lemma TimelineEnds(ps: seq<Prompt>, ch: nat)
    requires ch > 0 && ps != []
    ensures |Timeline(ps, ch)| == EndOf(ps, |ps| - 1, ch)
  {
  }

  /** Prompts do not overlap and keep their order. */
  lemma {:induction false} PromptsInOrder(ps: seq<Prompt>, i: nat, j: nat, ch: nat)
    requires ch > 0 && i < j < |ps|
    ensures EndOf(ps, i, ch) <= StartOf(ps, j, ch)
  {
    PromptPlaced(ps[..j], i, ch);
    assert ps[..j][..i] == ps[..i];
  }

  /** Everything on tx that is not part of a prompt is silence. */
  lemma {:induction false} SilenceElsewhere(ps: seq<Prompt>, f: nat, ch: nat) returns (i: nat)
    requires ch > 0 && f < |Timeline(ps, ch)|
    ensures Timeline(ps, ch)[f] == Silence(ch) || (i < |ps| && StartOf(ps, i, ch) <= f < EndOf(ps, i, ch))
  {
    i := 0;
    if ps != [] {
      var init, last := ps[..|ps| - 1], ps[|ps| - 1];
      assert ps == init + [last];
      TimelineGrows(init, last, ch);
      if f < |Timeline(init, ch)| {
        i := SilenceElsewhere(init, f, ch);
        if i < |init| {
          assert init[..i] == ps[..i];
        } else {
          i := |ps|;
        }
      } else if f >= last.clock {
        i := |init|;
      }
    }
  }
}
