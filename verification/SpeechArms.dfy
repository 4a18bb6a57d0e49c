/** From the capture tool's bytes to the end of a turn, with and without a recording session
    (server/crates/dialf/src/audio/engine.rs:191-215). */
module SpeechArms {
  import opened Capture
  import opened Engine
  import opened Record
  import opened Resample
  import opened Seqs
  import opened Vad
  import opened VadTap

  const CAPTURE_BUF: nat := 8192
  const READ_BUF: nat := 4096

  /** `samples` is the decoding of the longest whole-frame prefix of `bytes`. */
  ghost predicate DecodesWholeFrames(samples: seq<Sample>, bytes: seq<Byte>, ch: nat)
    requires ch > 0
  {
    samples <= Decode(bytes) && WholeFrames(samples, ch) && 2 * |samples| <= |bytes| < 2 * |samples| + 2 * ch
  }

  /** A torn last frame does not reach the call channel. */
  lemma CallChannelOfWholeFrames(samples: seq<Sample>, bytes: seq<Byte>, ch: nat)
    requires ch > 0 && DecodesWholeFrames(samples, bytes, ch)
    ensures CallChannel(samples, ch) == CallChannel(Decode(bytes), ch)
  {
    var torn := Decode(bytes)[|samples|..];
    assert Decode(bytes) == samples + torn;
    CallChannelAppend(samples, torn, ch);
    assert CallChannel(torn, ch) == [];
  }

  lemma DecodeCut(bytes: seq<Byte>, n: nat)
    requires 2 * n <= |bytes|
    ensures Decode(bytes) == Decode(bytes[..2 * n]) + Decode(bytes[2 * n..])
  {
    assert bytes == bytes[..2 * n] + bytes[2 * n..];
    DecodeAppend(bytes[..2 * n], bytes[2 * n..]);
  }

  lemma WholeAppend(a: seq<Sample>, b: seq<Sample>, ch: nat)
    requires ch > 0 && WholeFrames(a, ch) && WholeFrames(b, ch)
    ensures WholeFrames(a + b, ch)
  {
    BlocksAppend(a, b, ch);
    assert [] + b == b;
  }

  /** `done` has been read off `bytes` in whole frames, and `rest` is still to come. */
  ghost predicate Progress(bytes: seq<Byte>, done: seq<Sample>, rest: seq<Byte>, ch: nat)
    requires ch > 0
  {
    && Decode(bytes) == done + Decode(rest)
    && |bytes| == 2 * |done| + |rest|
    && WholeFrames(done, ch)
  }

  lemma ProgressEnds(bytes: seq<Byte>, done: seq<Sample>, rest: seq<Byte>, ch: nat)
    requires ch > 0
    ensures Progress(bytes, [], bytes, ch)
    ensures Progress(bytes, done, rest, ch) && |rest| < 2 * ch ==> DecodesWholeFrames(done, bytes, ch)
  {
    assert [] + Decode(bytes) == Decode(bytes);
  }

  lemma ReadStep(bytes: seq<Byte>, done: seq<Sample>, part: seq<Sample>, before: seq<Byte>, after: seq<Byte>, ch: nat)
    requires ch > 0 && Progress(bytes, done, before, ch) && WholeFrames(part, ch)
    requires 2 * |part| <= |before| && part == Decode(before[..2 * |part|]) && after == before[2 * |part|..]
    ensures Progress(bytes, done + part, after, ch)
  {
    DecodeCut(before, |part|);
    Associate(done, part, Decode(after));
    WholeAppend(done, part, ch);
  }

  /** One read: the next whole frames, or none when less than a frame is left. */
  method NextPart(src: CommandCaptureSource, buf: array<Sample>, ghost bytes: seq<Byte>, ghost done: seq<Sample>)
      returns (part: seq<Sample>)
    requires src.Valid() && 1 <= src.channels <= buf.Length && Progress(bytes, done, src.Remaining(), src.channels)
    modifies src, src.stdout, buf
    ensures src.Valid()
    ensures part == [] ==> DecodesWholeFrames(done, bytes, src.channels)
    ensures part != [] ==> |src.Remaining()| < |old(src.Remaining())|
    ensures part != [] ==> Progress(bytes, done + part, src.Remaining(), src.channels)
  {
    ghost var before := src.Remaining();
    var n := src.Read(buf);
    part := buf[..n];
    if n == 0 {
      ProgressEnds(bytes, done, before, src.channels);
    } else {
      ReadStep(bytes, done, part, before, src.Remaining(), src.channels);
    }
  }

  /** The reads so far, none of them empty, and what is still to come. */
  ghost predicate PartsRead(parts: seq<seq<Sample>>, bytes: seq<Byte>, rest: seq<Byte>, ch: nat)
    requires ch > 0
  {
    Reads(parts) && Progress(bytes, Flatten(parts), rest, ch)
  }

  lemma PartsSnoc(parts: seq<seq<Sample>>, part: seq<Sample>, bytes: seq<Byte>, rest: seq<Byte>, ch: nat)
    requires ch > 0 && Reads(parts) && part != [] && Progress(bytes, Flatten(parts) + part, rest, ch)
    ensures PartsRead(parts + [part], bytes, rest, ch)
  {
    FlattenSnoc(parts, part);
  }

  /** The reads the capture thread gets from the tool until it is done: they spell the whole-frame
      prefix of its output, however the pipe splits it. */
  method CaptureReads(bytes: seq<Byte>, ch: nat, room: nat) returns (parts: seq<seq<Sample>>)
    requires 1 <= ch <= room
    ensures Reads(parts) && DecodesWholeFrames(Flatten(parts), bytes, ch)
  {
    var pipe := new Pipe(bytes);
    var src := new CommandCaptureSource(pipe, ch);
    var buf := new Sample[room];
    parts := [];
    assert src.Remaining() == bytes;
    ProgressEnds(bytes, [], bytes, ch);
    assert PartsRead(parts, bytes, bytes, ch);
    while true
      invariant fresh(src) && fresh(pipe) && fresh(buf)
      invariant src.stdout == pipe && src.Valid() && src.channels == ch
      invariant PartsRead(parts, bytes, src.Remaining(), ch)
      decreases |src.Remaining()|
    {
      var part := NextPart(src, buf, bytes, Flatten(parts));
      if part == [] {
        return;
      }
      PartsSnoc(parts, part, bytes, src.Remaining(), ch);
      parts := parts + [part];
    }
  }

  /** The same output read through `DownmixMono`: the reads spell the call channel. */
  method DownmixReads(bytes: seq<Byte>, ch: nat, room: nat) returns (parts: seq<seq<Sample>>)
    requires 1 <= ch && 1 <= room
    ensures Reads(parts) && Flatten(parts) == CallChannel(Decode(bytes), ch)
  {
    var pipe := new Pipe(bytes);
    var inner := new CommandCaptureSource(pipe, ch);
    var src := new DownmixMono(inner);
    var buf := new Sample[room];
    parts := [];
    assert inner.Remaining() == bytes;
    while true
      invariant fresh(inner) && fresh(pipe) && fresh(buf)
      invariant inner.stdout == pipe && inner.Valid() && inner.channels == ch
      invariant Reads(parts)
      invariant Flatten(parts) + CallChannel(Decode(inner.Remaining()), ch) == CallChannel(Decode(bytes), ch)
      decreases |inner.Remaining()|
    {
      ghost var before := Decode(inner.Remaining());
      var n := src.Read(buf);
      if n == 0 {
        assert CallChannel(before, ch) == [];
        break;
      }
      FlattenSnoc(parts, buf[..n]);
      Associate(Flatten(parts), buf[..n], CallChannel(Decode(inner.Remaining()), ch));
      parts := parts + [buf[..n]];
    }
  }

  /** Chunks of whole frames, none of them empty. */
  ghost predicate Chunks(chunks: seq<seq<Sample>>, ch: nat)
    requires ch > 0
  {
    forall i :: 0 <= i < |chunks| ==> chunks[i] != [] && WholeFrames(chunks[i], ch)
  }

  /** What the capture thread writes over any list of reads, and the chunks it has for the VAD: rx
      gets every whole frame, and the chunks carry the same call channel. */
  method RecordReads(parts: seq<seq<Sample>>, ch: nat, rate: nat) returns (rx: seq<Sample>, chunks: seq<seq<Sample>>)
    requires 1 <= ch
    ensures rx == Flatten(Blocks(Flatten(parts), ch)) == Flatten(chunks)
    ensures Chunks(chunks, ch)
    ensures Channel0(chunks, ch) == CallChannel(Flatten(parts), ch)
  {
    var session := new DuplexSession(rate, ch, false, true);
    chunks := [];
    for i := 0 to |parts|
      invariant fresh(session) && session.channels == ch && session.Valid() && session.captured == Flatten(parts[..i])
      invariant Chunks(chunks, ch)
      invariant Channel0(chunks, ch) == CallChannel(session.captured, ch) && session.rx == Flatten(chunks)
    {
      FlattenTake(parts, i);
      ghost var before := Blocks(session.captured, ch);
      var chunk := session.CaptureRead(parts[i]);
      VoiceAppend(before, Blocks(chunk, ch));
      if chunk != [] {
        assert (chunks + [chunk])[..|chunks|] == chunks;
        FlattenSnoc(chunks, chunk);
        chunks := chunks + [chunk];
      }
    }
    assert parts[..|parts|] == parts;
    rx := session.rx;
  }

  /** What the session does before the turn: `earlier` says of each chunk whether an earlier turn was
      active, and the job takes frames whenever it likes. */
  method EarlierTurns(tap: Tap, chunks: seq<seq<Sample>>, earlier: seq<bool>)
    requires tap.Valid() && !tap.active && !tap.wasActive && |chunks| == |earlier| && Chunks(chunks, tap.channels)
    modifies tap, tap.rs.Footprint()
    ensures tap.Valid() && fresh(tap.rs.Footprint() - old(tap.rs.Footprint()))
    ensures tap.wasActive == (earlier != [] && earlier[|earlier| - 1])
  {
    for i := 0 to |chunks|
      invariant tap.Valid() && fresh(tap.rs.Footprint() - old(tap.rs.Footprint()))
      invariant tap.active == tap.wasActive == (i > 0 && earlier[i - 1])
    {
      EarlierChunk(tap, chunks[i], earlier[i]);
    }
  }

  /** One chunk before the turn. A turn that starts here is armed first, one that is over disarmed. */
  method EarlierChunk(tap: Tap, chunk: seq<Sample>, active: bool)
    requires tap.Valid() && tap.active == tap.wasActive && WholeFrames(chunk, tap.channels)
    modifies tap, tap.rs.Footprint()
    ensures tap.Valid() && fresh(tap.rs.Footprint() - old(tap.rs.Footprint()))
    ensures tap.active == tap.wasActive == active
  {
    Rearm(tap, active);
    tap.OnChunk(chunk);
    var n :| 0 <= n <= |tap.queue|;
    var _ := TakeSome(tap, n, tap.delivered);
  }

  method Rearm(tap: Tap, active: bool)
    requires tap.Valid() && tap.active == tap.wasActive
    modifies tap`active, tap`queue, tap`dropped, tap`fed, tap`delivered
    ensures tap.Valid() && tap.active == active
  {
    if active && !tap.active {
      tap.Begin();
    } else if !active {
      tap.End();
    }
  }

  /** The job takes n of the frames waiting for it. */
  method TakeSome(tap: Tap, n: nat, ghost received: seq<seq<Sample>>) returns (more: seq<seq<Sample>>)
    requires tap.Valid() && n <= |tap.queue| && received == tap.delivered
    modifies tap`queue, tap`delivered
    ensures tap.Valid() && more == old(tap.queue)[..n] && tap.queue == old(tap.queue)[n..]
    ensures tap.delivered == received + more
  {
    more := [];
    for i := 0 to n
      invariant tap.Valid() && more == old(tap.queue)[..i] && tap.queue == old(tap.queue)[i..]
      invariant tap.delivered == received + more
    {
      var frame := tap.Recv();
      Associate(received, more, [frame]);
      more := more + [frame];
    }
  }

  /** What i frames and the job's takes have made of the channel. */
  ghost predicate ChannelAs(frames: seq<seq<Sample>>, takes: seq<nat>, i: nat, received: seq<seq<Sample>>,
                            queue: seq<seq<Sample>>, dropped: bool)
    requires i <= |frames|
  {
    && |queue| == Waiting(frames, takes, i)
    && (dropped <==> Overflows(frames, takes, i))
    && (!dropped ==> received + queue == Sent(frames[..i]))
  }

  /** A turn under way, i of its chunks captured: what was fed, what waits in the channel and what the job
      has are as the chunks and the job's takes determine, as long as nothing was lost. */
  ghost predicate UnderWay(tap: Tap, chunks: seq<seq<Sample>>, takes: seq<nat>, i: nat, received: seq<seq<Sample>>)
    requires tap.c.Valid() && tap.channels > 0 && i <= |chunks|
    reads tap
  {
    && tap.active && tap.fed == Channel0(chunks[..i], tap.channels)
    && ChannelAs(FramesOf(tap.c, chunks, tap.channels), takes, i, received, tap.queue, tap.dropped)
  }

  lemma SplitQueue(received: seq<seq<Sample>>, queue: seq<seq<Sample>>, n: nat)
    requires n <= |queue|
    ensures (received + queue[..n]) + queue[n..] == received + queue
  {
  }

  /** What one frame does to the channel, and then the job's takes. */
  lemma ChannelStep(frames: seq<seq<Sample>>, takes: seq<nat>, i: nat, received: seq<seq<Sample>>,
                    queue: seq<seq<Sample>>, dropped: bool, queue': seq<seq<Sample>>, dropped': bool)
    requires i < |frames| && ChannelAs(frames, takes, i, received, queue, dropped)
    requires queue' == if frames[i] == [] || |queue| >= VAD_CHANNEL_BOUND then queue else queue + [frames[i]]
    requires dropped' <==> dropped || (frames[i] != [] && |queue| >= VAD_CHANNEL_BOUND)
    ensures var n := Min(Takes(takes, i), |queue'|);
      ChannelAs(frames, takes, i + 1, received + queue'[..n], queue'[n..], dropped')
  {
    SentSnoc(frames, i);
    SplitQueue(received, queue', Min(Takes(takes, i), |queue'|));
    Associate(received, queue, [frames[i]]);
  }

  /** The same, for the frame that chunk i of a turn gives. */
  lemma ChunkStep(c: Conversion, chunks: seq<seq<Sample>>, ch: nat, takes: seq<nat>, i: nat, received: seq<seq<Sample>>,
                  queue: seq<seq<Sample>>, dropped: bool, queue': seq<seq<Sample>>, dropped': bool)
    requires c.Valid() && ch > 0 && i < |chunks|
    requires ChannelAs(FramesOf(c, chunks, ch), takes, i, received, queue, dropped)
    requires var frame := FrameOf(c, Channel0(chunks[..i], ch), CallChannel(chunks[i], ch));
      && queue' == (if frame == [] || |queue| >= VAD_CHANNEL_BOUND then queue else queue + [frame])
      && (dropped' <==> dropped || (frame != [] && |queue| >= VAD_CHANNEL_BOUND))
    ensures var n := Min(Takes(takes, i), |queue'|);
      ChannelAs(FramesOf(c, chunks, ch), takes, i + 1, received + queue'[..n], queue'[n..], dropped')
  {
    FramesAt(c, chunks, ch, i);
    ChannelStep(FramesOf(c, chunks, ch), takes, i, received, queue, dropped, queue', dropped');
  }

  lemma ChannelAtStart(frames: seq<seq<Sample>>, takes: seq<nat>)
    ensures ChannelAs(frames, takes, 0, [], [], false)
  {
  }

  /** One chunk of the turn, and what the job takes after it. */
  method TurnChunk(tap: Tap, chunks: seq<seq<Sample>>, takes: seq<nat>, i: nat, received: seq<seq<Sample>>)
      returns (more: seq<seq<Sample>>)
    requires tap.Valid() && i < |chunks| && Chunks(chunks, tap.channels) && UnderWay(tap, chunks, takes, i, received)
    modifies tap, tap.rs.Footprint()
    ensures tap.Valid() && fresh(tap.rs.Footprint() - old(tap.rs.Footprint()))
    ensures UnderWay(tap, chunks, takes, i + 1, more)
  {
    OfferChunk(tap, chunks, takes, i, received);
    var taken := TakeSome(tap, Min(Takes(takes, i), |tap.queue|), tap.delivered);
    more := received + taken;
  }

  /** The frame of chunk i is in the channel, and the job is about to take. */
  ghost predicate Offered(tap: Tap, chunks: seq<seq<Sample>>, takes: seq<nat>, i: nat, received: seq<seq<Sample>>)
    requires tap.c.Valid() && tap.channels > 0 && i < |chunks|
    reads tap
  {
    var n := Min(Takes(takes, i), |tap.queue|);
    && tap.active && tap.fed == Channel0(chunks[..i + 1], tap.channels)
    && ChannelAs(FramesOf(tap.c, chunks, tap.channels), takes, i + 1, received + tap.queue[..n], tap.queue[n..],
                 tap.dropped)
  }

  method OfferChunk(tap: Tap, chunks: seq<seq<Sample>>, takes: seq<nat>, i: nat, ghost received: seq<seq<Sample>>)
    requires tap.Valid() && i < |chunks| && Chunks(chunks, tap.channels) && UnderWay(tap, chunks, takes, i, received)
    modifies tap, tap.rs.Footprint()
    ensures tap.Valid() && fresh(tap.rs.Footprint() - old(tap.rs.Footprint()))
    ensures Offered(tap, chunks, takes, i, received)
  {
    ghost var queue, dropped := tap.queue, tap.dropped;
    tap.OnChunk(chunks[i]);
    ChunkStep(tap.c, chunks, tap.channels, takes, i, received, queue, dropped, tap.queue, tap.dropped);
    Channel0Snoc(chunks, i, tap.channels);
  }

  /** The frames still in the channel after all those chunks, or none once the tool has ended and the job
      has taken what was left. */
  function StillWaiting(frames: seq<seq<Sample>>, takes: seq<nat>, ended: bool): nat {
    if ended then 0 else Waiting(frames, takes, |frames|)
  }

  ghost predicate AllButWaiting(received: seq<seq<Sample>>, frames: seq<seq<Sample>>, takes: seq<nat>, ended: bool) {
    var sent, left := Sent(frames), StillWaiting(frames, takes, ended);
    left <= |sent| && received == sent[..|sent| - left]
  }

  /** A turn over these chunks, while the waiting job takes frames as it likes. It gets exactly the frames
      of the call channel since the turn began, in order, up to those still waiting, unless one of them
      found the channel full. */
  method TapTurn(tap: Tap, chunks: seq<seq<Sample>>, takes: seq<nat>, ended: bool) returns (received: seq<seq<Sample>>)
    requires tap.Valid() && !tap.wasActive && Chunks(chunks, tap.channels)
    modifies tap, tap.rs.Footprint()
    ensures tap.Valid() && !tap.active
    ensures var frames := FramesOf(tap.c, chunks, tap.channels);
      !Overflows(frames, takes, |frames|) ==> AllButWaiting(received, frames, takes, ended)
  {
    tap.Begin();
    ChannelAtStart(FramesOf(tap.c, chunks, tap.channels), takes);
    received := TurnChunks(tap, chunks, takes, 0, []);
    TakenSoFar(FramesOf(tap.c, chunks, tap.channels), takes, received, tap.queue, tap.dropped);
    if ended {
      var rest := TakeSome(tap, |tap.queue|, tap.delivered);
      received := received + rest;
    }
    tap.End();
  }

  /** The turn's chunks from i on. */
  method TurnChunks(tap: Tap, chunks: seq<seq<Sample>>, takes: seq<nat>, i: nat, received: seq<seq<Sample>>)
      returns (all: seq<seq<Sample>>)
    requires tap.Valid() && i <= |chunks| && Chunks(chunks, tap.channels) && UnderWay(tap, chunks, takes, i, received)
    modifies tap, tap.rs.Footprint()
    ensures tap.Valid() && UnderWay(tap, chunks, takes, |chunks|, all)
    decreases |chunks| - i
  {
    all := received;
    if i < |chunks| {
      all := TurnChunk(tap, chunks, takes, i, all);
      all := TurnChunks(tap, chunks, takes, i + 1, all);
    }
  }

  lemma TakenSoFar(frames: seq<seq<Sample>>, takes: seq<nat>, received: seq<seq<Sample>>, queue: seq<seq<Sample>>,
                   dropped: bool)
    requires ChannelAs(frames, takes, |frames|, received, queue, dropped)
    ensures !Overflows(frames, takes, |frames|) ==>
      AllButWaiting(received, frames, takes, false) && AllButWaiting(received + queue[..|queue|], frames, takes, true)
  {
    assert frames[..|frames|] == frames;
    assert queue[..|queue|] == queue;
    assert Sent(frames)[..|Sent(frames)|] == Sent(frames);
  }

  /** The frames a turn received, read back through its frame source. */
  method FrameReads(frames: seq<seq<Sample>>, room: nat) returns (parts: seq<seq<Sample>>)
    requires room > 0
    ensures Reads(parts) && Flatten(parts) == Flatten(frames)
  {
    var src := new VadFrameSource(frames);
    var buf := new Sample[room];
    parts := [];
    while true
      invariant fresh(src) && fresh(buf) && src.Valid()
      invariant Reads(parts) && Flatten(parts) + src.Pending() == Flatten(frames)
      decreases |src.Pending()|
    {
      var n := src.Read(buf);
      if n == 0 {
        break;
      }
      FlattenSnoc(parts, buf[..n]);
      Associate(Flatten(parts), buf[..n], src.Pending());
      parts := parts + [buf[..n]];
    }
  }

  /** The conversion a source gets: its own rate to the detector's. */
  function ToVad(rate: nat, taps: seq<real>): Conversion { Conversion(rate, VAD_SAMPLE_RATE, taps) }

  /** What a waiting job has heard: the frames it has taken, as one stream. */
  function HeardBy(c: Conversion, chunks: seq<seq<Sample>>, ch: nat, takes: seq<nat>, ended: bool): seq<Sample>
    requires c.Valid() && ch > 0
  {
    AllBut(Sent(FramesOf(c, chunks, ch)), StillWaiting(FramesOf(c, chunks, ch), takes, ended))
  }

  /** The stream of all those frames but the last few. */
  function AllBut(sent: seq<seq<Sample>>, left: nat): seq<Sample> { Flatten(sent[..Max(|sent| - left, 0)]) }

  /** What was heard is the beginning of the turn's stream, and all of it once the tool has ended. */
  lemma HeardIsPrefix(c: Conversion, turn: seq<seq<Sample>>, seen: nat, ch: nat, takes: seq<nat>, ended: bool)
    requires c.Valid() && ch > 0 && seen <= |turn| && (ended ==> seen == |turn|)
    ensures HeardBy(c, turn[..seen], ch, takes, ended) <= c.Whole(Channel0(turn, ch))
    ensures ended ==> HeardBy(c, turn[..seen], ch, takes, ended) == c.Whole(Channel0(turn, ch))
  {
    HeardSoFar(c, turn[..seen], ch, takes, ended);
    SentIsWhole(c, turn[..seen], ch);
    assert turn[..|turn|] == turn;
    Channel0Grows(turn, seen, ch);
    PrefixGrows(c, Channel0(turn[..seen], ch), Channel0(turn, ch));
  }

  lemma SentIsWhole(c: Conversion, chunks: seq<seq<Sample>>, ch: nat)
    requires c.Valid() && ch > 0
    ensures Flatten(Sent(FramesOf(c, chunks, ch))) == c.Whole(Channel0(chunks, ch))
  {
    SentSpells(c, chunks, ch, |chunks|);
    var frames := FramesOf(c, chunks, ch);
    assert frames[..|chunks|] == frames && chunks[..|chunks|] == chunks;
  }

  lemma FirstFrames(sent: seq<seq<Sample>>, left: nat)
    ensures AllBut(sent, left) <= Flatten(sent) && (left == 0 ==> AllBut(sent, left) == Flatten(sent))
  {
    FlattenPrefix(sent, Max(|sent| - left, 0));
    assert sent[..|sent|] == sent;
  }

  lemma HeardSoFar(c: Conversion, chunks: seq<seq<Sample>>, ch: nat, takes: seq<nat>, ended: bool)
    requires c.Valid() && ch > 0
    ensures var sent := Sent(FramesOf(c, chunks, ch)); var heard := HeardBy(c, chunks, ch, takes, ended);
      heard <= Flatten(sent) && (ended ==> heard == Flatten(sent))
  {
    FirstFrames(Sent(FramesOf(c, chunks, ch)), StillWaiting(FramesOf(c, chunks, ch), takes, ended));
  }

  lemma {:induction false} Channel0Grows(chunks: seq<seq<Sample>>, i: nat, ch: nat)
    requires ch > 0 && i <= |chunks|
    ensures Channel0(chunks[..i], ch) <= Channel0(chunks, ch)
    decreases |chunks|
  {
    if i == |chunks| {
      assert chunks[..i] == chunks;
    } else {
      Channel0Grows(chunks[..|chunks| - 1], i, ch);
      assert chunks[..|chunks| - 1][..i] == chunks[..i];
    }
  }

  /** The verdict of a turn so far: none while the job has not heard enough and more may come; and once
      there is one, it is the turn detector's over the whole stream since the turn began. */
  ghost predicate Verdict(reason: Option<EndReason>, vad: NativeVad, heard: seq<Sample>, whole: seq<Sample>,
                          cfg: TurnConfig, ended: bool)
    requires cfg.hopSize > 0
  {
    && (reason.Some? <==> ended || TurnReason(vad, heard, cfg) != EndOfStream)
    && (reason.Some? ==> reason.value == TurnReason(vad, whole, cfg))
  }

  /** The job's side of a turn: hear what was received. At the end of what there is, a turn that the tool's
      end has not closed is still open. */
  method HearReceived(received: seq<seq<Sample>>, taps: seq<real>, cfg: TurnConfig, vad: NativeVad, ended: bool,
                      ghost whole: seq<Sample>) returns (reason: Option<EndReason>)
    requires cfg.hopSize > 0
    ensures Flatten(received) <= whole && (ended ==> Flatten(received) == whole) ==>
      Verdict(reason, vad, Flatten(received), whole, cfg, ended)
  {
    var frames := FrameReads(received, READ_BUF);
    var why := RunWaitForSpeech(frames, ToVad(VAD_SAMPLE_RATE, taps), cfg, vad);
    ghost var heard := Flatten(received);
    if heard <= whole && why != EndOfStream {
      assert whole == heard + whole[|heard|..];
      HeardEnough(vad, heard, whole[|heard|..], cfg);
    }
    reason := if why == EndOfStream && !ended then None else Some(why);
  }

  /** What the job received of a turn, for the stream it is part of: what it heard is how that begins. */
  ghost predicate HeardOf(received: seq<seq<Sample>>, c: Conversion, turn: seq<seq<Sample>>, seen: nat, ch: nat,
                          takes: seq<nat>, ended: bool)
    requires c.Valid() && ch > 0 && seen <= |turn|
  {
    var heard, whole := Flatten(received), c.Whole(Channel0(turn, ch));
    heard == HeardBy(c, turn[..seen], ch, takes, ended) && heard <= whole && (ended ==> heard == whole)
  }

  /** A session over a list of chunks, with one turn in it: what goes on before, then the turn while `armed`
      more chunks come in. */
  method TurnReceived(chunks: seq<seq<Sample>>, ch: nat, c: Conversion, earlier: seq<bool>, armed: nat, takes: seq<nat>)
      returns (received: seq<seq<Sample>>)
    requires 1 <= ch && c.Valid() && Chunks(chunks, ch)
    requires |earlier| <= |chunks| && (earlier == [] || !earlier[|earlier| - 1])
    ensures var turn := chunks[|earlier|..];
      var n, ended := Min(armed, |turn|), armed >= |turn|;
      !Overflows(FramesOf(c, turn[..n], ch), takes, n) ==> HeardOf(received, c, turn, n, ch, takes, ended)
  {
    var turn := chunks[|earlier|..];
    var seen, ended := turn[..Min(armed, |turn|)], armed >= |turn|;
    received := SessionTurn(chunks[..|earlier|], seen, ch, c, earlier, takes, ended);
    HeardIsPrefix(c, turn, |seen|, ch, takes, ended);
    HeardIsReceived(c, seen, ch, takes, ended, received);
  }

  /** A wait for speech in a recording session: one turn. */
  method RecordedTurn(chunks: seq<seq<Sample>>, ch: nat, c: Conversion, taps: seq<real>, cfg: TurnConfig,
                      vad: NativeVad,
                      earlier: seq<bool>, armed: nat, takes: seq<nat>) returns (reason: Option<EndReason>)
    requires 1 <= ch && c.Valid() && c.dst == VAD_SAMPLE_RATE && cfg.hopSize > 0 && Chunks(chunks, ch)
    requires |earlier| <= |chunks| && (earlier == [] || !earlier[|earlier| - 1])
    ensures var turn := chunks[|earlier|..];
      var seen, ended := turn[..Min(armed, |turn|)], armed >= |turn|;
      !Overflows(FramesOf(c, seen, ch), takes, |seen|) ==>
        Verdict(reason, vad, HeardBy(c, seen, ch, takes, ended), c.Whole(Channel0(turn, ch)), cfg, ended)
  {
    var turn := chunks[|earlier|..];
    var received := TurnReceived(chunks, ch, c, earlier, armed, takes);
    reason := HearReceived(received, taps, cfg, vad, armed >= |turn|, c.Whole(Channel0(turn, ch)));
  }

  /** The session's tap, through what comes before the turn and then the turn. */
  method SessionTurn(before: seq<seq<Sample>>, seen: seq<seq<Sample>>, ch: nat, c: Conversion, earlier: seq<bool>,
                     takes: seq<nat>, ended: bool) returns (received: seq<seq<Sample>>)
    requires 1 <= ch && c.Valid() && Chunks(before, ch) && Chunks(seen, ch)
    requires |earlier| == |before| && (earlier == [] || !earlier[|earlier| - 1])
    ensures var frames := FramesOf(c, seen, ch);
      !Overflows(frames, takes, |frames|) ==> AllButWaiting(received, frames, takes, ended)
  {
    var tap := new Tap(ch, c);
    EarlierTurns(tap, before, earlier);
    received := TapTurn(tap, seen, takes, ended);
  }

  lemma HeardIsReceived(c: Conversion, seen: seq<seq<Sample>>, ch: nat, takes: seq<nat>, ended: bool,
                        received: seq<seq<Sample>>)
    requires c.Valid() && ch > 0
    ensures AllButWaiting(received, FramesOf(c, seen, ch), takes, ended) ==>
      Flatten(received) == HeardBy(c, seen, ch, takes, ended)
  {
  }

  /** The chunks of a session, from the tool's bytes, are the whole-frame prefix of its output. */
  ghost predicate SessionChunks(chunks: seq<seq<Sample>>, bytes: seq<Byte>, ch: nat)
    requires ch > 0
  {
    Chunks(chunks, ch) && DecodesWholeFrames(Flatten(chunks), bytes, ch)
  }

  /** A recording session over the tool's whole output, with one turn somewhere in it: rx holds every whole
      frame, and the turn's verdict is the detector's over the call channel since the turn began, unless
      a frame found the channel full. `chunks` is how the pipe happened to cut the output. */
  method RecordedArm(bytes: seq<Byte>, ch: nat, rate: nat, taps: seq<real>, cfg: TurnConfig, vad: NativeVad,
                     earlier: seq<bool>, armed: nat, takes: seq<nat>)
      returns (reason: Option<EndReason>, rx: seq<Sample>, chunks: seq<seq<Sample>>)
    requires 1 <= ch <= CAPTURE_BUF && rate > 0 && cfg.hopSize > 0
    requires earlier == [] || !earlier[|earlier| - 1]
    ensures SessionChunks(chunks, bytes, ch) && rx == Flatten(chunks)
    ensures |earlier| <= |chunks| ==>
      var turn, c := chunks[|earlier|..], ToVad(rate, taps);
      var seen, ended := turn[..Min(armed, |turn|)], armed >= |turn|;
      !Overflows(FramesOf(c, seen, ch), takes, |seen|) ==>
        Verdict(reason, vad, HeardBy(c, seen, ch, takes, ended),
                c.Whole(ChannelFrom(bytes, chunks, |earlier|, ch)), cfg, ended)
  {
    var parts := CaptureReads(bytes, ch, CAPTURE_BUF);
    BlocksOfWhole(Flatten(parts), ch);
    rx, chunks := RecordReads(parts, ch, rate);
    reason := None;
    if |earlier| <= |chunks| {
      TurnOnBytes(chunks, bytes, |earlier|, ch);
      reason := RecordedTurn(chunks, ch, ToVad(rate, taps), taps, cfg, vad, earlier, armed, takes);
    }
  }

  /** How much of the tool's output the first n chunks come from. */
  ghost function BytesBefore(chunks: seq<seq<Sample>>, n: nat): (at: nat)
    requires n <= |chunks|
  {
    2 * |Flatten(chunks[..n])|
  }

  lemma {:induction false} Channel0OfChunks(chunks: seq<seq<Sample>>, ch: nat)
    requires ch > 0 && Chunks(chunks, ch)
    ensures WholeFrames(Flatten(chunks), ch) && Channel0(chunks, ch) == CallChannel(Flatten(chunks), ch)
  {
    if chunks != [] {
      var init, last := chunks[..|chunks| - 1], chunks[|chunks| - 1];
      Channel0OfChunks(init, ch);
      CallChannelAppend(Flatten(init), last, ch);
      WholeAppend(Flatten(init), last, ch);
    }
  }

  /** The call channel from a chunk on is that of the bytes from there on. */
  lemma TurnOnBytes(chunks: seq<seq<Sample>>, bytes: seq<Byte>, n: nat, ch: nat)
    requires ch > 0 && n <= |chunks| && SessionChunks(chunks, bytes, ch)
    ensures BytesBefore(chunks, n) <= |bytes|
    ensures Channel0(chunks[n..], ch) == CallChannel(Decode(bytes[BytesBefore(chunks, n)..]), ch)
  {
    var before, turn := Flatten(chunks[..n]), Flatten(chunks[n..]);
    assert chunks == chunks[..n] + chunks[n..];
    FlattenConcat(chunks[..n], chunks[n..]);
    DecodeCut(bytes, |before|);
    Channel0OfChunks(chunks[n..], ch);
    var rest := bytes[2 * |before|..];
    RestDecodes(before, turn, Decode(bytes[..2 * |before|]), Decode(rest), Decode(bytes));
    CallChannelOfWholeFrames(turn, rest, ch);
  }

  /** The call channel of the tool's output from where chunk n begins. */
  ghost function ChannelFrom(bytes: seq<Byte>, chunks: seq<seq<Sample>>, n: nat, ch: nat): seq<Sample>
    requires ch > 0 && n <= |chunks| && SessionChunks(chunks, bytes, ch)
  {
    TurnOnBytes(chunks, bytes, n, ch);
    CallChannel(Decode(bytes[BytesBefore(chunks, n)..]), ch)
  }

  lemma RestDecodes(a: seq<Sample>, b: seq<Sample>, a': seq<Sample>, b': seq<Sample>, whole: seq<Sample>)
    requires a + b <= whole && whole == a' + b' && |a| == |a'|
    ensures b <= b'
  {
    assert b' == whole[|a|..];
  }

  /** The same wait with no recording, over the output of a tool of its own. */
  method UnrecordedArm(bytes: seq<Byte>, ch: nat, rate: nat, taps: seq<real>, cfg: TurnConfig, vad: NativeVad)
      returns (reason: EndReason)
    requires 1 <= ch && rate > 0 && cfg.hopSize > 0
    ensures reason == TurnReason(vad, ToVad(rate, taps).Whole(CallChannel(Decode(bytes), ch)), cfg)
  {
    var parts := DownmixReads(bytes, ch, READ_BUF);
    reason := RunWaitForSpeech(parts, ToVad(rate, taps), cfg, vad);
  }

  /** Both arms on the same audio: the recorded one in the middle of a session, for any way its output came
      in chunks, and the other over the output from the turn's first byte, split its own way. Their
      answers are the same whenever the recorded one has its answer, unless a frame found the channel
      full; and that takes a turn of more chunks than the channel holds, and a job that did not take
      one after each. */
  method ArmsAgree(bytes: seq<Byte>, chunks: seq<seq<Sample>>, ch: nat, rate: nat, taps: seq<real>, cfg: TurnConfig,
                   vad: NativeVad, earlier: seq<bool>, armed: nat, takes: seq<nat>)
      returns (recorded: Option<EndReason>, unrecorded: EndReason)
    requires 1 <= ch && rate > 0 && cfg.hopSize > 0 && SessionChunks(chunks, bytes, ch)
    requires |earlier| <= |chunks| && (earlier == [] || !earlier[|earlier| - 1])
    ensures unrecorded == TurnReason(vad, ToVad(rate, taps).Whole(ChannelFrom(bytes, chunks, |earlier|, ch)), cfg)
    ensures var turn, c := chunks[|earlier|..], ToVad(rate, taps);
      var seen, ended := turn[..Min(armed, |turn|)], armed >= |turn|;
      && (!Overflows(FramesOf(c, seen, ch), takes, |seen|) ==>
            && (recorded.Some? <==> ended || TurnReason(vad, HeardBy(c, seen, ch, takes, ended), cfg) != EndOfStream)
            && (recorded.Some? ==> recorded.value == unrecorded))
      && (|seen| <= 64 || (forall j :: 0 <= j < |seen| ==> Takes(takes, j) > 0) ==>
            !Overflows(FramesOf(c, seen, ch), takes, |seen|))
  {
    recorded := RecordedTurn(chunks, ch, ToVad(rate, taps), taps, cfg, vad, earlier, armed, takes);
    TurnOnBytes(chunks, bytes, |earlier|, ch);
    var at := 2 * |Flatten(chunks[..|earlier|])|;
    unrecorded := UnrecordedArm(bytes[at..], ch, rate, taps, cfg, vad);
    CannotOverflow(ToVad(rate, taps), chunks[|earlier|..], armed, ch, takes);
  }

  // ---- waiting for speech to start ---------------------------------------------------------------

  /** What a wait for a start is asked for. */
  datatype StartWait = StartWait(timeoutMs: nat, waitAfterStartMs: nat, onsetDurationMs: nat)

  /** The onset it reports over a stream, and whether it closes before the stream ends. */
  ghost function StartIn(vad: NativeVad, s: seq<Sample>, w: StartWait): Option<nat> {
    TimelyOnset(Voiced(vad, Blocks(s, HOP_256)), LimitsOf(StartConfig(w.timeoutMs, w.onsetDurationMs)),
                w.timeoutMs / 16)
  }

  ghost predicate StartCloses(vad: NativeVad, s: seq<Sample>, w: StartWait) {
    ClosesAfter(Voiced(vad, Blocks(s, HOP_256)), LimitsOf(StartConfig(w.timeoutMs, w.onsetDurationMs)),
                w.timeoutMs / 16, w.waitAfterStartMs / 16) <= |Blocks(s, HOP_256)|
  }

  /** The answer so far: none while what was heard does not close the wait and more may come; and once there
      is one, it is that of the whole stream since the turn began. */
  ghost predicate StartVerdict(answer: Option<bool>, vad: NativeVad, heard: seq<Sample>, whole: seq<Sample>,
                               w: StartWait, ended: bool)
  {
    && (answer.Some? <==> ended || StartCloses(vad, heard, w))
    && (answer.Some? ==> answer.value == StartIn(vad, whole, w).Some?)
  }

  /** A wait that closed before its stream ended would close the same on a longer one. */
  lemma StartHeardEnough(vad: NativeVad, s: seq<Sample>, t: seq<Sample>, w: StartWait)
    requires StartCloses(vad, s, w)
    ensures StartIn(vad, s + t, w) == StartIn(vad, s, w)
  {
    VoicedGrows(vad, s, t, HOP_256);
    ClosedIsFinal(Voiced(vad, Blocks(s, HOP_256)), Voiced(vad, Blocks(s + t, HOP_256)),
                  LimitsOf(StartConfig(w.timeoutMs, w.onsetDurationMs)), w.timeoutMs / 16, w.waitAfterStartMs / 16);
  }

  method HearStartReceived(received: seq<seq<Sample>>, taps: seq<real>, w: StartWait, vad: NativeVad, ended: bool,
                           ghost whole: seq<Sample>) returns (answer: Option<bool>)
    requires w.timeoutMs <= U64_MAX
    ensures Flatten(received) <= whole && (ended ==> Flatten(received) == whole) ==>
      StartVerdict(answer, vad, Flatten(received), whole, w, ended)
  {
    var frames := FrameReads(received, READ_BUF);
    ghost var heard := Flatten(received);
    var started, _, closed :=
      RunWaitForSpeechStart(frames, ToVad(VAD_SAMPLE_RATE, taps), w.timeoutMs, w.waitAfterStartMs,
                            w.onsetDurationMs, vad);
    if heard <= whole && closed {
      assert whole == heard + whole[|heard|..];
      StartHeardEnough(vad, heard, whole[|heard|..], w);
    }
    answer := if closed || ended then Some(started) else None;
  }

  /** What `ArmsAgree` says of a wait for speech, for a wait for its start. */
  method StartArmsAgree(bytes: seq<Byte>, chunks: seq<seq<Sample>>, ch: nat, rate: nat, taps: seq<real>, w: StartWait,
                        vad: NativeVad, earlier: seq<bool>, armed: nat, takes: seq<nat>)
      returns (recorded: Option<bool>, unrecorded: bool)
    requires 1 <= ch && rate > 0 && w.timeoutMs <= U64_MAX && SessionChunks(chunks, bytes, ch)
    requires |earlier| <= |chunks| && (earlier == [] || !earlier[|earlier| - 1])
    ensures unrecorded == StartIn(vad, ToVad(rate, taps).Whole(ChannelFrom(bytes, chunks, |earlier|, ch)), w).Some?
    ensures var turn, c := chunks[|earlier|..], ToVad(rate, taps);
      var seen, ended := turn[..Min(armed, |turn|)], armed >= |turn|;
      && (!Overflows(FramesOf(c, seen, ch), takes, |seen|) ==>
            && (recorded.Some? <==> ended || StartCloses(vad, HeardBy(c, seen, ch, takes, ended), w))
            && (recorded.Some? ==> recorded.value == unrecorded))
      && (|seen| <= 64 || (forall j :: 0 <= j < |seen| ==> Takes(takes, j) > 0) ==>
            !Overflows(FramesOf(c, seen, ch), takes, |seen|))
  {
    var turn, c := chunks[|earlier|..], ToVad(rate, taps);
    var received := TurnReceived(chunks, ch, c, earlier, armed, takes);
    TurnOnBytes(chunks, bytes, |earlier|, ch);
    recorded := HearStartReceived(received, taps, w, vad, armed >= |turn|, c.Whole(Channel0(turn, ch)));
    var at := 2 * |Flatten(chunks[..|earlier|])|;
    unrecorded := UnrecordedStart(bytes[at..], ch, rate, taps, w, vad);
    CannotOverflow(c, turn, armed, ch, takes);
  }

  method UnrecordedStart(bytes: seq<Byte>, ch: nat, rate: nat, taps: seq<real>, w: StartWait, vad: NativeVad)
      returns (started: bool)
    requires 1 <= ch && rate > 0 && w.timeoutMs <= U64_MAX
    ensures started == StartIn(vad, ToVad(rate, taps).Whole(CallChannel(Decode(bytes), ch)), w).Some?
  {
    var parts := DownmixReads(bytes, ch, READ_BUF);
    var heard, _, _ :=
      RunWaitForSpeechStart(parts, ToVad(rate, taps), w.timeoutMs, w.waitAfterStartMs, w.onsetDurationMs, vad);
    started := heard;
  }

  lemma CannotOverflow(c: Conversion, turn: seq<seq<Sample>>, armed: nat, ch: nat, takes: seq<nat>)
    requires c.Valid() && ch > 0
    ensures var seen := turn[..Min(armed, |turn|)];
      |seen| <= 64 || (forall j :: 0 <= j < |seen| ==> Takes(takes, j) > 0) ==>
        !Overflows(FramesOf(c, seen, ch), takes, |seen|)
  {
    var seen := turn[..Min(armed, |turn|)];
    if |seen| <= 64 || (forall j :: 0 <= j < |seen| ==> Takes(takes, j) > 0) {
      NeverOverflows(FramesOf(c, seen, ch), takes, |seen|);
    }
  }

  /** A tool whose output goes on after the turn was decided gives the same answer: what comes later, a
      frame it had torn at the old end included, does not enter into it. */
  lemma OutputGoesOn(bytes: seq<Byte>, more: seq<Byte>, ch: nat, c: Conversion, cfg: TurnConfig, vad: NativeVad)
    requires ch > 0 && c.Valid() && cfg.hopSize > 0
    requires TurnReason(vad, c.Whole(CallChannel(Decode(bytes), ch)), cfg) != EndOfStream
    ensures TurnReason(vad, c.Whole(CallChannel(Decode(bytes + more), ch)), cfg) ==
            TurnReason(vad, c.Whole(CallChannel(Decode(bytes), ch)), cfg)
  {
    var before, after := Decode(bytes), Decode(bytes + more);
    assert after == before + after[|before|..];
    ChannelGrows(before, after[|before|..], ch);
    PrefixGrows(c, CallChannel(before, ch), CallChannel(after, ch));
    var heard, whole := c.Whole(CallChannel(before, ch)), c.Whole(CallChannel(after, ch));
    assert whole == heard + whole[|heard|..];
    HeardEnough(vad, heard, whole[|heard|..], cfg);
  }

  lemma ChannelGrows(a: seq<Sample>, b: seq<Sample>, ch: nat)
    requires ch > 0
    ensures CallChannel(a, ch) <= CallChannel(a + b, ch)
  {
    BlocksAppend(a, b, ch);
  }

  /** A turn that ends before its stream does was decided by what it heard: hearing the rest would
      give the same reason. */
  lemma HeardEnough(vad: NativeVad, s: seq<Sample>, t: seq<Sample>, cfg: TurnConfig)
    requires cfg.hopSize > 0
    requires TurnReason(vad, s, cfg) != EndOfStream
    ensures TurnReason(vad, s + t, cfg) == TurnReason(vad, s, cfg)
  {
    var h, h' := Voiced(vad, Blocks(s, cfg.hopSize)), Voiced(vad, Blocks(s + t, cfg.hopSize));
    VoicedGrows(vad, s, t, cfg.hopSize);
    OutcomePrefix(h, h', |h|, LimitsOf(cfg));
    OutcomeStable(h', |h|, |h'|, LimitsOf(cfg));
  }

  lemma VoicedGrows(vad: NativeVad, s: seq<Sample>, t: seq<Sample>, hop: nat)
    requires hop > 0
    ensures Voiced(vad, Blocks(s, hop)) <= Voiced(vad, Blocks(s + t, hop))
  {
    BlocksAppend(s, t, hop);
    var hops, more := Blocks(s, hop), Blocks(s + t, hop);
    var h, h' := Voiced(vad, hops), Voiced(vad, more);
    forall i | 0 <= i < |h|
      ensures h[i] == h'[i]
    {
      assert hops[..i + 1] == more[..i + 1];
    }
  }
}
