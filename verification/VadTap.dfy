/** The path from the capture thread to a waiting turn: the VAD branch of the capture loop, the frame
    channel and `VadFrameSource` (server/crates/dialf/src/audio/record.rs). */
module VadTap {
  import opened Capture
  import opened Record
  import opened Resample
  import opened Seqs

  const VAD_CHANNEL_BOUND: nat := 64

  // ---- what the frames and the channel come to ------------------------------------------------------

  /** What the turn's resampler gives for `mono`, after `fed` since the turn began. */
  function FrameOf(c: Conversion, fed: seq<Sample>, mono: seq<Sample>): seq<Sample>
    requires c.Valid()
  {
    WholeGrows(c, fed, mono);
    c.Whole(fed + mono)[|c.Whole(fed)|..]
  }

  /** The call channel of a list of chunks. */
  function Channel0(chunks: seq<seq<Sample>>, ch: nat): seq<Sample>
    requires ch > 0
  {
    if chunks == [] then []
    else Channel0(chunks[..|chunks| - 1], ch) + CallChannel(chunks[|chunks| - 1], ch)
  }

  lemma Channel0Snoc(chunks: seq<seq<Sample>>, i: nat, ch: nat)
    requires ch > 0 && i < |chunks|
    ensures Channel0(chunks[..i + 1], ch) == Channel0(chunks[..i], ch) + CallChannel(chunks[i], ch)
  {
    assert chunks[..i + 1][..i] == chunks[..i];
  }

  /** The frame each chunk of a turn gives, empty ones included. */
  function FramesOf(c: Conversion, chunks: seq<seq<Sample>>, ch: nat): (r: seq<seq<Sample>>)
    requires c.Valid() && ch > 0
    ensures |r| == |chunks|
  {
    if chunks == [] then []
    else
      var init := chunks[..|chunks| - 1];
      FramesOf(c, init, ch) + [FrameOf(c, Channel0(init, ch), CallChannel(chunks[|chunks| - 1], ch))]
  }

  lemma {:induction false} FramesAt(c: Conversion, chunks: seq<seq<Sample>>, ch: nat, i: nat)
    requires c.Valid() && ch > 0 && i < |chunks|
    ensures FramesOf(c, chunks, ch)[i] == FrameOf(c, Channel0(chunks[..i], ch), CallChannel(chunks[i], ch))
  {
    if i < |chunks| - 1 {
      var init := chunks[..|chunks| - 1];
      FramesAt(c, init, ch, i);
      assert init[..i] == chunks[..i];
    }
  }

  /** The frames there is anything to send of. */
  function Sent(frames: seq<seq<Sample>>): seq<seq<Sample>> {
    if frames == [] then []
    else if frames[|frames| - 1] == [] then Sent(frames[..|frames| - 1])
    else Sent(frames[..|frames| - 1]) + [frames[|frames| - 1]]
  }

  lemma SentSnoc(frames: seq<seq<Sample>>, i: nat)
    requires i < |frames|
    ensures Sent(frames[..i + 1]) == if frames[i] == [] then Sent(frames[..i]) else Sent(frames[..i]) + [frames[i]]
  {
    assert frames[..i + 1][..i] == frames[..i];
  }

  lemma FrameSpells(c: Conversion, fed: seq<Sample>, mono: seq<Sample>)
    requires c.Valid()
    ensures c.Whole(fed) + FrameOf(c, fed, mono) == c.Whole(fed + mono)
  {
    WholeGrows(c, fed, mono);
  }

  lemma SentOneMore(frames: seq<seq<Sample>>, i: nat)
    requires i < |frames|
    ensures Flatten(Sent(frames[..i + 1])) == Flatten(Sent(frames[..i])) + frames[i]
  {
    SentSnoc(frames, i);
    if frames[i] != [] {
      FlattenSnoc(Sent(frames[..i]), frames[i]);
    }
  }

  /** What is sent during a turn spells the resampled call channel since the turn began. */
  lemma {:induction false} SentSpells(c: Conversion, chunks: seq<seq<Sample>>, ch: nat, i: nat)
    requires c.Valid() && ch > 0 && i <= |chunks|
    ensures Flatten(Sent(FramesOf(c, chunks, ch)[..i])) == c.Whole(Channel0(chunks[..i], ch))
  {
    if i == 0 {
      WholeOfNothing(c);
    } else {
      SentSpells(c, chunks, ch, i - 1);
      SentOneMore(FramesOf(c, chunks, ch), i - 1);
      FramesAt(c, chunks, ch, i - 1);
      Channel0Snoc(chunks, i - 1, ch);
      FrameSpells(c, Channel0(chunks[..i - 1], ch), CallChannel(chunks[i - 1], ch));
    }
  }

  /** How many frames the waiting job is ready to take after chunk i. */
  function Takes(takes: seq<nat>, i: nat): nat { if i < |takes| then takes[i] else 0 }

  /** Frames in the channel after i chunks: each frame goes in if there is room, then the job takes. */
  function Waiting(frames: seq<seq<Sample>>, takes: seq<nat>, i: nat): (n: nat)
    requires i <= |frames|
    ensures n <= VAD_CHANNEL_BOUND
  {
    if i == 0 then 0
    else
      var before := Waiting(frames, takes, i - 1);
      var full := if frames[i - 1] == [] then before else Min(before + 1, VAD_CHANNEL_BOUND);
      full - Min(Takes(takes, i - 1), full)
  }

  ghost predicate OverflowsAt(frames: seq<seq<Sample>>, takes: seq<nat>, i: nat)
    requires i < |frames|
  {
    frames[i] != [] && Waiting(frames, takes, i) == VAD_CHANNEL_BOUND
  }

  /** Some frame among the first n finds the channel full. */
  ghost predicate Overflows(frames: seq<seq<Sample>>, takes: seq<nat>, n: nat)
    requires n <= |frames|
  {
    n > 0 && (Overflows(frames, takes, n - 1) || OverflowsAt(frames, takes, n - 1))
  }

  lemma {:induction false} OverflowsSomewhere(frames: seq<seq<Sample>>, takes: seq<nat>, n: nat)
    requires n <= |frames|
    ensures Overflows(frames, takes, n) <==> exists i :: 0 <= i < n && OverflowsAt(frames, takes, i)
  {
    if n > 0 {
      OverflowsSomewhere(frames, takes, n - 1);
    }
  }

  lemma {:induction false} WaitingBounded(frames: seq<seq<Sample>>, takes: seq<nat>, i: nat)
    requires i <= |frames|
    ensures Waiting(frames, takes, i) <= i
    ensures (forall j :: 0 <= j < i ==> Takes(takes, j) > 0) ==> Waiting(frames, takes, i) == 0
  {
    if i > 0 {
      WaitingBounded(frames, takes, i - 1);
    }
  }

  /** No frame is lost in a turn of no more chunks than the channel holds, or of any length when the job
      takes at least one frame after every chunk. */
  lemma NeverOverflows(frames: seq<seq<Sample>>, takes: seq<nat>, n: nat)
    requires n <= |frames|
    requires n <= 64 || forall j :: 0 <= j < n ==> Takes(takes, j) > 0
    ensures !Overflows(frames, takes, n)
  {
    OverflowsSomewhere(frames, takes, n);
    forall i | 0 <= i < n
      ensures !OverflowsAt(frames, takes, i)
    {
      WaitingBounded(frames, takes, i);
    }
  }

  // ---- the tap itself --------------------------------------------------------------------------------

  class Tap {
    const channels: nat
    const c: Conversion
    var active: bool
    var wasActive: bool
    var rs: Resampler
    var queue: seq<seq<Sample>>

    // The call channel since the turn began, the frames the turn has received, and whether one of its
    // frames found the channel full.
    ghost var fed: seq<Sample>
    ghost var delivered: seq<seq<Sample>>
    ghost var dropped: bool

    ghost predicate Valid()
      reads this, rs.Footprint()
    {
      && channels > 0 && c.Valid() && this !in rs.Footprint()
      && (active && !wasActive ==> fed == [])
      && (wasActive ==> rs.After(c, fed)) && |queue| <= VAD_CHANNEL_BOUND
      && (!dropped ==> Flatten(delivered) + Flatten(queue) == c.Whole(fed))
    }

    constructor (channels: nat, c: Conversion)
      requires c.Valid()
      ensures Valid() && !active && !wasActive && fresh(rs.Footprint())
      ensures this.channels == Max(channels, 1) && this.c == c
    {
      this.channels, this.c := Max(channels, 1), c;
      active, wasActive, queue := false, false, [];
      dropped, fed, delivered := false, [], [];
      rs := Passthrough;
      new;
      rs := Resampler.New(c);
      WholeOfNothing(c);
    }

    /** Begin a turn: drop what is stale, then arm. */
    method Begin()
      requires Valid() && !wasActive
      modifies this`active, this`queue, this`dropped, this`fed, this`delivered
      ensures Valid() && active && queue == [] && fed == [] && delivered == [] && !dropped
    {
      queue, active := [], true;
      dropped, fed, delivered := false, [], [];
      WholeOfNothing(c);
    }

    method End()
      requires Valid()
      modifies this`active
      ensures Valid() && !active
    {
      active := false;
    }

    /** The capture loop's VAD branch: reduce to the call channel, resample, and try to send. A frame is
        lost exactly when there is one and the channel is full. */
    method OnChunk(chunk: seq<Sample>)
      requires Valid() && WholeFrames(chunk, channels)
      modifies this`wasActive, this`rs, this`queue, this`dropped, this`fed, rs.Footprint()
      ensures Valid() && fresh(rs.Footprint() - old(rs.Footprint())) && wasActive == active
      ensures !active ==> fed == old(fed) && queue == old(queue) && dropped == old(dropped)
      ensures active ==> Forwarded(old(fed), old(queue), old(dropped), CallChannel(chunk, channels))
    {
      if active && !wasActive {
        rs := Resampler.New(c);
      }
      wasActive := active;
      if active {
        var mono := StepBy(chunk, channels);
        StepByIsCallChannel(chunk, channels);
        Forward(mono);
      }
    }

    /** One more piece of the call channel has been fed, and its frame sent if there was room for it. */
    ghost predicate Forwarded(fedBefore: seq<Sample>, queueBefore: seq<seq<Sample>>, droppedBefore: bool,
                              mono: seq<Sample>)
      requires c.Valid()
      reads this
    {
      var frame := FrameOf(c, fedBefore, mono);
      && fed == fedBefore + mono
      && queue == (if frame == [] || |queueBefore| >= VAD_CHANNEL_BOUND then queueBefore else queueBefore + [frame])
      && (dropped <==> droppedBefore || (frame != [] && |queueBefore| >= VAD_CHANNEL_BOUND))
    }

    method Forward(mono: seq<Sample>)
      requires Valid() && wasActive
      modifies this`queue, this`dropped, this`fed, rs.Footprint()
      ensures Valid() && Forwarded(old(fed), old(queue), old(dropped), mono)
    {
      var frame := rs.Process(mono, c, fed);
      assert frame == FrameOf(c, fed, mono);
      fed := fed + mono;
      if frame != [] {
        if |queue| < VAD_CHANNEL_BOUND {
          FlattenSnoc(queue, frame);
          Associate(Flatten(delivered), Flatten(queue), frame);
          queue := queue + [frame];
        } else {
          dropped := true;
        }
      }
    }

    /** The waiting turn takes the oldest frame. */
    method Recv() returns (frame: seq<Sample>)
      requires Valid() && queue != []
      modifies this`queue, this`delivered
      ensures Valid() && frame == old(queue)[0] && queue == old(queue)[1..] && delivered == old(delivered) + [frame]
    {
      frame := queue[0];
      FlattenCons(queue[0], queue[1..]);
      assert queue == [queue[0]] + queue[1..];
      FlattenSnoc(delivered, frame);
      Associate(Flatten(delivered), frame, Flatten(queue[1..]));
      queue := queue[1..];
      delivered := delivered + [frame];
    }
  }

  /** `VadFrameSource`: the channel's frames, cut to the reader's buffer. `frames` are those still to
      come before the sender goes away; waiting for one that is late is the caller's retry. */
  class VadFrameSource {
    var frames: seq<seq<Sample>>
    var leftover: seq<Sample>
    var pos: nat

    ghost predicate Valid()
      reads this
    {
      pos <= |leftover|
    }

    ghost function Pending(): seq<Sample>
      requires Valid()
      reads this
    {
      leftover[pos..] + Flatten(frames)
    }

    constructor (frames: seq<seq<Sample>>)
      ensures Valid() && Pending() == Flatten(frames)
    {
      this.frames, leftover, pos := frames, [], 0;
    }

    method Read(out: array<Sample>) returns (n: nat)
      requires Valid()
      modifies this, out
      ensures Valid() && n <= out.Length
      ensures old(Pending()) == out[..n] + Pending()
      ensures n == 0 <==> out.Length == 0 || old(Pending()) == []
    {
      if out.Length == 0 {
        assert out[..0] == [];
        return 0;
      }
      while pos >= |leftover|
        invariant Valid() && Pending() == old(Pending())
        decreases |frames|, |leftover| - pos
      {
        if frames == [] {
          assert out[..0] == [];
          return 0;
        }
        FlattenCons(frames[0], frames[1..]);
        assert frames == [frames[0]] + frames[1..];
        leftover, frames, pos := frames[0], frames[1..], 0;
      }
      n := Min(|leftover| - pos, out.Length);
      var data, at := leftover, pos;
      for i := 0 to n
        modifies out
        invariant forall j :: 0 <= j < i ==> out[j] == data[at + j]
      {
        out[i] := data[at + i];
      }
      assert out[..n] == data[at..at + n];
      assert data[at..] == data[at..at + n] + data[at + n..];
      Associate(data[at..at + n], data[at + n..], Flatten(frames));
      pos := pos + n;
    }
  }
}
