/** Speech waits over a capture stream (server/crates/dialf/src/audio/engine.rs and the `Segmenter`
    of vad.rs).

    A capture source is the list of what its successive reads return: any list of non-empty reads is
    one way the stream may be split, and its end is the end of the stream. The native detector is a
    function from the hops it has heard, the current one last, to its voiced decision. */
module Engine {
  import opened Record
  import opened Seqs
  import opened Resample
  import opened Vad

  type Hop = seq<Sample>
  type NativeVad = seq<Hop> -> bool

  /** The decision the native detector takes on each hop. */
  function Voiced(vad: NativeVad, hops: seq<Hop>): (h: seq<bool>)
    ensures |h| == |hops|
  {
    seq(|hops|, i requires 0 <= i < |hops| => vad(hops[..i + 1]))
  }

  /** Why a turn over the 16 kHz stream `s` ends: what the turn detector says about its whole hops,
      or the end of the stream when it says nothing. */
  function TurnReason(vad: NativeVad, s: seq<Sample>, cfg: TurnConfig): EndReason
    requires cfg.hopSize > 0
  {
    var h := Voiced(vad, Blocks(s, cfg.hopSize));
    match Outcome(h, |h|, LimitsOf(cfg))
    case Some((_, reason)) => reason
    case None => EndOfStream
  }

  /** The reasons, in terms of what was voiced: a timely start with a full silence after it, a timeout, or
      neither by the end of the stream. */
  lemma ReasonMeans(vad: NativeVad, s: seq<Sample>, cfg: TurnConfig)
    requires cfg.hopSize > 0
    ensures var h, lim := Voiced(vad, Blocks(s, cfg.hopSize)), LimitsOf(cfg);
      && (TurnReason(vad, s, cfg) == Silence <==> EndsInSilence(h, lim))
      && (TurnReason(vad, s, cfg) == Timeout <==> EndsInTimeout(h, lim))
  {
    EndMeans(Voiced(vad, Blocks(s, cfg.hopSize)), LimitsOf(cfg));
  }

  class Segmenter {
    const vad: NativeVad
    const hopSize: nat
    const detector: TurnDetector
    var heard: seq<Hop>

    function Footprint(): set<object> { {this, detector} }

    /** The state after the first k of `hops`. */
    ghost predicate After(hops: seq<Hop>, k: nat)
      reads Footprint()
    {
      && k <= |hops|
      && heard == hops[..k]
      && detector.After(Voiced(vad, hops), k)
    }

    constructor (cfg: TurnConfig, vad: NativeVad, ghost hops: seq<Hop>)
      ensures After(hops, 0) && fresh(Footprint())
      ensures this.vad == vad && hopSize == cfg.hopSize && detector.Lim() == LimitsOf(cfg)
    {
      this.vad, hopSize, heard := vad, cfg.hopSize, [];
      detector := new TurnDetector(cfg, Voiced(vad, hops));
    }

    method PushHop(frame: Hop, ghost hops: seq<Hop>, ghost k: nat) returns (e: Option<TurnEvent>)
      requires After(hops, k) && k < |hops| && frame == hops[k]
      modifies Footprint()
      ensures After(hops, k + 1)
      ensures e == EventAt(Voiced(vad, hops), k, detector.Lim())
    {
      heard := heard + [frame];
      assert heard == hops[..k + 1];
      e := detector.Push(vad(heard), Voiced(vad, hops), k);
    }

    method Finish(ghost hops: seq<Hop>) returns (e: Option<TurnEvent>)
      requires After(hops, |hops|)
      modifies Footprint()
      ensures e == if Outcome(Voiced(vad, hops), |hops|, detector.Lim()).Some? then None else Some(Ended(EndOfStream))
    {
      e := detector.Finish(Voiced(vad, hops), |hops|);
    }
  }

  /** `pending` holds what has been resampled and not yet heard, and `future` the rest of the stream:
      together they still contain exactly the hops from k on. */
  ghost predicate Aligned(pending: seq<Sample>, future: seq<Sample>, hops: seq<Hop>, k: nat, hop: nat)
    requires hop > 0
  {
    k <= |hops| && Blocks(pending + future, hop) == hops[k..]
  }

  lemma AlignedHop(pending: seq<Sample>, future: seq<Sample>, hops: seq<Hop>, k: nat, hop: nat)
    requires hop > 0 && Aligned(pending, future, hops, k, hop) && |pending| >= hop
    ensures k < |hops| && hops[k] == pending[..hop]
    ensures Aligned(pending[hop..], future, hops, k + 1, hop)
  {
    assert (pending + future)[..hop] == pending[..hop];
    assert (pending + future)[hop..] == pending[hop..] + future;
    assert hops[k..] == [pending[..hop]] + Blocks(pending[hop..] + future, hop);
    assert hops[k] == hops[k..][0];
    assert hops[k + 1..] == hops[k..][1..];
  }

  lemma AlignedMore(pending: seq<Sample>, whole: seq<Sample>, a: seq<Sample>, out: seq<Sample>,
                    hops: seq<Hop>, k: nat, hop: nat)
    requires hop > 0 && a + out <= whole && Aligned(pending, whole[|a|..], hops, k, hop)
    ensures Aligned(pending + out, whole[|a + out|..], hops, k, hop)
  {
    assert whole[|a|..] == out + whole[|a + out|..];
    assert pending + (out + whole[|a + out|..]) == (pending + out) + whole[|a + out|..];
  }

  /** Hear every whole hop that is pending, up to one that ends the turn. */
  method HearTurn(seg: Segmenter, pending: seq<Sample>, ghost future: seq<Sample>, ghost hops: seq<Hop>, ghost k: nat)
      returns (ended: Option<EndReason>, rest: seq<Sample>, ghost k': nat)
    requires seg.hopSize > 0 && seg.After(hops, k) && Aligned(pending, future, hops, k, seg.hopSize)
    requires Outcome(Voiced(seg.vad, hops), k, seg.detector.Lim()).None?
    modifies seg.Footprint()
    ensures ended.Some? ==>
      exists i :: Outcome(Voiced(seg.vad, hops), |hops|, seg.detector.Lim()) == Some((i, ended.value))
    ensures ended.None? ==>
      && seg.After(hops, k') && Aligned(rest, future, hops, k', seg.hopSize) && |rest| < seg.hopSize
      && Outcome(Voiced(seg.vad, hops), k', seg.detector.Lim()).None?
  {
    var hop := seg.hopSize;
    ghost var h, lim := Voiced(seg.vad, hops), seg.detector.Lim();
    rest, k' := pending, k;
    while |rest| >= hop
      invariant seg.After(hops, k') && Aligned(rest, future, hops, k', hop)
      invariant Outcome(h, k', lim).None?
      decreases |rest|
    {
      AlignedHop(rest, future, hops, k', hop);
      var e := seg.PushHop(rest[..hop], hops, k');
      if e.Some? && e.value.Ended? {
        OutcomeStable(h, k' + 1, |hops|, lim);
        return Some(e.value.reason), rest, k';
      }
      rest, k' := rest[hop..], k' + 1;
    }
    return None, rest, k';
  }

  /** The reads of a stream: every read but the last one, which ends it, delivers something. */
  ghost predicate Reads(parts: seq<seq<Sample>>) {
    forall i :: 0 <= i < |parts| ==> parts[i] != []
  }

  /** The part of the resampled stream that the first i reads do not determine yet. */
  ghost function Future(c: Conversion, parts: seq<seq<Sample>>, i: nat): seq<Sample>
    requires c.Valid() && i <= |parts|
  {
    FlattenPrefix(parts, i);
    PrefixGrows(c, Flatten(parts[..i]), Flatten(parts));
    c.Whole(Flatten(parts))[|c.Whole(Flatten(parts[..i]))|..]
  }

  lemma PrefixGrows(c: Conversion, s: seq<Sample>, t: seq<Sample>)
    requires c.Valid() && s <= t
    ensures c.Whole(s) <= c.Whole(t)
  {
    assert t == s + t[|s|..];
    WholeGrows(c, s, t[|s|..]);
  }

  /** Resampling read i hands the segmenter the next piece of the stream, and nothing else. */
  lemma ReadAligned(c: Conversion, parts: seq<seq<Sample>>, i: nat, out: seq<Sample>, pending: seq<Sample>,
                    hops: seq<Hop>, k: nat, hop: nat)
    requires c.Valid() && i < |parts| && hop > 0
    requires c.Whole(Flatten(parts[..i]) + parts[i]) == c.Whole(Flatten(parts[..i])) + out
    requires Aligned(pending, Future(c, parts, i), hops, k, hop)
    ensures Aligned(pending + out, Future(c, parts, i + 1), hops, k, hop)
  {
    FlattenTake(parts, i);
    FlattenPrefix(parts, i + 1);
    PrefixGrows(c, Flatten(parts[..i + 1]), Flatten(parts));
    AlignedMore(pending, c.Whole(Flatten(parts)), c.Whole(Flatten(parts[..i])), out, hops, k, hop);
  }

  /** At the end of the stream less than a hop is pending, so every whole hop has been heard. */
  lemma AllHeard(pending: seq<Sample>, hops: seq<Hop>, k: nat, hop: nat)
    requires hop > 0 && Aligned(pending, [], hops, k, hop) && |pending| < hop
    ensures k == |hops|
  {
    assert pending + [] == pending;
    assert |hops[k..]| == 0;
  }

  /** Resample one read behind what is pending. */
  method Take(resampler: Resampler, parts: seq<seq<Sample>>, i: nat, pending: seq<Sample>,
              ghost c: Conversion, ghost hops: seq<Hop>, ghost k: nat, ghost hop: nat) returns (more: seq<Sample>)
    requires i < |parts| && hop > 0 && c.Valid() && resampler.After(c, Flatten(parts[..i]))
    requires Aligned(pending, Future(c, parts, i), hops, k, hop)
    modifies resampler.Footprint()
    ensures resampler.After(c, Flatten(parts[..i + 1]))
    ensures Aligned(more, Future(c, parts, i + 1), hops, k, hop)
  {
    var out := resampler.Process(parts[i], c, Flatten(parts[..i]));
    FlattenTake(parts, i);
    ReadAligned(c, parts, i, out, pending, hops, k, hop);
    more := pending + out;
  }

  /** What holds between two reads: the resampler and the segmenter are where the reads so far leave
      them, and less than a hop is pending. */
  ghost predicate Between(seg: Segmenter, resampler: Resampler, c: Conversion, parts: seq<seq<Sample>>, i: nat,
                          pending: seq<Sample>, hops: seq<Hop>, k: nat)
    requires i <= |parts|
    reads seg.Footprint(), resampler.Footprint()
  {
    && seg.hopSize > 0 && c.Valid() && |pending| < seg.hopSize
    && seg.Footprint() !! resampler.Footprint()
    && resampler.After(c, Flatten(parts[..i])) && seg.After(hops, k)
    && Aligned(pending, Future(c, parts, i), hops, k, seg.hopSize)
  }

  method HearRead(seg: Segmenter, resampler: Resampler, parts: seq<seq<Sample>>, i: nat, pending: seq<Sample>,
                  ghost c: Conversion, ghost hops: seq<Hop>, ghost k: nat)
      returns (ended: Option<EndReason>, rest: seq<Sample>, ghost k': nat)
    requires i < |parts| && Between(seg, resampler, c, parts, i, pending, hops, k)
    requires Outcome(Voiced(seg.vad, hops), k, seg.detector.Lim()).None?
    modifies seg.Footprint(), resampler.Footprint()
    ensures ended.Some? ==>
      exists j :: Outcome(Voiced(seg.vad, hops), |hops|, seg.detector.Lim()) == Some((j, ended.value))
    ensures ended.None? ==>
      && Between(seg, resampler, c, parts, i + 1, rest, hops, k')
      && Outcome(Voiced(seg.vad, hops), k', seg.detector.Lim()).None?
  {
    var more := Take(resampler, parts, i, pending, c, hops, k, seg.hopSize);
    ended, rest, k' := HearTurn(seg, more, Future(c, parts, i + 1), hops, k);
  }

  /** Wait for the turn to end. The reason is the one the turn detector gives over the whole hops of
      the resampled stream: how the stream is cut into reads does not enter into it. */
  method RunWaitForSpeech(parts: seq<seq<Sample>>, c: Conversion, cfg: TurnConfig, vad: NativeVad)
      returns (reason: EndReason)
    requires Reads(parts) && cfg.hopSize > 0 && c.src > 0 && c.dst == VAD_SAMPLE_RATE
    ensures reason == TurnReason(vad, c.Whole(Flatten(parts)), cfg)
  {
    ghost var whole := c.Whole(Flatten(parts));
    ghost var hops := Blocks(whole, cfg.hopSize);
    var seg := new Segmenter(cfg, vad, hops);
    var resampler := Resampler.New(c);
    var pending: seq<Sample> := [];
    ghost var k := 0;
    StreamStart(c, parts, hops, cfg.hopSize);
    for i := 0 to |parts|
      invariant fresh(seg.Footprint()) && fresh(resampler.Footprint())
      invariant Between(seg, resampler, c, parts, i, pending, hops, k)
      invariant Outcome(Voiced(vad, hops), k, LimitsOf(cfg)).None?
    {
      var ended;
      ended, pending, k := HearRead(seg, resampler, parts, i, pending, c, hops, k);
      if ended.Some? {
        return ended.value;
      }
    }
    assert parts[..|parts|] == parts;
    AllHeard(pending, hops, k, cfg.hopSize);
    if |pending| >= cfg.hopSize {
      assert false;
    }
    var last := seg.Finish(hops);
    return if last.Some? && last.value.Ended? then last.value.reason else EndOfStream;
  }

  lemma StreamStart(c: Conversion, parts: seq<seq<Sample>>, hops: seq<Hop>, hop: nat)
    requires c.Valid() && hop > 0 && hops == Blocks(c.Whole(Flatten(parts)), hop)
    ensures Aligned([], Future(c, parts, 0), hops, 0, hop) && Flatten(parts[..0]) == []
  {
    WholeOfNothing(c);
    assert [] + Future(c, parts, 0) == c.Whole(Flatten(parts));
  }

  // ---- waiting for speech to start -----------------------------------------------------------

  /** The two windows of a start wait, in whole hops of audio time: rounded down, unlike the turn
      detector's own timeout. */
  function HopMs(hop: nat): nat { Max(hop * 1000 / VAD_SAMPLE_RATE, 1) }

  function StartConfig(timeoutMs: nat, onsetDurationMs: nat): TurnConfig {
    TurnConfig(HOP_256, U64_MAX, timeoutMs, onsetDurationMs)
  }

  /** The detector gives up no earlier than the wait does, so it cannot swallow an onset the wait
      would still accept. */
  lemma DetectorOutlastsWait(timeoutMs: nat, onsetDurationMs: nat)
    requires timeoutMs <= U64_MAX
    ensures timeoutMs / HopMs(HOP_256) <= LimitsOf(StartConfig(timeoutMs, onsetDurationMs)).timeout
  {
  }

  /** The onset a wait of `timeout` hops reports, over all the hops of a stream. */
  function TimelyOnset(h: seq<bool>, lim: Limits, timeout: nat): Option<nat> {
    var onset := Onset(h, |h|, lim);
    if onset.Some? && onset.value < Max(1, timeout) then onset else None
  }

  /** The wait is still open after k hops, having noted `onsetAt`. */
  ghost predicate Listening(h: seq<bool>, k: nat, onsetAt: Option<nat>, lim: Limits, timeout: nat, linger: nat)
    requires k <= |h|
  {
    && onsetAt == Onset(h, k, lim)
    && match onsetAt
       case None => k < Max(1, timeout)
       case Some(a) => a < Max(1, timeout) && k < a + Max(1, linger)
  }

  lemma OnsetHeard(h: seq<bool>, k: nat, lim: Limits, timeout: nat)
    requires k < |h| && Onset(h, k, lim).None? && k < Max(1, timeout) && timeout <= lim.timeout
    ensures EventAt(h, k, lim) == Some(SpeechStarted) <==> Onset(h, k + 1, lim) == Some(k)
  {
  }

  /** How many hops of a stream close the wait: enough after a timely onset, or the timeout. */
  function ClosesAfter(h: seq<bool>, lim: Limits, timeout: nat, linger: nat): nat {
    var onset := TimelyOnset(h, lim, timeout);
    if onset.Some? then onset.value + Max(1, linger) else Max(1, timeout)
  }

  /** What the wait has concluded once it stops after k hops, and whether it did so of its own accord or
      because the stream ended. */
  ghost predicate Concluded(h: seq<bool>, k: nat, started: bool, closed: bool, lim: Limits, timeout: nat, linger: nat) {
    && started == TimelyOnset(h, lim, timeout).Some?
    && k == Min(|h|, ClosesAfter(h, lim, timeout, linger))
    && (closed <==> ClosesAfter(h, lim, timeout, linger) <= |h|)
  }

  lemma ConcludedWhenStopped(h: seq<bool>, k: nat, closed: bool, lim: Limits, timeout: nat, linger: nat)
    requires k <= |h| && (!closed ==> k == |h| && Listening(h, k, Onset(h, k, lim), lim, timeout, linger))
    requires closed ==>
      match Onset(h, k, lim)
      case None => k == Max(1, timeout)
      case Some(a) => a < Max(1, timeout) && k == a + Max(1, linger)
    ensures Concluded(h, k, Onset(h, k, lim).Some?, closed, lim, timeout, linger)
  {
    FirstRunStable(h, 0, k, |h|, true, lim.onset);
  }

  /** A wait that closed was decided by what it heard: a longer stream gives the same onset. */
  lemma ClosedIsFinal(h: seq<bool>, h': seq<bool>, lim: Limits, timeout: nat, linger: nat)
    requires h <= h' && ClosesAfter(h, lim, timeout, linger) <= |h|
    ensures TimelyOnset(h', lim, timeout) == TimelyOnset(h, lim, timeout)
  {
    RunPrefix(h, h', 0, |h|, true, lim.onset);
    FirstRunStable(h', 0, |h|, |h'|, true, lim.onset);
  }

  method HearStart(seg: Segmenter, pending: seq<Sample>, hopsSeen: nat, onsetAt: Option<nat>, timeout: nat, linger: nat,
                   ghost future: seq<Sample>, ghost hops: seq<Hop>, ghost h: seq<bool>, ghost lim: Limits)
      returns (started: Option<bool>, rest: seq<Sample>, hopsSeen': nat, onsetAt': Option<nat>)
    requires seg.hopSize > 0 && seg.After(hops, hopsSeen) && Aligned(pending, future, hops, hopsSeen, seg.hopSize)
    requires h == Voiced(seg.vad, hops) && lim == seg.detector.Lim() && timeout <= lim.timeout
    requires Listening(h, hopsSeen, onsetAt, lim, timeout, linger)
    modifies seg.Footprint()
    ensures started.Some? ==> Concluded(h, hopsSeen', started.value, true, lim, timeout, linger)
    ensures started.None? ==>
      && seg.After(hops, hopsSeen') && Aligned(rest, future, hops, hopsSeen', seg.hopSize) && |rest| < seg.hopSize
      && Listening(h, hopsSeen', onsetAt', lim, timeout, linger)
  {
    var hop := seg.hopSize;
    rest, hopsSeen', onsetAt' := pending, hopsSeen, onsetAt;
    while |rest| >= hop
      invariant seg.After(hops, hopsSeen') && Aligned(rest, future, hops, hopsSeen', hop)
      invariant Listening(h, hopsSeen', onsetAt', lim, timeout, linger)
      decreases |rest|
    {
      AlignedHop(rest, future, hops, hopsSeen', hop);
      var e := seg.PushHop(rest[..hop], hops, hopsSeen');
      onsetAt' := NoteOnset(e, hopsSeen', onsetAt', h, lim, timeout, linger);
      hopsSeen', rest := hopsSeen' + 1, rest[hop..];
      if onsetAt'.Some? && hopsSeen' - onsetAt'.value >= linger {
        ConcludedWhenStopped(h, hopsSeen', true, lim, timeout, linger);
        return Some(true), rest, hopsSeen', onsetAt';
      }
      if onsetAt'.None? && hopsSeen' >= timeout {
        ConcludedWhenStopped(h, hopsSeen', true, lim, timeout, linger);
        return Some(false), rest, hopsSeen', onsetAt';
      }
    }
    return None, rest, hopsSeen', onsetAt';
  }

  /** The first onset event fixes where the far end started; later events change nothing. */
  method NoteOnset(e: Option<TurnEvent>, hop: nat, onsetAt: Option<nat>,
                   ghost h: seq<bool>, ghost lim: Limits, ghost timeout: nat, ghost linger: nat)
      returns (at: Option<nat>)
    requires hop < |h| && e == EventAt(h, hop, lim) && timeout <= lim.timeout
    requires Listening(h, hop, onsetAt, lim, timeout, linger)
    ensures at == Onset(h, hop + 1, lim)
    ensures at.Some? ==> at.value < Max(1, timeout) && hop < at.value + Max(1, linger)
    ensures at.None? ==> hop < Max(1, timeout)
  {
    FirstRunStable(h, 0, hop, hop + 1, true, lim.onset);
    at := onsetAt;
    if onsetAt.None? {
      OnsetHeard(h, hop, lim, timeout);
      if e == Some(SpeechStarted) {
        at := Some(hop);
      }
    }
  }

  method HearStartRead(seg: Segmenter, resampler: Resampler, parts: seq<seq<Sample>>, i: nat, pending: seq<Sample>,
                       hopsSeen: nat, onsetAt: Option<nat>, timeout: nat, linger: nat,
                       ghost c: Conversion, ghost hops: seq<Hop>, ghost h: seq<bool>, ghost lim: Limits)
      returns (started: Option<bool>, rest: seq<Sample>, hopsSeen': nat, onsetAt': Option<nat>)
    requires i < |parts| && Between(seg, resampler, c, parts, i, pending, hops, hopsSeen)
    requires h == Voiced(seg.vad, hops) && lim == seg.detector.Lim() && timeout <= lim.timeout
    requires Listening(h, hopsSeen, onsetAt, lim, timeout, linger)
    modifies seg.Footprint(), resampler.Footprint()
    ensures started.Some? ==> Concluded(h, hopsSeen', started.value, true, lim, timeout, linger)
    ensures started.None? ==>
      && Between(seg, resampler, c, parts, i + 1, rest, hops, hopsSeen')
      && Listening(h, hopsSeen', onsetAt', lim, timeout, linger)
  {
    var more := Take(resampler, parts, i, pending, c, hops, hopsSeen, seg.hopSize);
    started, rest, hopsSeen', onsetAt' :=
      HearStart(seg, more, hopsSeen, onsetAt, timeout, linger, Future(c, parts, i + 1), hops, h, lim);
  }

  method WatchForStart(parts: seq<seq<Sample>>, c: Conversion, cfg: TurnConfig, timeout: nat, linger: nat,
                       vad: NativeVad)
      returns (started: bool, hopsSeen: nat, closed: bool)
    requires Reads(parts) && cfg.hopSize > 0 && c.src > 0 && c.dst == VAD_SAMPLE_RATE
    requires timeout <= LimitsOf(cfg).timeout
    ensures Concluded(Voiced(vad, Blocks(c.Whole(Flatten(parts)), cfg.hopSize)), hopsSeen, started, closed,
                      LimitsOf(cfg), timeout, linger)
  {
    ghost var hops := Blocks(c.Whole(Flatten(parts)), cfg.hopSize);
    ghost var h, lim := Voiced(vad, hops), LimitsOf(cfg);
    var seg := new Segmenter(cfg, vad, hops);
    var resampler := Resampler.New(c);
    var pending: seq<Sample> := [];
    var onsetAt: Option<nat> := None;
    hopsSeen := 0;
    StreamStart(c, parts, hops, cfg.hopSize);
    for i := 0 to |parts|
      invariant fresh(seg.Footprint()) && fresh(resampler.Footprint())
      invariant Between(seg, resampler, c, parts, i, pending, hops, hopsSeen)
      invariant Listening(h, hopsSeen, onsetAt, lim, timeout, linger)
    {
      var s;
      s, pending, hopsSeen, onsetAt :=
        HearStartRead(seg, resampler, parts, i, pending, hopsSeen, onsetAt, timeout, linger, c, hops, h, lim);
      if s.Some? {
        return s.value, hopsSeen, true;
      }
    }
    assert parts[..|parts|] == parts;
    AllHeard(pending, hops, hopsSeen, cfg.hopSize);
    ConcludedWhenStopped(h, hopsSeen, false, lim, timeout, linger);
    return onsetAt.Some?, hopsSeen, false;
  }

  /** Wait for speech to start and then `waitAfterStartMs` longer. It succeeds exactly when the first
      onset falls on a hop before the timeout, after max(1, linger) hops counted from the onset hop;
      otherwise it gives up after max(1, timeout) hops, or earlier when the stream ends first. It `closed`
      when it did not take the stream's end for that. */
  method RunWaitForSpeechStart(parts: seq<seq<Sample>>, c: Conversion, timeoutMs: nat, waitAfterStartMs: nat,
                               onsetDurationMs: nat, vad: NativeVad)
      returns (started: bool, hopsSeen: nat, closed: bool)
    requires Reads(parts) && c.src > 0 && c.dst == VAD_SAMPLE_RATE
    requires timeoutMs <= U64_MAX
    ensures Concluded(Voiced(vad, Blocks(c.Whole(Flatten(parts)), HOP_256)), hopsSeen, started, closed,
                      LimitsOf(StartConfig(timeoutMs, onsetDurationMs)), timeoutMs / 16, waitAfterStartMs / 16)
  {
    var cfg := StartConfig(timeoutMs, onsetDurationMs);
    assert HopMs(cfg.hopSize) == 16;
    DetectorOutlastsWait(timeoutMs, onsetDurationMs);
    started, hopsSeen, closed :=
      WatchForStart(parts, c, cfg, timeoutMs / HopMs(cfg.hopSize), waitAfterStartMs / HopMs(cfg.hopSize), vad);
  }

  /** What the wait looks for, in terms of what was voiced: the earliest voiced window that covers the onset's
      time, before the timeout counted in hops of 16 ms; and how long it then goes on. */
  lemma StartMeans(h: seq<bool>, timeoutMs: nat, waitAfterStartMs: nat, onsetDurationMs: nat, a: nat)
    ensures var lim := LimitsOf(StartConfig(timeoutMs, onsetDurationMs));
      var timeout, linger := timeoutMs / 16, waitAfterStartMs / 16;
      && (Covers(lim.onset, onsetDurationMs, 256) || (onsetDurationMs == 0 && lim.onset == 1))
      && (TimelyOnset(h, lim, timeout) == Some(a) <==> FirstWindow(h, 0, a, true, lim.onset) && a < Max(1, timeout))
      && (TimelyOnset(h, lim, timeout) == Some(a) ==> ClosesAfter(h, lim, timeout, linger) == a + Max(1, linger))
      && (TimelyOnset(h, lim, timeout) == None ==> ClosesAfter(h, lim, timeout, linger) == Max(1, timeout))
  {
    LimitsCover(StartConfig(timeoutMs, onsetDurationMs));
    OnsetMeans(h, LimitsOf(StartConfig(timeoutMs, onsetDurationMs)), a);
  }

  // ---- placing a prompt on tx ------------------------------------------------------------------

  /** A mono prompt in the leg's shape: every sample on every channel. */
  function Widened(mono: seq<Sample>, ch: nat): (r: seq<Frame>)
    ensures |r| == |mono| && Frames(r, ch)
  {
    seq(|mono|, i requires 0 <= i < |mono| => Repeat(mono[i], ch))
  }

  method Widen(mono: seq<Sample>, ch: nat) returns (wide: seq<Sample>)
    ensures wide == Flatten(Widened(mono, ch))
  {
    wide := [];
    for i := 0 to |mono|
      invariant wide == Flatten(Widened(mono[..i], ch))
    {
      var frame: Frame := [];
      for j := 0 to ch
        invariant frame == Repeat(mono[i], j)
      {
        frame := frame + [mono[i]];
      }
      assert Widened(mono[..i + 1], ch) == Widened(mono[..i], ch) + [frame];
      FlattenSnoc(Widened(mono[..i], ch), frame);
      wide := wide + frame;
    }
    assert mono[..|mono|] == mono;
  }

  lemma WidenedAppend(a: seq<Sample>, b: seq<Sample>, ch: nat)
    ensures Flatten(Widened(a + b, ch)) == Flatten(Widened(a, ch)) + Flatten(Widened(b, ch))
  {
    assert Widened(a + b, ch) == Widened(a, ch) + Widened(b, ch);
    FlattenConcat(Widened(a, ch), Widened(b, ch));
  }

  /** What a prompt file becomes on a leg. */
  function PromptOn(file: Wav, c: Conversion, ch: nat): seq<Sample>
    requires c.Valid()
  {
    Flatten(Widened(c.Whole(StepBy(file.samples, Max(file.channels, 1))), ch))
  }

  /** Every channel of every frame of the prompt carries the converted sample of that frame. */
  lemma PromptOnEveryChannel(file: Wav, c: Conversion, ch: nat, i: nat, j: nat)
    requires c.Valid() && ch > 0 && j < ch
    ensures var mono := c.Whole(StepBy(file.samples, Max(file.channels, 1)));
      var frames := Blocks(PromptOn(file, c, ch), ch);
      && |frames| == |mono| && Leftover(PromptOn(file, c, ch), ch) == []
      && (i < |mono| ==> frames[i][j] == mono[i])
  {
    var mono := c.Whole(StepBy(file.samples, Max(file.channels, 1)));
    BlocksOfBlocks(Widened(mono, ch), ch);
  }

  /** Place the whole prompt at the rx clock, whatever the read buffer cuts it into. */
  method TeeTx(session: DuplexSession, file: Wav, taps: seq<real>)
    requires session.Valid() && session.rate > 0 && file.rate > 0
    modifies session`tx, session`txLen, session`prompts
    ensures session.Valid()
    ensures session.prompts == old(session.prompts) +
      [Prompt(session.rxLen, PromptOn(file, Conversion(file.rate, session.rate, taps), session.channels))]
  {
    var c, ch := Conversion(file.rate, session.rate, taps), session.channels;
    var prompt := BuildPrompt(StepBy(file.samples, Max(file.channels, 1)), c, ch);
    BlocksOfBlocks(Widened(c.Whole(StepBy(file.samples, Max(file.channels, 1))), ch), ch);
    session.PushTx(prompt);
  }

  method BuildPrompt(mono: seq<Sample>, c: Conversion, ch: nat) returns (prompt: seq<Sample>)
    requires c.Valid()
    ensures prompt == Flatten(Widened(c.Whole(mono), ch))
  {
    var rs := Resampler.New(c);
    prompt := [];
    var rest := mono;
    ghost var done: seq<Sample> := [];
    WholeOfNothing(c);
    while rest != []
      invariant fresh(rs.Footprint()) && rs.After(c, done) && done + rest == mono
      invariant prompt == Flatten(Widened(c.Whole(done), ch))
      decreases |rest|
    {
      var n := Min(4096, |rest|);
      var piece := rest[..n];
      CutAt(done, rest, n);
      var out := rs.Process(piece, c, done);
      var wide := Widen(out, ch);
      WidenedAppend(c.Whole(done), out, ch);
      prompt, rest, done := prompt + wide, rest[n..], done + piece;
    }
    assert done + [] == done;
  }

  lemma CutAt(done: seq<Sample>, rest: seq<Sample>, n: nat)
    requires n <= |rest|
    ensures (done + rest[..n]) + rest[n..] == done + rest
  {
  }
}
