/** Turn detection over voiced/unvoiced hops (server/crates/dialf/src/audio/vad.rs). */
module Vad {
  import opened Arithmetic
  import opened Seqs

  const VAD_SAMPLE_RATE: nat := 16_000
  const HOP_256: nat := 256
  const USIZE_MAX: nat := 0xffff_ffff_ffff_ffff
  const U64_MAX: nat := 0xffff_ffff_ffff_ffff

  datatype TurnConfig = TurnConfig(hopSize: nat, silenceDurationMs: nat, endTimeoutMs: nat, onsetDurationMs: nat)

  datatype EndReason = Silence | Timeout | EndOfStream

  datatype TurnEvent = SpeechStarted | Ended(reason: EndReason)

  /** Hops needed to cover `ms`, rounded up; a hop lasts hopSize*1000/16000 ms. */
  function MsToHops(ms: nat, hopSize: nat): nat {
    if hopSize == 0 then USIZE_MAX
    else Min((ms * VAD_SAMPLE_RATE + (hopSize * 1000 - 1)) / (hopSize * 1000), USIZE_MAX)
  }

  /** n is the least number of hops that lasts `ms`: a hop is that many samples, 16000 of them a second. With
      no hop at all, or past what a machine word counts, n is the largest such number. */
  ghost predicate Covers(n: nat, ms: nat, hopSize: nat) {
    if hopSize == 0 then n == 0xffff_ffff_ffff_ffff
    else
      && n <= 0xffff_ffff_ffff_ffff
      && (n < 0xffff_ffff_ffff_ffff ==> n * (hopSize * 1000) >= ms * 16_000)
      && (n > 0 ==> (n - 1) * (hopSize * 1000) < ms * 16_000)
  }

  lemma HopsCover(ms: nat, hopSize: nat)
    ensures Covers(MsToHops(ms, hopSize), ms, hopSize)
  {
    if hopSize > 0 {
      var n := MsToHops(ms, hopSize);
      CeilDiv(ms * VAD_SAMPLE_RATE, hopSize * 1000, n);
      if n > 0 {
        CeilDiv(ms * VAD_SAMPLE_RATE, hopSize * 1000, n - 1);
      }
    }
  }

  /** A configuration counted in hops. */
  datatype Limits = Limits(onset: nat, silence: nat, timeout: nat)

  function LimitsOf(cfg: TurnConfig): Limits {
    Limits(Max(MsToHops(cfg.onsetDurationMs, cfg.hopSize), 1),
           MsToHops(cfg.silenceDurationMs, cfg.hopSize),
           MsToHops(cfg.endTimeoutMs, cfg.hopSize))
  }

  /** Each limit covers its own time, and an onset takes at least one hop. */
  ghost predicate AllCover(lim: Limits, cfg: TurnConfig) {
    && Covers(lim.silence, cfg.silenceDurationMs, cfg.hopSize)
    && Covers(lim.timeout, cfg.endTimeoutMs, cfg.hopSize)
    && lim.onset >= 1
    && (Covers(lim.onset, cfg.onsetDurationMs, cfg.hopSize) || (cfg.onsetDurationMs == 0 && lim.onset == 1))
  }

  lemma LimitsCover(cfg: TurnConfig)
    ensures AllCover(LimitsOf(cfg), cfg)
  {
    HopsCover(cfg.silenceDurationMs, cfg.hopSize);
    HopsCover(cfg.endTimeoutMs, cfg.hopSize);
    HopsCover(cfg.onsetDurationMs, cfg.hopSize);
    if MsToHops(cfg.onsetDurationMs, cfg.hopSize) == 0 {
      NoHopsForNoTime(cfg.onsetDurationMs, cfg.hopSize);
    }
  }

  lemma NoHopsForNoTime(ms: nat, hopSize: nat)
    requires Covers(0, ms, hopSize)
    ensures ms == 0
  {
  }

  // ---- what a history of hops means --------------------------------------------------------
  //
  // `h` is the voiced decision of every hop of a stream; everything below looks at its first i.

  /** Length of the run of `v` that ends just before hop i, not reaching back past `lo`. */
  function RunBefore(h: seq<bool>, lo: nat, i: nat, v: bool): nat
    requires i <= |h|
  {
    if i <= lo || h[i - 1] != v then 0 else 1 + RunBefore(h, lo, i - 1, v)
  }

  /** The hop in lo..i that first completes a run of n hops equal to `v`. */
  function FirstRun(h: seq<bool>, lo: nat, i: nat, v: bool, n: nat): (r: Option<nat>)
    requires i <= |h|
    ensures r.Some? ==> lo <= r.value < i
  {
    if i <= lo then None
    else
      var earlier := FirstRun(h, lo, i - 1, v, n);
      if earlier.Some? then earlier
      else if RunBefore(h, lo, i, v) >= n then Some(i - 1)
      else None
  }

  function Onset(h: seq<bool>, i: nat, lim: Limits): Option<nat>
    requires i <= |h|
  {
    FirstRun(h, 0, i, true, lim.onset)
  }

  /** The hop that first completes a silence after an onset on hop `a`. */
  function QuietAfter(h: seq<bool>, a: nat, i: nat, lim: Limits): Option<nat>
    requires i <= |h|
  {
    FirstRun(h, a + 1, i, false, Max(1, lim.silence))
  }

  /** The hop the turn ends on within its first i hops, and why. Without an onset in time it is the
      timeout; otherwise the first full silence after the onset, unless the cap comes first. The
      cap is the timeout too, or the hop after an onset that fell on the last hop before it. */
  function Outcome(h: seq<bool>, i: nat, lim: Limits): (r: Option<(nat, EndReason)>)
    requires i <= |h|
    ensures r.Some? ==> r.value.0 < i
  {
    var t := Max(1, lim.timeout);
    var onset := Onset(h, i, lim);
    if onset.Some? && onset.value < t then
      var cap := Max(onset.value + 1, t - 1);
      var quiet := QuietAfter(h, onset.value, i, lim);
      if quiet.Some? && quiet.value <= cap then Some((quiet.value, Silence))
      else if cap < i then Some((cap, Timeout))
      else None
    else if t <= i then Some((t - 1, Timeout))
    else None
  }

  class TurnDetector {
    const silenceHopsNeeded: nat
    const timeoutHops: nat
    const onsetHopsNeeded: nat
    var started: bool
    var voicedRun: nat
    var silenceRun: nat
    var elapsedHops: nat
    var finished: bool

    function Lim(): Limits {
      Limits(onsetHopsNeeded, silenceHopsNeeded, timeoutHops)
    }

    /** The state that pushing the first i hops of `h` leaves behind. */
    ghost predicate After(h: seq<bool>, i: nat)
      reads this
      requires i <= |h|
    {
      && onsetHopsNeeded >= 1
      && finished == Outcome(h, i, Lim()).Some?
      && (!finished ==>
          var onset := Onset(h, i, Lim());
          && elapsedHops == i
          && started == onset.Some?
          && (if onset.Some? then silenceRun == RunBefore(h, onset.value + 1, i, false)
              else silenceRun == 0 && voicedRun == RunBefore(h, 0, i, true)))
    }

    constructor (cfg: TurnConfig, ghost h: seq<bool>)
      ensures After(h, 0) && Lim() == LimitsOf(cfg)
      ensures AllCover(Lim(), cfg)
    {
      LimitsCover(cfg);
      silenceHopsNeeded := MsToHops(cfg.silenceDurationMs, cfg.hopSize);
      timeoutHops := MsToHops(cfg.endTimeoutMs, cfg.hopSize);
      onsetHopsNeeded := Max(MsToHops(cfg.onsetDurationMs, cfg.hopSize), 1);
      started, voicedRun, silenceRun, elapsedHops, finished := false, 0, 0, 0, false;
    }

    /** Hop i reports what it settles: the onset, the end of the turn, or nothing. */
    method Push(voiced: bool, ghost h: seq<bool>, ghost i: nat) returns (e: Option<TurnEvent>)
      requires i < |h| && h[i] == voiced && After(h, i)
      modifies this
      ensures After(h, i + 1)
      ensures e == EventAt(h, i, Lim())
    {
      if finished {
        return None;
      }
      elapsedHops := elapsedHops + 1;
      if !started {
        if voiced {
          voicedRun := voicedRun + 1;
          if voicedRun >= onsetHopsNeeded {
            started := true;
            return Some(SpeechStarted);
          }
        } else {
          voicedRun := 0;
        }
      } else if voiced {
        silenceRun := 0;
      } else {
        silenceRun := silenceRun + 1;
        if silenceRun >= silenceHopsNeeded {
          finished := true;
          return Some(Ended(Silence));
        }
      }
      if elapsedHops >= timeoutHops {
        finished := true;
        return Some(Ended(Timeout));
      }
      return None;
    }

    method Finish(ghost h: seq<bool>, ghost i: nat) returns (e: Option<TurnEvent>)
      requires i <= |h| && After(h, i)
      modifies this
      ensures finished
      ensures e == if Outcome(h, i, Lim()).Some? then None else Some(Ended(EndOfStream))
    {
      if finished {
        return None;
      }
      finished := true;
      return Some(Ended(EndOfStream));
    }
  }

  /** What hop i settles: the end of the turn if the outcome names it, else the onset while the turn
      is open and the first full voiced run ends here. */
  ghost function EventAt(h: seq<bool>, i: nat, lim: Limits): Option<TurnEvent>
    requires i < |h|
  {
    var o := Outcome(h, i + 1, lim);
    if o.Some? then if o.value.0 == i then Some(Ended(o.value.1)) else None
    else if Onset(h, i + 1, lim) == Some(i) then Some(SpeechStarted)
    else None
  }

  // ---- what holds of every stream of hops ----------------------------------------------------

  /** The n hops that end on hop k all equal `v` and lie at or after `lo`. */
  ghost predicate Window(h: seq<bool>, lo: nat, k: nat, v: bool, n: nat) {
    lo + n <= k + 1 <= |h| && forall j :: k - n < j <= k ==> h[j] == v
  }

  lemma {:induction false} RunIsWindow(h: seq<bool>, lo: nat, k: nat, v: bool, n: nat)
    requires lo <= k < |h| && n >= 1
    ensures RunBefore(h, lo, k + 1, v) >= n <==> Window(h, lo, k, v, n)
  {
    if h[k] == v && n > 1 {
      if k == lo {
        assert RunBefore(h, lo, k, v) == 0;
      } else {
        RunIsWindow(h, lo, k - 1, v, n - 1);
        assert Window(h, lo, k, v, n) <==> Window(h, lo, k - 1, v, n - 1);
      }
    }
  }

  /** `FirstRun` finds exactly the earliest full window. */
  lemma {:induction false} FirstRunIsEarliestWindow(h: seq<bool>, lo: nat, i: nat, v: bool, n: nat)
    requires i <= |h| && n >= 1
    ensures match FirstRun(h, lo, i, v, n)
      case Some(k) => Window(h, lo, k, v, n) && forall j :: lo <= j < k ==> !Window(h, lo, j, v, n)
      case None => forall j :: lo <= j < i ==> !Window(h, lo, j, v, n)
  {
    if i > lo {
      FirstRunIsEarliestWindow(h, lo, i - 1, v, n);
      RunIsWindow(h, lo, i - 1, v, n);
    }
  }

  /** A run once found stays found, whatever follows. */
  lemma {:induction false} FirstRunStable(h: seq<bool>, lo: nat, i: nat, j: nat, v: bool, n: nat)
    requires i <= j <= |h|
    ensures FirstRun(h, lo, i, v, n).Some? ==> FirstRun(h, lo, j, v, n) == FirstRun(h, lo, i, v, n)
    ensures FirstRun(h, lo, j, v, n).Some? && FirstRun(h, lo, j, v, n).value < i
        ==> FirstRun(h, lo, i, v, n) == FirstRun(h, lo, j, v, n)
    decreases j
  {
    if i < j {
      FirstRunStable(h, lo, i, j - 1, v, n);
    }
  }

  lemma OutcomeStable(h: seq<bool>, i: nat, j: nat, lim: Limits)
    requires i <= j <= |h|
    ensures Outcome(h, i, lim).Some? ==> Outcome(h, j, lim) == Outcome(h, i, lim)
  {
    FirstRunStable(h, 0, i, j, true, lim.onset);
    if Onset(h, i, lim).Some? {
      FirstRunStable(h, Onset(h, i, lim).value + 1, i, j, false, Max(1, lim.silence));
    }
  }

  lemma {:induction false} RunPrefix(h: seq<bool>, h': seq<bool>, lo: nat, i: nat, v: bool, n: nat)
    requires h <= h' && i <= |h|
    ensures RunBefore(h, lo, i, v) == RunBefore(h', lo, i, v) && FirstRun(h, lo, i, v, n) == FirstRun(h', lo, i, v, n)
  {
    if i > lo {
      RunPrefix(h, h', lo, i - 1, v, n);
    }
  }

  /** Later hops do not enter into what the first i settle. */
  lemma OutcomePrefix(h: seq<bool>, h': seq<bool>, i: nat, lim: Limits)
    requires h <= h' && i <= |h|
    ensures Outcome(h, i, lim) == Outcome(h', i, lim)
  {
    RunPrefix(h, h', 0, i, true, lim.onset);
    if Onset(h, i, lim).Some? {
      RunPrefix(h, h', Onset(h, i, lim).value + 1, i, false, Max(1, lim.silence));
    }
  }

  lemma SettledBefore(h: seq<bool>, i: nat, lim: Limits)
    requires 0 < i <= |h| && Outcome(h, i, lim).Some? && Outcome(h, i, lim).value.0 < i - 1
    ensures Outcome(h, i - 1, lim) == Outcome(h, i, lim)
  {
    FirstRunStable(h, 0, i - 1, i, true, lim.onset);
    var onset := Onset(h, i, lim);
    if onset.Some? {
      FirstRunStable(h, onset.value + 1, i - 1, i, false, Max(1, lim.silence));
    }
  }

  /** The outcome names a hop only when that hop settles it. */
  lemma {:induction false} OutcomeSettledAt(h: seq<bool>, i: nat, lim: Limits)
    requires i <= |h| && Outcome(h, i, lim).Some?
    ensures var e := Outcome(h, i, lim).value.0;
      Outcome(h, e + 1, lim) == Outcome(h, i, lim) && Outcome(h, e, lim).None?
  {
    if Outcome(h, i, lim).value.0 < i - 1 {
      SettledBefore(h, i, lim);
      OutcomeSettledAt(h, i - 1, lim);
    } else {
      OutcomeStable(h, i - 1, i, lim);
    }
  }

  /** At most one onset, then at most one end, then nothing. */
  lemma EventsInOrder(h: seq<bool>, i: nat, j: nat, lim: Limits)
    requires i < j < |h|
    ensures EventAt(h, i, lim).Some? && EventAt(h, i, lim).value.Ended? ==> EventAt(h, j, lim).None?
    ensures EventAt(h, j, lim) == Some(SpeechStarted) ==> EventAt(h, i, lim).None?
  {
    OutcomeStable(h, i + 1, j + 1, lim);
    FirstRunStable(h, 0, i + 1, j + 1, true, lim.onset);
  }

  /** Every turn is over after max(1, timeout) + 1 hops, and only an onset on the last hop before the
      timeout makes it use the extra one. */
  lemma TurnBounded(h: seq<bool>, lim: Limits)
    ensures var t := Max(1, lim.timeout); var o := Outcome(h, |h|, lim);
      && (|h| > t ==> o.Some?)
      && (o.Some? ==> o.value.0 <= t && (o.value.0 == t <==> Onset(h, |h|, lim) == Some(t - 1)))
  {
  }

  // ---- when a turn ends, by its windows alone ----------------------------------------------------

  /** Hop k completes the earliest window of n hops equal to `v` that starts at or after `lo`. */
  ghost predicate FirstWindow(h: seq<bool>, lo: nat, k: nat, v: bool, n: nat) {
    lo <= k && Window(h, lo, k, v, n) && forall j :: lo <= j < k ==> !Window(h, lo, j, v, n)
  }

  /** Speech started on hop a, and that was before the timeout. */
  ghost predicate TimelyStart(h: seq<bool>, a: nat, lim: Limits) {
    FirstWindow(h, 0, a, true, lim.onset) && a < Max(1, lim.timeout)
  }

  /** A full silence after hop a ends on hop j. */
  ghost predicate SilentAt(h: seq<bool>, a: nat, j: nat, lim: Limits) {
    Window(h, a + 1, j, false, Max(1, lim.silence))
  }

  /** The turn is over on hop e for silence: the first full one after a timely start. It too must come
      before the timeout, but a start on the last hop before that leaves one hop more. */
  ghost predicate SilenceEnds(h: seq<bool>, a: nat, e: nat, lim: Limits) {
    && TimelyStart(h, a, lim) && a < e && (e < Max(1, lim.timeout) || e == a + 1)
    && SilentAt(h, a, e, lim) && forall j :: a < j < e ==> !SilentAt(h, a, j, lim)
  }

  /** The turn is over on hop e for the timeout, with a start on hop a and no full silence after it. */
  ghost predicate TimeoutAfter(h: seq<bool>, a: nat, e: nat, lim: Limits) {
    && TimelyStart(h, a, lim) && e < |h|
    && e == (if a + 1 == Max(1, lim.timeout) then a + 1 else Max(1, lim.timeout) - 1)
    && forall j :: a < j <= e ==> !SilentAt(h, a, j, lim)
  }

  /** The turn is over on hop e for the timeout, and nothing started before. */
  ghost predicate NothingStarted(h: seq<bool>, e: nat, lim: Limits) {
    e + 1 == Max(1, lim.timeout) && e < |h| && forall a: nat :: !TimelyStart(h, a, lim)
  }

  ghost predicate TimesOut(h: seq<bool>, e: nat, lim: Limits) { exists a :: TimeoutAfter(h, a, e, lim) }

  lemma OnsetMeans(h: seq<bool>, lim: Limits, a: nat)
    requires lim.onset >= 1
    ensures Onset(h, |h|, lim) == Some(a) <==> FirstWindow(h, 0, a, true, lim.onset)
  {
    FirstRunIsEarliestWindow(h, 0, |h|, true, lim.onset);
    if FirstWindow(h, 0, a, true, lim.onset) {
      assert Window(h, 0, a, true, lim.onset);
    }
  }

  lemma QuietMeans(h: seq<bool>, a: nat, lim: Limits)
    ensures match QuietAfter(h, a, |h|, lim)
      case Some(k) => a < k < |h| && SilentAt(h, a, k, lim) && forall j :: a < j < k ==> !SilentAt(h, a, j, lim)
      case None => forall j :: a < j ==> !SilentAt(h, a, j, lim)
  {
    FirstRunIsEarliestWindow(h, a + 1, |h|, false, Max(1, lim.silence));
  }

  /** What the detector makes of a whole stream, in terms of its windows: silence or the timeout, and on
      which hop. */
  lemma OutcomeMeans(h: seq<bool>, lim: Limits, e: nat)
    requires lim.onset >= 1
    ensures Outcome(h, |h|, lim) == Some((e, Silence)) <==> exists a :: SilenceEnds(h, a, e, lim)
    ensures Outcome(h, |h|, lim) == Some((e, Timeout)) <==>
      NothingStarted(h, e, lim) || TimesOut(h, e, lim)
    ensures Outcome(h, |h|, lim) != Some((e, EndOfStream))
  {
    forall a: nat
      ensures TimelyStart(h, a, lim) <==> Onset(h, |h|, lim) == Some(a) && a < Max(1, lim.timeout)
    {
      OnsetMeans(h, lim, a);
    }
    var onset := Onset(h, |h|, lim);
    if onset.Some? && onset.value < Max(1, lim.timeout) {
      OutcomeAfter(h, lim, onset.value, e);
    }
  }

  lemma OutcomeAfter(h: seq<bool>, lim: Limits, a: nat, e: nat)
    requires TimelyStart(h, a, lim) && Onset(h, |h|, lim) == Some(a)
    ensures Outcome(h, |h|, lim) == Some((e, Silence)) <==> SilenceEnds(h, a, e, lim)
    ensures Outcome(h, |h|, lim) == Some((e, Timeout)) <==> TimeoutAfter(h, a, e, lim)
  {
    QuietMeans(h, a, lim);
    var quiet := QuietAfter(h, a, |h|, lim);
    if quiet.Some? {
      assert SilentAt(h, a, quiet.value, lim);
    }
  }

  ghost predicate EndsInSilence(h: seq<bool>, lim: Limits) { exists a, e :: SilenceEnds(h, a, e, lim) }

  ghost predicate EndsInTimeout(h: seq<bool>, lim: Limits) {
    (exists e :: NothingStarted(h, e, lim)) || exists e :: TimesOut(h, e, lim)
  }

  lemma EndMeans(h: seq<bool>, lim: Limits)
    requires lim.onset >= 1
    ensures var o := Outcome(h, |h|, lim);
      && (o.Some? && o.value.1.Silence? <==> EndsInSilence(h, lim))
      && (o.Some? && o.value.1.Timeout? <==> EndsInTimeout(h, lim))
      && (o.Some? ==> !o.value.1.EndOfStream?)
  {
    var o := Outcome(h, |h|, lim);
    if o.Some? {
      OutcomeMeans(h, lim, o.value.0);
    }
    if EndsInSilence(h, lim) {
      var a, e :| SilenceEnds(h, a, e, lim);
      OutcomeMeans(h, lim, e);
    }
    if exists e :: NothingStarted(h, e, lim) {
      var e :| NothingStarted(h, e, lim);
      OutcomeMeans(h, lim, e);
    }
    if exists e :: TimesOut(h, e, lim) {
      var e :| TimesOut(h, e, lim);
      OutcomeMeans(h, lim, e);
    }
  }
}
