# dialf: models and proofs

dialf drives phone calls from a host: it captures the call's audio with a command-line tool, records
both directions on one clock, waits for the far end to speak, plays prompts, runs scripted jobs on a
phone that is connected over a socket, shares devices over adb, and exports a project as a bundle.
This project models the parts of the server whose correctness rests on state carried between calls
or on interleaving, and proves what they promise. `dafny verify dfyconfig.toml` checks everything.

## The audio pipeline

Bytes from the capture tool become whole frames (`Capture`), frames become the rx leg while prompts
are placed on the tx leg (`Record`, `RecordRuns`), the call channel is resampled (`Resample`), handed
to a waiting turn (`VadTap`), cut into hops and judged (`Vad`, `Engine`). Every streaming stage is a
class whose methods are proved against a function of the whole stream, so that how the stream was cut
does not appear in any result; `SpeechArms` composes the stages from the tool's bytes to the reason
for which a turn ended, in the middle of a recording session and without one.

Positions are exact: a read position is a whole number of 1/dst source samples. Sample arithmetic is
over the reals, rounded once. Filter taps are any vector; the native voice detector is any function
from the hops heard so far to a decision.

## Jobs

`Phone` models what a job does to a phone, with an arbitrary amount of recording, time and call
activity between any two actions: before every operation, every reading of the clock, and every look
for a cancel or at the call. `Runner` runs step lists over it and relates their report to the
operations performed and to the finished recording.

## Protocols

`Hub`, `AdbLink` and `Serve` are modelled as critical sections. A class holds the locked state, with
one method per section proved against a function on that state; a run is any list of sections, so a
statement over runs is a statement over every interleaving.

The adb link's growing delay after a failure lasts only until a heartbeat finds the phone connected
or reports a new endpoint (`ConnectedLiftsTheWait` is such a run); `GrantedExactly` is the exact
condition for an attempt, and `NoEarlyConnect` the delay as long as nothing of the kind happens.

## Texts and names

`ZipPaths` and `Bundle` cover the names inside an exported bundle and the references rewritten to
them. `AdbShare` covers the device-list relay: lines and words, filtering and parsing, the
length-prefixed framing, and their composition over a stream. A filtered list of 65535 bytes that
gains its missing last newline no longer fits its four-digit prefix; `LongListBreaks` shows it, and
`RelayDeliversShared` states exactly which lists pass.

## Where comments and code differ

- The decimator's field comment says that the history keeps one sample less than there are taps; it
  does so only until the first sample arrives, and the model follows the code.
- The cap in `read_message` is said to refuse longer messages; four digits never reach it.
- The linear resampler's guards against a position before the carried sample and against an unset
  carried sample, the decimator's fallback for a short window, and the last-hop branch of the speech
  wait are never taken; each is an `assert false` in its method.
- `normalize_script` keeps a relative reference into the folder because "the same relative relationship
  holds inside the zip". It does not for one that climbs above the folder (`KeptRefLands`).
- A job pulled in from elsewhere has its references into the folder rewritten without the test for
  excluded and hidden files that the folder's own scripts get. Such a reference leads to no entry, or to
  another file's (`RefLands`, `OtherFileInItsPlace`).

## Model

| member | source | states |
|---|---|---|
| Resample.LinearResampler.Process | server/crates/dialf/src/audio/resample.rs:140-180 | Feeding a chunk after any stream adds exactly the outputs that the whole stream has and the earlier part had not: no cut is visible, and the loop ends |
| Resample.LinearResampler.Ready | server/crates/dialf/src/audio/resample.rs:147-171 | One round of the loop: the next output, or nothing exactly when its position runs past the chunk; the `rel < -1` and unprimed branches are dead |
| Resample.OutCountExact | server/crates/dialf/src/audio/resample.rs:159-161 | With n inputs, output k exists if and only if both source samples around k*src/dst do, which makes the count the ceiling of (n-1)*dst/src |
| Resample.LinearBetween | server/crates/dialf/src/audio/resample.rs:162-172 | Output k of the stream interpolates at exactly k*src/dst and lies between its two neighbours |
| Resample.BlendBetween | server/crates/dialf/src/audio/resample.rs:213-215 | The clamp to 16 bits never changes an interpolated value |
| Resample.BlendIsNearest | server/crates/dialf/src/audio/resample.rs:162-172 | An output is the point of its share between the two samples, to the nearest whole number |
| Resample.ClampIsNearest | server/crates/dialf/src/audio/resample.rs:213-215 | Rounding goes to the nearest sample, a half away from zero, and past the range to its end |
| Resample.CountsGrow | server/crates/dialf/src/audio/resample.rs:140-180 | More input never withdraws or changes an output |
| Resample.ZeroRateNeverExits | server/crates/dialf/src/audio/resample.rs:147-174 | With a zero source rate the exit test stays false for every chunk of two or more samples, so the positive rate is what makes the loop end |
| Resample.Decimator.Process | server/crates/dialf/src/audio/resample.rs:91-117 | The same for the decimator: a chunk adds exactly the outputs the longer stream has more |
| Resample.Decimator.Step | server/crates/dialf/src/audio/resample.rs:94-114 | One sample: history and phase stay those of the stream so far, and the "window not full" fallback is dead |
| Resample.DecimateClosedForm | server/crates/dialf/src/audio/resample.rs:91-117 | After n inputs there are floor(n/factor) outputs, and output j is the tap product over the last taps of the zero-prefixed stream at input (j+1)*factor |
| Resample.FirOfImpulse | server/crates/dialf/src/audio/resample.rs:97-110 | One lone sample comes out as the tap it stands under, the oldest sample of the window under the first |
| Resample.FirAdds | server/crates/dialf/src/audio/resample.rs:97-110 | Filtering a sum of streams is summing the filtered streams |
| Resample.Resampler.New | server/crates/dialf/src/audio/resample.rs:30-42 | The kind of resampler follows from the two rates as `WholeFiltered` and `WholeInterpolated` say, and starts as after no input |
| Resample.Resampler.Process | server/crates/dialf/src/audio/resample.rs:45-51 | Whatever the kind, a chunk adds exactly what the whole-stream conversion gains |
| Resample.WholeCount | server/crates/dialf/src/audio/resample.rs:30-51 | n samples at one rate become n*dst/src at the other, but for less than one more, or one step of the slower rate less |
| Resample.WholeFiltered | server/crates/dialf/src/audio/resample.rs:33-41 | At equal rates the output is the input; at a whole number of input samples to one output, output j is the filtered value at input (j+1)*(src/dst) |
| Resample.WholeInterpolated | server/crates/dialf/src/audio/resample.rs:33-41 | At any other two rates output k is the blend at k*src/dst |
| Resample.ResampleChunks | server/crates/dialf/src/audio/resample.rs:44-51 | A fresh resampler over any list of chunks spells the conversion of the whole stream |
| Vad.TurnDetector.Push | server/crates/dialf/src/audio/vad.rs:109-145 | Every push keeps the counters equal to the runs in the history and reports exactly what hop i settles |
| Vad.TurnDetector.Finish | server/crates/dialf/src/audio/vad.rs:149-155 | The end of the stream ends the turn exactly when nothing else has |
| Vad.TurnDetector.constructor | server/crates/dialf/src/audio/vad.rs:82-95 | Each limit is the least number of hops that lasts its own time in the configuration, and an onset takes at least one |
| Vad.LimitsCover | server/crates/dialf/src/audio/vad.rs:158-163 | Milliseconds to hops: n hops of that many samples at 16 kHz last as long, and n-1 do not |
| Vad.RunIsWindow | server/crates/dialf/src/audio/vad.rs:117-137 | A counter has reached n exactly when the last n hops all agree |
| Vad.FirstRunIsEarliestWindow | server/crates/dialf/src/audio/vad.rs:117-137 | Onset and silence fall on the earliest hop that completes a full run, and on none when there is no such run |
| Vad.EventsInOrder | server/crates/dialf/src/audio/vad.rs:107-145 | At most one onset, then at most one end, then nothing |
| Vad.OutcomeSettledAt | server/crates/dialf/src/audio/vad.rs:109-145 | The hop an outcome names is the one that settles it, not an earlier or later one |
| Vad.OutcomeMeans | server/crates/dialf/src/audio/vad.rs:109-145 | When and why a turn ends, in terms of its voiced and unvoiced windows alone: silence on the first full one after a timely start, the timeout when there is no start or no such silence |
| Vad.TurnBounded | server/crates/dialf/src/audio/vad.rs:122-144 | A turn is over by hop max(1,timeout)+1, and uses that hop only when onset fell on the one before it |
| Capture.CommandCaptureSource.Read | server/crates/dialf/src/audio/command_backend.rs:169-201 | However the pipe splits the bytes, a read delivers the decoding of the next whole frames and leaves the rest; with room for a frame it returns 0 only at the real end, and never delivers a torn frame |
| Capture.EncodePcm | server/crates/dialf/src/audio/command_backend.rs:278-281 | Playback bytes decode to the samples they were made from |
| Capture.FromLeInvertsToLe | server/crates/dialf/src/audio/command_backend.rs:195-197 | Reading a sample back from its two bytes gives the sample |
| Capture.ToLeInvertsFromLe | server/crates/dialf/src/audio/command_backend.rs:278-281 | Writing what two bytes spell gives the two bytes |
| Capture.LittleEndian | server/crates/dialf/src/audio/command_backend.rs:195-197 | A sample is its low byte plus 256 times its high byte, but for a turn of 65536 |
| Capture.DownmixMono.Read | server/crates/dialf/src/audio/backend.rs:44-57 | A read delivers the next stretch of the call channel, and 0 only when less than a frame is left |
| Capture.CallChannelAppend | server/crates/dialf/src/audio/backend.rs:52-55 | Reducing to the call channel commutes with appending after whole frames |
| Capture.CallChannelAt | server/crates/dialf/src/audio/backend.rs:52-55 | The call channel is the first sample of each whole frame |
| Record.DuplexSession.CaptureRead | server/crates/dialf/src/audio/record.rs:504-527 | Any read, whole frames or not, extends rx by exactly the whole frames now available and carries the rest |
| Record.DuplexSession.PushTx | server/crates/dialf/src/audio/record.rs:609-618 | A prompt is placed at the published rx clock, after what tx already holds |
| Record.DuplexSession.Finish | server/crates/dialf/src/audio/record.rs:637-660 | The finished recording is the padded legs and the mix of what was captured and placed |
| Record.PadTo | server/crates/dialf/src/audio/record.rs:184-199 | Padding in pieces writes exactly the missing frames of silence, and nothing when none are missing |
| Record.PromptPlaced | server/crates/dialf/src/audio/record.rs:609-618 | Every prompt lies whole on tx, starting no earlier than its clock |
| Record.PromptStartsAt | server/crates/dialf/src/audio/record.rs:609-618 | A prompt starts at its clock, or right after the one before it if that is not over by then |
| Record.PromptsInOrder | server/crates/dialf/src/audio/record.rs:609-618 | Prompts do not overlap and keep their order |
| Record.SilenceElsewhere | server/crates/dialf/src/audio/record.rs:609-618 | Every frame of tx outside the prompts is silence |
| Record.LegsEqual | server/crates/dialf/src/audio/record.rs:646-651 | Both finished legs have max(rx, tx) frames and are the unpadded legs followed by silence |
| Record.MixWavs | server/crates/dialf/src/audio/record.rs:210-249 | The mix is the two call channels side by side, the shorter one followed by silence, and fails exactly on different rates |
| Record.MixComesApart | server/crates/dialf/src/audio/record.rs:223-246 | De-interleaving the mix gives channel 0 of each leg, on the chosen side |
| Record.InterleaveAt | server/crates/dialf/src/audio/record.rs:236-246 | Every even sample is the left voice and every odd one the right |
| Record.StepByAt | server/crates/dialf/src/audio/record.rs:223-226 | Every step-th sample of a leg, as many as there are |
| Record.DuplexRecorder.PushRx | server/crates/dialf/src/audio/record.rs:301-305 | Appends the frames and returns the new clock |
| Record.DuplexRecorder.PushTxAt | server/crates/dialf/src/audio/record.rs:309-315 | Places a prompt at a given offset, after what is there |
| Record.DuplexRecorder.Finish | server/crates/dialf/src/audio/record.rs:328-353 | The same finishing as the live session |
| RecordRuns.RecordSession | server/crates/dialf/src/audio/record.rs:504-527 | For every interleaving of reads, clock updates and prompts the recording is a function of the captured samples and of each prompt with its clock |
| RecordRuns.RecordPassively | server/crates/dialf/src/audio/record.rs:301-353 | The same for a list of passive-recorder calls |
| RecordRuns.ReplayMatches | server/crates/dialf/src/audio/record.rs:251-253 | A passive recorder replaying a run at the same offsets ends with the same frames and prompts, so with the same recording |
| VadTap.Tap.OnChunk | server/crates/dialf/src/audio/record.rs:546-564 | While a turn is active each chunk feeds its call channel and sends the frame that comes of it; a frame is lost exactly when there is one and the channel is full; otherwise nothing changes |
| VadTap.SentSpells | server/crates/dialf/src/audio/record.rs:546-564 | The frames sent during a turn, in order, spell the resampled call channel since the turn began |
| VadTap.NeverOverflows | server/crates/dialf/src/audio/record.rs:559-563 | No frame is lost in a turn of at most 64 chunks, or when the job takes at least one frame after every chunk |
| VadTap.OverflowsSomewhere | server/crates/dialf/src/audio/record.rs:559-563 | Losing a frame means that at some chunk a frame meets 64 waiting ones |
| VadTap.Tap.Begin | server/crates/dialf/src/audio/record.rs:621-624 | A turn starts with an empty channel |
| VadTap.VadFrameSource.Read | server/crates/dialf/src/audio/record.rs:388-412 | Cutting frames to the reader's buffer loses and reorders nothing; 0 only at the end |
| Engine.RunWaitForSpeech | server/crates/dialf/src/audio/engine.rs:402-482 | The reason is the turn detector's over the whole hops of the resampled stream, however the stream is cut into reads; the "final whole hop" branch is dead |
| Engine.ReasonMeans | server/crates/dialf/src/audio/engine.rs:402-482 | Silence exactly when some start and some full silence after it come in time, the timeout exactly when a timeout does, the end of the stream otherwise |
| Engine.RunWaitForSpeechStart | server/crates/dialf/src/audio/engine.rs:304-400 | True exactly when the first onset falls before hop max(1,timeout), after max(1,linger) hops from it; otherwise false after max(1,timeout) hops, or at the end of the stream; and which of the two ended it |
| Engine.StartMeans | server/crates/dialf/src/audio/engine.rs:311-337 | What the wait looks for and how long it goes on: the earliest voiced window that covers the onset time, before the timeout in hops of 16 ms |
| Engine.DetectorOutlastsWait | server/crates/dialf/src/audio/engine.rs:326-329 | The detector's rounded-up timeout is never below the wait's rounded-down one |
| Engine.OnsetHeard | server/crates/dialf/src/audio/vad.rs:122-143 | While the wait is open the detector reports every onset, and nothing else as one |
| Engine.HearStart | server/crates/dialf/src/audio/engine.rs:368-398 | What the wait has seen after each hop, and what it concludes when it stops |
| Engine.Segmenter.PushHop | server/crates/dialf/src/audio/vad.rs:206-214 | One hop through the native decision and the detector |
| Engine.TeeTx | server/crates/dialf/src/audio/engine.rs:265-284 | The whole prompt, converted to the leg's rate and channels, is placed at one clock whatever the read buffer cuts it into |
| Engine.PromptOnEveryChannel | server/crates/dialf/src/audio/engine.rs:274-282 | Every channel of every frame of a prompt carries the converted sample of that frame |
| SpeechArms.CaptureReads | server/crates/dialf/src/audio/command_backend.rs:169-201 | Reading until the end spells the longest whole-frame prefix of the tool's bytes |
| SpeechArms.RecordReads | server/crates/dialf/src/audio/record.rs:504-527 | rx gets every whole frame of any reads, and so do, together, the chunks for the detector |
| SpeechArms.TapTurn | server/crates/dialf/src/audio/engine.rs:198-206 | Whatever went on before, and whenever the job takes frames, it gets exactly those of the call channel since the turn began, in order, up to the ones still waiting, unless one met a full channel |
| SpeechArms.RecordedTurn | server/crates/dialf/src/audio/engine.rs:198-206 | A turn anywhere in a session, seen after any number of chunks: there is a verdict exactly when the job has heard enough or the tool has ended, and it is the detector's over the call channel since the turn began |
| SpeechArms.TurnOnBytes | server/crates/dialf/src/audio/record.rs:504-527 | The call channel from a chunk on is the one of the tool's bytes from there on |
| SpeechArms.RecordedArm | server/crates/dialf/src/audio/engine.rs:198-206 | From the tool's bytes: rx holds every whole frame of the session, and a turn in it gets that verdict |
| SpeechArms.UnrecordedArm | server/crates/dialf/src/audio/engine.rs:207-213 | Without a session: the same reason |
| SpeechArms.ArmsAgree | server/crates/dialf/src/audio/engine.rs:191-215 | A turn in the middle of a session and a wait of its own over the same audio give the same reason, however each is cut, unless a frame meets a full channel; a turn of at most 64 chunks or a job that keeps taking never loses one |
| SpeechArms.HeardEnough | server/crates/dialf/src/audio/engine.rs:455-466 | A turn that ended before its stream did would have ended the same way on any longer stream |
| SpeechArms.OutputGoesOn | server/crates/dialf/src/audio/engine.rs:455-466 | A tool whose output goes on after the turn was decided, torn frame included, gives the same reason |
| SpeechArms.StartArmsAgree | server/crates/dialf/src/audio/engine.rs:219-253 | What `ArmsAgree` says, for a wait for speech to start: in the middle of a session it answers exactly when what it heard closes the wait or the tool has ended, and then as a wait of its own over the same audio does |
| SpeechArms.StartHeardEnough | server/crates/dialf/src/audio/engine.rs:377-393 | A wait for a start that closed before its stream ended would close on the same onset on any longer stream |
| Phone.CallEndedDecision | server/crates/dialf/src/phone.rs:363-375 | Ended exactly when in a call, seen active, and no call is reported; an active call is remembered |
| Phone.PhoneJobIo.CallEnded | server/crates/dialf/src/phone.rs:309-322 | True exactly when the job is watching a call, an earlier poll since it began saw it active, and none is reported now |
| Phone.WatchingMeans | server/crates/dialf/src/phone.rs:222-234 | Watching: the last of dial, answer and hangup was not a hangup, or there was none and the job is inbound |
| Phone.SeenActiveMeans | server/crates/dialf/src/phone.rs:280-322 | Seen active: some poll since the last dial, answer or hangup found the watched call active |
| Phone.PhoneJobIo.NowMs | server/crates/dialf/src/phone.rs:212-220 | The time at some moment after the last thing the job did, never less than before: with a recording the millisecond in which the published frame lies, neither earlier nor later, and else wall time |
| Phone.MsMonotone | server/crates/dialf/src/phone.rs:212-220 | Timestamps never run backwards |
| Phone.PhoneJobIo.DoPlay | server/crates/dialf/src/phone.rs:183-187 | Playing places one prompt, the file in the leg's shape, at a clock between the start and the end of the call |
| Phone.PhoneJobIo.EndCall | server/crates/dialf/src/phone.rs:288-307 | A hangup ends the watch whatever the phone replies; the result is a success exactly when the reply is one or says there is no call to hang up |
| Phone.PhoneJobIo.DoDial | server/crates/dialf/src/phone.rs:222-234 | Dialing starts watching a fresh call whatever the phone replies, and its result is the reply |
| Phone.PhoneJobIo.DoAnswer | server/crates/dialf/src/phone.rs:280-284 | Answering starts watching a fresh call whatever the phone replies, and its result is the reply |
| Phone.PhoneJobIo.DoWaitForAnswer | server/crates/dialf/src/phone.rs:236-278 | The wait succeeds at the first look that finds the call active; it gives up at the first that finds no call after one that did, or no earlier than its deadline; a cancel, one already requested included, hangs up and is an error |
| Runner.RunJob | server/crates/dialf/src/jobs/runner.rs:136-211 | Whatever the recording, the clock, the call and a cancel do between any two things the job does: outcomes 0..n-1 once each and in order, or one marker and zero-width skips after the step that stopped the job; the operations asked for are exactly those of the executed steps, and what happens to the call is exactly their own part of it with one look after each, in that order; every executed step ends as the result of its own operation says; the job stops exactly at the first look that finds a cancel or the call ended; on a refused operation nothing more is asked for; timestamps are ordered |
| Runner.ExecuteStep | server/crates/dialf/src/jobs/runner.rs:139-171 | One step: its operations and their result, its span, which begins some time after the last look and ends some time after the operation, and its own file as a prompt within that span |
| Runner.RunStep | server/crates/dialf/src/jobs/runner.rs:231-309 | Each kind of step asks for its own operation with its own arguments in their places; it fails exactly when that operation does, times out exactly when it was a wait that ran out of time, and else completes; and it does to the call what that operation does and nothing else: only a refused wait for an answer may hang up |
| Runner.SkippedExactly | server/crates/dialf/src/jobs/runner.rs:144-160 | Only an inbound job skips a step, and only dial, answer and wait for an answer; a step that runs logs its description first, if it has one |
| Runner.NamesTellKinds | server/crates/dialf/src/jobs/schema.rs:169-182 | Every kind of step is reported under its own name |
| Runner.RunWait | server/crates/dialf/src/jobs/runner.rs:237-278 | A wait that ran out of time is reported as timed out and does not fail the job; a failed one does |
| Runner.WhyStop | server/crates/dialf/src/jobs/runner.rs:172-208 | One look for a cancel, which finds any requested before it: if it finds one the job stops without a look at the call; otherwise the job stops exactly when one look at the call, some time later, finds it ended |
| Runner.PlayedExactly | server/crates/dialf/src/jobs/runner.rs:162-171 | A step counts as played exactly when it is an `audio.play` step that ran |
| Runner.OpCountIsOps | server/crates/dialf/src/jobs/runner.rs:158-161 | The result an outcome reports is the one of its own step's operation |
| Runner.StopHere | server/crates/dialf/src/jobs/runner.rs:173-208 | The marker and the skips it stands for, all at one moment |
| Runner.PushSkipped | server/crates/dialf/src/jobs/runner.rs:214-229 | Every step after the index, once, as skipped |
| Runner.RunRecordedJob | server/crates/dialf/src/jobs/runner.rs:136-211 | In a recorded run, with the capture going on throughout and until the recording is finished, every timestamp lies within it; each played step's own file was placed at a frame within the step's span, to the millisecond on both sides, and is heard whole on tx from there or from where the prompt before it ends |
| Runner.JobOnRecording | server/crates/dialf/src/phone.rs:209-220 | From frame clock to finished recording: the bound on every timestamp, the frame each prompt was placed at, and where it is heard on the finished tx |
| Runner.InboundNeverSetsUp | server/crates/dialf/src/jobs/runner.rs:140-157 | An inbound job never dials, answers or waits for an answer |
| Runner.OpsOfIsInOrder | server/crates/dialf/src/jobs/runner.rs:136-161 | The operations of a job are those of its steps, in step order |
| Runner.HangupEndsTheWatch | server/crates/dialf/src/phone.rs:288-296 | After its own hangup a job is in no call, and cannot be stopped as "caller hung up", until it dials or answers again |
| Hub.Hub.Drain | server/crates/dialf/src/hub.rs:104-107 | Every pending waiter of a connection gets the verdict, and none stays |
| Hub.DrainedOneByOne | server/crates/dialf/src/hub.rs:74-76 | Taking the waiters out and then sending to them one by one, in any order and with nothing in between, comes to the same as that one loop |
| Hub.Hub.Unregister | server/crates/dialf/src/hub.rs:85-97 | Exactly when the device's connection is of that generation it is removed, every waiter on it is told that the device disconnected, and nothing else changes; otherwise nothing does |
| Hub.Hub.DropDevice | server/crates/dialf/src/hub.rs:103-110 | Whatever connection the device has is removed, every waiter on it is told so, and nothing else changes |
| Hub.Hub.Register | server/crates/dialf/src/hub.rs:52-80 | A registration gets a fresh generation and an empty ack map; the superseded connection's waiters all fail, and nobody else's do |
| Hub.Hub.ResolveAck | server/crates/dialf/src/hub.rs:123-134 | An ack reaches exactly the waiter of its own id on the device's current connection, takes it out and gives it the phone's word; any other ack changes nothing |
| Hub.Hub.StartCommand | server/crates/dialf/src/hub.rs:150-155 | A command gets an id never given before and waits on the device's current connection, or fails without a trace when there is none |
| Hub.UnregisterIsRun | server/crates/dialf/src/hub.rs:85-97 | The call is a run of the interleaved sections: the connection taken down, then each waiter told, in any order |
| Hub.DropIsRun | server/crates/dialf/src/hub.rs:103-110 | The same for dropping a device |
| Hub.RegisterIsRun | server/crates/dialf/src/hub.rs:52-80 | The same for a registration: generation, map, and then the superseded waiters |
| Hub.ResolveIsRun | server/crates/dialf/src/hub.rs:123-134 | The same for an ack: lookup, take, send |
| Hub.StartIsRun | server/crates/dialf/src/hub.rs:150-155 | The same for a command: lookup, id, insertion |
| Hub.StepKept | server/crates/dialf/src/hub.rs:52-178 | Every critical section keeps the invariant, a failed send or fired timer and the removal after it being two, and each send of a drain one of its own: each open command's sender is in its connection's map, in the hands of an ack or a drain, or used, and in one place only |
| Hub.AlwaysInv | server/crates/dialf/src/hub.rs:52-178 | The invariant over every interleaving |
| Hub.AtMostOneVerdict | server/crates/dialf/src/hub.rs:150-178 | What a command returned it has returned for ever |
| Hub.OneVerdict | server/crates/dialf/src/hub.rs:123-134 | A verdict once sent is the command's verdict for the rest of the run |
| Hub.SenderLeavesOnce | server/crates/dialf/src/hub.rs:123-134 | A sender leaves the ack maps once: of the acks, the drains and the command's own giving up only the first finds it |
| Hub.PhoneVerdictIsOwn | server/crates/dialf/src/hub.rs:123-134 | A phone's verdict comes from an earlier ack with the command's own id, on the connection the command went out on |
| Hub.LostVerdictIsOwn | server/crates/dialf/src/hub.rs:72-107 | A command is told that its connection was superseded, or its device disconnected, only when that happened to the connection it went out on |
| Hub.GaveUpBecause | server/crates/dialf/src/hub.rs:161-177 | A command that returns without a verdict found its channel closed, or its timer fired while it had none |
| Hub.IdsNeverReused | server/crates/dialf/src/hub.rs:145-147 | An id given to a command was never given before and stays on record |
| Hub.ReturnedIsNowhere | server/crates/dialf/src/hub.rs:161-176 | When a command returns, its id is in no pending map |
| Hub.SenderIsAlive | server/crates/dialf/src/hub.rs:169-169 | The "ack channel dropped" arm is unreachable: a waiting command has a verdict, or its sender is held by an ack or a drain or sits in the map of a connection that the command itself keeps from being freed |
| Hub.FreeDropsNobody | server/crates/dialf/src/hub.rs:150-178 | Whenever a connection that nobody holds is freed, it has no waiter left |
| Hub.LeftIsGone | server/crates/dialf/src/hub.rs:52-110 | A generation that was in the map and is there no more is gone, however it left |
| Hub.LeavesOnce | server/crates/dialf/src/hub.rs:85-97 | A generation that is gone never comes back, so it leaves at most once, and a stale unregister changes nothing |
| Hub.SupersededIsGone | server/crates/dialf/src/hub.rs:58-66 | A newer registration takes the older generation out |
| AdbLink.Link.OnReport | server/crates/dialf/src/adb_link.rs:245-264 | The locked part of a heartbeat: what task starts, on which endpoint, allowed to connect or not, and which endpoint is left |
| AdbLink.Lives | server/crates/dialf/src/adb_link.rs:245-288 | A link that goes through any run is in every state of it what the run says, so that what holds of every run holds of the locked fields |
| AdbLink.CompletionMeans | server/crates/dialf/src/adb_link.rs:280-288 | After any completion of any run the link is free on the endpoint its task looked after; a phone found connected or available may be tried at once, a failed one only after the wait its streak has come to, and one still waiting no sooner than before |
| AdbLink.FailuresInARow | server/crates/dialf/src/adb_link.rs:202-205 | After k failures at any times the next costs min(30*2^k, 300) seconds, and an attempt is due exactly when the wait of the last one is over |
| AdbLink.WaitsAre | server/crates/dialf/src/adb_link.rs:178-210 | The waits: 30, 60, 120, 240 and from then on 300 seconds |
| AdbLink.AlwaysInv | server/crates/dialf/src/adb_link.rs:222-293 | At most one task per phone is in flight, exactly while the link is busy |
| AdbLink.OneTaskOneEndpoint | server/crates/dialf/src/adb_link.rs:245-264 | While a task runs no heartbeat starts another or changes its endpoint |
| AdbLink.BackoffIsStreak | server/crates/dialf/src/adb_link.rs:178-210 | The backoff is a function of the failures in a row: min(30*2^k, 300) seconds from the last one |
| AdbLink.GrantedExactly | server/crates/dialf/src/adb_link.rs:263-263 | A task is on the reported endpoint, and may connect if and only if that endpoint is new, nothing has failed since, or the last wait is over |
| AdbLink.NoEarlyConnect | server/crates/dialf/src/adb_link.rs:202-205 | After the k-th failure in a row no `adb connect` starts for min(30*2^k, 300) seconds, as long as no success or new endpoint comes in between |
| AdbLink.ConnectedLiftsTheWait | server/crates/dialf/src/adb_link.rs:285-285 | Without that condition it is false: on one endpoint, an attempt that fails and, two seconds later, another one |
| ZipPaths.SegmentsOfJoin | server/crates/dialf/src/bundle.rs:904-913 | Splitting undoes joining |
| ZipPaths.SegmentsAcross | server/crates/dialf/src/bundle.rs:904-905 | A slash separates segments, and empty ones are dropped |
| ZipPaths.RelativePathLands | server/crates/dialf/src/bundle.rs:903-914 | Walking the result from the base lands on the target if and only if no target segment past the shared ones is `.` or `..` |
| ZipPaths.MustClimb | server/crates/dialf/src/bundle.rs:906-911 | Whoever gets from a directory to a target climbs out of every segment they do not share |
| ZipPaths.FewestUps | server/crates/dialf/src/bundle.rs:903-914 | No path from base to target uses fewer `..` |
| Bundle.FreeName | server/crates/dialf/src/bundle.rs:320-324 | The search for a name ends, on the first one tried that no entry has |
| Bundle.NamesTried | server/crates/dialf/src/bundle.rs:319-324 | The names tried: the file's own, and then with 1-, 2-, ... in front |
| Bundle.FileNameIsLast | server/crates/dialf/src/bundle.rs:315-318 | The file name is what comes after the last slash |
| Bundle.ParentOfJoined | server/crates/dialf/src/bundle.rs:894-899 | The directory part of a name is what comes before the last slash, and nothing without one |
| Bundle.CandidatesDiffer | server/crates/dialf/src/bundle.rs:319-323 | No two attempts try the same name |
| Bundle.FirstFreeIsUnique | server/crates/dialf/src/bundle.rs:319-324 | There is one first free name |
| Bundle.Export.PullExternal | server/crates/dialf/src/bundle.rs:306-328 | A pulled file keeps its name; a new one gets a free one; every in-tree name still stands for its own file |
| Bundle.NamesAreDistinct | server/crates/dialf/src/bundle.rs:306-328 | Distinct pulled files have distinct names |
| Bundle.JobIsPlaced | server/crates/dialf/src/bundle.rs:170-176 | Pulling a job in, normalizing it and replacing its text leaves it done under its name and every other entry as it was |
| Bundle.Normalize | server/crates/dialf/src/bundle.rs:350-391 | Every reference ends up as its kind asks: missing ones, and those of an in-tree script to unbundled files or by a relative path into the folder, as they were; all others rewritten, the files outside the folder pulled in as samples under their own names; names already given stay, and the job is rewritten exactly when some reference is |
| Bundle.RefLands | server/crates/dialf/src/bundle.rs:382-394 | A rewritten reference, followed from its job's place in the bundle, leads to the entry of its own file if and only if that file is outside the folder or is one of its bundled files |
| Bundle.KeptRefLands | server/crates/dialf/src/bundle.rs:379-381 | A relative reference that is kept leads to its own file's entry if and only if the file is bundled and the reference never climbs above the folder |
| Bundle.ClimbingRefIsLost | server/crates/dialf/src/bundle.rs:379-381 | One that climbs above it is fine on disk, is kept, and leads nowhere in the bundle |
| Bundle.OtherFileInItsPlace | server/crates/dialf/src/bundle.rs:423-428 | A pulled-in job that refers to an unbundled file of the folder can be led to another file's entry |
| Bundle.ExportJob | server/crates/dialf/src/bundle.rs:161-169 | An out-of-tree job stands under one name, its references rewritten for that place, however many numbers share it |
| Bundle.ExportFolder | server/crates/dialf/src/bundle.rs:122-182 | After a whole export every in-tree name stands for its own file, as it is unless it is a script. Every reference of every script and out-of-tree job to a file outside the folder leads to that file, which is in the bundle; one into the folder leads to its own file if and only if that is bundled (and, where a script's own relative text is kept, never climbs above the folder); a missing one is as it was. A job is byte for byte what it was exactly when no reference had to change. Every pulled file has one name of its own, is a sample some job refers to or a job of the config in its directory, and is there as it is unless it is an exported job; and there is nothing else |
| AdbShare.FilterDeviceList | server/crates/dialf/src/share/adb.rs:208-221 | The loop keeps exactly the lines whose first word is shared |
| AdbShare.LinesMean | server/crates/dialf/src/share/adb.rs:212-212 | A line ends at a newline, with one carriage return before it if there is one, and the last may do without |
| AdbShare.TokensMean | server/crates/dialf/src/share/adb.rs:213-213 | Words are what stands between ASCII blanks, however many |
| AdbShare.SharedExactly | server/crates/dialf/src/share/adb.rs:35-40 | Shared are exactly the devices whose serial is on the list, as often as they come |
| AdbShare.DeviceMeans | server/crates/dialf/src/share/adb.rs:245-256 | A device's line: serial, state or `unknown`, and its model from the third word on |
| AdbShare.ModelMeans | server/crates/dialf/src/share/adb.rs:251-253 | The model is what follows `model:` in the first word that begins so |
| AdbShare.ParseOfFiltered | server/crates/dialf/src/share/adb.rs:208-260 | Parsing a filtered list gives exactly the shared devices of the parsed list, for every text |
| AdbShare.FilteredLength | server/crates/dialf/src/share/adb.rs:212-219 | Filtering lengthens a list by one byte exactly when it only adds the missing last newline |
| AdbShare.FilteredGrows | server/crates/dialf/src/share/adb.rs:208-221 | Which lists grow: not all is shared, the list is not empty and lacks its last newline, every line is kept, and no line end has a carriage return |
| AdbShare.PrefixReadsBack | server/crates/dialf/src/share/adb.rs:279-280 | The four-digit prefix reads back as the length |
| AdbShare.PrefixDigits | server/crates/dialf/src/share/adb.rs:279-280 | The prefix is four lower-case hexadecimal digits, the highest first |
| AdbShare.MessagesAreShort | server/crates/dialf/src/share/adb.rs:267-272 | No prefix counts past 65535, so the cap never refuses anything |
| AdbShare.FrameReadsBack | server/crates/dialf/src/share/adb.rs:264-284 | A message reads back, with the stream behind it untouched, if and only if it is at most 65535 bytes |
| AdbShare.FramesReadBack | server/crates/dialf/src/share/adb.rs:264-284 | A concatenated stream reads back as its payloads if and only if each fits |
| AdbShare.Connection.ReadMessage | server/crates/dialf/src/share/adb.rs:264-276 | Takes the next whole well-formed message off a stream, or fails |
| AdbShare.RelayLists | server/crates/dialf/src/share/adb.rs:345-354 | Every list read is filtered and framed, in order, until the stream cannot be read or after the first one |
| AdbShare.RelayFilteredList | server/crates/dialf/src/share/adb.rs:326-355 | What goes down for any bytes from upstream: nothing without a whole status, everything as it came for an answer that is not OKAY, and else the filtered lists |
| AdbShare.RelayReadsBack | server/crates/dialf/src/share/adb.rs:326-355 | Reading back the relay's output gives the filtered form of every list sent, or of the first one without streaming, if and only if each fits; and those parse to the shared devices |
| AdbShare.RelayDeliversShared | server/crates/dialf/src/share/adb.rs:345-354 | Every list reads back filtered if and only if none is 65535 bytes long, without its last newline, with every line kept and no carriage return before a newline; and then they parse to exactly the shared devices of each |
| AdbShare.LongListBreaks | server/crates/dialf/src/share/adb.rs:217-218 | The one shape that does not pass exists: 65535 bytes without a last newline, kept whole |
| Serve.LayersDoNotMix | server/crates/dialf/src/daemon.rs:217-242 | A call is handled exactly when a session serves its number or the layer in force lists it; while a runtime map is set the config has no say, an empty one silencing every number not served; a served number depends on neither |
| Serve.LowerLayersMean | server/crates/dialf/src/daemon.rs:224-241 | What each entry of the two lower layers gives: a bare answer, a job by its path, or steps given in place |
| Serve.CallsAround | server/crates/dialf/src/daemon.rs:204-242 | Calls before, during and after one session: the same answer before and after, from the layers below, and the session's job in between for its numbers |
| Serve.Daemon.OpenSession | server/crates/dialf/src/transport/control_server.rs:106-136 | A session is refused exactly while another holds the slot; else its numbers, and no others, are overridden by its job and device under a fresh token |
| Serve.Daemon.CloseSession | server/crates/dialf/src/transport/control_server.rs:161-161 | Takes out exactly the token's entries and frees the slot |
| Serve.ClearedOfRegistered | server/crates/dialf/src/daemon.rs:204-213 | Clearing a token undoes its registrations except for entries they replaced |
| Serve.StepKept | server/crates/dialf/src/transport/control_server.rs:104-162 | Every section of every session keeps the invariant |
| Serve.OverridesAreTheHolders | server/crates/dialf/src/daemon.rs:255-264 | A free slot means no overrides; a taken one has one holder, whose token every override bears |
| Serve.ServingResolves | server/crates/dialf/src/daemon.rs:215-242 | While a session streams its numbers resolve to its job and all others to the layers below |
| Serve.RevertedResolves | server/crates/dialf/src/transport/control_server.rs:139-162 | From a session's reverting until the next registration every number resolves to the layers below alone |
| Serve.RevertEmptiesAll | server/crates/dialf/src/transport/control_server.rs:161-161 | Clearing one session's token leaves no override at all |
| Serve.SecondIsRefused | server/crates/dialf/src/transport/control_server.rs:106-124 | A second session is refused and changes nothing the first or a lookup can see |
| Serve.LookupPastSessions | server/crates/dialf/src/daemon.rs:217-242 | A lookup that finds the slot free at its first look answers from the layers below as they are at its second, whatever sessions come in between |

## Left out

- Rounding of `f64` positions and `f32` filter sums; the design of the filter; decibel figures.
- A destination rate of zero, or a source rate of zero: the step would be infinite, or the loop endless.
- The native voice detector's errors and its parameters; microphone permission; tool detection and spawning.
- WAV headers and files: a sink is the sequence of samples written to it, and writes do not fail.
- Errors of pipe reads, and the wall-clock stall guard, cancel and force flags inside audio waits: they are taken not to happen there.
- A stale frame that crosses from one turn into the next: `vad_begin` and the capture thread race on a relaxed flag, so in a session here the chunk before a turn, if there is one, finds the tap idle.
- SpeechArms.RecordedArm: does not cover captures of more than 8192 channels, whose frames do not fit the read buffer.
- Capture.DownmixMono.Read: says nothing of an empty buffer but that it is not overrun.
- Phone.PhoneJobIo.DoWaitForSpeech: its result is arbitrary, because `Engine` proves what a wait returns and a job only needs that time passes.
- Phone.PhoneJobIo.DoWaitForSpeechStart: the same.
- Summary texts of outcomes, and the call's own track of when it was answered and ended.
- The hub's non-acknowledged sends, its cancel notifications and its message queues.
- That the registered connection has the largest generation: the generation is fetched before the map is locked, so it does not hold.
- The adb link's device lookup, status texts and `adb` subprocesses; each phone's link is one machine.
- The policy gate in front of the relay (`decide`), and the direct splice after it, except for what a refused list answer passes on.
- Text beyond ASCII on the adb wire, where a character would be more than one byte.
- Bundle content: YAML, the config's own entry and its edits, warnings, symbolic links, and lossy names of files that are not Unicode. How a reference is resolved on disk is an input; `KeptRefLands` takes it to be resolved without symbolic links.
- The upper bound on rx drift, silence warnings, inboxes, registry reaping, firewall and discovery diagnosis, the handshake.
- Serve sessions whose task is dropped half-way, and the resolving of a config path against its directory.
