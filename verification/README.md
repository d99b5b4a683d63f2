# hp7475a plotting: a verified model

This project models the path of a drawing from the host to an HP 7475A pen plotter and proves what
the path promises. The original is a Python service; the model follows its branches, constants and
error cases.

* **Streaming.** The buffer-safe streamer (`Streamer`) polls the plotter's free space, cuts the
  payload at `;` and writes. `Link` interleaves it with the line and the plotter, with stale
  replies; `LinkLimit` shows the margin rule to be exact. `Transport` is the transport's own sender
  and `Responder` its line reader; `Protocol` holds the constants both ends agree on.
* **The emulated plotter.** `ControlChannel` takes escapes out of the byte stream, `Device` executes
  tokens, `Emulator` pops whole instructions or, for a mover still arriving, coordinate pairs.
  `FakePlotter` is the object with its fields. For absolute movers any schedule of arrivals and rounds
  ends where whole-instruction execution ends; `Relative` shows exactly when a relative mover does.
  `Delivery` follows the command log for anything the validator lets through.
* **Completion.** `Completion` models the queued position query behind the payload and proves that
  its answer means the payload is done, for every payload the validator accepts (`Acceptance`).
  `Liveness` proves which accepted payloads always get that answer, over all `Schedules`.
* **HP-GL text.** `Hpgl` gives a text its meaning: the points visited, each with pen and pen state.
  `PdSplit` re-chunks long movers, `Writer` assembles jobs (`Building` says when), `Validator` checks
  payloads (`Rules` says what passes, `Findings` what is reported). Against the plot semantics: splitting
  preserves plot (`PdSplit`) and verdict (`SplitVerdict`), the writer round-trips (`WriterMeaning`) and
  passes the validator (`WriterAccepted`), an accepted payload stays on the paper (`Soundness`), and the
  plotter follows the validator's tracking (`Agreement`) and draws the plot (`Plotting`).
* **Jobs.** `Jobs` is the state machine and store, `Worker` the hardware worker with all its handlers,
  `Lifecycle` what each command leaves, `Runs` what holds over every run.
* **Preparation.** `Placement` fits and tiles artwork, `Colormap` groups elements by stroke colour,
  `Velocity` compares the two velocity quantisers. `Text`, `Numbers`, `Chunking` and `Order` are shared.

What the environment does, such as port replies, signals, clock and device manager, is a parameter:
an arbitrary function or sequence, so each theorem is about all of them. Time is counted in polls.

Where the code and its own comments differ the model follows the code. Notable cases, each proved: a payload
with a trailing newline passes the validator but never streams (`Soundness.NewlinePassesButNeverStreams`);
splitting silently drops whatever is not an integer pair (`PdSplit.KeepsTextExactly`), so that a decimal
changes the plot (`PdSplit.ShippedSplitChangesDecimals`); an accepted mover with a blank behind its mnemonic
can stall the emulated plotter for good (`Completion.SpacedMoverNeverCompletes`), and the velocity with its
pen that the pipeline writes kills it (`Liveness.PipelineVelocityStopsThePlotter`); a line break in front of
a mover hides it from the plotter but not from the validator (`Agreement.LineBreakExample`), and a pen
written `1.0` passes the validator but is pen 0 to the plotter (`Plotting.DecimalPenIsAccepted`); where a
relative mover ends depends on how its bytes arrive (`Relative.RelativeExample`); a split command may take
241 bytes with its terminator (`PdSplit.SplitTextAlwaysFits`); two stale readings defeat the shipped margin
(`LinkLimit.ShippedMargin`), and the `;` written on a cancel needs one byte more
(`LinkLimit.MarginIsExact`); the abort escape swallows the pen-up behind it
(`ControlChannel.AbortSwallowsPenUp`); the sentinel's status polls can overflow the buffer during a long
wait (`Completion.ShippedPolls`); a second pause, or a cancel or shutdown while paused, leaves a job paused
with nobody waiting, a resume without a driver leaves it sending, a port lost in a resumed stream counts as
a failure (`Runs.StartedExactly`); starting a paused job repeats its bytes (`Runs.RestartRepeats`); the
history clean-up after completion always raises (`Lifecycle.CleanUpFailsQueued`).

`dafny verify dfyconfig.toml` checks the whole project.

## Model

| member | source | states |
|---|---|---|
| Chunking.SplitChunk | backend/app/jobs/streamer.py:46-67 | the cut is the last `;` inside the window, and -1 exactly when the window holds none |
| Chunking.NextStop | backend/app/services/serial/transport.py:100-112 | the stop is a boundary or the end, never passes a boundary that fits, and runs on to the first boundary only when none fits |
| Chunking.GreedyIsOptimal | backend/app/services/serial/transport.py:80-97 | no boundary-respecting division whose chunks fit or are one oversized instruction has fewer chunks than the greedy one |
| Chunking.SplitChunks | backend/app/services/serial/transport.py:80-97 | the division loop is lossless, respects boundaries and uses the fewest chunks possible; a non-positive limit is an error |
| Chunking.ChunkersAgree | backend/app/services/serial/transport.py:100-112 | on `;`-terminated data transport and streamer cut at the same place whenever a cut fits the window |
| Streamer.QueryFreeMeaning | backend/app/jobs/streamer.py:192-228 | a free-space value is the first usable reply within the retry budget; a lost port ends the query; nothing else is consumed |
| Streamer.RunExact | backend/app/jobs/streamer.py:106-167 | for every environment: the writes concatenate to the first `sent` bytes, each write ends at `;`, and a normal return means the whole payload went out and was terminated |
| Streamer.UnterminatedNeverCompletes | backend/app/jobs/streamer.py:58-67 | a payload with anything after its last `;` never streams successfully |
| Streamer.SentExactlyWhenTerminated | backend/app/jobs/streamer.py:58-67 | nothing fails, the plotter drains, terminated instructions fit: the call returns normally if and only if the payload is empty or ends in `;` |
| Streamer.OverflowStopsExactly | backend/app/jobs/streamer.py:166-190 | over the whole call the stream stops for an overflow if and only if its last error query answered 16; none before it did, unreadable answers never stop it, and a normal return has looked after the last byte |
| Streamer.NeverTooLong | backend/app/jobs/streamer.py:135-147 | when every instruction fits the safe window the oversize failure cannot occur |
| Streamer.UndisturbedRunSendsAll | backend/app/jobs/streamer.py:106-167 | if nothing fails and the buffer frees enough within each stall budget, the call returns the total |
| Streamer.SignalsDecide | backend/app/jobs/streamer.py:106-116 | from the signals alone, for every environment: up to the last loop head met no signal is up; the call ends cancelled if and only if cancel is up there, paused if and only if pause is and cancel is not, stopped if and only if only shutdown is |
| Streamer.OutcomeExplained | backend/app/jobs/streamer.py:106-228 | every other ending from the replies alone: a lost port is the last space reply or write, a broken write names the byte it began at, no reply means a whole retry budget of unusable ones, too long means an instruction beyond the safe window, a full buffer means one reading more than the stall budget since the last write, none of them with room for the next instruction |
| Streamer.LineIsPrefix | backend/app/jobs/streamer.py:92-177 | for every environment and every outcome the line carries the counted bytes and then nothing, the taken part of the one broken write, or the part of the closing terminator the port took after a cancel |
| Streamer.ChunkedStreamer.AskFree | backend/app/jobs/streamer.py:192-228 | the retry loop computes the specified query and consumes exactly its replies |
| Streamer.ChunkedStreamer.Turn | backend/app/jobs/streamer.py:108-165 | one pass of the loop: signals, reading, wait, refusal, cut and write, in the original order |
| Streamer.ChunkedStreamer.Stream | backend/app/jobs/streamer.py:92-177 | the whole loop, with the closing `;` on cancel, equals the specification about which exactness is proved; it terminates by unsent bytes and remaining stall budget |
| Transport.SerialTransport.Write | backend/app/services/serial/transport.py:189-209 | partial writes add up to exactly the data on success and leave a prefix of it on any fault; the fault is what the last write did, and a stall means one empty write more than the patience |
| Transport.SerialTransport.SendSoftwareCheck | backend/app/services/serial/transport.py:277-315 | a normal return means exactly the data went out and every error query made was readable and not 16, one for every wait and one at the end; every burst fits its free-space reading above the margin and ends at an instruction or at the end; the line always carries a prefix; every fault is what happened: a failed write or query, an error 16, an instruction longer than the safe window, or as many readings as the stall budget without room for the next instruction |
| Responder.FirstLineUnique | backend/app/services/serial/responder.py:67-93 | the first line of a reply stream does not depend on how it was read |
| Responder.Responder.ReadLine | backend/app/services/serial/responder.py:67-93 | nothing is lost: buffered and received bytes are the line, its terminator and the rest; it reads no further than the first terminator; giving up means none arrived |
| ControlChannel.SplitControlChannel | backend/app/services/serial/fakeplotter.py:43-76 | the handler loop computes the recursive specification of the escape demultiplexer |
| ControlChannel.DemuxConserves | backend/app/services/serial/fakeplotter.py:43-76 | every block is a mix of complete escapes and graphics bytes followed by the withheld tail: putting the three results back together gives the very bytes of the block, in order |
| ControlChannel.DemuxCut | backend/app/services/serial/fakeplotter.py:43-76 | split(a + b) is split(a) followed by split(withheld tail + b), for every cut |
| ControlChannel.ReadsDoNotMatter | backend/app/services/serial/fakeplotter.py:246-249 | any sequence of reads gives what one single read would |
| ControlChannel.DemuxMux | backend/app/services/serial/fakeplotter.py:43-76 | an ESC-free payload with complete queries inserted anywhere is recovered as exactly that payload and those queries |
| ControlChannel.DemuxMuxAnyReads | backend/app/services/serial/fakeplotter.py:243-249 | the same under any cutting into reads |
| ControlChannel.AbortSwallowsPenUp | backend/app/services/serial/driver.py:234-242 | the abort escape as the driver sends it has no terminator, so the emulated handler takes the following pen-up into the escape: no graphics byte of it arrives |
| ControlChannel.EscapeEndExactly | backend/app/services/serial/fakeplotter.py:43-76 | an escape ends at the first semicolon or colon from its third byte on, if that is among its first fourteen |
| Link.DecideIsPass | backend/app/jobs/streamer.py:115-157 | the decision used in the interleaved system is the streamer's own pass |
| Link.StepKeeps | backend/app/jobs/streamer.py:115-165 | every step of host, line and plotter keeps the byte and reply invariant |
| Link.NoOverflow | backend/app/jobs/streamer.py:115-176 | in every interleaving with at most `slips` stale replies and margin >= slips x chunk plus the closing `;` of a cancel, buffered plus in-flight bytes stay within 1024 - (margin - slips x chunk) plus that byte, nothing is lost, error 16 never latches, and what was popped, buffered and in flight is exactly what the host wrote; with fresh readings this holds for any instruction sizes |
| LinkLimit.MarginIsExact | backend/app/config.py:31-33 | the margin rule is exact: without a cancel no byte is ever lost if and only if slips x chunk <= margin; with the `;` that closes a cancelled stream if and only if slips x chunk < margin |
| LinkLimit.ShippedMargin | backend/app/config.py:31-33 | with margin 320, chunk 256 and 3 retries one stale reply is safe even on a cancel, two are not |
| Device.OnlyOutputsReply | backend/app/services/serial/fakeplotter.py:393-442 | exactly the output instructions answer |
| Device.MovePairs | backend/app/services/serial/fakeplotter.py:444-463 | a mover executed whole ends at its last pair, absolute or relative, clamped to the hard clip |
| Device.CommandedIsActual | backend/app/services/serial/fakeplotter.py:405-407 | the commanded position is always where the pen is, so both position queries give the same answer |
| Device.ErrorExactly | backend/app/services/serial/fakeplotter.py:408-463 | what is in the error register after any instruction: 2 behind a mover whose coordinates are not pairs of numbers, 0 behind an initialisation or reading it, 1 behind anything unknown, and otherwise what was there |
| Device.VelocityExactly | backend/app/services/serial/fakeplotter.py:419-432 | the velocity after any instruction: the number given, 38.1 behind a bare one and behind an initialisation, and otherwise what it was |
| Device.StatusBits | backend/app/services/serial/fakeplotter.py:465-476 | the status byte: 1 pen down, 8 until first read, 16 always, 32 an error |
| Device.InitialisingResets | backend/app/services/serial/fakeplotter.py:419-424 | initialising lifts the pen and forgets error, velocity and scaling points; point, pen and clip stay |
| Device.ClipReadsBack | backend/app/services/serial/fakeplotter.py:413-416 | the limits reply reads back as the four limits |
| Emulator.ScheduleIndependence | backend/app/services/serial/fakeplotter.py:338-383 | for IN/DF/SP/PU/PD/PA programs, any arrivals and any order of rounds end in the device, log and replies of executing every instruction whole, in order |
| Emulator.PlayKeeps | backend/app/services/serial/fakeplotter.py:338-383 | at every moment of every schedule the state is the reference state after some prefix, plus the popped pairs of one mover |
| Emulator.NeverStuck | backend/app/services/serial/fakeplotter.py:338-383 | the executor never waits for bytes that have no room to arrive |
| Delivery.PlayFollows | backend/app/services/serial/fakeplotter.py:338-383 | for any instructions whose movers hold no letter, at every moment of every schedule the log is exactly a prefix of them in order, and token, buffer and line hold exactly the rest |
| Delivery.WaitsInMover | backend/app/services/serial/fakeplotter.py:349-382 | when everything has arrived and a round does nothing, either every instruction is in the log or the executor waits in a mover whose next bytes are no pair |
| Delivery.StalledForever | backend/app/services/serial/fakeplotter.py:356-368 | a mover whose next byte is no digit, sign, letter or terminator is never left: whatever arrives, nothing is executed, logged or answered any more |
| Delivery.AbandonsAtLetter | backend/app/services/serial/fakeplotter.py:349-382 | at a letter the executor gives the mover up: nothing is executed or logged, and the next error query answers 1 |
| Relative.ExecuteRelative | backend/app/services/serial/fakeplotter.py:435-463 | every partial or final PR token moves by its last pair |
| Relative.RelativeAgreesExactly | backend/app/services/serial/fakeplotter.py:338-365 | pair-wise and whole execution of PR end at the same point if and only if on each axis the two last stops are equal or clamped to the same edge, for walks that leave the clip as well |
| Relative.RelativeAgreesWhen | backend/app/services/serial/fakeplotter.py:338-365 | inside the clip that is: exactly when the earlier pairs cancel out |
| Relative.RelativeEndsInEither | backend/app/services/serial/fakeplotter.py:338-383 | under every schedule a relative mover ends in one of these two positions |
| Relative.ScheduleFreeExactly | backend/app/services/serial/fakeplotter.py:338-383 | for any number of pairs: every complete schedule ends alike if and only if the mover is too long for the buffer or the two positions are the same |
| Relative.RelativeExample | backend/app/services/serial/fakeplotter.py:338-383 | `PR1,0,2,0;` from the origin ends at x = 2 when it arrives at once, at x = 3 when it arrives in two parts |
| FakePlotter.SpaceRepliesAreExact | backend/app/services/serial/fakeplotter.py:250-259 | every buffer-space reply of a block counts the bytes left after the whole block has been buffered |
| FakePlotter.OverflowIsReportedOnce | backend/app/services/serial/fakeplotter.py:249-315 | bytes beyond 1024 are dropped, exactly then the next error query answers 16, and the one behind it 0 |
| FakePlotter.WorkConserves | backend/app/services/serial/fakeplotter.py:338-383 | logged commands, pending token and buffer always spell out the accepted bytes, except where the executor abandons or rewrites a mover |
| FakePlotter.WorkConservesExactly | backend/app/services/serial/fakeplotter.py:349-383 | a round keeps every byte if and only if it neither abandons a mover at a letter nor rewrites a lower-case mnemonic |
| FakePlotter.PlayConserves | backend/app/services/serial/fakeplotter.py:317-383 | over any schedule of arrivals and rounds that rewrites no mover: log, pending token, buffer and line together always spell the same bytes |
| FakePlotter.FakeHP7475A.Receive | backend/app/services/serial/fakeplotter.py:250-256 | what does not fit is dropped and latches error 16 |
| FakePlotter.FakeHP7475A.Reader | backend/app/services/serial/fakeplotter.py:227-259 | the reader thread on one block equals the specification |
| FakePlotter.FakeHP7475A.TakePair | backend/app/services/serial/fakeplotter.py:349-368 | the pair-wise pop equals the specification |
| FakePlotter.FakeHP7475A.TakeToken | backend/app/services/serial/fakeplotter.py:338-383 | the token pop equals the specification |
| FakePlotter.FakeHP7475A.Step | backend/app/services/serial/fakeplotter.py:317-336 | one executor round equals the specification about which schedule independence is proved |
| Numbers.IntRoundTrip | backend/app/services/pipeline/hpgl_writer.py:111-117 | a printed integer reads back as itself and is recognised whole by the pair pattern |
| Numbers.PlainHasValue | backend/app/services/serial/fakeplotter.py:37-39 | whatever the pair pattern matches is a number the executor can read |
| Numbers.DecimalValue | backend/app/services/pipeline/validator.py:56-56 | the value of a decimal is that of its digits before the point and of those behind it, with its sign |
| Numbers.PointMoves | backend/app/services/pipeline/validator.py:56-56 | and moving the point one digit to the right multiplies it by ten |
| Hpgl.OneLineBreak | backend/app/services/pipeline/validator.py:56-56 | a number in a payload reads the same with one line break behind it, and with two it is none |
| PdSplit.SplitLongPd | backend/app/services/pipeline/pd_split.py:16-36 | the nested loops compute the recursive specification |
| PdSplit.SplitOne | backend/app/services/pipeline/pd_split.py:21-33 | the inner loop on one over-long command |
| PdSplit.SplitBound | backend/app/services/pipeline/pd_split.py:26-33 | every emitted PD or PU is within the limit when each pair fits |
| PdSplit.SplitPreservesPlot | backend/app/services/pipeline/pd_split.py:16-36 | point for point, pen for pen, in absolute and relative mode, the split text plots the same |
| PdSplit.PlotKeptExactly | backend/app/services/pipeline/pd_split.py:21-33 | an over-long command keeps its plot, from any pen state, if and only if the integer pairs found are the numbers it holds; with none found, if and only if it would have drawn nothing and left the pen |
| PdSplit.FieldsKeptExactly | backend/app/services/pipeline/pd_split.py:21-33 | for plain pairs with whole second coordinates the condition on the fields: every first coordinate equals the digits behind its point |
| PdSplit.SpacedListIsClean | backend/app/services/pipeline/pd_split.py:21-21 | a list of integer pairs with any blanks behind its commas keeps its plot |
| PdSplit.KeepsTextExactly | backend/app/services/pipeline/pd_split.py:21-21 | re-chunking keeps the coordinate text if and only if it is a list of integer pairs |
| PdSplit.DecimalChangesPlot | backend/app/services/pipeline/pd_split.py:21-33 | an over-long command whose first coordinate is a decimal a.b plots something else after the split, unless b equals a.b |
| PdSplit.ShippedSplitChangesDecimals | backend/app/services/pipeline/pd_split.py:13-36 | forty pairs `1.5,7` in one PD: the shipped splitter changes the plot |
| PdSplit.SplitIdempotent | backend/app/services/pipeline/pd_split.py:16-36 | splitting twice is splitting once, for any text |
| PdSplit.SplitTextAlwaysFits | backend/app/services/pipeline/pd_split.py:13-36 | after splitting, with the other instructions at most 240 characters, every instruction is at most 241 bytes and the shipped streamer never refuses one |
| Validator.ValidateHpgl | backend/app/services/pipeline/validator.py:67-225 | the original's checks in order equal the specification |
| Validator.ScanControls | backend/app/services/pipeline/validator.py:89-97 | every control character other than tab and line breaks is reported at its offset |
| Validator.ScanTokens | backend/app/services/pipeline/validator.py:107-219 | the token loop over mode, position, pen, pen state and body flag |
| Validator.ValidateVelocity | backend/app/services/pipeline/validator.py:143-171 | velocity range, grid and count checks; the pen parameter overwrites the tracked pen |
| Validator.TrackPairs | backend/app/services/pipeline/validator.py:178-190 | coordinate tracking through absolute and relative mode, looking at each point reached |
| Rules.AcceptedExactly | backend/app/services/pipeline/validator.py:67-225 | when a payload is accepted, rule by rule: at most 5242880 bytes, no control character but tab, line feed and carriage return, nothing but blanks behind the last terminator; each instruction lawful by itself, with the mnemonics and the bounds of their numbers written out; IN and DF only behind blanks and each other; and, with a paper, no point of any mover or arc more than 200 units outside |
| Rules.SelectionsAreBounded | backend/app/services/pipeline/validator.py:135-142 | in an accepted payload every pen selection names one whole number from 0 to 6, and a payload with any other is refused |
| Rules.NotedExactly | backend/app/services/pipeline/validator.py:124-225 | each advice on an accepted payload, with its exact condition: an instruction without effect, a velocity off the 0.38 grid, each point outside the paper, the pen left down by the last instruction that lowers or lifts it, a pen not put away by the last that takes one |
| Findings.ReportedExactly | backend/app/services/pipeline/validator.py:67-303 | every error of any payload that is short enough and free of forbidden characters, with its exact condition: something behind the last terminator, or a token that is refused for it, kind by kind, points out of reach included; and no other |
| Rules.ControlsReported | backend/app/services/pipeline/validator.py:89-97 | exactly the escapes and the other forbidden characters are reported, each at its offset |
| Rules.RefusedEarly | backend/app/services/pipeline/validator.py:83-97 | a payload that is too long, or holds such a character, gets no other finding |
| Soundness.InitsLead | backend/app/services/pipeline/validator.py:128-133 | in an accepted payload no IN or DF comes after any other instruction |
| Soundness.BlankTailPasses | backend/app/services/pipeline/validator.py:107-117 | harmless blanks behind a terminated payload change nothing: it has an error if and only if it had one before, size permitting |
| Soundness.NewlinePassesButNeverStreams | backend/app/jobs/streamer.py:58-67 | an accepted terminated payload with a line break behind it is still accepted, and no environment lets it stream to the end |
| Soundness.AcceptedNeverReplies | backend/app/services/pipeline/validator.py:117-121 | no instruction of an accepted payload makes the plotter answer, although the plotter reads the unstripped token |
| Acceptance.AcceptedIsDeliverable | backend/app/services/pipeline/validator.py:175-195 | every mover the validator accepts is free of letters behind its mnemonic, so the executor never abandons it |
| Acceptance.AcceptedEndsInNumber | backend/app/services/pipeline/validator.py:241-250 | no accepted mover ends in a comma, which the executor would take for the end of a pair |
| Acceptance.SpacedIsAccepted | backend/app/services/pipeline/validator.py:107-117 | a mover with a blank behind its mnemonic is accepted if and only if the mover without it is, size permitting |
| Acceptance.AcceptedIsConserved | backend/app/services/serial/fakeplotter.py:338-383 | under every schedule, log, token, buffer and line of an accepted payload with capital movers always spell exactly what was there before and the payload |
| Soundness.WalkVisits | backend/app/services/pipeline/validator.py:182-190 | coordinate tracking visits exactly the points of the plot; no error if and only if all are within 200 units of the clip, no finding at all if and only if all are inside |
| Soundness.AcceptedStaysNear | backend/app/services/pipeline/validator.py:289-303 | every point of an accepted payload lies within the clip widened by 200 units, in both coordinate modes |
| SplitVerdict.SplitPreservesVerdict | backend/app/services/pipeline/validator.py:175-195 | a split text is accepted within the size cap if and only if the original is accepted and the split text fits the cap, given an original that fits it and holds no control character; then the whole report is the same |
| Agreement.NoStopIsClamped | backend/app/services/serial/fakeplotter.py:459-462 | every stop of a mover without extent findings is exactly the coordinate written |
| Agreement.PlotterFollowsValidator | backend/app/services/pipeline/validator.py:175-195 | for a program of absolute movers without findings and without hidden motion, at every moment of every schedule: between instructions the pen is exactly where the validator tracked it, and inside a mover it is at the pair just popped |
| Agreement.PlotterEndsWithValidator | backend/app/services/pipeline/validator.py:175-195 | for these programs, at the end of every complete schedule both are at the same point |
| Agreement.InStepExactly | backend/app/services/pipeline/validator.py:107-195 | for a program of absolute movers without findings plotter and validator are at the same point after every instruction if and only if the validator tracks no motion at an instruction the plotter does not take for a mover with parameters |
| Agreement.NothingHidden | backend/app/services/pipeline/validator.py:107-195 | in particular when it sees motion only in instructions that start with a mover's mnemonic |
| Agreement.BlankMoverParts | backend/app/services/serial/fakeplotter.py:398-442 | a blank or line break in front of a mover hides it: the validator tracks it to its last pair, the pen stays where it was |
| Agreement.LineBreakExample | backend/app/services/pipeline/validator.py:107-108 | `PA0,0;` and `PA1,2;` with a line break between them: no finding, tracked to (1, 2), drawn to (0, 0) |
| Agreement.RelativeModeAgreesWhen | backend/app/services/serial/fakeplotter.py:433-435 | in relative mode validator and plotter agree on PU and PD exactly when everything before the last pair sums to the origin |
| Order.Ascending | backend/app/services/pipeline/hpgl_writer.py:85-85 | layer numbers in strictly ascending order, none lost |
| Writer.RoundingIsNear | backend/app/services/pipeline/hpgl_writer.py:117-117 | rounding is off by at most half a unit, takes a half to the even neighbour and keeps whole-unit bounds |
| Writer.LayerText | backend/app/services/pipeline/hpgl_writer.py:89-98 | a layer is emitted exactly when it has a line of two points |
| Writer.BuildHpgl | backend/app/services/pipeline/hpgl_writer.py:76-108 | the assembly loop yields the text of the specified program, and the three errors in the original order |
| Building.BuildsExactly | backend/app/services/pipeline/hpgl_writer.py:76-108 | a job is built if and only if there are layers, all their pens are from 1 to 6 and some line has two points; otherwise the error says which fails first, and names the wrong pen of the lowest layer that has one |
| Building.PensInTurn | backend/app/services/pipeline/hpgl_writer.py:86-88 | layers without a pen of their own take pens 1 to 6 in turn |
| Building.JobFrame | backend/app/services/pipeline/hpgl_writer.py:76-108 | every built job begins with IN, DF and the velocity, and ends with the pen-up to the park position and SP0 |
| WriterMeaning.WriterRoundTrip | backend/app/services/pipeline/hpgl_writer.py:76-108 | reading the plot back gives exactly the rounded polylines of two or more points, layers ascending, each with its pen; the job ends parked, pen up, pen stored |
| WriterAccepted.WriterAccepted | backend/app/services/pipeline/validator.py:99-225 | with geometry and park position on the paper, no velocity and the size under the cap, the validator reports no error and no warning |
| WriterAccepted.JobEndsParked | backend/app/services/pipeline/hpgl_writer.py:106-108 | under every arrival schedule the plotter executes the job in order and ends parked, pen up and put away |
| Plotting.SamePenExactly | backend/app/services/serial/fakeplotter.py:429-483 | a pen given as a plain number: plotter and plot take the same one if and only if it is written without a decimal point, or is zero |
| Plotting.WholePen | backend/app/services/serial/fakeplotter.py:429-483 | `SP` with any whole number selects that pen and changes nothing else |
| Plotting.ExecutionFollowsPlot | backend/app/services/serial/fakeplotter.py:393-463 | after every instruction of an absolute program inside the clip the plotter's point, pen and pen state are those of the plot of the text so far |
| Plotting.PlotterFollowsPlot | backend/app/services/serial/fakeplotter.py:338-463 | so at every moment of every arrival schedule, inside a mover up to the pair popped last |
| Plotting.TraceIsPlot | backend/app/services/serial/fakeplotter.py:338-463 | executed pair by pair the plotter is moved to exactly the points of the plot, in order, each with the plot's pen and pen state |
| Plotting.WrittenJobIsDrawn | backend/app/services/pipeline/hpgl_writer.py:76-108 | a written job is drawn: wherever the pen was and whichever it was, the plotter draws exactly the rounded polylines of two or more points, layers ascending, pen down, each with its layer's pen, and ends parked with the pen put away |
| Completion.PositionReadsBack | backend/app/services/serial/responder.py:116-121 | the plotter's position reply parses back to the truncated position and the pen state |
| Completion.BlanksAreSkipped | backend/app/services/serial/responder.py:49-51 | blanks in front of a position's fields and behind its last one make no difference |
| Completion.NumbersAreNoPositions | backend/app/services/serial/responder.py:49-51 | a reply without a comma, such as status or buffer space, is never taken for the sentinel |
| Completion.CompletePlot | backend/app/services/serial/driver.py:258-288 | the waiting loop: the sentinel and one poll for every one due, no read behind the first lost port or position, which decides the outcome; the deadline only without one; and exactly the status bytes among the other lines |
| Completion.WaitingHears | backend/app/services/serial/driver.py:258-288 | the lines heard hold a position exactly when the waiting ended with one, and it is the last of them |
| Completion.StatusReadsBack | backend/app/services/serial/responder.py:135-139 | a printed whole number is a status byte if and only if it is from 0 to 255, and reads back as itself |
| Completion.AcceptedIsSilent | backend/app/services/pipeline/validator.py:117-121 | under every schedule a payload the validator accepts produces no reply, and the log is exactly its instructions so far |
| Completion.CompletionIsSound | backend/app/services/serial/driver.py:244-288 | for every accepted terminated payload and every schedule of arrivals and rounds, polls included: when a position has been read and none was pending, every payload instruction has been executed, in order and before anything else, the line answers the sentinel, and it is where the pen stands |
| Completion.SpacedMoverNeverCompletes | backend/app/services/serial/fakeplotter.py:349-379 | a mover with a blank behind its mnemonic is accepted, but if its first three bytes arrive alone no wait, however long, hears a position |
| Schedules.ComesToRest | backend/app/services/serial/fakeplotter.py:317-336 | from any state some arrivals and rounds lead to rest, where a round does nothing and nothing more can arrive |
| Liveness.CompletesExactly | backend/app/services/serial/driver.py:244-288 | for every accepted terminated payload: under every schedule of arrivals and rounds, sentinel and polls sent at any time, a run at rest has logged every instruction, taken all bytes and answered the sentinel with a position, if and only if every mover is bare or a list of plain pairs of fewer than 64 characters, every other instruction fits the buffer, and every velocity is empty or one number |
| Liveness.CrashExactly | backend/app/services/serial/fakeplotter.py:431-432 | the executor dies exactly at a velocity that is neither empty nor one number |
| Liveness.UnreadableVelocityNeverCompletes | backend/app/services/serial/fakeplotter.py:393-432 | with such a velocity an accepted payload completes under no schedule: nothing behind it is executed and the sentinel is never answered |
| Liveness.PenVelocityIsUnreadable | backend/app/services/pipeline/validator.py:143-171 | a velocity with its pen is accepted if and only if both are in range, and the executor cannot read it |
| Liveness.PipelineVelocityStopsThePlotter | backend/app/services/pipeline/vpy.py:698-708 | so for `VS10,1;`, the form the pipeline writes behind each pen selection |
| Liveness.AcceptedIsProgram | backend/app/services/serial/fakeplotter.py:338-383 | an accepted payload of executable instructions, movers absolute and in capitals, is a program, so that schedule independence and agreement hold of it |
| Completion.CompletionGivesReference | backend/app/services/serial/driver.py:244-288 | for programs of absolute movers that position is also the one whole-instruction execution reaches |
| Completion.PollsFitExactly | backend/app/services/serial/driver.py:258-273 | for any occupancy the sentinel and k undrained polls are all accepted if 3 + 3k bytes are free; otherwise bytes are lost and error 16 is latched |
| Completion.MarginPolls | backend/app/config.py:31-36 | with the margin free, (margin - 3) / 3 undrained polls fit; with exactly the margin free no more do |
| Completion.PollsFitAfterStreaming | backend/app/jobs/streamer.py:115-165 | after any stream with fresh readings that room is there, although the rest of the payload may still be on the line |
| Completion.ShippedPolls | backend/app/config.py:31-36 | with the shipped margin the 105th undrained poll fits and the 106th does not |
| Jobs.JobStore.SetState | backend/app/jobs/store.py:80-91 | a status changes exactly along the table; otherwise the store is untouched and the error says why |
| Jobs.JobStore.Update | backend/app/jobs/store.py:93-118 | only the named counters of the named job change |
| Jobs.JobStore.Delete | backend/app/jobs/store.py:70-76 | deletion is refused exactly for active and paused jobs |
| Jobs.PathVisits | backend/app/jobs/models.py:34-56 | any path of the table has passed the stages its last status implies, in order |
| Jobs.TableExactly | backend/app/jobs/models.py:34-56 | the whole transition table in four rules: on to the next stage, paused and back, cancelled or failed until it is over, cut off once the plotter is involved |
| Jobs.CompletedVisitsAll | backend/app/jobs/models.py:34-56 | a completed job was preparing, ready, sending, plotting and completing, in that order |
| Worker.HardwareWorker.Submit | backend/app/jobs/worker.py:73-96 | prepare and start are refused exactly while another job holds the lane in a busy state; signals and queue change as the original's do |
| Worker.BusyExactly | backend/app/jobs/worker.py:73-96 | a job holds the lane if and only if it has been taken up and is not over, and may not be deleted if and only if, besides, it has begun to be sent |
| Worker.HardwareWorker.Serve | backend/app/jobs/worker.py:126-148 | the oldest order is served and the lane given up whatever happened |
| Worker.HardwareWorker.DoPrepare | backend/app/jobs/worker.py:150-182 | connection, clip and payload checks; any failure inside marks the job failed |
| Worker.HardwareWorker.StreamJob | backend/app/jobs/worker.py:300-323 | one stream call with its progress hook |
| Worker.HardwareWorker.Finalize | backend/app/jobs/worker.py:213-247 | sentinel, error gate, completion and the clean-up that always raises |
| Worker.HardwareWorker.ResumeStream | backend/app/jobs/worker.py:329-383 | the resumed stream with its own classification of outcomes |
| Worker.HardwareWorker.Start | backend/app/jobs/worker.py:184-267 | the whole start command, every handler included; signals from before it begins to stream are forgotten |
| Lifecycle.StartSends | backend/app/jobs/worker.py:184-267 | the exact job a start of a ready, paused or still-sending job leaves, with every history sound |
| Lifecycle.StartRefused | backend/app/jobs/worker.py:184-214 | a start of any other job streams its payload all the same; the exact job it leaves: a queued one stays queued or becomes failed or cancelled, a terminal one keeps its status |
| Lifecycle.CleanUpFailsQueued | backend/app/jobs/store.py:120-129 | because the history clean-up always raises, a start of a queued job that went well ends failed |
| Lifecycle.TerminalStays | backend/app/jobs/models.py:32-56 | nothing leaves a terminal state |
| Runs.RunKeeps | backend/app/jobs/worker.py:126-148 | over every sequence of commands and every exception path: no job rests preparing, plotting or completing, the streaming flag is down, histories follow the table, completions are proven; and none rests sending if a driver is there whenever a resume begins |
| Runs.CompletedMeansDone | backend/app/jobs/worker.py:213-246 | over every run a completed job visited all stages in order, and right before completion its stream returned normally, the sentinel answered and the error query was zero or unreadable |
| Runs.TerminalForever | backend/app/jobs/models.py:32-56 | over every run a terminal job keeps its state until it is deleted |
| Runs.StartedExactly | backend/app/jobs/worker.py:184-267 | if-and-only-if conditions for each of the six ways a start can end: completed, left sending, paused (cancelled or shut down while waiting, or paused a second time), disconnected, cancelled, failed |
| Runs.SignalsReachJob | backend/app/jobs/worker.py:216-266 | from the signals of the two streams to the job: a cancel met by the first stream leaves it cancelled, a pause paused unless the wait goes on, and then the second stream's signals decide alike; a shutdown alone fails it; no job is cancelled or paused without its signal |
| Runs.StartObeys | backend/app/jobs/worker.py:184-267 | the same for a start command on a ready or paused job in every run |
| Runs.StreamBudgets | backend/app/jobs/worker.py:184-348 | the first stream gives up behind the configured number of retries, a resumed one behind three whatever is configured, and both behind 241 readings without room |
| Runs.ReadyExactly | backend/app/jobs/worker.py:150-182 | a prepare makes a job ready if and only if a plotter is connected and did not refuse the query, all four edges of the paper lie on the limits it answered if it answered, and the payload has a character that is not blank; its counters are then the payload's length and zero, and otherwise it is failed and nothing else of it changes |
| Runs.ReadyReachesPaper | backend/app/services/serial/paper.py:175-185 | after a prepare that compared the limits the plotter reaches every point of the paper exactly, without clamping |
| Runs.PreparedInRun | backend/app/jobs/worker.py:150-182 | the same in every run: a prepare touches only a queued job |
| Runs.BytesAreConserved | backend/app/jobs/worker.py:329-348 | from a ready job: while paused the line has carried exactly the counted prefix, ending at a boundary; once completed exactly the payload |
| Runs.ReadyConserves | backend/app/jobs/worker.py:385-392 | the same for the next start of a ready job in every run |
| Runs.RestartRepeats | backend/app/jobs/worker.py:186-195 | a start of a paused job begins again at the first byte: prefix and payload together are the payload only if nothing had been sent |
| Placement.SafeInsideClip | backend/app/services/pipeline/vpy.py:247-262 | the usable rectangle never leaves the hard clip |
| Placement.PlaceOnPaper | backend/app/services/pipeline/vpy.py:368-445 | scaling, centring and tiling the document in place equal the specification |
| Placement.TileLayer | backend/app/services/pipeline/vpy.py:343-366 | row by row, the original in the first cell and shifted copies in the others |
| Placement.GridCount | backend/app/services/pipeline/vpy.py:343-366 | every layer comes out with exactly rows x cols copies |
| Placement.TileAt | backend/app/services/pipeline/vpy.py:343-366 | where every line of a tiled layer lies: line i of the copy in row r and column c is number (r x cols + c) x lines + i and is the original shifted by c steps across and r steps down |
| Placement.PlacedAt | backend/app/services/pipeline/vpy.py:382-437 | where every point of a placed drawing lies: the grid is centred on the usable rectangle, its cells are one scaled size and one gap apart, and in its cell the point keeps its scaled distance from the artwork's corner |
| Placement.FitIsLargest | backend/app/services/pipeline/vpy.py:382-397 | the scale used at user scale 1 is the largest at which the artwork fits the room; any other is its fraction |
| Placement.OneAxisIsFilled | backend/app/services/pipeline/vpy.py:382-397 | at user scale 1 the artwork fills the room on one axis |
| Placement.SafeIsCentred | backend/app/services/pipeline/vpy.py:225-262 | the usable rectangle is the safe area, no larger than the clip, in the middle of the clip, whose corners are the ends of the plotter's axes |
| Placement.PlacedExactlyWhen | backend/app/services/pipeline/vpy.py:368-437 | placing succeeds always for a single copy with an extent, and for a grid if and only if the copies and gaps fit the room up to a millionth of a millimetre |
| Placement.PlacedInside | backend/app/services/pipeline/vpy.py:382-437 | everything placed lies inside the margins, exactly for one copy and up to half the millionth of a millimetre of grid tolerance for a grid |
| Placement.PlacedNeverClamped | backend/app/services/pipeline/vpy.py:225-244 | every placed point maps to plotter units inside the hard clip when half the grid tolerance stays inside it |
| Placement.PaperNeverClamps | backend/app/services/serial/paper.py:107-153 | which holds on every paper for every margin from 0 to 30 mm and every grid |
| Placement.RefusedGridIsExact | backend/app/services/pipeline/vpy.py:403-419 | the reported maximum grid is exactly the largest that fits, and the request exceeded it |
| Placement.RefusedIsScaled | backend/app/services/pipeline/vpy.py:393-419 | a refused grid leaves the artwork scaled and unmoved |
| Placement.PapersHaveRoom | backend/app/services/serial/paper.py:107-153 | on every paper a margin of at most 30 mm leaves room on both axes |
| Colormap.Grouper.Walk | backend/app/services/pipeline/colormap.py:80-92 | the recursive walk appends each coloured drawable to its colour's bucket |
| Colormap.Analyzer.Walk | backend/app/services/pipeline/analyzer.py:174-184 | the analyzer's walk over the same elements |
| Colormap.GroupByColor | backend/app/services/pipeline/colormap.py:67-125 | layer i is exactly the subsequence of the document's drawables of the i-th colour met; the loose ones are the unstroked children of the root |
| Colormap.EffectiveExactly | backend/app/services/pipeline/colormap.py:46-64 | the effective stroke by position: the deepest element that says anything decides, the attribute goes before the style, an empty value says nothing, and `none` is no stroke |
| Colormap.StyleStrokeExactly | backend/app/services/pipeline/colormap.py:30-43 | a style is cut at its semicolons, and its stroke is the value behind the first colon of the first declaration of one, blanks and case aside |
| Colormap.CaseIsFolded | backend/app/services/pipeline/colormap.py:46-64 | capitals read like small letters, and a text without capitals is kept |
| Colormap.StrokeColors | backend/app/services/pipeline/analyzer.py:161-188 | the analyzer's list is the layer order |
| Colormap.GroupsAre | backend/app/services/pipeline/colormap.py:77-95 | buckets and order after any list of drawables |
| Colormap.LayersPartition | backend/app/services/pipeline/colormap.py:102-113 | the layers together hold exactly as many drawables as the document has coloured ones |
| Colormap.KeptAre | backend/app/services/pipeline/colormap.py:67-125 | for every document: the layers hold exactly the drawables with an effective stroke, the loose ones are exactly the strokeless children of the root, in document order, and every other drawable is lost |
| Colormap.NothingLostExactly | backend/app/services/pipeline/colormap.py:115-120 | layers and loose ones together hold every drawable if and only if no strokeless one lies below the children of the root |
| Colormap.OneLayerEach | backend/app/services/pipeline/colormap.py:80-92 | every coloured drawable is in the layer of its colour and that colour has no other layer |
| Colormap.NestedUnstrokedIsLost | backend/app/services/pipeline/colormap.py:115-120 | every strokeless drawable below the children of the root is lost, and the layers and loose ones are short of it |
| Colormap.ColorPensToLayers | backend/app/services/pipeline/colormap.py:128-146 | unknown colours are an error; otherwise layer k has a pen if and only if its colour has one, and it is that pen |
| Velocity.PipelineOnGrid | backend/app/services/pipeline/vpy.py:280-290 | the result is k x 0.38 with 1 <= k <= 100 or 38.1, at most 0.19 from the request |
| Velocity.OutOfRange | backend/app/services/serial/driver.py:202-213 | below 0.38 and above 38.1 the pipeline takes the nearest end and the driver refuses; in between the driver answers |
| Velocity.PipelineMonotone | backend/app/services/pipeline/vpy.py:280-290 | the pipeline quantiser is monotone |
| Velocity.DriverMonotone | backend/app/services/serial/driver.py:202-213 | the driver quantiser is monotone |
| Velocity.AgreeExactly | backend/app/services/serial/driver.py:202-213 | the two agree if and only if the request is below 37.91; above they give 38.1 and 38.0 |
| Velocity.TwiceChangesExactly | backend/app/services/pipeline/vpy.py:280-290 | quantising twice changes the result if and only if the request is at least 37.81 and below 37.91 |

## Left out

- Routes, web socket hub, database, file registry, port discovery and the user interface: plumbing.
- Threads, pseudo-terminals and wall-clock time: the line and the plotter are interleaved step by step,
  waiting is counted in polls.
- Interrupt reasons are tags; the original looks for words in messages, so a message that happens to
  contain "paused" or "cancelled" is not modelled.
- Text is ASCII, one character a byte; the white space of the model is blank, tab, line feed, vertical
  tab, form feed and carriage return.
- Number texts with exponents, infinities or underscores, which the emulator's float conversion takes,
  are unreadable here; coordinates are exact, not floating point.
- Emulator.ScheduleIndependence: stated for upper-case programs of IN, DF, SP, bare and absolute movers with
  plain decimal pairs of fewer than 64 characters; PR, where it fails, is in Relative.ScheduleFreeExactly,
  and the log of any accepted payload in Delivery.PlayFollows and Liveness.CompletesExactly.
- FakePlotter.WorkConserves: a mover abandoned at a letter, or one entered in lower case, is excluded because
  the executor then drops or rewrites bytes (FakePlotter.WorkConservesExactly); so in FakePlotter.PlayConserves.
- Acceptance.AcceptedIsConserved: movers in capitals, for the same reason.
- The emulator's fault-injection reply modes and its optional execution delay.
- Link.NoOverflow: counts stale replies by how many queries are outstanding; a plotter that answers with
  wrong numbers is not modelled.
- Link.StepKeeps: the plotter may pop any number of bytes, so popping at instruction boundaries is not used.
- LinkLimit.MarginIsExact: the shortage is shown for configurations with at least one retry, as shipped; that
  the margin suffices holds for any.
- PdSplit.SplitPreservesPlot: no over-long text behind the last terminator, which the splitter terminates and
  the validator refuses.
- PdSplit.FieldsKeptExactly: whole second coordinates; a decimal one shifts the search for the pairs behind it,
  and what then happens to be found is compared as a whole (PdSplit.PlotKeptExactly).
- SplitVerdict.SplitPreservesVerdict: stated for commands that are short or whose numbers are all found, the
  ones whose plot survives (PdSplit.PlotKeptExactly).
- Soundness.AcceptedStaysNear: payloads with arcs or the home move are outside the plot semantics; their points
  are in Rules.AcceptedExactly.
- Agreement.PlotterFollowsValidator: absolute movers in capitals; relative mode, where the two differ, is in
  Agreement.RelativeModeAgreesWhen, and hidden motion in Agreement.InStepExactly. Position only (pen and
  pen state are in Plotting.PlotterFollowsPlot); after `SP0` the validator counts the pen as up while the
  emulated plotter leaves it as it was.
- Plotting.PlotterFollowsPlot: instructions both sides read alike: no blank in front, pens as whole numbers,
  absolute movers inside the clip; the plot semantics does not draw arcs and labels, and neither does the
  emulated plotter.
- Plotting.WrittenJobIsDrawn: jobs without a velocity instruction, as for WriterAccepted.WriterAccepted.
- WriterAccepted.WriterAccepted: jobs without a velocity instruction, whose number formatting is not modelled.
- Writer.BuildHpgl: the park position and the text of a velocity are inputs.
- Completion.CompletePlot: the deadline is the number of reads made before it; failing writes are not modelled.
- Completion.CompletionIsSound: the line carries the sentinel and the polls to the executor complete;
  Completion.PollsFitExactly says when bytes can be dropped.
- Liveness.CompletesExactly: about runs that have come to rest, which some schedule always does
  (Schedules.ComesToRest); that rounds keep coming is left to the scheduler.
- Worker.HardwareWorker.Start: commands run one at a time; between them jobs can be created, deleted and given
  their payload, and a job being deleted while the worker streams it is not modelled (deletion is refused
  while it is active).
- Worker.HardwareWorker.Serve: the device reset order changes no job and is skipped.
- Progress events to clients, their throttling and job statistics.
- Transport.SerialTransport.Write: the deadline is a number of writes that took nothing.
- Placement.PlaceOnPaper: bounds are an input that contains the artwork; lengths are millimetres throughout,
  and the optional travel sort, rotation and page size are not modelled.
- Colormap.GroupByColor: elements are trees with stroke attribute and style; names, namespaces and
  serialisation are not modelled, and a drawable inside a drawable is also part of its parent's copy.
- Velocity.DriverMonotone: rounding the driver's result to two decimals is the identity on its exact values.
- The pipeline's own copy of the splitter, vectorising, conversion, sanitising and the geometry library.
- The exclusive use of the port by the device manager while streaming.
