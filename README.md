# fine100 core in Dafny

A model of the sequential core of fine100, a two-thread audio installation
that keeps an archive of captured sounds and plays them back reworked:

- **Capture engine** (`input_system.dfy`, `ring.dfy`). The shared record
  `ASys` holds MAX_NUM_REC recording slots of RECORDING_SIZE samples, the
  write index `rec_idx`, the saturating count `rec_csz`, and the pre-roll
  ring of IDLE_BUFSZ samples with its position `idle_buf_idx`. Every
  period of input goes into the ring. A trigger copies the ring, oldest
  sample first, into slot `rec_idx`, fills the rest of the slot through
  `fine_input_write_until`, and commits the slot. The preload fills the
  first slots from the files `data/0.raw`, `data/1.raw`, ….
- **Render engine** (`output_system.dfy`). `gen_indices` and
  `gen_samples` fill the pick arrays. Each pick distance maps to the slot
  `(rec_idx - 1 - d) mod MAX_NUM_REC`. `render_recordings` lays the
  amplified, compressed and faded segments end to end, then runs the reverberator
  over the segments and the tail. `fine_output_read_until` plays the
  buffer period by period, with a latched fade-out that lowers the gain
  by 0.125 per pass.
- **Effects** (`fx.dfy`, `reverb.dfy`). These are the clipping amplifier
  and the linear fader of `fine_fx.c`, and the Freeverb reverberator of
  `fine_fx_reverb.c`: eight comb and four allpass circular delay lines,
  its initialisation, its coefficient update and the 16-bit clamp.

Imperative code stays imperative:

- `ASys`, `Recording`, `ReverbModel`, `CombFilter` and `AllpassFilter`
  are classes whose methods update their fields and arrays in place.
- The effects and the render loop work on `array<int>` sample buffers.
- Most methods are proved against a pure function of the old state.
  Examples: `Amplified`, `Faded`, `Run`, `Laid`, `Play`, `RingWrite`,
  `Rotation` and the outcome function `ReadUntil`.
- The properties the program relies on are lemmas about those functions.

Things outside the program's own logic become inputs:

- The capture device delivers a given sequence of blocks, each with the
  decision of the lower EMA detector.
- The playback device accepts a given number of frames per pass.
- The other thread's `fade_out` flag is a given boolean per pass.
- `rand()` draws become parameters (`gains`, `r1`, `r2` of `Render`).
- Each detector and cool-down decision of the capture thread is a given
  boolean.
- MAX_NUM_REC, RECORDING_SIZE and IDLE_BUFSZ are not defined in the
  repository's sources. Here they are a `Params` value with
  `MAX_NUM_REC >= 2` and `0 < IDLE_BUFSZ <= RECORDING_SIZE`, and every
  capture period is at most IDLE_BUFSZ samples. The last condition is the
  assertion at `src/fine_audio_io_input_system.c:147`.

Floats are modelled as exact reals. Only the conversions back to a
sample follow C:

- the truncating cast (`Numerics.Trunc`);
- `roundf`, which rounds halves away from zero (`Numerics.RoundHalfAway`);
- the int16 clamp (`Numerics.Saturate`, `Reverb.OutputSample`).

The render model follows three facts about the code:

- `render_recordings` copies the segments back to back. One reverberator
  pass then runs over all of them and the tail that follows, which the
  loop does not clear.
- The fader is called with in = out = 48000 (`FADE_LEN`).
- `Recording` is the record `{sz, data[RECORDING_SIZE]}` the `.c` files
  use, not the flexible array of `fine_definitions.h`.

## Model

| member | source | states |
|---|---|---|
| Numerics.Trunc | src/fine_fx_reverb.c:171 | the C float-to-integer cast: the result lies within 1 of x on the side of zero |
| Numerics.RoundHalfAway | src/fine_fx.c:29 | roundf: the result lies within 1/2 of x, with halves rounded away from zero |
| Numerics.Saturate | src/fine_fx.c:15-16 | the clip lands in the int16 range, is the identity inside it, and gives the bound beyond it |
| Numerics.TruncSaturated | src/fine_fx.c:14-17 | a clipped sample stored by the cast is an int16 value |
| Numerics.TruncWithin | src/fine_fx_reverb.c:163-171 | truncation keeps a value inside an integer interval around zero |
| Numerics.TruncShrinks | src/fine_audio_io_output_system.c:55 | the cast never yields a sample larger in magnitude than the bound it was scaled within |
| Numerics.RoundShrinks | src/fine_fx.c:28-29 | roundf of a value within an integer's magnitude stays within it |
| Numerics.ScaledWithin | src/fine_fx.c:27-28 | a sample times a gain in [0, 1] is no larger in magnitude than the sample |
| Ring.NextSlotIsMod | src/fine_audio_io_input_system.c:216 | the wrapped successor of a ring position is (i + 1) mod n |
| Ring.AdvanceIsMod | src/fine_audio_io_input_system.c:216 | k commits move the write index k places on, mod MAX_NUM_REC |
| Ring.OffsetUnique | src/fine_audio_io_input_system.c:180 | only position (start + i) mod n lies i places ahead of start |
| Ring.RingWrite | src/fine_audio_io_input_system.c:178-181 | the ring after a block write keeps its length |
| Ring.Rotation | src/fine_audio_io_input_system.c:203-205 | the pre-roll read from a ring position has the ring's length |
| Ring.RingWriteAt | src/fine_audio_io_input_system.c:180 | block sample i lands at (bufidx + i) mod IDLE_BUFSZ |
| Ring.RingWriteKeeps | src/fine_audio_io_input_system.c:178-181 | a position that no block sample maps to keeps its sample |
| Ring.PrerollAfterWrite | src/fine_audio_io_input_system.c:169-181 | after a period is written and idle_buf_idx advanced, the pre-roll read oldest first is the old pre-roll minus its oldest samples, followed by the new period |
| Ring.PrerollAt | src/fine_audio_io_input_system.c:169-181 | PrerollAfterWrite at one position of the pre-roll |
| InputSystem.Delivered | src/fine_audio_io_input_system.c:94-96 | a read returns at most toread frames, a prefix of what the device has, and all toread frames when the device has them |
| InputSystem.ReadUntil | src/fine_audio_io_input_system.c:80-136 | fine_input_write_until as a function of the device's answers: the count returned never exceeds the samples stored, which never exceed sz |
| InputSystem.NoStopCountsAll | src/fine_audio_io_input_system.c:125-135 | without an early stop every stored sample is counted |
| InputSystem.StopDiscardsBlock | src/fine_audio_io_input_system.c:125-128 | on an early stop, the block that drops the EMA is stored but not counted |
| InputSystem.LoudCaptureFillsSlot | src/fine_audio_io_input_system.c:91-135 | when every read returns a full period and none stops, the whole space is stored and counted |
| InputSystem.ReadStep | src/fine_audio_io_input_system.c:114-130 | one read either ends the call (an EMA drop) or is stored and counted, an empty read included, as the call goes on |
| InputSystem.Started | src/fine_audio_io_input_system.c:82 | before the first read the outcome still ahead is the whole call |
| InputSystem.Finished | src/fine_audio_io_input_system.c:91 | with nothing left, the call's outcome is what has been stored |
| InputSystem.StoreFrames | src/fine_audio_io_input_system.c:96 | snd_pcm_readi stores the frames right after those already stored; nothing else in the buffer changes |
| InputSystem.ReadPeriod | src/fine_audio_io_input_system.c:94-130 | one pass of the read loop is one step of ReadUntil: the outcome ahead is preserved, or the call ends with the buffer as ReadUntil says |
| InputSystem.InputWriteUntil | src/fine_audio_io_input_system.c:80-136 | the count returned is ReadUntil's (at most sz); the stored samples lie from base on, and the rest of the buffer is unchanged |
| InputSystem.CopyPreroll | src/fine_audio_io_input_system.c:203-205 | slot sample i is ring sample (idle_buf_idx + i) mod IDLE_BUFSZ, the rest of the slot untouched |
| InputSystem.LoadInto | src/fine_audio_io_input_system.c:66-68 | fread places the samples from index 0; the rest of the slot is untouched |
| InputSystem.Recording.constructor | src/fine_audio_io_input_system.c:26 | a calloc'd slot: length 0 and zero samples |
| InputSystem.Recording.Load | src/fine_audio_io_input_system.c:66-68 | the slot holds exactly the samples read and sz is their number |
| InputSystem.Recording.Fill | src/fine_audio_io_input_system.c:203-210 | the slot gets the pre-roll oldest first and then what fine_input_write_until stores; sz = IDLE_BUFSZ + count <= RECORDING_SIZE |
| InputSystem.ASys.constructor | src/fine_audio_io_input_system.c:20-33 | the zero-initialised record: every index and count 0, zeroed ring and slots, pairwise distinct buffers |
| InputSystem.ASys.LoadSlot | src/fine_audio_io_input_system.c:55-69 | the fread of one preload pass: file k goes into slot k truncated to RECORDING_SIZE, the other slots unchanged |
| InputSystem.ASys.PreloadFileAsWritten | src/fine_audio_io_input_system.c:55-74 | one preload pass as written: file k into slot k, then rec_idx = rec_csz = k + 1 |
| InputSystem.ASys.PreloadAsWritten | src/fine_audio_io_input_system.c:50-75 | the preload loop as written: slots 0 .. n-1 hold the first n files truncated, n = min(files, MAX_NUM_REC), rec_idx = rec_csz = n; with fewer files than slots the record is sound, with a file for every slot rec_idx = MAX_NUM_REC is past the last slot and the record is not sound |
| InputSystem.ASys.PreloadFile | src/fine_audio_io_input_system.c:55-74 | one pass of the corrected preload (second Findings row): file k into slot k truncated, rec_csz = k + 1, and rec_idx moves to the next slot mod MAX_NUM_REC where the code sets k + 1 |
| InputSystem.ASys.Preload | src/fine_audio_io_input_system.c:50-75 | the corrected preload (second Findings row): the slots and rec_csz as the code leaves them, and rec_idx = n mod MAX_NUM_REC where the code leaves n |
| InputSystem.ASys.WriteIdle | src/fine_audio_io_input_system.c:169-181 | idle_buf_idx advances by the period mod IDLE_BUFSZ; the ring is RingWrite of the block; the pre-roll shifts by the period |
| InputSystem.ASys.Capture | src/fine_audio_io_input_system.c:203-224 | slot rec_idx gets the pre-roll and the captured samples with sz = IDLE_BUFSZ + count; no other slot changes; then the commit |
| InputSystem.ASys.Commit | src/fine_audio_io_input_system.c:216-224 | rec_idx' = (rec_idx + 1) mod MAX_NUM_REC, rec_csz' = min(rec_csz + 1, MAX_NUM_REC), play on and fade_out off |
| InputSystem.ASys.InputIteration | src/fine_audio_io_input_system.c:166-232 | one pass of the capture loop: the ring is RingWrite of the period at the old idle_buf_idx; playback stopped once the cool-down elapsed; on a trigger, the capture of the shifted pre-roll, the slot untouched past the samples stored, and the commit; otherwise archive metadata unchanged |
| InputSystem.ASys.Pass | src/fine_audio_io_input_system.c:166-233 | one pass keeps rec_idx and rec_csz equal to the start values advanced by the captures so far |
| InputSystem.ASys.RunInputThread | src/fine_audio_io_input_system.c:166-233 | after a run, rec_idx has moved on once per capture mod MAX_NUM_REC, and rec_csz has grown once per capture up to MAX_NUM_REC |
| Fx.AmplifySample | src/fine_fx.c:14-17 | an amplified sample is int16, is the bound when x*gain passes it, and is x itself at gain 1 |
| Fx.Amplified | src/fine_fx.c:12-19 | the buffer after fine_fx_amplify keeps its length |
| Fx.AmplifiedInRange | src/fine_fx.c:13-17 | every amplified sample is int16, and samples from sz on are untouched |
| Fx.AmplifyUnity | src/fine_fx.c:14-17 | gain 1 leaves an int16 buffer unchanged |
| Fx.AmplifiedSplit | src/fine_fx.c:13 | the amplifier depends only on the first sz samples and leaves the rest alone |
| Fx.Amplify | src/fine_fx.c:12-19 | fine_fx_amplify on data + off turns those samples into Amplified and leaves the samples before off alone |
| Fx.Div | src/fine_fx.c:27 | the float quotient of two sizes: finite, +inf for x/0 with x > 0, NaN for 0/0 |
| Fx.MinOf | src/fine_fx.c:27 | P99_MINOF(a, b) = a < b ? a : b, the second operand whenever the comparison fails |
| Fx.FadeGainAsWritten | src/fine_fx.c:27 | the gain as written is one of the two ramp quotients |
| Fx.FadeGainNaN | src/fine_fx.c:27 | with out = 0 and in >= sz, the last sample's gain is NaN |
| Fx.FadeGain | src/fine_fx.c:24-27 | the intended gain lies in [0, 1) and under the ramp of each zone the sample is in |
| Fx.FadeGainAgrees | src/fine_fx.c:24-27 | the gain as written is NaN exactly in the out = 0 last-sample case, and equals FadeGain everywhere else |
| Fx.ScaleRound | src/fine_fx.c:28-29 | roundf(x * g) for a gain in [0, 1] never grows in magnitude |
| Fx.FadeSample | src/fine_fx.c:23-30 | outside the zones a sample is unchanged; inside, it never grows and stays int16 |
| Fx.Faded | src/fine_fx.c:22-32 | the buffer after fine_fx_fade_linear keeps its length |
| Fx.FadeKeepsMiddle | src/fine_fx.c:24-26 | samples with in <= i < sz - out, and from sz on, are unchanged |
| Fx.FadeNoneIsIdentity | src/fine_fx.c:24-26 | in = out = 0 leaves the buffer unchanged |
| Fx.FadeInSilencesFirst | src/fine_fx.c:24-29 | with in > 0, sample 0 becomes 0 |
| Fx.FadeOutSilencesLast | src/fine_fx.c:25-29 | with 0 < out <= sz, sample sz - 1 becomes 0 |
| Fx.FadeShrinks | src/fine_fx.c:27-29 | no faded sample grows in magnitude, so an int16 buffer stays int16 |
| Fx.FadedSplit | src/fine_fx.c:23 | the fader depends only on the first sz samples and leaves the rest alone |
| Fx.Compress | src/fine_audio_io_output_system.c:113 | fine_fx_compress on data + off: those sz samples become the compressor's image of themselves, the samples before and after them are unchanged |
| Fx.FadeLinear | src/fine_fx.c:22-32 | fine_fx_fade_linear on data + off turns those samples into Faded and leaves the samples before off alone |
| Reverb.CombStep | src/fine_fx_reverb.c:45-60 | comb_process returns the cell at bufidx; the store becomes output*damp2 + store*damp1 and the cell input + store*feedback; bufidx advances by one mod bufsize; no other cell changes; the coefficients are kept |
| Reverb.AllpassStep | src/fine_fx_reverb.c:66-79 | allpass_process returns bufout - input for bufout the cell at bufidx, and the cell becomes input + bufout*feedback; bufidx advances by one mod bufsize; no other cell changes; the feedback is kept |
| Reverb.CombSilence | src/fine_fx_reverb.c:48-59 | a silent comb fed 0 outputs 0 and stays silent |
| Reverb.AllpassSilence | src/fine_fx_reverb.c:69-78 | a zeroed allpass fed 0 stays zeroed |
| Reverb.CombRun | src/fine_fx_reverb.c:45-60 | a run of comb steps keeps the delay line's length and a valid position |
| Reverb.CombRunPosition | src/fine_fx_reverb.c:56-58 | after k inputs the comb's bufidx has moved k places mod bufsize |
| Reverb.Mix.Output | src/fine_fx_reverb.c:157-171 | the sample written back is int16 |
| Reverb.CombBank | src/fine_fx_reverb.c:146-148 | the comb loop steps combs 0 .. k-1 and leaves the others as they were |
| Reverb.CombBankNext | src/fine_fx_reverb.c:146-148 | the bank of k+1 combs is comb k stepped on the input after the first k, its output added to the running sum, the other combs unchanged |
| Reverb.AllpassChain | src/fine_fx_reverb.c:151-153 | the allpass loop steps filters 0 .. k-1 in series and leaves the others as they were |
| Reverb.OutputSample | src/fine_fx_reverb.c:161-171 | the clamp and cast give an int16 sample, within ±32767 for a signal in [-1, 1] |
| Reverb.SampleStep | src/fine_fx_reverb.c:135-171 | one sample through the reverberator keeps the lines valid and writes an int16 sample |
| Reverb.Run | src/fine_fx_reverb.c:130-173 | fine_fx_reverb over k samples writes k int16 samples |
| Reverb.WriteBack | src/fine_fx_reverb.c:171 | overwriting position i of the written prefix followed by the unread input extends the prefix by the new value and leaves the rest of the input |
| Reverb.RunWritesBack | src/fine_fx_reverb.c:171 | writing sample i back in place extends the written prefix by one, the rest untouched |
| Reverb.CombBankSilence | src/fine_fx_reverb.c:146-148 | silent combs fed 0 sum to 0 and stay silent |
| Reverb.AllpassChainSilence | src/fine_fx_reverb.c:151-153 | zeroed allpasses fed 0 output 0 and stay zeroed |
| Reverb.SampleSilence | src/fine_fx_reverb.c:137-171 | silent lines fed a 0 sample write 0 and stay silent |
| Reverb.SilenceIn | src/fine_fx_reverb.c:130-173 | from silent lines, all-zero input gives all-zero output and silent lines |
| Reverb.CombCoefficients | src/fine_fx_reverb.c:30-32 | the affine map feedback = 0.7 + 0.28*roomsize, damp1 = 0.4*damp, damp2 = 1 - damp1 |
| Reverb.CoefficientsInRange | src/fine_fx_reverb.c:30-32 | for parameters in [0, 1], feedback in [0.7, 0.98] (below 1), damp1 in [0, 0.4], damp2 in [0.6, 1] |
| Reverb.Retune | src/fine_fx_reverb.c:35-37 | a comb with new coefficients and its delay line, position and store untouched |
| Reverb.Retuned | src/fine_fx_reverb.c:34-38 | every comb retuned, the allpasses untouched |
| Reverb.MixOf | src/fine_fx_reverb.c:25-27 | gain = 0.015, wet_scaled = wet*3, dry_scaled = dry*2 |
| Reverb.CombFilter.constructor | src/fine_fx_reverb.c:87-98 | a zeroed comb of bufsize cells at position 0 |
| Reverb.CombFilter.Process | src/fine_fx_reverb.c:45-60 | comb_process in place is CombStep of the old state |
| Reverb.AllpassFilter.constructor | src/fine_fx_reverb.c:100-105 | a zeroed allpass of bufsize cells at position 0 |
| Reverb.AllpassFilter.Process | src/fine_fx_reverb.c:66-79 | allpass_process in place is AllpassStep of the old state |
| Reverb.ReverbModel.StepComb | src/fine_fx_reverb.c:147 | comb j steps as CombStep; every other line is unchanged |
| Reverb.ReverbModel.StepAllpass | src/fine_fx_reverb.c:152 | allpass j steps as AllpassStep; every other line is unchanged |
| Reverb.ReverbModel.RunCombs | src/fine_fx_reverb.c:146-148 | the comb loop in place is CombBank over all eight combs |
| Reverb.ReverbModel.RunAllpasses | src/fine_fx_reverb.c:151-153 | the allpass loop in place is AllpassChain over all four allpasses |
| Reverb.ReverbModel.ProcessSample | src/fine_fx_reverb.c:135-171 | one sample in place is SampleStep of the old lines under the current mix |
| Reverb.ReverbModel.ProcessAt | src/fine_fx_reverb.c:133-172 | sample i is replaced by SampleStep's output; all the others are unchanged |
| Reverb.ReverbModel.Process | src/fine_fx_reverb.c:130-173 | fine_fx_reverb: the first sz samples become Run's output, the rest is unchanged, and the lines are Run's |
| Reverb.ReverbModel.Reverberate | src/fine_audio_io_output_system.c:135-136 | reverb_set_params then fine_fx_reverb: Run of the retuned lines under the new mix; the parameters are stored |
| Reverb.ReverbModel.constructor | src/fine_fx_reverb.c:84-120 | reverb_init: buffers as long as the tunings, all silent at position 0, allpass feedback 0.5, roomsize = damp = 0.5, wet = 1/3, dry = 0, and the coefficients those give |
| Reverb.ReverbModel.Link | src/fine_fx_reverb.c:107-119 | on silent, linked lines and the initial parameters: every allpass feedback becomes 0.5, then reverb_update gives the mix MixOf(1/3, 0) and every comb CombCoefficients(0.5, 0.5); the lines stay silent at position 0 |
| Reverb.ReverbModel.NewLines | src/fine_fx_reverb.c:84-105 | eight combs and four allpasses on fresh zeroed buffers as long as the tunings, all distinct, at position 0 |
| Reverb.ReverbModel.NewCombs | src/fine_fx_reverb.c:89-98 | eight fresh, distinct, zeroed combs with the comb tunings |
| Reverb.ReverbModel.NewAllpasses | src/fine_fx_reverb.c:100-105 | four fresh, distinct, zeroed allpasses with the allpass tunings |
| Reverb.ReverbModel.FixAllpassFeedback | src/fine_fx_reverb.c:107-110 | every allpass feedback becomes 0.5; nothing else changes |
| Reverb.ReverbModel.SetAllpassFeedback | src/fine_fx_reverb.c:109 | the feedback of allpass j becomes 0.5; nothing else changes |
| Reverb.ReverbModel.TuneComb | src/fine_fx_reverb.c:35-37 | comb j is retuned; nothing else changes |
| Reverb.ReverbModel.Update | src/fine_fx_reverb.c:23-39 | reverb_update: the mix is MixOf(wet, dry) and every comb is retuned to CombCoefficients(roomsize, damp); delay lines untouched |
| Reverb.ReverbModel.SetParams | src/fine_fx_reverb.c:122-128 | the four values are stored exactly, then the coefficients are recomputed from them |
| OutputSystem.Written | src/fine_audio_io_output_system.c:77-83 | gen_indices writes entry 0 always and every entry below num |
| OutputSystem.GenIndices | src/fine_audio_io_output_system.c:74-84 | arr[i] = i for i below max(num, 1); every other entry unchanged; num <= OPT_NUM_RECORDINGS |
| OutputSystem.GenSamples | src/fine_audio_io_output_system.c:89-95 | all OPT_NUM_RECORDINGS entries become max_num |
| OutputSystem.SlotOf | src/fine_audio_io_output_system.c:102-109 | the slot (rec_idx - 1 - d) mod MAX_NUM_REC lies in [0, MAX_NUM_REC) |
| OutputSystem.SlotIsDistance | src/fine_audio_io_output_system.c:102-109 | the slot read is d + 1 places behind rec_idx: the recording d before the newest |
| OutputSystem.SafetyRule | src/fine_audio_io_output_system.c:75 | a pick reads the slot being written iff its distance is MAX_NUM_REC - 1 mod MAX_NUM_REC |
| OutputSystem.SlotAsWritten | src/fine_audio_io_output_system.c:102-109 | the slot with the size_t wrap of rec_idx - 1 - d lies in [0, MAX_NUM_REC) |
| OutputSystem.SlotAsWrittenAgrees | src/fine_audio_io_output_system.c:102-109 | without a wrap the code's slot is SlotOf |
| OutputSystem.SlotAsWrittenWraps | src/fine_audio_io_output_system.c:102-109 | with three slots and rec_idx 0 the code reads slot 0 (being written), not slot 2 |
| OutputSystem.FullArchivePicksAsWritten | src/fine_audio_io_output_system.c:163 | gen_indices(rec_csz) overruns the 10 entries once a full archive has more than 10 slots, and picks the slot being written once it has at most 10 |
| OutputSystem.PickCount | src/fine_audio_io_output_system.c:163 | the intended count is at most rec_csz, OPT_NUM_RECORDINGS and MAX_NUM_REC - 1 |
| OutputSystem.PickCountIsSafe | src/fine_audio_io_output_system.c:75 | every distance gen_indices writes for PickCount is below MAX_NUM_REC - 1 and never reads the slot being written |
| OutputSystem.Segment | src/fine_audio_io_output_system.c:109-115 | a segment (amplified, compressed, faded) keeps the length of the samples copied |
| OutputSystem.OffMonotone | src/fine_audio_io_output_system.c:124 | ind_towrite never decreases along the segments |
| OutputSystem.Place | src/fine_audio_io_output_system.c:109 | memcpy: the segment sits at [at, at + len) and every other sample is unchanged |
| OutputSystem.Laid | src/fine_audio_io_output_system.c:105-125 | the buffer after k segments keeps its length |
| OutputSystem.LaidAt | src/fine_audio_io_output_system.c:109-124 | segment j sits at [Off(j), Off(j) + ns[j]), no later segment overwrites it, and from Off(k) on the buffer is unchanged |
| OutputSystem.LaidSegment | src/fine_audio_io_output_system.c:109-124 | one sample of LaidAt's second property |
| OutputSystem.LaidKeeps | src/fine_audio_io_output_system.c:109-124 | one sample of LaidAt's third property |
| OutputSystem.FullSegmentsFit | src/fine_audio_io_output_system.c:154-164 | with every segment RECORDING_SIZE long, the length is exactly NUM_TAIL_SAMPLES + RECORDING_SIZE * count |
| OutputSystem.FullOffsets | src/fine_audio_io_output_system.c:124 | with equal lengths, segment k starts at size * k |
| OutputSystem.CopySegment | src/fine_audio_io_output_system.c:109 | the memcpy places src[..n] at off |
| OutputSystem.LaySegment | src/fine_audio_io_output_system.c:109-114 | one pass places the amplified, compressed and faded segment at off; the rest is unchanged |
| OutputSystem.Segments | src/fine_audio_io_output_system.c:105-118 | segment i is the first ns[i] samples of the slot indices[i] places behind the newest, amplified, compressed and faded |
| OutputSystem.LaidNext | src/fine_audio_io_output_system.c:109-124 | placing segment i over the first i segments lays the first i + 1 |
| OutputSystem.LaidTail | src/fine_audio_io_output_system.c:127 | past the laid segments the buffer, tail included, is unchanged |
| OutputSystem.LayAll | src/fine_audio_io_output_system.c:105-125 | the loop's buffer is Laid of the Segments (amplified, compressed, faded) at running offsets; ind_towrite ends at the sum of the lengths |
| OutputSystem.Render | src/fine_audio_io_output_system.c:100-138 | returns sum(num_samples) + tail; the first n samples are the reverberator's Run over the laid segments (amplified, compressed, faded) and the uncleared tail, with room = wet = r1, damp = r2, dry = 1 - r1; the rest of data is unchanged |
| OutputSystem.Scaled | src/fine_audio_io_output_system.c:54-56 | the buffer with a range scaled keeps its length |
| OutputSystem.FadeFrameShrinks | src/fine_audio_io_output_system.c:54-56 | with a gain in [0, 1] a scaled frame lies between 0 and the frame, so an i16 frame stays i16 |
| OutputSystem.ScaledStaysI16 | src/fine_audio_io_output_system.c:54-56 | scaling i16 frames by a gain in [0, 1] keeps the whole buffer i16 |
| OutputSystem.ScaledStep | src/fine_audio_io_output_system.c:54-56 | scaling one more frame extends the scaled range by one |
| OutputSystem.Scale | src/fine_audio_io_output_system.c:54-56 | the scaling loop in place is Scaled of the old buffer |
| OutputSystem.PassLength | src/fine_audio_io_output_system.c:34-39 | a pass writes at most left, per_write and what the device accepts, and writes something when all three are positive |
| OutputSystem.Pass | src/fine_audio_io_output_system.c:27-58 | a pass lowers left by the frames written |
| OutputSystem.Play | src/fine_audio_io_output_system.c:27-58 | the loop never raises left and keeps the buffer's length |
| OutputSystem.StartConsistent | src/fine_audio_io_output_system.c:20-26 | the start state satisfies the loop invariant Consistent |
| OutputSystem.PlayedExtends | src/fine_audio_io_output_system.c:33-35 | the frames a pass writes to the device extend the unscaled prefix the device already has |
| OutputSystem.TailKept | src/fine_audio_io_output_system.c:51-57 | past the frames a pass writes and fades, the buffer still holds the untouched samples |
| OutputSystem.PassConsistent | src/fine_audio_io_output_system.c:27-58 | a pass under the loop condition keeps Consistent: gain = 1 - 0.125 per fading pass, at most 8 of them, the device has the unscaled prefix, and the rest of the buffer is untouched |
| OutputSystem.PlayConsistent | src/fine_audio_io_output_system.c:27-58 | the whole loop keeps Consistent |
| OutputSystem.FadeCountdown | src/fine_audio_io_output_system.c:26-31 | at most 8 fading passes, final gain 1 - 0.125 per fading pass, and fading only once latched |
| OutputSystem.PlayStops | src/fine_audio_io_output_system.c:27-58 | when every pass writes a frame, the loop ends with left = 0 or after the 8th fading pass with gain 0 |
| OutputSystem.FadeIsInaudible | src/fine_audio_io_output_system.c:39-57 | as written, the device receives exactly the buffer as it was at the call, whatever the fade |
| OutputSystem.PlayWithoutFade | src/fine_audio_io_output_system.c:27-58 | with no fade request, all frames are played unscaled and the buffer is unchanged |
| OutputSystem.LatchNeedsRequest | src/fine_audio_io_output_system.c:28-31 | do_fade ends set only if some pass saw fade_out |
| OutputSystem.RequestLatches | src/fine_audio_io_output_system.c:28-31 | a request seen at a pass that runs latches do_fade for good |
| OutputSystem.ReadPass | src/fine_audio_io_output_system.c:28-58 | one pass of the loop in place is Pass of the old state |
| OutputSystem.ReadUntil | src/fine_audio_io_output_system.c:18-63 | fine_output_read_until: buffer, frames played and fade_out cleared are those of Play from the start state |
| OutputSystem.PassFaded | src/fine_audio_io_output_system.c:39-57 | the corrected pass (scale, then write) lowers left and keeps the buffer's length |
| OutputSystem.PlayFaded | src/fine_audio_io_output_system.c:27-58 | the corrected loop never raises left |
| OutputSystem.PlayFadedHearsFade | src/fine_audio_io_output_system.c:39-57 | with the corrected order the device receives the buffer as faded, and the buffer, gain, latch and left follow the loop as written |
| OutputSystem.PlayAgreesBesidesPlayed | src/fine_audio_io_output_system.c:27-58 | what has been played does not affect the buffer, gain, latch or left |
| OutputSystem.FadeUnheard | src/fine_audio_io_output_system.c:39-57 | two frames of 8, one per pass, fade from the first: as written the device gets 8, 8 and the buffer ends 7, 6; corrected, the device gets 7, 6 |

## Left out

- ALSA: device setup and the `snd_pcm_*` calls. The capture device is a sequence of `Block` answers and the playback device a sequence of `Chunk` answers. A failed read or write that is retried is collapsed into the next successful answer. When the answers run out, `InputWriteUntil` and `OutputSystem.ReadUntil` stop. The program would block there instead.
- Threads, mutexes, condition variables and the atomics `play`, `fade_out` and `stopped`. They are fields or inputs of the sequential steps. The two threads are not interleaved.
- `fine_thread_output`'s loop is not a method: waiting for `play`, locking, and calling the steps in order. Each step is modelled (`GenIndices`, `GenSamples`, `Render`, `OutputSystem.ReadUntil`), and `FullSegmentsFit` states the buffer size it allocates.
- The EMA detectors, their thresholds, and the `clock_gettime` cool-down. Each decision is a boolean input (`Block.emaBelow`, `InputStep.triggered`, `InputStep.cooldownElapsed`). The warm-up read is left out.
- The arithmetic of `fine_fx_compress` (envelope follower and gain computer, in `expf`, `powf` and `lrintf`). The render loop's call of it between the amplifier and the fader is modelled: `Segment`, `Segments`, `LaySegment`, `LayAll` and `Render` take the compressor as a parameter `compress`, and `Fx.IsCompressor` asks only that it map a block to a block of the same length. Nothing is proved about what it does to the samples, such as keeping them int16.
- The `undenormalise` macro, which flushes denormal floats to zero. It is the identity on reals.
- `rand()`. The amplifier gains and the reverb parameters r1 and r2 are parameters of `Render`.
- File reading in the preload. `files[k]` is the samples of `data/k.raw`. The odd-length warning and the logging are left out.
- Float rounding of intermediate results. Floats are exact reals. The float sums and products of the reverberator and of `4*ampfac/RAND_MAX` are therefore exact.
- InputSystem.InputWriteUntil: requires per_read >= 1. The source reads ALSA's period size, which is always positive.
- OutputSystem.GenIndices: requires num <= OPT_NUM_RECORDINGS, the size of the array. The call with `rec_csz` in `fine_thread_output` can break this (see Findings).
- OutputSystem.Segment, OutputSystem.Laid, OutputSystem.Scaled, Ring.RingWrite, Ring.Rotation, Fx.Amplified, Fx.Faded and Reverb.Run: their own ensures state only lengths and bounds. The pointwise meaning is in the lemmas and methods beside them.
- OutputSystem.ReadUntil: models the buffer and the frames played exactly, but not the logging. The fade-out flag's clear is the `cleared` result, not a shared variable.
- Fx.FadeLinear: computes the gain with FadeGain, the corrected gain. It agrees with the code everywhere except the NaN case of the last finding, which `Render` never reaches: it passes in = out = 48000.
- OutputSystem.Render: the `gains` stand for `4*ampfac/RAND_MAX`, and the reverberator `rvb` for the global `my_reverb`.

## Findings

| source | as written | input that shows it | evidently intended | confidence | as-written member | corrected member |
|---|---|---|---|---|---|---|
| src/fine_audio_io_output_system.c:39-57 | each pass hands its frames to `snd_pcm_writei` first and only then scales them in the buffer, so the device never receives a faded frame | sz = 2, per_write = 1, data = {8, 8}, fade_out set at the first pass: the device receives 8, 8 and the buffer ends as 7, 6 | scale the frames of a fading pass before writing them, so the device receives 7, 6 | high, not executed | OutputSystem.FadeIsInaudible, OutputSystem.FadeUnheard | OutputSystem.PlayFaded, OutputSystem.PlayFadedHearsFade |
| src/fine_audio_io_input_system.c:72-74 | the preload sets `rec_idx = file_num` without reducing it modulo MAX_NUM_REC | a data directory holding MAX_NUM_REC files: rec_idx becomes MAX_NUM_REC, and the next capture writes `rec_arr[MAX_NUM_REC]` at line 204 | rec_idx = file_num mod MAX_NUM_REC, the next slot to overwrite | high, not executed | InputSystem.ASys.PreloadAsWritten | InputSystem.ASys.Preload |
| src/fine_audio_io_output_system.c:163 | `gen_indices(recordings_indices, sys->rec_csz)` passes the archive count as the number of picks | MAX_NUM_REC = 11 with a full archive writes entry 10 of a 10-entry array; MAX_NUM_REC = 5 with a full archive picks distance 4, the slot being written, against the comment at line 75 | the count min(rec_csz, OPT_NUM_RECORDINGS, MAX_NUM_REC - 1) | medium, not executed | OutputSystem.FullArchivePicksAsWritten | OutputSystem.PickCount, OutputSystem.PickCountIsSafe |
| src/fine_audio_io_output_system.c:102-109 | `rec_idx - 1 - indices[i]` is computed in size_t, so it wraps modulo 2^64 before `% MAX_NUM_REC` | MAX_NUM_REC = 3, rec_idx = 0, index 0: (2^64 - 1) mod 3 = 0 reads slot 0, the slot being written, instead of slot 2 | the distance taken modulo MAX_NUM_REC, exactly | medium, not executed | OutputSystem.SlotAsWritten, OutputSystem.SlotAsWrittenWraps | OutputSystem.SlotOf, OutputSystem.SafetyRule |
| src/fine_fx.c:27 | the gain is `P99_MINOF((float)i/in, (float)(sz-1-i)/out)` even when out = 0 | out = 0 and in >= sz > 0: the last sample's gain is min(x, 0/0) = NaN, and roundf(NaN) stored in an int16 is undefined | a zone of length 0 takes no part in the gain | low (render_recordings passes 48000 for both), not executed | Fx.FadeGainAsWritten, Fx.FadeGainNaN | Fx.FadeGain, Fx.FadeGainAgrees |
