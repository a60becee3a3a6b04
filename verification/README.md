# Verified models of the vendor codec components

This project models the hardest parts of the vendor codec components and proves properties of them:

- the looper-driven work protocol that the software decoders share (`WorkQueues`, `WorkProtocol`,
  `WorkLiveness`, `WorkFlush`, `WorkResults`): clients queue, flush, drain, start, stop and reset while one looper pops
  works, calls the decoder and completes them. The steps between two lock sections are interleaved
  freely; the locked sections themselves are methods of a class;
- the AAC decoder on top of it (`RingBuffer`, `AdtsFraming`, `AacDelayLine`, `AacModel`, `AacLoops`,
  `AacAccounting`, `AacStream`, `AacDecoded`, `AacOutput`, `AacSignals`, `AacWitnesses`, `AacDecoder`):
  output-delay ring, ADTS framing, nested decode loops, delay compensation and its drain, the list of undone
  works, and the samples that come out, told from the library's replies alone;
- the software video decoder (`SoftVdec`, `SoftVdecCalls`, `SoftVdecDecoder`): which work a late picture
  answers;
- each of the two decoders together with the shell (`DecoderCoupling`, `DecoderCalls`, `AacCoupling`,
  `VideoCoupling`): how the decoder's list of undone works and the shell's map of pending works agree;
- the hardware video decoder in non-tunnel mode (`HwVdec`, `HwVdecConservation`, `HwVdecBlocks`,
  `HwVdecRecycling`, `HwVdecHandOut`, `HwVdecHandlers`, `HwVdecEndings`, `HwVdecEos`, `HwVdecReports`,
  `HwVdecComponent`): works in four containers, pictures in graphic blocks, and the handlers that move them, in
  any order;
- pixel conversions (`PicturePlanes`, `PixelPacking`, `ColorConversion`, `ColorExactness`,
  `PlanarConversion`) and the encoder's level selection (`LevelSelection`, `LevelSamples`).

`dafny verify dfyconfig.toml` checks everything.

Each component appears twice: as a class (or as methods with loops) in the form of the source, and as
functions on values. The methods are proved to compute the functions; the theorems about runs are proved
of the functions, so they hold of the classes. Codecs, block pools and parameter stores are oracles: what
they answer is an arbitrary function of the number of the call, or comes in with the event. The AAC library
is bound only to announce frames of at least one and at most 16384 samples, and to take no more bytes than
it is offered. A decoder's state belongs to the looper thread, so a call may change it at once; its answers,
which take the shell's lock, and its return come one by one, with steps of the clients in between.

## What the proofs showed about the code

Each of these is stated with its exact condition; lemmas whose names end in `Witness` give an input.

- `drainDecoder` puts the compensated samples back only if they fit the ring together with what is in it;
  otherwise it signals an error and leaves the rest out (`AacAccounting.DrainDecoderExact`,
  `AacWitnesses.OverflowWitness`).
- A decode loop over raw AAC ends only if the library does not for ever take no byte and ask for more
  (`AacLoops.EndsIffNoStallForEver`, `AacLoops.StallWitness`).
- A drain of the AAC decoder to the end of the stream without a work drops the youngest undone work if the
  samples do not reach it (`AacAccounting.EosWithoutWork`, `AacWitnesses.DroppedWitness`).
- A refused output block answers its work without samples, which stay in the ring without an error
  (`AacStream.WholeStream`, `AacWitnesses.RefusedWitness`).
- `stop` and `reset` do not start a new generation, so a work in flight may be left pending
  (`WorkFlush.LeftByStop`).
- The software video decoder keeps its list of waiting works when stopped, while the shell forgets its
  pending works (`VideoCoupling.StopIdle`).
- It cuts the index of the current work to 32 bits, so with nobody waiting the picture of a later work goes
  to another index, and the work is left unprocessed (`VideoCoupling.StraysIff`, `SoftVdec.OwnPicture`,
  `SoftVdec.CutIndexWitness`). Other calls that leave a work pending without listing it are named in
  `SoftVdec.UnprocessedIff`; such a work waits for a flush or a stop.
- If the codec yields fewer pictures at the end than works wait, the others stay on the list
  (`SoftVdec.EosServes`, `SoftVdec.FailingFlushWitness`).
- It keeps a decoded picture in hand over a flush, so after a failure the first work after the flush may get
  a picture from before it (`SoftVdecCalls.FirstAfterFlush`, `SoftVdecCalls.StalePictureWitness`).
- A hardware flush that completes before the works of the one before are picked up loses those works
  (`HwVdecConservation.NothingLostIff`, `HwVdecConservation.LossWitness`); clients that wait for each flush
  lose none (`HwVdecConservation.PoliteRunsConserve`).
- A hardware flush that completes before the blocks of the one before have been given back to the decoder
  forgets those blocks; they stay with the component (`HwVdecRecycling.FlushRecyclesIff`,
  `HwVdecRecycling.ForgottenWitness`).
- An input that the decoder cannot be given is an error, but if a drain starts with the same work the error is
  forgotten at once, and the work keeps its input (`HwVdecHandlers.WorkIsTaken`).
- Bitstream ids are frame indices cut to 30 bits. If a work without input and flags has the id of an older
  pending work, the older one is reported in its place, even while the decoder reads its input
  (`HwVdecReports.RunCleanIff`, `HwVdecReports.MixupWitness`).
- Two things keep the end of a stream from going out, and end in an error: works announced to have no
  picture are reported even if they are the last of a drain (`HwVdecEndings.AllTakenIff`,
  `HwVdecEndings.LastTakenWitness`), and a picture that was set out as bad, or as still shown, gives its
  block back to the decoder but stays in front when its work is the last one, so that the loop stops at it
  (`HwVdecEos.EosGoesOutIff`, `HwVdecEos.OnlyTheFront`, `HwVdecEos.BadPictureWitness`).
- When the end of a stream does go out, the picture of its last work is not taken off the waiting ones; a
  later change of format waits for it (`HwVdecEos.NoPictureWaitsIff`, `HwVdecEos.LastPictureStays`).
- The branch that gives a returned block to an unbound entry is never taken, because entries become unbound
  only just before all are given up (`HwVdecBlocks.NoRebinding`).
- The comments at the colour coefficients name the luma weights of the standards, but the coefficients of
  red and blue are exchanged (`ColorConversion.CoefficientsExchanged`, `ColorExactness.CloseToStandard`). The
  model follows the code.
- The comment in the HEVC level setter calls 5.2 the highest supported level, but its table goes on to 6.2
  (`LevelSelection.HevcFallbackLowersIff`, `LevelSelection.HevcFallbackWitness`).
- The macroblock count of the AVC level setter would wrap for lengths within 15 of 2^32, which the size
  setter refuses (`LevelSelection.BlocksRoundUpIff`).
- The Y410 conversion runs out of its line for widths below three, misses the last column of widths three
  above a multiple of four, and leaves the alpha bits of the last two columns clear where the width is not
  a multiple of four (`PixelPacking.GroupsStayInLineIff`, `PixelPacking.AllColumnsIff`).

## Model

| member | source | states |
|---|---|---|
| `WorkProtocol.RunConserves` | vendorcomponents/audiodecoder/C2AudioDecComponent.cpp:238-294 | In every interleaving of client calls and looper steps each accepted work is in exactly one of: queue, in flight, `pending`, reported, flushed, dropped |
| `WorkProtocol.StepConserves` | vendorcomponents/audiodecoder/C2AudioDecComponent.cpp:459-612 | Every single step keeps that, the erase before the insert on a repeated frame index included |
| `WorkProtocol.DoneConserves` | vendorcomponents/audiodecoder/C2AudioDecComponent.cpp:569-610 | Completion neither loses nor doubles a work: reported, returned as stale, or parked under its index, where an older work of the same index is returned |
| `WorkProtocol.PoolFailConserves` | vendorcomponents/audiodecoder/C2AudioDecComponent.cpp:487-532 | Without a block pool the work in flight is dropped, and only it |
| `WorkProtocol.EmptyingConserves` | vendorcomponents/audiodecoder/C2AudioDecComponent.cpp:267-294 | A flush hands every queued and pending work back once; the clearing of a stop or reset accounts for each of them as dropped |
| `WorkLiveness.RunNeverLosesWakeup` | vendorcomponents/audiodecoder/C2AudioDecComponent.cpp:94-105 | In every run, while running with a non-empty queue, a process message is in the looper, a client is about to post one, or the handler will look again |
| `WorkLiveness.LooperStops` | vendorcomponents/audiodecoder/C2AudioDecComponent.cpp:459-477 | Left alone the looper takes at most as many steps as its effort, a weighted sum of queued works, messages and the step in hand |
| `WorkLiveness.LooperTires` | vendorcomponents/audiodecoder/C2AudioDecComponent.cpp:81-140 | Every looper step lowers the effort |
| `WorkLiveness.BusyLooperMoves` | vendorcomponents/audiodecoder/C2AudioDecComponent.cpp:81-140 | A looper that is not at rest always has an enabled step |
| `WorkLiveness.RestsOnlyWhenDone` | vendorcomponents/audiodecoder/C2AudioDecComponent.cpp:246-258 | At rest, with no client about to post, the queue is empty unless a stop or reset is about to clear it |
| `WorkLiveness.MessagesObeyed` | vendorcomponents/audiodecoder/C2AudioDecComponent.cpp:81-140 | What the looper makes of each message: the component runs after an initialisation exactly if that succeeds, is stopped after a stop, and after a reset takes nothing off the queue until it is started again |
| `WorkFlush.RunGenerations` | vendorcomponents/audiodecoder/C2AudioDecComponent.cpp:472-485 | In every run the decoder has been flushed for the latest flush before the popping of the work it processes |
| `WorkFlush.InFlightComesBackStale` | vendorcomponents/audiodecoder/C2AudioDecComponent.cpp:277-291 | A work in flight across a flush never ends up in `pending`; when its processing is over it has come back exactly once as not found, or was dropped for want of a block pool |
| `WorkFlush.FlushBarrier` | vendorcomponents/softvideodecoder/C2SoftVdecComponent.cpp:651-679 | When the flush of the software video shell finds no work in process, every work accepted before it has been handed back or dropped exactly once, and none is queued, pending or in flight |
| `WorkFlush.DropsComeFrom` | vendorcomponents/audiodecoder/C2AudioDecComponent.cpp:347-387 | Works are dropped only by the clearing of stop and reset and by a missing block pool |
| `WorkFlush.LeftByStop` | vendorcomponents/audiodecoder/C2AudioDecComponent.cpp:347-370 | A stop or reset does not start a generation: of a work in the looper's hands when the queue is cleared, whatever happens until it is completed (unless it is dropped for want of a block pool), nothing is left pending exactly if the decoder has processed it or a flush has come since; with a flush it is returned as not found |
| `WorkFlush.EveryRun` | vendorcomponents/audiodecoder/C2AudioDecComponent.cpp:238-612 | All invariants of the protocol hold in every run from the initial state |
| `WorkResults.ResultsIff` | vendorcomponents/audiodecoder/C2AudioDecComponent.cpp:413-432 | In every run: a work that goes back is said not to have been found if and only if a flush caught it in the looper's hands, otherwise to be done if and only if the decoder answered it or marked it processed, and to be corrupted only if another accepted work has its frame index |
| `WorkQueues.WorkQueue.QueueItems` | vendorcomponents/audiodecoder/C2AudioDecComponent.cpp:238-260 | Appends the works in order and tells whether the queue was empty; the new state is the function of the old one that the protocol uses |
| `WorkQueues.WorkQueue.FlushAll` | vendorcomponents/audiodecoder/C2AudioDecComponent.cpp:267-294 | Hands out the queued works in order, then all pending ones, leaves none, and starts a generation; the new state is the function of the old one that the protocol uses |
| `WorkQueues.WorkQueue.CompleteWork` | vendorcomponents/audiodecoder/C2AudioDecComponent.cpp:569-610 | Reports a processed work, returns a stale one, or parks it, returning the work that was there under the same index; the new state is the function of the old one that the protocol uses |
| `WorkQueues.PopsInOrder` | vendorcomponents/audiodecoder/C2AudioDecComponent.cpp:459-485 | Popped until it is empty, the queue gives its works and drain marks one by one, oldest first; a pending flush goes with the first and no other, and all but the last say that more is queued |
| `WorkQueues.WorkQueue.PopFront` | vendorcomponents/audiodecoder/C2AudioDecComponent.cpp:459-485 | Takes the oldest entry, with the pending flush if there is one |
| `WorkQueues.WorkQueue.TakePending` | vendorcomponents/audiodecoder/C2AudioDecComponent.cpp:413-432 | Takes the work pending under an index, if there is one, and no other |
| `WorkQueues.QueuedComesLast` | vendorcomponents/audiodecoder/C2AudioDecComponent.cpp:296-319 | Works queued now come out behind those already queued, in the order of the call, and a drain mark behind them all |
| `WorkQueues.ParkedIsTaken` | vendorcomponents/audiodecoder/C2AudioDecComponent.cpp:413-432 | A work left pending is the one `finish` finds under its index, and taking it restores what was pending |
| `WorkQueues.CompleteAccounts` | vendorcomponents/audiodecoder/C2AudioDecComponent.cpp:569-610 | However a work ends, it and all works that were pending are afterwards pending or handed back, none twice, also if another was pending under its index |
| `DecoderCalls.MoveSimulates` | vendorcomponents/audiodecoder/C2AudioDecComponent.cpp:459-610 | A decoder call that takes works from the front of its list, answered one by one between steps of the clients, is a run of the joint moves: note the current work, answer the oldest any number of times, complete |
| `AacCoupling.ProcessTakes` | vendorcomponents/audiodecoder/C2AudioAacDecoder.cpp:823-841 | A whole call of `process` notes its work or not, answers works from the front of `mBuffersInfo`, and leaves its work unprocessed exactly if it stays on that list |
| `AacCoupling.EosTakes` | vendorcomponents/audiodecoder/C2AudioAacDecoder.cpp:862-880 | A drain to the end of the stream without a work answers works from the front of the list and leaves none on it |
| `AacCoupling.StepInStep` | vendorcomponents/audiodecoder/C2AudioAacDecoder.cpp:537-886 | Every step of the shell together with the AAC decoder - `process`, drain, a flush or stop passed on, an answer, a return - does to map and list what a run of the joint moves does |
| `AacCoupling.ListMeetsMap` | vendorcomponents/audiodecoder/C2AudioAacDecoder.cpp:823-841 | In every run of shell and AAC decoder, for every library: no work is lost, the indices in `mBuffersInfo` are distinct, and while the component runs with an idle looper and no flush pending each is a key of `pending` |
| `AacCoupling.MapIsList` | vendorcomponents/audiodecoder/C2AudioAacDecoder.cpp:823-886 | In every such run, in the same states: the keys of `pending` are the list, so that each will be answered, together with those left behind since the last flush or stop, which a drain without a work dropped or which were pending when a stop emptied the list |
| `AacCoupling.FinishFindsItsWork` | vendorcomponents/audiodecoder/C2AudioDecComponent.cpp:413-432 | In every such run, while the component runs and no flush is pending, each `finish` of the decoder finds its work in `pending` |
| `AacCoupling.StopIdle` | vendorcomponents/audiodecoder/C2AudioAacDecoder.cpp:309-328 | A stop of an idle component empties map and list |
| `VideoCoupling.ProcessTakes` | vendorcomponents/softvideodecoder/C2SoftVdec.cpp:556-586 | A whole call of the software video decoder lets its work join the list or not and hands pictures to works from its front; or, with the list empty, it hands one picture out under a wrong index |
| `VideoCoupling.StepInStep` | vendorcomponents/softvideodecoder/C2SoftVdec.cpp:356-587 | Every step of the shell together with the software video decoder does to map and list what a run of the joint moves does |
| `VideoCoupling.ListMeetsMap` | vendorcomponents/softvideodecoder/C2SoftVdec.cpp:556-586 | In every run of shell and software video decoder, for every codec: no work is lost, the indices on the list are distinct, and with an idle looper and no flush pending each is a key of `pending`, unless a stop or reset has cleared the map since the last flush |
| `VideoCoupling.FinishFindsItsWork` | vendorcomponents/softvideodecoder/C2SoftVdecComponent.cpp:797-821 | In every such run, with no flush or clearing pending, each `finish` finds its work in `pending`, but for a picture under a wrong index |
| `VideoCoupling.StraysIff` | vendorcomponents/softvideodecoder/C2SoftVdec.cpp:371 | A picture goes out under a wrong index exactly if the codec has one for a work whose frame index does not fit 32 bits while nobody waits; that work then stays behind unprocessed and off the list unless it ends the stream |
| `VideoCoupling.StopIdle` | vendorcomponents/softvideodecoder/C2SoftVdec.cpp:140-147 | A stop of an idle component empties the map but not the list, so they agree exactly if the list was empty |
| `RingBuffer.OutputDelayRing.constructor` | vendorcomponents/audiodecoder/C2AudioAacDecoder.cpp:344-372 | The ring starts empty |
| `RingBuffer.OutputDelayRing.PutSamples` | vendorcomponents/audiodecoder/C2AudioAacDecoder.cpp:374-406 | Appends exactly the given samples or refuses and changes nothing, refusing exactly if they do not fit; both copy loops leave the same buffer |
| `RingBuffer.OutputDelayRing.GetSamples` | vendorcomponents/audiodecoder/C2AudioAacDecoder.cpp:408-443 | Removes exactly the oldest samples, also without a destination; asking for more than there are changes nothing |
| `RingBuffer.OutputDelayRing.CopyIn` | vendorcomponents/audiodecoder/C2AudioAacDecoder.cpp:385-388 | The loop without a wrap stores what the wrapping one would |
| `RingBuffer.OutputDelayRing.CopyInWrapping` | vendorcomponents/audiodecoder/C2AudioAacDecoder.cpp:396-402 | The wrapping loop stores the samples one after the other |
| `RingBuffer.OutputDelayRing.CopyOut` | vendorcomponents/audiodecoder/C2AudioAacDecoder.cpp:417-421 | The loop without a wrap reads the oldest samples |
| `RingBuffer.OutputDelayRing.CopyOutWrapping` | vendorcomponents/audiodecoder/C2AudioAacDecoder.cpp:431-439 | The wrapping loop reads the oldest samples |
| `RingBuffer.OutputDelayRing.SamplesAvailable` | vendorcomponents/audiodecoder/C2AudioAacDecoder.cpp:445-447 | The length of the queue |
| `RingBuffer.OutputDelayRing.SpaceLeft` | vendorcomponents/audiodecoder/C2AudioAacDecoder.cpp:449-451 | The room behind it |
| `RingBuffer.OutputDelayRing.Clear` | vendorcomponents/audiodecoder/C2AudioAacDecoder.cpp:313-316 | Empties the queue |
| `RingBuffer.StoredAppends` | vendorcomponents/audiodecoder/C2AudioAacDecoder.cpp:389-406 | Writing behind a window that has room appends to it, wherever it wraps |
| `RingBuffer.WindowSplit` | vendorcomponents/audiodecoder/C2AudioAacDecoder.cpp:408-443 | Reading from the front leaves the window that starts further on |
| `AdtsFraming.ReadsWhatIsWritten` | vendorcomponents/audiodecoder/C2AudioAacDecoder.cpp:602-648 | The header reader finds header size and payload of any frame written with section 1.A.2.2 of ISO/IEC 14496-3, with or without a checksum |
| `AdtsFraming.SplitInvertsWrite` | vendorcomponents/audiodecoder/C2AudioAacDecoder.cpp:602-648 | Splitting a written run of frames gives the payloads back in order |
| `AdtsFraming.TruncatedIsBad` | vendorcomponents/audiodecoder/C2AudioAacDecoder.cpp:604-640 | A frame is refused wherever it is cut off |
| `AdtsFraming.TruncatedRunIsBroken` | vendorcomponents/audiodecoder/C2AudioAacDecoder.cpp:602-648 | So is a run of frames that ends in the middle of one |
| `AacLoops.RoundProgress` | vendorcomponents/audiodecoder/C2AudioAacDecoder.cpp:600-796 | A round of the outer loop fails or shortens the rest of the input, unless the library takes no byte and asks for more |
| `AacLoops.AdtsEnds` | vendorcomponents/audiodecoder/C2AudioAacDecoder.cpp:600-796 | In ADTS mode the loops end for every behaviour of the library |
| `AacLoops.EndsIffNoStallForEver` | vendorcomponents/audiodecoder/C2AudioAacDecoder.cpp:676-795 | In any mode the loops end if and only if the library does not for ever take nothing and ask for more |
| `AacLoops.LivelyEnds` | vendorcomponents/audiodecoder/C2AudioAacDecoder.cpp:676-795 | They end for every library that again and again takes a byte or yields a frame |
| `AacLoops.StallWitness` | vendorcomponents/audiodecoder/C2AudioAacDecoder.cpp:676-795 | They do not end, on any non-empty input and with any ring that has room for a frame, for a library that never takes a byte and always asks for more |
| `AacLoops.OffersEveryPayload` | vendorcomponents/audiodecoder/C2AudioAacDecoder.cpp:602-675 | With a library that takes all bytes it is offered (`Greedy`), an ADTS input walked to its end was offered to the library payload by payload, each once and in order |
| `AacDecoded.RawIsTakenOnce` | vendorcomponents/audiodecoder/C2AudioAacDecoder.cpp:649-674 | Whatever the library takes of what it is offered, it takes each byte of a raw input once and in order |
| `AacDecoded.BurstEnds` | vendorcomponents/audiodecoder/C2AudioAacDecoder.cpp:676-795 | When a burst of frames ends, told from the library's replies and the room in the ring: all replies but the last are good frames; the rest of the input is given up after a bad frame or for want of room, and the burst fails if a frame comes too early, does not fit, or has parameters that are refused |
| `AacDecoded.InputTakes` | vendorcomponents/audiodecoder/C2AudioAacDecoder.cpp:600-796 | Decoding an input, unless it fails, puts in the ring behind what is there exactly what the library decoded, told from its replies alone: good frames as they are, zeros in place of a bad one, which is the last; one size is noted for each frame |
| `AacDelayLine.DrainKeepsOrder` | vendorcomponents/audiodecoder/C2AudioAacDecoder.cpp:453-535 | Draining the ring answers works in input order, and what was handed out followed by what is still delayed is what was delayed before |
| `AacDelayLine.DrainBalances` | vendorcomponents/audiodecoder/C2AudioAacDecoder.cpp:453-535 | With one frame size, draining takes exactly the samples of the answered works from the ring, so that the balance of delayed and undone samples stays, if and only if no output block is refused; at the end of a stream no work with samples stays |
| `AacAccounting.DrainDecoderExact` | vendorcomponents/audiodecoder/C2AudioAacDecoder.cpp:908-936 | The flushing drain ends without error if and only if ring and compensated samples together fit the ring, and then puts back exactly as many as were discarded |
| `AacAccounting.RunKeepsLedger` | vendorcomponents/audiodecoder/C2AudioAacDecoder.cpp:713-730 | In every run of calls, for every library, drains to the end of the stream included: emitted, delayed and compensated samples are the decoded ones, and works are answered in input order |
| `AacAccounting.ProcessKeeps` | vendorcomponents/audiodecoder/C2AudioAacDecoder.cpp:823-841 | After a call the undone works are the youngest ones noted, and the current one is unprocessed exactly if it is among them |
| `AacAccounting.EosAnswersAll` | vendorcomponents/audiodecoder/C2AudioAacDecoder.cpp:844-880 | The drain at the end of a stream answers every undone work exactly once, in order, the last one last, whatever decoder and allocator do |
| `AacAccounting.EosWithoutWork` | vendorcomponents/audiodecoder/C2AudioAacDecoder.cpp:882-886 | Without a work at hand it drops the youngest undone work exactly if the delayed samples did not reach it |
| `AacWitnesses.DroppedWitness` | vendorcomponents/audiodecoder/C2AudioAacDecoder.cpp:882-886 | From a new decoder, with the ring as large as in the code: a stream whose second work is dropped without an error |
| `AacWitnesses.OverflowWitness` | vendorcomponents/audiodecoder/C2AudioAacDecoder.cpp:908-936 | From a new decoder: nine frames of 16384 samples with a delay of 147456, after which a flush cannot put the compensated samples back into the ring of 131072 |
| `AacWitnesses.RefusedWitness` | vendorcomponents/audiodecoder/C2AudioAacDecoder.cpp:497-504 | From a new decoder: a stream of one frame whose output block is refused; it is answered without an error and its samples stay in the ring |
| `AacAccounting.CurrentIsLast` | vendorcomponents/audiodecoder/C2AudioAacDecoder.cpp:525-534 | The current work is answered in place exactly if the drain reaches the end of the list |
| `AacAccounting.CloseStreamKeeps` | vendorcomponents/audiodecoder/C2AudioAacDecoder.cpp:862-877 | Works left over by the ring are answered once each in order |
| `AacStream.ProcessInStream` | vendorcomponents/audiodecoder/C2AudioAacDecoder.cpp:537-842 | With one fixed frame size and delay, in mid-stream, unless an error is signalled, at least the samples of the undone works are delayed or compensated, and exactly those if and only if no output block was refused |
| `AacStream.RunBoundsDelay` | vendorcomponents/audiodecoder/C2AudioAacDecoder.cpp:825-835 | In every run, while no reply announces a delay above d, at most d samples are compensated, whatever the frame sizes |
| `AacStream.EosDelivers` | vendorcomponents/audiodecoder/C2AudioAacDecoder.cpp:837-841 | With one fixed frame size and delay: unless an error is signalled, the end of a stream answers every work and delivers all decoded samples if and only if no output block was refused |
| `AacStream.WholeStream` | vendorcomponents/audiodecoder/C2AudioAacDecoder.cpp:537-842 | With one fixed frame size and delay, every whole stream from a new, flushed or stopped decoder, unless an error is signalled: every work is answered, and all decoded samples are delivered if and only if no output block was refused in the stream |
| `AacOutput.RunPutsOut` | vendorcomponents/audiodecoder/C2AudioAacDecoder.cpp:713-730 | In every run of calls from a new, stopped or flushed decoder, for every library, unless an error is signalled, and as long as no sample is discarded after the first output: what has been put out and what is in the ring are what the library decoded, without the samples discarded at the start |
| `AacOutput.StreamPutsOut` | vendorcomponents/audiodecoder/C2AudioAacDecoder.cpp:537-842 | A whole stream with one fixed frame size and delay d, unless an error is signalled or an output block refused: the output is what the library decoded, followed by as many samples of its flush frames as were discarded, without as many at the front, the lesser of d and what was decoded before the last work |
| `AacOutput.OpensAStream` | vendorcomponents/audiodecoder/C2AudioAacDecoder.cpp:888-906 | From any state: after a stop the next stream starts afresh, and after a flush exactly if the decoder was not in error and the samples made up for fit the ring |
| `AacOutput.MidStreamCall` | vendorcomponents/audiodecoder/C2AudioAacDecoder.cpp:823-841 | A call in mid-stream, in any state: as long as the delay asks for it, as many samples as there are make up for it and nothing is answered; afterwards works are answered, each with all its own samples, until the oldest waits for its own |
| `AacOutput.PromptStream` | vendorcomponents/audiodecoder/C2AudioAacDecoder.cpp:457-534 | In every stream without a delay, as long as no error is signalled and no block refused, each call that decodes frames answers its work at once with what the library decoded in it |
| `AacOutput.DrainGoesOn` | vendorcomponents/audiodecoder/C2AudioAacDecoder.cpp:453-535 | In mid-stream the ring drain stops only when a work waits for its samples or less than a frame is in the ring; each work answered gets all its own samples, or none for want of an output block |
| `AacOutput.DrainPutsBack` | vendorcomponents/audiodecoder/C2AudioAacDecoder.cpp:844-860 | A drain that does not end the stream puts back all samples made up for, if there is room, from the flush frames, and answers works until one waits |
| `AacOutput.FlushTakes` | vendorcomponents/audiodecoder/C2AudioAacDecoder.cpp:908-936 | With room in the ring, the flushing drain puts back the first samples of the flush frames, as many as were discarded |
| `AacSignals.ErrorIff` | vendorcomponents/audiodecoder/C2AudioAacDecoder.cpp:574-821 | Exactly when a call signals an error: the library refuses a configuration, decoding fails, the parameter store refuses a larger output delay, or at the end the samples made up for do not fit the ring |
| `AacSignals.AnnouncesDelay` | vendorcomponents/audiodecoder/C2AudioAacDecoder.cpp:798-821 | Unless a call signals an error, the output delay announced after it, in frames, covers the delay in samples, and has grown no more than that takes |
| `AacDecoder.Decoder.DrainDecoder` | vendorcomponents/audiodecoder/C2AudioAacDecoder.cpp:908-936 | The flushing loop computes the drain of the model |
| `AacDecoder.Decoder.DrainRingBuffer` | vendorcomponents/audiodecoder/C2AudioAacDecoder.cpp:453-535 | The loop over undone works is the drain of the delay line; its branch for an incomplete frame is never taken |
| `AacDecoder.Decoder.DrainFront` | vendorcomponents/audiodecoder/C2AudioAacDecoder.cpp:457-534 | One round of it |
| `AacDecoder.Decoder.DrainInternal` | vendorcomponents/audiodecoder/C2AudioAacDecoder.cpp:844-880 | Drains decoder and ring, and closes the stream |
| `AacDecoder.Decoder.OnFlush` | vendorcomponents/audiodecoder/C2AudioAacDecoder.cpp:888-906 | Drops undone works and delayed samples |
| `AacDecoder.Decoder.OnStop` | vendorcomponents/audiodecoder/C2AudioAacDecoder.cpp:309-328 | Drains and forgets everything |
| `AacDecoder.Decoder.DecodeFrames` | vendorcomponents/audiodecoder/C2AudioAacDecoder.cpp:676-795 | The inner loop, by the room left in the ring |
| `AacDecoder.Decoder.OfferInput` | vendorcomponents/audiodecoder/C2AudioAacDecoder.cpp:650-796 | One chunk of the input: what the library takes, what it decodes, and a discard of the rest |
| `AacDecoder.Decoder.DecodeInput` | vendorcomponents/audiodecoder/C2AudioAacDecoder.cpp:600-796 | The outer loop; in ADTS mode position and rest add up to the input until the rest is discarded |
| `AacDecoder.Decoder.DiscardDelay` | vendorcomponents/audiodecoder/C2AudioAacDecoder.cpp:825-835 | Discards no more than the delay still asks for |
| `AacDecoder.Decoder.Finish` | vendorcomponents/audiodecoder/C2AudioAacDecoder.cpp:798-841 | Announces a larger output delay, notes the work, and discards, drains or closes |
| `AacDecoder.Decoder.Process` | vendorcomponents/audiodecoder/C2AudioAacDecoder.cpp:537-842 | The whole call |
| `SoftVdec.ProcessKeepsOrder` | vendorcomponents/softvideodecoder/C2SoftVdec.cpp:556-586 | In one call pictures go to the works in front of the line, in order, and at most the current work joins it at its end; the list holds at most seven works and does not grow after the first picture |
| `SoftVdec.MovedSplits` | vendorcomponents/softvideodecoder/C2SoftVdec.cpp:262-323 | The pictures handed out are, one for one and in order, those of the works that left the front of the list, each in place, as a clone or through `finish` |
| `SoftVdec.RunInOrder` | vendorcomponents/softvideodecoder/C2SoftVdec.cpp:412-586 | In every run, flushes and stops included, pictures are handed out in the order in which the works came and at most one for each work |
| `SoftVdec.RunKeepsBound` | vendorcomponents/softvideodecoder/C2SoftVdec.cpp:572-586 | In every run the list holds at most seven works, and after the first picture it does not grow until a flush |
| `SoftVdec.LoopMoves` | vendorcomponents/softvideodecoder/C2SoftVdec.cpp:412-570 | The decode loop, which ends for every behaviour of the codec, hands pictures out from the front of the line; without a picture the list stays as it is |
| `SoftVdec.UnprocessedIff` | vendorcomponents/softvideodecoder/C2SoftVdec.cpp:356-587 | A work is left unprocessed, so that the shell keeps it pending, if and only if it is on the list or the call abandoned it: after an error or the end of the stream, with unreadable input, without memory, or with an own picture under a cut index |
| `SoftVdec.EosServes` | vendorcomponents/softvideodecoder/C2SoftVdec.cpp:412-569 | The call that ends a stream while works wait hands pictures to the first of them, in order, as many as the codec yields by its own answers (`Yield`), and leaves the others on the list: each gets one if and only if the codec yields as many as works wait |
| `SoftVdec.OthersAreFinished` | vendorcomponents/softvideodecoder/C2SoftVdec.cpp:262-323 | Those pictures all go through `finish`, one for each work on the list |
| `SoftVdec.FailingFlushWitness` | vendorcomponents/softvideodecoder/C2SoftVdec.cpp:503-505 | An input at which it fails and a work stays on the list |
| `SoftVdec.OwnPicture` | vendorcomponents/softvideodecoder/C2SoftVdec.cpp:556-564 | With an empty list a picture answers the current work exactly if its frame index fits 32 bits |
| `SoftVdec.CutIndexWitness` | vendorcomponents/softvideodecoder/C2SoftVdec.cpp:371 | An input at which it does not |
| `SoftVdecCalls.OrdinaryCall` | vendorcomponents/softvideodecoder/C2SoftVdec.cpp:356-587 | In any state a call for a work in mid-stream, told from the codec's replies alone: with a picture the oldest of the line gets it and the work joins; with none the work waits while no picture has ever come and fewer than seven wait, and is dropped otherwise; after a failure it goes back in error |
| `SoftVdecCalls.LastCall` | vendorcomponents/softvideodecoder/C2SoftVdec.cpp:566-571 | The work that ends a stream while nobody waits is done and closes the stream, its picture going out with a clone; unless opening, allocation or mapping fails |
| `SoftVdecCalls.FirstAfterFlush` | vendorcomponents/softvideodecoder/C2SoftVdec.cpp:162-170 | From any state, in error or after the end of a stream: the first work after a flush gets its picture in place, if the reopened codec has one, and is otherwise the only work on the list |
| `SoftVdecCalls.FirstAfterStop` | vendorcomponents/softvideodecoder/C2SoftVdec.cpp:140-147 | After a stop too the first work is decoded, but the picture goes to the oldest work on the list, which is kept |
| `SoftVdecCalls.StalePictureWitness` | vendorcomponents/softvideodecoder/C2SoftVdec.cpp:162-170 | A picture in hand when the decoder fails survives the flush and is handed out for the first work after it |
| `SoftVdecDecoder.Decoder.GetPicture` | vendorcomponents/softvideodecoder/C2SoftVdec.cpp:412-510 | Output block, mapping and picture, decoded or in hand, with the error branches |
| `SoftVdecDecoder.Decoder.UseHeldPicture` | vendorcomponents/softvideodecoder/C2SoftVdec.cpp:512-564 | Gives the picture in hand to the work it is for; there always is one |
| `SoftVdecDecoder.Decoder.DecodeLoop` | vendorcomponents/softvideodecoder/C2SoftVdec.cpp:412-570 | The loop, by twice the length of the list and whether a picture is held |
| `SoftVdecDecoder.Decoder.ProcessWork` | vendorcomponents/softvideodecoder/C2SoftVdec.cpp:356-587 | The whole call |
| `HwVdecConservation.RunConserves` | vendorcomponents/videodecoder/C2VdecComponent.cpp:606-652 | In every sequence of handlers each work taken over is accounted for; one taken over once is in exactly one of the four containers, reported, flushed or dropped, and is reported at most once |
| `HwVdecConservation.EventKeeps` | vendorcomponents/videodecoder/C2VdecComponent.cpp:743-850 | Every handler keeps that |
| `HwVdecConservation.SendPicturesKeeps` | vendorcomponents/videodecoder/C2VdecComponent.cpp:1175-1312 | Handing pictures to works only moves works from pending to reported |
| `HwVdecConservation.ReportEosKeeps` | vendorcomponents/videodecoder/C2VdecComponent.cpp:3613-3652 | Reporting the end of a stream loses no work |
| `HwVdecConservation.NothingLostIff` | vendorcomponents/videodecoder/C2VdecComponent.cpp:1570-1606 | A run drops no work if and only if, between a flush that hands works back and the completion of the next one, the client picks them up |
| `HwVdecConservation.PoliteRunsConserve` | vendorcomponents/videodecoder/C2VdecComponent.cpp:2986-3042 | With clients that wait for a flush and pick its works up before they ask for another, no work is ever dropped: each taken over is in one of the four containers, reported or flushed |
| `HwVdecConservation.LossWitness` | vendorcomponents/videodecoder/C2VdecComponent.cpp:1570-1606 | Events at which a work is dropped |
| `HwVdecBlocks.RunLive` | vendorcomponents/videodecoder/C2VdecComponent.cpp:1065-1097 | In every run each waiting picture is in a block that the component knows, and all blocks are bound, across format changes, reallocation, flush, stop and destruction |
| `HwVdecBlocks.NoRebinding` | vendorcomponents/videodecoder/C2VdecComponent.cpp:931-952 | So in no run does a block that comes back take over the entry of another |
| `HwVdecBlocks.ChangeFormatLive` | vendorcomponents/videodecoder/C2VdecComponent.cpp:1997-2080 | A change of format takes blocks away only when no picture waits |
| `HwVdecBlocks.FlushLoopEndsIff` | vendorcomponents/videodecoder/C2VdecComponent.cpp:1646-1657 | The loop of a flush that empties the waiting pictures ends if and only if their blocks are all known |
| `HwVdecBlocks.EveryFlushEnds` | vendorcomponents/videodecoder/C2VdecComponent.cpp:1646-1657 | So it ends in every run |
| `HwVdecRecycling.RunRecycles` | vendorcomponents/videodecoder/C2VdecComponent.cpp:966-975 | In every run, while no change of format is pending: a block that the component holds has a picture still to be handed out, or is to be given back after a flush; so with neither, all blocks are with the decoder or the client. Excepted are runs with one of the events of `Strands`: a flush that forgets blocks, a block that comes back while only a picture already handed out waits in it, and a change of format that keeps its blocks without a buffer queue |
| `HwVdecRecycling.ReturnGivesIff` | vendorcomponents/videodecoder/C2VdecComponent.cpp:966-975 | A block that comes back goes on to the decoder if and only if no picture waits in it |
| `HwVdecRecycling.ReturnedGoesOn` | vendorcomponents/videodecoder/C2VdecComponent.cpp:910-980 | So for the whole handler: the client's block is with the decoder afterwards if no picture waited in it, whatever is handed out in between |
| `HwVdecRecycling.FlushRecyclesIff` | vendorcomponents/videodecoder/C2VdecComponent.cpp:1643-1657 | The completion of a flush loses no block if and only if all those of the flush before that are still with the component have been given back, or have a picture |
| `HwVdecRecycling.ForgottenWitness` | vendorcomponents/videodecoder/C2VdecComponent.cpp:1643-1657 | Events at which two flushes complete before the next work comes, and a block stays with the component for good |
| `HwVdecHandOut.HandsOutAll` | vendorcomponents/videodecoder/C2VdecComponent.cpp:1175-1312 | The loop over waiting pictures ends only when none is left or the one in front has to wait: for its work's input, for the client that shows its block, or, handed out, for its work to be reportable; or after the first picture of all was thrown away because its work is gone |
| `HwVdecHandOut.ReadyGoesOut` | vendorcomponents/videodecoder/C2VdecComponent.cpp:1252-1306 | A picture that need not wait goes out: its work is reported with it, or without if it is bad or still shown, its block goes to the client or back to the decoder, and only the last work of a stream is kept |
| `HwVdecHandOut.CloneGoesOut` | vendorcomponents/videodecoder/C2VdecComponent.cpp:1210-1306 | A picture whose work is gone goes out with a clone of the last work that got one |
| `HwVdecHandlers.PictureArrives` | vendorcomponents/videodecoder/C2VdecComponent.cpp:1052-1130 | A picture is kept if its id is that of the last one, of a pending work, or remembered; any other gives its block back to the decoder and changes nothing; during a flush pictures are ignored |
| `HwVdecHandlers.KnownForTwenty` | vendorcomponents/videodecoder/C2VdecComponent.cpp:1090-1095 | A picture's id is remembered for the next nineteen pictures, and forgotten after twenty others |
| `HwVdecHandlers.LatePictureGoesBack` | vendorcomponents/videodecoder/C2VdecComponent.cpp:1667-1668 | After a flush a picture for a work from before it goes back to the decoder |
| `HwVdecHandlers.UnknownBlocks` | vendorcomponents/videodecoder/C2VdecComponent.cpp:931-948 | Of the unknown blocks that come back the first is kept, the second is an error |
| `HwVdecHandlers.NotTheClients` | vendorcomponents/videodecoder/C2VdecComponent.cpp:954-962 | Unless a change of resolution is under way, the return of a block that is not the client's is an error and changes nothing else |
| `HwVdecHandlers.NewFormat` | vendorcomponents/videodecoder/C2VdecComponent.cpp:1922-1950 | A new format is settled at once unless pictures wait, whatever the decoder holds; only a first allocation without a pool fails |
| `HwVdecHandlers.PendingFormat` | vendorcomponents/videodecoder/C2VdecComponent.cpp:1997-2080 | A pending format waits for pictures; after them a block with the decoder is an error, and otherwise it is settled |
| `HwVdecHandlers.QueueKeepsBlocks` | vendorcomponents/videodecoder/C2VdecComponent.cpp:2085-2150 | With a buffer queue a change that keeps the size gives all blocks but the client's to the decoder |
| `HwVdecHandlers.FirstBlocks` | vendorcomponents/videodecoder/C2VdecComponent.cpp:2405-2618 | After the first allocation all fetched blocks are with the decoder |
| `HwVdecHandlers.FormatErrorIff` | vendorcomponents/videodecoder/C2VdecComponent.cpp:2083-2240 | Exactly when a settled change of format leaves the component in error |
| `HwVdecHandlers.FlushedBlocksReturn` | vendorcomponents/videodecoder/C2VdecComponent.cpp:681-715 | When a flush has been picked up and a new work comes, the component holds no block |
| `HwVdecHandlers.FreshAfterStop` | vendorcomponents/videodecoder/C2VdecComponent.cpp:1672-1734 | A completed stop leaves no block, picture, spare, remembered id or pending format, and the next format allocates anew |
| `HwVdecHandlers.NewBlockTaken` | vendorcomponents/videodecoder/C2VdecComponent.cpp:982-1038 | A new block that fits goes to the decoder |
| `HwVdecEndings.StopEmpties` | vendorcomponents/videodecoder/C2VdecComponent.cpp:1503-1539 | A stop that no other call overlaps leaves no work and no block; the works of an earlier flush are gone exactly if they were picked up |
| `HwVdecEndings.StopReturnsAll` | vendorcomponents/videodecoder/C2VdecComponent.cpp:1672-1734 | After such a stop every work taken over in the whole run has left |
| `HwVdecEndings.FlushHandsBack` | vendorcomponents/videodecoder/C2VdecComponent.cpp:1570-1670 | A flush that completes and is picked up hands back all abandoned, queued and pending works, in that order, as not found, and leaves none |
| `HwVdecEndings.FlushReturnsAll` | vendorcomponents/videodecoder/C2VdecComponent.cpp:2986-3042 | After it every work taken over before has left |
| `HwVdecHandlers.DrainIsServed` | vendorcomponents/videodecoder/C2VdecComponent.cpp:1392-1426 | A drain that is asked for behind a queued work starts when that work is taken, to the end of the stream or not as it was asked for or as the work says |
| `HwVdecHandlers.WorkIsTaken` | vendorcomponents/videodecoder/C2VdecComponent.cpp:802-850 | A work that is taken becomes pending with nothing put out; an input that cannot be given to the decoder is an error unless a drain starts with the work, which forgets it |
| `HwVdecHandlers.TakenOnlyWhenStarted` | vendorcomponents/videodecoder/C2VdecComponent.cpp:725-735 | Works are taken only by a started component, and a start succeeds or leaves it starting |
| `HwVdecHandlers.InputReadReports` | vendorcomponents/videodecoder/C2VdecComponent.cpp:852-900 | When an input has been read, the work is reported exactly if it is a configuration, was dropped, or is to be dropped and has its picture, and is not the last of a stream |
| `HwVdecHandlers.ErrorFrameReports` | vendorcomponents/videodecoder/C2VdecComponent.cpp:3365-3389 | A work whose frame could not be decoded is reported without a picture as soon as its input has been read |
| `HwVdecHandlers.OvertakenAreMarked` | vendorcomponents/videodecoder/C2VdecComponent.cpp:3391-3415 | In VP9 exactly the pending works that are earlier by index and timestamp and still without picture or mark are marked by a later picture |
| `HwVdecHandlers.OvertakenIsReported` | vendorcomponents/videodecoder/C2VdecComponent.cpp:3417-3423 | A work so noted is reported if its input has been read and it is not the last of a stream |
| `HwVdecHandlers.ErrorHolds` | vendorcomponents/videodecoder/C2VdecComponent.cpp:3722-3734 | From an error of the decoder on, whatever of works, pictures, blocks, formats and drains comes in, nothing changes until the error is forgotten |
| `HwVdecEndings.DrainRun` | vendorcomponents/videodecoder/C2VdecComponent.cpp:3546-3582 | During a drain to the end of the stream the last pending work is kept if and only if the announcements of works without a picture never take all works still pending |
| `HwVdecEos.EosGoesOutIff` | vendorcomponents/videodecoder/C2VdecComponent.cpp:1428-1474 | In every run: when the decoder has drained, a work goes out marked as the end of the stream, after all others, if and only if the component is not in error, the announcements of works without a picture have not taken all works, and no waiting picture is met whose block is with the decoder; otherwise the component is in error |
| `HwVdecEos.OnlyTheFront` | vendorcomponents/videodecoder/C2VdecComponent.cpp:1178-1195 | Such a picture is met if and only if it is the one in front, provided that the pictures behind it have blocks of their own that are not with the decoder |
| `HwVdecEos.BadPictureWitness` | vendorcomponents/videodecoder/C2VdecComponent.cpp:1274-1306 | Events at which the decoder marks the picture of the last work as bad, its block goes back, and nothing goes out at the end |
| `HwVdecEos.NoPictureWaitsIff` | vendorcomponents/videodecoder/C2VdecComponent.cpp:3613-3652 | Once the end of the stream is out, no picture waits if and only if the loop could take every picture off |
| `HwVdecEos.LastPictureStays` | vendorcomponents/videodecoder/C2VdecComponent.cpp:1298-1306 | The picture of the last work itself stays waiting, and with it every later change of format |
| `HwVdecEndings.AllTakenIff` | vendorcomponents/videodecoder/C2VdecComponent.cpp:3311-3338 | In every state, reporting the works announced to have no picture leaves none pending if and only if the announcements begin with the ids of all pending works, in any order, and the decoder is done with their inputs |
| `HwVdecEndings.LastTakenWitness` | vendorcomponents/videodecoder/C2VdecComponent.cpp:3311-3338 | Events at which the last work of a stream goes that way |
| `HwVdecReports.RunCleanIff` | vendorcomponents/videodecoder/C2VdecComponent.cpp:852-856 | In a run every work goes back with its input released and its result set, those of a flush as not done, if and only if no work without input and flags is dequeued while a pending work of the same bitstream id still has its input with the decoder |
| `HwVdecReports.MixupWitness` | vendorcomponents/videodecoder/C2VdecComponent.cpp:852-856 | Events at which that happens, for every frame index |
| `HwVdecReports.DistinctIdsNoMixup` | vendorcomponents/videodecoder/C2VdecComponent.cpp:3496-3535 | That cannot happen while the bitstream ids of pending and queued works differ |
| `HwVdecReports.PicturesInOrder` | vendorcomponents/videodecoder/C2VdecComponent.cpp:1175-1312 | Handing out pictures takes them from the front and reports works in the order of the pictures, each for a picture under its own bitstream id |
| `HwVdecComponent.Component.DetectNoShowFrames` | vendorcomponents/videodecoder/C2VdecComponent.cpp:3391-3415 | The loop marks exactly the works that a later picture has overtaken |
| `HwVdecComponent.Component.SendOutputBufferToWorkIfAny` | vendorcomponents/videodecoder/C2VdecComponent.cpp:1175-1312 | The loop over waiting pictures computes the recursive handing out of which the theorems speak |
| `HwVdecComponent.Component.OnReusedOutBuf` | vendorcomponents/videodecoder/C2VdecComponent.cpp:681-715 | The loop gives the blocks of thrown-away pictures back after a flush |
| `HwVdecComponent.Component.OutputBufferReturned` | vendorcomponents/videodecoder/C2VdecComponent.cpp:910-980 | Takes a block back from the client, found by its id or else an unbound entry |
| `HwVdecComponent.Component.AllocateBuffers` | vendorcomponents/videodecoder/C2VdecComponent.cpp:2405-2618 | The first allocation, with as many shown blocks remembered as the client shows |
| `HwVdecComponent.Component.TryChangeOutputFormat` | vendorcomponents/videodecoder/C2VdecComponent.cpp:1997-2080 | Waits, fails, allocates or changes; the loop that hands out pictures in between has nothing to do |
| `HwVdecComponent.Component.FlushDone` | vendorcomponents/videodecoder/C2VdecComponent.cpp:1570-1670 | The loops collect all works and empty the waiting pictures |
| `HwVdecComponent.Component.EmptyPictures` | vendorcomponents/videodecoder/C2VdecComponent.cpp:1646-1657 | The loop, which an unknown block would keep from ending, ends |
| `HwVdecComponent.Component.PickUpFlushed` | vendorcomponents/videodecoder/C2VdecComponent.cpp:3010-3016 | The loop hands the works of a flush to the client |
| `HwVdecComponent.Component.ReportNoOutFrameFinished` | vendorcomponents/videodecoder/C2VdecComponent.cpp:3311-3338 | The loop reports works without a picture |
| `HwVdecComponent.Component.ReportWorkForNoShowFrames` | vendorcomponents/videodecoder/C2VdecComponent.cpp:3417-3423 | The loop reports the works marked before |
| `HwVdecComponent.Component.Perform` | vendorcomponents/videodecoder/C2VdecComponent.cpp:2999-3000 | Any event, one at a time: every work stays accounted for, waiting pictures stay in known blocks, and works go back settled unless their ids are mixed up |
| `PixelPacking.Pack` | vendorcomponents/softvideodecoder/C2SoftVdecComponent.cpp:74-136 | Packing two lines and four columns at a time writes exactly the columns of `Written`, each with the word of its own pixel, and leaves the padding alone |
| `PixelPacking.PackTwoLines` | vendorcomponents/softvideodecoder/C2SoftVdecComponent.cpp:78-130 | The same for two lines |
| `PixelPacking.PackGroup` | vendorcomponents/softvideodecoder/C2SoftVdecComponent.cpp:88-115 | One group of four columns |
| `PixelPacking.PackTwo` | vendorcomponents/softvideodecoder/C2SoftVdecComponent.cpp:106-114 | Two pixels from a pair of luma samples read as one word |
| `PixelPacking.UnpackingRecovers` | vendorcomponents/softvideodecoder/C2SoftVdecComponent.cpp:106-129 | For even widths every pixel is written and its three fields give back its Y and the U and V of its square |
| `PixelPacking.WordFields` | vendorcomponents/softvideodecoder/C2SoftVdecComponent.cpp:106-114 | The fields of a word are the samples packed into it |
| `PixelPacking.GroupsStayInLineIff` | vendorcomponents/softvideodecoder/C2SoftVdecComponent.cpp:88 | The group loop stays in its line if and only if the width is at least three; below, its bound wraps |
| `PixelPacking.AllColumnsIff` | vendorcomponents/softvideodecoder/C2SoftVdecComponent.cpp:117-129 | All columns are written if and only if the width is not three above a multiple of four |
| `PixelPacking.AlphaSetIff` | vendorcomponents/softvideodecoder/C2SoftVdecComponent.cpp:106-129 | The alpha of a written column is set if and only if it lies in a whole group of four |
| `ColorConversion.Convert` | vendorcomponents/softvideodecoder/C2SoftVdecComponent.cpp:239-330 | Every pixel is converted as if by itself, in 32-bit integers that never overflow, for all 16-bit samples, matrices and ranges; nothing else is written |
| `ColorConversion.ConvertPixel` | vendorcomponents/softvideodecoder/C2SoftVdecComponent.cpp:287-295 | No step of one pixel leaves 32 bits |
| `ColorConversion.ColorChannels` | vendorcomponents/softvideodecoder/C2SoftVdecComponent.cpp:292-294 | Every channel is in 0..1023 |
| `ColorConversion.WordFields` | vendorcomponents/softvideodecoder/C2SoftVdecComponent.cpp:295 | Each channel decodes from the word |
| `ColorConversion.JoinedIsAdded` | vendorcomponents/softvideodecoder/C2SoftVdecComponent.cpp:295 | The fields do not overlap, so joining them is adding them |
| `ColorConversion.CoefficientsExchanged` | vendorcomponents/softvideodecoder/C2SoftVdecComponent.cpp:197-234 | The table holds the coefficients of the three standards rounded to the nearest, with those of red and blue exchanged |
| `ColorExactness.CloseToStandard` | vendorcomponents/softvideodecoder/C2SoftVdecComponent.cpp:197-295 | For all ten-bit samples, matrices and ranges each channel is within one and a half steps of the exact colour of the standard, with the factors of red and blue exchanged |
| `ColorExactness.PixelFields` | vendorcomponents/softvideodecoder/C2SoftVdecComponent.cpp:255-325 | The word of a pixel holds the channels of the colour of its own Y and the U and V of its square |
| `ColorExactness.BluerWithU` | vendorcomponents/softvideodecoder/C2SoftVdecComponent.cpp:287-294 | Raising U raises blue, strictly but for clipping, never raises green and leaves red alone |
| `ColorExactness.RedderWithV` | vendorcomponents/softvideodecoder/C2SoftVdecComponent.cpp:287-294 | Raising V raises red, strictly but for clipping, never raises green and leaves blue alone |
| `ColorConversion.GreyStaysGrey` | vendorcomponents/softvideodecoder/C2SoftVdecComponent.cpp:287-294 | Without colour the channels are equal: the luma in full range, black at 64 and white at 940 in limited range |
| `ColorConversion.BrighterIsBrighter` | vendorcomponents/softvideodecoder/C2SoftVdecComponent.cpp:287-294 | More luma never darkens a channel |
| `ColorConversion.TruncationHidden` | vendorcomponents/softvideodecoder/C2SoftVdecComponent.cpp:289-294 | Clipping hides that division rounds towards zero |
| `PlanarConversion.RoutesAgree` | vendorcomponents/softvideodecoder/C2SoftVdecComponent.cpp:347-417 | P010 followed by taking high bytes is the direct YV12 conversion, for all samples, odd sizes and monochrome pictures |
| `PlanarConversion.ToP010` | vendorcomponents/softvideodecoder/C2SoftVdecComponent.cpp:383-417 | The planes of the P010 conversion |
| `PlanarConversion.ToYV12` | vendorcomponents/softvideodecoder/C2SoftVdecComponent.cpp:347-381 | The planes of the YV12 conversion |
| `PlanarConversion.ChromaToP010` | vendorcomponents/softvideodecoder/C2SoftVdecComponent.cpp:397-416 | U and V alternate; a monochrome picture gets the neutral value; nothing else is written |
| `PlanarConversion.PlanesRecovered` | vendorcomponents/softvideodecoder/C2SoftVdecComponent.cpp:347-417 | For ten-bit pictures both forms give the planes back, each sample in its own place: whole from P010, its upper eight bits from YV12 |
| `PlanarConversion.MonochromeIsMiddle` | vendorcomponents/softvideodecoder/C2SoftVdecComponent.cpp:397-407 | A monochrome picture gets the middle of the range in both forms |
| `LevelSelection.SetAvcLevel` | vendorcomponents/videoencoder/C2VencIntfImpl.cpp:583-657 | The AVC setter chooses the level of the model |
| `LevelSelection.SetHevcLevel` | vendorcomponents/videoencoder/C2VencIntfImpl.cpp:659-728 | The HEVC setter likewise |
| `LevelSelection.Select` | vendorcomponents/videoencoder/C2VencIntfImpl.cpp:621-654 | The scan of the table with its flags chooses the level of the model |
| `LevelSelection.ChosenIsMax` | vendorcomponents/videoencoder/C2VencIntfImpl.cpp:621-654 | If some level covers the stream, the result is the higher of the supplied and the lowest covering level, covers the stream, and is chosen again when applied again |
| `LevelSelection.ChosenIsLeast` | vendorcomponents/videoencoder/C2VencIntfImpl.cpp:621-654 | No covering level from the supplied one on lies below the result |
| `LevelSelection.AvcRank` | vendorcomponents/videoencoder/C2VencIntfImpl.cpp:624-654 | For AVC: 1b counts for nothing, and the highest level is taken if none covers |
| `LevelSelection.AvcMonotone` | vendorcomponents/videoencoder/C2VencIntfImpl.cpp:619-654 | For AVC, raising size, rate or bitrate never lowers the level, for every size that the size setter accepts |
| `LevelSelection.BlocksRoundUpIff` | vendorcomponents/videoencoder/C2VencIntfImpl.cpp:619 | A length is counted in macroblocks rounded up if and only if it is not within 15 of 2^32, where the 32-bit sum wraps |
| `LevelSelection.HevcFallbackLowersIff` | vendorcomponents/videoencoder/C2VencIntfImpl.cpp:723-726 | An HEVC level is lowered exactly if no level covers the stream and the supplied one is above 5.2 |
| `LevelSelection.HevcFallbackWitness` | vendorcomponents/videoencoder/C2VencIntfImpl.cpp:723-726 | 1920x1080 at 2065 frames per second and 12,000,000 bit/s: 6.2 is lowered to 5.2 |
| `LevelSelection.TablesAscend` | vendorcomponents/videoencoder/C2VencIntfImpl.cpp:600-617 | The tables are in order: no limit shrinks from one level to the next |
| `LevelSamples.FirstAvc` | vendorcomponents/videoencoder/C2VencIntfImpl.cpp:600-606 | 176x144 and 352x288 streams at the limits of levels 1 and 1.1 and just past each of them |
| `LevelSamples.CifAvc` | vendorcomponents/videoencoder/C2VencIntfImpl.cpp:603-607 | The same for 1.2, 1.3 and 2, at 352x288 |
| `LevelSamples.SdAvc` | vendorcomponents/videoencoder/C2VencIntfImpl.cpp:608-611 | The same for 2.1, 2.2 and 3, up to 720x576 |
| `LevelSamples.HdAvc` | vendorcomponents/videoencoder/C2VencIntfImpl.cpp:611-613 | The same for 3.1 and 3.2, up to 1280x1024 |
| `LevelSamples.FullHdAvc` | vendorcomponents/videoencoder/C2VencIntfImpl.cpp:613-616 | The same for 4 and 4.1, up to 2048x1024 |
| `LevelSamples.LargeAvc` | vendorcomponents/videoencoder/C2VencIntfImpl.cpp:615-617 | The same for 4.2 and 5; a stream past 5 gets 5 |
| `LevelSamples.SmallHevc` | vendorcomponents/videoencoder/C2VencIntfImpl.cpp:676-678 | HEVC streams at the limits of levels 1 and 2 and just past them; rates of samples are cut to whole numbers |
| `LevelSamples.SdHevc` | vendorcomponents/videoencoder/C2VencIntfImpl.cpp:678-680 | The same for 2.1 and 3 |
| `LevelSamples.HdHevc` | vendorcomponents/videoencoder/C2VencIntfImpl.cpp:680-682 | The same for 3.1 and 4 |
| `LevelSamples.FullHdHevc` | vendorcomponents/videoencoder/C2VencIntfImpl.cpp:681-684 | The same for 4.1 and 5 |
| `LevelSamples.LargeHevc` | vendorcomponents/videoencoder/C2VencIntfImpl.cpp:683-686 | The same for 5.1 and 5.2 |
| `LevelSamples.HugeHevc` | vendorcomponents/videoencoder/C2VencIntfImpl.cpp:686-689 | The same for 6, 6.1 and 6.2 |
| `LevelSamples.PastHevc` | vendorcomponents/videoencoder/C2VencIntfImpl.cpp:723-726 | A stream past 6.2 gets 5.2 |

## Left out

- WorkLiveness.RunNeverLosesWakeup: lifecycle calls (start, stop, reset) do not overlap `queue_nb` and `drain_nb`, as the Codec 2.0 interface asks; an overlap could lose a wakeup.
- AacCoupling.ListMeetsMap: a call that does not come to an end has no step; when calls end is `AacLoops.EndsIffNoStallForEver`. Which drain modes are ignored comes in with the step.
- VideoCoupling.ListMeetsMap: the clone that carries a picture at the end of a stream is no work of its own.
- AacStream.ProcessInStream: frame size, channel count and delay change only with a decoded frame, and are fixed in this statement; the general accounting is `AacAccounting.RunKeepsLedger`, the bound by the delay alone `AacStream.RunBoundsDelay`.
- AacStream.EosDelivers: frame size and delay are fixed in this statement.
- AacOutput.StreamPutsOut: frame size and delay are fixed in this statement; `AacOutput.RunPutsOut` and `AacOutput.MidStreamCall` hold for all.
- HwVdecHandlers.OvertakenIsReported: for one noted work at a time.
- AacStream.WholeStream: frame size and delay are fixed in this statement.
- HwVdecEos.OnlyTheFront: asks that each picture behind the front one is in a block of its own that is not with the decoder; the exact condition without it is that of `HwVdecEos.EosGoesOutIff`.
- AacDecoder.Decoder.DecodeInput: asks that the loops end, which `AacLoops.EndsIffNoStallForEver` characterises.
- AacDecoder.Decoder.DrainRingBuffer: the product of frames and frame size in 32 bits is not cut; it stays far below.
- AacLoops.OffersEveryPayload: a library that takes only part of what it is offered is not followed byte by byte.
- HwVdecConservation.RunConserves: clones of the last work and configuration updates that the component makes up itself are no works taken over.
- HwVdecEndings.StopEmpties: no other call (queue, start, flush timeout, a second stop) between request and completion.
- HwVdecComponent.Component.OutputBufferReturned: block ids are unique within the pool, and a pool is one at a time; whether a block is obsolete or a change of resolution is over comes in with the event.
- HwVdecComponent.Component.AllocateBuffers: timing and retries of allocation; what was fetched comes in with the event.
- HwVdecComponent.Component.DequeueWork: which handler is posted next is not modelled; the theorems hold for handlers in any order.
- HwVdecComponent.Component.FlushDone: blocks attached to the first abandoned work when no surface is used.
- HwVdecComponent.Component.Perform: the fields of the component are grouped into five records.
- PixelPacking.Pack: planes and destination are lines of samples; strides and address arithmetic are the lengths of the lines.
- ColorConversion.Convert: matrix and range are given; how missing colour aspects are filled in is not modelled.
- LevelSelection.SetAvcLevel: frame rates and their products are exact; rounding of floating point is not modelled.
- LevelSelection.SetHevcLevel: the rate of samples fits 32 bits, as the conversion to an unsigned number needs.
- Tunnel and tuner-passthrough modes, HDR metadata, colour aspects, game mode and low latency of the hardware decoder.
- Release and destruction of the software components, a missing listener, and cloned works of the software decoders.
- The bodies of the AAC, FFmpeg, Dolby, DTS and hardware decoders, and the `process` functions of the other audio decoders.
- The 8-bit planar copy, which moves whole lines.
- Dynamic loading, factories, the component store, logging, tracing, dumps and properties.
