# ADS128x driver: a model and its proofs

A Dafny model of the ADS1281-ADS1284 driver for RT-Thread: the multi-chip acquisition pipeline,
the chip driver with its cached configuration, and the two layers of ownership above it.
`dafny verify dfyconfig.toml` checks everything.

## The acquisition pipeline

`src/ads128x/ads128x_acq.c` is modelled twice.

* `Pipeline.dfy` is a state machine. One event is one stretch of code that nothing can interrupt:
  a ring operation under its spinlock, a semaphore operation, or code that touches only the
  thread's own variables. Interrupts (per device or aggregated), the worker and the controller
  interleave freely, so a legal run is any schedule. Ring depth, number of devices, mask, batch
  size and the largest semaphore count are symbolic. History variables record what interrupts
  read, which pushes were kept, what was published, and what the worker last saw.
* `Acquisition.dfy` is the code in its own form: rings overwritten in place (`Ring.dfy`), the
  globals, and the nested loops of the worker. Before every atomic section of the worker an
  arbitrary part of a tape of interrupt and controller events happens. Its class invariant says
  that the variables hold the state of a legal run of the state machine, so every theorem about
  runs is a theorem about this code.

On top of the state machine stand conservation of samples (`Streams.dfy`), timestamps
(`Timestamps.dfy`), batching and bounds (`Sessions.dfy`), wakeups (`Wakeup.dfy`), alignment and
exact output (`Alignment.dfy`), how deep rings must be (`NoDrop.dfy`, `RingDepth.dfy`, with
schedules built in `Schedules.dfy` and `Tracking.dfy`), what the aggregated interrupt adds
(`Aggregated.dfy`), stopping (`Stopping.dfy`), and group control (`Groups.dfy`).

## The driver, the chip, and who owns them

`Chip.dfy` is the chip: a register file, a continuous-read flag, power, and a log of all traffic
that reaches it, each message with the mode the chip was in. `Driver.dfy` states what each call of
the driver does to driver and chip together. `Devices.dfy` is the driver in its own form, classes
whose methods update the C structures' fields; each method is proved to do what `Driver` or
`AcqClass` says. The theorems are about arbitrary sequences of calls: the protocol
(`Protocol.dfy`), the mode flag (`ModeFlag.dfy`), cache against chip (`Coherence.dfy`), fields
(`Fields.dfy`), decoding (`Decoding.dfy`), the frozen owned chip (`Freeze.dfy`), class and chip owner (`AcqClass.dfy`).
`Waiting.dfy` is the polling loop on its wrapping tick counter. What each single call, class command
and group command does, byte by byte, is in `Outcomes.dfy`, `ClassOutcomes.dfy` and
`GroupOutcomes.dfy`.

## Assumptions

* `World.resetContinuous`: whether the chip is in continuous mode after a reset or power-up. The
  driver takes it to be false. It is a parameter here; `Protocol.DisciplineExact` shows that the
  bus discipline holds if and only if it is false.
* A transfer either succeeds or fails without any effect on the chip.
* A release of the semaphore before the first `rt_sem_init` counts like any other; the code does
  not guard against an interrupt that comes so early.
* Each device has one interrupt source, and one thread calls start and stop. Calls of the core
  driver are atomic with respect to the sample reads of interrupts.
* What malloc, thread creation, the SPI framework, clocks and converters answer is a parameter.

## Where the code and its documentation differ

The model follows the code.

* Frames of the aggregated interrupt do not stay aligned once a ring overflows
  (`Aggregated.OverflowMisaligns`); they do if and only if the rings are one deeper than the bursts
  (`Aggregated.AlignmentExact`).
* Start does not empty the rings, and `ads128x_acq_isr` fills them without a worker. A session
  that starts with all masked rings filled may sleep although a frame is ready
  (`Wakeup.LostWakeupExact` gives the exact condition, `Wakeup.LeftoverIsSleptThrough` a run).
* Most setters change the cache before the ownership check and the transfer, so a refused
  `ads128x_set_mode` changes decoding (`Coherence.SetterCoherenceExact`,
  `Decoding.RejectedModeMisreads`, `Decoding.RefusalLosesConversion`).
* `ads128x_write_reg` does not check the register number: 0x41 and others reach CONFIG0 or CONFIG1
  too (`Coherence.Addresses`, `Coherence.DirectWriteExact`).
* Kconfig does not bound the ring depth, but `count` has 16 bits (`Rings.RefinementExact`).
* A missing operation answers -RT_EBUSY, not -RT_ENOSYS, GET_INFO excepted
  (`AcqClass.MissingHookLooksBusy`).
* A group or bare DETACH after a class ATTACH leaves the class owner behind for good
  (`AcqClass.BareDetachWedges`, `AcqClass.WedgedForGood`), and a group DETACH also frees chips of
  other owners (`Groups.GroupHandover`).
* `ads128x_acq_stop` is not heard in the worker's inner loop, which goes on as long as samples keep
  coming (`Stopping.StopMayWait`; `Stopping.FramesBound` gives the bound).
* `ads128x_power_down` by pin leaves the continuous-mode flag set. If the RESET of the power-up that
  follows is lost, the chip has power, the flag is wrong, the cache is wrong, and reads return
  noise (`Decoding.LostResetMisleads`, `ModeFlag.FlagExact`, `Coherence.PowerUpExact`).
* `ads128x_init_ex` does not ask for an owner before it sets pins (`Freeze.StepFrozen`).
* `ads128x_power_up` restores CONFIG0 and CONFIG1 only (`Coherence.PowerCycleRestores`).
* `ads128x_wait_data` polls the pin and never takes `drdy_sem`; a failed read is the sample 0
  (`Decoding.FailedReadIsZero`).

## Model

| member | source | states |
|---|---|---|
| Rings.RefinementExact | src/ads128x/ads128x_acq.c:38-94 | over every sequence of pushes, pops and counts, the circular buffer with 16-bit positions answers as a bounded queue that refuses the newest sample when full, if and only if the depth is at most 65535 |
| Rings.AnswersAgree | src/ads128x/ads128x_acq.c:56-94 | from any valid ring, not only an empty one, all later answers are those of the queue it represents |
| Rings.PushRefines | src/ads128x/ads128x_acq.c:56-68 | a push keeps `wp == (rp + count) % DEPTH` and appends to the queue, or leaves it alone when full |
| Rings.PopRefines | src/ads128x/ads128x_acq.c:70-84 | a pop keeps the ring valid, answers the oldest sample or 0, and removes it |
| Rings.CountWraps | src/ads128x/ads128x_acq.c:61-66 | with a deeper array, 65536 pushes wrap `count` to 0 and the next pop answers 0 although a sample is due |
| Rings.Ring.Push | src/ads128x/ads128x_acq.c:56-68 | the in-place push keeps the buffer object, and the queue becomes the old one with the sample offered |
| Rings.Ring.Pop | src/ads128x/ads128x_acq.c:70-84 | the in-place pop answers the old queue's head or 0 and leaves the rest |
| Rings.Ring.Avail | src/ads128x/ads128x_acq.c:86-94 | the count answered is the length of the queue |
| Sessions.StoresInBounds | src/ads128x/ads128x_acq.c:274-286 | whenever a frame is being filled, `fi` is below the number of allocated frames and the frame has a channel for every device |
| Sessions.BatchingExact | src/ads128x/ads128x_acq.c:279-292 | while the worker runs all its publishes hold exactly `batch` frames; when it exits at most the last one is shorter and not empty; F frames gave ceil(F / batch) publishes |
| Stopping.StopEndsSession | src/ads128x/ads128x_acq.c:252-297 | after a stop request, under every schedule, the worker comes back from the semaphore at most once more, and not at all unless it was waiting there |
| Stopping.FramesBound | src/ads128x/ads128x_acq.c:257-285 | from any moment on, a stop request included, the frames a worker still makes are at most, for each of its devices, what the ring holds, a sample already in the current frame, and what the ring accepts from then on |
| Stopping.StopMayWait | src/ads128x/ads128x_acq.c:252-285 | the flag is not read in the inner loop: for every n a run, from a reachable state, that makes n frames after the stop request before the flag is looked at |
| Streams.Conservation | src/ads128x/ads128x_acq.c:232-297 | in every reachable state, over any sessions and masks, the samples a ring accepted are in order: its published channel, the unpublished batch, the part-filled frame, the ring |
| Streams.CheckThenPopSound | src/ads128x/ads128x_acq.c:261-278 | although interrupts run between checks and pops, a masked ring is never empty when popped, and the oldest sample is what gets stored |
| Streams.UnmaskedChannelsZero | src/ads128x/ads128x_acq.c:275-278 | every published frame has a channel per device and 0 in those outside its session's mask |
| Timestamps.TimestampsExact | src/ads128x/ads128x_acq.c:274-284 | over all sessions the timestamps of published, waiting and begun frames are in order exactly the ticks read when the frames were begun, never what the memory held |
| Wakeup.NoLostWakeup | src/ads128x/ads128x_acq.c:252-285 | in a session whose semaphore was initialised in time, a worker that waits while all masked rings hold a sample finds the semaphore positive or an interrupt between push and release |
| Wakeup.UnitsConserved | src/ads128x/ads128x_acq.c:98-131 | while the semaphore cannot saturate, each interrupt adds one unit, each take that does not time out removes one, and nothing else changes the count |
| Wakeup.LostWakeupExact | src/ads128x/ads128x_acq.c:342-346 | a session never sleeps through a ready frame if and only if, at rt_sem_init, some masked ring is empty or some interrupt has pushed and not released |
| Wakeup.LeftoverIsSleptThrough | src/ads128x/ads128x_acq.c:346-355 | the failing case is reachable in every configuration with per-device interrupts: after a start that fails for want of memory an interrupt fills the ring, and the next start reaches rt_sem_init with nothing in flight |
| Alignment.RecordedHolds | src/ads128x/ads128x_acq.c:98-131 | what interrupts read from a device is what they pushed, in order, and at most one sample in hand |
| Alignment.KeptIsColumn | src/ads128x/ads128x_acq.c:241-295 | over all sessions with one mask, the accepted samples of a device are its column of all frames ever made, then the part-filled frame, then the ring |
| Alignment.AlignedUpToDrops | src/ads128x/ads128x_acq.c:61-66 | channel i of frame k is reading k + d of device i, with d the readings of it dropped before |
| Alignment.AlignedWithoutDrops | src/ads128x/ads128x_acq.c:274-279 | without drops on a device, its channel of frame k is its k-th reading |
| Alignment.ExactOutputAtRest | src/ads128x/ads128x_acq.c:252-285 | never more frames than samples of any masked device; at rest exactly as many as the device with the fewest accepted samples |
| NoDrop.NoneDropped | src/ads128x/ads128x_acq.c:61-66 | if masked devices never differ by more than S pushes and none pushes more than B times between two empty sightings of the worker, then with S + B at most the depth nothing is ever dropped |
| RingDepth.DepthExact | src/ads128x/ads128x_acq.c:22-24 | for any two or more devices on their own lines the bound is exact: over all runs of pace S, B no sample is ever dropped if and only if S + B is at most the depth, or S or B is 0 and nothing can be pushed at all |
| RingDepth.AlignmentExact | src/ads128x/ads128x_acq.c:61-66 | for devices on their own lines the same depth decides over alignment: every frame of every run of pace S, B holds equally numbered readings of all masked devices if and only if the depth suffices |
| RingDepth.Overflow | src/ads128x/ads128x_acq.c:61-66 | for any mask a schedule of the pace that offers one ring S + B readings with none taken out, dropping all above the depth |
| Aggregated.ReadsTogether | src/ads128x/ads128x_acq.c:114-131 | between aggregated interrupts all masked devices have been read equally often, and push counts never differ by more than one |
| Aggregated.AggregatedAligned | src/ads128x/ads128x_acq.c:114-131 | with rings one deeper than the bursts the worker allows, nothing is dropped and every channel of frame k comes from interrupt k |
| Aggregated.AlignmentExact | src/ads128x/ads128x_acq.c:111-131 | over all runs with at most B pushes of a device between two empty sightings of the worker, every frame holds the readings of one single interrupt if and only if the depth is at least B + 1; likewise for losing nothing; for every mask of two or more devices |
| Aggregated.OverflowMisaligns | src/ads128x/ads128x_acq.c:275-278 | for every depth, mask and burst at least as large as the depth, a run within the burst whose published frame holds readings of two different interrupts |
| Acquisitions.Acquisition.Entry | src/ads128x/ads128x_acq.c:232-297 | the worker as written, under any interference, follows a legal run; it ends without memory, and as long as it has not ended no stop is pending; when it has ended every accepted sample has been published once and in order or is in its ring |
| Acquisitions.Acquisition.Assemble | src/ads128x/ads128x_acq.c:257-285 | after finitely many interrupts, whatever they add, the endless loop ends with some masked ring empty after taking equally many oldest samples from every masked ring, at least as many as the least filled one had; with no further pushes exactly that many |
| Acquisitions.Acquisition.OneFrame | src/ads128x/ads128x_acq.c:259-284 | one turn either finds a masked ring empty and takes nothing, or makes a frame whose masked channels hold the oldest sample of their rings, which lose just that, and whose other channels are 0 |
| Acquisitions.Acquisition.AllAvailable | src/ads128x/ads128x_acq.c:261-273 | the answer is no only if a masked ring is empty; looking changes no ring |
| Acquisitions.Acquisition.FillFrame | src/ads128x/ads128x_acq.c:274-278 | the frame gets the tick, every masked ring gives its oldest sample to its channel, no other ring gives anything, and newcomers queue behind what was there; no other frame changes |
| Acquisitions.Acquisition.StoreNow | src/ads128x/ads128x_acq.c:279-284 | one frame more; a full batch is published and `fi` starts again, with rings and mask untouched |
| Acquisitions.Acquisition.Flush | src/ads128x/ads128x_acq.c:288-292 | one publish of the first `fi` frames if there are any, otherwise none |
| Acquisitions.Acquisition.Interfere | src/ads128x/ads128x_acq.c:98-131 | every interrupt event and stop request of the tape happens, in order, exactly if it can; rings keep their contents in front, and of the worker's variables only semaphore and stop flag change |
| Acquisitions.Acquisition.AcqIsr | src/ads128x/ads128x_acq.c:98-109 | for a bad index or no device nothing; otherwise that ring alone is offered the sample and one unit is released, kept or not, worker or not |
| Acquisitions.Acquisition.AcqIsrAll | src/ads128x/ads128x_acq.c:114-131 | nothing without a worker; otherwise every masked ring and no other is offered its sample, and one unit is released for all |
| Groups.Group.StartDevices | src/ads128x/ads128x_acq.c:314-328 | the chips are started in order up to the first present one that refuses, whose error is the answer; those before it stay started and later ones are not asked; otherwise the mask is exactly the chips present |
| Acquisitions.Acquisition.Start | src/ads128x/ads128x_acq.c:299-358 | a refused call (running, bad batch, chip error, no chip) leaves all variables alone and the chips as far as they were started; any other has put every chip present into continuous mode and sent it one SYNC, touching no other, sets the variables, has a worker exactly when there is memory for it, and no ring loses a sample |
| Acquisitions.StartAnswers | src/ads128x/ads128x_acq.c:305-333 | which call is refused with which answer: running, batch outside 1 to 16, the first chip that is owned or whose RDATAC is lost, no chip; and what has happened to the chips by then |
| Acquisitions.Acquisition.Stop | src/ads128x/ads128x_acq.c:360-368 | with a worker the stop flag is set and nothing else changes; without one -RT_ERROR and no change |
| Acquisitions.Acquisition.ControlGroup | src/ads128x/ads128x_acq.c:140-227 | group commands act on the chips the latest start found and on none of the acquisition's variables |
| Groups.Group.Control | src/ads128x/ads128x_acq.c:140-227 | the loops over chips updated in place do to the chips and answer what the rows of GroupOutcomes say |
| GroupOutcomes.GroupStarts | src/ads128x/ads128x_acq.c:146-154 | START sends RDATAC to every free masked chip whose flag is clear; where it gets through, flag and powered chip are in continuous mode; registers and cache stay, other chips are untouched |
| GroupOutcomes.GroupStops | src/ads128x/ads128x_acq.c:156-164 | STOP sends SDATAC to every free masked chip whose flag is set, and where it gets through flag and chip are out of continuous mode, registers and cache unchanged |
| GroupOutcomes.GroupSyncs | src/ads128x/ads128x_acq.c:166-192 | SYNC is a low and then a high level on the first masked chip with a SYNC pin, whose answer counts, or else the byte 0x04 to every free masked chip |
| GroupOutcomes.GroupResets | src/ads128x/ads128x_acq.c:194-202 | RESET leaves every free powered masked chip whose message gets through at the reset values, and the cache at 0x52 and 0x08 |
| GroupOutcomes.GroupOwners | src/ads128x/ads128x_acq.c:204-225 | ATTACH and DETACH change owners of masked chips and nothing else; an unknown command is -RT_ENOSYS and changes nothing |
| GroupOutcomes.StartRouses | src/ads128x/ads128x_acq.c:314-340 | if no chip refuses, each chip present gets RDATAC if its flag is clear and then 0x04, is in continuous mode if powered, and no other chip is touched |
| GroupOutcomes.StartRefused | src/ads128x/ads128x_acq.c:323-327 | if one refuses, those before it are in continuous mode, it is owned or its message was lost, and later ones are untouched |
| Groups.MembersSeeCalls | src/ads128x/ads128x_acq.c:140-227 | over any sequence of group commands each chip sees a run of single calls, so all results about runs apply to it |
| Groups.GroupOwnsExact | src/ads128x/ads128x_acq.c:204-212 | group ATTACH always answers EOK, and gives the owner every masked chip if and only if nobody else had one |
| Groups.OwnedGroupIgnores | src/ads128x/ads128x_acq.c:146-202 | no sequence of commands without DETACH changes an owned group at all |
| Groups.GroupHandover | src/ads128x/ads128x_acq.c:204-222 | ATTACH, any commands, DETACH: every masked chip and its driver are as before and free, also those another owner held |
| Protocol.ProtocolSafety | src/ads128x/ads128x_core.c:81-132 | after any run of calls, transfers failing or not, no RREG or WREG has met a chip in continuous mode, and the driver's flag is set whenever the chip is in it |
| ModeFlag.FlagExact | src/ads128x/ads128x_core.c:229-265 | from a state where flag and mode are equal, a call keeps them equal if and only if it is neither a power-down by pin of a free device in continuous mode nor a delivered start of a free one without power |
| ModeFlag.RunFlagExact | src/ads128x/ads128x_core.c:229-548 | over any run, flag and mode are equal at every moment if and only if none of the calls is of that kind when made |
| ModeFlag.FlagAfterInit | src/ads128x/ads128x_core.c:649-764 | the same from every successful initialisation |
| ModeFlag.FlagAfterReset | src/ads128x/ads128x_core.c:381-410 | a reset or power-up that succeeds makes them equal again from any state, and the same holds from there |
| Protocol.RunSafe | src/ads128x/ads128x_core.c:229-410 | that invariant is kept by every run from any safe state |
| Outcomes.StartOutcome | src/ads128x/ads128x_core.c:229-246 | start answers -RT_EBUSY when owned, -RT_EIO when the RDATAC it needs is lost, else success, and only then sets flag and, on a powered chip, mode; registers stay |
| Outcomes.StopOutcome | src/ads128x/ads128x_core.c:248-265 | stop answers likewise with SDATAC; a stop that succeeds leaves flag and chip out of continuous mode, one that fails changes neither |
| Outcomes.CommandOutcomes | src/ads128x/ads128x_core.c:412-438 | wakeup, standby, sync and the calibrations send just the byte 0x00, 0x02, 0x04, 0x60 or 0x61, change nothing else, and report a lost message |
| Outcomes.SyncHwOutcome | src/ads128x/ads128x_core.c:460-476 | the SYNC pulse is low, then high, so the line idles high; without a pin it is the byte 0x04 |
| Outcomes.SetSyncPinOutcome | src/ads128x/ads128x_core.c:442-456 | a SYNC pin becomes an output that is high |
| Outcomes.SetPwdnPinOutcome | src/ads128x/ads128x_core.c:496-505 | a PWDN pin becomes an output, driven only by power-down and power-up |
| Outcomes.PowerDownOutcome | src/ads128x/ads128x_core.c:507-516 | power-down drives the PWDN line high and cuts the power, or without a pin sends standby and reports its loss |
| Outcomes.PowerUpOutcome | src/ads128x/ads128x_core.c:518-548 | power-up drives the line low, resets, writes CONFIG0 and then CONFIG1, and ends at the first lost message with its error |
| Outcomes.ResetOutcome | src/ads128x/ads128x_core.c:381-410 | reset pulses the line or sends 0x06; where it gets through the cache is 0x52 and 0x08, the flag clear, and a powered chip at its reset values |
| Outcomes.RegisterOutcomes | src/ads128x/ads128x_core.c:81-132 | a register access is one message with the number merged in, after SDATAC if the flag is set, and is given up if that is lost |
| Outcomes.SetHpfOutcome | src/ads128x/ads128x_core.c:356-364 | the low byte goes into HPF0 and the high byte into HPF1 |
| Outcomes.CheckIdOutcome | src/ads128x/ads128x_core.c:566-585 | the identity check fails when owned, when a message is lost, or when the low four bits of register 0 are not 0 |
| Outcomes.SetterOutcome | src/ads128x/ads128x_core.c:268-378 | which arguments each setter takes, its answer in every case, the one field of cache and, on success, chip that changes, and that no other register does |
| Outcomes.WaitDataOutcome | src/ads128x/ads128x_core.c:139-159 | without a DRDY pin success at once; with one success or -RT_ETIMEOUT, and nothing but the pin is looked at |
| Outcomes.ReadDataOutcome | src/ads128x/ads128x_core.c:168-200 | a read looks at DRDY if there is a pin, sends RDATA unless the flag is set, and changes nothing |
| Outcomes.AttachOutcome | src/ads128x/ads128x_core.c:610-640 | attach and detach answer -RT_EINVAL, -RT_EBUSY or -RT_ERROR as documented and change the owner alone |
| Outcomes.InitOutcome | src/ads128x/ads128x_core.c:649-764 | each early return of initialisation with its answer, and the pins that are set by then |
| Outcomes.InitMessages | src/ads128x/ads128x_core.c:649-764 | on a working bus, exactly the pin levels and messages of an initialisation in order, with gain and input left out for chips without them |
| Protocol.DisciplineExact | src/ads128x/ads128x_core.c:381-410 | the discipline holds over all worlds, initialisations and runs if and only if a reset leaves the chip out of continuous mode |
| Protocol.IdCheckMeetsContinuousMode | src/ads128x/ads128x_core.c:566-585 | otherwise a plain initialisation succeeds, and its second message, the identity check right after the reset, breaks the discipline |
| Coherence.WriteOutcome | src/ads128x/ads128x_core.c:81-103 | for every register number and state in step: the answer is -RT_EBUSY when owned, -RT_EIO when a message is lost, else success; only then, on a powered chip, the addressed register holds the value although WREG is ignored in continuous mode, and no other register changes |
| Coherence.ReadOutcome | src/ads128x/ads128x_core.c:107-132 | a read succeeds exactly when it can be delivered, and then returns the chip's register, in continuous mode or not, changing none |
| Coherence.Addresses | src/ads128x/ads128x_core.c:81-103 | register numbers of the map address themselves, and 0x41 and 0x42 reach CONFIG0 and CONFIG1 |
| Coherence.DirectWriteExact | src/ads128x/ads128x_core.c:81-103 | a direct write breaks coherence if and only if it is delivered to a configuration register, under its number or an alias, with another value than the cached one |
| Coherence.SetterCoherenceExact | src/ads128x/ads128x_core.c:268-378 | a setter keeps cache and chip equal if and only if its write is delivered or it asks for what is set already |
| Coherence.PowerUpExact | src/ads128x/ads128x_core.c:518-548 | a power-up ends with cache and chip equal, on a chip under power, if and only if the reset gets through, or the supplied registers equal the cache anyway, and the restoring writes get through as far as the saved values differ from the reset values |
| Coherence.RunCoherenceExact | src/ads128x/ads128x_core.c:229-548 | over any run, with any failures and owners, the cache equals the registers of a chip under power at every moment if and only if every setter is delivered or idle, every direct configuration write is lost or repeats the cache, and every power-up resets and restores |
| Coherence.ConfigCoherence | src/ads128x/ads128x_core.c:229-548 | from a successful initialisation, any run of setters on the free device and other calls but direct configuration writes keeps cached CONFIG0 and CONFIG1 equal to the chip's whenever it has power; any transfers may fail except those of setters and power-ups |
| Coherence.InitCoherent | src/ads128x/ads128x_core.c:649-764 | after a successful initialisation cache and chip agree on high resolution, 250 SPS and the chosen filter, even where later writes failed |
| Coherence.PowerCycleRestores | src/ads128x/ads128x_core.c:507-548 | if power-down and power-up both succeed, CONFIG0 and CONFIG1 are as before, continuous mode is off and every other register is at its reset value, if and only if the chip had power before or there is a PWDN pin |
| Coherence.PowerCycleSucceeds | src/ads128x/ads128x_core.c:507-548 | on a working bus both calls succeed for a free device |
| Fields.SetterSetsOneField | src/ads128x/ads128x_core.c:268-378 | whatever the registers hold, each setter changes the one field it is about and no other |
| Fields.LastValueSet | src/ads128x/ads128x_internal.h:58-68 | after any run of successful setters since a reset every field of cache and chip decodes to its last set value or its default |
| Fields.CodesInvert | src/ads128x/ads128x_core.c:268-308 | the rate and gain tables accept exactly the documented values and decode back to them |
| Decoding.RoundTrip32 | src/ads128x/ads128x_core.c:203-226 | every 32-bit two's complement value survives transmission and high-resolution decoding |
| Decoding.RoundTrip24 | src/ads128x/ads128x_core.c:203-226 | every 24-bit value with any status byte survives the other format |
| Decoding.NarrowReadExact | src/ads128x/ads128x_core.c:203-226 | a high-resolution word read in the wrong mode is right if and only if it fits 24 bits |
| Decoding.WideReadExact | src/ads128x/ads128x_core.c:203-226 | a low-power word read in the wrong mode is right if and only if its status byte is the sign extension |
| Decoding.ReadsConversion | src/ads128x/ads128x_core.c:168-227 | with cache, flag and chip in agreement, a ready read whose transfer succeeds returns the chip's conversion, reading continuously or not |
| Decoding.OutOfSyncReadsNoise | src/ads128x/ads128x_core.c:178-227 | with the flag set for a chip that is not in continuous mode, such a read returns what an unaddressed chip leaves on the line |
| Decoding.ReadsConversionAfterRun | src/ads128x/ads128x_core.c:168-227 | the same after every orderly run from a successful initialisation, whatever reads and other transfers failed in it, as long as the chip has power and ModeFlag.FlagAfterInit holds the flag right |
| Decoding.FailedReadIsZero | src/ads128x/ads128x_core.c:168-200 | a read that times out or fails returns 0 |
| Decoding.RejectedModeMisreads | src/ads128x/ads128x_core.c:366-378 | on an owned high-resolution device a refused low-power request leaves reads right exactly for conversions that fit 24 bits |
| Decoding.RefusalLosesConversion | src/ads128x/ads128x_core.c:366-378 | it happens: after initialisation and attach a read returns 2^24; after the refused request it returns 0 |
| Decoding.LostResetMisleads | src/ads128x/ads128x_core.c:507-548 | it happens: initialise, start, power down by pin, and power up with the RESET lost; the chip has power, its registers differ from the cache, the flag is wrong, and a conversion of 1 is read as 0 |
| Freeze.StepFrozen | src/ads128x/ads128x_core.c:16-22 | a call leaves an owned device frozen if and only if it is neither the owner's detach nor a first initialisation that finds a bus or sets a pin otherwise |
| Freeze.OwnedFreeze | src/ads128x/ads128x_core.c:16-22 | over any run, an owned chip has at every moment seen only data reads, with registers, mode, power, pins, mode flag and owner as they were, if and only if none of the calls is of that kind when made |
| AcqClass.AgreementExact | src/acq_device.c:86-117 | a call keeps class and chip owner equal if and only if it is neither a bare attach of a free device by a real owner nor a bare detach by the very owner |
| AcqClass.OwnersAgreeExact | src/acq_device.c:86-117 | over any sequence of class commands, reads and bare calls the owners are equal at every moment if and only if none of the calls is of that kind when made |
| AcqClass.OwnersAgree | src/ads128x/ads128x_acqdev.c:104-114 | from a free registration, class and chip owner are equal after every sequence of class commands, reads and other bare calls |
| AcqClass.OwnershipOutcomes | src/acq_device.c:86-117 | ATTACH succeeds exactly for a free device and a real owner and changes nothing otherwise; DETACH succeeds exactly when owned and frees both layers |
| ClassOutcomes.ClassStart | src/acq_device.c:70-72 | START of a free device with the operation starts it as Outcomes.StartOutcome says, a powered chip with a right flag then reading continuously; otherwise -RT_EBUSY and no change |
| ClassOutcomes.ClassStop | src/acq_device.c:74-76 | STOP likewise leaves flag and chip out of continuous mode |
| ClassOutcomes.ClassSync | src/acq_device.c:78-80 | SYNC likewise sends the byte 0x04 and nothing else |
| ClassOutcomes.ClassReset | src/acq_device.c:82-84 | RESET likewise resets cache and chip |
| ClassOutcomes.ClassRate | src/acq_device.c:54-56 | RATE sets the sample rate to the argument in cache and chip and no other field; other rates are -RT_EINVAL |
| ClassOutcomes.ClassChannel | src/acq_device.c:58-60 | CHANNEL sets the input for signed bytes 0 to 4; any other, negative ones included, is -RT_EINVAL |
| ClassOutcomes.ClassGain | src/acq_device.c:62-64 | GAIN sets the gain to the argument; other gains are -RT_EINVAL |
| ClassOutcomes.ClassFilter | src/acq_device.c:66-68 | FILTER sets the filter for signed words 0 to 3; any other, negative ones included, is -RT_EINVAL |
| ClassOutcomes.ClassOwnership | src/acq_device.c:86-117 | ATTACH and DETACH in every state, agreed or not, with or without operations, change owners and nothing else |
| AcqClass.ClassFreeze | src/acq_device.c:52-84 | through the class an owned device is frozen including the driver's cached configuration |
| AcqClass.MissingHookLooksBusy | src/acq_device.c:55-127 | over all acting commands, devices and operation tables, -RT_ENOSYS is answered for unknown commands only; a missing operation answers -RT_EBUSY and changes nothing |
| AcqClass.BareDetachWedges | src/acq_device.c:108-115 | of all calls exactly a bare detach with the chip's own owner leaves the class owner set and the chip free |
| AcqClass.WedgedForGood | src/acq_device.c:103-117 | no sequence of class commands clears such an owner; each of them fails |
| Devices.Ads128x.WriteReg | src/ads128x/ads128x_core.c:81-103 | the fields and the chip end up as the write's specification says, SDATAC first in continuous mode |
| Devices.Ads128x.ReadReg | src/ads128x/ads128x_core.c:107-132 | as above for reads; `*val` is written only on success, with the register Coherence.ReadOutcome speaks of |
| Devices.Ads128x.ReadData | src/ads128x/ads128x_core.c:168-227 | the buffer filled in place and shifted together gives the specified value; a failure gives 0 |
| Devices.Ads128x.Reset | src/ads128x/ads128x_core.c:381-410 | pin or command, then the cached defaults, exactly when nothing failed |
| Devices.Ads128x.PowerUp | src/ads128x/ads128x_core.c:518-548 | supply, reset, and the two saved registers, stopping at the first failure |
| Devices.Ads128x.InitEx | src/ads128x/ads128x_core.c:649-764 | the whole initialisation with each of its early returns |
| Devices.AcqDevice.Control | src/acq_device.c:46-129 | the dispatcher with its owner written first and rolled back does to both layers, and answers, what the rows of ClassOutcomes say |
| Waiting.WaitData | src/ads128x/ads128x_core.c:139-159 | the polling loop answers what the wrapping test decides at the first moment that ends it |
| Waiting.WrapExact | src/ads128x/ads128x_core.c:148-149 | with gaps of at most `gap` ticks between tests, the loop gives the wanted answer for every clock and line if and only if timeout plus gap is at most 2^32 |

## Left out

- Acquisitions.Acquisition.Entry: a call is watched for a given number of waits, because the thread may run for ever; every finite prefix is covered.
- Acquisitions.Acquisition.AcqIsr: the handlers as wholes run without interruption between their sections; interrupted handlers are covered event by event in the state machine.
- Alignment.KeptIsColumn: all sessions of the run use one mask; with changing masks only Streams.Conservation holds.
- Masks are sets of device numbers, not 16-bit words; samples are integers.
- Groups: a RESET line shared by several chips is modelled as one line per chip.
- The effect of calibration on the offset and full-scale registers, standby, and the analog meaning of filter, high-pass and SYNC settings.
- The corner frequency a high-pass register value stands for.
- The topic a batch is published under, and an instance number out of range in `ads128x_init_ex`.
- The SPI framework, bus sharing, pin modes beyond configured and driven, and all delays.
- Races between driver fields and interrupts on several cores, for example a read between SDATAC and the update of the flag.
- GET_INFO, frame sizes of the class read, device naming and unregistering: constants and bookkeeping.
- `src/ads128x/ads128x_adc.c`, the sample application and the build files: thin wrappers.
- The DeanDAQ library: a publish appends to a log.
