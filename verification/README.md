# Models of the MX2150 tree

Dafny models of the parts of this Android tree whose behaviour is hard to see from
one function at a time, with proofs about whole runs and all inputs.

- **MUSB USB host** (`Slots`, `Scheduler*`, `MusbHost`): queue heads, hardware bindings,
  the control ring, URB lists and FIFO slots. `Scheduler` is the step specification; it
  is total, and `fault` marks a state where the driver would have followed a freed, null
  or misread pointer. `SchedulerInvariant` to `SchedulerTheorems` prove the invariant of
  all runs, `SchedulerLaws` and `SchedulerRoles` what each entry point does, `SchedulerOpens`, `SchedulerShutdown`, `SchedulerReturns` and `SchedulerWitness`
  the shutdown, and `MusbHost` is the driver's imperative code, each method
  ending in the state of its specification.
- **USB transfers** (`ControlTransfer`, `ControlStages`, `Receive`, `Transmit`, `PioHost`): endpoint 0
  and PIO transfers against sections 8.5.3 and 5.8.3 of the USB 2.0 specification.
- **FIFO byte movers and OTG roles** (`FifoMover`; `Otg`, `OtgTransitions`).
- **FAT formatting** (`Fat*`, `Newfs*`, `SectorWriter`, `BootFields`, `DeviceContents`): choices,
  sizing, alignment, restart, sector emission and what a reader decodes, against the Microsoft FAT32
  File System Specification 1.03.
- **MPIDR hash** (`MpidrHash`), **loose phone number comparison** (`PhoneCompare`).
- **Audio record thread** (`RecordThread`, `RecordPauses`, `PositionCallbacks`) and
  **MTP server** (`MtpSession`, `MtpSends`, `MtpHistory`).
- Shared: `Wrappers`, `Arith`, `Bits`, `Buffers`.

The pattern is the same throughout: functions state what a step does, lemmas prove what the
source promises of it, and a class or method written as the source writes it ends in the
state the functions give.

The scheduler is the one without `CONFIG_BIRD_OTG_ISO_TRANSFER`, with dynamic FIFOs and no
QMU or DMA; endpoints other than 0 do not share their FIFO. Entry points hold `musb->lock` and are
single steps, except that a completion callback runs while it is dropped and may enqueue. On
the failure path of `musb_urb_enqueue` the lock is taken again to unlink the URB; the model
treats the call as one step. `usb_hcd_link_urb_to_ep`, `usb_hcd_check_unlink_urb` and
`kzalloc` answer through parameters; a disabled endpoint links no URB. One `Urb` value is one
submission of an URB.

Where the code differs from what it or its comments promise:

- `musb_h_pre_disable` visits endpoint 0 once per direction, so a third control queue head
  stays bound (`SchedulerShutdown.RingExact`, `SchedulerWitness.ThreeControls`); and a
  completion during the loop can bind an endpoint the loop is past
  (`SchedulerShutdown.ShutdownExact`, `SchedulerWitness.Rebound`).
- The size code of the isochronous FIFO allocator exceeds its reservation of 3, 5, 6 or 7
  slots, and over 4096 bytes of packet memory is that of 8 bytes (`Slots.BirdFifoFits`).
- The comment at newfs_msdos.c:604-611 expects a second pass to adjust the FAT size; the code
  keeps that of the first, and counts the FATs twice in `x1`. Two passes can therefore end with
  FATs that are too small (`FatPlan.CoversExactly`, `FatWitness.AlignedShort`,
  `FatWitness.HalvedShort`, `FatWitness.AlignedTrimmedShort`). `attempts` is not reset by the
  restart, so a restarted layout gets one pass (`NewfsAlign.FormatAligned`,
  `NewfsAlign.AlignmentLost`).
- The clip at newfs_msdos.c:663 does take effect: on very large volumes
  (`FatLayout.SinglePassClip`, where the trim follows), with fewer sectors per cluster than
  FATs (`FatLayout.TooManyFats`), or with a remainder lost at line 640
  (`FatLayout.RemainderLost`); in the last two the reader derives a cluster without an entry.
- MAXCLS16 is one cluster more than a reader allows FAT16, so every trimmed FAT16 volume is
  read as FAT32 (`FatPlan.TypeRead`, `FatWitness.LargestMisread`).
- `-A` can move the reserved sectors past the 16 bits of their field
  (`BootFields.BootRoundTrip`, `BootFields.ReservedTruncated`).
- FAT32 with `-e` puts sectors of root entries between the FATs and the first cluster, but the
  cluster written for the root directory comes right behind the FATs
  (`DeviceContents.RootClusterWritten`, `DeviceContents.RootUnwritten`).
- A control transfer takes the direction of its status stage from the pipe and the buffer, not
  from the setup packet (`ControlStages.StatusExact`).
- With a boot file the info sector's backup and the second copy of the boot code can land in the
  FATs (`SectorWriter.AllHeads`, `SectorWriter.FatsBlank`).
- Below the minimum match the phone comparison also depends on leading separators
  (`PhoneCompare.ShortFormsExact`).
- An MTP directory whose `mkdir` failed, and an object still waiting at exit, are begun and never
  ended (`MtpSends.DirectoryEnded`, `MtpSends.WaitingExact`); SendObject without an announced
  object ends one that was never begun (`MtpSends.StraysExact`).

`dafny verify dfyconfig.toml` checks everything.

## Model

| member | source | states |
|---|---|---|
| `SchedulerTheorems.RunBindings` | mx2150_code/bird/mk/usb20/musb_host.c:655-779 | in every run of enqueues, completions, dequeues, disables, shutdowns and connects, with callbacks that enqueue: no bad pointer is followed; every bound (endpoint, direction) holds a live queue head whose `hw_ep` and `hep->hcpriv` point back at it; no queue head is bound twice except to both directions of endpoint 0; every queue head is bound or waits on the control ring; and endpoint 0 is bound exactly to the first queue head of the ring |
| `SchedulerTheorems.RunSlots` | mx2150_code/bird/mk/usb20/musb_host.c:242-351 | in every run the used FIFO slots are the disjoint union of the runs held by exactly the bound endpoints other than 0, each as long as its packet size asks for |
| `SchedulerTheorems.RunFifoBytes` | mx2150_code/bird/mk/usb20/musb_host.c:286-302 | in every run no byte of FIFO memory belongs, by the address and size registers, to two different bound endpoints or to the 64 bytes of endpoint 0 |
| `SchedulerTheorems.RunUrbs` | mx2150_code/bird/mk/usb20/musb_host.c:570-583 | in every run an accepted URB is pending or was given back exactly once, never both and for good; what an endpoint gave back plus what it holds is what was submitted to it, in order, leaving out cancelled URBs |
| `SchedulerTheorems.RunLogs` | mx2150_code/bird/mk/usb20/musb_host.c:570-583 | over a run the record of submissions and of givebacks only grows |
| `SchedulerTheorems.RunKeeps` | mx2150_code/bird/mk/usb20/musb_host.c:655-779 | the invariant of the scheduler holds in every state of every run |
| `SchedulerTheorems.StepKeeps` | mx2150_code/bird/mk/usb20/musb_host.c:2463-2916 | each entry point keeps the invariant, from any state that has it, whatever the callbacks enqueue |
| `SchedulerTheorems.ConnectExact` | mx2150_code/bird/mk/usb20/musb_core.c:1018-1019 | clearing the slot mask on CONNECT keeps the invariant if and only if no endpoint other than 0 is bound |
| `SchedulerTheorems.FreshOk` | mx2150_code/bird/mk/usb20/musb_host.c:2313-2333 | the empty scheduler has the invariant |
| `SchedulerLaws.FinishExact` | mx2150_code/bird/mk/usb20/musb_host.c:655-779 | a completion interrupt on a bound side gives back the first URB of its queue head and no other, cancels none, and links exactly what the callback gets accepted; the rest of the list stays in order with what the callback adds behind it; the endpoint has lost its queue head if and only if its list is then empty; the other lists, the other bindings above endpoint 0 and the order of the control ring stay; on an unbound side nothing happens |
| `SchedulerLaws.UnlinkExact` | mx2150_code/bird/mk/usb20/musb_host.c:2749-2813 | a dequeue gives back the URB, as cancelled, if and only if it is not refused and the URB is queued, wherever it is in its list; the other URBs stay, and the queue head goes if and only if the list is then empty; in every other case nothing changes |
| `SchedulerLaws.SubmitCode` | mx2150_code/bird/mk/usb20/musb_host.c:2463-2672 | the result of `musb_urb_enqueue`, in this order: -ENODEV if and only if not an active host, what the core answers, 0 for an endpoint with a queue head, -ENOMEM without memory, and for a new queue head other than control -ENOSPC if and only if no hardware endpoint of its direction or no run of FIFO slots of its size is free |
| `SchedulerLaws.SubmitExact` | mx2150_code/bird/mk/usb20/musb_host.c:2463-2672 | a submission that succeeds puts the URB last in the list of its endpoint, touches no other list, and keeps the queue head or makes one: at the end of the control ring, or bound to the lowest free endpoint and the lowest free run; one that fails changes nothing |
| `SchedulerLaws.DisabledRefuses` | mx2150_code/bird/mk/usb20/musb_host.c:2816-2898 | while an endpoint is disabled a submission to it that nothing else refuses fails with -ENOENT, and those to other endpoints are not affected |
| `SchedulerRoles.RunRefuses` | mx2150_code/bird/mk/usb20/musb_host.c:2481-2482 | in every run a submission fails with -ENODEV if and only if the last role change did not make the controller a host, or the last role change or connection did not make it active; no completion, dequeue, disable or callback changes that |
| `SchedulerShutdown.ShutdownExact` | mx2150_code/bird/mk/usb20/musb_host.c:2900-2916 | whatever the callbacks submit during `musb_h_pre_disable`: in each direction every endpoint but 0 ends unbound if and only if no callback opens a queue head of that direction after the loop visited endpoint 1 in it, and the slot mask ends 0 if and only if that holds for both |
| `SchedulerShutdown.RingExact` | mx2150_code/bird/mk/usb20/musb_host.c:2900-2916 | whatever the callbacks submit: endpoint 0 ends unbound if and only if no more than two control queue heads are on the ring or join it while the loop is at endpoint 0, and none joins later; those after the first two always stay |
| `SchedulerReturns.ShutdownReturns` | mx2150_code/bird/mk/usb20/musb_host.c:2816-2916 | whatever the callbacks submit: every queue head bound to an endpoint above 0 at the start is still bound, with at least its URBs, when the loop comes to it; the visit gives back exactly the URBs listed then, in order, frees the queue head and unbinds the side; what was given back stays so |
| `SchedulerShutdown.ShutdownClears` | mx2150_code/bird/mk/usb20/musb_host.c:2900-2916 | when the callbacks of each visit get nothing accepted while the endpoint found there refuses, every endpoint but 0 ends unbound, the slot mask is 0, and the control ring has lost its first two queue heads, so endpoint 0 is unbound if and only if there were no more than two |
| `SchedulerShutdown.OwnRefused` | mx2150_code/bird/mk/usb20/musb_host.c:2816-2898 | callbacks that resubmit only to their own endpoint get nothing accepted during its drain |
| `SchedulerShutdown.StaysBound` | mx2150_code/bird/mk/usb20/musb_host.c:2359-2400 | a queue head that a callback opens behind the loop takes endpoint 1 at the latest, and keeps it to the end |
| `SchedulerOpens.SideLeft` | mx2150_code/bird/mk/usb20/musb_host.c:2816-2898 | disabling what is bound to a side, whatever the callbacks open: the side is freed, or the head of the control ring, which otherwise grows by the control queue heads opened; other bindings stay, and new ones appear only for queue heads opened |
| `SchedulerReturns.SideKept` | mx2150_code/bird/mk/usb20/musb_host.c:2816-2898 | ... and every other side above endpoint 0 keeps its queue head and the URBs of its list |
| `SchedulerWitness.Rebound` | mx2150_code/bird/mk/usb20/musb_host.c:2900-2916 | a run in which the completion of a bulk OUT URB submits to a fresh bulk IN endpoint during the shutdown, and endpoint 1 IN is bound afterwards |
| `SchedulerWitness.ThreeControls` | mx2150_code/bird/mk/usb20/musb_host.c:2900-2916 | a run with three control queue heads on the ring whose shutdown leaves the third bound to endpoint 0 |
| `SchedulerRuns.DisableKeeps` | mx2150_code/bird/mk/usb20/musb_host.c:2816-2898 | `musb_h_disable` ends, keeps the invariant, gives back exactly the URBs of the endpoint, in order, after what had been given back before, and frees its queue head |
| `SchedulerRuns.DisableSideKeeps` | mx2150_code/bird/mk/usb20/musb_host.c:2827-2848 | the same for the queue head found through a hardware endpoint: every URB of its endpoint is given back in order and the endpoint forgets it |
| `SchedulerRuns.DrainBoundKeeps` | mx2150_code/bird/mk/usb20/musb_host.c:2863-2871 | the drain of a bound queue head ends with every URB given back in list order and the endpoint unbound |
| `SchedulerRuns.DrainIdleKeeps` | mx2150_code/bird/mk/usb20/musb_host.c:2872-2879 | the drain of a waiting queue head empties its list in order while endpoint 0 keeps serving the first of the ring |
| `SchedulerRuns.DequeueKeeps` | mx2150_code/bird/mk/usb20/musb_host.c:2749-2813 | `musb_urb_dequeue` keeps the invariant in each of its cases; what it gives back and frees is `SchedulerLaws.UnlinkExact` |
| `SchedulerRuns.CompleteKeeps` | mx2150_code/bird/mk/usb20/musb_host.c:655-779 | an interrupt keeps the invariant and the records of submissions and givebacks grow; what it gives back and frees is `SchedulerLaws.FinishExact` |
| `SchedulerRuns.PreDisableKeeps` | mx2150_code/bird/mk/usb20/musb_host.c:2900-2916 | `musb_h_pre_disable` keeps the invariant, whatever its callbacks submit |
| `SchedulerAdvance.AdvanceKeeps` | mx2150_code/bird/mk/usb20/musb_host.c:655-779 | `musb_advance_schedule` returns the URB, keeps everything else the driver holds where it was, frees the queue head exactly when its list is then empty, and keeps the invariant |
| `SchedulerAdvance.RetireHeadKeeps` | mx2150_code/bird/mk/usb20/musb_host.c:715-760 | retiring the control queue head of endpoint 0 passes the endpoint to the next of the ring and keeps the invariant |
| `SchedulerAdvance.FollowPrevOfHead` | mx2150_code/bird/mk/usb20/musb_host.c:741-747 | `head = qh->ring.prev` finds the next queue head when the retired one was first on the ring |
| `SchedulerAdvance.FollowPrevOfLast` | mx2150_code/bird/mk/usb20/musb_host.c:741-747 | ... and would misread the list head when the retired one was last of several |
| `SchedulerGiveback.GivebackKeeps` | mx2150_code/bird/mk/usb20/musb_host.c:570-583 | a giveback keeps the invariant while its callback enqueues any number of URBs |
| `SchedulerGiveback.ProjCut` | mx2150_code/bird/mk/usb20/musb_host.c:2749-2813 | cancelling one URB removes just it from the order of the others |
| `SchedulerGiveback.RetireBoundKeeps` | mx2150_code/bird/mk/usb20/musb_host.c:715-765 | retiring the queue head of another endpoint frees its binding and its FIFO run and keeps the invariant |
| `SchedulerInvariant.EnqueueKeeps` | mx2150_code/bird/mk/usb20/musb_host.c:2463-2672 | `musb_urb_enqueue` keeps the invariant, on success adds the URB to the record of submissions, and on failure changes nothing |
| `SchedulerInvariant.EnqueueAllKeeps` | mx2150_code/bird/mk/usb20/musb_host.c:570-583 | so does any sequence of submissions inside a callback |
| `SchedulerInvariant.FreeEpIsLowest` | mx2150_code/bird/mk/usb20/musb_host.c:2359-2400 | `musb_schedule` claims the lowest hardware endpoint whose direction is free, and fails if and only if there is none |
| `MusbHost.Musb.constructor` | mx2150_code/bird/mk/usb20/musb_host.c:2925-2935 | a new host has nothing bound, queued or allocated |
| `MusbHost.Musb.AllocEpFifo` | mx2150_code/bird/mk/usb20/musb_host.c:242-307 | the search over the slot mask and its registers take the run that the pool specification takes, or fail with it |
| `MusbHost.Musb.FreeEpFifo` | mx2150_code/bird/mk/usb20/musb_host.c:309-351 | the release decodes the start from the address register and returns exactly the run that was held |
| `MusbHost.Musb.EpSetQh` | mx2150_code/bird/mk/usb20/musb_host.c:441-452 | binding a queue head, to both directions of endpoint 0 |
| `MusbHost.Musb.StartUrb` | mx2150_code/bird/mk/usb20/musb_host.c:467-566 | starting the first URB binds its endpoint; programming the endpoint is in the transfer models |
| `MusbHost.Musb.ScheduleQh` | mx2150_code/bird/mk/usb20/musb_host.c:2313-2460 | `musb_schedule` with its endpoint search loop does what the specification does |
| `MusbHost.Musb.UrbEnqueue` | mx2150_code/bird/mk/usb20/musb_host.c:2463-2672 | `musb_urb_enqueue`, with its failure path, ends in the state and with the result of the specification |
| `MusbHost.Musb.GivebackUrb` | mx2150_code/bird/mk/usb20/musb_host.c:570-583 | `musb_giveback` unlinks, completes, and takes the submissions of the callback in order |
| `MusbHost.Musb.Retire` | mx2150_code/bird/mk/usb20/musb_host.c:715-765 | the end of `musb_advance_schedule` after the list was found empty |
| `MusbHost.Musb.AdvanceSchedule` | mx2150_code/bird/mk/usb20/musb_host.c:655-779 | `musb_advance_schedule` ends in the state of the specification |
| `MusbHost.Musb.UrbDequeue` | mx2150_code/bird/mk/usb20/musb_host.c:2749-2813 | `musb_urb_dequeue` ends in the state of the specification |
| `MusbHost.Musb.HDisable` | mx2150_code/bird/mk/usb20/musb_host.c:2816-2898 | `musb_h_disable`, with its two drain loops, ends in the state of the specification |
| `MusbHost.Musb.HDisableSide` | mx2150_code/bird/mk/usb20/musb_host.c:2827-2848 | `musb_h_disable` on a hardware endpoint |
| `MusbHost.Musb.HPreDisable` | mx2150_code/bird/mk/usb20/musb_host.c:2900-2916 | `musb_h_pre_disable` with its loop ends in the state of the specification |
| `MusbHost.Musb.Interrupt` | mx2150_code/bird/mk/usb20/musb_host.c:655-779 | a completion interrupt ends in the state of the specification, whose effect is `SchedulerLaws.FinishExact` |
| `MusbHost.Musb.ConnectIrq` | mx2150_code/bird/mk/usb20/musb_core.c:1018-1019 | CONNECT clears the slot mask |
| `Slots.AllocRun` | mx2150_code/bird/mk/usb20/musb_host.c:262-289 | for n >= 1 slots and any mask of up to 32 bits: the lowest start of n free slots, with exactly those bits set; or failure, if and only if no such run exists, with the mask unchanged |
| `Slots.FreeRun` | mx2150_code/bird/mk/usb20/musb_host.c:326-338 | the start is decoded from the address register and exactly that run is cleared |
| `Slots.FirstFreeIsLowest` | mx2150_code/bird/mk/usb20/musb_host.c:262-283 | the specification's search is the lowest free run, or there is none |
| `Slots.TakeKeeps` | mx2150_code/bird/mk/usb20/musb_host.c:242-307 | an allocation keeps the used slots the disjoint union of the runs held, and releasing it restores the pool as it was |
| `Slots.GiveKeeps` | mx2150_code/bird/mk/usb20/musb_host.c:309-351 | a release keeps that too, and frees exactly the slots of the run |
| `Slots.HistoryConserves` | mx2150_code/bird/mk/usb20/musb_host.c:242-351 | slots are conserved by every history of allocations and releases |
| `Slots.ByteRanges` | mx2150_code/bird/mk/usb20/musb_host.c:286-302 | the register encoding of two runs shares a byte only if they share a slot, never with endpoint 0, and the start can be read back |
| `Slots.FifoFits` | mx2150_code/bird/mk/usb20/musb_host.c:253-261 | the size programmed is that of the slots taken, and holds a packet if and only if that is at most 1024 bytes; no fewer slots would |
| `Slots.BirdFifoFits` | mx2150_code/bird/mk/usb20/musb_host.c:106-196 | the FIFO the isochronous variant programs stays in the slots it reserves if and only if they are 1, 2, 4, or at least 8, and holds the packet memory if and only if that is at most 4096 bytes |
| `ControlTransfer.OutTransfer` | mx2150_code/bird/mk/usb20/musb_host.c:1441-1626 | a control OUT transfer sends SETUP, the buffer in order as packets of at most maxpacket of which all but the last are full, then an IN status stage; it completes after exactly ceil(len/maxpacket) + 2 interrupts, with the whole length transferred |
| `ControlTransfer.InTransfer` | mx2150_code/bird/mk/usb20/musb_host.c:1441-1626 | a control IN transfer asks for packets until the first short one or a full buffer; the buffer starts with what was received, cut to its length; the status is overflow exactly when more came; the status stage is OUT |
| `ControlTransfer.NoDataTransfer` | mx2150_code/bird/mk/usb20/musb_host.c:1510-1626 | without a buffer and a data stage: SETUP, then an IN status stage, in two interrupts |
| `ControlTransfer.ErrorCompletes` | mx2150_code/bird/mk/usb20/musb_host.c:1541-1592 | a STALL or bus error ends the transfer at once with that status |
| `ControlTransfer.OutProgress` | mx2150_code/bird/mk/usb20/musb_host.c:1478-1498 | after k interrupts the first k packets were sent, in order |
| `ControlTransfer.InProgress` | mx2150_code/bird/mk/usb20/musb_host.c:1447-1466 | after k full packets the buffer starts with them and one more IN token is out |
| `ControlStages.StatusExact` | mx2150_code/bird/mk/usb20/musb_host.c:1596-1618 | whatever the interrupts find, a transfer in its status stage put a status token on the bus last: OUT if and only if the pipe is IN and the buffer is not empty; it is the direction section 8.5.3 asks for if and only if the pipe and the buffer agree with the setup packet on whether there is IN data |
| `ControlStages.DataStageExact` | mx2150_code/bird/mk/usb20/musb_host.c:1441-1502 | with a buffer and a data stage the length in the setup packet and the direction of the pipe decide nothing but the status token: stages, contents, result and the other tokens are those of the transfer whose setup packet fits its buffer |
| `ControlStages.NoDataExact` | mx2150_code/bird/mk/usb20/musb_host.c:1468-1477 | without a data stage the buffer, of any size, is left alone, in two interrupts |
| `ControlStages.EmptyBuffer` | mx2150_code/bird/mk/usb20/musb_host.c:1441-1502 | a data stage with an empty buffer: one empty OUT packet, or one IN packet that overflows unless it is empty, then an IN status stage |
| `PioHost.ControlUrb.Ep0Continue` | mx2150_code/bird/mk/usb20/musb_host.c:1441-1502 | `musb_h_ep0_continue` in place does what the specification does, FIFO bytes included |
| `PioHost.ControlUrb.Ep0Irq` | mx2150_code/bird/mk/usb20/musb_host.c:1510-1626 | `musb_h_ep0_irq` in place does what the specification does |
| `Receive.Transfer` | mx2150_code/bird/mk/usb20/musb_host.c:801-888 | a receive without faults ends exactly at the first packet that is short, fills the buffer or exceeds it; the buffer then starts with the packets in order, cut to its length; `offset` = `actual_length` <= length; the status is overflow iff they exceed the buffer, -EREMOTEIO iff short reads were refused and they do not fill it, else 0 |
| `Receive.Progress` | mx2150_code/bird/mk/usb20/musb_host.c:2255-2305 | until then nothing completes, and NAK timeouts and empty interrupts change nothing |
| `Receive.FaultEnds` | mx2150_code/bird/mk/usb20/musb_host.c:1969-2030 | a fault ends the transfer with its code and keeps what was received |
| `Receive.AbortEnds` | mx2150_code/bird/mk/usb20/musb_host.c:1969-2030 | an URB whose status was set while it was receiving takes no more packets, and a fault ends it with that status |
| `PioHost.RxUrb.PacketRx` | mx2150_code/bird/mk/usb20/musb_host.c:801-888 | `musb_host_packet_rx` stores the packet in place as specified and empties the FIFO |
| `PioHost.RxUrb.HostRx` | mx2150_code/bird/mk/usb20/musb_host.c:1921-2305 | the PIO path of `musb_host_rx` does what the specification does |
| `Transmit.Transfer` | mx2150_code/bird/mk/usb20/musb_host.c:1795-1876 | a transmit without faults sends exactly the buffer, in order, as the number of packets the specification asks for; it ends when the last is taken, with `actual_length` the buffer length and status 0 |
| `Transmit.PacketLengths` | mx2150_code/bird/mk/usb20/musb_host.c:1795-1876 | all packets but the last are full; a zero-length one is sent if and only if the length is 0, or it is a multiple of maxpacket and URB_ZERO_PACKET is set |
| `Transmit.Progress` | mx2150_code/bird/mk/usb20/musb_host.c:467-511 | after k taken packets the offset is k packets and packet k + 1 is in the FIFO |
| `Transmit.FaultEnds` | mx2150_code/bird/mk/usb20/musb_host.c:1676-1732 | a fault reports exactly the bytes of the packets that were taken |
| `Transmit.AbortEnds` | mx2150_code/bird/mk/usb20/musb_host.c:1795-1876 | an URB whose status was set while a packet was out ends with that packet, its bytes counted, and keeps the status |
| `PioHost.TxUrb.StartUrb` | mx2150_code/bird/mk/usb20/musb_host.c:1157-1184 | the first packet is loaded from the start of the buffer |
| `PioHost.TxUrb.HostTx` | mx2150_code/bird/mk/usb20/musb_host.c:1643-1876 | the PIO path of `musb_host_tx` does what the specification does, also for an URB whose status is already set |
| `FifoMover.WriteFifo` | mx2150_code/bird/mk/usb20/musb_core.c:453-498 | for every length and alignment of the source exactly its bytes, in order, enter the FIFO through the 32, 16 and 8-bit accesses |
| `FifoMover.ReadFifo` | mx2150_code/bird/mk/usb20/musb_core.c:500-541 | for every length and alignment exactly the first bytes of the FIFO are stored, and the rest of the memory is untouched |
| `FifoMover.Loopback` | mx2150_code/bird/mk/usb20/musb_core.c:453-541 | what was written to an empty FIFO is read back unchanged whatever the two alignments |
| `FifoMover.SplitWord` | mx2150_code/bird/mk/usb20/musb_core.c:453-498 | the bytes put into an access are the bytes taken out on a little-endian bus |
| `FifoMover.WordSplit` | mx2150_code/bird/mk/usb20/musb_core.c:500-541 | ... and the value too |
| `Otg.RunInvariant` | mx2150_code/bird/mk/usb20/musb_core.c:733-1250 | in every interleaving of stage-0 interrupts, timer, HNP stops and id-pin work: A_HOST, A_SUSPEND and B_HOST have `is_host`, B_HOST has `is_b_host`, and in B_WAIT_ACON the timer is armed or its handler is due |
| `Otg.Stage0Keeps` | mx2150_code/bird/mk/usb20/musb_core.c:733-1250 | one stage-0 interrupt, with any combination of its causes, keeps that |
| `Otg.WaitAconEnds` | mx2150_code/bird/mk/usb20/musb_core.c:580-618 | from B_WAIT_ACON the timer's expiry always leads to its handler, and after the handler, whatever happened in between, the machine is not in B_WAIT_ACON |
| `Otg.TimerLeavesWait` | mx2150_code/bird/mk/usb20/musb_core.c:580-618 | the timer handler always leaves B_WAIT_ACON |
| `Otg.Controller.Stage0Irq` | mx2150_code/bird/mk/usb20/musb_core.c:733-1250 | `musb_stage0_irq` on the fields of the driver does what the specification does, whose transitions are the rows of `OtgTransitions` |
| `Otg.Controller.OtgTimerFunc` | mx2150_code/bird/mk/usb20/musb_core.c:580-618 | so does the timer handler |
| `Otg.Controller.StopHnpSteps` | mx2150_code/bird/mk/usb20/musb_core.c:670-716 | so does `musb_hnp_stop` |
| `Otg.Controller.IdPinWorkStep` | mx2150_code/bird/mk/usb20/mt6735/usb20_host.c:419-547 | so does `musb_id_pin_work`, with `is_active` as `musb_start` and `musb_stop` leave it |
| `OtgTransitions.ConnectMoves` | mx2150_code/bird/mk/usb20/musb_core.c:1008-1088 | CONNECT alone: the machine is host and active; B_WAIT_ACON becomes B_HOST with the timer off and disconnects heeded; with valid VBUS every role but that and B_PERIPHERAL becomes A_HOST with `is_b_host` clear; else the role stays |
| `OtgTransitions.ConnectSuspendMoves` | mx2150_code/bird/mk/usb20/musb_core.c:1008-1088 | CONNECT with SUSPEND: the same from where the suspend leads, and B_PERIPHERAL becomes B_HOST too |
| `OtgTransitions.ResumeMoves` | mx2150_code/bird/mk/usb20/musb_core.c:745-818 | RESUME alone: A_SUSPEND becomes A_HOST unless the bus is still suspended in host mode; in host mode B_WAIT_ACON becomes an active B_PERIPHERAL; in device mode a peripheral with valid VBUS is resumed; nothing else moves |
| `OtgTransitions.SessionMoves` | mx2150_code/bird/mk/usb20/musb_core.c:820-849 | a session request makes A_IDLE of it in compliance builds, unless a B device has valid VBUS |
| `OtgTransitions.SuspendMoves` | mx2150_code/bird/mk/usb20/musb_core.c:936-1007 | SUSPEND alone: A_HOST becomes A_SUSPEND, active exactly with HNP; a peripheral with HNP becomes B_WAIT_ACON with the timer running; what else becomes inactive or stays |
| `OtgTransitions.DisconnectMoves` | mx2150_code/bird/mk/usb20/musb_core.c:1090-1138 | DISCONNECT alone, unless ignored: B_HOST ends as a peripheral without `is_b_host`; a host tells its root hub and a peripheral its gadget; the machine is inactive unless a helper says otherwise |
| `OtgTransitions.ResetMoves` | mx2150_code/bird/mk/usb20/musb_core.c:1140-1214 | a bus reset in device mode: B_IDLE and B_WAIT_ACON become B_PERIPHERAL; A_SUSPEND starts the timer and ignores the disconnect that follows; A_WAIT_BCON starts the timer; in host mode nothing |
| `OtgTransitions.TimerMoves` | mx2150_code/bird/mk/usb20/musb_core.c:580-618 | the timer handler: B_WAIT_ACON ends as an inactive B_PERIPHERAL, A_SUSPEND and A_WAIT_BCON in A_WAIT_VFALL, and every other role stays; disconnects are heeded again |
| `OtgTransitions.TimerExpiry` | mx2150_code/bird/mk/usb20/musb_core.c:580-618 | an armed timer that expires makes its handler due, and nothing else does |
| `OtgTransitions.HnpMoves` | mx2150_code/bird/mk/usb20/musb_core.c:670-716 | the end of HNP: B_HOST becomes B_PERIPHERAL, neither host nor `is_b_host`; A_HOST becomes A_SUSPEND in compliance builds |
| `OtgTransitions.IdPinMoves` | mx2150_code/bird/mk/usb20/mt6735/usb20_host.c:419-547 | the id pin leaves an active host in the role it had, or an inactive device in B_IDLE, or does nothing |
| `OtgTransitions.ConnectEnters` | mx2150_code/bird/mk/usb20/musb_core.c:1008-1088 | CONNECT alone enters A_HOST if and only if VBUS is valid outside B_PERIPHERAL and B_WAIT_ACON, and B_HOST if and only if it finds B_WAIT_ACON |
| `OtgTransitions.ResumeEnters` | mx2150_code/bird/mk/usb20/musb_core.c:745-818 | RESUME alone enters A_HOST if and only if it ends A_SUSPEND, and never B_HOST or B_WAIT_ACON |
| `OtgTransitions.SuspendEnters` | mx2150_code/bird/mk/usb20/musb_core.c:936-1007 | SUSPEND alone enters B_WAIT_ACON if and only if it finds a peripheral with HNP, active if it is B_IDLE, and never A_HOST or B_HOST |
| `OtgTransitions.OthersEnterNone` | mx2150_code/bird/mk/usb20/musb_core.c:580-1250 | session requests, disconnects, resets, the timer, the id pin and the end of HNP enter none of the three |
| `FatLayout.SinglePassCovers` | mx2150_code/bird/alps/system/core/toolbox/newfs_msdos.c:612-673 | one sizing pass with a FAT size of its own choice, sectors per cluster >= number of FATs, and no remainder lost at line 640: one FAT has an entry for every cluster a reader derives from the final fields, plus the two reserved ones, also after trimming; the reader's count is the one reported; the warning at line 665 never applies; the clip at line 663 applies only together with the trim |
| `FatLayout.SinglePassClip` | mx2150_code/bird/alps/system/core/toolbox/newfs_msdos.c:661-664 | under the same conditions the clip at line 663 takes effect if and only if the volume reaches the size from which the largest FAT of its type has too few entries |
| `FatLayout.TooManyFats` | mx2150_code/bird/alps/system/core/toolbox/newfs_msdos.c:632-651 | a volume with more FATs than sectors per cluster where they do not: 511 clusters, 512 entries |
| `FatLayout.RemainderLost` | mx2150_code/bird/alps/system/core/toolbox/newfs_msdos.c:640-641 | a 4 GiB volume where line 640 loses the remainder to 32 bits: 4161791 clusters, 4161792 entries |
| `FatLayout.PassShape` | mx2150_code/bird/alps/system/core/toolbox/newfs_msdos.c:630-650 | the final metadata fit the volume, no 32-bit wrap occurs, and the FATs take at most half of the room they were estimated with |
| `FatLayout.EstimateExact` | mx2150_code/bird/alps/system/core/toolbox/newfs_msdos.c:637-643 | an estimate below the limit of the FAT type is no less than the clusters there are |
| `FatLayout.EstimateLow` | mx2150_code/bird/alps/system/core/toolbox/newfs_msdos.c:637-643 | ... and at most one more |
| `FatFormat.AlignedInTwoPasses` | mx2150_code/bird/alps/system/core/toolbox/newfs_msdos.c:612-659 | with `-A` the loop ends within two passes with `(res + bspf * nft) % spc == 0`, for a fixed and for a chosen cluster size, and keeps the FAT size of the first pass |
| `FatFormat.PickSpcDivides` | mx2150_code/bird/alps/system/core/toolbox/newfs_msdos.c:604-629 | with more reserved sectors the chosen cluster size only gets smaller, by halves, so it does not throw off the alignment |
| `FatPlan.LoopFollows` | mx2150_code/bird/alps/system/core/toolbox/newfs_msdos.c:612-659 | the sizing loop, one pass or two, ends where a closed form of the parameters says; in a second pass `x1` counts the FATs' further sectors twice, yet stays inside the volume |
| `FatPlan.LaidExactly` | mx2150_code/bird/alps/system/core/toolbox/newfs_msdos.c:612-673 | there is a layout if and only if the metadata of each pass fit and the clusters left are enough for the FAT type |
| `FatPlan.LayFollows` | mx2150_code/bird/alps/system/core/toolbox/newfs_msdos.c:612-673 | the layout reports and shows a reader what the closed form says; one trimmed after two passes keeps more clusters than the FAT type allows, by what the FATs counted twice would take |
| `FatPlan.CoversExactly` | mx2150_code/bird/alps/system/core/toolbox/newfs_msdos.c:612-673 | for any cluster size, remainder and number of passes, cluster size given or chosen: one FAT has an entry for every cluster a reader derives if and only if `bsec + spc < start + entries * spc`, or, when the volume is trimmed, the limit of the type and what was counted twice stay within the entries; all from the closed form |
| `FatPlan.TypeRead` | mx2150_code/bird/alps/system/core/toolbox/newfs_msdos.c:82-110 | for any number of passes a reader that goes by the cluster count takes the volume for its own type if and only if `bsec` keeps to the bounds of that type: below `start + 65525 * spc` for FAT16, at least that for FAT32, and for FAT12 below `start + 4085 * spc` or trimmed with at most seven clusters counted twice |
| `FatCover.TwoPassesCover` | mx2150_code/bird/alps/system/core/toolbox/newfs_msdos.c:612-673 | two passes with the cluster size given, at least one sector per FAT in a cluster, no remainder lost and a first estimate within the limit of the type: the FAT covers the reader's clusters, the volume is not trimmed, and there is no warning |
| `FatWitness.AlignedShort` | mx2150_code/bird/alps/system/core/toolbox/newfs_msdos.c:612-673 | a FAT16 volume where all of that holds but the limit: 65535 clusters, 65536 entries, no clip, trim or warning, and a reader takes it for FAT32 |
| `FatWitness.HalvedShort` | mx2150_code/bird/alps/system/core/toolbox/newfs_msdos.c:604-665 | a FAT12 volume whose second pass halves the clusters and keeps the FAT: 4077 clusters, 2048 entries, with a warning |
| `FatWitness.LargestMisread` | mx2150_code/bird/alps/system/core/toolbox/newfs_msdos.c:669-673 | a FAT16 volume trimmed to the limit, 65525 clusters, which a reader takes for FAT32 |
| `FatWitness.AlignedTrimmedShort` | mx2150_code/bird/alps/system/core/toolbox/newfs_msdos.c:669-673 | ... and trimmed after two passes: 65653 clusters, 65536 entries, no warning |
| `Newfs.RestartEnds` | mx2150_code/bird/alps/system/core/toolbox/newfs_msdos.c:678-685 | the restart halves the cluster size each time, so there are at most eight layouts; the last is not FAT32, or has at least MINCLS32_MS_WINDOWS clusters, or has one sector per cluster |
| `Newfs.RestartKeepsType` | mx2150_code/bird/alps/system/core/toolbox/newfs_msdos.c:560-579 | smaller clusters do not change a choice of FAT32 |
| `Newfs.FormatCovers` | mx2150_code/bird/alps/system/core/toolbox/newfs_msdos.c:558-685 | whatever the restart does, with `-A` or without, the final layout has an entry for every cluster a reader derives, and is read as its own type, if and only if the closed form of the last start says so; without `-A` the reported count is the reader's unless the clip at line 663 applies alone, which takes fewer sectors per cluster than FATs or a lost remainder |
| `Newfs.RestartsExactly` | mx2150_code/bird/alps/system/core/toolbox/newfs_msdos.c:678-685 | whether the layout restarts, and with what cluster size and attempts, follows from the closed form |
| `Newfs.LastStartPlanned` | mx2150_code/bird/alps/system/core/toolbox/newfs_msdos.c:678-685 | so does the start of the last layout |
| `NewfsAlign.FormatAligned` | mx2150_code/bird/alps/system/core/toolbox/newfs_msdos.c:558-685 | with `-A` and reserved sectors of the program's choice the first layout makes two passes if and only if its first is not aligned, and each later one a single pass; the final layout is aligned if and only if there was no restart, or one pass over the last cluster size, with its FAT size from the estimate, is aligned by itself |
| `NewfsAlign.AlignmentLost` | mx2150_code/bird/alps/system/core/toolbox/newfs_msdos.c:612-685 | `-A -F 32` on 2500000 sectors with clusters of 64: restarted with 32 and six sectors off alignment |
| `Newfs.ChosenTypeFits` | mx2150_code/bird/alps/system/core/toolbox/newfs_msdos.c:560-579 | when FAT16 is chosen for a given cluster size of at least one sector per FAT, the layout is never refused for its metadata, and never for too few clusters when line 640 loses no remainder |
| `NewfsChoice.FormatType` | mx2150_code/bird/alps/system/core/toolbox/newfs_msdos.c:560-579 | the FAT type of the layout the program ends with, whatever it restarts, is the one given; else 12 if and only if the volume has too few clusters for FAT16 (with the size left open: at most 4077 of 4096 bytes); 32 if and only if not so, no root entries are given, and laid out as FAT16 with its largest FATs and clusters of the size given or of 8192 bytes it has more clusters than FAT16; else 16 |
| `NewfsChoice.FormatNumbers` | mx2150_code/bird/alps/system/core/toolbox/newfs_msdos.c:612-629 | the layout the program ends with keeps the numbers given and chooses the others: the fewest reserved sectors, more only to align; 512 root entries except on FAT32; and 2048 or 4096 bytes per cluster, doubled while the largest volume of the type leaves sectors over and no further |
| `NewfsChoice.SystemAreaExact` | mx2150_code/bird/alps/system/core/toolbox/newfs_msdos.c:580-597 | where the info and backup sectors go and where the area ends, and that it is refused if and only if a sector to be chosen is taken or out of numbers, or both are the same |
| `NewfsChoice.AttemptRefuses` | mx2150_code/bird/alps/system/core/toolbox/newfs_msdos.c:594-676 | which error ends the program, if and only if: no room for the system sectors; fewer reserved sectors than these take; metadata that exceed the volume; too few clusters |
| `Newfs.SystemAreaApart` | mx2150_code/bird/alps/system/core/toolbox/newfs_msdos.c:580-597 | info and backup sectors lie below the reserved minimum, and the backup boot sector is not the info sector |
| `Newfs.DoubleSpc` | mx2150_code/bird/alps/system/core/toolbox/newfs_msdos.c:622-629 | the cluster size loop computes the specification's choice |
| `Newfs.SizingLoop` | mx2150_code/bird/alps/system/core/toolbox/newfs_msdos.c:612-657 | the sizing loop, mutating its variables, ends with the specification's result |
| `Newfs.NewfsMsdos` | mx2150_code/bird/alps/system/core/toolbox/newfs_msdos.c:407-685 | the program from `set_option_again` on ends with the specification's layout and the cluster sizes tried; what it chooses are `NewfsChoice.FormatType` and `NewfsChoice.FormatNumbers` |
| `SectorWriter.Writer.WriteAll` | mx2150_code/bird/alps/system/core/toolbox/newfs_msdos.c:702-823 | the writes through the I/O buffer are the image of the unbuffered writer cut at multiples of the buffer size, as many as succeed, for every sector size; when all do, the device holds every sector up to the end of the root directory, which is where the clusters of the layout start, and on FAT32 a cluster behind the FATs, and no more |
| `SectorWriter.ChunksMakeImage` | mx2150_code/bird/alps/system/core/toolbox/newfs_msdos.c:802-823 | put together they are that image, all but the last of buffer size and none empty |
| `SectorWriter.WholeVolume` | mx2150_code/bird/alps/system/core/toolbox/newfs_msdos.c:707-708 | the image ends at the end of the root directory of the layout the volume is written with |
| `DeviceContents.SectorIs` | mx2150_code/bird/alps/system/core/toolbox/newfs_msdos.c:710-800 | what each sector is: the boot sector and its backup, the info sectors with both signatures, the free count unknown and the root cluster as hint, the heads of the FATs, the label entry; every other byte is that of the boot file, or zero |
| `DeviceContents.BaseIs` | mx2150_code/bird/alps/system/core/toolbox/newfs_msdos.c:709-721 | below that lie the sectors of the boot file from sector 0, once more from the backup boot sector if the file ends below it, and zeros |
| `DeviceContents.RootAndFats` | mx2150_code/bird/alps/system/core/toolbox/newfs_msdos.c:707-800 | on the device the root directory holds the label entry and is zero otherwise, and each FAT is zero behind its head, where neither a boot file nor the info sector's backup lies |
| `DeviceContents.RootClusterExact` | mx2150_code/bird/alps/system/core/toolbox/newfs_msdos.c:707-708 | on FAT32 the first cluster, where a reader looks for the root directory, is written if and only if there are no sectors of root entries before it |
| `DeviceContents.RootClusterWritten` | mx2150_code/bird/alps/system/core/toolbox/newfs_msdos.c:528-708 | ... that is, for every command, if and only if no root directory size was given |
| `DeviceContents.RootUnwritten` | mx2150_code/bird/alps/system/core/toolbox/newfs_msdos.c:528-708 | `-F 32 -c 8 -e 512` on 4000000 sectors: written up to sector 7838, with the root directory at 7862 |
| `SectorWriter.ImageSector` | mx2150_code/bird/alps/system/core/toolbox/newfs_msdos.c:708-709 | sector n of the image is what the program builds for n |
| `SectorWriter.Writer.Sector` | mx2150_code/bird/alps/system/core/toolbox/newfs_msdos.c:709-800 | one sector, built in place in the buffer, boot file position included; the bytes of the boot sector fields and of the label entry are given |
| `SectorWriter.HeadsExact` | mx2150_code/bird/alps/system/core/toolbox/newfs_msdos.c:783-787 | a sector gets the FAT head pattern if and only if it is the first of a FAT and not the backup of the info sector |
| `SectorWriter.AllHeads` | mx2150_code/bird/alps/system/core/toolbox/newfs_msdos.c:775-787 | every FAT starts with the pattern if and only if the info sector's backup misses all their first sectors |
| `SectorWriter.DefaultHeads` | mx2150_code/bird/alps/system/core/toolbox/newfs_msdos.c:783-787 | with the chosen reserved, info and backup sectors the pattern is at exactly `res + k*spf` for k < nft |
| `SectorWriter.DefaultArea` | mx2150_code/bird/alps/system/core/toolbox/newfs_msdos.c:581-616 | those are sectors 1 and 2, with at least 4 reserved, at every sector size |
| `SectorWriter.HeadOverwritten` | mx2150_code/bird/alps/system/core/toolbox/newfs_msdos.c:775-787 | with a boot file of two sectors the info backup can replace the head of the second FAT |
| `SectorWriter.FatsBlank` | mx2150_code/bird/alps/system/core/toolbox/newfs_msdos.c:709-721 | the FAT sectors start out blank if and only if the second copy of the boot code ends in the reserved area |
| `SectorWriter.HeadEntries` | mx2150_code/bird/alps/system/core/toolbox/newfs_msdos.c:785-787 | the pattern is the media byte under ones, the end-of-chain mark, and on FAT32 a third entry for the root directory, as the section "FAT Data Structure" asks |
| `BootFields.BootRoundTrip` | mx2150_code/bird/alps/system/core/toolbox/newfs_msdos.c:691-747 | a reader of the boot sector or its backup decodes the fields of the layout if and only if the reserved sectors fit in 16 bits, and the sector count does whenever its 32-bit sum with the hidden sectors does |
| `BootFields.SizeFields` | mx2150_code/bird/alps/system/core/toolbox/newfs_msdos.c:691-698 | the sector count is in the 32-bit field alone if and only if its 32-bit sum with the hidden sectors is above 65535, else in the 16-bit field alone; the FAT size is in the 32-bit field alone if and only if the type is FAT32 |
| `BootFields.DiskRoundTrip` | mx2150_code/bird/alps/system/core/toolbox/newfs_msdos.c:722-747 | the same reader finds the media byte, sectors per track, heads and hidden sectors, on FAT32 also root cluster 2, version 0, and the info and backup sectors, each 16-bit value if and only if it fits |
| `BootFields.FormatFields` | mx2150_code/bird/alps/system/core/toolbox/newfs_msdos.c:558-685 | every layout the program ends with fits the other fields, and without `-A` also its reserved sectors |
| `BootFields.FormatRoundTrip` | mx2150_code/bird/alps/system/core/toolbox/newfs_msdos.c:691-747 | so for every command sector 0 says what the final layout is under exactly that condition, and a reader of it counts the layout's clusters |
| `BootFields.ReservedTruncated` | mx2150_code/bird/alps/system/core/toolbox/newfs_msdos.c:612-747 | `-A` with the backup at sector 65534: 65538 reserved sectors, of which the boot sector says 2 |
| `MpidrHash.CollisionFree` | mx2150_code/bird/alps/kernel-3.18/arch/arm/kernel/setup.c:579-634 | for any number of CPUs with pairwise distinct 24-bit ids the hash values are pairwise distinct and below 2^bits |
| `MpidrHash.IndexDetermines` | mx2150_code/bird/alps/kernel-3.18/arch/arm/kernel/setup.c:608-627 | two ids with the same hash agree on every bit of the mask |
| `MpidrHash.IndexBound` | mx2150_code/bird/alps/kernel-3.18/arch/arm/kernel/setup.c:620-627 | every hash value is below two to the number of bits |
| `MpidrHash.MaskExact` | mx2150_code/bird/alps/kernel-3.18/arch/arm/kernel/setup.c:582-590 | a bit is in the mask if and only if two of the ids differ in it |
| `MpidrHash.BitsExact` | mx2150_code/bird/alps/kernel-3.18/arch/arm/kernel/setup.c:588-622 | the hash has as many bits as the mask spans from its lowest to its highest bit in each of the three levels |
| `MpidrHash.BuildMpidrHash` | mx2150_code/bird/alps/kernel-3.18/arch/arm/kernel/setup.c:579-634 | the loops compute the mask of differing bits, three non-negative shifts and the number of bits as specified |
| `MpidrHash.SetupProcessorId` | mx2150_code/bird/alps/kernel-3.18/arch/arm/kernel/setup.c:551-569 | the initial logical map starts with the booting CPU and is injective |
| `PhoneCompare.PhoneNumberCompareLoose` | mx2150_code/bird/alps/external/sqlite/android/OldPhoneNumberUtils.cpp:240-353 | for all inputs and any positive minimum match the result is the relation: at or above the minimum one separator-free form is a suffix of the other, or the unmatched prefixes pair; below it the forms are equal with as many leading separators |
| `PhoneCompare.Scan` | mx2150_code/bird/alps/external/sqlite/android/OldPhoneNumberUtils.cpp:263-291 | the scan matches the longest common suffix of the separator-free forms and counts the separators it passes |
| `PhoneCompare.CommonIsLongest` | mx2150_code/bird/alps/external/sqlite/android/OldPhoneNumberUtils.cpp:263-291 | k characters are a common suffix if and only if k is at most `matched` |
| `PhoneCompare.MatchIntlPrefix` | mx2150_code/bird/alps/external/sqlite/android/OldPhoneNumberUtils.cpp:95-130 | the automaton accepts exactly +, 00 and 011, across separators |
| `PhoneCompare.MatchTrunkPrefix` | mx2150_code/bird/alps/external/sqlite/android/OldPhoneNumberUtils.cpp:133-151 | the automaton accepts exactly 0 |
| `PhoneCompare.MatchIntlPrefixAndCC` | mx2150_code/bird/alps/external/sqlite/android/OldPhoneNumberUtils.cpp:154-200 | the automaton accepts exactly an international prefix and one to three digits |
| `PhoneCompare.LooseSymmetric` | mx2150_code/bird/alps/external/sqlite/android/OldPhoneNumberUtils.cpp:240-353 | the relation is symmetric |
| `PhoneCompare.LooseReflexive` | mx2150_code/bird/alps/external/sqlite/android/OldPhoneNumberUtils.cpp:240-353 | ... and reflexive on non-empty numbers |
| `PhoneCompare.SeparatorsIgnored` | mx2150_code/bird/alps/external/sqlite/android/OldPhoneNumberUtils.cpp:295-353 | at or above the minimum only the separator-free forms matter |
| `PhoneCompare.ShortFormsExact` | mx2150_code/bird/alps/external/sqlite/android/OldPhoneNumberUtils.cpp:295-312 | below it equal forms compare equal if and only if they have as many leading separators |
| `PhoneCompare.ShortFormsDiffer` | mx2150_code/bird/alps/external/sqlite/android/OldPhoneNumberUtils.cpp:295-312 | ... so -1 and 1 do not |
| `PhoneCompare.NotTransitive` | mx2150_code/bird/alps/external/sqlite/android/OldPhoneNumberUtils.cpp:314-353 | the relation is not transitive |
| `RecordThread.NoLostWakeup` | mx2150_code/bird/alps/frameworks/av/media/libmedia/AudioRecord.cpp:1453-1540 | in every interleaving, spurious wakeups included: after `resume()`, or `wake()` while the thread is neither paused nor in an untimed internal wait, with no later `pause()`, the thread calls `processAudioBuffer` before it next blocks |
| `RecordThread.NeverStuck` | mx2150_code/bird/alps/frameworks/av/media/libmedia/AudioRecord.cpp:1509-1533 | ... and until that call it never waits without having been signalled |
| `RecordThread.WakeExact` | mx2150_code/bird/alps/frameworks/av/media/libmedia/AudioRecord.cpp:1520-1533 | `wake()` obliges the thread if and only if it is not paused and not in an untimed internal wait that nobody ended |
| `RecordThread.StepKeeps` | mx2150_code/bird/alps/frameworks/av/media/libmedia/AudioRecord.cpp:1453-1540 | every step keeps the obligation until it is met |
| `RecordPauses.LoopExact` | mx2150_code/bird/alps/frameworks/av/media/libmedia/AudioRecord.cpp:1453-1475 | in every run, when the thread looks, read off the history of calls: paused, it waits for a signal; else it calls `processAudioBuffer` if and only if a `resume()` or `wake()` came since it last looked unpaused or no internal pause is in force; else it waits, with a time limit if and only if the pause has one |
| `RecordPauses.PauseStops` | mx2150_code/bird/alps/frameworks/av/media/libmedia/AudioRecord.cpp:1457-1461 | `pause()` stops the thread: until the next `resume()` there is no call, and whenever the thread looks it waits without a limit |
| `RecordPauses.NoCallAtFirst` | mx2150_code/bird/alps/frameworks/av/media/libmedia/AudioRecord.cpp:1440-1461 | nor is there one before the first `resume()` |
| `RecordPauses.InternalPauseStops` | mx2150_code/bird/alps/frameworks/av/media/libmedia/AudioRecord.cpp:1462-1494 | after an internal pause with no call pending there is none until a `resume()`, a `wake()` or the end of the wait, and the wait has a limit if and only if a positive time was asked for |
| `RecordPauses.ReturnAsks` | mx2150_code/bird/alps/frameworks/av/media/libmedia/AudioRecord.cpp:1476-1494 | NS_INACTIVE asks for no limit, NS_WHENEVER for the longest, a number for itself |
| `RecordPauses.AgainCalls` | mx2150_code/bird/alps/frameworks/av/media/libmedia/AudioRecord.cpp:1476-1494 | after a result of 0 the thread calls again as soon as it looks, unless paused |
| `RecordPauses.NeverAgain` | mx2150_code/bird/alps/frameworks/av/media/libmedia/AudioRecord.cpp:1476-1494 | after NS_NEVER it never looks again |
| `RecordThread.AudioRecordThread.ThreadLoop` | mx2150_code/bird/alps/frameworks/av/media/libmedia/AudioRecord.cpp:1453-1475 | the locked section of `threadLoop` does what the specification does, which over a run is `RecordPauses.LoopExact` |
| `RecordThread.AudioRecordThread.AfterProcess` | mx2150_code/bird/alps/frameworks/av/media/libmedia/AudioRecord.cpp:1476-1494 | so does what follows `processAudioBuffer` |
| `RecordThread.AudioRecordThread.Resume` | mx2150_code/bird/alps/frameworks/av/media/libmedia/AudioRecord.cpp:1509-1518 | so does `resume` |
| `RecordThread.AudioRecordThread.Wake` | mx2150_code/bird/alps/frameworks/av/media/libmedia/AudioRecord.cpp:1520-1533 | so does `wake` |
| `RecordThread.AudioRecordThread.PauseInternal` | mx2150_code/bird/alps/frameworks/av/media/libmedia/AudioRecord.cpp:1535-1540 | so does `pauseInternal` |
| `PositionCallbacks.RunExact` | mx2150_code/bird/alps/frameworks/av/media/libmedia/AudioRecord.cpp:1135-1161 | over any run of positions that never go back nor jump more than half a wrap the callbacks are n0, n0 + p, n0 + 2p, ... up to the last position, each once and in order, modulo 2^32 |
| `PositionCallbacks.CallExact` | mx2150_code/bird/alps/frameworks/av/media/libmedia/AudioRecord.cpp:1135-1147 | one call reports exactly the multiples crossed and leaves `mNewPosition` at the first beyond the position |
| `PositionCallbacks.CallExactOnly` | mx2150_code/bird/alps/frameworks/av/media/libmedia/AudioRecord.cpp:1141-1147 | within one wrap that holds if and only if the position is less than half a wrap ahead and at most half a wrap behind |
| `PositionCallbacks.LadderExact` | mx2150_code/bird/alps/frameworks/av/media/libmedia/AudioRecord.cpp:1141-1147 | every multiple up to the position is in the list once; the next is beyond the position, by at most p when any was crossed |
| `PositionCallbacks.AudioRecord.ProcessAudioBuffer` | mx2150_code/bird/alps/frameworks/av/media/libmedia/AudioRecord.cpp:1135-1191 | the count, the update and the callback loop do what the specification does |
| `MtpSession.ExitBalances` | mx2150_code/bird/alps/frameworks/av/media/mtp/MtpServer.cpp:170-260 | over any sequence of requests ending in exit: sessions started and ended alternate and balance; for each handle edits begun and committed alternate and balance, so each is committed exactly once; no handle has two open edits; each object announced that is not a directory is ended before the next is begun, the last left waiting if it was waiting at exit; a directory is ended right after its begin or never |
| `MtpSession.ServeKeeps` | mx2150_code/bird/alps/frameworks/av/media/mtp/MtpServer.cpp:339-462 | the invariant behind it holds after every sequence of requests |
| `MtpSession.HandleKeeps` | mx2150_code/bird/alps/frameworks/av/media/mtp/MtpServer.cpp:339-462 | every request keeps it, wrong containers and refusals included |
| `MtpSession.DrainKeeps` | mx2150_code/bird/alps/frameworks/av/media/mtp/MtpServer.cpp:247-254 | so does every turn of the exit loop |
| `MtpSession.AlternationCounts` | mx2150_code/bird/alps/frameworks/av/media/mtp/MtpServer.cpp:521-544 | alternation in counts: as many ends as begins, one fewer while one is open |
| `MtpHistory.SessionAnswers` | mx2150_code/bird/alps/frameworks/av/media/mtp/MtpServer.cpp:521-544 | over any history OpenSession and CloseSession are answered by whether a session is open, and the id is that of the last one opened, 0 when none is |
| `MtpHistory.EditAnswers` | mx2150_code/bird/alps/frameworks/av/media/mtp/MtpServer.cpp:1346-1385 | over any history the edit requests are answered by whether the object is being edited, which the requests about it decide |
| `MtpHistory.SendAnswers` | mx2150_code/bird/alps/frameworks/av/media/mtp/MtpServer.cpp:944-1135 | over any history: an announcement that passes the checks is answered with Ok if and only if the database gives a handle and, for a directory, it could be made; SendObject is answered with the result of its transfer if an object was announced, and refused if not |
| `MtpHistory.RespondsExactly` | mx2150_code/bird/alps/frameworks/av/media/mtp/MtpServer.cpp:339-462 | a response follows exactly the requests in a command container whose transfer was not cancelled |
| `MtpHistory.ToldExactly` | mx2150_code/bird/alps/frameworks/av/media/mtp/MtpServer.cpp:170-260 | over any sequence of requests ending in exit the database is told, in order, of the session, of the edits of each object and of the objects sent exactly what the requests say; `succeeded` is true if and only if the transfer of the object announced last ended with Ok |
| `MtpSends.DirectoriesExact` | mx2150_code/bird/alps/frameworks/av/media/mtp/MtpServer.cpp:1021-1039 | over any sequence of requests ending in exit the database is told of directories exactly what the requests that announce them say, in order: a begin, and at once an end if the directory could be made |
| `MtpSends.DirectoryEnded` | mx2150_code/bird/alps/frameworks/av/media/mtp/MtpServer.cpp:1021-1039 | for each request that announces a directory: its begin is there, and is followed by its end if and only if it could be made |
| `MtpSends.AllEndedExactly` | mx2150_code/bird/alps/frameworks/av/media/mtp/MtpServer.cpp:1021-1039 | every directory begun is ended if and only if every directory announced could be made |
| `MtpSends.WaitingExact` | mx2150_code/bird/alps/frameworks/av/media/mtp/MtpServer.cpp:347-352 | over any run the last announced object is left without an end if and only if the last requests leave it waiting, which is determined by the requests alone |
| `MtpSends.StraysExact` | mx2150_code/bird/alps/frameworks/av/media/mtp/MtpServer.cpp:1062-1132 | the database is told the end of no object, with the invalid handle, exactly once for each SendObject received while no object waits |
| `MtpSession.DirectoryNotEnded` | mx2150_code/bird/alps/frameworks/av/media/mtp/MtpServer.cpp:1027-1039 | a directory that could not be made is begun and never ended |
| `MtpSession.WaitingNotEnded` | mx2150_code/bird/alps/frameworks/av/media/mtp/MtpServer.cpp:247-260 | exit does not end an object that waits for SendObject |
| `MtpSession.FindEditFinds` | mx2150_code/bird/alps/frameworks/av/media/mtp/MtpServer.cpp:312-319 | the edit list search finds the first edit of a handle, or there is none |
| `MtpSession.MtpServer.HandleRequest` | mx2150_code/bird/alps/frameworks/av/media/mtp/MtpServer.cpp:339-462 | `handleRequest` on the fields of the server does what the specification does, response decision included |
| `MtpSession.MtpServer.RemoveEditObject` | mx2150_code/bird/alps/frameworks/av/media/mtp/MtpServer.cpp:321-332 | exactly the first edit of the handle leaves the list |
| `MtpSession.MtpServer.DoSendObjectInfo` | mx2150_code/bird/alps/frameworks/av/media/mtp/MtpServer.cpp:944-1052 | `doSendObjectInfo` from the database's answer on; that an earlier check fails is given with its code |
| `MtpSession.MtpServer.DoSendObject` | mx2150_code/bird/alps/frameworks/av/media/mtp/MtpServer.cpp:1054-1135 | `doSendObject`, without an announced object too; the result of the transfer is given |
| `MtpSession.MtpServer.DoBeginEditObject` | mx2150_code/bird/alps/frameworks/av/media/mtp/MtpServer.cpp:1346-1370 | `doBeginEditObject` |
| `MtpSession.MtpServer.DoEndEditObject` | mx2150_code/bird/alps/frameworks/av/media/mtp/MtpServer.cpp:1372-1385 | `doEndEditObject` |
| `MtpSession.MtpServer.Run` | mx2150_code/bird/alps/frameworks/av/media/mtp/MtpServer.cpp:170-260 | the request loop and the exit loop end in the state of the specification; a cancelled read or write goes on to the next request, any other failure ends the sequence |

## Left out

- Queue heads, URB lists and edit lists are `map` and `seq` fields of one object, not linked heap objects: aliasing between list nodes is not captured.
- Interleavings inside a step: interrupts and calls are atomic but for the dropped lock of `musb_giveback`; callbacks that disable an endpoint are excluded.
- DMA, QMU, scatter-gather, isochronous and bulk-split transfers, and the `CONFIG_BIRD_OTG_ISO_TRANSFER` scheduler, which tests a result it never assigns.
- `musb_bulk_nak_timeout` and the bulk rings: only control queue heads enter a ring, so they are unreachable.
- URB status values in the scheduler model: transfers have their own models, and the scheduler treats each giveback alike.
- NAK timeout on endpoint 0, data toggles, register timing and delays, and PHY and VBUS control.
- The data status machinery of an RX interrupt that finds neither packet nor error beyond doing nothing.
- The OTG helpers `musb_g_*` and `musb_root_disconnect`, whose code is not part of this model: they enter no host role and not B_WAIT_ACON, and clear `is_host` only when not ending in a host role.
- Otg.RunInvariant: the timer counts as due from its expiry until its handler runs, because the handler may wait for the lock; `otg_timer` itself is then no longer pending.
- FatLayout.SinglePassCovers: the conditions on cluster size and remainder cannot be dropped, as `FatLayout.TooManyFats` and `FatLayout.RemainderLost` show; `FatPlan.CoversExactly` is the exact condition.
- FatCover.TwoPassesCover: its conditions cannot be dropped, as `FatWitness.AlignedShort` and `FatWitness.HalvedShort` show; `FatPlan.CoversExactly` is the exact condition, also for a cluster size chosen again.
- FatPlan.CoversExactly: for a FAT size of the program's choice; one given on the command line is taken as it is.
- Option parsing, disk ioctls, volume label, serial number and timestamp bytes of `newfs_msdos`; a boot file is read from offset 0.
- Retries in `write_try`: a write succeeds or ends the program.
- MpidrHash.CollisionFree: the consumer of the hash is not part of this model; the index is as the comment at setup.c:608-614 describes it.
- `arm_add_memory` and the rest of `setup.c`.
- Null-terminated strings of `OldPhoneNumberUtils.cpp` are sequences, and `getMinMatch` is a positive parameter.
- RecordThread.NoLostWakeup: a step is a section under `mMyLock`; that the thread is eventually scheduled, the exit request, and the abort on a negative result are not modelled.
- PositionCallbacks.AudioRecord.ProcessAudioBuffer: only the position callbacks; markers, overruns and the shared-memory proxy are left out, and `Modulo` compares by the sign of the wrapped difference.
- Sizes of open edits, object properties, storage and file effects of the MTP server; the checks of SendObjectInfo before the database is told are one outcome.
- `MediaProfiles.cpp`, `FirewallController.cpp`, `Vfat.cpp`, `MtpStorage.cpp`, `meminfo.c`, the JNI files, device drivers and scripts: tables, wrappers or device I/O with easy state.
- Nothing was executed.
