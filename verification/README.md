# USB simulator: a verified model

The repository holds a USB host-controller simulator (`bi-mpp-pic24-usb-simulator-master/src`) that exports a simulated
device over USB/IP, and the firmware of that device (`pic_usb_device.X/main.c`), which runs against the simulator's device
library. This project models the two and the packets between them, and proves what the design, OpenHCI sections 4.2 and
4.3.1 and USB 2.0 sections 8.5.3, 8.6, 9.4.6 and 9.6, promises of them. `dafny verify dfyconfig.toml` checks all of it.

Each part exists twice. The functions on values say what each operation does to an abstract state; the laws are proved
about them. The classes are written as the C code is: linked nodes with head and tail pointers, registers, a ring in an
array, static variables, loops. Each of their methods is proved to have exactly the effect of its function, so the
laws hold of them.

| files | what they hold |
|---|---|
| `HcdModel`, `HcdHeap`, `HcdLaws` | the host controller driver: endpoint descriptors, TD queues, notification bits, done list |
| `EpdTrack`, `EpdToggles`, `EpdWork` | one endpoint descriptor over any sequence of links and replies |
| `HcdRuns`, `HcdConservation`, `HcdLocality`, `HcdOrigins` | the controller under every interleaving of linking threads, sends (with the list head read before the lock) and done-list steps, against any device |
| `HcdLoop`, `BulkOrder`, `BulkStarvation`, `BulkService`, `LostWakeUp` | the 4:1 schedule of the loop; which endpoint it serves, and which it starves; the schedule that loses a wake-up |
| `EventRing`, `DeviceModel`, `UsbLib`, `DeviceLaws`, `InOwnership`, `ToggleTest` | the device library: event ring, buffer descriptors, registers, the data toggle test |
| `FirmwareModel`, `Firmware`, `RequestLaws` | the firmware's control state machine, data endpoints and main loop; its requests and descriptors in literal bytes |
| `ControlDevice`, `Lockstep`, `ControlStages`, `ControlTransfers`, `ControlRead`, `Enumeration`, `SubmitCounts`, `Wedge` | host and device together, the device draining its events between two packets: control transfers |
| `DataToggles`, `DataRuns`, `DataRequests`, `DataAgreement`, `DataStreams`, `LostKey` | the same after SET_CONFIGURATION: data and control traffic in any mixture |
| `InterleavedRead`, `InterleavedWrite` | descriptor reads, SET_ADDRESS and SET_CONFIGURATION without that assumption |
| `TdCount`, `Simulator`, `SystemLoop` | the whole simulator on objects, with `sys_urb_submit` and the enumeration sequence |
| `SubmitRuns`, `SubmitLaws`, `SubmitLinks` | the submitting thread and the USB/IP replies, under every interleaving |
| `DescriptorWalk` | the walk through the configuration descriptor |

## Conventions

- A TD's `CurrentBufferPointer` and `bufferEnd` are a buffer, a position and the buffer's length; each TD carries the
  history of its packets, which no operation of the model reads.
- A failing C assertion stops the thread: the corresponding step is not enabled (`LinkAllowed`, `SendAllowed`) or does
  nothing (`LoopStep`).
- `pthread_cond_timedwait` never returns a negative value, so `urb_wait` blocks until the URB is done. In the lockstep
  functions the number of loop iterations it may take is a parameter; the theorems hold for every value from eight on,
  and "never comes back" is proved for every value.
- Keys pressed on the touchpad, the timing of linking threads and the device's replies (for the laws of the controller
  alone) are parameters.
- A run of data and control traffic (`DataRuns`) links bulk TDs as `sys_urb_submit` does, with "toggle from endpoint", on
  endpoints 1 and 2 of address 1, in either direction and of any size, and control TDs on endpoint 0 of any address.

## Where code and documentation part

- The condition at `bi-mpp-pic24-usb-simulator-master/src/usb_lib_usbip.c:263` is there to reject a wrong data toggle; `==`
  binds tighter than `&`, and in every run of this firmware the test ignores the kind (`ToggleTest.VerdictIff`,
  `ToggleTest.BitStaysClear`, `ToggleTest.WrongKindTaken`). That host and device toggles agree is therefore proved from the
  two state machines, with its exact condition (`DataRuns.TogglesAgreeIff`), not from the test.
- OpenHCI's notification scheme never sleeps on pending work. Here the list head is read before the lock, and the loop can
  (`LostWakeUp.SleepsOnWork`); the exact condition is in `HcdRuns.WakeUpKeptIff`.
- Section 8.6 of USB 2.0 has toggles alternate. `toggleCarry` is not updated when a TD is given up, so they do exactly as
  long as no TD is given up after an odd number of packets (`EpdToggles.ToggleLaw`, `EpdToggles.OddLossRepeats`).
- A read that asks for more than the descriptor has should end on it. It does exactly when the descriptor is shorter than
  the packet size the host knows (`ControlRead.ReadCompletesIff`, `Enumeration.OverlongRead`).
- `bi-mpp-pic24-usb-simulator-master/include/hcd.h:64-65` has a current endpoint for each list, where OpenHCI resumes its
  walk. Neither is ever read: `hcd_gtd_send` starts at the list head, so an endpoint that keeps answering NAK starves later ones
  (`BulkStarvation.StarvedForEver`); which endpoint is served, and when, is in `BulkOrder.ServedIff` and `BulkService.ServedWithin`.
- Every key pressed should reach the host. A read with an empty buffer takes one and loses it (`LostKey.EmptyReadLosesKey`);
  the exact condition is in `DataStreams.KeysArriveIff`.
- Enumeration should leave a configured device. Its last request, SET_INTERFACE, is unknown to the firmware and
  disables packets for good (`Wedge.SetInterfaceWedges`), so the enumeration theorems end with SET_CONFIGURATION; what
  holds of later packets, this request included, is in `DataAgreement.AckedAgrees`.
- The garbage behind received data that `pic_usb_device.X/main.c:438-440` reports is what earlier packets left in the
  buffer, which is copied whole (`DataStreams.ReceivedBytes`).
- The descriptor walk needs more than records of positive length (`DescriptorWalk.OneByteRecord`, `DescriptorWalk.WalkIff`).

## Model

| member | source | states |
|---|---|---|
| `HcdHeap.Controller.GtdLink` | `bi-mpp-pic24-usb-simulator-master/src/hcd.c:55-113` | Linking a TD, with the list search, the creation of a missing endpoint descriptor and the tail append done on the linked nodes, has exactly the effect of the function `Link` on the abstract controller; the lists stay acyclic with unique keys. |
| `HcdHeap.EpdList.Search` | `bi-mpp-pic24-usb-simulator-master/src/hcd.c:77-88` | The walk stops at the descriptor for (address, endpoint), or at the last one when there is none. |
| `HcdHeap.EpdNode.Append` | `bi-mpp-pic24-usb-simulator-master/src/hcd.c:100-109` | The new TD becomes the last of the queue, head and tail pointers stay consistent, Skip and Halted are cleared. |
| `HcdHeap.EpdNode.PopHead` | `bi-mpp-pic24-usb-simulator-master/src/hcd.c:126-135` | Unlinking the head TD leaves the rest of the queue, with a NULL tail exactly when it is empty. |
| `HcdHeap.EpdList.Select` | `bi-mpp-pic24-usb-simulator-master/src/hcd.c:164-171` | The walk from a captured head ends at the first descriptor that is neither skipped nor halted and has a TD; from a captured NULL it finds nothing. |
| `HcdHeap.EpdNode.PreparePacket` | `bi-mpp-pic24-usb-simulator-master/src/hcd.c:172-202` | The packet built from the head TD (kind, direction, bytes, size) is that of `PacketOf`, and "toggle from endpoint" is resolved in place. |
| `HcdHeap.EpdNode.Answer` | `bi-mpp-pic24-usb-simulator-master/src/hcd.c:205-241` | The reply switch updates the head TD and the descriptor as `Absorb` says, for every reply, and hands out a TD that leaves the queue. |
| `HcdHeap.Controller.GtdSend` | `bi-mpp-pic24-usb-simulator-master/src/hcd.c:159-243` | One send, for any device and any captured head, has exactly the effect of `Send`: the right packet goes out, the TD advances or moves to the done list, or the notification bit is cleared. |
| `HcdHeap.Controller.AppendToDoneList` | `bi-mpp-pic24-usb-simulator-master/src/hcd.c:115-124` | The retired TD goes to the front of the done list and the DONE bit is set. |
| `HcdHeap.Controller.ProcessDoneList` | `bi-mpp-pic24-usb-simulator-master/src/hcd.c:252-269` | The TD at the front leaves the done list; its URB gets status, length and data of that TD and is completed, its handler run once if it has one; an empty list clears the DONE bit. |
| `HcdHeap.Urb.Done` | `bi-mpp-pic24-usb-simulator-master/src/urb.c:96-112` | The URB is marked done and its handler, if any, runs once more. |
| `HcdRuns.WakeUpKeptIff` | `bi-mpp-pic24-usb-simulator-master/src/hcd.c:159-171` | One step of any interleaving keeps "pending work has its notification bit set" if and only if it is not a send that holds a NULL head captured before the list existed. |
| `HcdRuns.NoLostWakeUp` | `bi-mpp-pic24-usb-simulator-master/src/hcd.c:271-277` | In every run without such a stale send, an eligible endpoint descriptor has its list bit set and a non-empty done list the DONE bit. |
| `HcdRuns.RunBasic` | `bi-mpp-pic24-usb-simulator-master/src/hcd.c:33-88` | In every run the two lists keep unique (address, endpoint) keys, every descriptor stays well-formed, and a captured non-NULL head stays non-NULL. |
| `HcdRuns.ListsExtend` | `bi-mpp-pic24-usb-simulator-master/src/hcd.c:55-88` | No step removes, moves or re-keys an endpoint descriptor, or changes the packet size its first link gave it. |
| `HcdLaws.LinkJoins` | `bi-mpp-pic24-usb-simulator-master/src/hcd.c:55-113` | A TD joins the control list if it is a SETUP or for endpoint 0, the bulk list otherwise, at the end of the queue of the descriptor for its address and endpoint, which is created at the end of the list if missing; Skip and Halted are cleared there, bit 1 or 2 of the notification word is set, and nothing else changes. |
| `HcdLaws.LinkAllowedIff` | `bi-mpp-pic24-usb-simulator-master/src/hcd.c:33-43` | The linking assertions, in terms of the list: only a new descriptor needs a seven-bit address and a packet size of at most 1024. |
| `HcdLaws.SendChooses` | `bi-mpp-pic24-usb-simulator-master/src/hcd.c:159-171` | A send passes over the descriptors that are skipped, halted or without a TD, and sends for the next one; if there is none it only clears the bit of its list. |
| `HcdLaws.SendRetires` | `bi-mpp-pic24-usb-simulator-master/src/hcd.c:172-242` | A TD that leaves its queue goes to the front of the done list and bit 4 is set; the other list and the other descriptors are untouched. |
| `HcdLaws.DoneCompletes` | `bi-mpp-pic24-usb-simulator-master/src/hcd.c:252-269` | The front TD of the done list is completed, with status 1 iff an error was counted and length buffer_length less what was left to move; an empty list clears bit 4. |
| `HcdLaws.SleepsIff` | `bi-mpp-pic24-usb-simulator-master/src/hcd.c:271-277` | Between two attempts the controller thread does something iff a notification bit is set; holding a list head it only sends. |
| `LostWakeUp.NeverAsleepOnWork` | `bi-mpp-pic24-usb-simulator-master/src/hcd.c:271-277` | Without a stale send the loop does not block while any list has work. |
| `LostWakeUp.SleepsOnWork` | `bi-mpp-pic24-usb-simulator-master/src/hcd.c:337-354` | The stale NULL head is real: a schedule of eighteen iterations in which a whole control transfer is carried out and completed, a bulk TD is linked after the loop has read the NULL bulk list, and the loop then sleeps with that TD queued, until some other TD is linked. |
| `HcdConservation.Conservation` | `bi-mpp-pic24-usb-simulator-master/src/hcd.c:100-145` | Over all interleavings every TD linked so far is in exactly one queue, or on the done list, or freed with one completion, and no other TD is anywhere. |
| `HcdConservation.CompletedOnce` | `bi-mpp-pic24-usb-simulator-master/src/hcd.c:252-269` | No TD is completed twice. |
| `HcdLocality.EveryEndpoint` | `bi-mpp-pic24-usb-simulator-master/src/hcd.c:55-145` | In every run each endpoint descriptor is the result of its own links and replies alone and keeps the invariant of `EpdTrack.ReplayInv`; if its TDs take the toggle from the descriptor, its toggles alternate as long as none is given up after an odd number of acknowledged packets. |
| `HcdLocality.RetiredData` | `bi-mpp-pic24-usb-simulator-master/src/hcd.c:172-221` | TDs leave an endpoint in link order; the acknowledged payloads are exactly the first `pos` bytes of the buffer; an OUT TD retired by ACK has sent all, an IN TD is full or ended on a short packet. |
| `HcdLocality.BoundedWork` | `bi-mpp-pic24-usb-simulator-master/src/hcd.c:178-238` | A TD that has left the queue met at most three ERRs (three exactly when it was given up for them) and at most max(1, ceil(size/mps)) ACKs for an IN TD, exactly that many for an OUT TD accepted packet by packet and retired by ACK. |
| `EpdWork.ReplyProgress` | `bi-mpp-pic24-usb-simulator-master/src/hcd.c:205-241` | Every reply retires the head TD, or is a NAK, or acknowledges an OUT or SETUP packet with no byte, or decreases the TD's remaining errors plus remaining bytes. |
| `HcdLocality.OnlyNaksDelay` | `bi-mpp-pic24-usb-simulator-master/src/hcd.c:178-238` | So only those two kinds of reply can delay retirement: in every run the other replies to each TD, queued or retired, number at most three plus its size, and a queued head TD has met at most two ERRs and fewer ACKs than the bound of `BoundedWork`. |
| `HcdLocality.ReportedLength` | `bi-mpp-pic24-usb-simulator-master/src/hcd.c:260-267` | urb->length of every completion, after errors too, is the sum of rlen over the acknowledged packets and lies between 0 and buffer_length; urb->status says whether there was an error. |
| `EpdTrack.ReplayInv` | `bi-mpp-pic24-usb-simulator-master/src/hcd.c:172-241` | The invariant of one descriptor over any sequence of links and replies: queue and retired TDs together are the linked TDs in order, and each is exact in position, data, errors and packet count. |
| `EpdToggles.ToggleLaw` | `bi-mpp-pic24-usb-simulator-master/src/hcd.c:175-221` | For an endpoint whose TDs take the toggle from the descriptor, the n-th acknowledged packet carries DATA(n mod 2) unless a TD was given up after an odd number of acknowledged packets; the next toggle is always the parity of acknowledged packets plus such losses. |
| `EpdToggles.StepDesynchronises` | `bi-mpp-pic24-usb-simulator-master/src/hcd.c:213-237` | A packet puts an endpoint out of step exactly when it gives a TD up (third ERR, or STALL) after an odd number of acknowledged packets. |
| `EpdToggles.OddLossRepeats` | `bi-mpp-pic24-usb-simulator-master/src/hcd.c:224-233` | A concrete endpoint on which a TD is given up after one acknowledged packet: two acknowledged packets in a row are DATA0. |
| `EpdTrack.StallHalts` | `bi-mpp-pic24-usb-simulator-master/src/hcd.c:234-237` | STALL and no other reply halts an endpoint; it then sends nothing until a TD is linked, which makes it eligible again. |
| `HcdLoop.ServiceRatio` | `bi-mpp-pic24-usb-simulator-master/src/hcd.c:335-361` | From any state and phase of the loop, whatever is linked meanwhile and whatever the device answers: iterations of which 6k did not block make exactly 4k control attempts, k bulk attempts and k done-list steps. |
| `HcdLoop.LoopIsRun` | `bi-mpp-pic24-usb-simulator-master/src/hcd.c:331-362` | Every run of the loop among linking threads is one of the interleavings of `HcdRuns`, so the laws of the controller hold of it. |
| `HcdLoop.BulkServed` | `bi-mpp-pic24-usb-simulator-master/src/hcd.c:327-362` | Bulk work whose bit is set gets a packet within six iterations whatever is linked meanwhile and whatever the device answers, and the loop does not block before; which endpoint gets it is the next row. |
| `BulkOrder.ServedIff` | `bi-mpp-pic24-usb-simulator-master/src/hcd.c:164-171` | The next bulk attempt sends a packet of endpoint j if and only if j is eligible and no earlier descriptor of the list is, at the moment the attempt takes the lock: the search starts at the list head every time. |
| `BulkOrder.ServedIffNow` | `bi-mpp-pic24-usb-simulator-master/src/hcd.c:164-171` | The same about the list as it is now, if nothing is linked to its endpoints before the attempt. |
| `BulkStarvation.NakStarves` | `bi-mpp-pic24-usb-simulator-master/src/hcd.c:337-354` | While an earlier endpoint keeps answering NAK, endpoint j gets no packet in any number of iterations, whatever is linked for other endpoints. |
| `BulkStarvation.StarvedForEver` | `bi-mpp-pic24-usb-simulator-master/src/hcd.c:337-354` | A concrete such run from the initial controller: an IN TD on endpoint 1 answered NAK, as while no key is pressed, and a byte for endpoint 2, which is never sent. |
| `BulkService.ServedWithin` | `bi-mpp-pic24-usb-simulator-master/src/hcd.c:337-354` | Endpoint j is served within 6(W + 1) iterations, W being the packets the endpoints before it can still need, if their replies make progress and nothing more is linked to them. |
| `EventRing.PostAppends` | `bi-mpp-pic24-usb-simulator-master/src/usb_lib_usbip.c:78-84` | A post appends to the unread events, or with fifteen unread makes the ring look empty. |
| `EventRing.RingIsFifo` | `bi-mpp-pic24-usb-simulator-master/src/usb_lib_usbip.c:60-84` | Over any interleaving of posts and guarded gets that never exceeds fifteen unread events, what was got plus what is unread is what was posted, in order. |
| `EventRing.FifoKeptIff` | `bi-mpp-pic24-usb-simulator-master/src/usb_lib_usbip.c:78-84` | A post keeps that law if and only if fewer than fifteen events are unread. |
| `EventRing.EventQueue.NotifyEp` | `bi-mpp-pic24-usb-simulator-master/src/usb_lib_usbip.c:78-84` | The post on the array and its indices is that of the ring model. |
| `EventRing.EventQueue.GetEvent` | `bi-mpp-pic24-usb-simulator-master/src/usb_lib_usbip.c:68-76` | A get takes the oldest unread event. |
| `UsbLib.Device.Transfer` | `bi-mpp-pic24-usb-simulator-master/src/usb_lib_usbip.c:232-300` | A packet against the registers, table, buffers and event ring updated in place has exactly the reply and effect of the function `Transfer`. |
| `UsbLib.Device.TakeOut` | `bi-mpp-pic24-usb-simulator-master/src/usb_lib_usbip.c:259-278` | An OUT or SETUP packet: NAK if not owned, ERR if too long, otherwise the bytes copied, the entry kept with its new status and count, one event posted. |
| `UsbLib.Device.GiveIn` | `bi-mpp-pic24-usb-simulator-master/src/usb_lib_usbip.c:279-296` | An IN packet: NAK if not owned, otherwise a prefix of the armed bytes, the entry released, one event posted. |
| `UsbLib.Device.StartTransfer` | `bi-mpp-pic24-usb-simulator-master/src/usb_lib_usbip.c:124-135` | Arming sets count, address and status of the entry for the direction, the high bits of the size ending up in the status byte, and enables packets. |
| `UsbLib.Device.UsbReset` | `bi-mpp-pic24-usb-simulator-master/src/usb_lib_usbip.c:107-113` | A reset clears address, packet disable and the whole table. |
| `UsbLib.Device.InitEp` | `bi-mpp-pic24-usb-simulator-master/src/usb_lib_usbip.c:115-122` | Counts and status bytes of one endpoint are cleared, its addresses are not. |
| `UsbLib.Device.CopyInto` | `bi-mpp-pic24-usb-simulator-master/src/usb_lib_usbip.c:161-166` | The copy loop overwrites exactly the first bytes of the buffer. |
| `UsbLib.Device.CopyFromBuffer` | `bi-mpp-pic24-usb-simulator-master/src/usb_lib_usbip.c:168-173` | The copy loop yields exactly the first bytes of the buffer. |
| `UsbLib.Device.BusReset` | `bi-mpp-pic24-usb-simulator-master/src/hcd.c:245-250` | A bus reset reaches the device only at address 0 with packets enabled. |
| `DeviceModel.TransferFits` | `bi-mpp-pic24-usb-simulator-master/src/usb_lib_usbip.c:232-300` | The device never moves more bytes than asked for, so it is one of the devices the controller laws allow; its own invariant is kept. |
| `DeviceModel.AckPostsOnce` | `bi-mpp-pic24-usb-simulator-master/src/usb_lib_usbip.c:258-297` | Exactly the acknowledged packets post an event, one each, with the endpoint address. |
| `DeviceModel.ToggleTestInert` | `bi-mpp-pic24-usb-simulator-master/src/usb_lib_usbip.c:263` | With bit 0 of the status byte clear the data toggle test rejects nothing. |
| `DeviceLaws.PacketRefused` | `bi-mpp-pic24-usb-simulator-master/src/usb_lib_usbip.c:232-296` | Which packets are acknowledged and which get NAK or ERR, in bits of the status byte: exactly when; a refused packet changes nothing, except that a SETUP that reaches the device disables packets. |
| `DeviceLaws.PacketRecorded` | `bi-mpp-pic24-usb-simulator-master/src/usb_lib_usbip.c:250-296` | What an acknowledged packet leaves in its entry, bit by bit: the packet code in bits 5 to 2, an OUT entry still owned with its length as count and the bytes at the start of its buffer, an IN entry released. |
| `DeviceLaws.Arms` | `bi-mpp-pic24-usb-simulator-master/src/usb_lib_usbip.c:124-135` | An arming of any size, bit by bit. |
| `DeviceLaws.Clears` | `bi-mpp-pic24-usb-simulator-master/src/usb_lib_usbip.c:115-122` | Initialising an endpoint zeroes counts and status bytes and keeps addresses and the other endpoints. |
| `DeviceLaws.Registers` | `bi-mpp-pic24-usb-simulator-master/src/usb_lib_usbip.c:107-113` | A reset zeroes table and registers; the address register is a signed byte. |
| `DeviceLaws.SetupToldBy` | `bi-mpp-pic24-usb-simulator-master/src/usb_lib_usbip.c:211-216` | is_setup holds of an OUT event iff bits 5 to 2 of the status byte are the SETUP code. |
| `ToggleTest.VerdictIff` | `bi-mpp-pic24-usb-simulator-master/src/usb_lib_usbip.c:263` | The test as compiled gives the verdict its comment intends if and only if it is not enabled, or the packet is DATA1 and the entry armed for DATA1, or it is not and bit 0 of the status byte says the same as the armed kind. |
| `ToggleTest.BitStaysClear` | `bi-mpp-pic24-usb-simulator-master/src/usb_lib_usbip.c:124-135` | Bit 0 of every OUT status byte stays clear in every run of firmware rounds, bus resets and packets of any kind. |
| `ToggleTest.KindIgnored` | `bi-mpp-pic24-usb-simulator-master/src/usb_lib_usbip.c:258-278` | So in every such run a data packet gets the same reply, moves the same bytes and posts the same event whichever data kind it is sent as. |
| `ToggleTest.WrongKindTaken` | `bi-mpp-pic24-usb-simulator-master/src/usb_lib_usbip.c:263` | A concrete wrong toggle that is accepted: endpoint 2 armed for DATA1 acknowledges a DATA0 packet. |
| `InOwnership.InNeverBroken` | `bi-mpp-pic24-usb-simulator-master/src/usb_lib_usbip.c:279-297` | Over all interleavings of firmware calls and host packets, each arming of an IN entry is followed by at most one acknowledged packet before the next arming; that packet is a prefix of the buffer as it then is, of at most the size armed, and of the bytes armed unless they were overwritten since. |
| `Firmware.Board.ProcessControlTransfer` | `pic_usb_device.X/main.c:213-327` | process_control_transfer on the variables of main.c has exactly the effect of the function `ProcessControl`. |
| `Firmware.Board.Request` | `pic_usb_device.X/main.c:219-293` | The switch on bRequest: the requested descriptor armed cut to wLength, the address kept for later, the data endpoints armed, or nothing. |
| `Firmware.Board.NextStage` | `pic_usb_device.X/main.c:295-326` | The switch on the state: the status stage or the next SETUP armed, and the address taken only here. |
| `Firmware.Board.ProcessEpTransfer` | `pic_usb_device.X/main.c:345-369` | The key is armed on endpoint 1 IN, or what endpoint 2 OUT received is taken and the endpoint armed again, with alternating data kinds. |
| `Firmware.Board.MainRound` | `pic_usb_device.X/main.c:379-428` | One round of main: reset, then at most one event, as the function `Round` says. |
| `RequestLaws.RequestServed` | `pic_usb_device.X/main.c:213-293` | A SETUP packet of any eight bytes on an armed endpoint 0, in literal bytes: byte 1 is 6 and byte 3 is 1, 2 or 10: that descriptor is armed as DATA1, cut to bytes 6 and 7; byte 1 is 5: byte 2 is kept as address; byte 1 is 9: byte 2 is the configuration and endpoints 1 IN and 2 OUT are armed as DATA0 with size 0; any other: nothing but the packet disable. |
| `RequestLaws.StageServed` | `pic_usb_device.X/main.c:295-326` | The later events of endpoint 0, by state: the empty OUT status packet armed as DATA1, the next SETUP armed, and the address taken as a signed byte only after its status stage. |
| `RequestLaws.EndpointServed` | `pic_usb_device.X/main.c:345-369` | An event 0x81 arms the one-byte key and 0x02 the 64-byte receive buffer, with DATA0 and DATA1 in turn; other events do nothing. |
| `RequestLaws.EventsDispatched` | `pic_usb_device.X/main.c:396-423` | Events 0 and 0x80 go to the control transfer, a SETUP being told by the packet kind in the status byte of endpoint 0 OUT; all others to the data endpoints. |
| `RequestLaws.ResetServed` | `pic_usb_device.X/main.c:381-389` | After a reset the device is at address 0 with a 64-byte SETUP armed and nothing else. |
| `RequestLaws.DeviceFields` | `pic_usb_device.X/main.c:18-33` | The device descriptor by offset: USB 1.1, packet size 64, vendor 0x1111, product 0x2222, release 0x0100, one configuration. |
| `RequestLaws.ConfigurationFields` | `pic_usb_device.X/main.c:128-165` | The configuration by offset: one vendor-specific interface, interrupt endpoints 0x81 and 0x02 of ten bytes; the debug word 0x0A04. |
| `Lockstep.StageCompletes` | `bi-mpp-pic24-usb-simulator-master/src/sys.c:195-202` | If the packet of a stage retires its TD, urb_wait comes back within eight iterations of the loop wherever it stands, with exactly that TD completed and nothing left queued. |
| `Lockstep.QuietSleeps` | `bi-mpp-pic24-usb-simulator-master/src/hcd.c:271-362` | With no TD anywhere the loop goes to sleep: after six iterations the bits of both lists and of the done list are clear. |
| `SubmitCounts.SubmitReports` | `bi-mpp-pic24-usb-simulator-master/src/sys.c:189-231` | Any request, from a system without TDs and whatever the device does: two stages, or three if one of the last two setup bytes is not zero; it comes back iff as many TDs were completed, with the length and buffer of the data stage, or 0 and the buffer as it was without one. |
| `SubmitCounts.LengthRoundTrip` | `bi-mpp-pic24-usb-simulator-master/src/sys.c:204` | wLength is the number whose low and high byte are the last two setup bytes. |
| `ControlRead.ReadCompletes` | `bi-mpp-pic24-usb-simulator-master/src/sys.c:189-231` | A GET_DESCRIPTOR whose offer ends the transfer leaves the buffer with exactly the descriptor prefix, urb->length its length, three acknowledged packets on the bus, the device armed for the next SETUP in CTS_SETUP, and no TD or event anywhere. |
| `ControlRead.ReadCompletesIff` | `bi-mpp-pic24-usb-simulator-master/src/hcd.c:210-220` | A GET_DESCRIPTOR comes back if and only if the offer fills the buffer or is shorter than the packet size of the host's descriptor; otherwise urb_wait never returns. |
| `Enumeration.OverlongRead` | `bi-mpp-pic24-usb-simulator-master/src/hcd.c:210-220` | A concrete read that never returns however long the wait: 64 bytes of the 18-byte device descriptor at packet size 8, right after power-on. |
| `ControlRead.ReadOfBufferLength` | `bi-mpp-pic24-usb-simulator-master/src/sys.c:204-217` | With wLength equal to the buffer length it comes back iff the length is at most that of the descriptor or the descriptor is shorter than the packet size, with urb->length the minimum of the two. |
| `InterleavedRead.ReadInterleaved` | `bi-mpp-pic24-usb-simulator-master/src/sys.c:189-231` | Without lockstep: however packets and firmware rounds interleave within the transfer, the host gives the data stage up exactly when three packets go out before the firmware serves the SETUP event; whenever the data TD is acknowledged the host has exactly the descriptor prefix. |
| `InterleavedRead.ReadInterleavedEnds` | `pic_usb_device.X/main.c:295-314` | And once the status TD has retired, even before the firmware has seen the data packet go, the firmware left alone ends armed for the next SETUP with no event left. |
| `InterleavedRead.GivenUpRecovers` | `bi-mpp-pic24-usb-simulator-master/src/sys.c:215-230` | When the host has given the data stage up and sends the status stage anyway: it gives that up too exactly when the SETUP event is still unserved and three more packets go out first, otherwise the device acknowledges it and takes it for the end of a data stage; either way the device, left alone, is ready for the next SETUP at its address. |
| `InterleavedWrite.WriteInterleaved` | `bi-mpp-pic24-usb-simulator-master/src/sys.c:219-231` | SET_ADDRESS and SET_CONFIGURATION without lockstep: the host gives the status stage up exactly when three packets go out before the firmware serves the SETUP event; and as long as the status packet was not acknowledged, the device answers at its old address. |
| `InterleavedWrite.WriteInterleavedEnds` | `pic_usb_device.X/main.c:295-326` | Once it was acknowledged, however packets and rounds interleaved, the firmware left alone ends with the new address in force, or the data endpoints armed, and ready for the next SETUP. |
| `Enumeration.WriteCompletes` | `bi-mpp-pic24-usb-simulator-master/src/sys.c:219-231` | SET_ADDRESS and SET_CONFIGURATION come back; both packets are acknowledged at the old address, and the new one is in force only afterwards. |
| `Enumeration.EnumerationAgrees` | `bi-mpp-pic24-usb-simulator-master/src/sys.c:89-135` | From any quiet system whose device answers at address 0, every transfer up to SET_CONFIGURATION comes back; each of the 22 packets is sent to the address the device has at that moment, 0 for the first eleven and 1 from the SET_ADDRESS status stage on; the eight SETUP packets carry the bytes written out in the contract; the host ends with the device's descriptors. |
| `Enumeration.PowerOnReady` | `bi-mpp-pic24-usb-simulator-master/src/sys.c:89-94` | The system right after power-on is such a start. |
| `SubmitCounts.FirstHalfReports` | `bi-mpp-pic24-usb-simulator-master/src/sys.c:94-107` | Whatever the device does, the sequence up to SET_ADDRESS reports success only if all four transfers came back, eleven stages in all. |
| `SubmitCounts.SecondHalfReports` | `bi-mpp-pic24-usb-simulator-master/src/sys.c:108-135` | The same from there to SET_CONFIGURATION, for any configuration length the device reports. |
| `DataRuns.TogglesAgreeIff` | `pic_usb_device.X/main.c:268-284` | In every lockstep run after SET_CONFIGURATION, with bulk TDs of both directions on endpoints 1 and 2 and control TDs of any kind and address linked at any moment: the next packet of a data endpoint is acknowledged exactly if the device is reachable at address 1, the direction is the endpoint's and the size at most 64; and it is of the data kind the firmware armed if and only if the host is an even number of packets ahead (odd losses, and packets a further SET_CONFIGURATION made the device forget). |
| `DataRequests.RunPolite` | `pic_usb_device.X/main.c:219-293` | Which links keep a request from being served, said of the links alone: no SETUP with that request, no OUT TD with that byte, and no OUT TD to address 1 before a SETUP. |
| `DataRequests.StaleRequest` | `bi-mpp-pic24-usb-simulator-master/src/usb_lib_usbip.c:268-277` | Why the last of these: an empty OUT packet leaves the owned receive entry without room, and the SETUP after it, whatever it asks, is served as the old SET_CONFIGURATION. |
| `DataRequests.TogglesAgreePolite` | `pic_usb_device.X/main.c:268-284` | With no further SET_CONFIGURATION among such links, an acknowledged packet of a data endpoint has the armed kind if and only if an even number of that endpoint's TDs were given up after an odd number of acknowledged packets. |
| `DataRequests.TogglesAgreeOnceEnumerated` | `bi-mpp-pic24-usb-simulator-master/src/sys.c:132-138` | The enumeration sequence leads to such a start, and SET_INTERFACE, which the program sends next, is one of the links. |
| `DataAgreement.AckedAgrees` | `pic_usb_device.X/main.c:345-369` | With neither SET_CONFIGURATION nor SET_ADDRESS among them, every acknowledged packet of endpoint 1 IN or 2 OUT has the armed kind, whatever the other control transfers do to the device. |
| `DataStreams.KeysArriveIff` | `pic_usb_device.X/main.c:345-356` | In every such run without a further SET_CONFIGURATION, the bytes the host got on endpoint 1 IN, with the one still armed, are the keys served, in order and each once, if and only if no acknowledged IN packet but the first asked for zero bytes. |
| `DataStreams.EmptyReadIff` | `bi-mpp-pic24-usb-simulator-master/src/hcd.c:194-201` | The next IN packet of endpoint 1 asks for zero bytes if and only if its TD was linked with an empty buffer. |
| `DataStreams.KeysArrive` | `pic_usb_device.X/main.c:345-356` | So the keys arrive in every run whose reads of endpoint 1 have buffers, a condition on the links alone. |
| `LostKey.EmptyReadLosesKey` | `pic_usb_device.X/main.c:345-356` | A concrete run with a read of no byte after a read of one: two keys are served, the host gets neither, one is still armed. |
| `DataStreams.ReceivedBytes` | `pic_usb_device.X/main.c:357-364` | What the firmware takes from endpoint 2 OUT in such a run is each accepted packet written over the ones before, stale bytes behind it included; the first packet is accepted with no byte and every later acknowledged one whole. |
| `Wedge.EnabledIffKnown` | `pic_usb_device.X/main.c:229-291` | After a SETUP was served, packets are enabled again if and only if the firmware knows the request. |
| `Wedge.WedgedForever` | `bi-mpp-pic24-usb-simulator-master/src/usb_lib_usbip.c:239-251` | With packets disabled and no event left, every packet gets ERR for ever, bus resets notwithstanding. |
| `Wedge.SetInterfaceWedges` | `bi-mpp-pic24-usb-simulator-master/src/sys.c:136-138` | SET_INTERFACE, the last request of the enumeration, has that effect. |
| `Simulator.System.LoopIteration` | `bi-mpp-pic24-usb-simulator-master/src/hcd.c:331-362` | One iteration of hcd_loop on the linked lists, with the packet delivered to the device objects, is the function `LoopStep` on the abstract world; a completed URB shows its completion. |
| `Simulator.System.UrbWait` | `bi-mpp-pic24-usb-simulator-master/src/urb.c:64-81` | Waiting for a URB, with any others on their way, runs the loop until that URB is done, which then shows the completion just made; waiting for the only one is the function `Await`. |
| `Simulator.System.ControlSubmit` | `bi-mpp-pic24-usb-simulator-master/src/sys.c:189-231` | The control path of sys_urb_submit on the objects is the function `Submit`: its end-to-end laws hold of it; the handler runs once if every stage came back. |
| `Simulator.System.UrbSubmit` | `bi-mpp-pic24-usb-simulator-master/src/sys.c:175-240` | Three stages if the setup packet is not zero, otherwise one TD with "toggle from endpoint" in the background. |
| `SystemLoop.ControlTransfer` | `bi-mpp-pic24-usb-simulator-master/src/sys.c:242-256` | sys_usb_control_transfer creates a URB, submits it and waits; the buffer is that of the submission. |
| `SystemLoop.Enumerate` | `bi-mpp-pic24-usb-simulator-master/src/sys.c:89-135` | system_loop on the objects, up to SET_CONFIGURATION: both descriptors read, the one interface listed, the device configured at address 1, every packet acknowledged at the address it was sent to. |
| `SubmitLaws.ControlShape` | `bi-mpp-pic24-usb-simulator-master/src/sys.c:189-231` | Over all interleavings each command whose eight setup bytes are not all zero has exactly its stages linked, in order, a prefix while it waits: SETUP (those eight bytes, DATA0), a data stage iff one of the last two setup bytes is not zero, In or Out as bit 7 of the first one says, from DATA1, and an empty DATA1 status stage the other way. |
| `SubmitLaws.SetInterfaceShape` | `bi-mpp-pic24-usb-simulator-master/src/sys.c:82-87` | The instance for the bytes 01 0B 00 00 00 00 00 00: a SETUP TD with them, no data stage, and an IN status stage. |
| `SubmitLinks.SubmittedAs` | `bi-mpp-pic24-usb-simulator-master/src/sys.c:189-238` | A command gets a SETUP TD iff its eight setup bytes are not all zero; otherwise it gets exactly one TD, of its own URB, In if direction is not 0 and Out otherwise, with its bytes, its length and "toggle from the endpoint". |
| `SubmitLinks.TdAddressed` | `bi-mpp-pic24-usb-simulator-master/src/sys.c:194-238` | Every TD of a command, stages included, is linked to address devid & 0xFFFF, endpoint ep & 15 and the command's packet size, on the control list iff it is a SETUP or the endpoint is 0. |
| `SubmitLinks.KeyRead` | `bi-mpp-pic24-usb-simulator-master/src/usbip.c:182-196` | The instance of a one-byte read of endpoint 1 of device 0x10001: an IN TD on the bulk list for address 1, endpoint 1. |
| `SubmitLaws.OneStageAtATime` | `bi-mpp-pic24-usb-simulator-master/src/sys.c:195-230` | No stage is linked before the TD of the previous one was completed. |
| `SubmitLaws.BulkHandlerOnce` | `bi-mpp-pic24-usb-simulator-master/src/usbip.c:182-217` | For a bulk command, runs of the done handler plus its TD still in the controller add up to one. |
| `SubmitLaws.ControlHandlerOnce` | `bi-mpp-pic24-usb-simulator-master/src/sys.c:201-231` | For a control command the handler has not run while its stages are on their way, and has run once after. |
| `SubmitLaws.ReplyExact` | `bi-mpp-pic24-usb-simulator-master/src/usbip.c:81-112` | Each reply carries its own command's seqnum, devid, direction and endpoint; actual_length is the sum of the acknowledged bytes of the TD that carried the data, the payload of an IN command is those bytes, and an OUT command's reply has none. |
| `DescriptorWalk.CreateOpRepList` | `bi-mpp-pic24-usb-simulator-master/src/usbip.c:55-71` | The nested loops, with their array output, compute the walk on any bytes, take bytes 5, 6 and 7 at each stop as class, subclass and protocol, and tell where they would read past the descriptor or hang. |
| `DescriptorWalk.WalkIff` | `bi-mpp-pic24-usb-simulator-master/src/usbip.c:59-69` | On length-prefixed records with enough interfaces the walk stops exactly at the first bNumInterfaces interface records if and only if, up to there, no one-byte record stands before a four-byte one and each interface record has eight bytes from its start. |
| `DescriptorWalk.WalkIsFilter` | `bi-mpp-pic24-usb-simulator-master/src/usbip.c:55-71` | On descriptors with type bytes and whole interface descriptors it yields bytes 5, 6 and 7 of the first bNumInterfaces interface descriptors, in order. |
| `DescriptorWalk.WalkSafeIff` | `bi-mpp-pic24-usb-simulator-master/src/usbip.c:57-69` | On such descriptors it stays within the configuration if and only if there are at least bNumInterfaces interfaces. |
| `DescriptorWalk.OwnConfiguration` | `pic_usb_device.X/main.c:123-165` | On the device's own configuration: one interface, class 0xFF, at offset 9. |
| `DescriptorWalk.FieldsInOrder` | `bi-mpp-pic24-usb-simulator-master/src/usbip.c:65-67` | On a concrete configuration with class 3, subclass 1 and protocol 2 these come out in that order. |
| `DescriptorWalk.OneByteRecord` | `bi-mpp-pic24-usb-simulator-master/src/usbip.c:60-62` | A concrete stream of positive-length records on which the walk takes a wrong record for an interface. |

## Left out

- Sockets, threads and real time (`accept_loop` around the submit arm, `wait_for`, `usleep`, `pthread_create`): lock regions are atomic steps, and what other threads do between them is arbitrary. The list and import requests of USB/IP are not modelled.
- `usbip_server_org.c`: a superseded copy that is not built.
- `hcd_gtd_unlink` and `hcd_wait_for_td`: the first only ever gets NULL, the second is never called; of `__hcd_unlink_gtd` only the head branch is reachable.
- The list of URBs in `sys_t`: it is only appended to and unlinked from, and nothing reads it; a URB's place in it is not modelled.
- urb->status and the return value of `sys_usb_control_transfer` (always `size`) as signs of success: neither tracks the outcome.
- The header and device fields of the USB/IP device list, constants copied field by field: only the interface entries are modelled.
- SOF, isochronous and interrupt scheduling, control transfers on other endpoints than 0 in the composition, and the status direction of a device-to-host request without data.
- The `U1EP` registers: nothing in the simulator reads them.
- Aliasing of a URB's buffer and its TD's: a TD carries its bytes, and the URB takes them over on completion.
- The closed PIC library, LEDs, display, touchpad and logging; `cv02_rtc_pci`, `cv03_pci_map`, `cv04_mouse`, `pic_usbdev_pc_side_sw`, `cv05_flash`, `cv10_kernel_chardev`.
- UsbLib.Device.Transfer: asks that the endpoint has a descriptor. The source compares the endpoint number with the size of the table in bytes, so larger numbers reach memory behind the table, of which nothing can be said.
- Simulator.System.ControlSubmit: starts with no TD outstanding; control stages among bulk TDs are followed in the interleavings of `SubmitLaws` and `HcdRuns`, not on the objects.
- Simulator.System.UrbSubmit: control submissions are on endpoint 0 and start with no TD outstanding; bulk ones have no such limit.
- SystemLoop.ControlTransfer: starts with no TD outstanding, as each transfer of the enumeration does.
- DataRuns.TogglesAgreeIff: leaves out bulk TDs for other endpoints or addresses, and control TDs on other endpoints than 0.
- SubmitLaws.ReplyExact: the submitting thread and the reply are modelled on values, a state machine over the steps of all threads, because its laws are about every interleaving; the reply's constant fields and byte order are not stated.
- SubmitLaws.ControlHandlerOnce: says nothing about when the stages of a command come back; for descriptor reads that is `ControlRead.ReadCompletesIff`.
- InterleavedRead.ReadInterleaved: the host is the one endpoint descriptor of the transfer, which by `HcdLocality.EveryEndpoint` depends on its own links and replies alone; a next transfer that starts before the firmware has finished this one is not covered.
- SystemLoop.Enumerate: the retry loop around the sequence is not entered a second time, since every transfer returns its size; attaching and the step after SET_CONFIGURATION are not part of it.
- The event ring with more than fifteen unread events: `EventRing.FifoKeptIff` says a post then loses them.
