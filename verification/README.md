# The VCOM byte pipes, state machine and protocol

The Advantech VCOM stack bridges a tty to a remote serial server. A kernel driver keeps two shared ring buffers and the
port settings; a user-space daemon moves bytes between the rings and a TCP connection with a packet protocol. This project
models the driver, the daemon and their protocol, and proves what holds in every run of the daemon, whatever the
application, the tty, the device and the system calls do.

## How it is organised

There are two levels, tied together by contracts.

- **In the form of the source**, on classes and arrays: `UartDriver`, `Driver` and `Attributes.AdvPortAtt` (kernel),
  `Stack` and `Daemon` (the state stack, `struct vc_attr`, its handlers and the main loop), `PacketBuffer` (the packet builders),
  `Receive` (the socket stream) and `Monitor` (the exception log).
- **On values**: `Rings`, `Packets`, `Worlds` (the world around the daemon and its system calls) and `Handlers` (what each
  handler does to that world). Every method of the first level is proved to do what its function here says.

The main results are lemmas about every execution of the main loop (`Runs.Execution`, `Handlers.Run`): `Control` (state machine, packet
log, credit), `Pipes` and `PipeRuns` (the byte pipes), `Ledger` (what became of each packet), `Timeout` (a silent peer),
`Settings` (reconciliation), `Stall` (what Idle loses), `CloseFraming` (framing at the end of a connection), collected in
`Runs`. `Reopening` is about successive connections, `Connections` and `ConnectionRuns` are about flushing, about framing
when a connection ends, and about the settings the device has while it lasts. `Witnesses` and `Reopened` show that the
failures below are reached.

What the functions of `Handlers` and `Worlds` mean is said a second time, in plain numbers and on contents, without naming
them: `Says` (the packets of each handler), `Hears` (what each packet does), `Speech` and `Turns` (all that a turn says),
`Progress` (what a turn brings on its way), `Wishes` (from `termios` to the device), `Requests` (the driver).

## How the world is modelled

- The daemon is one process among others. Before each of its system calls takes effect, any number of steps of the
  application, the serial core, the tty and the device may happen. A script that is arbitrary in every theorem says which,
  and whether the call succeeds. A failing send may have sent any proper part of its bytes.
- `HonestTicks` restricts the device where a result needs it: it takes all of a WRITE or nothing, answers each request at
  most once, with the answer of that request, and sends no other WRITE or IOCTL packet. It may answer in any order and as
  late as it likes, a WRITE also long after it took the data. The results that do not name it hold against any device.
- `tid` counts without bound; the wire carries it modulo 2^32. That is the source's unsigned counter.
- `Worlds.Hist` and parts of `Worlds.Net` record the past for the theorems only; no handler reads them.

## Where the code differs from what one would expect

- Idle drops the packet that wakes it. Safety survives this; progress does not: `Stall.IdleLosesTheAnswer`,
  `Stall.LostAnswerStallsUplink` and `Stall.IdleLosesData` say exactly when and what, `Witnesses.UplinkGetsStuck` and
  `Witnesses.DataGetsLost` how.
- `vc_common_purge` ignores a failing send, and CLOSE follows: `CloseFraming.ClosedFraming`, `Witnesses.FramingGetsTorn`.
- A payload `recv` that returns -1 shifts the receive offset by one: `Receive.PayloadAligned`, `Receive.FailedRecvShifts`.
- Agreement of the mirror with the settings does not mean that the device has them: `Settings.FreshConnectionMatches`,
  `Witnesses.BaudIsNotSent`.
- CREATE carries the literal id 1, and so does the packet after it, but no other before the counter wraps:
  `Runs.IdsCollideOnce`.
- `vc_pack_hflow` writes `xonlimit` twice and `xofflimit` never; the model leaves those bytes arbitrary.
- `vc_buf_clear` refreshes the uplink snapshot twice and the downlink snapshot not at all, which can make the next
  connection start in Pause: `Reopening.StaleCopyPauses`, `Reopened.CopyIsStale`.
- `vc_netdown_close` is never reached, so a port closed without a connection keeps what its rings hold for the next open:
  `ConnectionRuns.OnlyCloseFlushes`.
- The packets for RTS and DTR go out in one send; if it is cut, the first can be complete: `ConnectionRuns.EndsFramed`.
- GET_MODEMSTATUS is read without a look at the length of the packet: `Daemon.VcAttr.VcSyncRecv`.
- The comments in `vc_client_sync.c` say that `vc_sync_open` and `vc_sync_close` are never called; that is proved.
- The builders return 0 for a buffer that is too small. With the buffers the daemon uses this cannot happen, so the
  branches of the daemon for it do not occur in the model. The same holds for the `len <= 1` exits of the exception log.

## Model

| member | source | states |
|---|---|---|
| `Runs.StatesAgree` | EKI1526/vcom_linux_2.2.1/daemon/vcom_client.c:271-356 | in every run, at the head of the loop: the stack is [Net Down], [Net Down, X] or [Net Down, X, Idle] with X Net Up or Pause, Sync is never current, `exit` was never called, and Net Down, no socket and a closed mirror are the same thing, with nothing pending and no ids used |
| `Runs.CreditAgrees` | EKI1526/vcom_linux_2.2.1/daemon/vc_client_sync.c:216-250 | in every run, on a connection, the last QUEUEFREE sent is 1024 if the state above Net Down is Net Up and 0 if it is Pause |
| `Runs.WireIsFramed` | EKI1526/vcom_linux_2.2.1/daemon/vcom_client.c:62-123 | in every run, the framing rule applied to all bytes of a live connection yields exactly the packets sent: CREATE with id 1, then increasing numbers, each id its number modulo 2^32 |
| `Runs.IdsCollideOnce` | EKI1526/vcom_linux_2.2.1/daemon/vc_client_common.c:56-81 | in every run, before the counter wraps, two packets of a connection share an id if and only if they are CREATE and the packet after it |
| `Runs.BytesAreConserved` | EKI1526/vcom_linux_2.2.1/daemon/vc_client_common.c:88-150 | in every run, against any device: bytes that left the uplink ring, the ring and the circular buffer are the bytes written; bytes that left the downlink ring and the ring are the payloads accepted; on a connection uplink bytes leave only by acknowledgement |
| `Runs.SnapshotIsPrefix` | EKI1526/vcom_linux_2.2.1/daemon/vcom.h:347-391 | in every run, the daemon's uplink snapshot has the ring's head and is a prefix of its contents, no more than the ring holds awaits an answer, and no flush is pending on either ring |
| `Runs.DeviceGetsEachByteOnce` | EKI1526/vcom_linux_2.2.1/daemon/vc_client_common.c:434-454 | in every run against a device that answers each request at most once, in any order: what the device took is what was retired on this connection and the taken but unacknowledged prefix of the ring, and with what is left it makes up the bytes written |
| `Runs.RetiredBytesWereTaken` | EKI1526/vcom_linux_2.2.1/daemon/vc_client_common.c:434-454 | in every run against such a device, connected or not, what the device took on each connection is a piece of what the application wrote, from where the connection started, and the bytes retired so far are one share for each connection, a prefix of what it took and at most one WRITE shorter |
| `Runs.TakenTwice` | EKI1526/vcom_linux_2.2.1/daemon/vc_client_common.c:434-454 | in every run against such a device, if nothing was flushed between two connections, then what the device took on the first beyond its share is at most one WRITE, and comes first on the second again, as far as the device has got there |
| `Runs.DownlinkIsComplete` | EKI1526/vcom_linux_2.2.1/daemon/vc_client_common.c:401-433 | in every run, on a connection, the DATAREADY packets sent are those dealt with and those still queued, in order, and the bytes accepted are the payloads of those dealt with, without exactly those that Idle read |
| `Runs.UplinkWaitsForAnswers` | EKI1526/vcom_linux_2.2.1/daemon/vc_client_idle.c:75-82 | in every run against such a device, a WRITE is under way, held by the device or answered, if and only if bytes await an answer and none was left unanswered or had its answer read by Idle |
| `Ledger.NextWriteFollows` | EKI1526/vcom_linux_2.2.1/daemon/vcom_client.c:297-301 | where nothing awaits an answer, the snapshot holds bytes and the state is not Idle, the next WRITE goes out before `select` with as many of them as a packet takes, unless the connection ends |
| `Ledger.TurnTold` | EKI1526/vcom_linux_2.2.1/daemon/vcom_client.c:271-356 | one turn of the loop keeps the account of DATAREADY packets and of WRITEs |
| `Reopening.StaleCopyPauses` | EKI1526/vcom_linux_2.2.1/daemon/vcom.h:393-410 | in every run, the connection after a close starts in Pause with credit 0 if and only if the daemon's copy of the downlink ring was not empty at the close, although the ring is empty |
| `Reopening.NetDownOpenFollows` | EKI1526/vcom_linux_2.2.1/daemon/vc_client_netdown.c:231-251 | an attempt to connect fails with the copy unchanged, or ends in the state that the copy chooses |
| `Reopening.FirstTurnMatches` | EKI1526/vcom_linux_2.2.1/daemon/vcom_client.c:280-295 | in every run, the turn that makes a connection leaves the device with the published settings if and only if it had the baud rate 0 already in case that is published |
| `Reopened.CopyIsStale` | EKI1526/vcom_linux_2.2.1/daemon/vcom.h:393-410 | a concrete execution of three turns that reaches this: a byte the tty does not take, a close, and a connection that starts in Pause with an empty ring |
| `ConnectionRuns.DeviceFollowsMirror` | EKI1526/vcom_linux_2.2.1/daemon/vc_client_common.c:222-299 | in every run, on a connection, a device that obeys what it is sent has the settings of the mirror, whatever it had before, but for a baud rate that is 0 in the mirror and was not sent |
| `ConnectionRuns.ReconciliationMatches` | EKI1526/vcom_linux_2.2.1/daemon/vcom_client.c:280-295 | in every run, every reconciliation without a failing send, the first or a later one, leaves the device with the published settings if and only if it had the baud rate 0 already in case that is published and in the mirror |
| `ConnectionRuns.EndsFramed` | EKI1526/vcom_linux_2.2.1/daemon/vc_client_common.c:466-530 | in every run, the bytes of a connection that ends split into the packets sent, or these and the first of two modem line packets cut in one send; with a close, exactly into the packets sent under an exact condition: with a complete CLOSE that PURGE went out whole or not at all, with both cut that their parts together are too short for a packet |
| `ConnectionRuns.OnlyCloseFlushes` | EKI1526/vcom_linux_2.2.1/daemon/vcom.h:393-410 | in every run, a turn flushes the rings if and only if it starts on a connection and finds the port closed; then all of the uplink ring and what is left of the downlink ring is flushed |
| `ConnectionRuns.TurnKeeps` | EKI1526/vcom_linux_2.2.1/daemon/vcom_client.c:271-356 | one turn, from where it has opened or closed, flushes nothing, sends nothing without a connection, leaves an ended connection framed and one that goes on mirrored |
| `Turns.TurnSays` | EKI1526/vcom_linux_2.2.1/daemon/vcom_client.c:271-356 | in every run, all that a turn says while the connection lasts, in order and in plain numbers: the settings that differ from the mirror, the first bytes of the ring if nothing is awaited, the credit taken back if Net Up finds the downlink ring not empty, the answers to the packet read, and the credit a Pause gives as it becomes Net Up; or, after a timeout, the question for a sign of life |
| `Turns.CreditIsGivenBack` | EKI1526/vcom_linux_2.2.1/daemon/vc_client_pause.c:156-180 | in every run, a Pause that waited for the downlink ring and finds it writable becomes Net Up with the credit 1024 if the output queue is empty and the calls work, and stays Pause with the credit 0, saying nothing, if it is not |
| `Progress.RingIsSeen` | EKI1526/vcom_linux_2.2.1/daemon/vcom_client.c:311-350 | in every run, a turn that reaches `select` with nothing awaited, in Net Up or in Pause with an empty input queue, and wakes with the uplink ring readable, ends with a snapshot that covers all the ring held |
| `Progress.RingIsSent` | EKI1526/vcom_linux_2.2.1/daemon/vcom_client.c:297-350 | the turn after such a turn has a WRITE under way at its `select`, of as many bytes as the ring held, up to 1024, unless the connection ends |
| `Progress.OnlyWhatIsWaitedFor` | EKI1526/vcom_linux_2.2.1/daemon/vc_client_netup.c:49-58 | with bytes awaited, in Idle and Net Down, and in Pause with a non-empty input queue, a turn is the same whether the rings are reported ready or not; in Net Up it does not depend on the downlink ring |
| `Progress.SelectMeans` | EKI1526/vcom_linux_2.2.1/daemon/vc_client_pause.c:98-124 | which readiness a turn waits for, by state, bytes awaited and input queue |
| `Progress.NothingIsLeftBehind` | EKI1526/vcom_linux_2.2.1/driver/adv_uart.c:57-79 | in every run, `select` is not called with the port open, the uplink ring empty with room in it, and bytes in the circular buffer |
| `Progress.SettingsArePublished` | EKI1526/vcom_linux_2.2.1/daemon/vcom_client.c:332-334 | in every run, a turn woken by a priority event ends with the settings the driver had right after `select`; any other turn keeps those it had |
| `Wishes.ApplicationIsObeyed` | EKI1526/vcom_linux_2.2.1/driver/adv_uart.c:415-493 | in every run, settings made by `set_termios` and `set_mctrl` and seen by a priority event are what the device has after the next reconciliation without a failing send, byte for byte from the flags, if and only if it had the baud rate 0 already in case that is asked for and in the mirror |
| `Wishes.FlowFollows` | EKI1526/vcom_linux_2.2.1/daemon/vc_client_common.c:251-275 | in every run, after every reconciliation the device has the flow control words 09000000 80000080 for RTS/CTS, 01000000 43000080 for XON/XOFF and 01000000 40000080 otherwise |
| `Runs.EventsAreAskedInTurn` | EKI1526/vcom_linux_2.2.1/daemon/vc_client_sync.c:136-330 | in every run against such a device, the event requests of a connection are SET_WAIT_MASK, GET_MODEMSTATUS, WAIT_ON_MASK, over and over in this order, and no SET_WAIT_MASK is without its GET_MODEMSTATUS |
| `Runs.OneRegistrationUnderWay` | EKI1526/vcom_linux_2.2.1/daemon/vc_client_sync.c:285-330 | in every run against such a device, which may hold a WAIT_ON_MASK while it answers what came later, at most one SET_WAIT_MASK or WAIT_ON_MASK or its answer is under way, and exactly one if and only if none was left unanswered or dropped by Idle |
| `Runs.Throughout` | EKI1526/vcom_linux_2.2.1/daemon/vcom_client.c:271-356 | at the head of the loop of every execution, the invariants of `Control` and `PipeRuns` hold |
| `Runs.TraceIsExecution` | EKI1526/vcom_linux_2.2.1/daemon/vcom_client.c:271-356 | the worlds that `Handlers.Run` passes through are an execution |
| `Runs.StartedIsLaunched` | EKI1526/vcom_linux_2.2.1/daemon/vcom_client.c:258-269 | what `main` does before its loop makes a world from which all results about runs follow, whatever the driver does meanwhile |
| `Runs.Client` | EKI1526/vcom_linux_2.2.1/daemon/vcom_client.c:222-359 | the daemon in the form of its source, from its start through any number of turns: the worlds at the head of its loop are an `Execution`, of which all results about runs hold |
| `Timeout.SilentPeerIsGivenUp` | EKI1526/vcom_linux_2.2.1/daemon/vcom_client.c:326-346 | with no packet from the device a connection ends within two timeouts of `select` or VC_PULL_TIME + 1 other wakeups, fewer if it was Idle or had waited already |
| `Timeout.SilentTurn` | EKI1526/vcom_linux_2.2.1/daemon/vcom_client.c:326-346 | one silent turn: a timeout takes Net Up or Pause to Idle and Idle to Net Down, any other wakeup brings `lrecv` forward and leaves the stack as high as it was |
| `Settings.ReconciliationConverges` | EKI1526/vcom_linux_2.2.1/daemon/vc_client_common.c:222-299 | without a failing send, reconciliation makes at most four sends, ends with the mirror equal to the published settings, and the device, obeying the packets sent, has those settings if and only if the mirror was true wherever it already agreed |
| `Settings.FreshConnectionMatches` | EKI1526/vcom_linux_2.2.1/daemon/vc_client_common.c:43-86 | handshake and first reconciliation of a connection leave the device with the published settings if and only if it had the baud rate 0 already in case that is published |
| `Stall.LostAnswerStallsUplink` | EKI1526/vcom_linux_2.2.1/daemon/vc_client_idle.c:75-82 | once the answer to a WRITE is lost, no byte is retired and the wait never ends, in any run against a device that only answers requests, until the connection ends |
| `Stall.IdleLosesTheAnswer` | EKI1526/vcom_linux_2.2.1/daemon/vc_client_idle.c:75-82 | the answer to a WRITE is acted on if and only if the state that reads it is not Idle; Idle loses it and leaves the uplink stuck |
| `Stall.IdleLosesData` | EKI1526/vcom_linux_2.2.1/daemon/vc_client_idle.c:75-82 | a DATAREADY that fits is appended to the downlink ring if and only if the state that reads it is not Idle |
| `CloseFraming.ClosedFraming` | EKI1526/vcom_linux_2.2.1/daemon/vc_client_common.c:466-530 | on a connection closed with a complete CLOSE, the bytes sent split into the packets sent if and only if PURGE went out whole or not at all |
| `Witnesses.UplinkGetsStuck` | EKI1526/vcom_linux_2.2.1/daemon/vc_client_idle.c:75-82 | a concrete execution with an honest device after which the uplink is stuck for good |
| `Witnesses.DataGetsLost` | EKI1526/vcom_linux_2.2.1/daemon/vc_client_idle.c:75-82 | a concrete execution with such a device in which Idle reads a DATAREADY that fits, and its byte is lost |
| `Witnesses.CutPurgeTearsFraming` | EKI1526/vcom_linux_2.2.1/daemon/vc_client_common.c:466-530 | on every connection, a PURGE cut after any of its bytes and a complete CLOSE leave bytes that are not split into the packets sent |
| `Witnesses.FramingGetsTorn` | EKI1526/vcom_linux_2.2.1/daemon/vc_client_common.c:466-530 | a concrete connection and script on which that happens |
| `Witnesses.BaudIsNotSent` | EKI1526/vcom_linux_2.2.1/daemon/vc_client_common.c:235-241 | a concrete world with baud rate 0, in which any device at another rate ends mirrored and not matching |
| `CloseFraming.TornIsNotClose` | EKI1526/vcom_linux_2.2.1/daemon/vc_client_common.c:466-530 | no proper part of PURGE in front of CLOSE can be read as CLOSE |
| `CloseFraming.SplitTail` | EKI1526/vcom_linux_2.2.1/daemon/vc_client_common.c:466-530 | a cut PURGE followed by CLOSE is framed as CLOSE alone if and only if nothing of PURGE went out |
| `Says.NetDownOpenSays` | EKI1526/vcom_linux_2.2.1/daemon/vc_client_common.c:43-86 | a new connection says CREATE with the literal id 1, RTS and DTR, SET_WAIT_MASK with the bytes 38 01 00 00, GET_MODEMSTATUS and the credit that goes with its state, with the ids 1 to 5 behind it |
| `Says.SyncRecvSays` | EKI1526/vcom_linux_2.2.1/daemon/vc_client_sync.c:285-330 | the reply to WAIT_ON_MASK is answered with exactly SET_WAIT_MASK and GET_MODEMSTATUS, the one to SET_WAIT_MASK with WAIT_ON_MASK, the one to GET_MODEMSTATUS with nothing; the state below is back if the calls work |
| `Says.PauseSays` | EKI1526/vcom_linux_2.2.1/daemon/vc_client_netup.c:107-149 | Net Up takes the credit back with QUEUEFREE 0 and becomes Pause |
| `Says.ResumeSays` | EKI1526/vcom_linux_2.2.1/daemon/vc_client_pause.c:156-180 | a non-empty output queue changes nothing, an empty one gives QUEUEFREE 1024 and Net Up, a failing request ends the connection |
| `Says.XmitSays` | EKI1526/vcom_linux_2.2.1/daemon/vc_client_common.c:88-150 | a WRITE with the first bytes of the snapshot, at most 1024, and their number in its first word |
| `Says.PollSays` | EKI1526/vcom_linux_2.2.1/daemon/vc_client_netup.c:151-158 | a timeout asks with GET_WAIT_MASK and becomes Idle; Idle gives up |
| `Says.OpenSays` | EKI1526/vcom_linux_2.2.1/daemon/vc_client_idle.c:47-55 | opening from Idle leads to the state below it, from Net Up and Pause to themselves |
| `Says.CloseSays` | EKI1526/vcom_linux_2.2.1/daemon/vc_client_common.c:466-530 | a close whose calls work says PURGE with 0f 00 00 00 and CLOSE |
| `Hears.CommonRecvMeans` | EKI1526/vcom_linux_2.2.1/daemon/vc_client_common.c:359-463 | what each kind of packet does in Net Up and Pause, with the exact test of the answer to CREATE and of failing commands |
| `Hears.WriteReplyMeans` | EKI1526/vcom_linux_2.2.1/daemon/vc_client_common.c:434-454 | success ends the wait and refreshes the snapshot, busy ends the wait alone, anything else ends the connection |
| `Hears.RecvDespMeans` | EKI1526/vcom_linux_2.2.1/daemon/vcom_client.c:62-123 | a packet is handled if and only if it is all there and fits 4096 bytes; otherwise the connection ends and nothing is made of it |
| `Hears.HearMeans` | EKI1526/vcom_linux_2.2.1/daemon/vcom_client.c:336-346 | a wakeup without a packet adds its time, at least 1 microsecond, and beyond 10000000 the connection is given up, not before; a packet sets the time back |
| `Hears.UpdateRxMeans` | EKI1526/vcom_linux_2.2.1/daemon/vcom.h:347-391 | after a refresh the snapshot is what the uplink ring holds |
| `Hears.UpdateTxMeans` | EKI1526/vcom_linux_2.2.1/daemon/vcom.h:347-391 | after a refresh the daemon knows the tail of the downlink ring and the length it had at the first of two requests |
| `Hears.SettleMeans` | EKI1526/vcom_linux_2.2.1/daemon/vc_client_netup.c:89-95 | Net Up and Pause start with both snapshots refreshed |
| `Hears.IdleRecvMeans` | EKI1526/vcom_linux_2.2.1/daemon/vc_client_idle.c:75-82 | a packet makes Idle give way to the state below, with both snapshots refreshed and nothing said |
| `Speech.ReconcileUtters` | EKI1526/vcom_linux_2.2.1/daemon/vc_client_common.c:222-299 | reconciliation says rate, line, flow control, RTS and DTR where they differ, in this order and in plain bytes, and uses up one number more for the modem lines |
| `Wishes.FlowIsSent` | EKI1526/vcom_linux_2.2.1/daemon/vc_client_common.c:251-275 | where the mirror has another flow setting, the words sent are the literal ones of the published setting |
| `Wishes.LastTermiosStands` | EKI1526/vcom_linux_2.2.1/driver/adv_uart.c:415-493 | among any steps of the world, the last `set_termios` settles rate, size, parity, stop bits and flow control, each given by the flags |
| `Wishes.LastMctrlStands` | EKI1526/vcom_linux_2.2.1/driver/adv_uart.c:332-353 | the last `set_mctrl` settles the bits 4 and 2 of the modem lines |
| `Wishes.MatchesMeans` | EKI1526/vcom_linux_2.2.1/daemon/vc_client_common.c:235-275 | a device matches such settings if and only if it has the rate, the three bytes of the line, the two words of the flow control and the lines that the flags ask for |
| `Requests.TailMoveDelivers` | EKI1526/vcom_linux_2.2.1/driver/adv_main.c:140-147 | a tail move publishes the bytes and delivers: nothing while throttled or disabled, all to a tty that takes all, a prefix in any case |
| `Requests.InterDelivers` | EKI1526/vcom_linux_2.2.1/driver/adv_main.c:265-274 | so does ADVVCOM_IOCSINTER, without publishing |
| `Progress.InterRefills` | EKI1526/vcom_linux_2.2.1/driver/adv_main.c:265-274 | an open port whose uplink ring is empty gets the first bytes of the circular buffer, as many as fit; otherwise ring and buffer stay |
| `Requests.UnthrottleDelivers` | EKI1526/vcom_linux_2.2.1/driver/adv_uart.c:543-556 | unthrottling delivers |
| `Requests.PartsAreHanded` | EKI1526/vcom_linux_2.2.1/driver/adv_uart.c:209-225 | a tty that takes a part of each offer gets three |
| `Requests.StartTxFills` | EKI1526/vcom_linux_2.2.1/driver/adv_uart.c:138-156 | starting transmission fills the uplink ring from the circular buffer, as far as there is room |
| `Requests.SwitchesMean` | EKI1526/vcom_linux_2.2.1/driver/adv_uart.c:360-412 | what opening, closing, stopping and throttling switch, and that they change nothing else |
| `Runs.StartedMeans` | EKI1526/vcom_linux_2.2.1/daemon/vcom_client.c:262-269 | the daemon enters its loop with the published settings, the contents of the uplink ring and the tail of the downlink ring |
| `Connections.CloseDownDiscards` | EKI1526/vcom_linux_2.2.1/daemon/vc_client_netdown.c:218-229 | closing in Net Down would flush both rings and send nothing |
| `Packets.DecodeEncode` | EKI1526/vcom_linux_2.2.1/daemon/vcom_proto.h:58-78 | reading a packet off a stream that starts with its encoding gives the packet back, whatever follows |
| `Packets.EncodeDecode` | EKI1526/vcom_linux_2.2.1/daemon/vcom_proto.h:58-78 | any bytes that the framing rule accepts as one whole packet are the encoding of the packet read |
| `Packets.SplitEncodeAll` | EKI1526/vcom_linux_2.2.1/daemon/vcom_client.c:62-123 | the framing rule cuts a concatenation of packets into exactly those packets and goes on behind them |
| `Packets.SplitTorn` | EKI1526/vcom_linux_2.2.1/daemon/vcom_client.c:62-123 | a stream cut short anywhere yields a proper prefix of the packets, never another packet |
| `Words.Be32RoundTrip` | EKI1526/vcom_linux_2.2.1/daemon/vcom_proto.h:134-141 | `htonl`, `ntohl` and `htole32` are inverted by the matching reads |
| `PacketBuffer.PackParam` | EKI1526/vcom_linux_2.2.1/daemon/vcom_proto.h:134-141 | `vc_init_hdr` and the two parameters: twenty bytes in network order, nothing else touched |
| `PacketBuffer.PackQfsize` | EKI1526/vcom_linux_2.2.1/daemon/vcom_proto_cmd.h:21-48 | leaves the encoding of QUEUEFREE at its place and no other byte changed, or returns 0 and changes none |
| `PacketBuffer.PackClose` | EKI1526/vcom_linux_2.2.1/daemon/vcom_proto_cmd.h:50-76 | likewise for CLOSE |
| `PacketBuffer.PackXmit` | EKI1526/vcom_linux_2.2.1/daemon/vcom_proto_cmd.h:78-109 | likewise for WRITE, with the data copied in or already in place |
| `PacketBuffer.PackOpen` | EKI1526/vcom_linux_2.2.1/daemon/vcom_proto_cmd.h:176-204 | likewise for CREATE |
| `PacketBuffer.PackPurge` | EKI1526/vcom_linux_2.2.1/daemon/vcom_proto_ioctl.h:29-58 | likewise for PURGE, its flags little-endian |
| `PacketBuffer.PackSbaud` | EKI1526/vcom_linux_2.2.1/daemon/vcom_proto_ioctl.h:80-109 | likewise for SET_BAUD_RATE, the rate little-endian |
| `PacketBuffer.PackIoctlParam` | EKI1526/vcom_linux_2.2.1/daemon/vcom_proto_ioctl.h:111-138 | likewise for every command without an extension |
| `PacketBuffer.PackHflow` | EKI1526/vcom_linux_2.2.1/daemon/vcom_proto_ioctl.h:171-203 | likewise for SET_HANDFLOW; `xonlimit` ends as 512 and the bytes of `xofflimit` are whatever the buffer held |
| `PacketBuffer.PackSetwmask` | EKI1526/vcom_linux_2.2.1/daemon/vcom_proto_ioctl.h:206-234 | likewise for SET_WAIT_MASK |
| `PacketBuffer.PackSetlctl` | EKI1526/vcom_linux_2.2.1/daemon/vcom_proto_ioctl.h:264-294 | likewise for SET_LINE_CONTROL |
| `PacketBuffer.CheckParamMeans` | EKI1526/vcom_linux_2.2.1/daemon/vcom_proto_cmd.h:111-149 | the test of `vc_check_xmit` and `vc_check_open` passes on the packet it describes and on no other |
| `PacketBuffer.CheckRecvMeans` | EKI1526/vcom_linux_2.2.1/daemon/vcom_proto_cmd.h:151-173 | the test of `vc_check_recv` passes exactly when the status is success and `p2` repeats the payload length |
| `Receive.Sock.RecvHeader` | EKI1526/vcom_linux_2.2.1/daemon/vcom_client.c:76-91 | reads the fixed part as its specification says: one `recv`, a second one for the rest, closed or short otherwise |
| `Receive.Sock.RecvPayload` | EKI1526/vcom_linux_2.2.1/daemon/vcom_client.c:102-120 | likewise for the rest of a packet |
| `Receive.PayloadAligned` | EKI1526/vcom_linux_2.2.1/daemon/vcom_client.c:104-119 | a payload read to its end leaves the stream at the next packet if and only if the first `recv` did not fail; if it did, the payload is shifted and one byte of the next packet is lost |
| `Receive.FetchAligned` | EKI1526/vcom_linux_2.2.1/daemon/vcom_client.c:62-123 | a packet found is the packet sent and the stream is at the next one, if and only if the first payload `recv` did not fail |
| `Receive.FailedRecvShifts` | EKI1526/vcom_linux_2.2.1/daemon/vcom_client.c:104-119 | on two packets of a device, a failing `recv` makes the daemon find a DATAREADY packet that passes its tests and was never sent: its payload is the first byte of the next packet |
| `Receive.StreamStaysAligned` | EKI1526/vcom_linux_2.2.1/daemon/vcom_client.c:62-123 | however `recv` cuts a stream of packets, successive calls find a prefix of the packets sent, unchanged |
| `Receive.PatientStreamDelivers` | EKI1526/vcom_linux_2.2.1/daemon/vcom_client.c:62-123 | when every `recv` gives all it is asked for, all packets that fit the buffer are found |
| `Receive.HeaderMeans` | EKI1526/vcom_linux_2.2.1/daemon/vcom_client.c:76-91 | the fixed part is read if and only if one `recv` brings 20 bytes, or a first with some and a second with the rest |
| `Receive.PayloadMeans` | EKI1526/vcom_linux_2.2.1/daemon/vcom_client.c:102-120 | the rest is read by one `recv` or by two together, a failing first one counting as -1 |
| `Rings.PopContents` | EKI1526/vcom_linux_2.2.1/driver/advvcom.h:93-104 | moving the head removes exactly a prefix of the contents, with no flush pending |
| `Rings.CleanDiscards` | EKI1526/vcom_linux_2.2.1/driver/advvcom.h:93-104 | with a flush pending, moving the head by any length empties the ring |
| `Rings.PublishContents` | EKI1526/vcom_linux_2.2.1/driver/advvcom.h:106-112 | moving the tail appends exactly the bytes written behind it |
| `Rings.PushContents` | EKI1526/vcom_linux_2.2.1/driver/advvcom.h:106-112 | writing into the free part and moving the tail appends the bytes to the contents |
| `Rings.PushPush` | EKI1526/vcom_linux_2.2.1/driver/advvcom.h:106-112 | pushing in two chunks is pushing their concatenation |
| `Rings.SplicesFill` | EKI1526/vcom_linux_2.2.1/daemon/vc_client_common.c:422-427 | a copy up to the end of the buffer and one from its start write the same as a per-byte copy that wraps |
| `Rings.SnapshotPrefix` | EKI1526/vcom_linux_2.2.1/daemon/vcom.h:347-391 | a stale tail still describes a prefix of what the ring holds |
| `Rings.SnapshotStable` | EKI1526/vcom_linux_2.2.1/daemon/vcom.h:347-391 | no producer step changes a byte that a stale snapshot covers |
| `Rings.Taken` | EKI1526/vcom_linux_2.2.1/driver/adv_uart.c:212-225 | what a tty takes in at most so many offers is never more than the ring holds |
| `Rings.EagerTtyEmptiesRing` | EKI1526/vcom_linux_2.2.1/driver/adv_uart.c:209-225 | a tty that takes all it is offered empties the ring in two of the three offers |
| `UartDriver.RingBuf.MoveHead` | EKI1526/vcom_linux_2.2.1/driver/advvcom.h:93-104 | in place, what `Ring.MoveHead` says |
| `UartDriver.RingBuf.MoveTail` | EKI1526/vcom_linux_2.2.1/driver/advvcom.h:106-112 | in place, what `Ring.MoveTail` says |
| `UartDriver.RingBuf.ClearNow` | EKI1526/vcom_linux_2.2.1/driver/adv_main.c:283-288 | the ring is empty, its tail unmoved and no flush pending |
| `UartDriver.PassesDrop` | EKI1526/vcom_linux_2.2.1/driver/adv_uart.c:263-286 | every pass of the copy loop moves at least a byte, stays in both buffers, and uses up one of at most three passes |
| `UartDriver.MaskTest` | EKI1526/vcom_linux_2.2.1/driver/adv_uart.c:272-274 | the mask test detects exactly the copies that reach the end of the circular buffer |
| `UartDriver.XmitPass` | EKI1526/vcom_linux_2.2.1/driver/adv_uart.c:263-286 | one pass pops a chunk off the circular buffer and pushes it on the ring |
| `UartDriver.AdvUartXmit` | EKI1526/vcom_linux_2.2.1/driver/adv_uart.c:237-288 | exactly min(pending, room) bytes move from the circular buffer to the ring, in order, for every phase of the two buffers |
| `UartDriver.AdvUartRecvChars` | EKI1526/vcom_linux_2.2.1/driver/adv_uart.c:177-235 | exactly the bytes the tty takes leave the ring, in order, and nothing else changes |
| `Driver.AdvVcom.constructor` | EKI1526/vcom_linux_2.2.1/driver/adv_main.c:297-347 | empty rings, zero settings, no slot published |
| `Driver.AdvVcom.StopTx` | EKI1526/vcom_linux_2.2.1/driver/adv_uart.c:124-136 | the uplink ring is disabled, nothing else changes |
| `Driver.AdvVcom.StartTx` | EKI1526/vcom_linux_2.2.1/driver/adv_uart.c:138-156 | enables the uplink ring and fills it from the circular buffer, as `Worlds.Step` says |
| `Driver.AdvVcom.StopRx` | EKI1526/vcom_linux_2.2.1/driver/adv_uart.c:158-170 | the downlink ring is disabled, nothing else changes |
| `Driver.AdvVcom.Startup` | EKI1526/vcom_linux_2.2.1/driver/adv_uart.c:360-397 | open, not throttled, both rings enabled |
| `Driver.AdvVcom.Shutdown` | EKI1526/vcom_linux_2.2.1/driver/adv_uart.c:399-412 | not open |
| `UartDriver.ReadTermios` | EKI1526/vcom_linux_2.2.1/driver/adv_uart.c:415-493 | size 5 to 8, hardware flow control exactly with CRTSCTS, parity kinds exactly by the parity flags, nothing else changed |
| `Driver.AdvVcom.SetTermios` | EKI1526/vcom_linux_2.2.1/driver/adv_uart.c:415-493 | those settings become the driver's |
| `Driver.AdvVcom.SetMctrl` | EKI1526/vcom_linux_2.2.1/driver/adv_uart.c:332-353 | RTS and DTR become the driver's modem settings |
| `Driver.AdvVcom.Throttle` | EKI1526/vcom_linux_2.2.1/driver/adv_uart.c:526-541 | throttled |
| `Driver.AdvVcom.Unthrottle` | EKI1526/vcom_linux_2.2.1/driver/adv_uart.c:543-556 | not throttled, and what the tty takes is delivered |
| `Driver.AdvVcom.SetTxTail` | EKI1526/vcom_linux_2.2.1/driver/adv_main.c:140-147 | publishes the bytes behind the tail, appends them to what was accepted, and delivers what the tty takes, as `Worlds.IocTxTail` says |
| `Driver.StagedIsBehind` | EKI1526/vcom_linux_2.2.1/daemon/vc_client_common.c:420-431 | the bytes behind the tail are those the daemon staged there |
| `Driver.AdvVcom.SetRxHead` | EKI1526/vcom_linux_2.2.1/driver/adv_main.c:149-154 | retires bytes, or flushes if that was asked for, as `Worlds.IocRxHead` says |
| `Driver.AdvVcom.GetAttrPtr` | EKI1526/vcom_linux_2.2.1/driver/adv_main.c:160-165 | publishes the settings and returns the slot |
| `Driver.AdvVcom.SetInter` | EKI1526/vcom_linux_2.2.1/driver/adv_main.c:265-274 | refills an empty uplink ring of an open port, then delivers |
| `Driver.AdvVcom.SetClr` | EKI1526/vcom_linux_2.2.1/driver/adv_main.c:276-290 | marks the uplink ring for a flush and flushes the downlink ring |
| `Driver.AdvVcom.Poll` | EKI1526/vcom_linux_2.2.1/driver/adv_main.c:206-251 | readable, writable and priority bits, exactly by ring contents, throttling and unpublished settings |
| `Attributes.SlotHoldsLatestPublication` | EKI1526/vcom_linux_2.2.1/driver/advvcom.h:78-91 | for any interleaving of changes and publications, the published slot holds the settings of the latest publication |
| `Attributes.FlushSparesTheSlotInUse` | EKI1526/vcom_linux_2.2.1/driver/advvcom.h:78-91 | after the first publication, publishing writes only the slot that is not in use |
| `Attributes.AdvPortAtt.FlushAttrInfo` | EKI1526/vcom_linux_2.2.1/driver/advvcom.h:78-91 | in place, what `AttrBuf.Flush` says |
| `Pipes.StepConserves` | EKI1526/vcom_linux_2.2.1/driver/adv_uart.c:177-288 | no step of application, tty, driver or device loses, repeats or reorders a byte of either pipe |
| `Pipes.DevStepIsSafe` | EKI1526/vcom_linux_2.2.1/daemon/vc_client_common.c:434-454 | no step of a device that answers each request at most once, in any order, breaks the stop-and-wait agreement |
| `Pipes.RetireFlow` | EKI1526/vcom_linux_2.2.1/driver/adv_main.c:149-154 | retiring acknowledged bytes removes exactly them and restores the agreement for the next WRITE |
| `PipeRuns.DataReadyDelivers` | EKI1526/vcom_linux_2.2.1/daemon/vc_client_common.c:401-433 | DATAREADY appends its whole payload without reaching unread bytes, or drops the connection and writes nothing |
| `PipeRuns.WriteReplyRetires` | EKI1526/vcom_linux_2.2.1/daemon/vc_client_common.c:434-454 | a success retires exactly the bytes sent; busy and failure retire nothing |
| `PipeRuns.XmitSound` | EKI1526/vcom_linux_2.2.1/daemon/vc_client_common.c:88-150 | a WRITE carries the first bytes of the real ring, although it is copied by the snapshot |
| `PipeRuns.UpdateTxSolid` | EKI1526/vcom_linux_2.2.1/daemon/vcom.h:362-390 | a refreshed downlink snapshot never overstates the room, whatever the driver drains afterwards |
| `PipeRuns.TurnSound` | EKI1526/vcom_linux_2.2.1/daemon/vcom_client.c:271-356 | one turn of the loop keeps conservation, the snapshot and, against an honest device, the agreement |
| `Control.NumberedMeans` | EKI1526/vcom_linux_2.2.1/daemon/vc_client_common.c:81-81 | what the invariant on packet numbers says: CREATE first, ids by number, numbers strictly increasing |
| `Control.SyncInitGood` | EKI1526/vcom_linux_2.2.1/daemon/vc_client_sync.c:253-283 | the handshake ends connected with the right credit, or in Net Down |
| `Control.SyncRecvGood` | EKI1526/vcom_linux_2.2.1/daemon/vc_client_sync.c:285-330 | a reply handled in Sync ends connected or in Net Down, never in Sync |
| `Control.OpenCloseGood` | EKI1526/vcom_linux_2.2.1/daemon/vcom_client.c:280-286 | open is asked for only without a connection and close only with one, so the handlers of Sync that exit are not reached |
| `Control.CreditSwap` | EKI1526/vcom_linux_2.2.1/daemon/vc_client_netup.c:107-149 | pausing and resuming change the credit and the state together |
| `Control.CloseGood` | EKI1526/vcom_linux_2.2.1/daemon/vc_client_common.c:494-530 | close ends in Net Down, with everything reset |
| `Control.TurnGood` | EKI1526/vcom_linux_2.2.1/daemon/vcom_client.c:271-356 | one turn of the loop keeps stack, socket, mirror, packet log and credit in agreement |
| `Stack.StkVc.Push` | EKI1526/vcom_linux_2.2.1/daemon/vcom.h:130-143 | pushes, or refuses on a full stack |
| `Stack.StkVc.Pop` | EKI1526/vcom_linux_2.2.1/daemon/vcom.h:146-158 | pops, or refuses on an empty stack |
| `Stack.StkVc.Excp` | EKI1526/vcom_linux_2.2.1/daemon/vcom.h:161-187 | only the bottom state is left |
| `Stack.StkVc.Rpls` | EKI1526/vcom_linux_2.2.1/daemon/vcom.h:190-197 | the top state is replaced |
| `Daemon.VcAttr.SendAll` | EKI1526/vcom_linux_2.2.1/daemon/vcom.h:304-342 | the whole packets in a buffer go out, or the call fails after part of them |
| `Daemon.VcAttr.VcBufUpdate` | EKI1526/vcom_linux_2.2.1/daemon/vcom.h:347-391 | refreshes a snapshot from two separate requests, or the slot of the settings |
| `Daemon.VcAttr.VcBufClear` | EKI1526/vcom_linux_2.2.1/daemon/vcom.h:393-410 | flushes both rings; the last refresh is of the uplink snapshot again |
| `Daemon.VcAttr.NetdownInit` | EKI1526/vcom_linux_2.2.1/daemon/vc_client_netdown.c:259-273 | Net Down: no socket, no ids, nothing pending, a fresh mirror |
| `Daemon.VcAttr.NetupInit` | EKI1526/vcom_linux_2.2.1/daemon/vc_client_netup.c:89-95 | refreshes both snapshots |
| `Daemon.VcAttr.ExcpInit` | EKI1526/vcom_linux_2.2.1/daemon/vcom.h:161-187 | an exception always ends in Net Down |
| `Daemon.VcAttr.VcSyncMs` | EKI1526/vcom_linux_2.2.1/daemon/vc_client_sync.c:76-133 | the step loop sends RTS and DTR, or stops at a failing send |
| `Daemon.VcAttr.VcSyncEvent` | EKI1526/vcom_linux_2.2.1/daemon/vc_client_sync.c:136-185 | the step loop sends SET_WAIT_MASK and GET_MODEMSTATUS |
| `Daemon.VcAttr.VcRegSyncEvent` | EKI1526/vcom_linux_2.2.1/daemon/vc_client_sync.c:187-214 | sends WAIT_ON_MASK |
| `Daemon.VcAttr.VcSyncQueue` | EKI1526/vcom_linux_2.2.1/daemon/vc_client_sync.c:216-250 | sends the credit that the downlink snapshot allows |
| `Daemon.VcAttr.VcSyncInit` | EKI1526/vcom_linux_2.2.1/daemon/vc_client_sync.c:253-283 | the handshake, then back to the state below |
| `Daemon.VcAttr.VcSyncRecv` | EKI1526/vcom_linux_2.2.1/daemon/vc_client_sync.c:285-330 | by the subcommand in the bytes of the packet: re-register, wait, or report the modem status; the value reported is the word behind the fixed part in the order of the host |
| `Daemon.VcAttr.VcIdleInit` | EKI1526/vcom_linux_2.2.1/daemon/vc_client_idle.c:95-131 | asks the device for a sign of life |
| `Daemon.VcAttr.VcCommonOpen` | EKI1526/vcom_linux_2.2.1/daemon/vc_client_common.c:43-86 | CREATE with the literal id 1, then Sync |
| `Buffers.PackRing` | EKI1526/vcom_linux_2.2.1/daemon/vc_client_common.c:88-124 | at most 1024 bytes of the snapshot, copied in one piece or in two, become a WRITE |
| `Daemon.VcAttr.VcCommonXmit` | EKI1526/vcom_linux_2.2.1/daemon/vc_client_common.c:88-150 | sends that WRITE and remembers its length |
| `Daemon.VcAttr.VcSetMs` | EKI1526/vcom_linux_2.2.1/daemon/vc_client_common.c:152-201 | the step loop packs one packet for each of RTS and DTR that differs, one behind the other |
| `Jobs.JobIsAStage` | EKI1526/vcom_linux_2.2.1/daemon/vc_client_common.c:235-296 | a turn of the reconciliation loop that sends something leaves the rest of the loop with the same result and one difference less |
| `Daemon.VcAttr.VcCommonIoctl` | EKI1526/vcom_linux_2.2.1/daemon/vc_client_common.c:222-299 | the loop does what its four stages do, and its budget of fifteen is never used up |
| `Daemon.VcAttr.CheckIoctlRet` | EKI1526/vcom_linux_2.2.1/daemon/vc_client_common.c:305-357 | a failing status is refused; replies that Sync waits for are handed to it |
| `Daemon.VcAttr.CopyIn` | EKI1526/vcom_linux_2.2.1/daemon/vc_client_common.c:420-427 | received data wraps around the end of the ring |
| `Daemon.VcAttr.RecvData` | EKI1526/vcom_linux_2.2.1/daemon/vc_client_common.c:401-433 | DATAREADY, on the bytes of the packet |
| `Daemon.VcAttr.RecvAck` | EKI1526/vcom_linux_2.2.1/daemon/vc_client_common.c:434-454 | the answer to a WRITE, on the bytes of the packet |
| `Daemon.VcAttr.VcCommonRecv` | EKI1526/vcom_linux_2.2.1/daemon/vc_client_common.c:359-463 | dispatch on the command |
| `Daemon.VcAttr.VcCommonPurge` | EKI1526/vcom_linux_2.2.1/daemon/vc_client_common.c:466-492 | PURGE; a failing send is ignored |
| `Daemon.VcAttr.VcCommonClose` | EKI1526/vcom_linux_2.2.1/daemon/vc_client_common.c:494-530 | CLOSE, then Net Down whether or not it went out |
| `Daemon.VcAttr.VcNetdownOpen` | EKI1526/vcom_linux_2.2.1/daemon/vc_client_netdown.c:231-251 | a new connection starts in Net Up if the downlink ring looks empty and in Pause otherwise |
| `Daemon.VcAttr.VcOpen` | EKI1526/vcom_linux_2.2.1/daemon/vc_client_idle.c:47-55 | Idle gives way to the state below before it opens |
| `Daemon.VcAttr.VcClose` | EKI1526/vcom_linux_2.2.1/daemon/vc_client_netup.c:64-70 | flush, PURGE, CLOSE; Net Down only flushes |
| `Daemon.VcAttr.VcPause` | EKI1526/vcom_linux_2.2.1/daemon/vc_client_netup.c:107-149 | takes back the credit and becomes Pause |
| `Daemon.VcAttr.VcResume` | EKI1526/vcom_linux_2.2.1/daemon/vc_client_pause.c:126-180 | gives credit once the output queue is empty and becomes Net Up |
| `Daemon.VcAttr.VcEvent` | EKI1526/vcom_linux_2.2.1/daemon/vc_client_pause.c:98-124 | which readiness the daemon waits for |
| `Daemon.VcAttr.VcPoll` | EKI1526/vcom_linux_2.2.1/daemon/vc_client_idle.c:64-73 | a timeout leads to Idle, a second one to Net Down |
| `Daemon.VcAttr.VcRecv` | EKI1526/vcom_linux_2.2.1/daemon/vc_client_idle.c:75-82 | dispatch of a packet; Idle drops it |
| `Buffers.HeaderOfQueue` | EKI1526/vcom_linux_2.2.1/daemon/vcom_client.c:76-100 | on the bytes of the packets queued, the header read is that of the first one |
| `Daemon.VcAttr.RecvRest` | EKI1526/vcom_linux_2.2.1/daemon/vcom_client.c:95-122 | the payload is read and the packet handled; a packet found leaves the socket at the next one |
| `Daemon.VcAttr.VcRecvDesp` | EKI1526/vcom_linux_2.2.1/daemon/vcom_client.c:62-123 | on the bytes of the socket, what `Handlers.RecvDesp` says on packets |
| `Daemon.VcAttr.Turn` | EKI1526/vcom_linux_2.2.1/daemon/vcom_client.c:271-356 | one turn of the main loop is `Handlers.Turn` |
| `Daemon.VcAttr.Serve` | EKI1526/vcom_linux_2.2.1/daemon/vcom_client.c:271-356 | any number of turns is `Handlers.Run` |
| `Monitor.VisibleMore` | EKI1526/vcom_linux_2.2.1/daemon/vcom_monitor_dbg.h:117-123 | recording an exception shifts what is visible by the length of its entry |
| `Monitor.Widened` | EKI1526/vcom_linux_2.2.1/daemon/vcom_monitor_dbg.h:100-104 | a wider status moves the history back and loses none of what still fits |
| `Monitor.Refreshed` | EKI1526/vcom_linux_2.2.1/daemon/vcom_monitor_dbg.h:104-104 | a status that fits overwrites the field and nothing else |
| `Monitor.MovedBack` | EKI1526/vcom_linux_2.2.1/daemon/vcom_monitor_dbg.h:117-119 | the move that reaches beyond the window leaves the right history in the window |
| `Monitor.Prepended` | EKI1526/vcom_linux_2.2.1/daemon/vcom_monitor_dbg.h:117-123 | the new entry comes in front of the history |
| `Monitor.VcMonitor.MonUpdate` | EKI1526/vcom_linux_2.2.1/daemon/vcom_monitor_dbg.h:69-134 | the window shows the status field followed by all exceptions, newest first, cut at 1024 characters |
| `Monitor.MonLog` | EKI1526/vcom_linux_2.2.1/daemon/vcom_monitor_dbg.h:69-134 | from `mon_init` through any number of updates, the 1024 characters show the latest status in a field as wide as the widest one so far, and behind it every signalled exception, newest first |
| `Monitor.WindowReads` | EKI1526/vcom_linux_2.2.1/daemon/vcom_monitor_dbg.h:69-134 | the window character by character: the status, a terminator and spaces up to its field, each exception between "> " and a space, newest first, then spaces |
| `Monitor.LogIsComplete` | EKI1526/vcom_linux_2.2.1/readme.txt:170-171 | after any number of updates, the list of entries of which `Monitor.MonLog` shows the first 1024 characters holds every signalled exception, newest first |
| `Monitor.FieldFitsEveryStatus` | EKI1526/vcom_linux_2.2.1/daemon/vcom_monitor_dbg.h:100-104 | the field shows the latest status and is as wide as the longest so far |

## Left out

- Daemon.VcAttr.VcRecvDesp: assumes that the first `recv` of a payload does not return -1; what happens then is stated in `Receive.PayloadAligned` and `Receive.FailedRecvShifts`, on bytes.
- Daemon.VcAttr.Turn: the same assumption; a stream that is read out of step is no queue of packets any more.
- Daemon.VcAttr.Serve: the same assumption.
- Daemon.VcAttr.RecvRest: the same assumption.
- Runs.Client: the same assumption.
- Daemon.VcAttr.SendAll: `fdcheck` and `send` are one step that succeeds or fails, with any proper part of the bytes sent on failure.
- Monitor.VcMonitor.MonUpdate: the status text is a parameter, and texts must fit the local buffer of 64 characters; longer ones would overrun it in the source. The texts of the daemon, a state, a function and a line number, are shorter.
- Monitor.MonLog: the same for every text of the sequence.
- Driver.AdvVcom.SetTxTail: the bytes behind the tail are written by the daemon through shared memory; here they are in the driver's array already.
- Settings.ReconciliationConverges: what the device makes of a command is a model of its own, since the device's code is not part of this repository.
- The ring pages that driver and daemon share are values in the daemon's world; that both see one memory is the coupling of `Driver.AdvVcom.View` with `Worlds.Env`, not aliasing of arrays.
- `vc_connect`, `getaddrinfo`, `select`, `mmap` and socket options: results only. `FD_SET` on a socket of -1 is ignored.
- Failing requests to the driver, except the modem status, and the exit of the main loop when ADVVCOM_IOCSINTER fails: the driver's code cannot fail there with valid addresses.
- The wait and the clock in `_stk_excp`, printing, syslog, `msync` and `ftruncate`.
- Spin locks and wait queues: locked sections are atomic steps, and so are the two of a tail move and the delivery that follows it, and those of ADVVCOM_IOCSINTER.
- The socket is read as the bytes of the packets under way at each call; bytes that arrive during a call count as there before it.
- The serial core's own flush of its circular buffer, and the values of the input pins behind ADVVCOM_IOCSMCTRL.
- How much a device may send for a credit: the source does not say, so the overflow branch of DATAREADY is not claimed to be unreachable.
- `vcom_monitor.h`, `vcom_monitor_pre_stat.h` and `vcom_debug.h`, which are not compiled in.
- advps, advttyd, vcom_inotf, the scripts, and the programs outside the VCOM stack, which only call libraries: easy members only.
