# Verified model of libmodemu2k's online data path

modemu2k makes a telnet connection look like a Hayes modem: a terminal program (the DTE) dials with AT commands, and
then its bytes travel over a socket as a telnet stream (RFC 854, RFC 855 and RFC 1123). This project models the part of
the library that carries those bytes and decides what state the modem is in, and proves what that part is for.

Run `dafny verify dfyconfig.toml` in this directory.

## How the model is built

Each imperative source file appears twice. Once as values: functions from one state to the next, about which the laws
are proved (`Fifo`, `TelOpt`, `Iac`, `Escape`, `Relay`, `Dial`, `Machine`). And once as classes that update fields,
arrays and buffers in place, with the source's loops (`Fifo.WriteBuf`, `Fifo.ReadBuf`, `TelOptTable.Options`,
`LineBuffer.LineBuf`, `Dialer.DialCtx`, `RelayCtx.LinkCtx`, `Context.M2k`); every method's contract says that the view
of the new state is the function of the view of the old one. Ghost fields record histories: bytes delivered, bytes
refused, bytes handled with their time stamps, result codes, states and rings.

The world outside is an argument of every step: what `send`, `write`, `recv`, `read`, `accept`, `connect`, `poll` and
the clock answer is arbitrary. `recv` and `read` deliver at most 1024 bytes. Where a law needs poll to report only what
was asked for, it says so (`EventsOk`, `AllAsked`).

| file | models |
|---|---|
| `wire.dfy`, `settings.dfy`, `timeval.dfy` | constants, the settings read by the model, `src/timeval.c` |
| `fifo.dfy` | the four linear buffers of `src/sockbuf.c` and `src/ttybuf.c` as queues |
| `telopt.dfy`, `telopt_table.dfy`, `decisions.dfy`, `telopt_sessions.dfy`, `option_runs.dfy` | `src/telopt.c` and what it guarantees against any peer, alone and in the running modem |
| `negotiation.dfy`, `grants.dfy`, `rerequests.dfy`, `lost_replies.dfy` | two modems over FIFO channels |
| `fresh_calls.dfy`, `openings.dfy` | how a new connection starts |
| `iac.dfy`, `token_loop.dfy` | the telnet parser, its printer, an RFC 854 receiver, `sockReadLoop` |
| `relay.dfy`, `relay_runs.dfy`, `modes.dfy`, `flow_control.dfy`, `polling.dfy` | `ttyReadLoop`, `onlineIter`, `onlinePollfds`, stays online |
| `line_editing.dfy`, `transparency.dfy`, `line_limits.dfy`, `reply_room.dfy`, `dte_side.dfy` | what reaches the peer and the DTE, and what may keep it from doing so |
| `escape.dfy`, `escape_stays.dfy`, `escape_times.dfy` | the `+++` detector |
| `dial.dfy`, `dial_times.dfy`, `dialer.dfy` | the resumable dial of `src/sock.c` |
| `machine.dfy`, `history.dfy`, `machine_runs.dfy`, `ring_runs.dfy`, `command_runs.dfy`, `pty_command_runs.dfy`, `online_stays.dfy`, `effects.dfy`, `quits.dfy` | the step machine and its runs |
| `linebuf.dfy`, `relay_ctx.dfy`, `context.dfy` | the mutable context (`m2k_t`) |
| `dial_string.dfy` | the ATD rules of `src/cmdlex.l` and the split in `src/atcmd.c` |

## Where a law needs a premise, and why

* Escape soundness needs `checkSilence` clear on going online, because `escSeqReset` does not clear it.
  `EscapeStays.FreshStayEscapes` gives the exact condition for the first step and `EscapeStays.LeftoverSilence` a run
  that meets it.
* Escape soundness in arrival times needs that new bytes come only while none is unread. A TTY is read only then
  (`EscapeTimes.PtyFindsNothing`); a host can check it before it writes. `EscapeTimes.WriteKeepsStamps` says exactly
  which writes break it, and `EscapeTimes.RestampedEscape` is a run in which the escape then fires wrongly.
* Line mode with byte 255: a backspace removes half of a doubled 255, and 255 typed with one byte of the line left is
  clipped to its first half. `LineEditing.WholeKeyExact` says exactly which keys do this, `LineLimits.BackspaceCutsIac`
  and `LineLimits.ClipCutsIac` what the peer then hears. The laws hold for all other typing.
* Character and line mode need that no byte was refused (`lost == 0`): negotiation replies are not held back by flow
  control (`ReplyRoom.FloodOverruns`). `ReplyRoom.RoomyNeverLoses` gives a bound on free room that implies it. Bytes of
  the DTE are never refused (`FlowControl.TtyLoopHeadroom`). They also need a terminal type without byte 255, which the
  `%T` rule ensures.
* Bytes for the DTE, its echo and the peer's data, are lost exactly when a step finds no room for them
  (`DteSide.DteSeesAll`). Outside line mode there is always room (`DteSide.DteSeesPeer`); in line mode the echo can
  overrun the TTY buffer, and the peer's data with it (`LineLimits.EchoOverruns`, `LineLimits.PeerByteLost`).
  `DteSide.RoomyDteSeesAll` gives a bound that prevents it.
* Conservation of DTE bytes needs that no read of the TTY overwrites unread ones. None does when poll reports only
  what was asked for; a hangup reported unasked makes one that does (`RelayRuns.DoExact`, `RelayRuns.HangupOverwrites`).
* Negotiation needs that each end sends its requests at most once until the channels have drained, since one pending
  bit cannot count two outstanding requests (`Rerequests.TwoRequestsNeverEnd`). It also needs that no +++ drops queued
  commands (`LostReplies.DropAgrees`).
* Chunk invariance holds of all input in app-I/O mode. In PTY mode it needs that every read finds no finished line waiting
  for its dispatch and nothing unread, and has nothing after its first carriage return
  (`PtyCommandRuns.PtyChunkInvariant`); `LeavesRest`, `ReadOverwrites`, `WaitingLineExact` and `LinesMerge` there say what
  the other reads do.

## Where the code and its documentation disagree

The model follows the code.

* The man page (`modemu2k.1.in:283-315`) and the comment at `src/atcmd.c:336` say that %B0 governs the local side and
  %B1 the remote side. `src/telopt.c:128-129` takes the local requirement from `pb[1]` and the remote one from `pb[0]`.
* The man page (`modemu2k.1.in:406-412`) asks for a pause "without hitting any key" before `+++`. The code compares the
  times of two reads, so text directly followed by `+++` in one read is taken for an escape
  (`EscapeTimes.TextThenPluses`). A lone `+` typed before the pause also defeats the `+++` after it
  (`Escape.EscapeComplete`).
* The diagram in `src/m2k_step.c` (before `stepStateName`) has ONLINE go to DONE when the PTY closes. `onlineIter`
  returns -1 and `m2k_step` goes to CMD with NO CARRIER.

## Model

| member | source | states |
|---|---|---|
| `Time.Cmp` | src/timeval.c:41-52 | on normalised values the result is the sign of the exact difference, in all three cases |
| `Time.ExactArithmetic` | src/timeval.c:7-37 | set, add and subtract are exact in microseconds, and set, add and subtract keep values normalised |
| `Time.TimevalVar.Set10ms` | src/timeval.c:7-11 | the variable becomes exactly the given number of 10 ms |
| `Time.TimevalVar.Add` | src/timeval.c:15-24 | the in-place addition is exact and keeps a normalised value normalised |
| `Time.TimevalVar.Sub` | src/timeval.c:28-37 | the in-place subtraction is exact and keeps a normalised value normalised |
| `Time.RemainingMs` | src/timeval.c:57-68 | 0 once the deadline has passed, else whole milliseconds but at least 1, cast to 32 bits; before the deadline it is 0 exactly when the cast wraps to 0 |
| `Fifo.Queue.HasData` | src/sockbuf.c:57-60 | the cheap test `ptr > buf` agrees with "bytes are pending" in every valid state |
| `Fifo.PutNKeepsPrefix` | src/sockbuf.c:98-119 | a run of bytes is queued in order up to the hard limit and exactly the rest is lost |
| `Fifo.ApplyConserves` | src/sockbuf.c:69-112 | one put, partial write or host read: delivered ++ pending grows by exactly the accepted bytes, and the loss count accounts for the refused ones |
| `Fifo.RefinesFifo` | src/m2k_step.c:484-505 | under any mix of puts, partial writes and host reads: delivered ++ pending is what was accepted, in order; bytes go missing only at the hard limit; `stop` holds iff the write pointer is past the soft limit; HasData iff something is pending |
| `Fifo.WriteFromApp` | src/m2k_step.c:450-481 | the accepted count is min(length, free), WOULDBLOCK iff nothing fits, and the unread bytes followed by the accepted prefix remain |
| `Fifo.WriteBuf.Put1` | src/sockbuf.c:98-112 | array form of the put: soft limit sets `stop`, hard limit drops the byte |
| `Fifo.WriteBuf.PutN` | src/sockbuf.c:114-119 | array form of putting a run of bytes, by a loop |
| `Fifo.WriteBuf.Write` | src/sockbuf.c:69-96 | array form of a send of any size: failure changes nothing, a partial send moves `top`, a full one rewinds |
| `Fifo.WriteBuf.ReadToApp` | src/m2k_step.c:484-505 | the host gets the first min(max, pending) bytes and the queue loses exactly those |
| `Fifo.WriteBuf.HasData` | src/ttybuf.c:61-64 | true iff something is pending |
| `Fifo.WriteBuf.Ready` | src/ttybuf.c:67-70 | true iff the write pointer is at or below the soft limit |
| `Fifo.ReadBuf.Get1` | src/ttybuf.c:23-27 | gives the first unread byte and leaves the rest, or -1 and changes nothing |
| `Fifo.ReadBuf.Fill` | src/ttybuf.c:29-51 | a read replaces what was unread by the chunk |
| `Fifo.ReadBuf.Append` | src/m2k_step.c:450-481 | compaction in place: nothing unread is lost or reordered, the accepted prefix is appended, count and WOULDBLOCK as above |
| `TelOpt.SlotOf` | src/telopt.c:47-66 | each of the four known options has its own entry; exactly the others, every code past the table among them, have the default entry |
| `TelOptSessions.ReceiveKeeps` | src/telopt.c:209-311 | one command, fatal or not, keeps what the table promises: unknown options refused, flags and requirements while the connection stays up |
| `TelOptTable.Options.constructor` | src/telopt.c:47-66 | the loops build the template table and a lookup that points every option at its entry |
| `TelOptTable.Options.Reset` | src/telopt.c:31-43 | the loop switches off every known option and leaves the default entry alone |
| `TelOptTable.Options.SetReqs` | src/telopt.c:121-136 | the requirements are set as the settings ask |
| `TelOptTable.Options.SendReqs` | src/telopt.c:140-194 | the loop marks as pending, and puts on the wire, exactly the requests the table calls for |
| `TelOptTable.Options.ReactAt` | src/telopt.c:260-307 | the decision on one command: entry, reply and verdict are those of `React` |
| `TelOptTable.Options.Handle` | src/telopt.c:209-311 | table, flags, reply bytes and verdict are those of `TelOpt.Handle`; the flags are not refreshed on the fatal path |
| `TelOptTable.Options.Summarize` | src/telopt.c:199-204 | the flags become the entries they cache |
| `TelOptTable.Options.SBHandle` | src/telopt.c:315-346 | only the terminal type is answered, with its full subnegotiation |
| `TelOptSessions.ReactKeepsMet` | src/telopt.c:260-307 | a command that is not fatal never breaks a MUST or MUST NOT requirement that was met |
| `TelOptSessions.RequirementsEnforced` | src/telopt.c:31-311 | over the whole life of a context, through refused and dropped calls: while a connection is up and requests went out in it, MUST options are enabled or pending and MUST NOT options disabled or pending; at all times the flags equal the entries they cache and the default entry refuses |
| `TelOptSessions.SettingsEnforced` | src/telopt.c:121-136 | what %B, %L and %T insisted on when the requests went out holds, or is still being asked for, in every call; the modem never silently echoes or takes a terminal type |
| `OptionRuns.ModemEnforces` | src/m2k_step.c:1105-1231 | the same for every run of the step API, against any peers and any command lines |
| `OptionRuns.RequestsOnGoingOnline` | src/m2k_step.c:597-598 | going online sends requests, under the settings of that moment, exactly when they are not marked as sent and the mode is not raw |
| `OptionRuns.OnlineIterTel` | src/m2k_step.c:978-1044 | a step online keeps what the option table promises, the bytes handled after a fatal command included |
| `Decisions.OnGranted` | src/telopt.c:291-309 | a request to switch an option on is granted when the requirement is neutral, better or must: the option is on, and the peer is told so exactly when it was off; nothing else changes |
| `Decisions.OffGranted` | src/telopt.c:291-309 | a request to switch off is granted when the requirement is neutral, better not or must not |
| `Decisions.Refused` | src/telopt.c:285-289 | a request against the requirement is answered by the opposite and changes nothing |
| `Decisions.AnswerTaken` | src/telopt.c:291-309 | the answer to a request of one's own is taken in silence when it is wanted or not minded |
| `Decisions.RefusalTaken` | src/telopt.c:271-284 | a refusal of what would only be better is put up with, and acknowledged if it changes the option |
| `Decisions.FatalExactly` | src/telopt.c:271-277 | the connection is dropped exactly when a request insisted on is refused |
| `Decisions.FirstAnswers` | src/telopt.c:17-24 | in bytes: what a modem that has sent no requests answers to each verb for each option, unknown ones included |
| `Decisions.TerminalTypeAgreed` | src/m2k_step.c:47-100 | byte by byte: IAC DO TERMINAL-TYPE is answered IAC WILL TERMINAL-TYPE while the option is neutral and off |
| `Decisions.TerminalTypeOpens` | src/telopt.c:134-135 | so it is after the opening requests of a fresh call, unless %T0 makes it MUST NOT |
| `Decisions.TerminalTypeTold` | src/telopt.c:315-326 | byte by byte: IAC SB TERMINAL-TYPE SEND IAC SE is answered with IS, the terminal type, IAC SE |
| `Grants.WantedComesAbout` | src/telopt.c:140-311 | two modems: what one end has asked for and the other permits all along holds at both ends at quiescence, unless an end has disconnected |
| `Grants.RunFlips` | src/telopt.c:140-311 | the ends are alike: exchanging them exchanges them in every run |
| `Openings.CleanOpens` | src/telopt.c:121-194 | the opening requests of a fresh call are exactly the bytes its settings call for, written out for every level of %B and %L |
| `Openings.StepOpens` | src/m2k_step.c:1117-1141 | a step that goes online with a new connection has queued and noted exactly those requests if the call negotiates, and nothing otherwise; a dial remembers which |
| `Openings.NewCallsOpen` | src/sock.c:409-410 | over all runs: a dialled call negotiates exactly when it named no port, an answered one always, neither in raw mode |
| `Negotiation.PairReceivesOk` | src/telopt.c:260-307 | one option, one direction, two ends: delivering a command keeps the pair in one of the named phases and lowers its rank |
| `Negotiation.PairRequestsOk` | src/telopt.c:140-194 | sending a request keeps the pair in one of the phases and does not raise its rank |
| `Negotiation.StepInv` | src/telopt.c:140-311 | every event of the two-modem net keeps the whole-table invariant, and deliveries lower the total rank |
| `Negotiation.NegotiationAgrees` | src/telopt.c:140-311 | two modems over FIFO channels, any requirements, any interleaving, any number of rounds: when the channels are empty an end has disconnected or both hold the same state of every option and await nothing |
| `Negotiation.NegotiationBounded` | src/telopt.c:260-307 | over any number of rounds at most 32 commands a round are exchanged or in flight: no requirements make the ends answer each other for ever |
| `LostReplies.DropAgrees` | src/m2k_step.c:576-577 | a +++ empties the socket queue: with the other channel empty the ends stay agreed if and only if the queue was empty |
| `LostReplies.DroppedReplyDisagrees` | src/m2k_step.c:576-577 | it happens: a refusal still queued at the escape leaves the ends in disagreement for good |
| `LostReplies.EscapeAndReturn` | src/m2k_step.c:580-600 | leaving and returning keeps the table, drops what was queued, and resets the parser, which loses nothing if and only if nothing was pending and the parser stood between items |
| `Rerequests.TwoRequestsNeverEnd` | src/telopt.c:140-194 | one round of requests at a time is needed: from ends that agree, with two requests of one end, none of the other and no new round, there are runs with any number of deliveries after which both ends are still connected; with one request each there are at most 32 |
| `Rerequests.RallyRound` | src/telopt.c:260-307 | the cycle behind it: a refusal answered by a request while nothing is pending |
| `FreshCalls.NewCallsStartClean` | src/m2k_step.c:885-897 | after any run, every step that goes online other than by ATO on a live connection has every option off and nothing queued but its own opening requests, a hangup and redial within the step included |
| `FreshCalls.StepClean` | src/m2k_step.c:1105-1231 | one step keeps a dial clean and goes online clean unless it keeps the old connection |
| `FreshCalls.CleanEndsAgree` | src/telopt.c:31-43 | two ends with a new connection satisfy the premise of the negotiation theorems |
| `Iac.ParseConcat` | src/m2k_step.c:47-100 | the parser state carries over a cut anywhere in the stream |
| `Iac.ParsePrint` | src/m2k_step.c:47-100 | parsing the printed form of any token list gives back the tokens and ends between tokens |
| `Iac.ParseUndoesPrint` | src/m2k_step.c:47-100 | the same for every way of cutting the stream into recv chunks |
| `Iac.ChunksDoNotMatter` | src/m2k_step.c:47-100 | any bytes at all, printed or not, parse alike however they are cut |
| `TokenLoop.LoopFollowsTokens` | src/m2k_step.c:36-100 | sockReadLoop over any bytes does what their tokens say, in order, and nothing else |
| `TokenLoop.LoopUndoesPrint` | src/m2k_step.c:36-100 | a printed token list, cut into chunks in any way, acts on the whole context exactly as the tokens do |
| `TokenLoop.CommandsOverTheWire` | src/m2k_private.h:309-314 | bytes queued by one end for its commands are handled by the other as those commands, with exactly their replies, and the line drops iff one is fatal |
| `RelayRuns.DteConserved` | src/m2k_step.c:978-1044 | in every mode and I/O mode: bytes taken from the DTE since going online = bytes handled ++ bytes unread; the record of received bytes likewise |
| `RelayRuns.DoExact` | src/m2k_step.c:978-1044 | one act, exactly: the DTE bytes handled and unread grow by those taken if and only if no read overwrote an unread byte |
| `RelayRuns.AskedReadsOk` | src/m2k_step.c:957-960 | none does when poll reports only what was asked for |
| `RelayRuns.HangupOverwrites` | src/m2k_step.c:660-662 | the failing input: a hung-up TTY is read though it was not asked for, and the unread bytes are gone |
| `Transparency.RawTransparent` | src/m2k_step.c:182-192 | raw mode: sent ++ pending ++ unread = bytes taken from the DTE since going online, for any partial sends, in either I/O mode |
| `Transparency.Transparent` | src/m2k_step.c:181-238 | any mixture of character and line mode, from any moment: an RFC 854 receiver decodes sent ++ pending to exactly what the bytes handled tell, each in the mode it was handled in; the line buffer holds the unfinished text in telnet form, a line begun before SGA came on included |
| `Transparency.TransparentNoIac` | src/m2k_step.c:181-238 | the same with its premise on keys discharged for input without byte 255 |
| `Transparency.CharTransparent` | src/m2k_step.c:194-203 | character mode: what is said grows by exactly the bytes handled, which with the unread ones are those taken from the DTE; a line begun before stays as it was (Modes.SgaTransparent says when the mode is this one) |
| `Transparency.TokenStepOk` | src/telopt.c:271-307 | a negotiation reply or terminal-type answer never splits a doubled IAC or adds data |
| `Transparency.LineTransparent` | src/m2k_step.c:204-237 | line mode, from any text in the line: what is said grows by exactly the lines finished, LFs dropped, backspaces applied under the 256-byte bound, each with CR LF; the line buffer is the unfinished line in telnet form; pauses of flow control do not matter |
| `LineEditing.WholeKeyExact` | src/m2k_step.c:166-177 | the line buffer goes on holding the telnet form of the text iff the key neither backspaces over a 255 nor is a 255 with one byte left |
| `LineLimits.BackspaceCutsIac` | src/m2k_step.c:221-224 | a failing family, on the code: backspace over 255 and carriage return, where the reference says text CR LF, make the peer hear text LF |
| `LineLimits.ClipCutsIac` | src/m2k_step.c:225-234 | the other one: 255 typed with one byte of the line left, then carriage return |
| `LineLimits.EchoOverruns` | src/m2k_step.c:204-212 | line-mode echo is not held back: exactly the echo for which the TTY buffer has no room is lost, whatever is typed |
| `LineLimits.PeerByteLost` | src/m2k_step.c:1009-1031 | and the peer may lose by it: a full buffer of typing leaves no room for the byte the peer sends, though poll reported only what was asked for |
| `LineEditing.HalfIacEatsCr` | src/m2k_step.c:213-220 | half a doubled 255 at the end of a line makes an RFC 854 receiver swallow the carriage return |
| `LineEditing.NoIacIsWhole` | src/m2k_step.c:225-234 | input without byte 255 always meets the premise of LineTransparent |
| `LineEditing.TellLines` | src/m2k_step.c:204-237 | key by key and in batch, line editing comes to the same |
| `ReplyRoom.RoomyNeverLoses` | src/m2k_step.c:1026-1031 | a bound that can be checked before each step, on free room against the bytes received, implies that no byte is refused on its way to the socket |
| `ReplyRoom.RoomyTransparent` | src/m2k_step.c:978-1044 | from going online on, under that bound, exactly what the bytes handled tell reaches the peer, binary data in character mode included |
| `ReplyRoom.SockByteLoad` | src/m2k_step.c:47-100 | one received byte raises the load of replies by no more than the bound allows |
| `ReplyRoom.FloodOverruns` | src/telopt.c:271-307 | the overrun, exactly: refusals of unknown options beyond the hard limit are lost, in whatever chunks the requests come |
| `LineEditing.SegmentsSplit` | src/m2k_step.c:213-220 | the segments of the reference are free of carriage returns and, joined by them, are all of the typing |
| `LineEditing.TypeCr` | src/m2k_step.c:213-220 | a carriage return commits the edited unfinished line with CR LF and starts a new one |
| `LineEditing.TypeOther` | src/m2k_step.c:221-234 | any other key commits nothing and edits the unfinished line |
| `Transparency.GoOnlineCarries` | src/m2k_step.c:581-600 | the opening requests all fit in the emptied buffer and carry no data; in raw mode nothing is queued |
| `Transparency.TtyByteHeadroom` | src/m2k_step.c:186-236 | a byte handled below the soft limit adds at most 258 bytes, so none is refused in any mode |
| `FlowControl.TtyLoopHeadroom` | src/m2k_step.c:186-236 | ttyReadLoop loses no byte and never reaches the hard limit |
| `FlowControl.SockLoopHeadroom` | src/m2k_step.c:36-100 | sockReadLoop emits at most one TTY byte per byte received, so a full recv from a ready state drops nothing |
| `DteSide.DteSeesAll` | src/m2k_step.c:978-1044 | towards the DTE, in any mixture of modes and whatever poll reports: nothing is lost if and only if every act finds room, and then the stream to the DTE grows by exactly the echo and the data of each act, in order |
| `DteSide.TtyLoopEchoes` | src/m2k_step.c:204-237 | ttyReadLoop puts on the TTY side exactly the echo of the bytes it handles, carriage returns included, room or not |
| `DteSide.SockLoopShows` | src/m2k_step.c:36-100 | sockReadLoop puts on the TTY side exactly the data of the bytes received, room or not |
| `DteSide.RoomyDteSeesAll` | src/m2k_step.c:946-961 | a bound that can be checked before each step, on room against unread, received and read bytes, implies that nothing is lost |
| `DteSide.DteSeesPeer` | src/m2k_step.c:36-100 | outside line mode, while poll reports only what was asked for, the DTE is given, then has pending, exactly the data of the bytes received |
| `FlowControl.StepAwake` | src/m2k_step.c:978-1044 | one step: unread implies `stop`, `stop` implies pending bytes and POLLOUT asked for |
| `FlowControl.NoLostWakeup` | src/m2k_step.c:946-961 | the same after every step of a stay that remains online, whatever the host wrote in between and whatever poll reported |
| `FlowControl.DrainStep` | src/m2k_step.c:1001-1013 | a successful send with no new input strictly lowers the weight of unread, line-buffered and pending bytes while anything is pending, in all modes |
| `FlowControl.Drains` | src/m2k_step.c:1001-1013 | after at most that many sends of any sizes nothing is unread or pending |
| `Polling.PollSetRight` | src/m2k_step.c:946-961 | what poll is asked for, event by event: to read the socket iff the TTY buffer is not above its soft limit, to write it iff bytes are pending, in PTY mode to read the TTY iff the socket buffer is not above its limit and nothing is unread, and to write it iff bytes are pending |
| `Polling.NothingWaits` | src/m2k_step.c:946-961 | each direction waits only for an event that poll announces |
| `Polling.NoLostOutput` | src/m2k_step.c:946-961 | after every act of every stay: bytes pending for the TTY ask for POLLOUT, and a peer that is not read is held back by them |
| `Polling.TtyDrains` | src/ttybuf.c:73-98 | towards the DTE: as many writes of any sizes as bytes are pending deliver all of them |
| `Polling.HostDrains` | src/m2k_step.c:484-505 | in app-I/O mode one read of the host does |
| `Escape.GuardPassed` | src/m2k_step.c:114-122 | true iff the first instant is later than the second by more than S12 times 20 ms |
| `Escape.EscapeSound` | src/m2k_step.c:124-160 | from rest with checkSilence clear: checkSilence iff state P3, and then the last three bytes are S2 with the guard pause before and the guard window around them |
| `Escape.EscapeComplete` | src/m2k_step.c:124-160 | such a triple arms the detector if and only if no sequence was begun before it: a lone escape character before the pause defeats the +++ after it |
| `EscapeStays.EscapeOnlyAfterPluses` | src/m2k_step.c:983-999 | a stay entered with checkSilence clear ends in a silence escape only after such a triple by the stamps current when its bytes were handled, with the guard time passed since |
| `EscapeTimes.EscapeAfterPausedPluses` | src/m2k_step.c:983-999 | the same by the times at which the bytes arrived, in either I/O mode, when new bytes come only while none is unread: three quick escape characters, the guard time before the read of the first (text in that same read included), the guard time after |
| `EscapeTimes.PauseTold` | src/m2k_step.c:154-158 | whatever arrived before that read did so more than the guard time earlier, and so did the last read before going online |
| `EscapeTimes.PtyFindsNothing` | src/m2k_step.c:958-961 | in PTY mode new bytes always come only while none is unread |
| `EscapeTimes.WriteKeepsStamps` | src/m2k_step.c:465-480 | one write keeps stamps equal to arrivals if and only if it finds nothing unread or comes at the moment of the write before |
| `EscapeTimes.RestampedEscape` | src/m2k_step.c:477-478 | without that condition it fails in app-I/O: a write onto unread bytes stamps them anew and arms the detector, though the bytes arrived more than the guard time apart and after no pause |
| `EscapeStays.FreshStayEscapes` | src/m2k_step.c:108-112 | the premise on checkSilence is exact: the first step of a new stay escapes by itself iff a leftover deadline has passed |
| `EscapeStays.LeftoverSilence` | src/m2k_step.c:108-112 | such a leftover arises: +++, carrier lost before the silence is over, next connection drops to command mode at once |
| `EscapeTimes.StayChained` | src/ttybuf.c:29-51 | successive bytes handled carry the stamps of the same read or of successive reads |
| `EscapeTimes.TextThenPluses` | src/m2k_step.c:154-158 | the same-read case arms the detector although nothing separates text and +++ |
| `RelayCtx.LinkCtx.EscSeqHandle` | src/m2k_step.c:124-160 | the detector fields change as `EscByte` says |
| `RelayCtx.LinkCtx.RawLoop` | src/m2k_step.c:186-193 | the raw loop on the real buffers is TtyLoop |
| `RelayCtx.LinkCtx.CharLoop` | src/m2k_step.c:194-203 | the character loop on the real buffers is TtyLoop |
| `RelayCtx.LinkCtx.LineLoop` | src/m2k_step.c:204-237 | the line loop on the real buffers is TtyLoop |
| `RelayCtx.LinkCtx.TtyReadLoop` | src/m2k_step.c:181-238 | the whole function refines TtyLoop, the subject of the transparency results |
| `Modes.RawKey` | src/m2k_step.c:186-193 | with %R1 a key goes to the socket as it is and nowhere else |
| `Modes.SgaKey` | src/m2k_step.c:194-203 | with SGA on a key goes to the socket at once, byte 255 doubled, and is neither echoed nor kept |
| `Modes.NoSgaKey` | src/m2k_step.c:204-237 | with SGA off a key is echoed and kept, and nothing goes to the socket before the carriage return, which sends the line with CR LF |
| `Modes.ModeInRuns` | src/m2k_step.c:181-238 | in every run a modem online is raw with %R1, and otherwise in character mode exactly while the negotiated SGA of the peer is on |
| `Modes.SgaTransparent` | src/m2k_step.c:194-203 | CharTransparent with the option table in place of the mode: while the peer keeps SGA on, what is said grows by exactly the bytes handled |
| `Modes.NoSgaTransparent` | src/m2k_step.c:204-237 | LineTransparent with the option table in place of the mode: while it is off, by exactly the lines finished |
| `Modes.ModemSgaTransparent` | src/m2k_step.c:194-203 | the same for the whole modem, from any moment of any run at which it is online |
| `Modes.ModemNoSgaTransparent` | src/m2k_step.c:204-237 | likewise |
| `RelayCtx.LinkCtx.SrlByte` | src/m2k_step.c:47-100 | one pass of the seven-state switch refines ParseByte followed by the token it yields |
| `RelayCtx.LinkCtx.SockReadLoop` | src/m2k_step.c:35-103 | the loop over the receive buffer refines SockLoop and empties the buffer |
| `RelayCtx.LinkCtx.OnSockWritable` | src/m2k_step.c:1001-1007 | send, then let the DTE catch up if that made room |
| `RelayCtx.LinkCtx.OnlineIter` | src/m2k_step.c:978-1044 | the in-place step refines OnlineIter, its verdict included |
| `RelayCtx.LinkCtx.GoOnline` | src/m2k_step.c:581-597 | what going online resets and what it does not, and the opening requests |
| `RelayCtx.LinkCtx.WriteFromApp` | src/m2k_step.c:450-481 | refines FromApp; refused input leaves the time stamps alone |
| `RelayCtx.LinkCtx.ReadToApp` | src/m2k_step.c:484-505 | refines ToApp |
| `Dial.StartPromises` | src/sock.c:394-437 | addresses are tried in list order, each at most once, at most one socket open; failure only after the whole list failed, with none open |
| `Dial.ProgressPromises` | src/sock.c:439-487 | "continue" is the same address before its deadline or a later one, and a later one is tried only once the current one timed out or failed |
| `Dial.DialInOrder` | src/sock.c:355-487 | both over a whole dial: a start and any number of progress calls |
| `Dial.DialEnds` | src/sock.c:445-475 | a dial of n addresses is decided after at most n waits that time out or fail |
| `DialTimes.StartTimed` | src/sock.c:379-388 | an attempt in progress is given until exactly S7 seconds after it began |
| `DialTimes.ProgressTimed` | src/sock.c:445-475 | earlier than that a pending attempt goes on, a done one connects and a failed one is left; from then on it is left in any case |
| `DialTimes.EachHasS7` | src/sock.c:394-487 | the same over a whole dial, whatever addresses it has been through |
| `Dialer.Connection.Close` | src/sock.c:46-67 | closing gives the descriptor back once; closing again does nothing |
| `Dialer.DialCtx.TryCurrent` | src/sock.c:355-392 | one attempt in place: fd, alive and deadline for each of its five outcomes |
| `Dialer.DialCtx.Start` | src/sock.c:394-437 | the loop over the list in place refines Start |
| `Dialer.DialCtx.Progress` | src/sock.c:439-487 | probe, time-out and advance in place refine Progress |
| `Dialer.DialCtx.Abort` | src/sock.c:489-498 | gives the list and the socket back |
| `History.BracketsBalance` | src/m2k_step.c:1105-1231 | in a history that follows the protocol CONNECTs and online endings pair up, and so do waits and their endings |
| `MachineRuns.StepKeeps` | src/m2k_step.c:1105-1231 | every step keeps the invariant on buffers, descriptors, history and rings, and is ONLINE only with a live connection |
| `MachineRuns.HangupKeeps` | src/m2k_step.c:629-649 | so does m2k_hangup in every state |
| `Effects.EscapeKeepsConnection` | src/m2k_step.c:1202-1208 | an escape shows OK and goes to command mode with the same connection and options |
| `Effects.RequestedEscape` | src/m2k_step.c:378-384 | m2k_escape does so at the next step, and nothing when not online |
| `Effects.GoesOnExactly` | src/m2k_step.c:1001-1043 | a step without an escape stays online if and only if the connection was up, the send, the write and both reads did not fail, and no command was insisted against |
| `Effects.FailureHangsUp` | src/m2k_step.c:1209-1215 | otherwise it shows NO CARRIER, has given the descriptor back and is in command mode |
| `Effects.HangupEffect` | src/m2k_step.c:629-649 | m2k_hangup gives the descriptor back in every state and ends a dial or an answer wait with NO CARRIER |
| `Effects.HangupOnline` | src/m2k_step.c:647-648 | while online the next step shows NO CARRIER |
| `Effects.DialCancelled` | src/m2k_step.c:845-867 | in PTY mode a byte other than CR, LF and NUL, or a lost TTY, cancels a dial with NO CARRIER and no socket left |
| `Effects.DialSurvives` | src/m2k_step.c:845-867 | line terminators do not touch it |
| `Effects.AnswerWaits` | src/m2k_step.c:617-627 | an answer wait goes on until exactly S7 seconds after it began and then ends with NO CARRIER |
| `Effects.AnswerEnds` | src/m2k_step.c:924-936 | a caller ends it with CONNECT, a key or a caller who is gone with NO CARRIER |
| `Effects.AtdBusy` | src/m2k_step.c:1117-1122 | ATD is ERROR on a live connection |
| `Effects.AtdEffect` | src/m2k_step.c:1117-1141 | ATD without one does what comes of the dial: CONNECT with its connection, a wait in DIAL with no rings left, or NO CARRIER |
| `Effects.DialEffect` | src/m2k_step.c:1180-1193 | a dial going on, with no key to cancel it, connects, goes on with the same address or another, or fails with NO CARRIER |
| `Effects.AtoEffect` | src/m2k_step.c:1142-1149 | ATO goes back online on a live connection and is NO CARRIER without |
| `Effects.AtaEffect` | src/m2k_step.c:1150-1170 | ATA: ERROR, CONNECT, NO CARRIER or a wait of S7 seconds, in that order of conditions |
| `Effects.LineEffect` | src/m2k_step.c:742-763 | a finished line is lexed once with the settings of the moment; OK and ERROR are shown, calls passed on |
| `Effects.PtyLineEffect` | src/m2k_step.c:788-798 | in PTY mode that happens as soon as the TTY can be written, before anything more is read |
| `Effects.LineAndCall` | src/atcmd.c:115-128 | a line that hangs up or quits closes the connection, any other keeps it; %B and %L have the requests sent again |
| `Effects.KeyEffect` | src/m2k_step.c:410-438 | each key in command mode, by its kind: Ctrl-C, carriage return, backspace, control characters, text up to 255 bytes |
| `Effects.CheckEffect` | src/m2k_step.c:1048-1070 | a caller is announced, by RING on the TTY and in the ring count, exactly when S1 is zero or six seconds have passed since the last RING; a caller who is gone clears S1 and the ring count |
| `Effects.ListenEffect` | src/m2k_setup.c:118-142 | once the modem listens, a caller is announced at the next check and ATA waits for one |
| `Effects.RingAnswered` | src/m2k_step.c:1071-1072 | the RING that makes S1 reach S0 is answered: online, S1 back at zero |
| `Quits.EndsOnlyDrained` | src/m2k_step.c:765-807 | no step ends the run unless a quit was asked for and nothing is left to be shown, or the TTY has failed and the connection is closed |
| `Quits.PtyQuits` | src/m2k_step.c:788-807 | PTY mode, exactly: unless a call begins, the run ends iff the TTY fails, which closes the connection, or a quit is due |
| `Quits.QuitWaits` | src/m2k_step.c:778-806 | a requested quit ends the run as soon as the rest has been read or written, and no earlier |
| `MachineRuns.CodesBracket` | src/m2k_step.c:331-367 | over every run: CONNECTs = online endings + 1 iff ONLINE; every finished DIAL or ANSWER stay ended with exactly one CONNECT or NO CARRIER |
| `MachineRuns.CarrierKept` | src/sock.c:38-67 | over every run: no descriptor leaks or is closed twice, alive iff a descriptor is held outside DIAL, DIAL and ANSWER are not alive, the socket queue is empty outside ONLINE |
| `MachineRuns.OnlineIsAlive` | src/m2k_step.c:1040-1043 | after any run, a step leaves the modem ONLINE only with a live connection |
| `MachineRuns.DoneIsFinal` | src/m2k_step.c:1225-1227 | DONE is absorbing and shows nothing more |
| `MachineRuns.RingsKept` | src/m2k_step.c:1048-1073 | over every run: the ring count is min(255, RINGs since it was cleared), and two successive RINGs, the later with S1 nonzero, are at least 6 s apart |
| `History.SpacedMeans` | src/m2k_step.c:1060-1070 | what spacing means between any two successive RINGs, in microseconds |
| `RingRuns.AnswersOnNthRing` | src/m2k_step.c:602-615 | with S0 = n and S1 starting at 0 the first accept attempt comes exactly on the n-th RING, through any states in between, an outbound dial and its failure included, since S1 goes up by exactly the RINGs shown |
| `RingRuns.RingingStep` | src/m2k_step.c:1048-1073 | a step in any state adds one RING iff one is due and counts it in S1 |
| `CommandRuns.ReadLoopAhead` | src/m2k_step.c:405-439 | cmdReadLoop and the dispatch after it handle a prefix of the unread bytes as the fold does |
| `CommandRuns.CmdLoopAhead` | src/m2k_step.c:771-786 | cmdIter ends with `eol` clear, has handled all input unless a call begins, and agrees with the fold |
| `CommandRuns.ChunkInvariant` | src/m2k_step.c:391-439 | app-I/O command mode is a fold over the accepted bytes: lines dispatched, line being typed, settings, Ctrl-C latch, however writes and steps cut the input |
| `CommandRuns.SameBytesSameLines` | src/m2k_step.c:742-786 | two hosts that type the same bytes end with the same dispatched lines and residue |
| `PtyCommandRuns.PtyChunkInvariant` | src/m2k_step.c:788-807 | PTY mode: typing is a fold over the bytes read when every read finds no finished line waiting and nothing unread, and has nothing after its first carriage return |
| `PtyCommandRuns.LeavesRest` | src/m2k_step.c:405-439 | a read leaves nothing unread if and only if nothing follows its first carriage return |
| `PtyCommandRuns.ReadOverwrites` | src/ttybuf.c:29-51 | what is left unread is overwritten by the next read, whatever it was |
| `PtyCommandRuns.WaitingLineExact` | src/m2k_step.c:788-804 | a read that finds a finished line waiting edits that line: the lines come out as typed if and only if it leaves it as it was |
| `PtyCommandRuns.LinesMerge` | src/m2k_step.c:788-804 | so two lines become one when the second is read before the TTY can be written |
| `OnlineStays.RunIsStay` | src/m2k_step.c:1199-1224 | while the step machine is ONLINE its context goes through a relay stay with unchanged settings |
| `OnlineStays.ModemRawTransparent` | src/m2k_step.c:182-192 | raw transparency for the whole modem, by whichever path it went online |
| `OnlineStays.ModemTransparent` | src/m2k_step.c:181-238 | transparency through changes of mode for the whole modem, from going online on |
| `OnlineStays.ModemRoomyTransparent` | src/m2k_step.c:181-238 | the same under a bound checked before each step instead of the outcome |
| `OnlineStays.ModemShowsAll` | src/m2k_step.c:978-1044 | in any mixture of modes the DTE of the whole modem is given exactly the echo and the peer data if and only if every step finds room |
| `OnlineStays.ModemShowsPeer` | src/m2k_step.c:36-100 | outside line mode that is exactly what the peer says |
| `OnlineStays.ModemEscapes` | src/m2k_step.c:1202-1208 | a step shows OK and leaves online unasked only after a quick +++ with the guard time before its read and after its last byte, by arrival times |
| `OnlineStays.ModemDrains` | src/m2k_step.c:1001-1013 | drain termination for the whole modem, which stays online |
| `OnlineStays.ModemNeverSleeps` | src/m2k_step.c:946-961 | no lost wakeup for the whole modem |
| `Context.M2k.NewContext` | src/m2k_api.c:20-41 | a new context is in the initial state of the runs, whatever settings the initialization commands left |
| `Context.M2k.PutTtyCmdstat` | src/m2k_step.c:331-367 | shows one result code on the TTY buffer |
| `Context.M2k.StepEnterCmd` | src/m2k_step.c:564-578 | command line, unread input and the socket queue are dropped |
| `Context.M2k.StepEnterOnline` | src/m2k_step.c:580-600 | resets, opening requests, CONNECT, in that order |
| `Context.M2k.StepEnterDial` | src/m2k_step.c:602-615 | rings are cleared and S1 is not |
| `Context.M2k.StepEnterAnswer` | src/m2k_step.c:617-627 | the deadline is S7 seconds from now |
| `Context.M2k.Hangup` | src/m2k_step.c:629-649 | aborts a dial, ends an answer wait, or closes the connection |
| `Context.M2k.RequestEscape` | src/m2k_step.c:378-384 | sets the request only while ONLINE |
| `Context.M2k.CmdReadByte` | src/m2k_step.c:410-438 | one byte through the loop: Ctrl-C latch, echo, CR, backspace, control characters, 255-byte clip |
| `Context.M2k.CmdReadLoop` | src/m2k_step.c:405-439 | the loop on the real buffers refines CmdReadLoop |
| `Context.M2k.CmdDispatchIfReady` | src/m2k_step.c:742-763 | a finished line is lexed once, the buffer cleared, OK or ERROR shown, calls passed on |
| `Context.M2k.CmdIterApp` | src/m2k_step.c:771-786 | the app-I/O loop refines CmdLoop, which terminates by unread bytes |
| `Context.M2k.CmdIterPty` | src/m2k_step.c:788-807 | the PTY half refines CmdIterPty |
| `Context.M2k.CmdRingCheck` | src/m2k_step.c:1048-1073 | RING cadence, counters and auto-answer refine RingCheck |
| `Context.M2k.AnswerAccept` | src/m2k_step.c:885-897 | a caller is adopted with options reset and S1 zero |
| `Context.M2k.OnAtd` | src/m2k_step.c:1117-1141 | ATD: ERROR when connected, else a fresh call that connects, waits or fails |
| `Context.M2k.OnAto` | src/m2k_step.c:1142-1149 | ATO: back online, or NO CARRIER |
| `Context.M2k.OnAta` | src/m2k_step.c:1150-1170 | ATA: ERROR, answer, wait up to S7, or NO CARRIER |
| `Context.M2k.DialStep` | src/m2k_step.c:834-872 | cancel by keypress except CR, LF and NUL, else progress |
| `Context.M2k.AnswerStep` | src/m2k_step.c:924-942 | keypress, caller, deadline |
| `Context.M2k.OnlineStep` | src/m2k_step.c:1199-1224 | escape ends with OK and the connection kept, loss with NO CARRIER and the connection closed |
| `Context.M2k.OnlinePollfds` | src/m2k_step.c:946-961 | the poll set asked for is `PollSet`, the premise of the no-lost-wakeup results |
| `Context.M2k.Step` | src/m2k_step.c:1105-1231 | m2k_step on the mutable context refines Step, the transition of the proved runs |
| `Context.M2k.WriteFromApp` | src/m2k_step.c:449-481 | refused outside app-I/O; otherwise count and WOULDBLOCK as in Fifo.WriteFromApp |
| `Context.M2k.ReadToApp` | src/m2k_step.c:483-505 | refused outside app-I/O; otherwise a prefix of what was pending |
| `Context.M2k.Call` | src/m2k_step.c:449-1231 | every call of the API refines Do and keeps the invariant of MachineRuns, so the laws of runs hold of the context |
| `LineBuffer.LineBuf.Put1` | src/m2k_step.c:391-396 | appends until the buffer is full, then ignores |
| `LineBuffer.LineBuf.Backspace` | src/m2k_step.c:398-403 | drops the last byte, if any |
| `DialString.Longest` | src/cmdlex.l:121-139 | the length chosen is the longest that some rule matches, as the lex rule of precedence says |
| `DialString.FirstMatch` | src/cmdlex.l:121-139 | among rules that match the same text the earliest wins |
| `DialString.CmdLex` | src/cmdlex.l:143-154 | the scanning loop refines the recursive scanner of the round trip |
| `DialString.QuoteRuleIs` | src/cmdlex.l:132-137 | a quoted host and port is claimed by exactly the rule of its port type, closing quote or not |
| `DialString.AtcmdDSplits` | src/atcmd.c:73-84 | the scanf splits the quoted string into exactly host and port |
| `DialString.DialRoundTrip` | src/cmdlex.l:85-139 | lexing the dial line written for a host and port gives ATD with exactly that host, port and port type |

## Left out

- The deprecated blocking interface (`m2k_dial`, `m2k_online`, `onlineMode`, `m2k_sockDial`): it repeats the step path and runs online while the state says CMD.
- The operating system: sockets, name lookup, PTY, fork, termios and signals are arguments of the steps; freeing the address list is not modelled, nor is a program whose descriptor 0 is closed, so that a socket gets number 0.
- The command lexer beyond the ATD path is the parameter `Rom.lex`, what command lines print is `Rom.shows`, and the wording of result codes is `Rom.text`; the run theorems hold for all of them. `DialString.Lex` ends with `OtherCommand` where another command of the line begins.
- Settings handlers of `src/atcmd.c` other than the ATD split, and overflow in `strtol` and `atoi`; runs start from any settings.
- The number of entries of the option lookup table is 40, the NTELOPTS of the C library's `arpa/telnet.h`.
- `m2k_atcmd` and other calls a host may make in the middle of a call that rewrite settings: while online the settings are fixed.
- Logging, verbose output, the error buffer, `m2k_describe_state`, DTR and RTS, and the poll sets of CMD, DIAL and ANSWER: nothing to prove beyond one branch.
- The option table and its lookup are sequences held in fields, not arrays of structs with pointers: aliasing between lookup entries is an equality of indices.
- Result codes are counted when put in the TTY buffer; when that buffer is full their bytes can be refused.
- Context.M2k.PutTtyCmdstat: the wording of the code is the parameter `Rom.text`; no law depends on it.
- Transparency.Transparent: needs `lost == 0`, as said above; `ReplyRoom.RoomyTransparent` replaces it by a bound checked before each step.
- Transparency.TransparentNoIac: needs `lost == 0`, as `Transparency.Transparent` does.
- OnlineStays.ModemTransparent: needs `lost == 0`; `OnlineStays.ModemRoomyTransparent` replaces it by a bound.
- OnlineStays.ModemShowsPeer: is the case without line mode; `OnlineStays.ModemShowsAll` has no such restriction.
- Transparency.CharTransparent: is the case of one fixed mode; `Transparency.Transparent` has none.
- Transparency.LineTransparent: is the case of one fixed mode; `Transparency.Transparent` has none.
- DteSide.DteSeesPeer: is the case without line mode and with poll reporting only what was asked for; `DteSide.DteSeesAll` has neither.
- Negotiation.NegotiationAgrees: commands are whole messages; that bytes carry them is TokenLoop.CommandsOverTheWire, for buffers that refuse and drop nothing.
- EscapeStays.EscapeOnlyAfterPluses: speaks of the stamps current when a byte was handled; arrival times are in `EscapeTimes.EscapeAfterPausedPluses`.
