# ningen-shikkaku in Dafny

This project models the dead man's switch and its neighbours and proves what they
promise, over every run, every input and every interleaving:

- **The watchdog** (kikka). Heartbeat readers, a signal thread and control handlers send
  into one channel; one event loop drives the panic controller. `Protocol` is the state
  machine, one step for each atomic operation, send, receive, closure act and record;
  `ReaderInv` and `MainInv` are its inductive invariants and `WatchdogTheorems` what
  follows. `Channel` is the law of what can be in the channel; `Exactness` shows that law
  has no slack; `Reorder` is the claim that generation tags make overtaken losses
  harmless, and `Overtaking` says of which daemons it holds; `Handling` writes out what each
  event and timeout makes the main thread do; `Scenarios` holds runs that do less than the
  documentation suggests, and exactly which daemons have them. `ReaderRuns` joins the
  reader thread to the machine. `Panic`, `Closures`, `EventLoop`, `Heartbeat`, `Registry`
  and `Control` are the imperative parts, as classes and loops proved against the functions
  the machine uses.
- **Lifecycle records** (kiroku). `Kiroku` prints, `Contract` validates, `Json` is the text
  between them, `Agreement` and `RecordText` prove that the two meet exactly, `Saying` says
  what a printed line tells its reader, `Sink` appends.
- **The one-shot server** (motokano). `Counter` is the compare-exchange countdown, `Tools`
  the registry, `Server` the call handler and exit path of one thread, `Exit` the
  concurrent machine of handlers, monitor, disconnect and exit threads, with its
  invariants in `ExitInv`, its theorems in `ExitTheorems` and `OneAtATime`, and
  `LoneCall` joining it to the one-threaded handler.
- **Shared vocabulary.** `Lifecycle`, `Text`, `Bytes`, `Counting` and `Wrappers`.
- **Smaller cores.** `Secmem` is the interrupt safety of the Python buffers, `Framing` the
  Python reader's line framing, and `Control` the STATUS/REGISTER text codec between the
  daemon and its clients.

`dafny verify dfyconfig.toml` checks everything.

## How to read it

Shared state is a value, and a run is a sequence of labelled steps from the initial
state; theorems quantify over all reachable states or all step sequences. Code that runs
on one thread keeps its form: a class whose methods equate the new state with a function
of the old one. Time, socket bytes, read pauses, random bytes, whether a write or a
`mlock` succeeds, whether a command runs, and where a Python signal falls are parameters.

Where the code and its own comments differ, the model follows the code:

- `fired` in the panic controller is a plain flag on one thread, not a compare-exchange.
- A second graceful trigger moves the deadline later (`Panic.SecondTriggerExtends`), and
  a first connect or a CANCEL clears a window opened by SIGUSR1.
- The generation tags make overtaken losses harmless only for a daemon started armed with
  a grace window: `Overtaking.HarmlessExactlyWhenArmedWithGrace` over whole runs, and
  `Reorder.HoistIsSafeExactlyWhen` for one loss.
- QUIT carries no generation, so a client's QUIT overtaken by its successor's connection
  ends the successor's session (`Scenarios.OvertakenQuitEndsLiveSession`), and can abandon
  a loss window without a kill (`Scenarios.QuitAbandonsWindowExactlyWhen`).
- The tick that carries a window out does not look at the channel again, so a client that
  connects after the receive timed out comes too late
  (`Scenarios.TickKillsPresentClientExactlyWhen`).
- A runtime ARM can be recorded before the session start; the records begin with the
  session start in every run exactly when the daemon is started armed
  (`Scenarios.StartsFirstExactlyWhenArmed`).
- In either mode a count spent after the disconnect was counted does not close serving by
  itself (`OneAtATime.ServesExactlyTheBudget`), and a limit of zero calls never fires
  (`Counter.ZeroBudgetNeverFires`).
- The Python reader drops an over-long unfinished line only when a chunk ends inside it,
  so what it handles depends on the chunks beyond the bound
  (`Framing.ChunkIndependentExactlyWithinBound` gives the exact condition).

The channel's disconnected branch is unreachable because the main thread keeps a sender.

## Model

| member | source | states |
|---|---|---|
| WatchdogTheorems.NoLossMissed | rs/crates/kikka/src/lib.rs:366-437 | in every interleaving, once the channel is drained and no reader is between its change of `active` and its send, a daemon whose clients are gone is armed with a deadline running |
| WatchdogTheorems.SettledBeliefIsTruth | rs/crates/kikka/src/lib.rs:392-411 | once drained, the loop's generation is the newest issued and its presence equals `active` |
| WatchdogTheorems.LossWindowHasNoClient | rs/crates/kikka/src/lib.rs:397-411 | a window opened by a loss is never held against an accepted client: presence is false and the current generation's reader has returned |
| WatchdogTheorems.LossWindowMoves | rs/crates/kikka/src/lib.rs:391-437 | whatever step comes next in the loop, a loss window stays, is extended by SIGUSR1, is carried out as a destruct, is cleared by a strictly newer generation connecting, or is abandoned by leaving on SIGTERM, SIGINT or the QUIT of an overtaken client |
| WatchdogTheorems.QuitInLossWindowIsOvertaken | rs/crates/kikka/src/lib.rs:415-419 | a QUIT handled in a loss window comes from a client older than the current generation, which a newer one has overtaken |
| Scenarios.QuitAbandonsWindowExactlyWhen | rs/crates/kikka/src/lib.rs:415-419 | a daemon has a run in which an overtaken QUIT abandons a loss window without a kill if and only if it has a grace window |
| WatchdogTheorems.CancelIsFromPresentClient | rs/crates/kikka/src/lib.rs:412-414 | every CANCEL is handled with its sender present and current, so it never aborts a loss window |
| WatchdogTheorems.TerminalIsCurrentUnlessOvertaken | rs/crates/kikka/src/lib.rs:397-419 | a loss or QUIT in hand is about the client believed present if and only if no newer generation connected before it |
| WatchdogTheorems.ExpiryMeansNobodyConnected | rs/crates/kikka/src/lib.rs:377-390 | when the receive can time out on a loss window, the last generation ever connected has finished and no newer one is in the channel |
| WatchdogTheorems.TickMeansNobodyHandled | rs/crates/kikka/src/lib.rs:432-435 | at the tick itself nothing handled is newer than the lost client, whatever connects in the rest of the channel is newer, and the tick destructs exactly when the deadline has passed |
| Handling.EventsAreHandled | rs/crates/kikka/src/lib.rs:391-431 | in every reachable state with an event in hand, act by act: SIGTERM, SIGINT and QUIT always go to the clean wipe, wipe record and session end under Shutdown or ClientQuit; SIGUSR1 rehearses when unarmed, sets the deadline to now plus grace when armed with a grace time and destructs when armed without; SIGUSR2 destructs or rehearses at once; connects and cancels clear any deadline |
| Handling.LossesAreHandled | rs/crates/kikka/src/lib.rs:397-411 | a lost heartbeat or missed ping is ignored if and only if a newer generation had connected by then; otherwise presence ends under its own reason, with a deadline at now plus grace, a destruct or a rehearsal as the arm flag and grace say |
| Handling.TimeoutsAreHandled | rs/crates/kikka/src/lib.rs:432-435 | a timed-out receive destructs under the trigger if the deadline has passed, which only happens armed, and otherwise changes nothing |
| Handling.TopIsLeft | rs/crates/kikka/src/lib.rs:376-390 | at the top of the loop the main thread waits, unless a rehearsal has set the stop flag: then it wipes again and records the session end under the trigger |
| Handling.OthersAct | rs/crates/kikka/src/lib.rs:684-736 | in every reachable state the PIDs are a set of at most 32 that only REGISTER and UNREGISTER change, only a runtime ARM raises the flag and nothing lowers it, and a delivered signal is sent as itself |
| Scenarios.TickKillsPresentClientExactlyWhen | rs/crates/kikka/src/lib.rs:432-435 | a daemon has a run in which the tick destructs although a newer client connected after the receive timed out if and only if it has a grace window |
| WatchdogTheorems.OneShot | rs/crates/kikka/src/panic.rs:84-166 | over whole runs the effects are none, the destruct or the rehearsal, and no PID is signalled and no process killed unless armed |
| WatchdogTheorems.FinishedRunsTellOneStory | rs/crates/kikka/src/lib.rs:144-220 | every finished run leaves every buffer byte zero and the main thread's records, written out, are the session start, the startup arm if armed then, and one of three endings, with one wipe and one reason throughout and a kill count of at most 32 |
| WatchdogTheorems.RehearsalCountsRegistered | rs/crates/kikka/src/lib.rs:193-220 | a rehearsal records as many kills as PIDs are registered at that moment, under the trigger, and signals none |
| WatchdogTheorems.DestructSignalsRegistered | rs/crates/kikka/src/lib.rs:144-152 | an armed trigger signals the PIDs registered at that moment, each once |
| WatchdogTheorems.AtMostOneControlArm | rs/crates/kikka/src/lib.rs:720-736 | control threads record at most one arm, none if the daemon started armed, and exactly one once a runtime arming is finished |
| WatchdogTheorems.RecordedReasonIsLastTrigger | rs/crates/kikka/src/lib.rs:248-251 | the trigger that records name is the last honoured trigger of the run's inputs |
| Overtaking.RunsIgnoreOvertaking | rs/crates/kikka/src/lib.rs:392-414 | a run started armed with a grace window ends in the same generation, presence, deadline and effects as with each overtaken loss put back just before the connect that overtook it and everything else in order |
| Overtaking.HarmlessExactlyWhenArmedWithGrace | rs/crates/kikka/src/lib.rs:392-411 | every run of a daemon is unharmed by overtaken losses in that sense if and only if it is started armed with a grace window |
| ReaderInv.Always | rs/crates/kikka/src/lib.rs:556-639 | in every run the reader program counters, `active`, the generation counter and the channel history agree, and the history is lawful |
| MainInv.Always | rs/crates/kikka/src/lib.rs:301-467 | in every run the loop state matches the handled part of the channel, and records, effects and buffers tell one consistent story |
| Channel.ConnectedInOrder | rs/crates/kikka/src/lib.rs:565-571 | in a lawful history the connected generations are exactly 1, 2, 3, ... |
| Channel.OrderLaw | rs/crates/kikka/src/lib.rs:565-637 | each reader sends at most one terminal event, after its own connect; its cancels come before its terminal event and before any newer connect |
| Channel.SummaryMeans | rs/crates/kikka/src/lib.rs:565-637 | the summary of a lawful history is exactly its newest generation and the generations connected but not finished |
| Exactness.LawIsExact | rs/crates/kikka/src/lib.rs:556-639 | a history is lawful if and only if some reachable state has sent it, so the order law cannot be strengthened |
| Reorder.HoistIsSafeExactlyWhen | rs/crates/kikka/src/lib.rs:57-65 | moving a live loss before the connect that replaces it changes nothing if and only if the daemon is armed with a grace window |
| Reorder.OvertakingIsHarmless | rs/crates/kikka/src/lib.rs:392-411 | for any deliverable armed history with a grace window, hoisting each overtaken loss to just before the connect that overtook it, between its own connect and the next, and moving nothing else, leaves the same generation, presence, deadline and effects |
| Scenarios.OvertakenQuitEndsLiveSession | rs/crates/kikka/src/lib.rs:609-614 | a reachable state in which the first client's QUIT ends the session of a live second client |
| Scenarios.ArmBeforeSessionStart | rs/crates/kikka/src/lib.rs:351-363 | a reachable state whose records begin with the runtime arm, before the session start |
| Scenarios.StartsFirstExactlyWhenArmed | rs/crates/kikka/src/lib.rs:351-363 | in every run the first record is a session start if and only if the daemon is started armed |
| Panic.OutcomeIsFirstFiring | rs/crates/kikka/src/panic.rs:84-166 | for any calls the controller fires at the first call that would fire and never again: destruct if armed by then, rehearsal otherwise, nothing if no call fires |
| Panic.FiredIsFinal | rs/crates/kikka/src/panic.rs:98-152 | after firing, no further call has any effect |
| Panic.SecondTriggerExtends | rs/crates/kikka/src/panic.rs:98-119 | a second graceful request moves the pending deadline to its own time plus the grace |
| Panic.PanicController.RequestGraceful | rs/crates/kikka/src/panic.rs:98-119 | deadline, fired flag and closure calls become those of the policy function on the old state and the clock |
| Panic.PanicController.RequestHard | rs/crates/kikka/src/panic.rs:121-131 | likewise for the hard trigger |
| Panic.PanicController.Cancel | rs/crates/kikka/src/panic.rs:133-142 | clears a deadline not yet fired and says whether one was pending |
| Panic.PanicController.Tick | rs/crates/kikka/src/panic.rs:144-152 | fires exactly when a deadline has passed |
| Panic.PanicController.Execute | rs/crates/kikka/src/panic.rs:154-166 | the one-shot destruct: kill registered, wipe, kill self, in that order |
| Panic.PanicController.DryWipe | rs/crates/kikka/src/panic.rs:84-96 | the one-shot rehearsal: wipe, then stand down |
| Closures.Host.CallKillRegistered | rs/crates/kikka/src/lib.rs:144-160 | records and signals every registered PID |
| Closures.Host.CallWipe | rs/crates/kikka/src/lib.rs:161-175 | every buffer becomes zero and one wipe is recorded |
| Closures.Host.CallKillSelf | rs/crates/kikka/src/lib.rs:176-192 | the self-kill is recorded before the process dies |
| Closures.Host.CallDryDone | rs/crates/kikka/src/lib.rs:193-220 | the kills that would have happened are recorded and the stop flag set, nothing is signalled |
| EventLoop.Watchdog.HandleInput | rs/crates/kikka/src/lib.rs:391-437 | SIGTERM and SIGINT leave with Shutdown, QUIT with ClientQuit, nothing else leaves; SIGUSR1, SIGUSR2 and a timeout call exactly the closures, or set exactly the deadline, that the arm flag, grace and old deadline say; loop variables and world follow the turn function that `TurnMeans` spells out |
| EventLoop.TurnMeans | rs/crates/kikka/src/lib.rs:391-437 | for every event and timeout the generation, presence, deadline, closures called and trigger after the turn of an unfired loop, field by field |
| EventLoop.Watchdog.RunWithListener | rs/crates/kikka/src/lib.rs:351-441 | on any deliveries, the first SIGTERM, SIGINT, QUIT, SIGUSR2 or unwindowed SIGUSR1 is the last it takes and ends it with that reason or a kill; the records left are written out for each outcome, with the counts of the PIDs registered at the last delivery, those PIDs are what is signalled, and every buffer byte is zero |
| EventLoop.Watchdog.Cleanup | rs/crates/kikka/src/lib.rs:443-467 | always wipes; records a wipe unless a trigger already did, then the session end |
| EventLoop.FiredWorld | rs/crates/kikka/src/lib.rs:144-220 | acting out the two firings gives these record sequences, signals, wipes and stop flag |
| Heartbeat.HandleHeartbeat | rs/crates/kikka/src/lib.rs:556-639 | the lines handled are the newline split of the bytes read however reads pause; the replies and events, in order, are the opening, each line's own, and the closing of a QUIT or a loss; it stops at a QUIT, at the first check past the deadline, or at an end of stream, error or 8192-byte line; a second client hears only BUSY |
| Heartbeat.TranscriptGrows | rs/crates/kikka/src/lib.rs:591-616 | each further line is answered by its verb: WELCOME, PONG, the CANCEL event and then CANCELLED, nothing for an empty line, an error otherwise |
| Heartbeat.LastLineIs | rs/crates/kikka/src/lib.rs:573-620 | the deadline counts from the read of the last newline, or from the start if there is none |
| ReaderRuns.OpIsStep | rs/crates/kikka/src/lib.rs:565-637 | each shared operation of a reader is an enabled step of the machine that moves that reader alone, sets `active`, draws the generation and sends exactly its event under its own generation |
| ReaderRuns.ReaderFollows | rs/crates/kikka/src/lib.rs:556-639 | however other threads interleave, the machine has the reader where its own operations put it |
| ReaderRuns.NextOpIsEnabled | rs/crates/kikka/src/lib.rs:556-639 | part way through, the next operation of the reader thread is always enabled in the machine |
| ReaderRuns.ReturnedFollowsProtocol | rs/crates/kikka/src/lib.rs:565-637 | once the operations of a stopped reader are interleaved into a run, the machine has it returned under its generation |
| ReaderRuns.ReadingFollowsProtocol | rs/crates/kikka/src/lib.rs:565-637 | likewise a reader still reading stands reading under the generation it drew |
| ReaderRuns.RefusedFollowsProtocol | rs/crates/kikka/src/lib.rs:565-568 | likewise a refused connection stands refused |
| Heartbeat.PingBound | rs/crates/kikka/src/lib.rs:573-622 | with prompt reads a missed ping is noticed no earlier than T and before T + poll after the last complete line |
| Registry.VectorIsBoundedSet | rs/crates/kikka/src/lib.rs:686-719 | in any lock order the PID vector has no duplicates, at most 32 entries, and equals the bounded-set specification |
| Registry.AddRefines | rs/crates/kikka/src/lib.rs:686-708 | one REGISTER adds the PID to the set unless 32 others are there; a re-register is accepted when full |
| Registry.RemoveRefines | rs/crates/kikka/src/lib.rs:709-719 | one UNREGISTER removes exactly that PID |
| Registry.Registered.Register | rs/crates/kikka/src/lib.rs:686-708 | the vector changed in place is that set, and the answer is refused exactly when 32 others are there |
| Registry.Registered.Unregister | rs/crates/kikka/src/lib.rs:709-719 | the vector after a removal |
| Control.Daemon.ProcessControl | rs/crates/kikka/src/lib.rs:684-766 | for any line: ARM alone arms, answered and recorded as new only when it was not; REGISTER and UNREGISTER alone change the set of at most 32 PIDs, with OK, BUSY or an error accordingly; STATUS prints the flag, grace and count; only QUIT ends the connection; every other verb changes nothing and has its fixed reply |
| Control.FindPidIs | rs/crates/kikka/src/lib.rs:514-518 | the PID of a request is that of its first `pid=` word that reads as a u32, and there is none if no word does |
| Text.FirstWordIs | rs/crates/kikka/src/lib.rs:505-511 | the verb is what stands, free of whitespace, after the line's leading whitespace, letter by letter in upper case |
| Control.ParseStatus | rs/crates/rei/src/lib.rs:212-226 | the token loop computes the last-wins field reading of the words |
| Control.FieldIsLast | rs/crates/rei/src/lib.rs:212-226 | a field is that of the last word that starts with its key, if any does |
| Control.StatusAgrees | rs/crates/kikka/src/lib.rs:737-751 | for all armed, grace and registered values the daemon's STATUS reply parses in rei to those same values |
| Control.RequestsAgree | rs/crates/rei/src/lib.rs:128-135 | the texts "REGISTER pid=N" and "UNREGISTER pid=N" parse in the daemon to the same verb and PID for every u32 |
| Control.RegisterEndToEnd | rs/crates/rei/src/lib.rs:128-153 | rei's request is answered OK if and only if the PID exists and is listed or the list has room, and then exactly that PID is added to the set; nothing else changes |
| Control.UnregisterEndToEnd | rs/crates/rei/src/lib.rs:133-153 | rei's request removes exactly that PID and nothing else |
| Control.ArmEndToEnd | rs/crates/rei/src/lib.rs:155-174 | rei's ARM always leaves the daemon armed; it hears OK and the arming is recorded if and only if it was not armed, ALREADY_ARMED otherwise |
| Control.StatusEndToEnd | rs/crates/rei/src/lib.rs:118-125 | rei's STATUS changes nothing and reads back the daemon's arm flag, grace time and number of PIDs |
| Control.AdmissionBound | rs/crates/kikka/src/lib.rs:641-681 | in every interleaving the handler count equals the guards held and at most 16 handlers are past the gate |
| Control.AdmitsExactlyWhileRoom | rs/crates/kikka/src/lib.rs:652-664 | an arriving handler is let in if and only if fewer than 16 guards are held |
| Text.ParseOfDec | rs/crates/kikka/src/lib.rs:514-518 | a printed number parses back if and only if it is within the type's range |
| Text.PlusReads | rs/crates/kikka/src/lib.rs:514-518 | a plus sign may stand before the digits, and there must be some |
| Text.NotANumber | rs/crates/kikka/src/lib.rs:514-518 | any other character anywhere is refused |
| Framing.SplitThenJoin | deadman.py:381-403 | the newline split keeps every byte: joining lines and rest gives the stream back |
| Framing.Reader.OnClientReadable | deadman.py:381-403 | one chunk takes the reader's lines, buffer and drop flag to those of the step function |
| Framing.ChunkIndependentExactlyWithinBound | deadman.py:381-403 | the reader handles exactly the newline split of the stream if and only if no chunk boundary falls where the unfinished line is over the bound |
| Framing.ShortLinesAreChunkIndependent | deadman.py:381-403 | so it does for any split when all lines are at most 8192 bytes |
| Json.RoundTrip | rs/crates/kiroku/src/lib.rs:275-292 | parsing printed text gives back the value printed |
| Json.ParsedTree | rs/crates/kiroku/src/contract.rs:102-102 | whatever the parser accepts is the printed text of a tree with that value |
| Kiroku.SortedKeeps | rs/crates/kiroku/src/lib.rs:275-278 | sorting fields permutes them |
| Kiroku.SortedSorts | rs/crates/kiroku/src/lib.rs:275-278 | distinct keys come out strictly increasing in byte order |
| Kiroku.LessIsByteOrder | rs/crates/kiroku/src/lib.rs:275-278 | the key order is that of the first characters that differ, a proper prefix first |
| Kiroku.PushObject | rs/crates/kiroku/src/lib.rs:275-292 | sorts the fields in place and appends exactly one object's text |
| Kiroku.Render | rs/crates/kiroku/src/lib.rs:295-355 | the line is the text of the record's tree and a newline; `Saying.RecordSays` says what is in it |
| Saying.RecordSays | rs/crates/kiroku/src/lib.rs:295-355 | parsing a rendered line gives exactly this object, for every step: component, contract, time, producer, session, the step's own flags, counters and words for reason, target, kind and via, `served` and `executed` as recorded, and nothing else |
| Kiroku.SessionId | rs/crates/kiroku/src/lib.rs:371-380 | sixteen bytes become 32 lowercase hex digits, two a byte in order |
| Kiroku.ClampMs | rs/crates/kiroku/src/lib.rs:357-369 | times before 1970 become 0, times past 2^53 - 1 become that, and all others are kept |
| RecordText.RecordLine | rs/crates/kiroku/src/lib.rs:295-369 | every record, for all counters and clamped times, is printable ASCII of at most 512 bytes with its newline, has strictly sorted keys in every object, and parses back to its value |
| RecordText.RecordFits | rs/crates/kiroku/src/lib.rs:44-51 | the length bound by decimal-length arithmetic |
| Agreement.AcceptsExactlyTheSayable | rs/crates/kiroku/src/contract.rs:86-207 | a value validates if and only if it is the value of the record of some component, 32-hex session, time up to 2^53 - 1 and step with u32 counters |
| Agreement.PrintsAreDistinct | rs/crates/kiroku/src/lib.rs:295-355 | records of different inputs have different values, so the correspondence is one to one |
| Agreement.RenderedLineIsAccepted | rs/crates/kiroku/src/contract.rs:86-207 | every rendered line passes the validator |
| Agreement.AcceptedLineIsARecord | rs/crates/kiroku/src/contract.rs:86-207 | every accepted line is the text of a tree with a record's value, and a newline |
| Contract.DescribedMap | rs/crates/kiroku/src/contract.rs:46-54 | exact keys with the fields' values determine the object |
| Sink.RecordSink.Emit | rs/crates/kiroku/src/lib.rs:419-437 | a step is appended whole as its rendered line or counted as dropped, and every line ever written passes the validator |
| Counter.CountdownIsExact | rs/crates/motokano/src/counter.rs:52-91 | for any threads and interleaving, with a limit of n `remaining` plus successful exchanges is n, and 0 without a limit; at most one call or disconnect returns true, one has exactly when fired, and any disconnect in the session modes leaves it fired |
| Counter.SpentMeansFired | rs/crates/motokano/src/counter.rs:52-80 | with a limit of n > 0, once n calls have returned and none is in flight, exactly one call or disconnect returned true and nothing remains |
| Counter.NotBeforeTheLimit | rs/crates/motokano/src/counter.rs:52-80 | with a limit of n, fewer than n calls never spend it: none is refused or answered true |
| Counter.ZeroBudgetNeverFires | rs/crates/motokano/src/counter.rs:57-60 | with a limit of zero, or none, no call ever returns true, and a call limit of zero never fires at all |
| Counter.FailedExchangeMeansProgress | rs/crates/motokano/src/counter.rs:61-78 | a failed exchange means the counter strictly dropped since the load |
| Counter.DecrementIsWaitFree | rs/crates/motokano/src/counter.rs:56-79 | under any schedule a call against a limit of n that has had 2n + 1 steps has returned |
| Counter.CallCounter.Decrement | rs/crates/motokano/src/counter.rs:52-80 | alone, a call counts down once and fires exactly at zero if nothing fired before |
| Counter.CallCounter.OnDisconnect | rs/crates/motokano/src/counter.rs:84-91 | fires once in the session modes and never with a call limit only |
| Counter.UninterruptedCall | rs/crates/motokano/src/counter.rs:52-80 | the concurrent call, not interleaved, gives the one-threaded result |
| Tools.ToolRegistry.Lookup | rs/crates/motokano/src/tools.rs:57-63 | nothing exactly when no tool has the name; otherwise the first such tool: the first `len` bytes of its buffer, or its command |
| Tools.ToolRegistry.Describe | rs/crates/motokano/src/tools.rs:67-74 | nothing exactly when no tool has the name; otherwise the saturated position and the kind of the first such tool |
| Tools.ToolRegistry.StaticCount | rs/crates/motokano/src/tools.rs:77-84 | how many tools are static, saturated |
| Tools.ToolRegistry.Wipe | rs/crates/motokano/src/tools.rs:87-93 | every byte of every static value becomes zero and nothing else changes |
| Tools.WipedLookup | rs/crates/motokano/src/tools.rs:57-93 | after a wipe a lookup finds the same tool and zeros of the value's length |
| Server.OneshotServer.CallTool | rs/crates/motokano/src/server.rs:86-151 | for the first tool of that name: a closed server refuses and records an unserved read; a static tool answers its bytes, a command that succeeds its output, each recorded as served and counted down, closing and spawning the exit at zero; a failed command is recorded as not served; an unknown name changes nothing |
| Server.OneshotServer.WipeAndExit | rs/crates/motokano/src/lib.rs:55-103 | the first caller closes, zeroes every static byte, records one wipe with the number of static tools and then a kill if armed or a session end if not, with its reason; any other changes nothing |
| LoneCall.LoneCallAgrees | rs/crates/motokano/src/server.rs:86-151 | a handler of the concurrent machine that nothing interrupts ends with the one-threaded answer and state |
| ExitTheorems.ExitTellsOneStory | rs/crates/motokano/src/lib.rs:55-103 | across handlers, monitor and disconnect one exit call wins, closes before touching a tool, and leaves one wipe and one final record, a kill when armed and a session end when not, with its reason; at the end every static byte is zero |
| ExitTheorems.ExitsHaveReasons | rs/crates/motokano/src/main.rs:122-130 | in every run an exit is for spent calls, for the client's disconnect exactly once the main thread is leaving, or for a lost daemon exactly when the monitor saw it go before the end; the disconnect is counted once, when serving ends |
| ExitTheorems.LookupsAreWhole | rs/crates/motokano/src/server.rs:118-124 | each lookup is of the first configured tool of that name and yields its first `len` configured bytes or `len` zeros, never a mix; a command is never changed |
| ExitTheorems.SpentCallsWereServed | rs/crates/motokano/src/server.rs:138-149 | a wipe for spent calls happens only with a limit of some n > 0 and is preceded on record by at least n served reads |
| OneAtATime.ServesExactlyTheBudget | rs/crates/motokano/src/server.rs:142-149 | with a limit of n > 0, with or without a session, and one call at a time, never more than n are served; between calls a count of n has closed serving and begun its exit exactly when no disconnect fired first, a closed server has served n or is leaving for another reason, and one that still has its client is closed once n are served |
| OneAtATime.ClosedServesNothing | rs/crates/motokano/src/server.rs:101-115 | a call that has not passed the closed check when serving closes never gets a value |
| Secmem.Memory.ZeroizeAll | secmem.py:113-126 | from a safe state no mapped byte is left nonzero, and no unmapped buffer is written |
| Secmem.Memory.Interrupt | secmem.py:105-110 | requires a safe state, so every point between statements where it is called is one; a panic delivered there leaves every mapped byte zero, and otherwise nothing changes |
| Secmem.Memory.Create | secmem.py:145-168 | a positive size gives a zeroed, open buffer registered last |
| Secmem.Memory.Write | secmem.py:199-208 | rejects closed buffers and long data; otherwise the contents are the data and zeroed slack, or only zeros when a panic fell; safe at every interruption |
| Secmem.Memory.Zeroize | secmem.py:223-232 | an open buffer ends all zero; a closed one is left alone |
| Secmem.Memory.Free | secmem.py:236-266 | wipes, unregisters and unmaps once, safe at every interruption; a second call changes nothing |
| Secmem.Session | secmem.py:113-266 | after any sequence of operations with panics anywhere between statements, each buffer holds exactly what the program last put there or only zeros, the former if no panic fell, and the registered buffers are the open ones |

## Left out

- goodnight, kekkai, sienna: foreign calls (mmap, mlock, madvise, seccomp, spawning); a
  secret buffer is a byte array or sequence whose write zero-pads and whose wipe zeroes
  everything, and kills are recorded effects.
- dazai main and motokano main: command-line parsing, start-up order, pidfiles.
- tokio and rmcp: only the order of a handler's own steps is modelled; transport is a
  parameter, and at-most-N serving is stated for one-at-a-time dispatch, as the server
  intends.
- motokano parse_tool_spec, descriptors and run_command: set-up and plumbing around the
  registry; a command's success is a parameter.
- Sockets, file permissions, banners, log lines and error message texts; validation is
  accept or refuse, without its message.
- JSON escapes, whitespace, negative, fractional and exponent numbers, nested arrays: the
  printer never emits them. The value-level validator theorems hold for every JSON value
  of the model's type; the line-level ones for text of that subset.
- Duplicate JSON keys: text trees keep the last, like the library the validator uses.
- The pipe itself: a write of at most 512 bytes is taken whole or not at all.
- Lossy UTF-8 decoding of heartbeat and control lines: a line's verb is a parameter of the
  reader, and control lines are character sequences.
- Generations and clock values are unbounded; the u64 wrap of the generation counter is
  not modelled.
- Thread starts that fail, poisoned locks and the accept loop's error branches.
- The Python panic controller and event loop of deadman.py: the same policy as the
  controller modelled here; only its client framing is modelled.
- The ctypes view and `read` of the Python buffer: they do not change what a panic finds.
- Json.ParsedTree: speaks of the parser modelled here, which takes no whitespace, escapes
  or other numbers; the library the validator uses does.
- Agreement.AcceptedLineIsARecord: likewise; the source also accepts lines with whitespace
  between tokens or escapes in strings, and for those the value-level theorem stands.
- Heartbeat.HandleHeartbeat: takes the verb of a line as a parameter and does not model
  reply failures, which the reader ignores.
- Kiroku.SortByKey: stands for the standard library's sort and is stated by a sort
  function whose output is proved sorted and a permutation.
- Kiroku.Render: the fixed text between the two objects is written field by field
  rather than as one literal.
- Secmem.SecureBuffer: the mapping's bytes are one sequence field of the buffer, so
  aliasing between mappings is excluded by construction.
