# Verification of the Hue Entertainment bridge

This project models the part of the Home Assistant integration that turns a TV's Hue Entertainment stream into
light commands, and proves what it keeps over every run: the pause/release protocol, the drain loop that sends one
command at a time, the frame watchdog and the API flags, the frame mailbox, the HueStream parsers, the tolerance
filter, the classic-mode command merge, and pairing.

`dafny verify dfyconfig.toml` checks everything.

## How it is built

The code that changes state is imperative here too. `Engine.dfy` has the class `EntertainmentEngine`, with its slots
in an array and its drain loop in segments from one `await` to the next; `Wiring.dfy` has the handlers of
`__init__.py` and the frame watchdog; `Mailbox.dfy` and `Pairing.dfy` have `FrameMailbox`, `UserStore` and the pairing
handler; `HueStream.dfy` has the parsing loops. Each method is proved equal, on the whole state, to a function of the
old state (`EngineModel.dfy`, `BridgeModel.dfy`). The theorems are about runs of those functions.

- A run is a list of events. An event is one callback or one coroutine segment: a frame, a classic PUT, a start or
  stop, a pause, resume or release call, a timer that fires, a step of the watchdog, a segment of a drain task, the
  continuation of a session end, or time passing. Any event can come at any time it is possible.
- Times are whole milliseconds. A call scheduled for later runs when it is due or at most `lag` after; no bound on
  `lag` is assumed. A cancelled timer never fires. A created task runs only when the loop gets to it.
- Two moments are delicate, and each theorem names the one it rests on, if any. While a session end waits for its
  drain task to unwind, starting a session or a drain loop breaks the single loop (*quiet teardowns*), and starting
  a session breaks the snapshot (*quiet starts*). While the watchdog restores the lights, a session that is started
  goes unwatched (*quiet watchdogs*). `Teardown.dfy` proves each of these to be exact. Suppression, sensors, API flags,
  timers, fairness, conservation and the time bounds of watched sessions hold over every run.

| file | contents |
|---|---|
| `Invariants.dfy` | the inductive invariant and its preservation by every event |
| `Safety.dfy` | release never stuck, silence while suppressed, single loop, no lost wake-up, sensors, API agreement |
| `Suppression.dfy` | what a pause and a release do, in terms of the calls made |
| `Stranding.dfy` | when an update is left without a loop |
| `Idle.dfy` | when a loop that is not used ends |
| `Timed.dfy`, `Deadline.dfy` | time bounds, and the documented release deadline |
| `Teardown.dfy` | where the code falls short, and exactly when |
| `History.dfy` | pausing, restoring and the owner as functions of the call history |
| `RoundRobin.dfy` | bounded bypass |
| `Conservation.dfy` | the fate of every stream update; the tolerance filter |
| `Commands.dfy`, `Translation.dfy` | the colours of a frame; the translation of a PUT body |
| `ClassicMode.dfy` | the classic merge and its declarative meaning |
| `ClassicRuns.dfy` | what is sent for the PUTs of a run |
| `Draining.dfy` | what the loop does to one light, for both ledgers |
| `Marks.dfy` | the mark of a classic command, in runs of frames and PUTs |

## What the code does not keep

- *The documented release deadline.* `docs/pause-release.md` and the docstring of `async_release` promise `seconds` +
  `FRAME_TIMEOUT`. The watchdog polls every `FRAME_WATCHDOG_INTERVAL`, and a frame may come as the grace period ends.
  So the promise is kept for sure exactly when there is no session (`Deadline.DocumentedDeadline`).
  `Deadline.DeadlineMissed` has a concrete run, `Timed.ReleaseEndsInTime` the bound that does hold.
- *Something started while a session end is waiting.* `async_restore_lights` suspends until its drain task has
  unwound, and then resets `_drain_task`, `_drain_running` and `_saved_states`. A session started in that window is
  left without a loop and without a snapshot (`Teardown.LostLoop`), a classic command leaves a loop that
  `_drain_running` does not know about. `Teardown.TeardownWindow` and `Teardown.SnapshotWindow` say exactly when that is.
- *A session started while the watchdog restores the previous one* gets no watchdog of its own
  (`Teardown.WatchdogReuse`; `Teardown.LostWatchdog` has a run), so neither silence nor a release ends it
  (`Teardown.UnwatchedSessionNeverEnds`). These are the only releases without a bound (`Timed.ReleaseEndsInTime`).
- *Frames outside a session* fill slots without starting a loop; `Stranding.NothingIsStranded` says exactly when that happens.
- *The first RGB frame after a flush* is skipped when it is almost black (`Conservation.FirstFrame`): the reference
  value -1 is within tolerance of components up to 14.
- *The sensors* show a pause that has run out until its timer fires (`Safety.SensorsAreFresh`).
- *A PUT that meets a stream update.* The comment in `handle_light_command` has it start afresh. The mark of a classic
  command, `explicit_transition`, survives a flush and an accepted frame, so after a PUT, a pause, a resume and a frame
  the next PUT is merged with the colour of the stream (`ClassicRuns.ColourMergedInRun`). `ClassicMode.FreshStart` has
  the exact condition.

The docstring of `set_link_button` speaks of 30 seconds; the constant is 60, and the model follows it.

## Model

| member | source | states |
|---|---|---|
| `Safety.ReleaseIsNeverStuck` | custom_components/hue_entertainment/entertainment.py:659-709 | In every reachable state, whatever the interleaving: a pending release has exactly one live grace timer, or none while it forces the end of an active session; no grace timer lives otherwise; a pause has exactly one live timer, due when the pause ends; a pause and a release never coexist |
| `Timed.ReleaseEndsInTime` | custom_components/hue_entertainment/__init__.py:279-293 | Over every run, whatever frames keep arriving: later than the latest grace period plus `FRAME_TIMEOUT` plus `FRAME_WATCHDOG_INTERVAL` plus two event-loop delays, a release still pending belongs to an active session without a watchdog; if none is pending, the session has ended or the API reports a stream again; with no session started while the watchdog restores, none is pending |
| `Timed.GraceEndsInTime` | custom_components/hue_entertainment/entertainment.py:697-709 | Over every run: once the latest grace period is over by more than an event-loop delay, a release still pending forces an active session to end |
| `Deadline.DocumentedDeadline` | docs/pause-release.md:104-108 | In any reachable state, for any seconds and any event-loop delay: a release is sure to be over by the documented deadline (seconds plus `FRAME_TIMEOUT` after the call) in all runs that leave it alone if and only if there is no session and the delay is at most `FRAME_TIMEOUT` |
| `Deadline.SessionMisses` | custom_components/hue_entertainment/entertainment.py:697-709 | Every release of an active session can miss it: a run is constructed, with a frame before each poll and one as the grace period ends |
| `Deadline.IdleEndsInTime` | custom_components/hue_entertainment/entertainment.py:701-707 | Without a session a release is over when its grace timer fires, whatever else happens |
| `Deadline.LateLoopMisses` | custom_components/hue_entertainment/entertainment.py:626-629 | Without a session the deadline is missed by an event loop that keeps the grace timer waiting for longer than `FRAME_TIMEOUT`: a run is constructed |
| `Deadline.ForcedDeadline` | custom_components/hue_entertainment/__init__.py:282-291 | With an event loop that is on time, a session whose end is being forced meets a deadline in all runs if and only if the first poll later than the frozen frame time plus `FRAME_TIMEOUT` does |
| `Deadline.OverByLastPoll` | custom_components/hue_entertainment/entertainment.py:697-709 | With an event loop that is on time, a forced session is over by the first poll later than the frozen frame time plus `FRAME_TIMEOUT`, whatever events other than a start, a stop and another release call come |
| `Deadline.LastsUntilLastPoll` | custom_components/hue_entertainment/entertainment.py:308-314 | and it does last until that poll: a run to that very moment is constructed |
| `Deadline.StartAndBoot` | custom_components/hue_entertainment/__init__.py:295-303 | A stream is started and its watchdog begins to sleep (the state the next row starts from, reached from the initial one) |
| `Deadline.DeadlineMissed` | custom_components/hue_entertainment/entertainment.py:623-624 | A concrete release, one millisecond long, that is still pending after the documented deadline |
| `Timed.SilentSessionEndsInTime` | custom_components/hue_entertainment/__init__.py:282-291 | Over every run a watched session is over by the later of `FRAME_TIMEOUT` after its last counted frame (or its opening) and the latest start request, plus `FRAME_WATCHDOG_INTERVAL` and two event-loop delays; with no session started while the watchdog restores, every session is over by `FRAME_TIMEOUT` plus `FRAME_WATCHDOG_INTERVAL` plus two delays after its last counted frame; frames while forcing and starts within a session do not count |
| `Timed.HeardPreserved` | custom_components/hue_entertainment/entertainment.py:308-314 | `last_frame_time` moves exactly when a session is opened and at valid frames that are not forced into silence |
| `Timed.SteadySessionSurvives` | custom_components/hue_entertainment/__init__.py:283-286 | A session whose valid frames are at most `FRAME_TIMEOUT` apart, that is not stopped and not being forced to end, is never auto-stopped, paused or not, released or not |
| `Timed.TimeGoesOn` | custom_components/hue_entertainment/__init__.py:279-284 | From every reachable state, running callbacks that are due (timers and the watchdog) leads to a state in which time can pass: the time bounds do not hold by time standing still |
| `Safety.NoCommandWhileSuppressed` | custom_components/hue_entertainment/entertainment.py:335-339 | While the status stays paused or releasing no light call begins, whatever happens; all slots are clean; the calls still under way are among those under way before, and in a single loop at most one |
| `Safety.SilentStep` | custom_components/hue_entertainment/entertainment.py:735-770 | One event, of any kind, while the status is paused or releasing starts no light call, and adds none to those under way |
| `Suppression.NothingIsSentWhileCalledOff` | custom_components/hue_entertainment/entertainment.py:368-382 | After any run: as long as the calls made keep a pause or a release in force (the latest that counts is a pause still running, or a release is pending), no light call begins, and from the first moment on every slot is clean |
| `Suppression.InputsDoNothing` | custom_components/hue_entertainment/entertainment.py:335-339 | While a pause runs or a release is pending, a frame changes nothing but `last_frame_time`, and a PUT nothing at all |
| `Safety.StatusMeans` | custom_components/hue_entertainment/entertainment.py:397-416 | Which status is shown when, in terms of the fields: a release before a pause, a session before classic mode; driving holds exactly in streaming and classic |
| `Safety.OneLoopAndNoLostWakeup` | custom_components/hue_entertainment/entertainment.py:462-466 | Over runs with quiet teardowns at most one drain loop is alive, `_drain_running` is true exactly when one is, an active session has one, and a parked loop with anything to send has `_wake` set |
| `Safety.QueuedCanBeDrained` | custom_components/hue_entertainment/entertainment.py:782-786 | so what is queued where a loop is running can be drained at once, from every such state |
| `Safety.EndCanComplete` | custom_components/hue_entertainment/entertainment.py:511-529 | and a session end can always be completed: a run of at most two steps is constructed |
| `Safety.AtMostOneTask` | custom_components/hue_entertainment/entertainment.py:462-466 | At most one drain task exists and at most one light call is under way |
| `Safety.CleanIdleExit` | custom_components/hue_entertainment/entertainment.py:774-781 | A drain loop that ends by itself ends outside sessions, as the only loop, with `_drain_running` false, and leaves every slot clean |
| `Idle.EndsWhenIdle` | custom_components/hue_entertainment/entertainment.py:774-781 | A parked loop with nothing to send ends on being resumed if and only if no session is active and its first idle turn is longer ago than `CLASSIC_DRAIN_IDLE` |
| `Idle.UnusedLoopEnds` | custom_components/hue_entertainment/entertainment.py:774-786 | Over every run without session or commands: a parked loop is gone within three such timeouts and two event-loop delays |
| `Idle.UnusedLoopCanEnd` | custom_components/hue_entertainment/entertainment.py:774-786 | and it can end where nothing else is due: a run of time passing and its timeout is constructed |
| `Idle.LoopLasts` | custom_components/hue_entertainment/entertainment.py:771-781 | A loop that has just started or sent something does not end by itself within one timeout, in any run |
| `Idle.SleepsUntilNeeded` | custom_components/hue_entertainment/entertainment.py:736-786 | From any reachable state: a loop that parks has nothing left to send, and in any run in which nothing is queued it is not resumed before its timeout: it does not spin, and skipped frames and ignored PUTs do not wake it |
| `Idle.SleepStep` | custom_components/hue_entertainment/entertainment.py:782-786 | One event wakes the loop only by queueing something |
| `Stranding.NothingIsStranded` | custom_components/hue_entertainment/entertainment.py:903-906 | Over every run: in all its states whatever is queued has a drain loop to send it, or a session end to flush it, if and only if no frame ever changes a light while no session and no loop is alive |
| `Stranding.StrandedStep` | custom_components/hue_entertainment/entertainment.py:903-906 | At any event, an update that was accepted is left in its slot with no drain loop to send it if and only if the event is a frame that changes a light while no session and no loop is alive |
| `Safety.SessionsHaveALoop` | custom_components/hue_entertainment/entertainment.py:468-493 | Over runs in which no session is started while one ends, an active session has its drain task alive and no end waiting, and one end waits at a time |
| `Stranding.FrameStrands` | custom_components/hue_entertainment/entertainment.py:341-343 | The same for one frame: it strands an update exactly when it is valid, not suppressed, accepted for some light, and no loop is alive or being unwound |
| `Safety.SensorsAreFresh` | custom_components/hue_entertainment/entertainment.py:384-416 | Over every run, outside the unwinding of a session end, the status and driving flag last notified differ from the current ones if and only if a pause has run out and nothing was notified since; that lasts no longer than a due callback is kept waiting; driving holds exactly in the statuses streaming and classic |
| `Safety.EndOfReleaseIsTold` | custom_components/hue_entertainment/entertainment.py:680-709 | Whatever event ends a release, listeners are told at once what is so then |
| `Safety.ApiAndEngineAgree` | custom_components/hue_entertainment/hue_api.py:386-399 | Over every run a stream the API reports belongs to an active session, a session the API does not report is being released, and an owner is set exactly when the API reports a stream |
| `History.OwnerFollowsCalls` | custom_components/hue_entertainment/__init__.py:265-307 | Over every run the API reports a stream, of the user of the latest start, unless it was stopped or released since or its session went silent for longer than `FRAME_TIMEOUT` at a poll |
| `Safety.SessionsAreWatched` | custom_components/hue_entertainment/__init__.py:295-303 | Over every run in which no session is started while the watchdog restores, a session is active if and only if its watchdog is alive and watching |
| `Teardown.TeardownWindow` | custom_components/hue_entertainment/entertainment.py:511-530 | Whatever event happens while a session end waits for its drain task to unwind: completing the end leaves the engine consistent if and only if the event starts neither a session nor a drain loop |
| `Teardown.SnapshotWindow` | custom_components/hue_entertainment/entertainment.py:526-529 | and leaves the snapshot right if and only if the event starts no session |
| `Teardown.WaitingIsKept` | custom_components/hue_entertainment/entertainment.py:513-519 | No event other than the restore itself ends that wait |
| `Teardown.LostLoop` | custom_components/hue_entertainment/entertainment.py:513-529 | A concrete run, start, stop, start again, after which a session is active with no drain loop and no snapshot |
| `Teardown.LostWatchdog` | custom_components/hue_entertainment/__init__.py:287-303 | A concrete run with one light, from setup: a session goes silent, the watchdog ends it, and the next one, started while the light is given back and with nothing started while the first one ended, is left without a watchdog |
| `Teardown.WatchdogReuse` | custom_components/hue_entertainment/__init__.py:299-303 | A session is watched once it is under way if and only if it was not started while the watchdog was still restoring the previous one |
| `Teardown.PollDecides` | custom_components/hue_entertainment/__init__.py:282-291 | A poll sleeps on exactly for a session heard in time; for a silent one the watchdog goes on to wait for the drain task if it is alive, else for the lights if anything is to be given back; otherwise it is done |
| `Teardown.RestoreHandsOver` | custom_components/hue_entertainment/entertainment.py:519-541 | and from the drain task to the lights, if anything is to be given back |
| `Teardown.UnwatchedSessionNeverEnds` | custom_components/hue_entertainment/__init__.py:289-291 | Such a session stays unwatched and outlives any silence, and any release stays pending, for as long as the TV neither stops nor restarts the stream |
| `History.PauseFollowsCalls` | docs/pause-release.md:161-174 | At any time of any run the engine is paused if and only if the latest pause, resume or release call that is not ignored is a pause whose time has not run out; pause and resume are ignored exactly while releasing |
| `History.PauseStep` | custom_components/hue_entertainment/entertainment.py:551-603 | One event keeps the pause deadline equal to the one the call history gives |
| `History.RestoreFollowsSessions` | custom_components/hue_entertainment/entertainment.py:468-549 | Over runs in which no session is started while one ends, what is reproduced are, session by session, the states of all its lights known to Home Assistant when it was opened, in slot order; for unreleased sessions only, in order, each at most once; a restart within a session changes nothing; until then the saved snapshot is that, absent exactly when it was released |
| `History.RestoreStep` | custom_components/hue_entertainment/entertainment.py:526-535 | One event keeps that correspondence with the ledger of sessions, unless it starts a session while one ends |
| `RoundRobin.BoundedBypass` | custom_components/hue_entertainment/entertainment.py:736-773 | From any state of any run in which a light waits, and as long as it waits (available, not flushed, one loop alive), fewer sends begin than there are lights, no more than lie cyclically between the light being served and it, all to other lights, each closer to it than the one before |
| `RoundRobin.ApproachingAreDistinct` | custom_components/hue_entertainment/entertainment.py:739-770 | so no other light is served twice meanwhile |
| `RoundRobin.NextSend` | custom_components/hue_entertainment/entertainment.py:739-770 | Each resumption of the loop begins a call, of the waiting light or of one strictly closer to it, that carries exactly what that slot held: its service, its data as queued, and the fade due to a stream command |
| `Conservation.UpdatesAreConserved` | custom_components/hue_entertainment/entertainment.py:448-906 | Over any run of streaming in one colour space, for any light: what its channel asks for is accepted unless within tolerance of what was accepted last; every accepted update has exactly one fate (waiting, sent, superseded, flushed, or discarded while the light was unavailable) and none is lost; only the newest can be waiting, and then the slot holds its colour; the calls made for the light are turn_on calls for the updates sent, in order and once each, with the colour of the channel as it was received and the fade due; and the newest accepted update is within one 8-bit step of what the newest frame asks for |
| `Commands.StreamCommandAsks` | custom_components/hue_entertainment/entertainment.py:893-901 | What a channel asks for: RGB components are the upper bytes of the like-named ones, brightness that of the strongest and at least 1; in XY x and y are exact, brightness the nearest of 255 steps; addressed to the light, and no other key |
| `Commands.ToleranceMeans` | custom_components/hue_entertainment/entertainment.py:861-889 | What is within tolerance, in raw 16-bit units: up to 15 per component, up to 1966 in x and y; in XY nothing is without a reference, in RGB the reference is then -1 |
| `Conservation.FilterMeans` | custom_components/hue_entertainment/entertainment.py:865-889 | The filter skips a channel exactly when that is so of the update accepted last since the flush |
| `Marks.MarkFollowsPuts` | custom_components/hue_entertainment/entertainment.py:743-747 | Over any run, frames and PUTs mixed: `explicit_transition` of a slot is set if and only if a PUT was queued for its light since the drain loop last took the slot |
| `Marks.FrameCallsFade` | custom_components/hue_entertainment/entertainment.py:757-765 | so, after any such run, a call for a light without a PUT since carries the fade due since its last command |
| `Marks.MarkStep` | custom_components/hue_entertainment/entertainment.py:743-747 | One event sets the mark if it queues a PUT, clears it if the drain loop takes the slot, and else leaves it |
| `Conservation.FadeFollowsInterval` | custom_components/hue_entertainment/entertainment.py:757-765 | A stream command is not faded after a flush, and else by the time since the light had its last one, to the nearest tenth of a second between 0.1 and 2 seconds |
| `Draining.SegmentDrains` | custom_components/hue_entertainment/entertainment.py:739-770 | A drain segment starts one call at most; it empties a slot, mark included, only into a call that carries its content, or because its light is unavailable, and otherwise leaves it alone; the reference values stay |
| `Conservation.LedgerStep` | custom_components/hue_entertainment/entertainment.py:735-770 | One event of any kind keeps that ledger and its calls |
| `Conservation.ToleranceInSteps` | custom_components/hue_entertainment/entertainment.py:851-901 | A frame the filter skips asks for a command within one step in every 8-bit component and within 1966 raw units in x and y of the accepted reference |
| `Conservation.FirstFrame` | custom_components/hue_entertainment/entertainment.py:884-889 | After a flush the first frame is skipped if and only if it is RGB and no component exceeds 14; in XY mode it never is |
| `ClassicRuns.PutsAreConserved` | custom_components/hue_entertainment/entertainment.py:735-839 | Over any run without streaming, for any light: the PUTs that are not suppressed fall, in order and with none missing, into batches, each sent, flushed, or discarded while the light was unavailable, and the ones still queued, whose meaning the slot holds; the calls made for the light are those for the batches sent, in order and once each: turn_off exactly if the batch means off, else turn_on, with exactly the keys of its meaning |
| `ClassicRuns.LedgerStep` | custom_components/hue_entertainment/entertainment.py:735-839 | One event of any kind but a valid frame keeps that ledger and its calls |
| `ClassicMode.QueueMeaning` | custom_components/hue_entertainment/entertainment.py:803-839 | For any list of PUTs into any slot addressed to its light, the slot ends up with the later-wins merge of all translated commands if there is no off; otherwise with the last off alone, unless an explicit on follows it, and then with the merge starting at the first such on; what the slot held as a classic command counts as the first of them |
| `ClassicMode.FreshStart` | custom_components/hue_entertainment/entertainment.py:822-826 | A PUT takes the place of a stream update waiting in the slot if and only if `explicit_transition` is clear, or the PUT is an off, or it sets every key the update did |
| `ClassicRuns.ColourMergedInRun` | custom_components/hue_entertainment/entertainment.py:822-826 | A concrete run of the other case: a PUT, a pause, a resume, a frame with a colour and a PUT leave the frame colour in the classic command |
| `ClassicMode.ColourMergedWithPut` | custom_components/hue_entertainment/entertainment.py:448-460 | The same for the slot alone: the mark of a PUT survives a flush and an accepted frame |
| `ClassicMode.MeaningSnoc` | custom_components/hue_entertainment/entertainment.py:822-833 | That meaning grows by one PUT exactly as the merge code does |
| `ClassicMode.QueueOneMore` | custom_components/hue_entertainment/entertainment.py:819-837 | The slot that statement is about is the one obtained by merging one body after the other |
| `ClassicMode.MergeStep` | custom_components/hue_entertainment/entertainment.py:822-837 | One merge into a slot that holds the meaning of the earlier PUTs |
| `Translation.RaisesOnBadColour` | custom_components/hue_entertainment/entertainment.py:145-179 | A PUT body is refused exactly when it is no off and the colour it is read for is not numeric |
| `Translation.OffIsOff` | custom_components/hue_entertainment/entertainment.py:154-156 | An off is an off with a transition at most, whatever else the body says |
| `Translation.OnHasKeys` | custom_components/hue_entertainment/entertainment.py:157-179 | The keys an on sets, by what the body has: xy before hue and saturation before colour temperature |
| `Translation.NothingToDo` | custom_components/hue_entertainment/entertainment.py:176-177 | The bodies that come to nothing |
| `Translation.BrightnessIsNearest` | custom_components/hue_entertainment/entertainment.py:157-162 | Brightness: the nearest of 255 steps to one of 254, from 1, unreadable values at full |
| `Translation.XyIsExact` | custom_components/hue_entertainment/entertainment.py:163-165 | xy as given |
| `Translation.HueAndSaturationAreNearest` | custom_components/hue_entertainment/entertainment.py:166-169 | Hue in degrees and saturation in percent, to the nearest hundredth, one of them alone with its default |
| `Translation.KelvinIsNearest` | custom_components/hue_entertainment/entertainment.py:170-175 | Mired to the nearest kelvin, an even one in the middle of two |
| `HueStream.RoundTrip` | custom_components/hue_entertainment/entertainment.py:112-142 | Parsing a printed frame, v2 or v1 with at least one channel, gives back version, colour space and channels; fewer trailing bytes than a channel change nothing |
| `HueStream.PrintsBack` | custom_components/hue_entertainment/entertainment.py:83-142 | Every accepted frame has (length - header) / channel size channels, all in range, and printing them reproduces its bytes up to a trailing partial channel |
| `HueStream.Accepted` | custom_components/hue_entertainment/entertainment.py:119-140 | A frame is accepted if and only if it begins with the magic and is of version 2 with a whole header or of version 1 with a header and a channel; version and colour space are bytes 9 and 14 |
| `HueStream.V2ChannelBytes` | custom_components/hue_entertainment/entertainment.py:83-94 | Channel by channel, the bytes a version 2 channel is read from |
| `HueStream.V1ChannelBytes` | custom_components/hue_entertainment/entertainment.py:97-109 | and a version 1 channel |
| `Mailbox.EveryInterleaving` | custom_components/hue_entertainment/entertainment.py:182-220 | Under every interleaving of any number of producer threads with the event loop: what comes out is an in-order subsequence of the puts, none twice; puts = delivered + in hand + coalesced + stored; while the loop is open a stored frame has exactly one callback queued or about to be and no callback finds the slot empty; and open or closed the scheduled mark stands for a callback or a producer, so that no put is kept from asking for one |
| `Mailbox.DeliversTheFreshest` | custom_components/hue_entertainment/entertainment.py:214-220 | Each delivery takes the freshest frame put so far |
| `Mailbox.NothingIsLeftBehind` | custom_components/hue_entertainment/entertainment.py:199-212 | Once producers and loop are at rest, the last frame put has been handed over |
| `Mailbox.StepKeeps` | custom_components/hue_entertainment/entertainment.py:199-220 | Each locked section, scheduling, refusal, hand-over and the closing of the loop keep the mailbox invariant |
| `Pairing.EveryRequestInTimeIsAnswered` | custom_components/hue_entertainment/hue_api.py:482-502 | Over any interleaving, for any device: there are as many answers, given or waiting for the store to be saved, as there were requests inside the link window: each of those succeeds once, and no other does |
| `Pairing.WindowDecides` | custom_components/hue_entertainment/hue_api.py:482-502 | A request is refused if and only if the window is closed; in an open one the reply has the credentials of the latest user of the device if there is one, and else the new ones, by which the store then knows the name |
| `Pairing.WindowFollowsPresses` | custom_components/hue_entertainment/hue_api.py:109-118 | Over any interleaving the window is open exactly for a minute from the last press that was not taken back |
| `Pairing.PairingIsIdempotent` | custom_components/hue_entertainment/hue_api.py:457-502 | Over any interleaving of requests, saves and link-button presses, with fresh generated names: all successful replies to one devicetype carry the same credentials, and the store maps that name to that key in the final state, whatever happened in between |
| `Pairing.OutcomeKeeps` | custom_components/hue_entertainment/hue_api.py:460-464 | Users are only ever appended, and every reply given or pending is the latest user of its devicetype |
| `Pairing.ActKeeps` | custom_components/hue_entertainment/hue_api.py:482-495 | One action keeps that, and adds a user only on a request inside the link window |
| `Pairing.OnlyWhilePressed` | custom_components/hue_entertainment/hue_api.py:109-118 | Once the window is over and the button is not pressed again, no sequence of requests changes the users |
| `Pairing.KeyOfAdded` | custom_components/hue_entertainment/user_store.py:44-53 | Looking a key up after adding a user finds the user added, and everybody else as before |
| `Pairing.AddedInPlace` | custom_components/hue_entertainment/user_store.py:44-47 | A name that is added again keeps its place, and everyone else theirs |
| `Pairing.LatestIsLast` | custom_components/hue_entertainment/user_store.py:55-61 | The user found for a devicetype is the last of those who have it |
| `Invariants.EngineInvPreserved` | custom_components/hue_entertainment/entertainment.py:297-839 | Every event keeps the timer, release, suppression and slot invariants; every event of a quiet teardown keeps the session, loop, wake-up and sensor invariants as well |
| `Invariants.SensorPreserved` | custom_components/hue_entertainment/entertainment.py:384-416 | Every event keeps listeners told of all that changes the status, except a session end that waits for its drain task |
| `Invariants.SessionPreserved` | custom_components/hue_entertainment/entertainment.py:468-529 | Every event keeps a session its snapshot and its drain task, unless it starts a session while one ends |
| `Invariants.ApiPreserved` | custom_components/hue_entertainment/hue_api.py:386-399 | Every event keeps API flag, owner and engine session in agreement |
| `Invariants.WatchPreserved` | custom_components/hue_entertainment/__init__.py:257-307 | Every event keeps sessions watched, unless a session is started while the watchdog restores |
| `Invariants.PunctualPreserved` | custom_components/hue_entertainment/entertainment.py:593-593 | No timer is ever overdue by more than the event-loop delay |
| `Invariants.SendCarries` | custom_components/hue_entertainment/entertainment.py:752-768 | The call that is started carries the slot content: service, data, and the fade of a stream command |
| `Invariants.RunInv` | custom_components/hue_entertainment/entertainment.py:297-839 | The invariants hold at the end of every run; those on loops and wake-ups if nothing is started while a session ends, the one on the snapshot if no session is, the one on the watchdog if none is started while it restores |
| `Invariants.InitialInv` | custom_components/hue_entertainment/__init__.py:193-200 | The state after setup satisfies them, whatever lights are configured |
| `Invariants.ScanMeaning` | custom_components/hue_entertainment/entertainment.py:739-751 | What one pass over the slots takes, discards and leaves, field by field: it stops at the first dirty available light, takes the unavailable dirty ones before it, and touches no other slot; a slot taken is clean and unmarked, with references and send time kept |
| `HueStream.ParseV2Channels` | custom_components/hue_entertainment/entertainment.py:83-94 | The loop computes the channel list of the v2 layout |
| `HueStream.ParseV1Channels` | custom_components/hue_entertainment/entertainment.py:97-109 | The loop computes the channel list of the v1 layout |
| `HueStream.ParseFrame` | custom_components/hue_entertainment/entertainment.py:112-142 | Acceptance and result of a frame are those of the parsing specification, which the round trips are about |
| `Mailbox.FrameMailbox.PutLocked` | custom_components/hue_entertainment/entertainment.py:201-207 | Stores the frame, counts the one it supersedes, and says whether a callback is to be scheduled |
| `Mailbox.FrameMailbox.PutRefused` | custom_components/hue_entertainment/entertainment.py:210-212 | Takes the scheduled mark back and changes nothing else |
| `Mailbox.FrameMailbox.DeliverLocked` | custom_components/hue_entertainment/entertainment.py:214-218 | Empties the slot and hands out what it held |
| `EngineClass.EntertainmentEngine.constructor` | custom_components/hue_entertainment/entertainment.py:232-277 | The initial engine, one slot per channel id |
| `EngineModel.ById` | custom_components/hue_entertainment/entertainment.py:239-239 | A dictionary by channel id: ids are distinct |
| `EngineModel.LaterLightWins` | custom_components/hue_entertainment/entertainment.py:239-239 | Every configured light whose id no later one has gets a fresh slot |
| `EngineModel.SlotsAreFresh` | custom_components/hue_entertainment/entertainment.py:239-239 | and there are no other slots |
| `EngineModel.LightsInOrder` | custom_components/hue_entertainment/entertainment.py:239-239 | Lights with different ids keep their order |
| `EngineModel.CaptureIsSnapshot` | custom_components/hue_entertainment/entertainment.py:483-488 | A snapshot has one entry per light Home Assistant knows, in slot order, each that light's state |
| `EngineClass.EntertainmentEngine.ResetMappings` | custom_components/hue_entertainment/entertainment.py:448-460 | Every slot is flushed in place |
| `EngineClass.EntertainmentEngine.EnsureDrainTask` | custom_components/hue_entertainment/entertainment.py:462-466 | Starts and announces a drain loop unless one is running |
| `EngineClass.EntertainmentEngine.OnFrame` | custom_components/hue_entertainment/entertainment.py:297-343 | The whole new state after a frame, for valid, invalid, suppressed and forcing cases; in a pause or a release no slot changes |
| `EngineClass.EntertainmentEngine.ScheduleChannel` | custom_components/hue_entertainment/entertainment.py:841-906 | The slot after the tolerance filter, and `_wake` set exactly when the channel is accepted, with the light asked for its colour |
| `EngineClass.EntertainmentEngine.ScheduleChannels` | custom_components/hue_entertainment/entertainment.py:341-343 | The same for all channels of a frame, in order |
| `EngineClass.EntertainmentEngine.MergePending` | custom_components/hue_entertainment/entertainment.py:819-837 | What merging a PUT into a slot comes to: raised, ignored, or queued with this content |
| `EngineClass.EntertainmentEngine.HandleLightCommand` | custom_components/hue_entertainment/entertainment.py:803-839 | The whole new state after a PUT; in a pause or a release there is none |
| `EngineClass.EntertainmentEngine.AsyncSnapshotLights` | custom_components/hue_entertainment/entertainment.py:468-494 | The whole new state after a session start: kept mid-session, fresh otherwise, with a pending release resolved |
| `EngineClass.EntertainmentEngine.CaptureStates` | custom_components/hue_entertainment/entertainment.py:483-487 | The states of all lights Home Assistant knows, in slot order |
| `EngineClass.EntertainmentEngine.AsyncRestoreLights` | custom_components/hue_entertainment/entertainment.py:496-529 | The whole new state of a session end up to its first suspension, or to its end if there is no drain task to wait for |
| `EngineClass.EntertainmentEngine.AsyncRestoreLightsResumed` | custom_components/hue_entertainment/entertainment.py:519-541 | and of its continuation once the drain task is done |
| `EngineClass.EntertainmentEngine.AsyncPause` | custom_components/hue_entertainment/entertainment.py:551-593 | The whole new state after a pause: flushed slots, fresh deadline and timer, or nothing while releasing |
| `EngineClass.EntertainmentEngine.AsyncResume` | custom_components/hue_entertainment/entertainment.py:595-603 | The whole new state after a resume |
| `EngineClass.EntertainmentEngine.AsyncRelease` | custom_components/hue_entertainment/entertainment.py:605-670 | The whole new state after a release: pause ended, slots flushed, target dropped, grace timer restarted |
| `EngineClass.EntertainmentEngine.CancelPendingRelease` | custom_components/hue_entertainment/entertainment.py:680-688 | The release is resolved, its timer cancelled, and the change announced |
| `EngineClass.EntertainmentEngine.OnPauseExpired` | custom_components/hue_entertainment/entertainment.py:690-694 | The pause is over |
| `EngineClass.EntertainmentEngine.OnReleaseGraceExpired` | custom_components/hue_entertainment/entertainment.py:696-709 | The release begins to force the session end, or is over when there is no session |
| `EngineClass.EntertainmentEngine.DrainPass` | custom_components/hue_entertainment/entertainment.py:739-751 | One pass up to its first send, in place on the slots; the slot it ends at is left clean and unmarked |
| `EngineClass.EntertainmentEngine.SendCommand` | custom_components/hue_entertainment/entertainment.py:752-768 | The call that is started: service, data, and the dynamic transition of a stream command |
| `EngineClass.EntertainmentEngine.DrainTurn` | custom_components/hue_entertainment/entertainment.py:736-786 | One turn of the loop from its top to its next suspension or its end |
| `EngineClass.EntertainmentEngine.DrainLoopSegment` | custom_components/hue_entertainment/entertainment.py:711-788 | The loop from wherever it was suspended to its next suspension or its end |
| `EngineClass.EntertainmentEngine.DrainLoopCancelled` | custom_components/hue_entertainment/entertainment.py:722-730 | The unwinding of a cancelled loop, whose `finally` runs only if it had started |
| `Wiring.HueEntertainment.constructor` | custom_components/hue_entertainment/__init__.py:191-257 | The initial state of engine, API flags and watchdog |
| `Wiring.HueEntertainment.OnEntertainmentStart` | custom_components/hue_entertainment/__init__.py:295-303 | API flag and owner set, session started, a watchdog created unless one is alive |
| `Wiring.HueEntertainment.OnEntertainmentStop` | custom_components/hue_entertainment/__init__.py:305-307 | Watchdog cancelled, flags cleared, session end begun |
| `Wiring.HueEntertainment.StopEntertainmentSession` | custom_components/hue_entertainment/__init__.py:265-277 | The teardown shared by the TV and the watchdog |
| `Wiring.HueEntertainment.HandleRelease` | custom_components/hue_entertainment/__init__.py:117-126 | API flags cleared and the engine released |
| `Wiring.HueEntertainment.WatchdogWakes` | custom_components/hue_entertainment/__init__.py:282-291 | One poll: stop, auto-stop a silent session and wait for whatever its end waits for, or sleep again |
| `Wiring.HueEntertainment.RestoreContinues` | custom_components/hue_entertainment/entertainment.py:519-541 | A session end goes on, and with it the watchdog if it is the one that waits for it |
| `Wiring.HueEntertainment.ClearEntertainment` | custom_components/hue_entertainment/hue_api.py:104-107 | The stream flag and its owner are cleared |
| `Wiring.HueEntertainment.Handle` | custom_components/hue_entertainment/__init__.py:257-312 | Each event that can happen does to the objects what the state machine says, so every run of the state machine is a run of the methods |
| `Pairing.UserStore.Add` | custom_components/hue_entertainment/user_store.py:44-47 | Adds or replaces the entry of that name; names stay distinct |
| `Pairing.UserStore.GetPsk` | custom_components/hue_entertainment/user_store.py:49-53 | The key of that name |
| `Pairing.UserStore.GetByDevicetype` | custom_components/hue_entertainment/user_store.py:55-61 | The most recently added user of that devicetype |
| `Pairing.HueApiServer.SetLinkButton` | custom_components/hue_entertainment/hue_api.py:113-118 | The button is active for exactly `LINK_BUTTON_TIMEOUT` from now, or not at all |
| `Pairing.HueApiServer.HandleCreateUser` | custom_components/hue_entertainment/hue_api.py:479-502 | Users and reply of a pairing request: refused if and only if the window is closed, else the latest credentials of the device, or new ones that are added |

## Left out

- DTLS and OpenSSL, HTTP routing and responses, mDNS, UPnP, config flow, options, entities and diagnostics: a thread that puts arbitrary bytes into the mailbox, and the start, stop, PUT, release and pairing handlers, are what is left of them.
- Unload and shutdown of the entry: they cancel the watchdog and end the session through the modelled path, with nothing running after.
- Light service calls and `async_reproduce_state` are modelled as beginning and later finishing; whether they succeed, fail or time out changes nothing in the engine. The end of a restore is the event `WatchdogRestored` where the watchdog waits for it.
- Two session ends that wait for the same drain task: the one that goes on first is taken to be the watchdog's, if it asked for one of them; it takes a session started in a teardown window.
- Two drain loops alive at once share one wake-up event, and which of them it wakes is not modelled; it takes a loop started in a teardown window.
- An exception other than cancellation out of the drain loop: the service call's own are caught there, and `states.get` does not raise.
- A cancelled drain task ends at its next resumption; a light call that resists cancellation is not modelled.
- `settle_seconds`: a sleep after all state changes.
- Frame and command counters, FPS logging, log-once flags and `status_attributes`: no behaviour rests on them.
- Floating point: colours are exact rationals, transitions whole tenths of a second, brightness the nearest integer; a rounding of `hs_color`, of a dynamic transition or of a tolerance comparison that floats decide differently at an exact boundary is not modelled.
- JSON numbers that are not finite, and JSON bodies that are not objects; a PUT body is its seven relevant keys, each absent, a number, or something `int` and `float` refuse.
- The `LightMapping` objects are records held by value in the engine's array; nothing else holds a reference to one, so no aliasing is lost.
- The lock of the user store: its sections run as one step each, and the DTLS thread only reads.
- Generated user names are assumed to be new; keys are not assumed to be anything.
- Conservation.UpdatesAreConserved: streams in one colour space, without classic commands; the two share the reference values and `explicit_transition`, which survives a flush, so mixed runs have no such ledger.
- RoundRobin.BoundedBypass: while the light waits; a flush, a cancellation or the light being unavailable ends the claim.
- Deadline.ForcedDeadline: for an event loop without delay; with one the polls drift, and `Timed.ReleaseEndsInTime` has the bound.
- ClassicRuns.PutsAreConserved: runs without valid frames, for the reason given for `Conservation.UpdatesAreConserved`.
