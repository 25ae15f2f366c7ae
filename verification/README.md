# Verified model of ignibyte-bridge

ignibyte-bridge keeps named terminal sessions alive: it starts a command on a PTY,
records the run in a metadata file, captures output into three files, and lets later
invocations send input, read output and stop the session. This project models the
parts whose correctness is not visible in one function and proves what they promise.

| files | what they model |
|---|---|
| `metadata.dfy` | the metadata record and every decision taken by looking at one record |
| `lifecycle.dfy` | starts, owners, stops and sends of one session name as a transition system: two locks, a process table with pid reuse and fresh start-time tokens, the FIFO, status-lock sections as separate acquire, load, save and release steps, both start modes |
| `lifecycle_locks.dfy`, `lifecycle_disk.dfy`, `lifecycle_bearers.dfy`, `lifecycle_procs.dfy`, `lifecycle_identity.dfy`, `lifecycle_tokens.dfy`, `lifecycle_points.dfy`, `lifecycle_signals.dfy`, `lifecycle_fifo.dfy` | inductive invariants of that system, one concern a file |
| `lifecycle_runs.dfy`, `lifecycle_theorems.dfy`, `lifecycle_adoption.dfy`, `lifecycle_recycling.dfy`, `lifecycle_progress.dfy` | runs under each assumption, theorems about whole runs, when an adoption gives a run a second owner, when reusing a pid misdirects a signal, progress |
| `lifecycle_answers.dfy`, `lifecycle_stops.dfy`, `lifecycle_exits.dfy` | what each operation answers and why, the `terminate_pid` calls of stops and timed-out starts, what the record says about a run's end |
| `lifecycle_segments.dfy`, `lifecycle_example.dfy` | concrete runs, among them one for each way a promise of the protocol fails |
| `session_store.dfy` | the imperative bodies of the sections, the start wait and `terminate_pid` |
| `cleaner.dfy`, `cleaner_tokens.dfy`, `cleaner_utf8.dfy` | the streaming control-sequence stripper, its meaning as a token list, and UTF-8 |
| `encoding.dfy`, `lines.dfy`, `tail_file.dfy`, `capture.dfy` | UTF-8 and its lossy decoding, line tails, the backward block reader, the capture loop and its three sinks |
| `atomic_write.dfy` | concurrent, crashing `write_atomic` calls over names and inodes |
| `search_path.dfy`, `procinfo.dfy`, `text.dfy`, `wrappers.dfy` | PATH rewriting and lookup, start-time tokens, numerals and white space, shared types |

`dafny verify dfyconfig.toml` checks everything.

## Assumptions of the lifecycle theorems

They are predicates on steps, so a theorem names exactly the ones it uses.

- `InitExclusive`: the save of `initialize_session_files` does not fall between the
  load and the save of a status-lock section. The code does not enforce this: it
  saves under the start lock only (src/session.rs:223-276), although its comment says
  the bumped generation keeps a stale supervisor from touching a newer run.
  `LifecycleExample.GenerationCanFall` is a run in which the generation on disk falls
  from 2 to 1, and `LifecycleTheorems.InitDuringSaveRegresses` says exactly when that
  can happen.
- `Readable`: the start time of a process that has not been reaped can be read.
- `NoRecycling`: no pid is handed out again while a `terminate_pid` call on it may
  still send a signal. `LifecycleRecycling.RecyclingMisdirectsExactly` shows that this
  is exactly what is needed: some continuation misdirects a signal to the new process
  if and only if such a call exists when the pid is handed out.
- `AdoptsOwn`: a direct-mode supervisor adopts the run of the start that spawned it
  (`run_supervisor` takes whatever generation is on disk, src/session.rs:353-362).
  `LifecycleAdoption.OneBearerExactly` shows that this is exactly what keeps each run
  with one owner, or one start that may still create it. It follows when every
  supervisor adopts while its start is still waiting
  (`LifecycleAdoption.TimelyRunsAdoptOwn`).

`Run` is a run without assumptions, `ExclusiveRun` one with the first assumption,
`ReadableRun` and `NoRecyclingRun` have the second and third, `AdoptingRun` has the
first and fourth, and `OrderlyRun` is an `AdoptingRun` that is a `ReadableRun`. A row
below names the kind of run that its theorem needs. Every run may kill direct-mode
supervisors at any step, fail to initialise a session, and fail to spawn a supervisor.

## Where a promise fails, and when it holds

| promise | an input for which it fails | exactly when it holds |
|---|---|---|
| generations on disk never fall | `LifecycleExample.GenerationCanFall` | `LifecycleTheorems.InitDuringSaveRegresses` |
| one owner serves a run | `LifecycleExample.TwoOwnersServeOneRun`, `LifecycleExample.OwnerSpawnedAfterAdoption` | `LifecycleAdoption.OneBearerExactly` for whole runs, `LifecycleAdoption.AdoptionLeadsToTwoOwnersExactly` for one adoption |
| no record stays Starting | `LifecycleExample.LeftStarting` | `LifecycleTheorems.LeftStartingExactly` |
| a send to a Running session finds a reader | `LifecycleExample.SendFindsNoReader` | `LifecycleTheorems.OwnerHoldsFifo` |
| signals hit the process whose token was compared | `LifecycleExample.SignalHitsStranger` | `LifecycleRecycling.RecyclingMisdirectsExactly` |
| the text of a bounded tail is that of the whole file | `TailFile.CapCutsLongLine` | `TailFile.TailIsWholeExactly` |
| a tail of a tail is a tail | `TailFile.TailsOfCrDoNotCompose` | `Lines.TailOfTail` |
| cleaning keeps UTF-8 valid | `CleanerUtf8.TakenByteBreaks` | `CleanerUtf8.Utf8Exactly` |
| the rewritten PATH prefers the local bin directory | `SearchPath.ColonBreaksLookup` | `SearchPath.LookupLawExactly` |
| rewriting a PATH is idempotent | `SearchPath.ColonRepeats` | `SearchPath.RewritingIsIdempotentExactly` |
| macOS start-time tokens are distinct | `ProcInfo.PackCollides` | `ProcInfo.PackIsExact` |
| a returned `write_atomic` leaves no temporary file | `AtomicWrite.LeftoverHappens` | `AtomicWrite.LeftoverExactly` |

`LifecycleTheorems.OwnerHoldsFifo` is about the handle of the run's own owner. Another
process may hold the FIFO as well: an owner of an older run that has opened the new
FIFO and will fail to promote holds it until then, so a send can succeed for a moment
although the forwarder of the run's owner has failed.

## Model

| member | source | states |
|---|---|---|
| LifecycleLocks.LockStep | src/session.rs:204-219 | every step of every actor keeps both locks consistent: the start lock is held exactly from acquisition to the return of a start, the status lock exactly inside a section |
| LifecycleLocks.MutualExclusion | src/session.rs:870-881 | of any two actors at most one is past the start lock and at most one is inside a status-lock section |
| LifecycleDisk.DiskStep | src/session.rs:889-912 | every step keeps the invariant that ties each actor's program point to what the metadata file says about its run, and a Starting record to a start that waits for it or could not spawn its owner |
| LifecycleProcs.ProcStep | src/session.rs:526-530 | every step keeps tokens unique, a child in the process table until its owner waits for it, and gone for good afterwards |
| LifecycleIdentity.NameStep | src/session.rs:434-443 | every step keeps the invariant that each record on disk, in a snapshot or about to be saved names only processes created for its own run |
| LifecycleTokens.TokenStep | src/session.rs:353-362 | if start times can be read, every step keeps the fact that no record has a supervisor pid without its token |
| LifecycleSignals.TargetStep | src/session.rs:770-784 | unless its pid is handed out again meanwhile, the process a `terminate_pid` call works on stays, until its last signal, the one whose token was compared |
| LifecycleRecycling.RecyclingMisdirectsExactly | src/session.rs:804-831 | `ReadableRun`: in any reachable state, when any step hands out a pid, some continuation signals the new process for a claim that names another one if and only if some `terminate_pid` call on that pid had not sent its last signal |
| LifecycleSignals.DeadStep | src/session.rs:804-831 | every step keeps the fact that a stop which dealt with its child without error has left no process with that child's token |
| LifecycleBearers.BearerStep | src/daemon.rs:245-267 | if `InitExclusive` and `AdoptsOwn` hold of it, every step keeps the invariant that no two actors stand for one run, as its owner or as a start that has not spawned one, and that a run without an owner is not Running |
| LifecycleBearers.BorneStep | src/session.rs:223-276 | every step, whoever adopts what, keeps the fact that the run on disk has an owner or a start that may create one or could not |
| LifecycleFifo.FifoStep | src/session.rs:449-471 | every step that meets `InitExclusive`, `Readable` and `AdoptsOwn`, kills included, keeps the invariant that a live owner holds the current FIFO open and that no start clears the way for a new run while another run is live |
| LifecycleFifo.InactiveIsIdle | src/daemon.rs:237-243 | a start that finds the session inactive knows that no owner of the run on disk is alive with an unreaped child, so replacing its FIFO harms nobody |
| LifecycleTheorems.SectionsAreAtomic | src/session.rs:889-912 | the file changes only by a new run's first record with the next generation, or by a section applying its job to the record on disk at that moment and for that run only |
| LifecycleTheorems.RecordsOnlyMoveForward | src/session.rs:429-471 | `ExclusiveRun`: over any stretch of any run the generation never falls, within a generation the status only moves forward, and a stopped run's exit information and child identity are final, for all writers |
| LifecycleTheorems.GenerationsAreFresh | src/session.rs:238-275 | `ExclusiveRun`: two initialisations never store the same generation; the later one is larger |
| LifecycleTheorems.StaleActorsAreHarmless | src/session.rs:898-903 | `ExclusiveRun`: no section step of an owner or marker bound to another run changes the record on disk at all |
| LifecycleTheorems.InitDuringSaveRegresses | src/session.rs:223-276 | `ExclusiveRun`: right after an initialisation some enabled step lowers the generation on disk if and only if some section was between its load and its save |
| LifecycleExample.GenerationCanFall | src/session.rs:223-276 | a concrete run from the empty system in which the generation on disk falls |
| LifecycleExample.TwoOwnersServeOneRun | src/session.rs:326-362 | a run that meets every other assumption in which a supervisor adopts after its start timed out, two owners serve run 2 with live children, and run 2 is marked Stopped over the second one's child, alive |
| LifecycleExample.OwnerSpawnedAfterAdoption | src/daemon.rs:245-256 | a run that meets every other assumption in which a late supervisor is the only owner before and after it adopts run 2, and the owner that the start of run 2 spawns afterwards serves run 2 beside it |
| LifecycleExample.LeftStarting | src/session.rs:153-157 | a failed supervisor spawn leaves the record Starting with the start lock free |
| LifecycleExample.SignalHitsStranger | src/session.rs:804-850 | in a run in which start times can be read, a child is reaped and its pid handed out again after the token was compared, and the stop signals the new process |
| LifecycleExample.SendFindsNoReader | src/session.rs:585-600 | a send to a Running session with a live child finds no reader once the owner's forwarder has failed |
| LifecycleExample.ToRunning | src/session.rs:423-471 | a start in daemon mode can reach a Running session whose owner holds the FIFO |
| LifecycleTheorems.LeftStartingByFailedSpawn | src/session.rs:153-157 | `ExclusiveRun`: whenever nobody holds the start lock, a Starting record belongs to a start that could not spawn its owner |
| LifecycleTheorems.LeftStartingExactly | src/session.rs:294-348 | `AdoptingRun`: with the start lock free the record is Starting exactly if its run has such a start and nobody has stopped it |
| LifecycleTheorems.NeverLeftStarting | src/session.rs:294-348 | `ExclusiveRun`: if no spawn has failed, the record is never Starting while nobody holds the start lock |
| LifecycleTheorems.StartResults | src/session.rs:294-348 | `ExclusiveRun`: the record a start reports was on disk at some moment of the run; it reports success only after seeing its own run Running, or Stopped with exit code 0, a stopped start only after seeing it Stopped with another code or none, and a failed or timed-out wait only with its run Stopped on disk |
| LifecycleAnswers.AnswersAreSettled | src/session.rs:109-165 | `Run`: every answer of a start, stop or send, but a failed stop, was settled by a step of the caller that found what the answer says: the start lock taken, a Running record with a live process, a failed initialisation or spawn, a record that is Running or Stopped with exit code 0, one Stopped otherwise, a finished marking section, no record, a record that is not Running, no FIFO, a FIFO with or without a reader |
| LifecycleAnswers.SettledAnswersAreGiven | src/session.rs:577-600 | `Run`: conversely, from such a step on the caller answers just that and nothing else |
| LifecycleAnswers.LooksConclude | src/session.rs:294-323 | a look of a waiting start ends the wait with success exactly on a record that is Running or Stopped with exit code 0, with a failure exactly on one Stopped otherwise, and on no other |
| LifecycleStops.TimedOutStarts | src/session.rs:311-347 | `Run`: a start that has timed out polled 50 times and took one last look, found its record Starting each time, and has looked at the supervisor and then at the child of that record, calling `terminate_pid` on each exactly if its process was alive |
| LifecycleTheorems.RefusedStartsFoundALiveRun | src/daemon.rs:237-241 | `ReadableRun`: a start is refused as already running only if a child or supervisor process of the Running run it found exists at that moment |
| LifecycleTheorems.StoppedRunsAreNotResurrected | src/session.rs:464-471 | `ExclusiveRun`: if run g is stopped or replaced before its owner's promote section loads the record, g is never Running in any continuation and the owner never serves it |
| LifecycleTheorems.FinishedOwnersHaveReaped | src/session.rs:500-530 | `Run`: on every exit path a finished owner has closed its FIFO and waited for its child, whose token never appears again |
| LifecycleExits.OwnersLeaveAsTheySaw | src/session.rs:366-369 | `Run`: once an owner has waited for its child, or its set-up has failed, its only section from then on is the one that records that exit status and code, or that error and no code |
| LifecycleExits.OwnersStopTheirRun | src/session.rs:889-912 | `Run`: that section stores its record exactly if the one it loaded is of the owner's run and not Stopped |
| LifecycleExits.ExitIsRecorded | src/session.rs:889-912 | `ExclusiveRun`: if that section is the one that stops the run, every later record of the run is Stopped with exactly that exit status and code |
| LifecycleExits.OwnersKillFirst | src/session.rs:525-530 | `Run`: on its error path an owner kills its child before it waits for it |
| LifecycleExits.DeadOwnersWereKilled | src/session.rs:353-370 | `Run`: an owner that stops short of its final section was killed |
| LifecycleTheorems.SettledForGood | src/session.rs:889-912 | `ExclusiveRun`: a run that is stopped or replaced stays so, and is never Running again |
| LifecycleTheorems.StopSettles | src/session.rs:758-802 | `ExclusiveRun`: from the moment a stop returns Ok on a snapshot of run g, g is Stopped or replaced in every later state |
| LifecycleStops.StopAnswers | src/session.rs:758-802 | `Run`: a stop that has ended looked once and found no record, or a Stopped one and answered Ok, or another one, and then it has looked at the child and at the supervisor of that record, calling `terminate_pid` on each exactly if its process was alive, and it failed if and only if one of these calls ended in an error; otherwise it answered Ok after a section in which it marked the run stopped |
| LifecycleStops.CallsEndExactly | src/session.rs:804-831 | `Run`: a call of `terminate_pid` ends exactly at an error of a signal, at the 20th probe in a row that still finds the pid after SIGKILL, at a probe that finds it gone, or when neither signal found anything; SIGKILL comes only after 20 probes that found the pid |
| LifecycleTheorems.StopKillsFirst | src/session.rs:770-801 | `ReadableRun`: when a stop saves its Stopped record, the child recorded in its snapshot is dead and reaped |
| LifecycleTheorems.StopOfRunningKillsOwnersChild | src/session.rs:770-801 | `OrderlyRun`: with a Running snapshot that child is the one the run's owner spawned, so a live session is never marked Stopped by a stop |
| LifecycleTheorems.RecordsNameOwnChildren | src/session.rs:434-443 | `Run`: in every reachable record the child pid is present exactly with its token and both belong to a child spawned for that generation |
| LifecycleTheorems.SignalsHitOwnProcess | src/session.rs:770-784 | `NoRecyclingRun`: whenever a stop or a timed-out start signals a pid guarded by a token, a child claim hits a child and a supervisor claim a supervisor of the snapshot's own run, if anything; a child claim always has a token |
| LifecycleTheorems.EverySignalHitsOwnProcess | src/session.rs:770-784 | `NoRecyclingRun`, `ReadableRun`: if start times can be read, every signal hits a child or a supervisor of the snapshot's own run, if anything |
| LifecycleTheorems.OwnerHoldsFifo | src/session.rs:449-471 | `OrderlyRun`: while the disk says Running and the run's child is unreaped, the run's owner has a FIFO open if and only if it was not killed and its own set-up or forwarding has not failed, and what it has open is then the current FIFO |
| LifecycleTheorems.NobodyFailed | src/session.rs:473-500 | `Run`: only its own failed set-up after promotion or its own failed forwarder makes an owner count as failed |
| LifecycleTheorems.SendFindsReader | src/session.rs:577-600 | `OrderlyRun`: a send that opens the FIFO while the run is Running with its child unreaped always finds a reader unless that run's own owner has failed or was killed, under any interleaving of starts, stops, kills and owners |
| LifecycleAdoption.OneOwnerPerRun | src/daemon.rs:245-267 | `AdoptingRun`: no two owners are ever bound to the same generation |
| LifecycleAdoption.OneBearerExactly | src/session.rs:353-362 | `ExclusiveRun`: in no state of the run do two actors stand for one run, as owner or as a start that has not spawned one, if and only if every supervisor that adopts finds the generation of its own start on disk |
| LifecycleAdoption.AdoptionKeepsOneBearerExactly | src/session.rs:353-362 | `AdoptingRun`: as long as that was so, the next adoption leaves each run with one such actor if and only if the generation on disk is that of the supervisor's start |
| LifecycleAdoption.AdoptionLeadsToTwoOwnersExactly | src/session.rs:353-362 | `AdoptingRun`: as long as that was so, the next adoption leads to two owners of one run, in some continuation without another foreign adoption, if and only if the generation on disk is not that of the supervisor's start and the start of that other run has not failed to spawn |
| LifecycleAdoption.TimelyRunsAdoptOwn | src/session.rs:353-362 | `ExclusiveRun`: if every supervisor adopts while the start that spawned it still waits, it adopts that start's own run |
| LifecycleProgress.CallersTakeBoundedlyManySteps | src/session.rs:294-348 | `Run`: between any two points of a run a start or a stop takes at most as many steps of its own as its program point has left |
| LifecycleProgress.StartsAndStopsAreBounded | src/session.rs:804-831 | `Run`: a start returns within 156 own steps and a stop within 97, polls and probes included |
| LifecycleProgress.HolderCanMove | src/session.rs:870-881 | an actor inside a status-lock section can always take its next step |
| LifecycleProgress.CallersAreNeverStuck | src/session.rs:870-881 | `Run`: in every reachable state an unfinished start or stop can take a regular step, no failure, or waits for the status lock whose holder can: there is no deadlock |
| LifecycleProgress.OwnersAreNeverStuck | src/session.rs:423-530 | `Run`: in every reachable state an owner that has not finished and was not killed can take a regular step, or waits for its running child, which can exit, or waits for the status lock whose holder can move |
| SessionStore.Store.AdoptRun | src/session.rs:353-362 | adoption has the effect of the protocol's section and returns the generation found on disk |
| SessionStore.Store.RecordChildPid | src/session.rs:429-447 | the child section has the effect of the protocol's section, and fails exactly when the run is not live |
| SessionStore.Store.PromoteRun | src/session.rs:464-471 | the promote section succeeds exactly when the file afterwards says Running at this generation |
| SessionStore.Store.MarkRunStopped | src/session.rs:889-912 | marking stopped leaves another run alone, keeps the first exit information, and ends with this run Stopped |
| SessionStore.SectionAlone | src/session.rs:870-912 | the protocol's four-step section, not interrupted, is the effect of the corresponding method on the file |
| SessionStore.WaitForRunning | src/session.rs:294-348 | the polling loop stops at the first look that is not Starting, succeeds exactly if that look is Running or Stopped with exit code 0, fails with its exit status exactly if it is Stopped otherwise, and gives up only after 51 looks |
| SessionStore.SignalBoth | src/session.rs:833-850 | something was sent exactly if either signal was delivered, nothing was there exactly if both found no process, anything else is an error |
| SessionStore.SignalAnswersAreReal | src/session.rs:833-850 | the answers the protocol allows for a pid in the process table cover those of the two `kill` calls |
| SessionStore.TerminatePid | src/session.rs:804-831 | termination succeeds exactly when a probe finds the process gone or neither signal found anything, and SIGKILL is used exactly when the process outlives every probe after SIGTERM |
| Cleaner.AnsiCleaner.CleanChunk | src/clean.rs:42-46 | a call appends exactly what the chunk means in the state the previous calls left |
| Cleaner.AnsiCleaner.StepByte | src/clean.rs:48-98 | one byte moves the eight-state machine as its transition function says, in place |
| Cleaner.AnsiCleaner.GroundByte | src/clean.rs:100-119 | the text state's handling of CR, LF, tab, controls and text is the transition function's |
| Cleaner.Concat | src/clean.rs:42-46 | cutting a stream into chunks anywhere changes neither output nor final state |
| Cleaner.PendingOnlyInGround | src/clean.rs:48-119 | a deferred CR implies the text state |
| Cleaner.NeverLengthens | src/clean.rs:48-119 | the output with a deferred CR never exceeds the input |
| Cleaner.OutputIsPlain | src/clean.rs:100-119 | the output holds no C0 control but tab and newline, and no DEL |
| Cleaner.CleaningIsIdempotent | src/clean.rs:48-119 | cleaning twice is cleaning once, and the streams left unchanged are exactly the plain ones |
| CleanerTokens.SplitPrintsBack | src/clean.rs:48-131 | every byte string is the print of a well-formed token list |
| CleanerTokens.SplitIsUnique | src/clean.rs:48-131 | that list is the only one |
| CleanerTokens.CleanRendersTokens | src/clean.rs:48-131 | for every well-formed list the cleaner's output is its text, CRLF as one newline, any other CR as a newline, a final CR withheld |
| CleanerTokens.CleanerMeaning | src/clean.rs:48-131 | the cleaner equals the declarative semantics on every byte string |
| CleanerUtf8.Utf8Exactly | src/clean.rs:48-131 | from any state, for valid UTF-8 input the output is valid if and only if no non-ASCII byte stood where a sequence takes any byte |
| CleanerUtf8.Utf8IsKept | src/clean.rs:70-118 | if no ESC is directly followed by a non-ASCII byte, valid UTF-8 stays valid |
| CleanerUtf8.TakenByteBreaks | src/clean.rs:121-130 | a concrete stream of valid UTF-8, an ESC and a two-byte character, whose cleaning is not valid |
| CleanerUtf8.TakenCharBreaks | src/clean.rs:121-130 | a multibyte character whose first byte is taken after an ESC always leaves invalid output |
| Lines.TailLines | src/logs.rs:196-206 | the loop returns the last lines, each followed by a newline |
| Lines.SuffixHasTail | src/logs.rs:185-190 | a suffix with more than n newlines has the last n lines of any stream it ends |
| Lines.WindowHasTailExactly | src/logs.rs:185-206 | the exact condition on prefix and window for the window's last n lines to be the whole stream's |
| Lines.TailOfTail | src/logs.rs:196-206 | tails compose if and only if no line of the result still ends in CR |
| Lines.TailOfTailWithoutCr | src/logs.rs:196-206 | for content without CR tails always compose |
| Encoding.DecodeSplits | src/logs.rs:193 | lossy decoding splits the text at a newline where it splits the bytes |
| Encoding.DecodeKeepsNewlines | src/logs.rs:193 | the decoded text has as many newlines as the bytes |
| Encoding.DecodeLosesNothing | src/logs.rs:193 | on valid UTF-8 the decoded text encodes back to the bytes |
| Encoding.TakesMaximally | src/logs.rs:193 | at every point of any bytes the decoder takes a whole character and shows its code point, or else takes the longest beginning of a character, or else one byte, and shows U+FFFD |
| TailFile.ReadTail | src/logs.rs:156-194 | for every file, count, positive block size and cap the backward reader returns the last lines of the decoded last min(length, cap) bytes, and terminates |
| TailFile.ReadLog | src/logs.rs:157-158 | with the program's constants the result is the tail of the whole decoded file if and only if the file fits the cap or the window meets the condition of `TailFile.WindowHasTextTailExactly` |
| TailFile.TextTailIsWhole | src/logs.rs:156-194 | for every cap it is enough that the file fits the cap or the window has more newlines than lines wanted |
| TailFile.WindowHasTextTailExactly | src/logs.rs:156-206 | the exact condition on prefix and window for the last n lines of the decoded window to be those of the decoded whole: enough lines in the window, and if they are just enough, a first line that decodes to the same text with and without the missing part of that line |
| TailFile.TailIsWholeExactly | src/logs.rs:156-194 | the text of the capped tail is that of the whole file's tail if and only if the file fits the cap or its window meets that condition, for every file, count and cap |
| TailFile.EnoughBytesSuffice | src/logs.rs:156-206 | a window whose last lines are those of the whole stream byte by byte also shows their text |
| TailFile.BrokenCharReadsAlike | src/logs.rs:193 | the converse fails: a window that begins inside a broken character shows the same text without the missing byte |
| TailFile.CapCutsLongLine | src/logs.rs:156-194 | for every cap, a file one byte longer whose capped tail shows less text |
| TailFile.CleanTailsCompose | src/logs.rs:196-206 | tails of any cleaned log compose |
| TailFile.TailsOfCrDoNotCompose | src/logs.rs:196-206 | a concrete line ending in CR CR LF whose tails do not compose |
| Capture.TrimScreen | src/logs.rs:208-222 | the loop that pops blank lines computes the snapshot's specification |
| Capture.SnapshotLines | src/logs.rs:208-222 | a snapshot prints the terminal's lines without white space at their ends and without blank lines at the end, and nothing but white space has gone |
| Capture.TrimIsIdempotent | src/logs.rs:208-222 | trimming a snapshot again changes nothing |
| Capture.HandleChunk | src/logs.rs:84-104 | one chunk reaches each sink whatever the other sinks did |
| Capture.CaptureOutput | src/logs.rs:26-106 | for any chunking and any failing writes each log is what its own writes kept, each sink warned once exactly if it ever failed, and the loop fails exactly on a poll or read error or, with nothing written, when a log cannot be opened |
| Capture.LoopGoesOn | src/logs.rs:45-78 | time-outs, interruptions and non-empty reads do not end the loop: the reads among them are handled in order, and then the rest |
| Capture.LoopHandlesExactly | src/logs.rs:45-78 | the loop handles exactly the reads before the first stop request, poll or read error or empty read, and fails exactly if that is an error |
| Capture.RawLogIsStream | src/logs.rs:84-90 | without raw-log failures the raw log is the stream, whatever happens to the other sinks |
| Capture.CleanLogIsClean | src/logs.rs:92-96 | without clean-log failures the clean log is the one-shot cleaning of the stream, from any state |
| Capture.ScreenIsRendering | src/logs.rs:98-103 | if the last snapshot was written, the screen file is the trimmed rendering of the whole stream |
| Capture.LogsAgree | src/logs.rs:45-106 | with every sink intact the clean log is the cleaning of the raw log and the screen its trimmed rendering |
| AtomicWrite.TempsNeverCollide | src/paths.rs:151-152 | two calls in flight, in whatever processes, never share a temporary file |
| AtomicWrite.InvStep | src/paths.rs:140-172 | every step, failure, failed removal, kill and pid reuse keeps the invariant that a call's temporary file holds what the call has written |
| AtomicWrite.SuccessExactly | src/paths.rs:161-171 | in every run a call has returned Ok if and only if it has replaced its target |
| AtomicWrite.ReadsChangeByRename | src/paths.rs:166-169 | only a rename changes what readers of a target see, and it shows that call's whole contents |
| AtomicWrite.ReadersSeeWholeFiles | src/paths.rs:136-172 | at every moment of every run, leftover temporary files included, a reader of a target sees its initial contents or the full contents of the last call that replaced it |
| AtomicWrite.OpenReadersSeeOneFile | src/paths.rs:136-172 | a reader that has opened a target keeps seeing the same contents however often the file is replaced meanwhile |
| AtomicWrite.ReturnIsDone | src/paths.rs:161-169 | at its return a call leaves its temporary file exactly if there is one and its removal failed, and no call in flight uses that name |
| AtomicWrite.LeftoverExactly | src/paths.rs:161-169 | that stays so in every later state as long as the call's process lives |
| AtomicWrite.LeftoverHappens | src/paths.rs:161-164 | a run in which a call returns an error and leaves its temporary file |
| AtomicWrite.TempNamesDiffer | src/paths.rs:151-152 | the printed temporary names in one directory differ for different targets, process ids or counters |
| SearchPath.EntriesOfRewritten | src/paths.rs:258-277 | the rewritten PATH splits into the local bin directory followed by the other non-empty entries in order |
| SearchPath.LookupFindsFirst | src/paths.rs:280-289 | a bare program is found in the first non-empty entry of the PATH whose path with one slash and the program is executable, and not at all if there is none |
| SearchPath.LookupInOneDirectory | src/paths.rs:280-289 | in a PATH of one directory the candidate is the directory, a slash unless it ends in one, and the program |
| SearchPath.PathsStay | src/paths.rs:280-282 | a name with a slash is not looked up |
| SearchPath.LocalBinIsInHome | src/paths.rs:258-260 | the local bin directory is `.local/bin` below the home directory, with one slash between them |
| SearchPath.RewritingPrefersLocalBin | src/paths.rs:258-289 | a bare program resolves to the local bin directory if executable there, and otherwise exactly as over the original PATH |
| SearchPath.ColonBreaksLookup | src/paths.rs:258-289 | for every local bin directory with a colon there is a lookup for which that fails |
| SearchPath.LookupLawExactly | src/paths.rs:258-289 | it holds for all PATHs, programs and executables if and only if the directory has no colon |
| SearchPath.RewritingIsIdempotent | src/paths.rs:258-277 | rewriting a PATH twice is rewriting it once, for a directory without a colon |
| SearchPath.ColonRepeats | src/paths.rs:258-277 | a directory with a colon, not the last character, is put in front again at every rewriting |
| SearchPath.RewritingIsIdempotentExactly | src/paths.rs:258-277 | for the directory the program uses, rewriting is idempotent for every PATH if and only if the home directory has no colon |
| SearchPath.LocalBinHasColon | src/paths.rs:258-260 | the local bin directory is never empty and has a colon exactly if the home directory has one |
| ProcInfo.ParseReadsField22 | src/procinfo.rs:46-52 | for any command name, with spaces and parentheses, parsing a printed stat line reads field 22, or nothing if there are too few fields |
| ProcInfo.StartTimeRoundTrip | src/procinfo.rs:46-52 | a start time printed in that field comes back |
| ProcInfo.PackKeepsBoth | src/procinfo.rs:33-36 | the packed word holds the low 20 bits of the microseconds and the low 44 bits of the seconds |
| ProcInfo.PackIsExact | src/procinfo.rs:33-36 | two packed words agree if and only if those bits do |
| ProcInfo.PackIsInjective | src/procinfo.rs:33-36 | for seconds below 2^44 and microseconds below 2^20 different times give different tokens |
| ProcInfo.PackCollides | src/procinfo.rs:33-36 | seconds that differ by 2^44 give the same token |

## Left out

- SessionStore.Store.Initialize: generations are natural numbers; the wrap-around of `wrapping_add` at 2^64 starts is not modelled.
- The record's name, directory, command, geometry and time stamps are not modelled, because no lifecycle decision reads them; metadata files that exist but cannot be read or parsed, and saves that fail inside a status-lock section, are not modelled (a failing initialisation is).
- LifecycleTheorems.SignalsHitOwnProcess: says nothing about whom a signal hits when a supervisor was recorded without its token, because `pid_is_ours` then falls back to bare liveness by design; `LifecycleTheorems.EverySignalHitsOwnProcess` shows that this needs an unreadable start time.
- Crashes of starters, stoppers and the daemon are not modelled; a direct-mode supervisor may be killed at any step.
- The effect of SIGTERM and SIGKILL on a process is any exit at any later time; process groups and grandchildren are not in the process table.
- That at most one child per name is alive is not claimed: a stop or a timeout acting on a snapshot taken before the child was recorded breaks it.
- The input forwarder is one step that may fail; the bytes it copies, and what `write_session_bytes` does after a successful open, are not modelled.
- A failure of PTY, descriptor or thread set-up after promotion is one step of the owner.
- Sleeps, timeouts and the two-second drain are counted steps or absent; no real time appears.
- Log rotation, and the truncation of the three output files by `initialize_session_files`, are not modelled, so `AtomicWrite.ReadersSeeWholeFiles` is about files replaced through `write_atomic` only.
- TailFile.ReadTail: a file that changes while it is read is not modelled.
- Capture.CaptureOutput: the terminal emulator is an arbitrary fold over bytes with an arbitrary rendering; a failed log write keeps an arbitrary prefix.
- AtomicWrite.InvStep: the temporary-file counter does not wrap around; permissions and symbolic links are not modelled.
- SearchPath.Resolve: paths are strings without the lossy conversion of non-UTF-8 names, and whether a candidate is executable does not change during a lookup.
- ProcInfo.StartTimeOf: reading the file and calling the macOS kernel interface are not modelled; platforms other than Linux and macOS have no token.
- The libraries for JSON, shell words, PTYs and terminal emulation are not modelled.
- The command line, key tables, the wire protocol, `doctor`, daemon shutdown, and the status and list texts are out of scope.
