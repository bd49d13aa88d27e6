# The CI execution core, modelled and proved in Dafny

This project models the parts of ck-git-hosting through which work and results travel between
parties that do not trust each other: a virtual machine guest and its host, a runner and the
gateway, a client and the control socket, a reviewer and the dependency store, several runners and
one queue. Each part is stated as the code has it, branch for branch, and the properties that make
it trustworthy are proved for every input, every run or every interleaving.

`dafny verify dfyconfig.toml` checks all of it.

## The parts

**VM results** (`SinkOrder`, `FinishReport`, `VmHost`, `VmHostSafety`, `VmRelay`, `VmGuest`,
`VmGuestSink`, `VmAgreement`, `VmJob`). `VmHost.Next` is the host as a machine that takes one guest frame at a
time; `VmRelay.Relay` is the event loop of the source with its own fields and countdowns, proved to
compute that machine. `VmHostSafety` holds against any guest: what reaches the sink follows the sink
order, an artifact comes only after its steps succeeded and with exactly the bytes its event
declared, and a success that is returned was a success. `VmGuest` says which frames each callback turns into,
`VmGuestSink.Sink` sends them as the source does, and `VmAgreement` composes the two ends: every
callback sequence in the sink order comes through unchanged, no end waits for ever, and the honest
terminal report is returned exactly when its text fits into a frame. `VmJob` is the whole job around
that, with a failure possible at every call.

**Runner stream** (`StreamSession`, `StreamChunks`, `StreamLogs`, `StreamReplay`, `StreamLooks`,
`StreamRelay`). `StreamRelay.Session` is the gateway's session object; `StreamSession.Drain` is its
value. Proved: exactly when the way the bytes are cut into reads is irrelevant, a bound on what is
kept between reads, the prefix property of step logs, exactly when an acknowledgement names the
stored size, convergence of a record under broken connections and resends, and that the looks
between the reads disturb nothing.

**Dependency lock and review** (`DependencyLock`, `DependencyJournal`, `DependencyStore`,
`DependencyReview`). The three-colour search over the mutable colour array decides exactly whether
every need is declared, nothing is cyclic and everything is wanted. What the store appends loads
again exactly when the clock allows it, and an admission is alone with its review under the two
file locks.

**Control responses** (`ControlLines`, `StatusResponse`, `RunResponse`, `JobsResponse`, `Placement`,
`LogResponse`, `ExecutionReport`). Printers and parsers are proved inverse to each other, or it is
proved exactly when they are.

**The queue** (`JobQueue`, `QueueRuns`, `QueueOrder`, `OutOfOrder`, `QueueAttempts`). Runners claim,
renew, finish and give back under random tokens while the reaper, other claims, crashes and the
recovery of workflow children come in between. A claim makes all of its checks: dependencies by their
run records, labels, age, locks, protocol version and the rule of one run per ref. A request to finish
looks at the claim first and commits later. Proved over runs: one lease a job, superseded tokens change
nothing for ever, exactly when one group is at work on a project and ref, every way a job leaves the
queue, and exactly what an attempt limit allows. That runs of one ref finish in push order is false;
`QueueOrder` proves which steps break it, that a run is in push order throughout if and only if it has
none of them, and that its commits then come in push order. `OutOfOrder` has three runs that fail.

**The provisioned inventory** (`Inventory`).

`Text`, `Names`, `Labels`, `Records` and `Wrappers` are shared: splitting and joining, canonical
decimals, hexadecimal, byte order, sorting, the identifiers' alphabets, label lists.

## How the source is read

- A string is a sequence of single-byte characters. Text that travels hex-encoded (references,
  details, step names, notes) is a sequence of bytes. `std::uint64_t`, `unsigned` and `int` are the
  subset types `U64`, `U32` and `I32`; where the source wraps, the model wraps.
- A C++ exception is a `Failure` or a `Broken` outcome. In place of clocks, files that fail, and
  other processes, the model has parameters, or takes any answer at all.
- A method that loops or changes fields in the source is a method here, proved equal to a function;
  the lemmas are about the function.

Where the code does not do what its documentation says, the model follows the code:

- `include/ckgit/ci_store.hpp:268-272` says that a project's runs on one ref finish in push order and
  that an older commit can never publish after a newer one, and
  `docs/operations/ci-remote-runners.md:36-39` says the same. It fails in three ways:
  - a simple run that a claim passes over, for a missing label, its age or a lock, is overtaken, because
    only children and unpublished workflows own their place while they wait
    (`src/common/ci_store.cpp:830-841`; `OutOfOrder.NewerFinishesFirst`);
  - a run whose id was drawn first can be queued after a newer one has finished, which is in neither
    directory that queueing looks at (`src/common/ci_store.cpp:649-685`; `OutOfOrder.OlderComesLate`);
  - a request to finish looks at the claim once and commits later without looking again
    (`src/common/ci_gateway.cpp:281-312`), when the claim may be lost and a newer run committed
    (`OutOfOrder.StaleCommitIsLate`).

  `QueueOrder.RunsKeepPushOrderIff` says exactly which runs stay in push order, and
  `QueueOrder.FinishesInPushOrder` that they finish so.
- A claim skips working files that it cannot read (`src/common/ci_store.cpp:820-822`), so that it can set
  a second group to work on a ref; `QueueOrder.RunsKeepOneGroupIff` says exactly when.
- `include/ckgit/ci_store.hpp:323-326` says that giving a job back does not count against the attempt
  limit. `src/common/ci_store.cpp:778` raises the attempt either way, so it does count
  (`QueueAttempts.GivingBackCounts`). A single later lapse ends differently exactly when the give-back
  reached the limit (`QueueAttempts.NextLapseIsSameIff`); over runs giving back is free exactly when the
  reaper had no requeue left anyway (`QueueAttempts.GivingBackIsFreeIff`).
- Giving back has no limit, but a job file with an attempt above 1000 is refused when it is read
  (`src/common/ci_store.cpp:289-293`), so the next claim sets the job aside
  (`QueueAttempts.GivenBackRunsAgainIff`).
- An honest run can end without its result: the terminal report goes through the frame encoder, which
  throws above 256 KiB (`src/common/ci_vm_protocol.cpp:31-32`), and a workflow of 15 jobs with 128
  unnamed steps each has a longer one (`VmAgreement.ReportIsLost`). `VmAgreement.FinishReturnedIff`
  says exactly when a report is returned.
- A log acknowledgement can name more than is stored (`src/common/ci_gateway.cpp:459-472`), after a
  short write or past the cap (`StreamLogs.ShortWriteRunsAhead`, `StreamLogs.CappedLogRunsAhead`);
  `StreamLogs.AckIsExactIff` says exactly when it does not.
- The stream parser refuses a header above 4096 bytes only while the newline is missing
  (`src/common/ci_gateway.cpp:370-374`), so for longer headers the reads do matter
  (`StreamChunks.ChunkingIsIrrelevantIff`).
- A decision taken while the clock stands before 1970 is written but never loads again
  (`DependencyStore.DecisionLoadsIff`), and over runs the records that do not load are exactly those
  with such a decision (`DependencyReview.RecordLoadsIff`).
- The run parser and the execution report parser take numbers the printers never write, so reprinting
  is exact only for canonical ones (`RunResponse.RunReprintsIff`, `RunResponse.NegativeZeroIsRead`,
  `ExecutionReport.ReprintsWhenCanonical`, `ExecutionReport.LeadingZeroIsRead`).
- The placement note cannot be told from text once the cap has cut it (`Placement.StripRestoresIff`).

## Model

| member | source | states |
|---|---|---|
| VmHostSafety.NextInv | src/ci-vm-host-macos/result_relay.cpp:78-226 | every frame, whatever the guest sends, keeps the host and a listener of its sink in agreement: same steps under their expected names, all but the last successful, same outputs, logs and bundles within their limits |
| VmHostSafety.SuccessIsReal | src/ci-vm-host-macos/result_relay.cpp:83-115 | against any guest, a returned success was started, ran every step in order under its name with exit 0 and in time, repeats the terminal report, and no Cancel was ever sent |
| VmHostSafety.EndsByReport | src/ci-vm-host-macos/result_relay.cpp:83-115 | a run is only ever returned on a terminal report that agrees with what was accumulated |
| VmHostSafety.RelayedArtifactIsEarned | src/ci-vm-host-macos/result_relay.cpp:145-183 | against any guest, an artifact reaches the sink only after every step of a job declaring it and of all earlier jobs succeeded, and within the size limit |
| VmHostSafety.OpenedAt | src/ci-vm-host-macos/result_relay.cpp:145-169 | whenever a bundle is being received, an event of this very conversation announced it, only chunks followed, and received and outstanding bytes add up to the declared size, so the unsigned subtraction never wraps |
| VmHostSafety.PutIsAsDeclared | src/ci-vm-host-macos/result_relay.cpp:145-183 | in every conversation with any guest, each artifact put into the sink was announced by one of its events, and its bundle is all bytes of the chunks between that event and the end marker, exactly as many as declared |
| SinkOrder.ArtifactIsEarned | include/ckgit/ci_vm_protocol.hpp:56-73 | in any admitted call sequence an artifact comes after the successful steps of a job that declares it |
| SinkOrder.ScanTells | src/ci-vm-host-macos/result_relay.cpp:119-144 | what a listener knows of the run is what the calls said: finished steps, outputs, log sizes within the cap, no log ahead of its step |
| VmRelay.EventFields | src/ci-vm-host-macos/result_relay.cpp:22-34 | the field-cutting loop yields the space-separated fields, and fails exactly when one is empty |
| VmRelay.Relay.OnArtifact | src/ci-vm-host-macos/result_relay.cpp:145-183 | the artifact branch with its nested receive loop leaves the relay where the host machine is after the same frames |
| VmRelay.Relay.OnFinish | src/ci-vm-host-macos/result_relay.cpp:83-115 | the terminal branch returns the machine's record, or has broken off as the machine has |
| VmRelay.Relay.Run | src/ci-vm-host-macos/result_relay.cpp:79-225 | the event loop over its mutable fields ends as the machine does on the same arrivals, with the same calls and replies |
| VmRelay.RelayResults | src/ci-vm-host-macos/result_relay.cpp:45-227 | the whole relay computes `VmHostSafety.Converse` of the arrivals, so all of the safety lemmas are about it |
| VmRelay.Over | src/ci-vm-host-macos/result_relay.cpp:226-226 | once a conversation is over, later arrivals change nothing |
| VmGuestSink.Sink.Acknowledge | src/ci-vm-guest-macos/result_sink.cpp:21-29 | one answer is read; a cancel or a lost lease is remembered, anything but the three known answers ends the channel |
| VmGuestSink.Sink.AppendLog | src/ci-vm-guest-macos/result_sink.cpp:40-48 | a log is sent as an event and a chunk for each piece of at most 64 KiB, each waited for |
| VmGuestSink.Sink.StepFinished | src/ci-vm-guest-macos/result_sink.cpp:49-54 | the step-end frame of the last completed step, or a refusal when the index is not the last |
| VmGuestSink.Sink.Upload | src/ci-vm-guest-macos/result_sink.cpp:63-79 | a header, the bytes in chunks and an empty end frame, then one wait |
| VmGuestSink.Sink.PutArtifact | src/ci-vm-guest-macos/result_sink.cpp:80-101 | the first free slot declaring the artifact is taken and its frames are sent; refused when none is left |
| VmGuestSink.Sink.Finish | src/ci-vm-guest-macos/result_sink.cpp:126-137 | the terminal frame repeats the record and the outputs handed over so far; a report whose text is over the frame limit is refused and nothing is sent |
| VmAgreement.CallServed | src/ci-vm-guest-macos/result_sink.cpp:34-125 | each callback the sink order allows is answered at every wait by exactly one acknowledgement and passed on |
| VmAgreement.UploadServed | src/ci-vm-guest-macos/result_sink.cpp:63-79 | a chunked upload is taken without an answer in between and the bytes arrive whole |
| VmAgreement.SlotExists | src/ci-vm-guest-macos/result_sink.cpp:83-90 | the guest's slot search finds the slot the host's guard will accept |
| VmAgreement.Faithful | src/ci-vm-guest-macos/result_sink.cpp:34-125 | for every callback sequence in sink order neither end gets stuck and the host's sink sees the same callbacks with the same concatenated log and artifact bytes |
| VmAgreement.CallsFit | src/common/ci_vm_protocol.cpp:28-32 | every frame of an admitted callback is within the frame encoder's limits, so only the terminal report can be refused there |
| VmAgreement.FinishReturnedIff | src/ci-vm-host-macos/result_relay.cpp:83-114 | after such callbacks an honest terminal report is sent, acknowledged and returned as it is if and only if it is within the parser's bounds and its text is at most 256 KiB |
| VmAgreement.ReportIsLost | src/common/ci_vm_protocol.cpp:31-32 | fifteen jobs of 128 unnamed steps under 64-byte names: every callback comes through, the report is honest and within the parser's bounds, and its frame is never sent |
| FinishReport.PrintParsesIff | src/common/ci_runner_protocol.cpp:358-422 | a printed report parses back to itself if and only if it is within the parser's bounds and the 512 KiB limit |
| FinishReport.ParsedIsOk | src/common/ci_runner_protocol.cpp:374-422 | whatever text is parsed, the report is within those bounds: ended status, counts, exit codes, artifact names, retention |
| VmJob.Job.Run | src/ci-vm-host-macos/run_job.cpp:14-80 | whatever fails, the trace stays orderly, and the job publishes unless it stopped for one of the listed reasons |
| VmJob.Job.ShutDown | src/ci-vm-host-macos/run_job.cpp:44-48 | the workspace is removed only after a started VM's stop was confirmed |
| VmJob.NeverRemovedWhileRunning | src/ci-vm-host-macos/run_job.cpp:44-46 | in every orderly trace a confirmed stop lies between a start and any removal |
| VmJob.FinishedAtMostOnce | src/ci-vm-host-macos/run_job.cpp:66-79 | a result is published at most once, a failing attempt included |
| VmJob.FinishIsSafe | src/ci-vm-host-macos/run_job.cpp:70-79 | at a publication every started VM has stopped for sure, the workspace is gone, no shutdown heartbeat failed, and the last look at the lease saw it held |
| VmJob.PublishedIsDue | src/ci-vm-host-macos/run_job.cpp:75-79 | a cancellation seen at the last look is what is published; otherwise it is the guest's result |
| StreamRelay.Session.Consume | src/common/ci_gateway.cpp:368-397 | the consuming loop does to the session's fields what `StreamSession.Drain` says, and keeps the rest it keeps |
| StreamRelay.Session.AppendLog | src/common/ci_gateway.cpp:442-473 | one log frame grows the file and answers as the value says, gap, duplicate, cap and short write included |
| StreamRelay.Session.OnStepEnd | src/common/ci_gateway.cpp:496-512 | a step-end for the next step is recorded, for any other index ignored |
| StreamRelay.Serve | src/common/ci_gateway.cpp:561-579 | reads and the looks once a second, in any order, do to the session what `StreamLooks.Served` says |
| StreamLooks.LooksOnlyAnswer | src/common/ci_gateway.cpp:399-411 | looking changes nothing but what is sent: record, logs, leftover and all answers but the cancel are those of the reads alone, up to the look that finds the lease lost |
| StreamLooks.CancelIsToldOnce | src/common/ci_gateway.cpp:400-404 | a cancel is passed on at most once in a connection, and exactly when a look at the live session saw the request |
| StreamRelay.GreetingTellsSizes | src/common/ci_gateway.cpp:356-365 | the greeting names exactly the sizes of the logs that exist, up to the running step |
| StreamChunks.DrainSplit | src/common/ci_gateway.cpp:368-397 | with short headers, consuming two pieces is consuming their concatenation |
| StreamChunks.ReadsAreOne | src/common/ci_gateway.cpp:561-574 | with short headers, every way of cutting the stream yields the session, the first error and the leftover of one read |
| StreamChunks.LongHeaderTells | src/common/ci_gateway.cpp:370-374 | where a reached header is too long, some cut has another result |
| StreamChunks.ChunkingIsIrrelevantIff | src/common/ci_gateway.cpp:368-397 | chunking is irrelevant if and only if every reached header is short |
| StreamChunks.KeptIsBounded | src/common/ci_gateway.cpp:563-573 | what is kept between reads never exceeds a fixed bound made of the header, frame and read limits |
| StreamLogs.LogStaysPrefix | src/common/ci_gateway.cpp:442-473 | under duplicated, overlapping, reordered or gapped frames and short writes each log stays a prefix of the output within the cap |
| StreamLogs.DrainStaysPrefix | src/common/ci_gateway.cpp:368-397 | the same over a whole buffer of frames |
| StreamLogs.AckIsExactIff | src/common/ci_gateway.cpp:453-472 | an acknowledgement names the stored size exactly when the frame was held already or ends within the cap and was written completely |
| StreamLogs.ShortWriteRunsAhead | src/common/ci_gateway.cpp:459-472 | after a short write two bytes are acknowledged and one is stored |
| StreamLogs.CappedLogRunsAhead | src/common/ci_gateway.cpp:454-472 | past the cap two bytes are acknowledged and one is stored |
| StreamLogs.NextLogStored | src/common/ci_gateway.cpp:442-473 | with complete writes, a runner's next frame is stored or tells it where to continue, and the acknowledgement is the stored size |
| StreamLogs.DeliverLog | src/common/ci_gateway.cpp:442-473 | a runner that continues from each answer gets its whole output stored, in finitely many frames: every acknowledgement is the size stored then, the unsent bytes decrease with each, only the first answer can be a gap; if it believed all was sent, it sends nothing |
| StreamReplay.TravelsOnTrack | src/common/ci_gateway.cpp:475-535 | through any breaks and resends the session's record is explained by prefixes of the frame history |
| StreamReplay.ReplayConverges | src/common/ci_gateway.cpp:442-535 | once the last frame is delivered, record and logs equal those of one undisturbed delivery |
| StreamReplay.ReplayIsNeverStuck | src/common/ci_gateway.cpp:442-535 | the next frame of the history is never refused after any resends |
| DependencyLock.BuildTable | src/common/ci_dependency_lock.cpp:68-102 | the package loop succeeds exactly on valid, distinctly named entries and indexes them by name |
| DependencyLock.Visit | src/common/ci_dependency_lock.cpp:104-114 | the recursive search over the mutable colours terminates on the unvisited packages, extends a topological order, and fails only for a cycle or an undeclared need |
| DependencyLock.CheckGraph | src/common/ci_dependency_lock.cpp:103-118 | passes if and only if every need is declared, there is no cycle and every package is wanted by a direct one; the finish order is topological |
| DependencyLock.OrderedIsAcyclic | src/common/ci_dependency_lock.cpp:104-114 | a topological order of all packages excludes cycles and undeclared needs |
| DependencyLock.UnfinishedIsUnwanted | src/common/ci_dependency_lock.cpp:115-118 | a package left unfinished is not reachable from a direct one |
| DependencyLock.ParsePackages | src/common/ci_dependency_lock.cpp:72-119 | accepts a package list if and only if it is a table whose graph passes |
| DependencyJournal.ReadHistory | src/common/ci_dependency_store.cpp:103-128 | the row loop computes `History` |
| DependencyJournal.HistoryIsContiguous | src/common/ci_dependency_store.cpp:103-128 | every journal that loads is numbered from 1 without a gap, at most 4096 long, about packages of the lock |
| DependencyJournal.RowReadsBack | src/common/ci_dependency_store.cpp:236-241 | a written row reads back as the decision exactly when there is room and the clock is not before 1970 |
| DependencyJournal.JournalAppend | src/common/ci_dependency_store.cpp:234-243 | the old journal and one written row load as the old history and that decision, or not at all |
| DependencyJournal.CommitsIff | src/common/ci_dependency_store.cpp:176-184 | a commit list loads exactly when it is one object id a line, distinct, at most 128 |
| DependencyJournal.CommitsAppend | src/common/ci_dependency_store.cpp:212-217 | a new commit at the end of a list that loads makes a list that loads |
| DependencyStore.ApprovalStatus | src/common/ci_dependency_store.cpp:187-198 | approved exactly when every package's latest decision approves, rejected exactly when some package's latest rejects |
| DependencyStore.DecisionDecides | src/common/ci_dependency_store.cpp:187-198 | after a decision the review is approved exactly when it approves and every other package was approved last, rejected exactly when it rejects or another package was rejected last |
| DependencyStore.LoadedIsBounded | src/common/ci_dependency_store.cpp:167-186 | whatever loads is contiguous, its commits are distinct and at most 128, and its commit file is their lines |
| DependencyStore.CommitLoads | src/common/ci_dependency_store.cpp:211-217 | registering a commit leaves a record that loads with it added, and fails exactly at 128 others |
| DependencyStore.DecisionLoadsIff | src/common/ci_dependency_store.cpp:231-243 | a written decision leaves a record that loads exactly when the clock is not before 1970, with just that decision added |
| DependencyStore.Directory.Register | src/common/ci_dependency_store.cpp:199-219 | the lock is written once and never replaced, then the commit; each write may fail, and what is on disk then is stated |
| DependencyStore.Directory.Decide | src/common/ci_dependency_store.cpp:220-244 | a decision appends one row or changes nothing |
| DependencyReview.StepKeeps | src/common/ci_dependency_store.cpp:199-296 | every step of every process, whatever the clock says, keeps locks compatible, admissions valid, and every record loadable on which no decision was written before 1970 |
| DependencyReview.RunKeeps | src/common/ci_dependency_store.cpp:199-244 | over every interleaving lock bytes never change, and rows and commits are only added behind the old ones |
| DependencyReview.GrownLoads | src/common/ci_dependency_store.cpp:167-186 | between two states of a record that load, the decisions and the commits of the first are a prefix of those of the second |
| DependencyReview.RecordLoadsIff | src/common/ci_dependency_store.cpp:167-244 | a record reachable by any run loads if and only if none of the decisions written to it found the clock before 1970, and is contiguous and within its bounds then |
| DependencyReview.AdmissionHolds | src/common/ci_dependency_store.cpp:277-296 | from its check to its end an admission sees unchanged files: all packages approved, commit and target matching, no decision committed meanwhile |
| DependencyReview.UnapprovedIsRefused | src/common/ci_dependency_store.cpp:290-296 | an admission starts only if every package's latest decision on disk is an approval |
| ControlLines.ResponseLines.NextFields | src/common/ci_control.cpp:80-107 | the moving position yields the next line's fields, or the failure the framing rules name |
| ControlLines.LineIff | src/common/ci_control.cpp:80-107 | a line reads as given fields exactly when it joins them |
| ControlLines.FramedIff | src/common/ci_control.cpp:67-88 | a response is framed as given lines exactly when it is their text within the limit |
| ControlLines.TextField | src/common/ci_control.cpp:38-47 | a text field reads as given bytes exactly when it is their one spelling |
| ControlLines.RunLineIff | src/common/ci_control.cpp:121-149 | a run record reads as a summary exactly when it is the line printed for it |
| ControlLines.AddRecordsIff | src/common/ci_control.cpp:151-157 | bounded appending succeeds exactly when every record can be represented and the text fits |
| StatusResponse.FormatStatus | src/common/ci_control.cpp:175-190 | the printing loops compute `Format` |
| StatusResponse.ParseStatus | src/common/ci_control.cpp:192-226 | the parsing loops over the moving position compute `Parse`, failures included |
| StatusResponse.FormatIff | src/common/ci_control.cpp:175-190 | a report prints exactly when its projects can be represented and the text fits |
| StatusResponse.ParseLinesIff | src/common/ci_control.cpp:192-226 | lines read as a report exactly when they are the lines of that well-formed report |
| StatusResponse.StatusRoundTrip | src/common/ci_control.cpp:175-226 | a text is accepted as a report if and only if the report is well formed (unique projects, newest-first runs, within counts) and prints as that text |
| RunResponse.FormatRun | src/common/ci_control.cpp:228-265 | the printing loops compute `Format` |
| RunResponse.ParseRun | src/common/ci_control.cpp:267-312 | the parsing loops compute `Parse`, failures included |
| RunResponse.StepLineIff | src/common/ci_control.cpp:278-290 | a line reads as a step exactly when it is the step's line but for the spelling of the exit code |
| RunResponse.ArtifactLineIff | src/common/ci_control.cpp:291-309 | a line reads as an artifact exactly when it is the artifact's line and its name is new |
| RunResponse.FormatIff | src/common/ci_control.cpp:228-265 | a run prints exactly when it can be represented and fits |
| RunResponse.RunArrives | src/common/ci_control.cpp:228-312 | a printed run is accepted exactly when its artifact names are distinct and at most 4096, and then it is the run sent, placement folded into the detail |
| RunResponse.RunReprintsIff | src/common/ci_control.cpp:267-312 | an accepted text prints back to itself exactly when its exit codes are canonical |
| RunResponse.NegativeZeroIsRead | src/common/ci_control.cpp:282-285 | a step record with exit code -0 is accepted and never printed |
| RunResponse.DetailComesBackIff | src/common/ci_control.cpp:233-238 | with the placement response a client has the run's own detail back exactly when the note was not cut, or the detail fills the cap and looks like no noted one |
| JobsResponse.FormatJobs | src/common/ci_control.cpp:368-386 | the printing loop over its two sets computes `Format`, and the label list it reads back in between always reads |
| JobsResponse.ParseReport | src/common/ci_control.cpp:388-408 | the parsing loop over the moving position computes `Parse`, failures and the printing at its end included |
| JobsResponse.JobLineIff | src/common/ci_control.cpp:380-404 | a line reads as a job exactly when it is that job's line and its labels are in order |
| JobsResponse.FormatIff | src/common/ci_control.cpp:368-386 | a report prints exactly when its parent is valid, its jobs are at most 64, each can be represented and no name or run comes twice |
| JobsResponse.JobsRoundTrip | src/common/ci_control.cpp:368-408 | a text is accepted as a report if and only if it is printed for it and the labels of each job are sorted and not repeated |
| JobsResponse.JobsArrive | src/common/ci_control.cpp:368-408 | whatever is printed is accepted, and arrives with the labels of each job sorted and not repeated |
| Labels.LabelsReadBack | src/common/validation.cpp:158-179 | a list of at most 16 valid labels is written so that it reads back sorted and without repetitions |
| Labels.LabelsRoundTrip | src/common/validation.cpp:158-179 | a text is read as a list and is that list's own text exactly when it is written for a sorted list of at most 16 valid labels |
| Labels.ReadLabels | src/common/validation.cpp:158-173 | the cutting loop computes `ParseLabels` |
| Placement.StripRestoresIff | src/common/ci_control.cpp:314-332 | stripping the note restores the detail under exactly that condition |
| Placement.CutNoteLosesText | src/common/ci_control.cpp:323-332 | a detail at the cap that ends like a note loses that end |
| Placement.PlacementRoundTrip | src/common/ci_control.cpp:345-366 | a text is accepted as a placement if and only if it is printed for it |
| LogResponse.LogRoundTrip | src/common/ci_control.cpp:410-438 | a text is accepted as a log chunk if and only if it is printed for it and its offset was asked for |
| ExecutionReport.CutFields | src/common/ci_types.cpp:13-20 | the shortening loop yields exactly eight comma-separated fields or fails |
| ExecutionReport.FormatParsesBack | src/common/ci_types.cpp:11-50 | whenever formatting succeeds, parsing gives back that report, commas and digits in the fields included |
| ExecutionReport.FormatSucceeds | src/common/ci_types.cpp:44-50 | formatting succeeds exactly for known values that agree with each other |
| ExecutionReport.ReprintsWhenCanonical | src/common/ci_types.cpp:31-42 | an accepted text reprints exactly when its numbers have no leading zeros |
| ExecutionReport.LeadingZeroIsRead | src/common/ci_types.cpp:31-42 | a report whose memory is written 00 is accepted and never printed so |
| JobQueue.Store.BusyGroups | src/common/ci_store.cpp:817-827 | the loop over `working` collects for every project and ref exactly the groups of the files at work there that can be read |
| JobQueue.Store.PendingGroups | src/common/ci_store.cpp:828-841 | the loops over the spool and the unpublished workflows collect for every project and ref exactly the groups that own their place there |
| JobQueue.Store.CheckNeeds | src/common/ci_store.cpp:856-865 | the loop over the needed runs finds whether one is another's or ended without success, and otherwise whether one is still awaited |
| JobQueue.Store.Decide | src/common/ci_store.cpp:844-902 | the checks of one queued job in their order: readable, cancelled, locked, dependencies, labels, protocol version, age |
| JobQueue.Store.Claim | src/common/ci_store.cpp:795-928 | the scan takes the first job in order that passes all checks and that the rule of one run per ref lets go, under the new lease; it ends in the spool what is cancelled or cannot succeed, with a record that later checks of the same scan see, and sets aside what cannot be read, together with a working copy of that name; it tells how long until a job that only its age holds back is old enough |
| JobQueue.Store.Reap | src/common/ci_store.cpp:1000-1037 | every lapsed lease in turn is requeued or ended, the others are untouched |
| JobQueue.Store.Heartbeat | src/common/ci_gateway.cpp:248-258 | the claim check and the renewal take the lock one after the other, and anything may happen in between: succeeds exactly if the claim was held at the first and the token still owns the lease at the second, and then changes only that lease's expiry |
| JobQueue.Store.Finish | src/common/ci_gateway.cpp:281-320 | the claim check, the commit and the release, with anything in between: releases exactly the lease that the token still owns |
| JobQueue.Store.GiveBack | src/common/ci_gateway.cpp:322-330 | the claim check and the abandoning, with anything in between: gives back exactly the job whose lease the token still owns |
| QueueRuns.RunKeeps | include/ckgit/ci_store.hpp:231-335 | in every reachable state, crashes in the middle of a requeue or a release and recoveries of children included, a job has at most one lease, whose token was issued for it alone, and only readable jobs without a lock are at work |
| QueueRuns.RunKeepsAlone | src/common/ci_store.cpp:649-928 | without such a crash no job is ever in the spool and in `working` at once |
| QueueRuns.CrashIsRepaired | src/common/ci_store.cpp:783-790 | after a crash in the middle of a requeue the job is queued for its next attempt, and the next claim of it replaces a working copy left behind, with its lease |
| QueueOrder.RunsKeepOneGroupIff | src/common/ci_store.cpp:817-880 | while every claim goes by the rule, a run has one group at work on each project and ref throughout if and only if no claim takes a job beside one of another group whose working file it could not read and does not set aside |
| QueueOrder.OlderIsLeftIff | include/ckgit/ci_store.hpp:268-272 | exactly when a claim by the rule leaves an older job of the same project and ref behind: never a child of a workflow that can be read; a simple run if its lock, a missing label or its age holds it back, if another job of the claimed workflow is at work already, or if the scan did not come to it |
| QueueOrder.UnpublishedGoesFirst | src/common/ci_store.cpp:838-841 | by the rule, no claim takes a job while an older workflow of its project and ref is listed as unpublished |
| QueueOrder.StepKeepsOrderIff | src/common/ci_store.cpp:649-926 | nothing that can still finish is older than what is at work or done, and a step keeps it so if and only if it is no claim that leaves an older job open (held back, not reached, unreadable at work, or with a request on its way), no older job that comes late and stays, and no commit of a job beside an older one that is open |
| QueueOrder.RunsKeepPushOrderIff | include/ckgit/ci_store.hpp:268-272 | a run whose claims go by the rule is in push order throughout, counting what is committed or gone from work as well as what is at work, if and only if none of its steps breaks it, each judged before the step |
| QueueOrder.FinishesInPushOrder | include/ckgit/ci_store.hpp:268-272 | in such a run, whatever is committed or leaves work for good at a later step is not older than what did so at an earlier one |
| OutOfOrder.NewerFinishesFirst | src/common/ci_store.cpp:871-871 | a run by the rule throughout in which the later of two pushes to a branch is claimed and committed before the earlier one, which asks for a label, is started; the claim breaks the order |
| OutOfOrder.OlderComesLate | src/common/ci_store.cpp:649-685 | a run by the rule in which the earlier of two pushes is queued after the later one was committed, and is committed all the same; the queueing breaks the order |
| OutOfOrder.StaleCommitIsLate | src/common/ci_gateway.cpp:281-312 | a run by the rule in which a request has found the claim of the earlier push held, that is given up, the later one is committed, and then the request commits; the claim beside the request breaks the order |
| QueueOrder.ClaimsOldest | src/common/ci_store.cpp:808-928 | while any queued job passes all checks, needs no run that is itself queued and may go by the rule, a claim takes one, and none of those is older than it |
| QueueOrder.DelayIsEnough | include/ckgit/ci_store.hpp:278-281 | a claim that takes nothing tells a delay no longer than until any job that only its age holds back, and that needs no queued run, is old enough |
| QueueOrder.DelayIsOfOne | src/common/ci_store.cpp:881-898 | a delay that is told is the rest of the wait of a queued job that only its age holds back |
| QueueRuns.LostIsSuperseded | include/ckgit/ci_store.hpp:231-241 | a lease that no longer carries its token has superseded it |
| QueueRuns.SupersededForever | src/common/ci_store.cpp:930-1079 | a superseded token never changes the queue again, presented for any job, in any later state |
| QueueRuns.LeavesOnlySo | include/ckgit/ci_store.hpp:231-335 | a job is gone from the queue after a step if and only if it is superseded by another being queued or reconciled, an outcome of the scan (which sets aside with an unreadable file the working copy it replaces), given up by the reaper, ended under the current token, a child settled by its journal, or lost its queue file to a crash while it was going out |
| QueueAttempts.AttemptsAreLimited | src/common/ci_store.cpp:750-790 | over any run without crashes the attempt grows by exactly the requeues and give-backs, and the reaper requeues a job at most the limit less its attempt, never beyond what can be read, and never a job with a lock |
| QueueAttempts.AttemptStaysWithin | src/common/ci_store.cpp:750-790 | over every run, crashes in the middle of a requeue included, the attempt exceeds neither its start nor the limit by more than the times its runners returned the job |
| QueueAttempts.FreshJobIsRequeuedWithinLimit | include/ckgit/ci_store.hpp:299-314 | a fresh job is requeued by the reaper at most max_attempts - 1 times in a run without crashes |
| QueueAttempts.NextLapseIsSameIff | src/common/ci_store.cpp:750-790 | whatever the attempt, the limit and the fate, the next lapse ends after a give-back as it would have without it if and only if the give-back did not reach the limit |
| QueueAttempts.PossibleIff | src/common/ci_store.cpp:1000-1037 | a run in which the reaper requeues the job so many times exists if and only if they are at most the limit less its attempt, leave it readable before the last, and it carries no lock |
| QueueAttempts.GivingBackIsFreeIff | include/ckgit/ci_store.hpp:323-326 | over runs: giving a job back leaves the reaper requeues still possible unchanged if and only if none were left |
| QueueAttempts.GivingBackCounts | src/common/ci_store.cpp:750-790 | the case: with two attempts, one give-back leaves none for a lost runner |
| QueueAttempts.GivenBackRunsAgainIff | src/common/ci_store.cpp:289-293 | a job that is given back can be claimed again if and only if its attempt was under 1000 |
| Inventory.ReadLines | src/common/ci_provisioned_inventory.cpp:26-36 | the line loop accepts exactly texts of non-empty lines within the limits |
| Inventory.ReadEntry | src/common/ci_provisioned_inventory.cpp:84-100 | cutting an entry's fields and its mode loop compute `EntryOf` |
| Inventory.EntryIff | src/common/ci_provisioned_inventory.cpp:84-100 | a line reads as an entry exactly when it is that entry's line |
| Inventory.RowsIff | src/common/ci_provisioned_inventory.cpp:81-102 | lines read as entries exactly when they are theirs, the paths strictly increasing |
| Inventory.ManifestIff | src/common/ci_provisioned_inventory.cpp:76-102 | a manifest is accepted exactly when it is the text of its header and of sorted entries |
| Inventory.AllFound | src/common/ci_provisioned_inventory.cpp:120-137 | distinct paths that are all listed are all of the listed ones once there are as many |
| Inventory.CompareTree | src/common/ci_provisioned_inventory.cpp:120-137 | succeeds if and only if tree and manifest list the same paths, each of the declared kind, mode and digest |
| Inventory.Verify | src/common/ci_provisioned_inventory.cpp:70-141 | verification succeeds if and only if the identities fit, the manifest is well formed for the target and the tree is what it says |

## Left out

- Frames of the VM protocol as bytes: frames are values, and a terminal frame is what its text reads as (`VmHost.Content`), so of a hostile guest's text only the report it parses to matters.
- A sink call of the host that throws is the end of the conversation; the heartbeats and ticks the host makes while it waits for a frame or acknowledges are not among the recorded calls.
- The run record's identity fields, and packing and unpacking of Pages archives, which pass as byte strings.
- Temporary files of the relay and of the guest; a bundle is its bytes, and a file that changes while it is read is an ended channel.
- Keep-alive throttling and the last-seen notes of a stream; a renewal that fails ends the session. When a look is due is not modelled: looks may come anywhere between the reads.
- A step-end frame whose exit code is -2147483648 negates INT_MIN in C++, which is undefined; the model wraps.
- The YAML form of the lock, its inputs and the digest: the store takes a parser as a parameter and uses only what `DependencyStore.GoodParser` says.
- Enumerating requests and reading one for display, which take shared locks and change nothing.
- Directory checks, staging files, fsync and flock: each is an atomic change of state, or a step that may not happen.
- The `ci-execution` response, which wraps the execution report proved here.
- Workflow journals and publication: the unpublished parents are an input of a claim, as are the run records, cancel requests, ages and unreadable files it finds; that a journal puts a child back, settles it or lets it supersede others are steps that may happen at any time. Cancel requests to running jobs that are superseded.
- The gateway's early outcomes release unconditionally; they are one step with the claim they follow.
- QueueAttempts.AttemptsAreLimited: for runs without a crash in the middle of a requeue, which can leave a job in both places with two attempts, and in which no journal puts this job back; a simple run has no journal (`QueueAttempts.PlainIsNotRecovered`), a child that its journal recovers starts a new count from its record.
- QueueAttempts.FreshJobIsRequeuedWithinLimit: the same.
- QueueAttempts.PossibleIff: counts the same runs.
- JobQueue.Store.Finish: claims nothing about the content of the run record; that it is committed between the check of the claim and its release is a step of its own in `QueueRuns`.
- JobQueue.Store.Claim: the reconciliation of workflow journals before and after its scan is left to steps of its own, which may come at any time.
- QueueOrder.FinishesInPushOrder: is about jobs; the joint outputs of a workflow, which are published once its children are done, are not modelled, only that a claim waits for those that are listed as unpublished.
- VmJob.Job.Run: the relay inside it is one step with any result; what that result is worth is the subject of `VmHostSafety`.
- File system checks of the inventory (owner, access lists, attributes, links, volume, change while hashing) are one flag of a walked node.
- Inventory.Verify: takes for granted that the walk yields each path once, and a canonical root.
- The native sandbox, Windows service, client and server programs, documentation site and administration tools.
