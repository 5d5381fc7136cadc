# Models of the Vigil add-ons

A Dafny 4.11 model of the stateful and format-critical parts of three Vigil add-ons (burn-in, snapraid,
zfs-manager), with proofs about whole runs, all inputs and all interleavings. `dafny verify
dfyconfig.toml` checks everything.

Eight components are modelled, each in a few modules of its own.

- **Burn-in jobs.** `JobTables` holds the agent's locked maps as classes, one critical section per
  method. `JobRuns` interleaves those sections for any number of jobs, aborts and polls. `BurninJob` is
  one burn-in and the full pipeline built on it.
- **SnapRAID engine and maintenance pipeline.** `SnapraidEngine` is the try-lock with its abort slot and
  the scheduler's job mutex, interleaved. `Gates`, `Pipeline`, `PipelineSafety` and `PipelineEffects` are
  the gated run: what it may do, its effects, their order and its history rows for every outcome of every step.
- **Tokenizers.** `Tokenizer` drives the two split functions through the growing buffer of
  `bufio.Scanner` with arbitrary reads, and compares them with the plain splitting of the summaries.
- **zpool create.** `PoolSpec` validates by the rules of `PoolRules`, `SortedKeys` and `PoolArgs` emit,
  `PoolDecode` groups the words of a layout into vdevs, `PoolGrammar` says which layouts are accepted,
  `PoolCommand` reads the whole argv back, `PoolWizard` starts from the request.
- **iostat.** `IOStatText` reads and prints rows, `IOStatTree` says what tree a row stream means,
  `IOStatParse` is the parser, `IOStatRates` the rate table of the hub.
- **Hubs.** `ZfsHub`, `ZfsPoolRuns` and `ZfsEvents` (frame cache, pool notices, event protocol), `BurninHub`, `BurninHubRuns` and
  `Ring` (per-job state, lifecycle, log ring), `SnapraidHub` and `SnapraidHubRuns` (jobs, gate failures,
  SMART warnings, liveness).
- **Replication.** `Replication` chooses the base, runs and cleans up; `ReplicationRuns` follows any
  history of runs.
- **Devices.** `Devices` relates partitions and disks as both add-ons do; `AvailableDisks` is the filter
  for new pools.

`Text` and `Common` hold what they share. Code that changes state step by step is modelled as classes and
methods whose contracts give the new state as a function of the old one; the lemmas are about those
functions, folded over runs of any length.

## Conventions

- What the outside world decides (commands, tools, the database, docker, the network, the clock, the
  order in which a Go map is walked, how a pipe cuts its data) is a parameter or a nondeterministic choice,
  so every theorem holds for all of it.
- A critical section is one step. One processed hub frame is one step.
- Strings are sequences of Unicode code points, the tokenizers work on bytes. `splitOutput` decodes
  runes first, which makes no difference because its delimiters are ASCII. Upper and lower case are ASCII.
- Integers are unbounded except where the code saturates: counters are parsed with the 64-bit limit.
  Rates and percentages are real numbers.
- A read from a pipe delivers at least one byte or the end of the data.
- `zfs send | zfs receive -F` may roll newer snapshots of the destination away but never the base; when
  the receive completes the new snapshot has arrived with its name and creation time; a full receive that
  does not complete changes nothing. A run that reports success has arrived, but a run can also report
  an error of the sending side although its receive completed.
- The reader of `zpool create` argvs is modelled on construct_spec of OpenZFS, which is not part of this
  model: role keywords, groupings, once-only log, cache and spare, mirrors only under log, special and
  dedup, minimum and maximum group sizes, and options recognized wherever they stand. It refuses draid
  layouts, which are never emitted. What it leaves out is listed at the end.
- A pool member is a whole disk or a partition named by the kernel's rule: the number follows the disk's
  name, after a `p` if that name ends in a digit.
- Events, jobs, agents and snapshots in the run models have opaque ids.

## Where a promise needs a condition

Each of these is an exact condition, proved for all inputs, or comes with a concrete run.

- The scanners agree with `splitOutput` exactly when no line reaches the scanner's 64 KiB limit.
- Job ids have one-second resolution. Per-device exclusion does not need fresh ids, but aborts do: a
  late unregistration strands a newer live job exactly when that job has the same id. Locks and jobs stay
  inverse exactly as long as no two jobs that hold drives share an id. Ids carry the sanitized base name of the
  device, so that takes two devices whose base names differ at most in characters that are sanitized.
- A started job is found by every poll exactly when records are persisted or it is still active.
- A busy probe holds the engine mutex for a moment and can make a command fail as locked.
- The pipeline ignores the exit codes of diff and smart, and reports a completed maintenance whatever
  the scrub returned. A deletion override also skips the update limit.
- A history row stays running exactly when the database did not report its id or did not complete it.
- The argv means the spec exactly when stripes come first, no device is named like a keyword or an option,
  keys hold no `=`, ashift is not given twice, there is at most one log, one cache and one spare vdev, log and special vdevs are stripes
  or mirrors, and no raidz is wider than 255. The validator checks none of these. A wizard request always
  has its stripe first and at most one vdev of each role.
- The comment on `parseIOStat` counts dedup among the vdev prefixes; the code opens a new pool.
- The comment on `PreviousIOStat` promises the sample of the immediately preceding frame; the code keeps
  the latest earlier one.
- The ring respects its capacity exactly from ten up.
- Every resilver seen to begin is reported exactly when the pool is in each evaluated frame right after one
  that shows it resilvering; a pool missing from one frame loses the notice. The expansion notices of
  a pool add up to its growth exactly when what it lost in view equals what it gained out of view.
- The burn-in hub tells phases apart by phase and detail joined by a bar; two phases can be confused exactly
  when the name of one goes on after that of the other with a bar.
- All ZFS events that reach the hub are notified exactly when no two evaluated one right after the other
  share an id; a frame delayed past a newer one makes the hub repeat an event.
- A job history lists a started job exactly when records are persisted or the job is still active.
- The SnapRAID hub's completion carries the start's trigger exactly when the job was shown by a single frame,
  or had no trigger.
- The next replication run is incremental from the newest snapshot that arrived and that no later act took away
  from either side. So it is incremental from the last arrival exactly when no cleanup has destroyed that
  since, and from the last run that reported success exactly when its snapshot is still on both sides and
  every later arrival, from a run that reported an error, is not. A run falls back to a full send when the
  destination cannot be listed.
- Rates times gaps add up to a counter's growth exactly when it lost across rated gaps what it gained across the
  gaps that cannot be rated: no time between the stamps, a stamp that does not parse, or a row not shown.
- Reading a device back from its partition path works exactly when the path contains nvme or loop or does
  not end in a digit.
- `parentDiskName` leaves a name unchanged exactly when it does not look like a partition; it gives the whole
  disks loop0 and pmem0 the parents loo and pmem.
- The disk of a pool member partition is kept from being offered exactly when its name ends in a digit
  just if it starts with nvme, mmcblk or loop, or when something else puts it in use: pmem0 is offered while
  pmem0p1 is a pool member.
- Whatever a disk's name, neither it nor a partition of it is offered, once it holds an actual pool member, exactly
  when the listings put both the disk and the parent its partitions are given in use: pmem0p1 is offered even when
  the whole disk pmem0 is a reported member. For disks whose names conform that is when the topology listing or
  the path listing names the disk. Both are best effort: when they fail, member disks are offered.

## Model

| member | source | states |
|---|---|---|
| JobRuns.AtMostOneJobPerDevice | burn-in/internal/jobs/manager.go:130-177 | under every interleaving of critical sections, and even if job ids collide, at most one job goroutine is live per device |
| JobRuns.ExclusiveAlways | burn-in/internal/jobs/manager.go:470-508 | every lock belongs to exactly one job that holds its drive, at every moment of every run |
| JobRuns.AlwaysInverseIff | burn-in/internal/jobs/manager.go:149-161 | over any run, `driveLocks` and `jobs` are inverse at every moment exactly when at no moment two jobs that hold drives share an id |
| JobRuns.LocksAndJobsInverse | burn-in/internal/jobs/manager.go:149-161 | if an id stands for one device, though possibly for many jobs, `driveLocks` sends a device to an id exactly when `jobs` sends the id to a job on that device |
| JobRuns.AbortReachesTheJob | burn-in/internal/agent/api.go:270-295 | with fresh ids, aborting a live job by id looks up that very job's cancel function, in both registries |
| JobRuns.AbortCancelsTheJob | burn-in/internal/agent/api.go:270-295 | with fresh ids, an abort of a live job can still cancel exactly that job after anything that happens in between, and no job is ever cancelled whose cancel function was not looked up |
| JobRuns.UnregisterKeepsAbortable | burn-in/internal/jobs/manager.go:498-508 | finishing a job leaves every live job abortable exactly when no live job shares its id |
| JobRuns.ReusedIdLosesAbort | burn-in/internal/jobs/manager.go:546-550 | a second start within the same second, same command and device, ends live but without an abort entry: a concrete run |
| JobRuns.StartedJobIsFound | burn-in/internal/jobs/manager.go:219-232 | once StartJob has returned, a poll finds the id exactly when the job was active at the first read or records are persisted, whatever happens between the two reads |
| JobRuns.FinishedJobPollIsFinal | burn-in/internal/jobs/manager.go:498-504 | with fresh ids, a poll that misses the active map returns the job's own record with a terminal status: the one status its own run saved at its end |
| JobRuns.StartedJobIsListedOnce | burn-in/internal/jobs/manager.go:273-295 | a history assembled at two different moments lists a started job exactly once if records are persisted or the job is still active at the first read, and not at all otherwise |
| JobRuns.DoAll | burn-in/internal/jobs/manager.go:130-177 | taking the actions of any run on fresh objects leaves job manager, abort registry and persistence in the state the run ends in |
| JobTables.ListAllJobs | burn-in/internal/jobs/manager.go:273-295 | every id that is active or persisted is listed once, an active one with its active record, in any enumeration order |
| JobTables.JobPersistence.AllRecords | burn-in/internal/jobs/persist.go:84-93 | every stored record exactly once |
| JobTables.JobPersistence.SaveState | burn-in/internal/jobs/persist.go:34-40 | the entry is replaced even when the file cannot be written |
| JobTables.JobManager.Claim | burn-in/internal/jobs/manager.go:130-159 | a locked drive is refused with its owner and nothing changes; otherwise job and lock are recorded together |
| JobTables.JobManager.Release | burn-in/internal/jobs/manager.go:500-504 | exactly the job's entry and its drive's lock are dropped |
| JobTables.AgentAPI.RegisterJob | burn-in/internal/agent/api.go:118-122 | the id now maps to this cancel function |
| JobTables.AgentAPI.UnregisterJob | burn-in/internal/agent/api.go:125-129 | the id is gone, whoever registered it |
| BurninJob.RunBurnin | burn-in/internal/jobs/burnin.go:51-85 | for every outcome outside, exactly which phases are entered, which error is returned and whether the destructive scan is started; without an error the job passes exactly when both self-tests passed, no bad block was found and the final delta, if taken, is not degraded, and its fail reasons name exactly what went wrong |
| BurninJob.Job.Aggregate | burn-in/internal/jobs/burnin.go:334-365 | verdict and reasons as a function of what the phases found |
| BurninJob.Job.RunBadblocks | burn-in/internal/jobs/burnin.go:201-281 | when the scan phase ends without an error and what it counts |
| BurninJob.Job.RunSmartExtended | burn-in/internal/jobs/burnin.go:284-331 | the final snapshot is optional: only a snapshot that was taken can degrade the verdict |
| BurninJob.JobRecord.RunFullJob | burn-in/internal/jobs/manager.go:394-448 | PRECLEAR is entered exactly after a passed burn-in and no cancellation; each terminal status has its exact condition |
| BurninJob.JobRecord.RunToEnd | burn-in/internal/jobs/manager.go:298-320 | every full job ends in exactly one terminal status and is completed only if both halves passed |
| BurninJob.JobRecord.HandlePhaseError | burn-in/internal/jobs/manager.go:452-466 | a failed phase ends the job as cancelled or failed depending on the context |
| SnapraidEngine.MutualExclusion | snapraid/internal/engine/executor.go:138-186 | at every moment of every interleaving at most one snapraid command process and one pipeline run, and the process belongs to the mutex holder; the version query, which takes no mutex, is not one of the commands |
| SnapraidEngine.DoAll | snapraid/internal/engine/executor.go:138-186 | taking the actions of any run on a fresh engine leaves mutex and abort slot as the run ends |
| SnapraidEngine.AbortSlot | snapraid/internal/engine/executor.go:92-104 | the abort slot is set only while its owner holds the mutex, and Abort finds nothing exactly outside the armed window |
| SnapraidEngine.AbortHitsWhatItRead | snapraid/internal/engine/executor.go:92-104 | an abort cancels the call whose function it read, never one that began later, however late it fires |
| SnapraidEngine.RefusedIff | snapraid/internal/engine/executor.go:138-145 | a command is refused exactly when another call or a busy probe holds the mutex |
| SnapraidEngine.ProbeRefusesCommand | snapraid/internal/engine/executor.go:83-89 | a busy probe alone can make a command fail as locked: a concrete run |
| SnapraidEngine.Engine.RunCommand | snapraid/internal/engine/executor.go:138-186 | a locked engine is left untouched; every other way out frees the mutex and clears the slot |
| SnapraidEngine.Engine.IsBusy | snapraid/internal/engine/executor.go:83-89 | reports whether the mutex was held and leaves it as it was |
| Gates.SmartGateIff | snapraid/internal/scheduler/gates.go:34-51 | passes exactly when no disk has a FAIL or PREFAIL status, in letters of any case, nor reaches the failure probability, otherwise blames the first that does |
| Gates.DiffGateIff | snapraid/internal/scheduler/gates.go:56-82 | the exact condition on deletions, updates and the add/delete ratio |
| Gates.UpdateLimitBypass | snapraid/internal/scheduler/gates.go:58-79 | a run over its update limit is let through exactly when it is also over its deletion limit and compensated |
| PipelineSafety.SyncOnlyAfterGates | snapraid/internal/scheduler/pipeline.go:43-132 | a sync is issued exactly when the config gate passed, touch exited with 0 or 2, diff and smart ran, every disk is healthy, deletions and updates are within limits, and the pre-sync hook succeeded in this run, once, and after all of them |
| PipelineSafety.BlockedRunIsHarmless | snapraid/internal/scheduler/pipeline.go:43-132 | a run that may not sync touches no container and issues no sync, scrub or fix |
| PipelineSafety.ContainersRestored | snapraid/internal/scheduler/docker.go:16-41 | whatever the sync did, each container is unpaused and started after it as often as it was paused and stopped before it, and never otherwise |
| PipelineSafety.AfterSyncIff | snapraid/internal/scheduler/pipeline.go:134-184 | scrub and the success notice happen exactly after a sync that exited with 0 or 2, a fix exactly when the scrub then exited with 2 and auto-fix is on |
| PipelineSafety.ReportExitCodesIgnored | snapraid/internal/scheduler/pipeline.go:66-90 | the exit codes of diff and smart have no influence on whether a run may sync |
| PipelineSafety.HistorySettled | snapraid/internal/scheduler/pipeline.go:257-353 | no inserted row is left running exactly when every insert added no row or reported its id and was completed |
| PipelineEffects.EffectsIff | snapraid/internal/scheduler/pipeline.go:43-184 | exactly which commands, hooks, container actions and notices a run shows, for every literal outcome of every step |
| PipelineEffects.RunIsOrderly | snapraid/internal/scheduler/pipeline.go:43-184 | a run goes through its stages in one order, and every command is directly followed by the notice of its outcome |
| PipelineEffects.ContainersActedOn | snapraid/internal/scheduler/docker.go:16-41 | each action is applied to exactly the configured containers in their order in a run cleared to sync, and to none in any other |
| PipelineEffects.RowsIff | snapraid/internal/scheduler/pipeline.go:257-353 | with a working database exactly which rows with which status a run leaves: success for 0, warning for 2, aborted when refused, error otherwise; with any other database those or rows left running |
| Pipeline.Runner.RunMaintenance | snapraid/internal/scheduler/pipeline.go:43-184 | effects and history rows of a run, for every outcome of every step |
| Pipeline.Runner.RunStep | snapraid/internal/scheduler/pipeline.go:257-343 | when a step passes, what it emits and which row it leaves |
| Pipeline.Runner.RecordGateFailure | snapraid/internal/scheduler/pipeline.go:346-353 | a gate failure leaves one aborted row, or none without an id |
| Pipeline.Runner.ManageContainers | snapraid/internal/scheduler/docker.go:16-29 | pause all, then stop all, in order |
| Pipeline.Runner.RestoreContainers | snapraid/internal/scheduler/docker.go:31-40 | unpause all, then start all, in order |
| Pipeline.Runner.RunScrubOnly | snapraid/internal/scheduler/pipeline.go:187-219 | the scheduled scrub, with its optional fix |
| Tokenizer.Scan | snapraid/internal/engine/executor.go:277-284 | for every way the input is cut into reads the driver delivers the tokens of the whole input: all of them with scanCR, the non-empty ones with splitOnCRLF |
| Tokenizer.ScanCRSplit | snapraid/internal/engine/executor.go:194-204 | the split function consumes one delimiter per token |
| Tokenizer.SplitOnCRLFSplit | burn-in/internal/drive/exec.go:73-94 | the split function consumes a run of delimiters |
| Tokenizer.TokensAgree | snapraid/internal/scheduler/summary.go:178-182 | the non-empty tokens equal splitOutput of the whole output exactly when no line reaches 65536 bytes; otherwise they are a prefix and the scan reports the long line |
| Tokenizer.LongLineLost | snapraid/internal/scheduler/summary.go:178-182 | a line that fills the buffer yields no token where splitOutput yields one field |
| Tokenizer.FieldsConserve | snapraid/internal/scheduler/summary.go:178-182 | the fields are non-empty, free of line feeds and carriage returns, and spell the input without both |
| PoolCommand.CommandReadsBackIff | zfs-manager/internal/agent/pool_create.go:302-326 | for every validated spec, the argv read by the modelled grammar means the spec exactly when its property keys hold no `=`, `ashift` is not given both on its own and among the pool properties, no device is named like a keyword or an option, no stripe data vdev follows a redundant one, and the layout is grammatical |
| PoolCommand.AshiftTwiceNotRead | zfs-manager/internal/agent/pool_create.go:307-312 | an `ashift` given both ways is emitted twice and refused |
| PoolCommand.OptionNamedDeviceRefused | zfs-manager/internal/agent/pool_create.go:186-193 | a spec with a device named `-n` passes the validator and is never read back |
| PoolCommand.SecondLogNotRead | zfs-manager/internal/agent/pool_create.go:244-262 | neither is a spec with two log vdevs |
| PoolWizard.WizardCommandIff | zfs-manager/internal/agent/pool_create_handlers.go:59-144 | the argv of a valid wizard request means the request exactly when names and keys are clean, ashift is not given twice, log and special vdevs are stripes or mirrors, and no raidz is wider than 255: stripe order and the once-only keywords are never in the way |
| PoolWizard.WizardAnswersForm | zfs-manager/internal/agent/pool_create_handlers.go:59-144 | under those conditions what is read back is what the form asks for: under each role the trimmed non-blank entries of that role's own list, in order and in the requested or default shape, with the form's name, force, ashift and properties |
| PoolCommand.RaidzNotRead | zfs-manager/internal/agent/pool_create.go:156-195 | nor is a spec with a raidz log or special vdev or a raidz of more than 255 devices, all of which the validator lets through |
| PoolDecode.LayoutDecodesIff | zfs-manager/internal/agent/pool_create.go:244-262 | the emitted layout reads back as the vdev grouping exactly when stripes come first |
| PoolDecode.DataDecodeCount | zfs-manager/internal/agent/pool_create.go:244-262 | a misplaced stripe is swallowed: the argv then names strictly fewer vdevs |
| PoolDecode.MirrorSwallowsStripe | zfs-manager/internal/agent/pool_create.go:244-262 | a mirror of two and a stripe of one are run as a mirror of three |
| PoolDecode.AuxDecode | zfs-manager/internal/agent/pool_create.go:229-234 | the words of log, cache, spare and special vdevs group as those vdevs whatever role was current before them; whether the layout is accepted is the next rows' matter |
| PoolGrammar.LayoutReadsIff | zfs-manager/internal/agent/pool_create.go:244-262 | the emitted layout is accepted and read as what the spec means exactly when stripes come first and there is at most one log, cache and spare vdev, only stripes and mirrors under log and special, and no raidz wider than 255 |
| PoolGrammar.AuxAccepted | zfs-manager/internal/agent/pool_create.go:229-234 | the auxiliary words alone are accepted exactly when each of their vdevs is and log, cache and spare come at most once |
| PoolGrammar.TwoLogsRefused | zfs-manager/internal/agent/pool_create.go:244-262 | the second `log` word is refused: a concrete layout |
| PoolCommand.OptionsRead | zfs-manager/internal/agent/pool_create.go:304-319 | the option segment reads back as the wanted options, ashift being one of the pool properties |
| PoolCommand.OnlyCleanCommands | zfs-manager/internal/agent/pool_create.go:304-319 | no accepted argv at all can express a key with `=` or a device named like a keyword or an option |
| PoolArgs.BuildCreatePoolArgs | zfs-manager/internal/agent/pool_create.go:302-326 | the executed argv |
| PoolArgs.BuildCreatePoolCommand | zfs-manager/internal/agent/pool_create.go:206-237 | the preview is the space-join of the binary and exactly the executed argv |
| PoolArgs.AppendVdevArgs | zfs-manager/internal/agent/pool_create.go:244-262 | appends the arguments of the vdevs of one role, in order |
| SortedKeys.SortedKeys | zfs-manager/internal/agent/pool_create.go:267-278 | whatever the map order, the result is the one ascending enumeration of the keys |
| SortedKeys.InsertionSort | zfs-manager/internal/agent/pool_create.go:272-276 | the in-place sort leaves an ascending permutation |
| SortedKeys.EnumerationUnique | zfs-manager/internal/agent/pool_create.go:267-278 | a key set has only one ascending enumeration |
| SortedKeys.LessIff | zfs-manager/internal/agent/pool_create.go:267-278 | the order is the lexicographic one: decided by the first difference, a prefix coming first |
| PoolSpec.ValidatePoolSpec | zfs-manager/internal/agent/pool_create.go:96-151 | accepts exactly the valid specs and otherwise reports the first thing wrong |
| PoolSpec.FindDuplicate | zfs-manager/internal/agent/pool_create.go:128-137 | finds a device listed twice exactly when there is one |
| PoolSpec.ValidateVdev | zfs-manager/internal/agent/pool_create.go:156-195 | the role, type, count and name rules of one vdev |
| PoolRules.SpecRules | zfs-manager/internal/agent/pool_create.go:96-195 | the rules of the validator spelled out: letters of the name and reserved words in any case, roles, types with their least number of devices, characters of a device, no two slots with the same device, ashift and mountpoint |
| PoolRules.TrimSpaceIs | zfs-manager/internal/agent/pool_create.go:97 | trimming takes off white space at both ends and nothing else |
| PoolWizard.ToSpec | zfs-manager/internal/agent/pool_create_handlers.go:59-144 | flat form, explicit layout and aliases folded into one spec; explicit maps and layout win |
| PoolWizard.ExplicitPropsWin | zfs-manager/internal/agent/pool_create_handlers.go:69-97 | explicit properties and an explicit layout win; each alias shows up exactly where nothing explicit does |
| PoolWizard.TrimDeviceList | zfs-manager/internal/agent/pool_create_handlers.go:202-211 | compacts the list in place to its trimmed, non-blank devices |
| PoolWizard.TrimmedConcat | zfs-manager/internal/agent/pool_create_handlers.go:202-211 | trimming a list works entry by entry and keeps the order |
| PoolWizard.TrimmedOne | zfs-manager/internal/agent/pool_create_handlers.go:202-211 | an entry is kept trimmed, or dropped exactly when nothing is left of it |
| PoolWizard.ExampleRequest | zfs-manager/internal/agent/pool_create_handlers.go:59-144 | the conditions of the round trip can be met: a mirrored pool of two disks is read back as requested |
| PoolWizard.AllBlankListRefused | zfs-manager/internal/agent/pool_create_handlers.go:115-123 | a list of nothing but blanks still becomes a vdev and the request is refused |
| PoolWizard.HandleCreate | zfs-manager/internal/agent/pool_create_handlers.go:150-197 | nothing invalid or unconfirmed is previewed or run, and a preview shows the argv that would run |
| IOStatParse.ParseIOStat | zfs-manager/internal/agent/iostat.go:89-196 | fails exactly on text without a pool row; otherwise the normal tree that accounts for every accepted row |
| IOStatParse.AddRow | zfs-manager/internal/agent/iostat.go:132-188 | one row advances the open pool and vdev as the tree prescribes |
| IOStatTree.TreeConserves | zfs-manager/internal/agent/iostat.go:89-196 | the preorder of the result is the accepted rows from the first pool row on, in order and once, up to leaf space |
| IOStatTree.FlattenReadsBackIff | zfs-manager/internal/agent/iostat.go:89-196 | parsing the flattening of a tree gives it back exactly for trees in normal form |
| IOStatTree.OnlyReading | zfs-manager/internal/agent/iostat.go:89-196 | a normal tree that accounts for the rows is the parsed one |
| IOStatTree.PrintedTreeParses | zfs-manager/internal/agent/iostat.go:108-127 | from text on: a printed normal tree is parsed back |
| IOStatTree.StripedPoolNests | zfs-manager/internal/agent/iostat.go:149-172 | in a striped pool the second disk is nested below the first |
| IOStatTree.DedupRowIsAPool | zfs-manager/internal/agent/engine.go:1189-1197 | a dedup row opens a new pool although the documentation lists it as a vdev |
| IOStatTree.KindIff | zfs-manager/internal/agent/iostat.go:198-242 | for every name, by its literal prefixes, whether its row is a vdev, a disk or a pool |
| IOStatTree.UsualNames | zfs-manager/internal/agent/iostat.go:202-242 | numbered nvme namespaces, sd names and absolute paths are disks, numbered mirrors and raidz groups are vdevs of that type |
| IOStatTree.TypeIsStartOfName | zfs-manager/internal/agent/iostat.go:220-242 | the type of a vdev row is the prefix it was recognized by, or for raidz the word up to the dash |
| IOStatText.PrintRowsReadBack | zfs-manager/internal/agent/iostat.go:108-127 | printed rows are read back unchanged |
| IOStatText.ParseUint64OfItoa | zfs-manager/internal/agent/engine.go:947-954 | every 64-bit counter is read back from its digits |
| IOStatText.ReadUintSaturates | zfs-manager/internal/agent/engine.go:947-954 | a digit string is read as its value or, beyond 64 bits, as the largest number |
| IOStatText.BlankSeparatedRowReads | zfs-manager/internal/agent/iostat.go:115-122 | columns separated by blanks are read the same |
| IOStatText.ColumnsInOrder | zfs-manager/internal/agent/iostat.go:115-131 | the seven columns are name, allocated, free, read and write operations, read and written bytes, in this order |
| IOStatText.FewerColumnsNoRow | zfs-manager/internal/agent/iostat.go:108-127 | a line of fewer than seven columns is skipped |
| IOStatText.LeadingBlanksIgnored | zfs-manager/internal/agent/iostat.go:108-127 | blanks and tabs before a row do not matter |
| IOStatRates.BuildIOStatRows | zfs-manager/internal/manager/iostat.go:119-184 | the table as a function of the two samples, last entry winning per name |
| IOStatRates.TableConserves | zfs-manager/internal/manager/iostat.go:119-184 | the table shows exactly the rows of the current sample, once and in order, whatever the previous one was |
| IOStatRates.TableNonNegative | zfs-manager/internal/manager/iostat.go:190-195 | no row ever shows a negative rate |
| IOStatRates.RatesConserve | zfs-manager/internal/manager/iostat.go:190-218 | for every pool, vdev and disk row, over any run of samples with any timestamps: rates times the differences of the timestamps, plus what the counter changed across gaps that cannot be rated, is its growth plus what it lost across the others |
| IOStatRates.RatesAddUpIff | zfs-manager/internal/manager/iostat.go:190-218 | so rates times differences of timestamps sum to the growth exactly when the counter lost across rated gaps what it gained across the unrated ones |
| IOStatRates.TelescopesIff | zfs-manager/internal/manager/iostat.go:190-218 | for every pool, vdev and disk row shown throughout, over strictly increasing timestamps, rates times their differences sum to last minus first exactly when the counter never decreases, and to more otherwise |
| IOStatRates.RowShown | zfs-manager/internal/manager/iostat.go:119-184 | the table has a row for every pool, vdev and disk its sample shows, with the rates these results are about |
| IOStatRates.IndexPools | zfs-manager/internal/manager/iostat.go:220-226 | the last pool of a name wins |
| IOStatRates.SampleNamedIsLast | zfs-manager/internal/manager/iostat.go:220-226 | rates are taken against the last sample of that name |
| IOStatRates.VdevNamedIsLast | zfs-manager/internal/manager/iostat.go:228-234 | and against the last vdev of that name in it |
| IOStatRates.DiskNamedIsLast | zfs-manager/internal/manager/iostat.go:236-242 | and the last disk |
| IOStatRates.IndexVdevs | zfs-manager/internal/manager/iostat.go:228-234 | the last vdev of a name wins |
| IOStatRates.IndexDisks | zfs-manager/internal/manager/iostat.go:236-242 | the last disk of a name wins |
| ZfsHub.PreviousIOStatIs | zfs-manager/internal/manager/aggregator.go:109-121 | after any interleaved run the cache is the agent's last payload and PreviousIOStat the sample of the latest payload before it that carried one |
| ZfsHub.PrecedingFrameIff | zfs-manager/internal/manager/aggregator.go:390-399 | it is the immediately preceding frame's sample exactly when that frame had one or no earlier frame did |
| ZfsHub.ShownRowsConserve | zfs-manager/internal/manager/iostat.go:90-115 | the I/O page shows exactly the rows of the agent's last payload, rated against the latest earlier payload that carried a sample |
| ZfsHub.IngestAll | zfs-manager/internal/manager/aggregator.go:109-141 | ingesting a whole run from a fresh aggregator leaves every agent in the state of the run function |
| ZfsHub.Aggregator.Ingest | zfs-manager/internal/manager/aggregator.go:109-141 | advances its own agent only and notifies exactly the transitions and the event of the frame |
| ZfsHub.DetectPoolTransitions | zfs-manager/internal/manager/aggregator.go:216-255 | finds each transition between two snapshots once, in whatever order the map is walked |
| ZfsPoolRuns.ComparedWithLastEvaluated | zfs-manager/internal/manager/aggregator.go:166-176 | transitions are taken against the agent's latest evaluated frame |
| ZfsPoolRuns.ResilversReportedIff | zfs-manager/internal/manager/aggregator.go:216-232 | over any run, every resilver of a pool seen to begin, except one still running, is told exactly once exactly when the pool is in every evaluated frame of the agent that follows one showing it resilvering |
| ZfsPoolRuns.ResilversAccounted | zfs-manager/internal/manager/aggregator.go:216-232 | over any run, the resilvers seen to begin are those told, those lost because the pool was missing from the next evaluated frame, and the one still running |
| ZfsPoolRuns.MissedFrameLosesResilver | zfs-manager/internal/manager/aggregator.go:218-223 | a resilver that ends while the pool is missing from one frame is never told: a concrete run |
| ZfsPoolRuns.ExpansionsAddUpIff | zfs-manager/internal/manager/aggregator.go:240-253 | the vdevs told as added over any run equal the growth exactly when what the pool lost in view equals what it gained out of view; for a pool in every evaluated frame, exactly when it never shrank |
| ZfsPoolRuns.ExpansionsAccounted | zfs-manager/internal/manager/aggregator.go:240-253 | over any run, the vdevs told as added are the growth plus what was lost in view, less what was gained while the pool was missing |
| ZfsPoolRuns.MissedFrameLosesExpansion | zfs-manager/internal/manager/aggregator.go:218-223 | growth while the pool is missing from one frame is never told: a concrete run |
| ZfsPoolRuns.ScrubToldIff | zfs-manager/internal/manager/aggregator.go:232-239 | after any run, a completed scrub is told exactly when the latest evaluated frame showed the pool with a scrub running and this one shows it completed |
| ZfsPoolRuns.EventToldIff | zfs-manager/internal/manager/aggregator.go:188-206 | after any run, an event is told exactly when its frame is evaluated and its id is not empty and not the latest, word for word but for an absent severity, which becomes info |
| ZfsHub.Aggregator.IOStatRows | zfs-manager/internal/manager/iostat.go:90-115 | the handler rates the cached sample against the previous one |
| ZfsEvents.NotifiedIsSubsequence | zfs-manager/internal/manager/aggregator.go:188-206 | over dropped or repeated frames, and even if ids are reused, the notified events are a duplicate-free subsequence of the emitted ones, each carried by an evaluated frame |
| ZfsEvents.AllNotifiedIff | zfs-manager/internal/manager/aggregator.go:188-206 | the notified events are exactly those with an id in an evaluated frame if and only if no two events evaluated one right after the other share an id |
| ZfsEvents.UniqueIDsSuffice | zfs-manager/internal/manager/aggregator.go:188-206 | with unique ids an event is notified exactly when it has an id and a frame carrying it was evaluated |
| ZfsEvents.ReusedIdIsLost | zfs-manager/internal/manager/aggregator.go:193-199 | an event under the id of the one told last is not notified |
| ZfsEvents.ReorderingRepeats | zfs-manager/internal/manager/aggregator.go:188-206 | a frame delayed past a newer one makes the hub notify an event again |
| ZfsEvents.Collector.EmitEvent | zfs-manager/internal/agent/collector.go:99-104 | the event replaces the last one and a flush is pending |
| ZfsEvents.Collector.Build | zfs-manager/internal/agent/collector.go:227-256 | a frame carries the event emitted last |
| ZfsEvents.Collector.RequestFlush | zfs-manager/internal/agent/collector.go:88-93 | a second request is absorbed |
| ZfsEvents.Collector.Forward | zfs-manager/internal/agent/hub_forwarder.go:103-113 | a pending request is consumed before the frame is built, which carries the event emitted last |
| BurninHubRuns.StartedCompleteAlternate | burn-in/internal/hub/aggregator.go:734-774 | a job's started and complete notifications strictly alternate over any frames, with any upstream outages |
| BurninHubRuns.CompletionsTold | burn-in/internal/hub/aggregator.go:734-774 | over any run the completions told of a job are exactly its frames at 100 percent in phase COMPLETE or CANCELLED that arrive while the upstream client is set, and the job is known exactly while the last such frame left it running |
| BurninHubRuns.KeysInsideActive | burn-in/internal/hub/aggregator.go:319-340 | phases and deltas are kept only for jobs with active progress |
| BurninHubRuns.KnownInsideActive | burn-in/internal/hub/aggregator.go:734-774 | known jobs have active progress as long as the upstream client is never taken away |
| BurninHubRuns.KnownLeaksIff | burn-in/internal/hub/aggregator.go:532-538 | in one step, a known job outlives its progress exactly when its completion arrives without upstream; the program sets the client once and never clears it, so KnownInsideActive rules this out |
| BurninHubRuns.ActiveIsLast | burn-in/internal/hub/aggregator.go:377-385 | the progress kept is the job's last frame, unless that completed it |
| BurninHubRuns.SmartIsFreshest | burn-in/internal/hub/aggregator.go:541-552 | the deltas kept are the latest the job sent since its last completion |
| BurninHubRuns.PhaseHistory | burn-in/internal/hub/aggregator.go:485-520 | the phase entries of a job are its phase sequence with adjacent repeats of the key (phase and detail joined by a bar) removed, restarting at each completion |
| BurninHubRuns.KeyConfusesIff | burn-in/internal/hub/aggregator.go:490-496 | the key of a phase tells its details apart, and the keys of two phases can coincide exactly when the name of one goes on after that of the other with a bar |
| BurninHubRuns.LogHistory | burn-in/internal/hub/aggregator.go:341-351 | every log line of every agent is written, in order and once |
| BurninHubRuns.RingHoldsNewest | burn-in/internal/hub/aggregator.go:473-478 | queries see a suffix of everything logged, at most 10000 and at least 9001 entries if there are that many |
| BurninHubRuns.Serve | burn-in/internal/hub/aggregator.go:283-316 | the read loop from a fresh hub leaves the state, ring and notifications of the run functions for every run |
| BurninHub.Aggregator.ProcessFrame | burn-in/internal/hub/aggregator.go:319-373 | one frame advances its own job, appends the phase it enters and notifies the lifecycle |
| BurninHub.Aggregator.StorePhaseTransition | burn-in/internal/hub/aggregator.go:485-520 | a phase is written unless it repeats the job's last one |
| BurninHub.Aggregator.CleanupIfComplete | burn-in/internal/hub/aggregator.go:532-538 | a completion removes the job from all three maps |
| BurninHub.Aggregator.EvaluateJobLifecycle | burn-in/internal/hub/aggregator.go:734-774 | started on the first frame, complete on a completion |
| BurninHub.Aggregator.BusyAgentIDs | burn-in/internal/hub/aggregator.go:611-620 | exactly the agents with an active job |
| Ring.Slice.RingAppend | burn-in/internal/hub/aggregator.go:661-669 | append, and in place drop of the oldest tenth once over capacity |
| Ring.Slice.DropOldest | burn-in/internal/hub/aggregator.go:665-666 | the overlapping copy moves the tail to the front unharmed |
| Ring.ContentsIsSuffix | burn-in/internal/hub/aggregator.go:661-669 | the ring is a suffix of the append history |
| Ring.ContentsBounded | burn-in/internal/hub/aggregator.go:661-669 | for capacities from ten the length stays between the stated bounds |
| Ring.BoundedIff | burn-in/internal/hub/aggregator.go:661-669 | the capacity is respected exactly from ten up or while the history fits |
| Ring.KeptPlusDropped | burn-in/internal/hub/aggregator.go:661-669 | kept and dropped elements add up to the appends |
| Ring.MovedAmortized | burn-in/internal/hub/aggregator.go:661-669 | all moves together stay proportional to the number of appends |
| SnapraidHubRuns.StartedCompleteAlternate | snapraid/internal/hub/aggregator.go:234-289 | an agent's started and complete notifications strictly alternate |
| SnapraidHubRuns.FrameTells | snapraid/internal/hub/aggregator.go:234-289 | what a frame tells about a job as a function of the last two frames before it: start, completion or a completed phase |
| SnapraidHubRuns.CompletionTriggerIff | snapraid/internal/hub/aggregator.go:256-279 | the completion carries the start's trigger exactly when the job was shown by one frame or had none |
| SnapraidHubRuns.GateFailuresSeparated | snapraid/internal/hub/aggregator.go:199-230 | two notified gate failures with the same message have a maintenance event or another gate message between them |
| SnapraidHubRuns.NotifiedIff | snapraid/internal/hub/aggregator.go:199-230 | after any history, an event is notified exactly when it has an id other than that of the latest event with one, and is not a gate failure whose message is the open one |
| SnapraidHubRuns.GateSuppressedIff | snapraid/internal/hub/aggregator.go:212-219 | a new gate failure is suppressed exactly when its message is the open one, the empty message counting as open at first |
| SnapraidHubRuns.OnlineOfflineAlternate | snapraid/internal/hub/liveness.go:41-88 | online and offline notifications strictly alternate, starting against the baseline and ending at the current state |
| SnapraidHubRuns.EveryTurnTold | snapraid/internal/hub/liveness.go:51-88 | as many changes are told as the observed state turns |
| SnapraidHubRuns.FirstSightIsSilent | snapraid/internal/hub/liveness.go:63-72 | an agent without a baseline is only recorded, and judged by that from then on |
| SnapraidHubRuns.WarnedOnceIffFailing | snapraid/internal/hub/aggregator.go:292-322 | every device key is warned about at most once, and exactly when some frame reported it failing |
| SnapraidHubRuns.WarningsGrounded | snapraid/internal/hub/aggregator.go:292-322 | a warning is critical exactly if the disk that led to it was reported as failing, not just about to |
| SnapraidHubRuns.KeyIdentifies | snapraid/internal/hub/aggregator.go:305-308 | the key stands for one agent and device if agent ids hold no colon |
| SnapraidHubRuns.Serve | snapraid/internal/hub/aggregator.go:171-193 | evaluating the interleaved frames of all agents leaves every agent's job and event memory, the alerts, and the notices of the run functions |
| SnapraidHub.Aggregator.EvaluateTelemetry | snapraid/internal/hub/aggregator.go:171-193 | one frame advances its own agent; an unreadable one, or one before the client is set, changes nothing |
| SnapraidHub.Aggregator.EvaluateJobTransition | snapraid/internal/hub/aggregator.go:234-289 | start, completion and phase change; a repeated frame drops the trigger |
| SnapraidHub.Aggregator.EvaluateAgentEvent | snapraid/internal/hub/aggregator.go:199-230 | suppression by id and by gate message |
| SnapraidHub.Aggregator.EvaluateSmartStatus | snapraid/internal/hub/aggregator.go:292-322 | one warning per new failing key, in report order |
| SnapraidHub.Aggregator.CheckAgentLiveness | snapraid/internal/hub/liveness.go:51-88 | each listed agent is recorded, and notified exactly on a change |
| SnapraidHub.Aggregator.SeedAgentLiveness | snapraid/internal/hub/liveness.go:41-47 | the baseline is recorded without notifying |
| ReplicationRuns.NextRunFromKept | zfs-manager/internal/agent/server_replication.go:368-407 | after any history of runs, failures, failed listings, extra snapshots and cleanups with any cutoff, the next run that lists both sides is incremental from the newest arrival that no later act took away from either side, and if none is left from what was common before the history |
| ReplicationRuns.NextRunFromLastArrival | zfs-manager/internal/agent/server_replication.go:368-407 | it is incremental from the snapshot whose receive completed last exactly when no cleanup of either side has destroyed it since |
| ReplicationRuns.NextRunFromLastSuccess | zfs-manager/internal/agent/replication.go:189-209 | it is incremental from the last run that reported success exactly when that run's snapshot is the newest arrival kept; with nothing arrived hidden that is when no cleanup destroyed it, with nothing destroyed that is when nothing arrived hidden |
| ReplicationRuns.CleanupLosesBase | zfs-manager/internal/agent/server.go:1515-1540 | a cleanup of the source with a later cutoff makes the next run a full send although nothing arrived hidden: a concrete history |
| ReplicationRuns.CleanupUncoversLast | zfs-manager/internal/agent/server.go:1515-1540 | a hidden arrival that a cleanup destroys leaves the last successful run as base: a concrete history |
| ReplicationRuns.DoAll | zfs-manager/internal/agent/server_replication.go:353-417 | calling the agent for any history of runs, snapshots and cleanups leaves both datasets as the history ends |
| ReplicationRuns.RunKeeps | zfs-manager/internal/agent/server_replication.go:353-417 | over any history, the snapshots made during it that both sides have are exactly the arrivals no later act took away from either side, in order |
| ReplicationRuns.CleanupDestroysIff | zfs-manager/internal/agent/server.go:1515-1540 | a cleanup removes a snapshot exactly when it is older than the cutoff and its destruction succeeds |
| ReplicationRuns.SelfBaseIff | zfs-manager/internal/agent/server_replication.go:380-396 | a run picks its own new snapshot as base exactly when the destination already has its name |
| ReplicationRuns.UnlistedDestMeansFullSend | zfs-manager/internal/agent/server_replication.go:390-396 | a destination listing that fails leads to a full send |
| Replication.FindCommonSnapshot | zfs-manager/internal/agent/replication.go:126-141 | the newest source snapshot whose name exists at the destination, none exactly when no name is common |
| Replication.Agent.Run | zfs-manager/internal/agent/server_replication.go:368-407 | one run: snapshot, base choice, send and receive |
| Replication.Agent.RetentionCleanup | zfs-manager/internal/agent/server.go:1515-1540 | destroys exactly the expired snapshots of one dataset that can be destroyed, and counts them |
| Devices.PathRoundTripIff | burn-in/internal/drive/verify.go:116-137 | for every partition number the device is recovered exactly when its path contains nvme or loop or does not end in a digit |
| Devices.MmcblkPathLost | burn-in/internal/drive/partition.go:101-108 | an mmcblk partition path leads back to another device |
| Devices.ParentRoundTripIff | zfs-manager/internal/agent/engine.go:454-471 | the parent of a partition is its disk exactly when the disk is in a p family just if its name ends in a digit |
| Devices.ParentIff | zfs-manager/internal/agent/engine.go:454-471 | a name is mapped to a disk other than itself exactly when it is the disk followed by a partition suffix in the disk's own style, for conforming disks |
| Devices.UnchangedIff | zfs-manager/internal/agent/engine.go:446-471 | the promise to leave whole disks unchanged holds exactly for names that do not look like a partition: no digit after the last p in the p families, no final digit elsewhere |
| Devices.UsualParents | zfs-manager/internal/agent/engine.go:446-471 | for all numbers and letters: partitions of sd, hd, vd, xvd, nvme, mmcblk and loop disks are given their disk, and those disks but for loop are left alone |
| Devices.PmemNotUnchanged | zfs-manager/internal/agent/engine.go:446-471 | the whole disk pmem0 is given the parent pmem |
| Devices.InfersKernelPathIff | burn-in/internal/drive/partition.go:101-108 | the inferred partition path is the kernel's exactly when the path rule and the kernel's rule give the disk the same style |
| Devices.AddOnsAgreeIff | burn-in/internal/drive/partition.go:101-108 | both add-ons derive the kernel's partition path and the same disk from it exactly when both rules agree with the kernel's on the disk's style |
| Devices.BareLoopDevice | zfs-manager/internal/agent/engine.go:454-471 | the bare device loop0 is given the parent loo |
| Devices.InferDeviceFromPartition | burn-in/internal/drive/verify.go:116-137 | the two-stage stripping of a partition path |
| Devices.ParentDiskName | zfs-manager/internal/agent/engine.go:454-471 | the prefix-driven stripping of a kernel name |
| AvailableDisks.ListAvailableDisks | zfs-manager/internal/agent/engine.go:485-585 | the offered devices in listing order: exactly the disks and partitions that no listed vdev names, bare or nested, in either listing, and that are neither the disk of one nor on such a disk; only a failing device listing is an error |
| AvailableDisks.OfferedIff | zfs-manager/internal/agent/engine.go:548-582 | with respect to the members that were reported: offered exactly when a disk or partition, not a member, not a member's disk, and on no such disk |
| AvailableDisks.OfferedFromIff | zfs-manager/internal/agent/engine.go:485-585 | the same condition over the listed vdevs themselves, bare disks and nested ones alike |
| AvailableDisks.PoolMembersIff | zfs-manager/internal/agent/engine.go:490-513 | the members of the pools are exactly the disks nested in their vdevs and the names of the vdevs that are bare disks |
| AvailableDisks.OfferedInOrder | zfs-manager/internal/agent/engine.go:548-582 | the order of the listing is kept |
| AvailableDisks.HostOfferedIff | zfs-manager/internal/agent/engine.go:485-585 | for every disk and any other members: with one of its partitions in a pool, the disk is offered exactly when its name does not conform to the kernel's rule and nothing else puts it in use |
| AvailableDisks.LoneHostOfferedIff | zfs-manager/internal/agent/engine.go:485-585 | with nothing else in a pool, the disk of a member partition is offered exactly when its name does not conform |
| AvailableDisks.SiblingOfferedIff | zfs-manager/internal/agent/engine.go:570-582 | for every disk: another partition of the disk of a member partition is offered exactly when the names of its partitions are taken for whole disks and nothing else puts it in use |
| AvailableDisks.HostNeverOffered | zfs-manager/internal/agent/engine.go:485-585 | for conforming disk names, neither the disk of a member partition nor any of its partitions is offered |
| AvailableDisks.PmemHostOffered | zfs-manager/internal/agent/engine.go:454-471 | pmem0 is offered while pmem0p1 is a pool member: a concrete listing |
| AvailableDisks.ProtectedIff | zfs-manager/internal/agent/engine.go:485-585 | for every disk, whatever its name: an actual member is protected, so that neither its disk nor any partition of it is offered, exactly when its partitions are not taken for whole disks and both the disk and the parent its partitions are given are in use |
| AvailableDisks.AllProtectedIff | zfs-manager/internal/agent/engine.go:485-585 | across all pools and all disk names, every actual member is protected exactly when for each of them the topology listing and the path listing together put its disk and its partitions' parent in use |
| AvailableDisks.ConformingProtectedIff | zfs-manager/internal/agent/engine.go:490-513 | if all their disks' names conform and none is called loo, every actual member is protected exactly when for each of them the topology listing or the path listing names its disk or a partition of it |
| AvailableDisks.PmemPartOffered | zfs-manager/internal/agent/engine.go:570-582 | pmem0p1 is offered although the whole disk pmem0 is a reported member: a concrete listing |
| AvailableDisks.PathListingCovers | zfs-manager/internal/agent/engine.go:592-611 | a member partition of a conforming disk listed by its path covers its disk, whatever the other listing shows |
| AvailableDisks.FailedListingsOffer | zfs-manager/internal/agent/engine.go:490-513 | when both listings fail the call still succeeds and offers any disk, members included |
| AvailableDisks.AddMembers | zfs-manager/internal/agent/engine.go:490-499 | every member is collected together with its disk |
| AvailableDisks.PathMemberCounts | zfs-manager/internal/agent/engine.go:592-611 | a member given by path counts under its kernel name |
| AvailableDisks.NvmeNames | zfs-manager/internal/agent/engine.go:446-471 | nvme names follow the convention of both add-ons |
| AvailableDisks.LoopNames | zfs-manager/internal/agent/engine.go:446-471 | loop names do too |
| AvailableDisks.SdNames | zfs-manager/internal/agent/engine.go:446-471 | sd names do too |

## Left out

- HTTP handlers, WebSockets, ping and pong, routers and authentication: only the state changes they trigger are modelled.
- SQLite, JSON and files: modelled as maps, sequences and operations that may fail.
- `parseVdevTopology` and the other regular-expression scraping of command output: it has no clean specification; vdev topologies are inputs.
- `progressLineFunc`, progress channels and the human-readable summaries: text rendering.
- Temperature, SMART-delta, bad-block and phase-complete notifications of the burn-in hub: stateless per frame.
- The chart ring of the burn-in hub: the same `ringAppend` as the log ring, with 2000 in place of 10000.
- `countDataVdevs`, `isResilvering` and `isScrubRunning`: the tracked state of a pool is an input of the transition detection.
- Time-range filtering of stored logs and charts.
- `UpdatePhase`, `LoadState` and `RemoveState`: never called by the modelled paths.
- Unlocked reads of record fields while a job runs.
- The pre-clear half of a full job beyond its outcome.
- Scheduled replication with resume tokens, bookmarks and count-based retention: the manual run and the retention cleanup are modelled.
- The argv of `zfs send` and the process plumbing of local and remote pipelines.
- Device size parsing and the model and serial columns of the available-disk list.
- JobRuns.AbortReachesTheJob: assumes fresh ids, which `generateJobID` alone does not guarantee.
- ZfsEvents.AllNotifiedIff: assumes that frames may be dropped or repeated but not reordered; ReorderingRepeats shows why.
- ReplicationRuns.NextRunFromLastArrival: assumes fresh snapshot names and matches snapshots by name as the code does, not by GUID.
- ReplicationRuns.NextRunFromLastSuccess: the same two assumptions.
- ReplicationRuns.NextRunFromKept: the same two assumptions.
- PoolCommand.CommandReadsBackIff: the reader leaves out what zpool checks beyond the words of the command: whether devices exist, are in use or repeat, mixed replication levels, and the names and values of properties; nor does it read option forms the emitter never uses (options joined to their value, several in one word, a sign in a parity number).
- `SafeDeviceName`: a job id names its device; that two devices may share a sanitized name is the condition of JobRuns.AlwaysInverseIff.
- ZfsHub.PreviousIOStatIs: a previous iostat that is JSON but does not fit the sample type counts as unreadable as a whole; what a partial decoding would leave in it is not modelled.
- `Engine.Version` of the SnapRAID engine, which runs the version query outside the mutex.
