# Plenith: a verified model of its deception engine

Plenith is an SSH honeypot. In the middle of its integration code sits a stateful engine: an audit log chained by
hashes, a virtual filesystem that attackers write to, a kill protocol shared by several processes, a ladder of
self-disabling alert rules, a detector for attackers driven by a language model, and the aggregations and
configuration transforms around them. This project models that engine in Dafny 4.11 and proves what it keeps over
every input, every run and every interleaving.

`dafny verify dfyconfig.toml` checks everything.

| file | models |
|---|---|
| `AuditChain.dfy` | building, stamping and verifying the hash chain; tamper evidence as collision extraction |
| `Paths.dfy` | path canonicalisation as a component stack, and `cd` |
| `Vfs.dfy` | the virtual filesystem object, its refinement of a plain map, persistence, `mv` |
| `Traverse.dfy` | directories inferred from file paths: traversal, listing, `find` |
| `KillQueue.dfy`, `KillProtocol.dfy`, `KillRuns.dfy`, `KillServer.dfy` | the kill queue, the protocol as a state machine, whatever can happen between two of its ticks, and the server objects that refine it |
| `Observations.dfy`, `Sightings.dfy` | the observation dict, what events change in it, key by key, and its trip through a reconnect |
| `Heuristics.dfy`, `Engagement.dfy`, `Evidence.dfy`, `Causes.dfy` | the session: how it observes, the rule ladder and the loop that drains it; whole engagements over many connections, and which of their events make a rule fire |
| `RlPolicy.dfy` | the trained policy's guards under an arbitrary network |
| `Scoring.dfy`, `CounterAi.dfy` | the detector's scores over exact reals; its state, trap and persistence |
| `TrapFiles.dfy` | filesystem and detector together: planted decoys that carry the trap |
| `TrapAlert.dfy` | detector, observations and rules together: from the first echo to the critical alert |
| `SessionLogs.dfy`, `AlertRates.dfy`, `AlertTop.dfy`, `Activity.dfy` | bucketed rates, top alerts, heatmap and drill-in |
| `Secrets.dfy` | secret references and their resolution through a shared cache |
| `TerminalSafe.dfy` | the sanitiser for attacker-controlled text |
| `Common.dfy`, `Numbers.dfy` | shared datatypes; sums and the order of products |

Objects whose methods change fields are classes, and each method is proved to perform exactly one step of a
specification function; the theorems are about those functions. Clocks, hashes, renderers, square roots, the local
hour, providers and the network's outputs are parameters, with no assumption beyond what is written in a `requires`.

## Where the code and its documentation differ

The model follows the code. Each of these is proved, not only noted.

- A log with every chain field removed is accepted as legacy whatever tip is recorded
  (plenith/audit_chain.py:177-183): `AuditChain.LegacyIffStripped`.
- Backslashes are replaced after normalising (plenith/vfs.py:230-232), so canonicalisation is idempotent exactly
  when the pieces this exposes are names, or names after one empty piece: `Paths.CanonIdempotentIff`, with an input in
  `Paths.BackslashBreaksIdempotence`.
- `cd ..` drops the last piece of the text (plenith/orchestrator.py:914-916), which is the parent only when that
  piece is a real name or nothing is left above it: `Paths.CdDotDotIff`, with an input in `Paths.CdDotDotWrong`.
- The baseline is documented as the planted content (plenith/vfs.py:28-33); after planting a decoy it is what the path
  held before (plenith/vfs.py:109-110), so it is the planted content exactly when the path held that already:
  `Vfs.PlantedBaseline`.
- Only one renderer is registered again on restore (plenith/session.py:161-165), so the trap renderers of planted
  decoys (plenith/session.py:458-461) are lost: `Vfs.ReopenTransparentIff` says exactly when a reconnect shows, and
  `TrapFiles.PlantedLost` what is left of a decoy: it shows the marker afterwards exactly when its own text does or it
  was read armed before.
- A decoy planted where the attacker had changed the path (plenith/session.py:447, plenith/vfs.py:77) never shows the
  trap, since planting leaves the tamper mark: `TrapFiles.PlantedShows`.
- `mv p p` deletes the file (plenith/orchestrator.py:368-379): `Vfs.MoveKeepsIff`.
- A repeated kill request keeps the old time (plenith/kill_queue.py:108-111) and the per-command fast path acts on a
  stale view (plenith/ssh_server.py:189-191), so a kill raised after a connection opened can be lost.
  `KillProtocol.RequestThenTickIff` says exactly when if a tick follows at once, `KillProtocol.RequestCommandsTickIff`
  if commands come between, `KillRuns.RequestRunTickIff` if anything does, and `KillProtocol.NewerRequestLost` is a
  run that loses one.
- A fulfilled kill is promised to stay on record for a day (plenith/kill_queue.py:128-132), which it does
  (`KillQueue.KilledShownForADay`). But if a tick first visits a session opened after the request, it drops the entry
  (plenith/ssh_server.py:250-251), and the sessions it then kills leave no record: `KillProtocol.TickRecord`.
- The top-alerts view looks a missing severity up by its key (plenith/aggregations.py:175-177) and fails with a KeyError
  when every earlier event of that name has an unranked severity: `AlertTop.AlertTop` says exactly when, with an input
  in `AlertTop.MissingSeverityFails`.
- A path whose last component ends in a backslash canonicalises to one with trailing slashes
  (`Traverse.CanonRootIff`), and the traversal then reports the root itself as a directory
  (plenith/orchestrator.py:759-762). `Traverse.WalkedBelowIff` and `Traverse.TraversedBelowIff` say for exactly which
  roots and paths it reports anything but what lies strictly below; `Traverse.BackslashRootReported` is the input.
- An engagement that reconnects before its first command restores a detector state without a marker
  (plenith/session.py:173-176, plenith/counter_ai.py:188-189), and never gets one: `CounterAi.ReconnectTransparentIff`.
- Restoring the observations drops every key outside the template (plenith/session.py:303-304), among them the
  detector's history and proof: `Observations.ReconnectIdentity`.

## Model

| member | source | states |
|---|---|---|
| AuditChain.ChainActions | plenith/audit_chain.py:91-108 | The loop computes the chained list: each entry linked to the hash of the one before it |
| AuditChain.TipRefused | plenith/audit_chain.py:110-119 | The tip is the genesis hash or the last entry's, refused exactly when that is missing or empty |
| AuditChain.VerifyChain | plenith/audit_chain.py:147-217 | Integrity is asserted exactly for fully linked logs whose recorded tip is missing, null or the tip; a break is the first one, with the reason that its missing or unfitting fields give, and the tip is that of the valid prefix |
| AuditChain.Extract | plenith/audit_chain.py:185-217 | From two different linked logs with one tip it computes two distinct bodies with equal hash, or a body hashing to the genesis constant |
| AuditChain.TamperEvidence | plenith/audit_chain.py:147-217 | Any change to a log that stays accepted, and not as legacy, against the same tip exhibits a break of the hash |
| AuditChain.EditFound | plenith/audit_chain.py:201-208 | Editing what an entry says is reported at that entry as an entry-hash mismatch, unless the contents collide |
| AuditChain.RemovalFound | plenith/audit_chain.py:195-200 | Removing an inner entry is reported where it stood as a previous-hash mismatch, unless the two hashes agree |
| AuditChain.LegacyIffStripped | plenith/audit_chain.py:177-183 | A log counts as unchained exactly when stripping it changes nothing; any log can be stripped into that |
| AuditChain.TruncationNeedsTip | plenith/audit_chain.py:211-215 | A truncated log is accepted exactly when no tip is recorded or the shorter log has the same tip |
| AuditChain.ChainedLinks | plenith/audit_chain.py:81-108 | Every chained entry has no fault against its predecessor and says what the original said |
| AuditChain.StampSessionChain | plenith/audit_chain.py:223-242 | Stamping strips, re-chains and records the last hash and the number of actions, leaving the rest of the record alone |
| AuditChain.VerifySession | plenith/audit_chain.py:244-249 | The record's own tip is checked unless it is missing or null, and then has to be the tip; a record that is its own stamping verifies with full integrity |
| AuditChain.StampedVerifies | plenith/audit_chain.py:223-249 | Every stamped session is accepted against its own tip, and not as legacy |
| AuditChain.StampIdempotent | plenith/audit_chain.py:223-242 | Stamping keeps what every action says, and stamping twice is stamping once |
| AuditChain.LinkedIffRechained | plenith/audit_chain.py:91-108 | A log is fully linked exactly when re-chaining its stripped actions reproduces it |
| Paths.CanonIsCanonical | plenith/vfs.py:213-233 | A canonicalised path is absolute without backslashes; it has no empty, `.` or `..` component exactly when the pieces its backslashes expose are settled, and names the directory stack of the resolved path exactly when no component of that holds a backslash |
| Paths.CanonIdempotent | plenith/vfs.py:213-233 | Without backslashes canonicalising again, from any directory, changes nothing |
| Paths.CanonIdempotentIff | plenith/vfs.py:213-233 | With backslashes, canonicalising again changes nothing exactly when the pieces of the resolved path's components, cut at their backslashes, are names, or under one leading slash names after one empty piece |
| Paths.CanonLaws | plenith/vfs.py:213-233 | What each kind of piece at the end of an absolute path does to its canonical form: a name goes down, `..` after it comes back, `.` and a slash change nothing |
| Paths.CanonRoots | plenith/vfs.py:213-233 | The canonical forms of the roots, of what is right below them and of `..` at the root |
| Paths.ResolvedAgainst | plenith/vfs.py:213-233 | An absolute path stands for itself; a relative one goes on from the pieces of the current directory |
| Paths.ResolvedTilde | plenith/vfs.py:213-233 | A tilde stands for the home directory, or for the root without one |
| Paths.RelativeNorm | plenith/vfs.py:213-233 | A path that resolves to a relative one stays relative: parents first, then names, or a dot |
| Paths.BackslashBreaksIdempotence | plenith/vfs.py:229-233 | A path whose canonical form canonicalises to something else |
| Paths.SameDirIff | plenith/vfs.py:213-233 | Two directories, one of them without backslashes, resolve every path alike exactly when their stacks and leading slashes agree |
| Paths.CdResolves | plenith/orchestrator.py:905-917 | After `cd target` every path resolves as from the canonical target, exactly unless a bare `//` is dropped, a component of the target holds a backslash, or the target is `-` |
| Paths.CdDotDotIff | plenith/orchestrator.py:914-916 | From any absolute directory `cd ..` reaches the parent exactly when the last piece of the text is a real name or nothing is above it, two or three leading slashes are followed by another further on, and no component above holds a backslash |
| Paths.CdDotDotCanonical | plenith/orchestrator.py:914-916 | From a canonical directory `cd ..` is right, exactly unless it lies one level or less below two leading slashes |
| Paths.CdDotDotWrong | plenith/orchestrator.py:905-917 | After `cd name/..`, `cd ..` ends inside `name` |
| Vfs.StepKeeps | plenith/vfs.py:70-128 | Every operation keeps deleted paths disjoint from files and within the tampered ones, tamper marks, and written baselines |
| Vfs.RunKeeps | plenith/vfs.py:70-128 | So does every run |
| Vfs.PlantedBaseline | plenith/vfs.py:98-116 | After planting a decoy the baseline is for good what was recorded or stored before, so it is the planted content exactly when that was |
| Vfs.SeedBaseline | plenith/vfs.py:34-39 | A seeded path's baseline is its seed after any run |
| Vfs.SeededLast | plenith/vfs.py:34-39 | A seeded path holds the content of the last pair that names it, and no other path holds anything |
| Vfs.ReadsLastPut | plenith/vfs.py:70-128 | After any run a read returns what the renderer answers, or if none does or it raises, the last content rendered or written there |
| Vfs.NeverLost | plenith/vfs.py:70-128 | A path that has held something reads as something until it is unlinked |
| Vfs.AttackerChangeSticks | plenith/vfs.py:58-128 | If the last change of a path was the attacker's, every later read returns that change's outcome, whatever is rendered |
| Vfs.RefinesPlainMap | plenith/vfs.py:58-128 | Along every run the paths attackers changed read as a plain last-writer map says |
| Vfs.RunAgrees | plenith/vfs.py:178-203 | Two filesystems that agree outside a set of paths agree there after any run |
| Vfs.ReopenedAgrees | plenith/vfs.py:178-203 | After save and restore every later read of a path with no lost renderer gives the same result |
| Vfs.ReopenTransparentIff | plenith/vfs.py:178-203 | Save and restore change no later read at all exactly when no live renderer is lost |
| Vfs.VirtualFS.constructor | plenith/vfs.py:25-54 | The object starts as its seeds, later pairs winning |
| Vfs.VirtualFS.RegisterDynamic | plenith/vfs.py:58-68 | Registers a renderer at the canonical path and nothing else |
| Vfs.VirtualFS.Read | plenith/vfs.py:70-92 | Returns the renderer's answer, and the stored content when there is none or it raises; what was read is cached and becomes the baseline if there is none |
| Vfs.VirtualFS.Write | plenith/vfs.py:98-116 | Writes or appends, keeps the first baseline, revives the path and marks it if asked |
| Vfs.VirtualFS.Touch | plenith/vfs.py:118-122 | Creates an empty file only if none is there, and marks the path |
| Vfs.VirtualFS.Unlink | plenith/vfs.py:124-128 | Removes the file, leaving a tombstone and a tamper mark |
| Vfs.VirtualFS.Snapshot | plenith/vfs.py:161-164 | In a reachable state the live files are exactly the stored ones |
| Vfs.VirtualFS.Restore | plenith/vfs.py:194-203 | Restores the four saved collections and drops the renderers |
| Vfs.Move | plenith/orchestrator.py:368-379 | A move is read, write, unlink; a missing source changes nothing |
| Vfs.MoveKeepsIff | plenith/orchestrator.py:368-379 | The body is at the target exactly when the paths differ; the source is gone and no other path changes |
| Traverse.CanonicalRoot | plenith/vfs.py:213-233 | Every canonical path can be the root of a traversal |
| Traverse.CanonicalKey | plenith/vfs.py:213-233 | No canonical path begins with three slashes |
| Traverse.UnderByStack | plenith/orchestrator.py:746-763 | A file is found under a directory exactly when the directory's components begin its own under the same leading slashes; the bare roots have every file under them |
| Traverse.Traverse | plenith/orchestrator.py:746-763 | The files found are exactly those at or under the root, the directories exactly the ancestors met on the way up before the root |
| Traverse.Ancestors | plenith/orchestrator.py:759-762 | The parent-walking loop ends and collects exactly one file's ancestors before the root |
| Traverse.WalkedBelow | plenith/orchestrator.py:746-763 | For a root without trailing slashes these are exactly the proper ancestors strictly below it |
| Traverse.WalkedBelowIff | plenith/orchestrator.py:746-763 | For any root: that holds for all files exactly when the root has no trailing slashes and is not `//`; for files without three leading slashes, exactly when it has none or begins with three |
| Traverse.SlashedRootReported | plenith/orchestrator.py:746-763 | With any number of trailing slashes the root itself, spelled without them, is reported above every file below it |
| Traverse.CanonRootIff | plenith/vfs.py:213-233 | A canonicalised path has trailing slashes exactly when the last component of the resolved path ends in a backslash, a lone one below a single slash excepted |
| Traverse.TraversedBelowIff | plenith/orchestrator.py:746-763 | Over files without three leading slashes, a path is traversed to exactly what lies strictly below it unless its last component ends in a backslash; a path that canonicalises to three leading slashes reaches none of them |
| Traverse.BackslashRootReported | plenith/orchestrator.py:746-763 | From `/name\`, resolved to `/name/`, the traversal reports `/name` for any file in it |
| Traverse.ListDirectoryTyped | plenith/vfs.py:135-159 | Files and directories are exactly the names one level below the path |
| Traverse.ListingIsSlice | plenith/vfs.py:135-159 | The listing is the depth-one slice of the traversal |
| Traverse.LastSlashSplits | plenith/orchestrator.py:669-669 | A name holds no slash and is what follows the last one; the parent is what precedes it |
| Traverse.Find | plenith/orchestrator.py:647-686 | The printed set, by type and name, without placeholders |
| KillQueue.KillRequestQueue.Gc | plenith/kill_queue.py:157-173 | The loop keeps every pending entry, and a completed one exactly for a day after it was killed, or requested if that is all it has |
| KillQueue.Collected | plenith/kill_queue.py:157-173 | Collection never drops a pending entry, keeps a completed one exactly for a day and changes no entry it keeps |
| KillQueue.KillRequestQueue.RequestKill | plenith/kill_queue.py:93-114 | A request leaves a pending entry, with the old time if one was pending |
| KillQueue.KillRequestQueue.Cancel | plenith/kill_queue.py:116-126 | Removes a pending entry, and reports whether there was one |
| KillQueue.KillRequestQueue.MarkKilled | plenith/kill_queue.py:128-140 | Marks an existing entry killed at this time |
| KillQueue.KilledShownForADay | plenith/kill_queue.py:128-173 | Whatever else is called meanwhile, a killed entry is shown unchanged, with its time, for exactly a day, unless it is requested or killed again |
| KillQueue.CancelUndoesRequestIff | plenith/kill_queue.py:93-126 | Request and cancel leave the collected queue without the entry; that is the queue itself exactly when it had none and nothing was due for collection |
| KillProtocol.StartInv | plenith/ssh_server.py:50-64 | The protocol's invariants hold at the start |
| KillProtocol.StepKeeps | plenith/ssh_server.py:50-64 | Every step keeps the registry exact, requests real and kills justified |
| KillProtocol.RunSafe | plenith/ssh_server.py:116-302 | Over every interleaving a kill closes a session at most once, only for a request no older than its connection, and the registry holds exactly the sessions opened and not lost |
| KillProtocol.ApplyKillEffect | plenith/ssh_server.py:226-272 | What one application changes in any session and any queue entry |
| KillProtocol.ApplyAllEffect | plenith/ssh_server.py:60-64 | What a whole dispatch changes, in whatever order sessions are visited |
| KillProtocol.TickExact | plenith/ssh_server.py:50-64 | A tick closes exactly the open registered sessions a pending request reaches and leaves no such engagement pending |
| KillProtocol.TickRecord | plenith/ssh_server.py:226-272 | Of a pending request a tick leaves a killed record exactly if it reaches the first open session visited; otherwise nothing is left, even when other sessions are killed |
| KillProtocol.RequestThenTickIff | plenith/kill_queue.py:93-114 | Request then tick kills an open session unless an older request was still pending from before the connection |
| KillProtocol.CommandsEffect | plenith/ssh_server.py:178-191 | What any sequence of commands between two ticks does to any session and any queue entry |
| KillProtocol.RequestCommandsTickIff | plenith/ssh_server.py:184-191 | Request, then any commands, then tick: the session ends closed exactly when the cached entry reached it at its own command, or no open session of the engagement ran one under a cached entry and the request's time reaches it |
| KillRuns.RunQueue | plenith/kill_queue.py:93-140 | Any events between two ticks leave an engagement pending exactly when a request is waiting that nothing cleared afterwards; its time is the old one exactly if it was pending and never cleared, and otherwise no older than the run |
| KillRuns.RunConn | plenith/ssh_server.py:178-272 | They close a session exactly when it exits, is lost, or runs a command under a cached entry that reaches it |
| KillRuns.RequestRunTickIff | plenith/ssh_server.py:50-64 | Request, then any events of any sessions and operators, then tick: the session ends closed exactly when an event closed it or a request is waiting that is not an uncleared one from before the connection; if it stays open the request is used up |
| KillProtocol.FastPathOutcome | plenith/ssh_server.py:184-191 | The per-command path kills, cancels or does nothing as its cached entry is new enough, too old or absent |
| KillProtocol.NewerRequestLost | plenith/ssh_server.py:184-191 | A run in which a request raised after the connection is lost to the cached view |
| KillServer.Server.ConnectionMade | plenith/ssh_server.py:116-155 | Opening a connection is the protocol's connect step |
| KillServer.Server.ConnectionLost | plenith/ssh_server.py:290-302 | Losing a connection is the protocol's lose step, leaving no empty registry set |
| KillServer.Server.CancelKill | plenith/kill_queue.py:116-126 | An operator's cancellation is the protocol's cancel step |
| KillServer.Server.RequestKill | plenith/kill_queue.py:93-114 | An operator's request is the protocol's request step |
| KillServer.Server.Exit | plenith/ssh_server.py:195-199 | Leaving the shell closes the session and nothing else |
| KillServer.Server.ApplyKill | plenith/ssh_server.py:226-272 | Applying an entry to a session is the protocol's application, with its result |
| KillServer.Server.RunCommand | plenith/ssh_server.py:178-191 | A command is the protocol's fast-path step |
| KillServer.Server.RefreshView | plenith/ssh_server.py:54-59 | The view becomes the pending entries of one queue read |
| KillServer.Server.PollOnce | plenith/ssh_server.py:50-64 | A poll, in whatever order sets are iterated, is one tick visiting every registered session of a pending engagement |
| Observations.DeserializeObserved | plenith/session.py:296-309 | The restoring loop promotes lists to sets where the template has sets, drops unknown keys and backfills missing ones |
| Observations.ReconnectIdentity | plenith/session.py:343-347 | A reconnect restores every template key as it was and drops every other key |
| Observations.RoundTripIff | plenith/session.py:296-309 | Per key the round trip loses nothing exactly when no list is stored under a set's key and no set under any other |
| Sightings.FlagStep | plenith/session.py:384-539 | An event raises exactly its own flags and leaves every other as it was, but for the detector's outputs, which a command overwrites |
| Sightings.NamesStep | plenith/session.py:384-539 | An event brings exactly its own names, and swallows the decoy it reads |
| Sightings.ValueStep | plenith/counter_ai.py:342-357 | A command leaves the detector's score and signals, and the first reverse shell seen is kept |
| Sightings.ExtraStep | plenith/counter_ai.py:342-357 | Outside the template only a command writes: the history always, the proof once there is one |
| Observations.FreshTemplate | plenith/session.py:235-295 | A fresh session has seen nothing and raised nothing |
| Heuristics.Session.Resumed | plenith/session.py:141-147 | A resumed session starts from its restored observations |
| Heuristics.Session.ObserveRead | plenith/session.py:384-407 | A read records credential access, history inspection and a swallowed decoy, and nothing else |
| Heuristics.Session.ObserveWrite | plenith/session.py:409-415 | A write or touch records persistence, honeytoken and payload evidence |
| Heuristics.Session.ObserveUnlink | plenith/session.py:417-420 | Removing a honeytoken counts as modified and deleted |
| Heuristics.Session.ObserveSearch | plenith/session.py:463-478 | A search records its terms when any look for credentials |
| Heuristics.Session.ObserveCommand | plenith/session.py:480-539 | The step-by-step update equals the specification's event |
| Heuristics.ActedEnabled | plenith/responses.py:16-122 | Acting on a rule re-enables none and disables only itself, except that proof silences detection |
| Heuristics.PassIsDue | plenith/heuristics.py:10-242 | One pass lists exactly the due rules, in ladder order |
| Heuristics.PassBound | plenith/heuristics.py:78-111 | Sixteen rules never give more than fifteen actions |
| Heuristics.PassHead | plenith/orchestrator.py:222-239 | Taking the first enabled rule takes the head off the pass |
| Heuristics.Session.DecideAction | plenith/heuristics.py:10-242 | The if-ladder returns the first enabled rule, or nothing exactly when none is, and raises only that rule's flags |
| Heuristics.Session.Execute | plenith/responses.py:16-34 | An executor's effect on the observations is its planted decoy, or nothing if it raised first |
| Heuristics.Session.MaybeRecordAction | plenith/orchestrator.py:215-239 | For any state and clock the drain emits one ordered pass of at most fifteen actions and ends with no rule enabled |
| Engagement.UpdatedKeeps | plenith/session.py:384-539 | No event ever lowers a rule's flag or breaks the template's shape |
| Engagement.ActedAllKeeps | plenith/orchestrator.py:222-239 | After a drain every fired rule's flag is up, and proof has closed detection |
| Engagement.DrainedOnce | plenith/heuristics.py:10-242 | One drain fires each rule at most once, only with its flag down, and never detection beside proof |
| Engagement.FiringsOnce | plenith/session.py:139-152 | From any well-formed state a run repeats no rule and fires none whose flag was up |
| Engagement.EachRuleOncePerEngagement | plenith/session.py:139-152 | Over any number of connections each rule fires at most once and the high LLM alert never follows the critical one |
| Evidence.UpdatedCoherent | plenith/session.py:384-539 | Every event keeps each flag and its evidence together, swallowed decoys planted and deleted honeytokens modified |
| Evidence.ActedAllCoherent | plenith/responses.py:16-122 | So does every drain |
| Evidence.EvidenceCoherent | plenith/session.py:139-152 | Over every engagement, across events, drains and reconnects, the evidence is coherent |
| Causes.FlagHistory | plenith/session.py:384-539 | Over a whole engagement a flag is up exactly when some event raised it or some firing did |
| Causes.NameHistory | plenith/session.py:384-539 | A name is recorded exactly when some event brought it |
| Causes.PlantedHistory | plenith/responses.py:34-122 | The decoys on record are exactly those that the executor of a fired rule planted |
| Causes.SwallowedHistory | plenith/session.py:398-406 | The decoys on record as swallowed are exactly those read after they were planted |
| Causes.FiredIffCaused | plenith/heuristics.py:10-242 | An engagement has fired a rule exactly when at some drain the rule had its reason in the events so far: detection by the last verdict and no proof yet, the clock rule by ten minutes when its turn comes and no crown jewel found |
| Causes.DrainedIffCaused | plenith/heuristics.py:10-242 | After a drain every other rule has fired exactly if its reason was ever seen, whenever the drains came |
| Causes.DrainOrder | plenith/heuristics.py:10-242 | One drain speaks in the order of the source's rules: graver alerts first, but for the proof of an LLM, and every alert before every deception |
| RlPolicy.ArgMax | plenith/policy.py:313-316 | The first index of the greatest entry |
| RlPolicy.Draw | plenith/policy.py:309-316 | Normalising and picking, greedily or by any honest sampler, lands on positive mass |
| RlPolicy.Session.Mask | plenith/policy.py:298-306 | The loop zeroes exactly the taken actions other than the no-op |
| RlPolicy.Session.Decide | plenith/policy.py:292-325 | For any output the action is real, not the no-op and not taken; greedily it is the preferred open one, and none exactly when mass is out or the no-op is preferred |
| RlPolicy.Session.MaybeRecordAction | plenith/orchestrator.py:222-239 | The drain ends by declining within fifteen actions, each new to the connection |
| RlPolicy.ExtendsTransitive | plenith/orchestrator.py:215-239 | Drains compose over a connection |
| RlPolicy.NewBound | plenith/policy.py:244-256 | However often it is drained, a connection yields at most fifteen actions |
| Scoring.VariationBound | plenith/counter_ai.py:224-231 | For n positive gaps the squared coefficient of variation is at most n - 1 |
| Scoring.TimingDefined | plenith/counter_ai.py:214-236 | The score by its definition: gaps of at least a millisecond, their mean, and the root of their mean squared distance from it |
| Scoring.TimingBySquares | plenith/counter_ai.py:230-236 | The timing score is full, or zero, exactly by a comparison of squares |
| Scoring.ScoreTiming | plenith/counter_ai.py:214-236 | The score lies in [0, 1] |
| Scoring.SteadyScoresZero | plenith/counter_ai.py:214-236 | Equal gaps score zero |
| Scoring.FourStampsBound | plenith/counter_ai.py:214-236 | Four timestamps score at most the root of two less a half, which is below 0.92 |
| Scoring.FullScoreNeedsFive | plenith/counter_ai.py:214-236 | The full score takes at least five timestamps, and five can reach it |
| Scoring.LexicalPurity | plenith/counter_ai.py:238-259 | One command's purity lies in [0, 0.9], with the top for exactly one combination of findings |
| Scoring.PurityFindings | plenith/counter_ai.py:238-259 | What each finding is worth, and that a shortcut costs 0.4 and the bonus for length, down to zero |
| Scoring.CombineMonotone | plenith/counter_ai.py:267-286 | More of any signal never lowers the confidence, and probes beyond two add nothing |
| Scoring.NoClamp | plenith/counter_ai.py:267-286 | On the scores there are the clamps never bite: the confidence is the weighted sum |
| Scoring.ThresholdsCost | plenith/counter_ai.py:267-286 | No signals reach 0.55 without three commands and two probes, four and one, or five, nor 0.70 without four and one |
| CounterAi.CounterAIState.AddCommand | plenith/counter_ai.py:159-163 | Appends within a window of fifty |
| CounterAi.CounterAIState.Notice | plenith/counter_ai.py:303-355 | One observed command changes the whole state as the specification says, and reports a fresh arming |
| CounterAi.AverageWeighs | plenith/counter_ai.py:325-328 | Every command of the window counts alike in the average, wherever it stands |
| CounterAi.NoticedSignals | plenith/counter_ai.py:303-357 | One command leaves the timing of its window, the average purity, every probe so far, their weighted sum, and a trap armed from 0.7 |
| CounterAi.LengthPays | plenith/counter_ai.py:238-259 | Exactly a command of over twenty characters without a shortcut earns the bonus for length |
| CounterAi.Session.ObserveCommand | plenith/counter_ai.py:292-359 | Creates the state with its marker on first use; judges by the threshold |
| CounterAi.WindowsOfHistory | plenith/counter_ai.py:303-342 | Every list is the last fifty or hundred of the whole history, and the confidence the history's |
| CounterAi.LatchesOfHistory | plenith/counter_ai.py:313-355 | The trap is armed exactly when some prefix earned it; the recorded proof is the first echo |
| CounterAi.LatchesHold | plenith/counter_ai.py:319-355 | Once armed or leaked, always so, with the same proof |
| CounterAi.ConfidenceCosts | plenith/counter_ai.py:267-286 | Over every history confidence stays in [0, 0.91]; 0.55 takes three commands and two probes, four and one, or five; 0.70 takes four and one |
| CounterAi.Sprees | plenith/counter_ai.py:292-359 | Histories of exactly three commands with two probes, four with one and five with none reach the thresholds, and one reaches 0.91 |
| CounterAi.ThresholdBudgets | plenith/counter_ai.py:292-359 | For any numbers of commands and probes: some history within them reaches 0.55, or 0.70, exactly when the numbers are enough by these counts |
| CounterAi.RestoreIdentity | plenith/counter_ai.py:165-208 | Restoring what was saved gives the same state |
| CounterAi.EmptySnapshot | plenith/counter_ai.py:183-208 | What is missing from a snapshot reads as in a blank state |
| CounterAi.ReconnectsTransparent | plenith/counter_ai.py:183-208 | Once a state exists, reconnects anywhere change nothing later |
| CounterAi.ReconnectTransparentIff | plenith/session.py:173-176 | An engagement's reconnects are invisible exactly when it began with a command; otherwise the signals agree but the trap is lost for good |
| CounterAi.PayloadCarriesMarker | plenith/counter_ai.py:113-124 | The bait contains the marker |
| CounterAi.MarkersApart | plenith/counter_ai.py:108-111 | Engagements with different digests have different markers |
| CounterAi.ArmedTrapCatches | plenith/counter_ai.py:361-380 | An armed trap keeps the body up to trailing newlines and shows the marker; a command is recorded exactly when it contains the marker and is the first to |
| CounterAi.BaitPlaced | plenith/counter_ai.py:361-380 | The bait goes at the end after the trailing newlines are cut, behind a blank line in a configuration file, and nowhere while the trap is not armed |
| TrapFiles.PlantDecoy | plenith/session.py:421-461 | Planting is an untampered write and then the registration of the injecting renderer |
| TrapFiles.DecoyKept | plenith/session.py:421-461 | Through any events of one connection that leave it alone the decoy stays in place, and what is stored for it shows the marker exactly when its text does or it was read armed |
| TrapFiles.PlantedShows | plenith/session.py:421-461 | Until the reconnect every read of a decoy shows the marker exactly when its text does, or the trap is armed by then and the attacker had not changed the path before |
| TrapFiles.PlantedLost | plenith/session.py:158-177 | After a reconnect every read shows the stored body only, with the marker exactly when its text has it, or it was read armed before and planted where the attacker had changed nothing |
| TrapAlert.StepProof | plenith/counter_ai.py:313-357 | Every event keeps the observations in step with the detector, and emits the critical alert exactly on a drain that finds a proof unreported |
| TrapAlert.AlertIffProven | plenith/heuristics.py:78-111 | By the end of any drain the critical alert has been raised exactly when the detector holds a proof |
| TrapAlert.DetectedIffSure | plenith/heuristics.py:93-111 | The detection alert has been raised exactly when some drain found the confidence of the last command at 0.55 and no proof |
| TrapAlert.ArmedFlagged | plenith/counter_ai.py:350-352 | In every engagement the observations say that the trap is armed exactly when it is |
| TrapAlert.FirstEchoAlertsOnce | plenith/heuristics.py:78-111 | The first echo of the marker makes the next drain raise the critical alert, never before and never again |
| SessionLogs.IterActions | plenith/aggregations.py:55-64 | Every action of every log, in order, with its time reconstructed |
| SessionLogs.EventAt | plenith/aggregations.py:55-64 | Each action is an event at its place, at its own time or as long after its log's start as its offset says |
| AlertRates.OneBucket | plenith/aggregations.py:113-114 | A time in the window is covered by exactly the bucket the index arithmetic picks |
| AlertRates.BucketCountFits | plenith/aggregations.py:98-98 | The last bucket's remainder is less than a width |
| AlertRates.Series | plenith/aggregations.py:97-116 | Bucket by bucket and severity by severity, exactly the wanted events covered |
| AlertRates.BucketsPartition | plenith/aggregations.py:97-116 | The buckets' contents add up to the window's |
| AlertRates.TotalsConserve | plenith/aggregations.py:118-119 | Each total is the number of wanted events in the window, whatever the bucket width |
| AlertRates.AlertRate | plenith/aggregations.py:70-133 | Series, totals and the previous window are all exact |
| AlertTop.AlertTop | plenith/aggregations.py:136-177 | It fails exactly when some event of the window has no severity while those of its name before it exist and are all unranked; otherwise one record per name, exact in count, sparkline, first, last and worst severity, the counts adding up to the window's events |
| AlertTop.MissingSeverityFails | plenith/aggregations.py:175-177 | Two events on which the view fails, and on which it stands the other way round |
| AlertTop.SparklineIsCount | plenith/aggregations.py:160-172 | A sparkline adds up to its row's count |
| AlertTop.WorstSeverity | plenith/aggregations.py:175-177 | A record's severity is the worst of its events, in the order critical, high, medium, info, unknown |
| AlertTop.SparkWidths | plenith/aggregations.py:153-153 | A sparkline divides its window evenly, but into no less than seconds |
| AlertTop.TopAgreesWithRate | plenith/aggregations.py:136-177 | The two views' totals agree exactly when every event in the window has a ranked severity |
| Activity.Heatmap | plenith/aggregations.py:219-253 | Rows for exactly the hosts asked for, every cell the number of its events |
| Activity.RowConserves | plenith/aggregations.py:240-253 | A host's twenty-four cells hold each wanted event exactly once |
| Activity.KindsSplit | plenith/aggregations.py:221-224 | Alerts and commands split every cell, and an unknown kind counts both |
| Activity.CellEngagements | plenith/aggregations.py:301-337 | One exact row per engagement; with the events of logs without an id they make up the cell |
| Activity.DropIdle | plenith/aggregations.py:338-339 | Exactly the engagements with something in the cell are kept, and no total changes |
| Activity.CellMatchesDrillIn | plenith/aggregations.py:279-339 | A cell equals its drill-in exactly when no log without an engagement id has an event in it |
| Secrets.ApartIffWritten | plenith/secrets.py:282-312 | Taking a reference apart and writing it are inverse, and the parser accepts exactly the readable parts |
| Secrets.SchemeSpelled | plenith/secrets.py:87-87 | A scheme is a lower-case letter followed by such letters, digits, `+` and `-` |
| Secrets.FindReferences | plenith/secrets.py:412-427 | The walk lists exactly the reference leaves, with their paths, in order |
| Secrets.LeafIffAddressed | plenith/secrets.py:412-427 | The texts listed are exactly those of the tree, each under the path that leads to it |
| Secrets.DigitsSpell | plenith/secrets.py:423-423 | An index is written as its decimal numeral |
| Secrets.AnswerAsks | plenith/secrets.py:302-342 | The provider is asked for the spec with the query's parameters but the default, and the fragment under its own name; a default answers only when the provider fails |
| Secrets.Resolver.ResolveValue | plenith/secrets.py:314-357 | Through any sound cache the answer is the uncached one, and the cache stays sound |
| Secrets.Resolver.Resolve | plenith/secrets.py:359-406 | The cached walk gives the substituted tree or the first failure, as with no cache |
| Secrets.ShapeKept | plenith/secrets.py:365-371 | Substitution keeps the tree's shape |
| Secrets.ResolveChangesReferences | plenith/secrets.py:359-427 | Resolution succeeds exactly when every reported reference can be answered, and changes only reported leaves |
| TerminalSafe.SubClean | tools/audit.py:118-129 | No control character is left and nothing grows |
| TerminalSafe.SubCodePoints | tools/audit.py:115-129 | By code points: of the controls only tab, line feed and carriage return are left |
| TerminalSafe.PlainPasses | tools/audit.py:118-129 | Clean text passes through in front of anything |
| TerminalSafe.SafeFixesIff | tools/audit.py:118-129 | Exactly clean text is left alone; twice is once |
| TerminalSafe.MatchWhole | tools/audit.py:105-116 | The order of the alternatives consumes each complete sequence whole |
| TerminalSafe.Classes | tools/audit.py:105-116 | The character classes of the patterns, by their characters |
| TerminalSafe.MixtureShown | tools/audit.py:105-129 | Text mixed with complete sequences shows every sequence as one mark and all the text |
| TerminalSafe.UnendedOsc | tools/audit.py:105-116 | An unended string sequence loses its introducer and keeps its text |

## Left out

- SSH, asyncio, the byte bridge of the PROXY listener, file writes and JSON encoding: stores are in-memory maps changed
  in atomic steps, and persistence is a structural snapshot.
- Concurrent writers of one overlay or queue file: the code documents last-writer-wins, so nothing is promised.
- Floating point: scores, times and probabilities are exact reals; the sampler's tolerance is not modelled.
- The regular expressions that recognise commands: what they found is the input of `Observations.Updated` and of
  `CounterAi.Command`. The language-model path, third-party plugins and prompt text are left out too.
- The contents of planted decoys, and honeytoken bookkeeping: the rules see a decoy only as a planted path.
- Log entries whose severity or name is not a string or missing.
- The order in which serialised sets and listings are sorted, and the final sort and row limit of the aggregations.
- `cp`, `mkdir`, `rmdir`, redirections, `exists` and `list_under` of the filesystem: each is one or two of the modelled
  operations.
- Channel closing calls the connection-lost callback in the source's event loop; here it is a step of its own that may
  come at any later time.
- The headline figures of the heatmap (peak hour, busiest host) and the DNS statistics: maxima over exact cells.
- The PROXY header parser and the retention plan: straight-line checks and a filter, which would add easy members.
- Hand-edited detector snapshots: one that says the trap leaked but holds no command reads as an empty command here.
- The built-in secret providers: a provider is any function from spec and parameters to an answer or a failure.
- Traverse.Traverse: excludes a relative root with a trailing slash, from which the source's parent walk does not end;
  no absolute path is such a root.
- Traverse.Ancestors: excludes the same roots; its loop is that walk.
- Traverse.Find: excludes the same roots; it traverses.
