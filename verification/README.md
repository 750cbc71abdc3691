# regied: a verified model

regied keeps one host as a declaration says: it renders the declaration, compares it with the
host, writes files and runs ordered steps, and does so again on every tick. This project models
the parts of it whose correctness is an argument rather than a glance, and proves the argument in
Dafny 4.11. `dafny verify dfyconfig.toml` checks all of it.

## What is modelled

- **Turns** (`Host`, `Planning`, `Planner`, `Turns`, `Engine`): a world of files, daemons with a
  snapshot of what each last read, kernel switches, the nftables table and its sets, units, DNS
  memory, the record and the owed file; the plan computed from it; staging, acceptance and commit
  with a failure possible at every file, step and write, a step failing before or after its effect.
  `Owing`, `PlanFacts`, `NothingLost`, `LinkEvents`, `Overtaking`, `OvertakenOnce`, `Safety`,
  `Tables`, `Report`, `Unattended`, `Effects`, `Idempotence` and `Quiet` prove what runs of such
  turns keep; `Disk`, `Switches`, `Processes` and `ProcessOrder` what a turn leaves and in what order;
  `LeftOverOnce` and `UpAlreadyOnce` are examples.
- **The resident process** (`Serve`): one loop over ticks, requests and timers around the engine.
- **The line diff** (`Diff`).
- **Derived numbers** (`Allocation`, `Numbers`, `NumberOrder`), **derivation cycles** (`Cycles`) and **port
  forwards** (`PortForwards`).
- **The firewall** (`Packets`, `PolicyChains`, `FilterChains`) and **return routing**
  (`MarkChain`, `EgressPaths`): rules as structured matches over packets, connections as runs of packets.
- **Delegated prefixes** (`Powers`, `Delegation`, `Advertisement`, `Derived`): RFC 8415 section 6.3,
  RFC 4291 section 2.5.4, RFC 4862 section 5.5.3.
- **The DNS writer** (`Ddns`).

Where the source loops or updates an object in place, the model is a method or a class with the same
branches, and its contract equates what it leaves with a function; the lemmas are about that function.

## What is assumed

- A turn returns, and the owed file can be read and written: a crash between staging and settling
  is outside the claims. A file is written whole or not at all.
- While the process holds its lock nobody else writes the record of the declaration or the owed file.
- Nothing is claimed of the processes a turn restarts beyond the steps it asks for: only what has
  files read again, or a link given an event, is ever owed.
- Names that name one thing are distinct, as validation has it: artifacts by path, sets and records by
  key, resources by kind and name. No interface takes an uplink's name. A switch may be asked for
  twice, but with one value, as the renderer does it.
- A declared session has its peer file and dnsmasq its configuration among the artifacts, and every
  set written at runtime is declared empty: what the renderers guarantee.
- Ports are from 1 to 65535, those of forwards as those packets are addressed to.
- Twice the policies and once the forwards stay within 2^32 - 256, so that no mark is truncated.
- The clock does not move within one turn.
- A provider gives no identifier out twice and keeps at most one record for a zone, name and type to
  begin with; two zones are not one.
- A connection's opening packets arrive on one link; later ones may arrive anywhere.

## What turned out otherwise

- A set kept in address order is written on every turn when that is not its order as text
  (`Quiet.SecondPlanIsEmpty` gives the exact condition, `Quiet.NumberOrderNeverSettles` an example).
- The recorded ruleset can name a table that is not in the kernel, and then every turn toward that
  ruleset, a submitted one included, leaves the other table where it is
  (`TableFacts.StaleRecordKeepsTheTable`). It comes to that in exactly two ways
  (`TableFacts.TwoWaysUntrue`, over whole runs `TableFacts.TruthOverRun`). The turn put the table in
  and then stopped, or could not write the ruleset down; a turn back can then succeed and keep the
  other table (`TableFacts.GoingBackHappens`). Or the turn was unattended, the backoff held the
  table's step back, and the rest succeeded: the ruleset is written down all the same
  (`TableFacts.HeldBackHappens`). What a turn that succeeds leaves is `TableFacts.TableAfterSuccess`;
  while the record is true a turn that does not end failing leaves the table wanted
  (`TableFacts.ConvergedOnTheTable`).
- `protocol: 0` in a firewall rule is read as no protocol at all (`PolicyChains.MeaningIsKept`).
- The five-minute cap of the backoff is never reached: the longest delay is 256 seconds
  (`Unattended.BackoffBound`).
- A trial said to have ended by a plain apply did so only because the record could not be loaded
  when it began (`Serve.PlainApplyMeansUnread`).
- The report leaves out a step that was tried exactly when the one the turn stopped at had run earlier
  in the same phase under the same name (`Report.ReportIsTrue`). Whatever fails, it is whole exactly for
  plans that repeat no such name (`Report.WholeReports`), as when each artifact, switch and link is named
  once (`Report.NamedOnceIsWhole`); two interfaces of one link name a switch twice, and validation has
  nothing against it (`Report.OneSwitchTwice`).
- The event of a link is given up for good once a turn finds the link gone (`LinkEvents.EventAfter`). It is
  given before udev has read its files exactly when a turn is unattended, the backoff holds udev's reload
  back and there is something to read, whatever the run (`Overtaking.EventOvertakesOverRun`); it is
  then owed no more (`OvertakenOnce.OvertakingHappens`).
- An unattended turn leaves files that are to be taken away where they are, and can report converged all
  the same: it fails for a unit, and for a process to be stopped, and for nothing else that is left over
  (`Processes.DrasticIsFailing`, `LeftOverOnce.LeftOverHappens`).
- A process that is new and up already, because its unit was running before, is not started anew by the
  turn that brings it up, though that turn wrote what it reads (`Processes.StartedAnew`,
  `UpAlreadyOnce.UpAlreadyHappens`).
- A DNS record deleted from outside is not written again while what is asked for stays the same, and
  an update applied without an answer can be taken back unnoticed (`Ddns.SkippingCanBeWrong`). What the
  process remembers and what is there part exactly there: by a lost update of a record written before, or
  by somebody else taking away or changing one that was written (`Ddns.AlwaysAgrees`).
- A packet that reaches two uplinks, as one that arrives on the one addressed to the other, can match two
  forwards, and which host it is sent to is then decided by the names of the forwards
  (`PortForwards.NamesDecide`); exactly for the packets that reach no two, the order of the rules decides
  nothing (`PortForwards.OneWayExactly`).

## Model

| member | source | states |
|---|---|---|
| Planner.CompareAll | internal/apply/plan.go:722-750 | comparing every artifact with the host gives, for each, a creation, an update or nothing, as its file is absent, different or the same |
| Planner.CollectReclaimed | internal/apply/plan.go:755-813 | what is reclaimed is exactly the files found that are regied's own and that nothing asks for any more |
| PlanFacts.FileMembers | internal/apply/plan.go:640-669 | the files of a plan are comparisons with artifacts and reclaimed files and nothing else, and every one of those is there; a change is deferred exactly when it is a unit's |
| PlanFacts.FilesOnceEach | internal/apply/plan.go:640-669 | there is one change for each artifact and one removal for each file to reclaim, and of one path only one |
| Planner.CollectSwitches | internal/apply/plan.go:862-880 | a switch the kernel does not have is left out, and one is set exactly when it holds another value |
| Planner.CollectSets | internal/apply/plan.go:299-311 | the sets written are those there that hold something else than they should; a set that is not there is left out |
| Planner.CompareFirewall | internal/apply/plan.go:891-930 | the table is replaced exactly when it is known to be gone or another ruleset is recorded; a set is written exactly when it holds something and the table is replaced, or the table stays, the sets can be read, and it is there and differs |
| Planner.CollectRecords | internal/apply/dns.go:134-145 | a record is written unless this process last wrote exactly it |
| Planner.SwitchesToSet | internal/apply/plan.go:1088-1098 | one step in the kernel phase for each switch that changed |
| Planner.LinksToTrigger | internal/apply/plan.go:1176-1196 | a link gets an event exactly when its file was written and it is on the host |
| Planner.ReadersToTell | internal/apply/plan.go:1100-1113 | a step is among these exactly when it is the reload of networkd or udev and a file that one reads changed, or the event of a link whose own file was written, that is there, and udev is told |
| Planner.SessionsToSettle | internal/apply/services.go:104-143 | each session of a list is settled, one after the other |
| Planner.SessionsNamed | internal/apply/services.go:104-168 | the sessions settled are exactly those declared and those a peer or credentials file of the plan still names, each once and in order |
| Planner.ProcessesToSettle | internal/apply/services.go:38-143 | a step is among these exactly when settling a session declared or still named, or dnsmasq, asks for it; no declared session and no declared dnsmasq is stopped |
| Planner.UnitsToRemove | internal/apply/services.go:179-204 | every deferred removal is a step, and one reload of systemd is the last of them, if there are any |
| Planner.RecordsToWrite | internal/apply/plan.go:1127-1137 | one step in the last phase for each record to write |
| Planner.CollectSteps | internal/apply/plan.go:1065-1139 | the steps come in phase order, and the only table ever installed is the one wanted, when it is to be replaced |
| Planner.PutIn | internal/apply/owed.go:109-114 | a step is put in ahead of the first one of a later phase |
| Planner.WithOwed | internal/apply/owed.go:79-116 | every owed step of the file is put in once, unless the plan has it, it is none regied can owe, or its link is gone; and every owed step of the result is noted |
| Planner.MakePlan | internal/apply/plan.go:628-696 | whatever the owed file holds: phases are in order, each reader of a changed file is told, every owed step is run, and a reload follows every unit taken away |
| PlanFacts.PlanIsSound | internal/apply/plan.go:1100-1139 | every file that changed has its reader's reload among the owed steps, every owed step is run by the plan, phases are in order, and a reload follows every unit taken away, whatever the owed file puts in |
| OwingFacts.AddOwedKeeps | internal/apply/owed.go:79-116 | every step of the owed file that regied can owe and whose link is there is run by the plan |
| LinkEvents.OwedAfter | internal/apply/owed.go:79-179 | after any turn a step regied can owe is owed exactly when it was asked for or owed before, its link is there, and it has not run |
| LinkEvents.EventAfter | internal/apply/plan.go:1164-1196 | the event of a link is owed after any turn exactly when its file was to be written or it was owed before, the link is there, and it has not run |
| LinkEvents.EventWaits | internal/apply/owed.go:79-179 | over every run an event that is owed stays so for as long as every turn finds the link and does not run it |
| Overtaking.ReloadAheadOfEvents | internal/apply/plan.go:1100-1113 | in every plan, with what was owed put in and the filter applied, udev's reload is ahead of every event of a link |
| Overtaking.TidyOverRun | internal/apply/owed.go:142-179 | over every run that begins so, as with nothing owed, the owed file has udev's reload ahead of every event and both in the phase of networkd |
| Overtaking.SettledInOrder | internal/apply/owed.go:142-179 | what is settled as owed is in the order of the phases, and in one phase of the commands |
| Overtaking.EventOvertakes | internal/apply/turn.go:633-659 | a turn, attended or not, tries an event while udev has not read a file of its that regied last changed exactly when the turn is unattended, the backoff holds udev's reload back, and there is such a file once those of the plan are written |
| Overtaking.EventOvertakesOverRun | internal/apply/turn.go:633-659 | the same of every event tried in every turn of every run that begins with nothing lost and the owed file in order |
| Overtaking.EventOvertakesReload | internal/apply/turn.go:633-659 | with the reload held back and the event not, the event of a link whose file was to be written is planned and the reload is not; it is tried while udev is behind exactly when there is something to read, and once it has run it is owed no more |
| OvertakenOnce.OvertakingHappens | internal/apply/turn.go:633-659 | one new link file and udev's reload held back: the turn succeeds, the event has run and is owed no more, and udev has not read the file |
| Engines.Engine.Stage | internal/apply/apply.go:154-178 | staging writes and reclaims file by file and stops at the first that fails, leaving a prefix done |
| Engines.Engine.Commit | internal/apply/apply.go:209-254 | the commit runs steps in order and stops at the first failure, but goes on past a record; it keeps which keys ran and which records were refused |
| Engines.Engine.SettleOwed | internal/apply/owed.go:142-179 | what is left owed is exactly the owed steps whose key did not run, in phase order |
| Engines.Engine.Accept | internal/apply/turn.go:163-209 | a declaration already recorded is not written again; otherwise it is recorded or nothing changes |
| Engines.Engine.StagedAndCommitted | internal/apply/apply.go:108-143 | the order of a turn: staging, acceptance, commit, and only then the installed ruleset is recorded |
| Engines.Engine.RunTurn | internal/apply/apply.go:95-106 | a turn settles what is owed whatever it reached |
| Engines.Engine.HoldBack | internal/apply/turn.go:623-661 | the loop keeps, drops and holds back exactly the steps the filter says, and forgets the retries nothing asked for |
| Engines.Engine.Submit | internal/apply/turn.go:448-474 | a submission starts the retries anew, runs one turn with the declaration, and loses no owed reload |
| Engines.Engine.Attend | internal/apply/turn.go:577-621 | a turn somebody asked for toward the record or a trial submits nothing and loses no owed reload |
| Engines.Engine.ReconcileUnattended | internal/apply/turn.go:584-621 | an unattended turn starts the retries anew for another revision, and loses no owed reload |
| Engines.Engine.ReconcileTrial | internal/apply/turn.go:540-563 | an unattended turn toward a trial goes on with the retries there are |
| DiskFacts.OursIsBranded | internal/apply/plan.go:755-853 | a file found is regied's by its name in networkd's directory, by its name and its marker among units and hooks, by its marker elsewhere; the marker is the first line, or the second of a script |
| DiskFacts.DiskAfterTurn | internal/apply/apply.go:154-178 | after every turn past staging, attended or not, each path the declaration asks for holds exactly what it asks; any other is as it was, or is gone, and that only by an attended turn, when it is regied's, listed, and neither asked for nor withheld: then it goes, a unit once the turn succeeds |
| DiskFacts.DiskAfterAnyTurn | internal/apply/apply.go:154-178 | after any turn, however it ends, each path is as it was, or as the declaration asks, or is such a file taken away |
| DiskFacts.OnlyLeftOversDiffer | internal/apply/turn.go:628-632 | all that differs after a turn past staging is files to take away: the next comparison finds nothing to write |
| DiskFacts.FilesInOrder | internal/apply/plan.go:640-669 | files are staged in the order of their paths |
| SwitchFacts.SwitchAfterTurn | internal/apply/plan.go:862-880 | however a turn ends a switch the kernel has holds what it held or what is wanted of it, one it has not is not there, and an attended turn that succeeds leaves what is wanted |
| Processes.PlanAsks | internal/apply/services.go:38-98 | the commands a plan holds for a unit, each exactly when, in terms of the declaration and of what is on disk: stopped when undeclared with something left over; brought up when new; started when known to be down; enabled when its unit was missing; restarted when anything it reads is rewritten |
| Processes.StartedAnew | internal/apply/services.go:38-98 | an attended turn that succeeds starts a declared unit anew exactly when something it reads was rewritten or it was known to be down; one that is new, exactly when it was not up |
| UpAlreadyOnce.UpAlreadyHappens | internal/apply/services.go:64-70 | a unit that is up without its configuration: the turn that writes it succeeds and does not start the unit anew |
| Processes.UnitAfterTurn | internal/apply/services.go:38-98 | which units are up after an attended turn that succeeds, exactly, the declared and the undeclared |
| Processes.LeftAlone | internal/apply/services.go:33-37 | no turn, however it ends, restarts a process nothing of which is rewritten, starts one not known to be down, or stops one that is declared |
| ProcessOrder.ReadBeforeProcesses | internal/apply/plan.go:1065-1125 | when an attended turn comes to a process, networkd, udev and systemd have read every file of theirs it wrote |
| ProcessOrder.DnsmasqLast | internal/apply/services.go:101-143 | no command for a session comes after one for dnsmasq, whatever earlier turns left owed |
| ProcessOrder.EnabledFirst | internal/apply/services.go:71-79 | a unit that was put back is enabled before it is restarted |
| NothingLost.NothingIsLost | internal/apply/owed.go:79-179 | over every run of turns, edits by others and reloads: a daemon that has not read what regied last changed has its reload in the owed file |
| NothingLost.NothingOwedAfter | internal/apply/owed.go:142-179 | a turn that does not end failing leaves nothing owed |
| NothingLost.NotFailingMeansRead | internal/apply/turn.go:320-330 | after any run, a turn that does not end failing leaves networkd, udev and systemd having read exactly what is on disk |
| Safety.RecordBeforeCommands | internal/apply/apply.go:108-143 | the record moves exactly when a submission gets past staging, to exactly its bytes; nothing has run by then, and every step is tried under that record |
| Safety.RefusedExactly | internal/apply/turn.go:163-209 | a turn past staging is refused exactly when it submits another declaration than is recorded and that cannot be written |
| Safety.UnstagedRunsNothing | internal/apply/apply.go:108-143 | a turn that cannot stage every file runs no command and records nothing |
| Safety.CommitWorlds | internal/apply/apply.go:209-230 | each step is tried in exactly the world made by the steps before it that ended well |
| Safety.TurnIsPrefix | internal/apply/apply.go:209-230 | every turn tries exactly a prefix of its plan, whole if it succeeds, ending at the step it stopped at if it stops |
| Safety.PhasesInOrder | internal/apply/plan.go:1065-1139 | the steps of every plan are in phase order, the unattended and the owed included |
| Safety.TableBeforeSwitches | internal/apply/plan.go:1068-1098 | no attended turn that replaces the table tries a kernel switch before the new one is in the kernel |
| TableFacts.TableAtSwitch | internal/apply/plan.go:891-908 | when an attended turn tries a switch, the table it wants is in the kernel exactly if the turn replaces it or it was there to begin with |
| TableFacts.InstallsWhenAsked | internal/apply/plan.go:1068-1075 | a plan holds the table's step exactly when the comparison says the table is to be replaced |
| TableFacts.TruthIsEnough | internal/apply/plan.go:891-908 | as long as the recorded ruleset is the one in the kernel, the table wanted is replaced or is there, unless there is none and that could not be asked |
| TableFacts.TableAfterSuccess | internal/apply/apply.go:125-143 | after any turn that succeeds, attended or not, the table it wants is in the kernel exactly when the turn had the step that puts it in, or the table was there to begin with |
| TableFacts.InstallIsHeld | internal/apply/turn.go:623-661 | an unattended turn has that step exactly when the table is to be replaced and the backoff does not hold the step back |
| TableFacts.HeldBackIsRecorded | internal/apply/apply.go:254-271 | an unattended turn whose table is held back, and which otherwise succeeds, leaves the old table and records the new ruleset, since the plan still says the table is replaced |
| TableFacts.HeldBackHappens | internal/apply/turn.go:623-661 | on a host with a table and nothing else that happens, and no later turn toward that declaration, submitted or not, puts its table in |
| TableFacts.TruthAfterTurn | internal/apply/apply.go:125-143 | a true record stays true over a turn exactly when the turn wrote down the table it put in, or did neither, or it makes no difference |
| TableFacts.TwoWaysUntrue | internal/apply/apply.go:125-143 | it stops being true in exactly two ways: the table went in and the turn stopped or could not write the ruleset down; or the table was held back by the backoff and the ruleset written down |
| TableFacts.TruthOverRun | internal/apply/apply.go:254-271 | over every run the record is true throughout exactly when it was to begin with and every event leaves it so |
| TableFacts.ConvergedOnTheTable | internal/apply/turn.go:320-330 | while the record is true, a turn that does not end failing leaves the table it wants in the kernel, unless there is none and that could not be asked |
| TableFacts.StoppedAfterTheTable | internal/apply/apply.go:125-143 | any turn that replaced the table and stopped in a later phase leaves the new table in the kernel and the old ruleset in the record |
| TableFacts.StaleRecordKeepsTheTable | internal/apply/plan.go:905-908 | while there is a table and the record holds the ruleset wanted, no turn changes which ruleset is in the kernel, whatever it is |
| TableFacts.GoingBackKeepsTheTable | internal/apply/plan.go:891-908 | so a turn stopped in a later phase, and then any turn back toward what was there before, leave the table of the first |
| TableFacts.GoingBackHappens | internal/apply/plan.go:891-908 | on a host with a table and one switch that happens, the second turn succeeding |
| Safety.StopsBeforeRemovals | internal/apply/services.go:170-193 | when a unit file is taken away, every stop of the plan has run before it and succeeded |
| Report.Tell | internal/apply/turn.go:370-391 | one more step goes under its phase: each line names the steps of its phase in the order they ran, phases in order |
| Report.PhasesOf | internal/apply/turn.go:354-392 | the lines name, phase by phase, the steps up to the one the turn stopped at, less the refused records |
| Report.ReportIsTrue | internal/apply/turn.go:348-392 | the report names, in order, steps the turn tried and no other; it names all of them but refused records exactly when the turn did not stop at a step that had run before under the same name in the same phase |
| Report.WholeReports | internal/apply/turn.go:348-392 | for every plan: whatever fails in a turn the report names all that was tried but refused records, exactly when the plan repeats no name in a phase that it can stop at |
| Report.NamedOnceIsWhole | internal/apply/plan.go:1065-1139 | a declaration that names each artifact, each switch and each link once has such plans only, on every host, attended or not, whatever the owed file holds |
| Report.OneSwitchTwice | internal/apply/render.go:249-261 | two interfaces of one link ask for one switch twice; when the second setting fails the report leaves out the step the turn stopped at |
| Unattended.PlanIsSplit | internal/apply/turn.go:623-661 | the steps kept and the steps named as failing, each in order, are together the full plan |
| Unattended.LineIsKept | internal/apply/turn.go:623-676 | an unattended turn takes no file away and tries no restart, no disable and no removal, even read back from the owed file; it tries only steps of the full plan |
| Processes.NothingTakenDown | internal/apply/turn.go:663-676 | an unattended turn, however it ends, removes no file and runs no systemctl with restart or disable in it, and every unit that was up stays up |
| Processes.DrasticIsFailing | internal/apply/turn.go:623-661 | a plan holds such a step exactly when a process not known to be down is to be restarted, one is to be stopped, or a unit is left over; and an unattended turn that finds it so ends failing |
| LeftOverOnce.LeftOverHappens | internal/apply/turn.go:628-632 | a file of networkd's that nothing asks for, on a host with nothing else to do: the unattended turn reports converged and the file is there |
| Unattended.ReportedExactly | internal/apply/turn.go:318-330 | a turn ends failing exactly when it did not get through every step of the full plan, records included; of the others exactly those wait whose declaration waits for something |
| Unattended.DroppedIsFailing | internal/apply/turn.go:623-661 | a turn that dropped or held back a step ends failing; one that does not has tried the full plan |
| Unattended.KeysAreIndependent | internal/apply/turn.go:633-659 | whether a key runs depends on its own history alone, and it is planned at or after its deadline |
| Unattended.BackoffBound | internal/apply/turn.go:644-652 | attempts 1 and n of a key are at least 2^(n-1)-1 seconds apart up to the tenth, 256 more each beyond; no delay is above 256 seconds, so the cap of five minutes is never reached |
| Idempotence.FilesSettled | internal/apply/plan.go:527-541 | after a submitted turn that succeeded no file differs and none is left to reclaim |
| Idempotence.SwitchesSettled | internal/apply/plan.go:862-880 | nor is any switch to be set |
| Idempotence.RecordsSettled | internal/apply/dns.go:134-145 | nor any record to be written |
| Idempotence.ProcessesSettled | internal/apply/services.go:38-85 | nor any process to be started, stopped or restarted |
| Quiet.WrittenAgain | internal/apply/plan.go:299-311 | sets written once are written again exactly when one of them is not in the order sets are read back in |
| Quiet.SecondPlanIsEmpty | internal/apply/plan.go:527-541 | after a submitted turn that succeeds the next plan is empty exactly when every set it wrote is strictly increasing as text, or the sets cannot be read |
| Quiet.NumberOrderNeverSettles | internal/apply/plan.go:279-294 | an uplink set kept in address order can be written again for ever: 9.0.0.1 before 10.0.0.1 |
| Orders.CanonicalFixedPoint | internal/apply/plan.go:982-987 | a set reads back as it was written exactly when it is strictly increasing as text |
| Derived.ElementsOf | internal/apply/derived.go:23-73 | a derived set is every literal, and every address and network cut from what an interface holds, once, in the order it is read back in; exactly the others are waited for |
| Serve.Server.Run | internal/apply/serve.go:107-161 | one unattended turn, toward the trial while it is held, else toward the record, after a trial the record has moved past is dropped |
| Serve.Server.Submit | internal/apply/serve.go:182-187 | a submission drops the trial before it is validated |
| Serve.Server.Try | internal/apply/serve.go:188-217 | a trial with a deadline is held, with a timer of its own, before it is validated; one without is refused and changes nothing |
| Serve.Server.Confirm | internal/apply/serve.go:218-238 | a confirmation records the trial and drops it, or changes nothing |
| Serve.Server.Revert | internal/apply/serve.go:102-106 | the trial is dropped and one attended turn runs toward the record |
| Serve.Server.Handle | internal/apply/serve.go:173-255 | every event leaves exactly the state the transition function says |
| Serve.RecordMoves | internal/apply/serve.go:173-255 | the record changes by an accepted submission or a confirmation alone, to exactly those bytes |
| Serve.NextHolds | internal/apply/serve.go:95-256 | a trial is held exactly when its timer is; the timer is never set before the deadline; the record is what it was when the trial began |
| Serve.NextKeeps | internal/apply/serve.go:95-256 | no event of the loop loses an owed reload |
| Serve.TrialEnds | internal/apply/serve.go:239-254 | a cancellation or the trial's own timer drops it and runs one attended turn toward the unchanged record; any other timer does nothing |
| Serve.ClockAims | internal/apply/serve.go:107-123 | a periodic turn is unattended, aims at the trial if one is held, else at the record, and is run exactly when that can be loaded and seen |
| Serve.TickRuns | internal/apply/serve.go:107-161 | a tick runs exactly that one turn or none, and leaves exactly the world and the retries of that turn; retries start anew for another record and go on during a trial |
| Serve.TickDrops | internal/apply/serve.go:107-116 | a tick drops a trial exactly when another declaration was recorded since it began |
| Serve.SubmissionRuns | internal/apply/serve.go:182-187 | a submission runs exactly one turn with the bytes submitted and retries anew, if they can be seen, and leaves exactly its world |
| Serve.TrialRuns | internal/apply/serve.go:188-217 | a trial with a deadline is held until it or until now, and exactly one attended turn is run toward its bytes if they can be seen |
| Serve.ConfirmationRecords | internal/apply/serve.go:218-238 | a confirmation makes the trial the record and drops it, and changes nothing else |
| Serve.EndRuns | internal/apply/serve.go:239-254 | a cancellation or the trial's own timer runs exactly one attended turn toward the record, if it can be loaded and seen, and leaves exactly its world |
| Serve.PlainApplyMeansUnread | internal/apply/serve.go:108-113 | a trial ends as by a plain apply exactly when the record could not be loaded as it began and now can |
| Serve.TimerEndsItsOwnTrial | internal/apply/serve.go:193-206 | over every interleaving, a timer ends only the trial it was started for, held without a break since, and not before its deadline |
| Serve.RecordRestsDuringTrial | internal/apply/serve.go:95-256 | as long as one trial is held the record is what it was when it was asked for |
| Diff.FillLengths | internal/apply/diff.go:57-68 | the table holds, for every two suffixes, the length of their longest common subsequence |
| Diff.LineEdits | internal/apply/diff.go:56-93 | the walk over the table gives the script of the specification |
| Diff.ScriptIsCorrect | internal/apply/diff.go:56-93 | the lines not added spell the old text and the lines not removed the new one |
| Diff.ScriptIsMinimal | internal/apply/diff.go:56-93 | no other script that turns the one into the other keeps more lines, or has fewer edits |
| Diff.ScriptKeepsFirst | internal/apply/diff.go:70-88 | of all scripts that keep as much, the one printed keeps rather than removes, and removes rather than adds, where they part |
| Diff.LcsIsUpperBound | internal/apply/diff.go:57-68 | no common subsequence is longer than the length computed |
| Diff.HunksOf | internal/apply/diff.go:104-154 | hunks are apart and in order, hold every change once, with at most three lines of context at the ends and six between changes, and exact starts and counts |
| Diff.GroupingIsUnique | internal/apply/diff.go:104-154 | there is only one way to group the edits into such hunks |
| Diff.PatchRebuildsNew | internal/apply/diff.go:19-35 | applying the hunks to the old lines gives the new ones |
| Diff.PatchRebuildsOld | internal/apply/diff.go:19-35 | undoing the hunks on the new lines gives the old ones |
| Diff.UnifiedDiff | internal/apply/diff.go:19-35 | the text is empty exactly when the two line lists are equal, and it patches both ways |
| Diff.SameLines | internal/apply/diff.go:40-51 | two texts have the same lines exactly when they differ by a final newline at most |
| Allocation.Allocator.Next | internal/config/derive.go:223-231 | the least usable number at or above the cursor is handed out, and the search ends |
| Allocation.PinPolicy | internal/config/derive.go:88-125 | a pin that is reserved, zero or taken is a problem and reserves nothing; any other is reserved |
| Allocation.HandOut | internal/config/derive.go:127-153 | what is not pinned is handed out in the order of the policies, which `NumberOrder.NumbersFollowPriority` says |
| Allocation.PublishedKeys | internal/config/derive.go:165-180 | each uplink and family a complete forward is published on, once |
| Allocation.ForwardReturns | internal/config/derive.go:165-200 | the uplinks get theirs after the policies, by family and name |
| Allocation.DeriveRouting | internal/config/derive.go:78-156 | the whole derivation, problems included |
| NumberFacts.PinsAreChecked | internal/config/derive.go:96-119 | problems are reported exactly when a pinned table is the kernel's, a pinned mark is zero, or two pins are one |
| NumberFacts.DrawFills | internal/config/derive.go:223-231 | a mark drawn is never further from the first than there are numbers spoken for |
| NumberFacts.NumbersAreDistinct | internal/config/derive.go:78-200 | in an accepted configuration all tables are different and unreserved, all marks different and not zero, pins are kept, and there is one return for exactly each uplink and family published on |
| NumberFacts.OrderDoesNotMatter | internal/config/derive.go:68-77 | any order of policies and of forwards gives the same numbers, and is accepted alike |
| NumberOrder.NumbersFollowPriority | internal/config/derive.go:127-153 | of two policies that leave a number to be handed out, the IPv4 one, and in a family the one of the lower priority, and of one priority the one whose name comes first, is handed the lower |
| NumberOrder.ReturnsFollow | internal/config/derive.go:158-200 | the uplinks get theirs by family and name, rising, and all above those handed to policies |
| NumberOrder.NumbersAreLeast | internal/config/derive.go:209-231 | no number is skipped: from 100 and from 0x100 on, every one below a number that is handed out is the kernel's own or somebody's |
| Cycles.BuildIndex | internal/config/validate.go:60-85 | the first interface of a name is the one the name leads to |
| Cycles.EdgesAre | internal/config/validate.go:840-860 | the edges of a resource are exactly the fields of it that take their value from another: an address of an interface, or a tunnel's local address, from the first interface of that name |
| Cycles.Checker.CyclePath | internal/config/validate.go:862-875 | the path from where the stack comes back to itself is a real closed walk |
| Cycles.Checker.Walk | internal/config/validate.go:807-828 | a walk ends, leaves the stack as it was, and reports exactly one cycle or none |
| Cycles.Checker.Check | internal/config/validate.go:830-832 | walking from every resource reports a cycle exactly when the graph has one |
| Cycles.CheckDerivationCycles | internal/config/validate.go:797-875 | a configuration is refused for a reference cycle exactly when a value is derived from itself; every path printed is such a derivation, and the field named is the one by which it comes back |
| Cycles.NoCycleInOrder | internal/config/validate.go:797-838 | when each resource is finished after everything it derives from, there is no cycle |
| PortForwards.CompareOne | internal/config/validate.go:519-537 | one forward against those seen: every overlap is reported, with exactly the ports shared |
| PortForwards.CheckOverlaps | internal/config/validate.go:510-540 | overlaps are reported exactly when two forwards share a port of one uplink, protocol and family |
| PortForwards.NatRenderer.ForwardDnat | internal/render/nftables/render.go:517-555 | the rule for what arrives on the uplink, and the hairpin one on what the uplink holds |
| PortForwards.NatRenderer.DnatChain | internal/render/nftables/render.go:477-500 | the rules of all forwards, by name |
| PortForwards.RulesCatch | internal/render/nftables/render.go:517-555 | the rules of a forward hold of exactly the packets that arrive on its uplink, or from elsewhere are addressed to what it holds |
| PortForwards.WhenOneWay | internal/config/validate.go:502-509 | a packet from an uplink not addressed to another's, and one from inside when no address is two uplinks', reach forwards one way only |
| PortForwards.TranslatedOnce | internal/render/nftables/render.go:517-555 | in an accepted configuration at most one forward translates such a packet, in any order of the rules, to its target's address and to the target's own ports if it has any |
| PortForwards.NamesDecide | internal/render/nftables/render.go:477-500 | of all forwards that catch a packet, however many, the rules translate it as the one says whose name comes first, to the ports of its target, or the ones it listens on when it has none |
| PortForwards.TwoWaysToTwoHosts | internal/render/nftables/render.go:537-555 | a packet that reaches two uplinks is caught by two forwards of one accepted configuration, and two orders of their rules translate it to two hosts |
| PortForwards.OneWayExactly | internal/render/nftables/render.go:517-555 | no order of the rules of any accepted configuration changes what becomes of a packet, exactly when the packet reaches no two uplinks |
| PolicyChains.PolicyRenderer.AddressAlternatives | internal/render/nftables/render.go:792-820 | the alternatives of a side, one a family and one a set; a set that is not declared is a problem |
| PolicyChains.PolicyRenderer.RulesFor | internal/render/nftables/render.go:312-341 | the product of both sides' alternatives, less those whose families disagree |
| PolicyChains.PolicyRenderer.Chain | internal/render/nftables/render.go:271-304 | the stateful rules, the declared rules in order, and the default |
| PolicyChains.AlternativesMean | internal/render/nftables/render.go:792-820 | a packet takes an alternative exactly when one of the networks or sets of that side holds its address, or none is written |
| PolicyChains.Disagreement | internal/render/nftables/render.go:933-945 | a combination whose families disagree would match nothing |
| PolicyChains.CompiledMeans | internal/render/nftables/render.go:312-341 | the rules one declared rule becomes hold of exactly the packets it means, a protocol of zero read as none |
| PolicyChains.MeaningIsKept | internal/render/nftables/render.go:824-833 | for every packet the meaning is kept exactly when the protocol is not the number zero, or nothing else of the rule can be met |
| PolicyChains.ChainMeans | internal/render/nftables/render.go:271-304 | for every packet the chain of a policy gives the verdict of its first-match declaration |
| FilterChains.Dispatch | internal/render/nftables/render.go:687-703 | each policy is jumped to from the chain of its pair, and a zone that is not declared is a problem |
| FilterChains.OpeningRules | internal/render/nftables/render.go:721-742 | the accepts of the forwards, both directions |
| FilterChains.RenderFilter | internal/render/nftables/render.go:663-716 | a host without a policy gets no filter; problems are reported exactly when a zone, or a set a rule names, is not declared |
| FilterChains.InputMeans | internal/render/nftables/render.go:663-716 | a packet to the host: loopback is accepted, any other gets the verdict of the first policy in pair order that holds its link, else it is dropped |
| FilterChains.ForwardMeans | internal/render/nftables/render.go:663-742 | a packet passing through: what a forward lets through is accepted, any other gets the verdict of the first policy in pair order that holds both links, else it is dropped |
| MarkChain.MarkRenderer.ForwardReturnRules | internal/render/nftables/render.go:416-439 | one rule restoring, then one saving for each uplink and family; a link that does not resolve is a problem |
| MarkChain.MarkRenderer.EgressChain | internal/render/nftables/render.go:369-386 | the rules mark a packet for the policy exactly when its source is one the policy names and its destination none it excludes, and do nothing to any other |
| MarkChain.MarkRenderer.Chain | internal/render/nftables/render.go:352-402 | the returns come ahead of the policies, and those in their order, which `EgressPaths.ChainMarksWinner` says |
| MarkChain.PoliciesMark | internal/render/nftables/render.go:352-402 | the policies mark a packet for the first of them that selects it, and change no connection's mark |
| EgressPaths.ChainMarksWinner | internal/render/nftables/render.go:352-402 | every packet but the replies of a marked connection is marked for that policy, of those that select it, of the lowest priority, and of one priority of the first name; and not at all when none does |
| EgressPaths.AllSections | internal/render/networkd/uplink.go:204-219 | the routes of all uplinks are exactly those of the policies and of the returns that leave by one of them |
| EgressPaths.LeavesByTheWinner | internal/render/nftables/render.go:343-402 | end to end: the mark of the policy that wins a packet selects one table, whose only route is on that policy's uplink |
| MarkChain.Saving | internal/render/nftables/render.go:426-437 | only an opening packet a forward readdressed is saved, with the mark of the link it arrived on and no other |
| MarkChain.RenderPolicyRouting | internal/render/networkd/uplink.go:204-208 | the sections of an uplink's policies |
| MarkChain.RenderForwardReturnRouting | internal/render/networkd/uplink.go:215-219 | the sections of an uplink's returns |
| MarkChain.MarkSelectsOneTable | internal/render/networkd/uplink.go:221-238 | the mark of a return selects one table, whose only route is on that uplink's link |
| MarkChain.WholeConnection | internal/render/nftables/render.go:404-439 | along a whole connection: the saved mark stays, replies carry it, and its own direction carries none or a policy's |
| MarkChain.RepliesGoBack | internal/render/nftables/render.go:343-439 | end to end: replies to a forwarded connection are marked for the uplink it arrived on whatever the policies say, no packet of its own direction is, and the mark leads to that uplink's link alone |
| Powers.OrIsSum | internal/config/delegation.go:90 | where no bit is set in both, the bitwise or is the sum |
| Delegation.UpperHalf | internal/config/delegation.go:86-89 | eight bytes shifted in one by one are their number, with nothing shifted out |
| Delegation.WriteUpper | internal/config/delegation.go:91-94 | the bytes written back are the number's, the host half untouched |
| Delegation.Subnet | internal/config/delegation.go:65-98 | the byte loops compute the subnet, every reason to wait included |
| Delegation.Address | internal/config/delegation.go:47-62 | the token takes the host half of the subnet |
| Delegation.SubnetIsInside | internal/config/delegation.go:65-98 | a subnet ID gives a /64 inside the delegation exactly when it is below 2^(64-length) |
| Delegation.WaitsExactly | internal/config/delegation.go:65-117 | what a derived network waits for, exactly: a delegation, there being only one, one of at most 64 bits, room for the subnet ID, which is zero when left out |
| Delegation.AddressWaits | internal/config/delegation.go:47-62 | a derived address waits for what its network waits for, then for a token |
| Delegation.SubnetsAreOneToOne | internal/config/delegation.go:65-98 | subnet IDs and the /64s inside a delegation of length 1 to 64 answer to each other one to one |
| Delegation.AddressIsInside | internal/config/delegation.go:47-62 | the address lies in its /64, carries the token, and cut back to the length gives the delegation again |
| Advertisement.WithToken | internal/config/delegation.go:173-191 | the global addresses that carry the token, in order |
| Advertisement.GlobalIs | internal/config/delegation.go:173-191 | which addresses count, in ranges |
| Advertisement.Gather | internal/config/delegation.go:142-153 | each candidate once, with the longest any address prefers it |
| Advertisement.PreferredLongest | internal/config/delegation.go:196-212 | held and passed over are the candidates, each once; one is held exactly when it is preferred longer than every other, else all are, in address order |
| Advertisement.FromAdvertisement | internal/config/delegation.go:142-168 | the choice made of the addresses a link was advertised |
| Advertisement.AnswersAre | internal/config/delegation.go:142-168 | held and passed over is exactly what global addresses with the token's host half lie in at the length: the addresses themselves at 128 |
| Advertisement.ChoiceIsOne | internal/config/delegation.go:196-212 | the candidates and their lifetimes leave only one choice |
| Advertisement.AnswerIsOne | internal/config/delegation.go:142-212 | neither order, nor duplicates, nor the order a map is gone through in changes it |
| Advertisement.HeldExactly | internal/config/delegation.go:142-212 | a host holds one delegation alone exactly when it is preferred longer than every other one advertised, and then passes over exactly the others |
| Advertisement.HostRecoversDelegation | internal/config/delegation.go:121-154 | a host advertised an address the router resolved, given the token and the length, holds exactly the router's delegation exactly when no other one advertised beside it is preferred as long |
| Advertisement.BothResolveAlike | internal/config/delegation.go:47-98 | and derives every network and every address as the router does |
| Ddns.Writer.Write | internal/ddns/writer.go:117-158 | a write leaves the provider and the memory as the specification says, whatever call fails |
| Ddns.Writer.Holds | internal/ddns/writer.go:104-107 | a record is held exactly when it need not be written |
| Ddns.WriteIsSafe | internal/ddns/writer.go:117-158 | whatever fails, with or without effect: only the record written changes, there is never a second one, and what is reported done is there |
| Ddns.WriteNeeds | internal/ddns/writer.go:117-158 | which calls a write needs, exactly, and what it then remembers: the identifier of the record when it is done, none when an update is not |
| Ddns.NeverTwo | internal/ddns/writer.go:109-158 | no life of the process makes two records of one, whatever is deleted or changed from outside |
| Ddns.AgreementKept | internal/ddns/writer.go:146-157 | a write keeps memory and provider agreeing unless, and only unless, it changed a record written before and the answer was lost |
| Ddns.AlwaysAgrees | internal/ddns/writer.go:70-83 | over every life of the process, whoever else is at the provider: memory and provider agree throughout exactly when they did to begin with and nothing parts them, which is a lost update of a record written before, or somebody else deleting one that was written or making it say something else |
| Ddns.SkippedRightly | internal/apply/dns.go:134-145 | and while nothing parts them every write that is skipped would have changed nothing |
| Ddns.SkippingIsRight | internal/apply/dns.go:134-145 | then a write that is skipped would have changed nothing |
| Ddns.SkippingCanBeWrong | internal/apply/dns.go:134-145 | an outside deletion, and an update applied but not answered, are not noticed |
| Ddns.TwoAttemptsRestore | internal/ddns/writer.go:147-155 | from any state two answered attempts put the record there, and one does unless it used the identifier of a record that is gone |

## Left out

- Serve.Server.Run: does not model the drift log, the systemd status line and the text of replies, which no later event reads.
- Engines.Engine.Accept: does not model the directory and the mode the record is written with.
- Report.PhasesOf: does not model the line about staged files or the report file and its generations.
- Planner.MakePlan: does not model notes, warnings, hidden credentials, the check of the ruleset by nft, or a host that cannot be read, which leaves everything as it was.
- Unattended.BackoffBound: does not model a clock that moves between two steps of one plan.
- Advertisement.FromAdvertisement: does not model the text of tokens and addresses; a length of 128 gives the address itself.
- Derived.ElementsOf: does not model the notation of addresses, which is a parameter.
- Allocation.DeriveRouting: does not model the wording of problems.
- MarkChain.MarkRenderer.EgressChains: a policy without a mark is a problem and is skipped; that no accepted configuration has one is `NumberFacts.NumbersAreDistinct`.
- Steps are known by a phase and a structured name instead of the text they are described by, so two commands whose words join to one text are two.
- A rendering and the host's answers are parameters: what the renderers write into networkd, pppd, dnsmasq and unit files is opaque content.
- Turning an apply back does not exist in the source's turns any more, so the steps it named, writing a file and keeping one, are never produced and are not modelled.
- Zone sets: which links a zone holds is a parameter; the rendering of set elements is not modelled.
- Source translation, the hairpin half of a forward on the way out and the clamping of segment sizes.
- Tunnels whose far end or local address is not known yet, which are withheld as a whole.
- Validation of single fields, schema defaults, parsers of scalars, YAML and JSON.
- Sockets, netlink, locks, HTTP and the command line.
- The digest a revision is written as: revisions are the declarations themselves.
