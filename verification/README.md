# Novi, modelled in Dafny

A model of the parts of the Novi agent platform that keep state under rules of their own,
with proofs of what those rules are for. `dafny verify dfyconfig.toml` checks all of it.

- `Text.dfy`: whitespace, trimming, splitting and joining lines.
- `Conversation.dfy`: chats printed to Markdown and parsed back.
- `JsonText.dfy`, `JsonRead.dfy`: JSON documents with their layout (RFC 8259, sections 2, 4, 5
  and 7), and reading their data back from the text.
- `LockfileScan.dfy`, `LockfileSpan.dfy`, `LockfileSplice.dfy`, `LockfileReadBack.dfy`: the
  hand-written scanner, the span it gives a value, the release script's in-place patch of
  `package-lock.json`, and its check of what it wrote.
- `Vault.dfy`, `VaultIndex.dfy`, `MemoryEdges.dfy`: notes projected into a manifest, a knowledge
  store, a search index and a set of owned edges, with a crash possible at every write.
- `WikiLinks.dfy`: link resolution and the diff of reference edges.
- `CodingGraph.dfy`, `ResearchGraph.dfy`: the two workflows as state machines. Model, verifier,
  search and stop signal are oracles indexed by the number of calls made so far, so a lemma
  about every oracle is a lemma about every run; the record of calls is part of the state.
- `CommandReport.dfy`: what one verification command's result is taken to mean.
- `Extraction.dfy`: the acknowledged position of knowledge extraction behind a pipeline of writes
  that may fail before or after they take effect.
- `ConfigTree.dfy`, `RetiredPaths.dfy`, `Redaction.dfy`: configuration merge and strip, retired
  paths under migration and writes, masking and restoring secrets.
- `Jobs.dfy`: job life cycle, store and startup sweep.
- `Chunker.dfy`: overlapping chunks.
- `Evidence.dfy`, `Citations.dfy`: bundle accumulation, citation manifest, citation check.
- `Capabilities.dfy`: dependency closure and conflicts.
- `ModelChoice.dfy`: evidence grades, hardware fit and the choice of the primary model.

What the source changes step by step is a class or a method with loops, proved against a
specification function; the lemmas are about that function, so they hold of the methods.

Where the code and its own documentation or evident purpose differ, the model follows the code:

- a chunk can be longer than the limit the docstring promises (`Chunker.LimitExceeded`, exact
  condition in `Chunker.LimitBoundsIff`);
- the repair prompt need not show the latest failure (`CodingGraph.LaterFeedback`), and a flag
  that is never cleared can send a refused verification back to the agent loop
  (`CodingGraph.RefusalIsRepaired`, with the exact condition in `CodingGraph.BlockedIsRepairedIff`),
  or a passed one, whose pass is then reported over later edits (`CodingGraph.StalePassReported`,
  exact condition in `CodingGraph.PassedIsRepeatedIff`, and `CodingGraph.PassedIsLast` over runs);
- sub-questions behind a blocked search are left out of the coverage record
  (`ResearchGraph.SecondQuestionIsDropped`, exact condition in
  `ResearchGraph.BlockedCoverageIsSilent`);
- a note can lose its index rows when notes swap paths (`Vault.SwappedPathsLoseRows`, exact
  condition in `Vault.IndexCovers`), and a note that was written to the store but not to the
  index when a pass died is never indexed (`VaultIndex.StoredButNeverIndexed`, exact condition
  over a whole trail of interruptions in `VaultIndex.IndexConverges`);
- the lockfile entry is found by depth alone (`LockfileSplice.StrayEntryPatched` and
  `LockfileSplice.HollowPackagesPatched`, exact condition in `LockfileSplice.EntryUnderPackages`),
  a bracket inside a string cuts an entry short (`LockfileSplice.BracketInStringFails`, exact
  condition in `LockfileSpan.SpanOfValue`), and the check of what was written comes after the
  file is overwritten (`LockfileReadBack.ReadBackAccepts`);
- startup compares the migrated configuration with itself and so never writes it
  (`RetiredPaths.Configuration.Build`);
- a command that passed can end a run as a permission or environment failure because of a phrase
  in its output (`CommandReport.DeniedWordsBlock`, exact condition in
  `CommandReport.PassingReportBlocks`);
- a failing report beyond the sixth does not count (`CodingGraph.LaterReportsIgnored`, exact
  condition in `CodingGraph.SixReportsJudge`);
- a note whose id is a boolean has its references added and swept away in every pass
  (`WikiLinks.BooleanIdChurns`, `WikiLinks.UnlistedIdChurns`, exact condition in
  `WikiLinks.SecondPassIsQuiet`);
- a resumed job gets the default retry limit (`Jobs.ResumeForgetsLimit`);
- replacing a section does not delete its default keys for good (`ConfigTree.DeletedDefaultReturns`,
  exact condition in `ConfigTree.SetSurvivesReload`);
- a path inside a secret section can be read in the clear (`Redaction.SecretSectionLeaks`,
  exact condition in `Redaction.PathReadAgrees`).

Parameters stand for what lies outside: JSON encoding of attachments, generated ids, listings of
directories and tables, text normalization, URL identity, model answers, failures.

## Model

| member | source | states |
|---|---|---|
| `Conversation.RoundTrip` | novi/webui_server.py:733-825 | for every title and list of messages: parsing the printed chat gives back its roles, contents, models and attachments if and only if the chat is safe (one-line title; trimmed bodies; no body line that reads as a role header or a trailer, or already looks escaped; one-line trimmed models) |
| `Conversation.SafeRoundTrips` | novi/webui_server.py:733-825 | the safe direction of the round trip |
| `Conversation.RoundTripSafe` | novi/webui_server.py:733-825 | a chat that comes back unchanged is safe: no other chat survives |
| `Conversation.UnescapeEscape` | novi/webui_server.py:715-719 | unescaping inverts escaping exactly on texts without a line that already starts with the escaped prefix |
| `Conversation.BodyLineLost` | novi/webui_server.py:802-825 | a body line taken for a trailer is lost and nothing makes up for it |
| `Conversation.ParseBlocks` | novi/webui_server.py:787-800 | the parser cuts the printed file into exactly one block per message, in order |
| `Conversation.IndentedHeaderFails` | novi/webui_server.py:787-800 | an indented role header inside a body breaks the round trip, although it is not escaped |
| `Conversation.EscapedLineFails` | novi/webui_server.py:715-719 | a body line that starts with the escaped prefix does not come back |
| `Conversation.ConvToFile` | novi/webui_server.py:733-747 | the printing loop writes the file text: header, escaped body, trailers, blank line per message |
| `Conversation.BuildMsg` | novi/webui_server.py:802-825 | the trailer loop keeps the last valid trailer of each kind and the other lines, trimmed and unescaped |
| `Conversation.LoadMessages` | novi/webui_server.py:775-800 | the line loop computes the parse of the whole file |
| `Conversation.ParsedRoles` | novi/webui_server.py:787-800 | any file gives one message per header line, in order, numbered from 0: the user for the User header, the assistant for the Novi header and the legacy Cozmo one |
| `Conversation.LastTrailerWins` | novi/webui_server.py:802-825 | a trailer line anywhere in a message is no content and counts unless one of its kind comes later; an attachments line that does not decode is no trailer |
| `Conversation.NoTrailers` | novi/webui_server.py:802-825 | without trailers all lines, trimmed and unescaped, are the content |
| `Vault.Converges` | novi/brain/vault.py:63-146 | however often and wherever passes are cut short, a complete pass ends with the same files, manifest and store as one that was never interrupted (the index: VaultIndex.IndexConverges) |
| `VaultIndex.IndexConverges` | novi/brain/vault.py:63-146 | over any trail of passes cut short: the complete pass in the end leaves a note indexed if and only if one pass from the start would, unless the note was recorded as it stands, missing from the store and without safe index rows, and some pass died right after storing it |
| `VaultIndex.CompleteCovers` | novi/brain/vault.py:98-144 | what one pass from the start would index, stated on the first state alone |
| `VaultIndex.CleanStaysClean` | novi/brain/vault.py:118-128 | a note recorded and stored as it stands is never stored again, so no interruption can hide it from the index |
| `VaultIndex.StoredButNeverIndexed` | novi/brain/vault.py:118-128 | a note recorded but gone from the store, and a pass that dies between its store write and its index write: no later pass indexes it |
| `Vault.CutShortReady` | novi/brain/vault.py:63-146 | after a pass cut short at any write the next pass sees the same adopted notes and may run |
| `Vault.CutKeepsFinal` | novi/brain/vault.py:63-146 | a cut-short pass does not change the store and manifest rows an id ends with |
| `Vault.PassProjects` | novi/brain/vault.py:98-144 | a complete pass leaves every note recorded and stored (which row: Vault.PassStores), the manifest with no other id, every vanished recorded id retired (how: Vault.PassRetires) and every other row untouched |
| `Vault.PassStores` | novi/brain/vault.py:98-132 | note by note: a note that differs is stored with its own meta and body, under its own status or as superseded when its body is blank; any other row stays; a note without an id gets a new one |
| `Vault.PassRetires` | novi/brain/vault.py:133-144 | a vanished recorded id that is in the store ends as superseded with its meta and body unchanged |
| `Vault.PassIsIdempotent` | novi/brain/vault.py:98-146 | the pass after a complete one has nothing to write and reports every note as unchanged |
| `Vault.UnchangedCounted` | novi/brain/vault.py:98-132 | exactly the notes that do not differ count as unchanged |
| `Vault.IndexCovers` | novi/brain/vault.py:120-140 | a note is indexed after a pass if and only if it was dirty or indexed before and no other recorded id gives up its path after its rows are in place |
| `Vault.IndexOnlyPresent` | novi/brain/vault.py:120-140 | if the index held recorded paths only, afterwards it holds paths of present notes only |
| `Vault.SwappedPathsLoseRows` | novi/brain/vault.py:120-140 | two notes that swapped paths: one loses its index rows, and no later pass writes them again |
| `Vault.VaultSynchronizer.Snapshot` | novi/brain/vault.py:63-97 | nothing is written unless the vault is there, every file readable and no id used twice |
| `Vault.VaultSynchronizer.ProjectNote` | novi/brain/vault.py:100-132 | one note: identity, then store, index, removal of the old path and record in this order, or exactly the part the failure left |
| `Vault.VaultSynchronizer.RetireMissing` | novi/brain/vault.py:133-144 | the retirement loop: claim, index rows, manifest row of each vanished id, or the part the failure left |
| `Vault.VaultSynchronizer.Sync` | novi/brain/vault.py:63-146 | a pass raises with nothing written, or performs its plan (what it leaves: Vault.PassStores, Vault.PassRetires), or a prefix of it when it dies; scanned = new + edited + unchanged |
| `MemoryEdges.Desired` | novi/brain/vault.py:153-165 | the loop collects exactly the edges the sections of the notes ask for |
| `MemoryEdges.WantedMeans` | novi/brain/vault.py:153-165 | an edge is asked for exactly when a section of its source note came from that conversation, or conflicts with that other note, which must be there |
| `MemoryEdges.Projection.Sync` | novi/brain/vault.py:166-179 | a pass makes the owned and existing edges what the notes ask for, or leaves one of the intermediate states |
| `MemoryEdges.Repairs` | novi/brain/vault.py:166-179 | a pass cut short between an ownership row and its edge is repaired by the next one |
| `MemoryEdges.PassPromises` | novi/brain/vault.py:166-179 | afterwards every desired edge exists, only owned edges are gone, and a second pass changes nothing |
| `MemoryEdges.SurvivesIffForeign` | novi/brain/vault.py:166-179 | an edge survives every sequence of passes and foreign additions if and only if the projection does not own it |
| `MemoryEdges.EdgeAddedAfterCrashIsLost` | novi/brain/vault.py:166-179 | an edge somebody adds between a crash and its replay is taken for an own one and can be removed |
| `WikiLinks.ParseWikilinks` | novi/brain/wikilinks.py:150-170 | the scan returns the links of the text without repeats, in order of first occurrence |
| `WikiLinks.DistinctOnce` | novi/brain/wikilinks.py:150-170 | no link is listed twice |
| `WikiLinks.DistinctMembers` | novi/brain/wikilinks.py:150-170 | a link is listed exactly when the text has it |
| `WikiLinks.SpelledMatches` | novi/brain/wikilinks.py:150-170 | a title in double brackets, with or without an alias behind a bar, reads as that title and alias |
| `WikiLinks.MatchIsSpelled` | novi/brain/wikilinks.py:150-170 | and nothing else reads as a link |
| `WikiLinks.LeftmostMatch` | novi/brain/wikilinks.py:150-170 | the scan finds the leftmost link and goes on behind it |
| `WikiLinks.ResolvesAtFirstTier` | novi/brain/wikilinks.py:185-253 | a title resolves exactly when one note answers at the first step where any does, is ambiguous when several do, dangling when none does anywhere |
| `WikiLinks.ResolvesToClosest` | novi/brain/wikilinks.py:185-253 | a link resolves to the id of the one note that bears its title most closely (path, path with extension, id or identity; then title; normalized title; alias; normalized alias), or to its title when that note has no id; ambiguous when several bear it that closely, dangling when none bears it at all |
| `WikiLinks.OrderIndependent` | novi/brain/wikilinks.py:185-253 | resolution is the same for every order of the scanned notes |
| `WikiLinks.WikilinkSynchronizer.DesiredTargets` | novi/brain/wikilinks.py:350-360 | the loop collects the targets of the links that are not ambiguous: those of WikiLinks.ResolvesToClosest |
| `WikiLinks.TargetsMean` | novi/brain/wikilinks.py:343-361 | a target is wanted exactly when some link of the text resolves or dangles to it |
| `WikiLinks.CurrentIdsMean` | novi/brain/wikilinks.py:306-311 | the sources the sweep spares are exactly the nonempty ids of the notes |
| `WikiLinks.WikilinkSynchronizer.DiffNote` | novi/brain/wikilinks.py:343-389 | the references of one note after its diff, and the counts of added, removed and kept ones |
| `WikiLinks.WikilinkSynchronizer.SweepOrphans` | novi/brain/wikilinks.py:305-318 | the sweep removes exactly the listed reference rows whose source is no note |
| `WikiLinks.WikilinkSynchronizer.SyncAll` | novi/brain/wikilinks.py:285-320 | a full pass computes the reconciled rows; a quiet store is left as it is, with nothing added or removed |
| `WikiLinks.PassReconciles` | novi/brain/wikilinks.py:285-320 | after a full pass every note whose id is in the index refers to exactly what its links ask for, other rows and sources no file is synced under are as before, and a source outside the index keeps exactly the rows too old for the sweep to see |
| `WikiLinks.SecondPassIsQuiet` | novi/brain/wikilinks.py:285-320 | within the sweep limit no reference from outside the index is left, and a second pass adds and removes nothing if and only if every file with links has an id the index knows and no two files share an id with different links |
| `WikiLinks.UnlistedIdChurns` | novi/brain/wikilinks.py:123-128 | an id the index does not know, such as a boolean one: every pass adds its references and sweeps them away |
| `WikiLinks.BooleanIdChurns` | novi/brain/wikilinks.py:123-128 | one note with a boolean id and one link: every pass adds its edge and sweeps it, and the store is never quiet |
| `WikiLinks.NewestHasAll` | novi/brain/wikilinks.py:309-309 | a listing no shorter than the number of reference rows has all of them |
| `CodingGraph.AttemptsBounded` | novi/graphs/coding_graph.py:145-172 | every run ends and starts the agent loop at most max_attempts times, or once when the caller used the budget up |
| `CodingGraph.NothingAfterStop` | novi/graphs/coding_graph.py:204-290 | once a stop signal that stays up has answered, no agent loop and no verification is started |
| `CodingGraph.PassedIsEarned` | novi/graphs/coding_graph.py:275-358 | verification_passed holds at the end of a run if and only if its last verification returned a report and the retained ones all passed with no blocking cause |
| `CodingGraph.LaterReportsIgnored` | novi/graphs/coding_graph.py:336-351 | reports beyond the sixth have no part in the verdict, even failing ones |
| `CodingGraph.SixReportsJudge` | novi/graphs/coding_graph.py:336-351 | the verdict of the six retained reports differs from the verdict of all if and only if the six pass and a later one fails; the blocking cause, if and only if a later one is more severe |
| `CodingGraph.PassedIsLast` | novi/graphs/coding_graph.py:204-358 | in a run without skipped passes no agent loop runs after the verification that passed |
| `CodingGraph.StalePassReported` | novi/graphs/coding_graph.py:464-485 | after a skipped pass a passed verification goes back to the agent loop, and a run stopped there reports verification_passed over edits nothing verified |
| `CodingGraph.StopsAtOnce` | novi/graphs/coding_graph.py:157-164 | a stop signal that is up before the run: one probe, no node, stopped |
| `CodingGraph.RunEnds` | novi/graphs/coding_graph.py:145-180 | every run ends with a completion reason; it is stopped whenever a probe fired, and otherwise only when the agent loop itself said so |
| `CodingGraph.BlockingIsWorst` | novi/graphs/coding_intel.py:159-171 | the blocking cause is the most severe one any report gives: permission, then timeout, then environment |
| `CodingGraph.BlockedIsNotRepaired` | novi/graphs/coding_graph.py:379-445 | unless a verification was skipped before, the agent loop never runs again after a permission, timeout or environment failure |
| `CodingGraph.BlockedIsRepairedIff` | novi/graphs/coding_graph.py:464-491 | it runs again exactly when an earlier skipped pass left its flag and a retry note, and budget is left |
| `CodingGraph.PassedIsRepeatedIff` | novi/graphs/coding_graph.py:464-485 | a verification that passed is followed by another attempt exactly under the same stale flag and note with budget left |
| `CodingGraph.RefusalIsRepaired` | novi/graphs/coding_graph.py:464-491 | a run in which the stale flag sends a refused verification back to the agent loop |
| `CodingGraph.FailureIsReported` | novi/graphs/coding_graph.py:379-445 | in a run without skipped passes, a failed last verification ends the run as stopped or with that failure as its reason, and verification_failed only with the budget spent |
| `CodingGraph.AnswerReported` | novi/graphs/coding_graph.py:204-249 | over every run: answer and edited are those of the last agent loop that ran, and the ones of the caller when none did |
| `CodingGraph.OwnReasonReported` | novi/graphs/coding_graph.py:145-180 | over every run: without a fired probe and without a failed last verification it ends with the reason of its last loop, or as completed or empty by its text |
| `CodingGraph.VerificationReported` | novi/graphs/coding_graph.py:275-358 | over every run: status, reports, cause and the passed flag are what the last pass found: skipped, nothing verified, or the first six reports, verified when all of them passed, with the worst cause among them unless the check is clean |
| `CodingGraph.FiredProbeStops` | novi/graphs/coding_graph.py:204-445 | a probe that fires in a node ends its work there and changes nothing but the reasons |
| `CodingGraph.SkippedIsRetriedIff` | novi/graphs/coding_graph.py:360-377 | after a skipped pass there is another attempt if and only if the last one gave no text or ran out of steps, was not stopped, and budget is left |
| `CodingGraph.NothingVerifiedEnds` | novi/graphs/coding_graph.py:275-358 | a verification without a report ends the run, whatever an earlier pass noted |
| `CodingGraph.RefusalEnds` | novi/graphs/coding_graph.py:379-445 | a failure whose worst cause is a refusal, a timeout or the environment ends the run with that reason and adds nothing to the repair context |
| `CodingGraph.FailureIsHandedOn` | novi/graphs/coding_graph.py:379-445 | the feedback about a failed verification stands behind the earlier one in the repair context, cut off at the limit, and another attempt follows while the budget lasts |
| `CodingGraph.LaterFeedback` | novi/graphs/coding_graph.py:425-430 | the next attempt sees a later failure in full exactly when it fits behind the earlier ones; a full context shows none of it |
| `CodingGraph.CodingGraph.NodeImplement` | novi/graphs/coding_graph.py:204-249 | an attempt starts only when the stop signal is down; the step AnswerReported and AttemptsBounded are about |
| `CodingGraph.CodingGraph.NodeVerify` | novi/graphs/coding_graph.py:275-358 | skips without verifier or edits, records six reports at most and their verdict; no report is no pass |
| `CodingGraph.CodingGraph.LegacyRetryGate` | novi/graphs/coding_graph.py:360-377 | after a skipped pass an empty or step-starved attempt is noted for retry |
| `CodingGraph.CodingGraph.NodeAnalyze` | novi/graphs/coding_graph.py:379-445 | blocking causes end the run with their own reason; other failures are noted for repair with feedback |
| `CodingGraph.CodingGraph.Invoke` | novi/graphs/coding_graph.py:122-143 | the nodes and routers perform the run; its measure is the number of attempts left |
| `CodingGraph.CodingGraph.Run` | novi/graphs/coding_graph.py:145-180 | the probe, the graph and the reason filled in afterwards are the run that AttemptsBounded, AnswerReported, OwnReasonReported, RunEnds and the other lemmas are about |
| `CommandReport.PassIsHonest` | novi/graphs/coding_intel.py:100-156 | a report passes only if nothing was blocked or timed out and the exit code, where there is one, is 0 |
| `CommandReport.ReportMeans` | novi/graphs/coding_intel.py:100-156 | what a result is reported as, for every result: blocked, timed out, passed, exit code, tails and classification |
| `CommandReport.CombinedIs` | novi/graphs/coding_intel.py:121-126 | the text that is classified is both tails, the output and the error, one after the other |
| `CommandReport.TailIsEnd` | novi/graphs/coding_intel.py:121-126 | the end of a long output is kept, a short one whole |
| `CommandReport.PassingReportBlocks` | novi/graphs/coding_intel.py:71-92 | a command that passed spoils its pass if and only if its output mentions a permission or environment problem |
| `CommandReport.DeniedWordsBlock` | novi/graphs/coding_intel.py:71-92 | a command that exits with 0 and prints the words passes and blocks all the same |
| `CommandReport.BlockedPassHasExitCode` | novi/graphs/coding_intel.py:100-156 | such a spoiled pass takes a structured result with exit code 0 |
| `CommandReport.ReportFromToolResult` | novi/graphs/coding_intel.py:100-156 | the report of a tool result, from its payload or, without one, from its text |
| `ResearchGraph.ParseDecomposition` | novi/graphs/research_intel.py:73-86 | at most three sub-questions, none blank or overlong, no two alike up to case |
| `ResearchGraph.ParsedPicks` | novi/graphs/research_intel.py:73-86 | exactly which strings become sub-questions: in order, trimmed and cut, leaving out only blank ones, ones that read like an earlier one, and what comes after the third |
| `ResearchGraph.DecompositionTaken` | novi/graphs/research_graph.py:223-284 | the model is asked, once more when it gave none; its sub-questions are taken and the first is searched for next, or the question of the user without any |
| `ResearchGraph.PlanStays` | novi/graphs/research_graph.py:223-284 | over a whole run the sub-questions are those of one answer of the model, or none |
| `ResearchGraph.SearchesBounded` | novi/graphs/research_graph.py:286-364 | from any state, sub-questions supplied or not, a run searches at most max_search_attempts times less the attempts already made, or once when none are left |
| `ResearchGraph.StopsAtOnce` | novi/graphs/research_graph.py:162-182 | a stop signal that is up before the run: one probe, no node, stopped |
| `ResearchGraph.RunEnds` | novi/graphs/research_graph.py:162-199 | every run ends with a completion reason, and it is stopped if and only if one of its probes fired or an answer it asked for broke off |
| `ResearchGraph.AnswerReported` | novi/graphs/research_graph.py:449-660 | in a run that is not stopped the answer is what the model said when the run last asked it, after the last search, or empty without a model; it is graded as no answer if and only if it is blank, the run is completed if and only if it is not, and an insufficient answer is let through only with the searches blocked or used up |
| `ResearchGraph.SearchesFollowPlan` | novi/graphs/research_graph.py:366-447 | the k-th search of a run the graph decomposed is for the k-th sub-question while there are any; the attempt count is the number of searches |
| `ResearchGraph.SearchesHaveReason` | novi/graphs/research_graph.py:286-447 | over every run: each search after the first is within the budget, has a reason (a sub-question left, evidence not sufficient, gaps, or an answer judged to miss the question), and asks for the next sub-question, else the query refined from the gaps, else the same again; quality and evidence in the end are those of the searches made |
| `ResearchGraph.EndsWhenEnough` | novi/graphs/research_graph.py:612-660 | a run that is neither stopped nor blocked and has budget left ends only with sufficient evidence, no gaps, every sub-question searched and an answer not judged insufficient: anything less is searched again |
| `ResearchGraph.SearchesMetered` | novi/graphs/research_graph.py:318-356 | every search passed the gate and is recorded at once and once, nothing else is recorded, and none follows a blocked one |
| `ResearchGraph.UnresearchedReported` | novi/graphs/research_graph.py:401-415 | a run that is not stopped reports the unsearched suffix of its sub-questions if and only if its own budget ran out before them |
| `ResearchGraph.BlockedCoverageIsSilent` | novi/graphs/research_graph.py:401-415 | a run that is not stopped leaves sub-questions unsearched and unreported if and only if a search was blocked while budget and sub-questions were left, and a search is only blocked by the gate, a missing back end, an empty question or reused evidence |
| `ResearchGraph.SecondQuestionIsDropped` | novi/graphs/research_graph.py:286-447 | two sub-questions, a budget of three and a gate that closes after the first search: the run ends normally and reports nothing as unresearched |
| `ResearchGraph.ResearchGraph.NodeDecompose` | novi/graphs/research_graph.py:223-284 | at most two model calls, each after a stop probe; the first parsed list wins, else the question itself is searched |
| `ResearchGraph.ResearchGraph.NodeSearch` | novi/graphs/research_graph.py:286-364 | reuses sufficient evidence, blocks without search, query or gate, else searches, counts and records |
| `ResearchGraph.ResearchGraph.NodeEvaluate` | novi/graphs/research_graph.py:366-447 | records incomplete coverage once and moves to the next sub-question or a refined query |
| `ResearchGraph.ResearchGraph.NodeSynthesize` | novi/graphs/research_graph.py:449-553 | the stop probe, the missing model and the broken stream, as the step AnswerReported is about |
| `ResearchGraph.ResearchGraph.NodeValidate` | novi/graphs/research_graph.py:555-609 | the grade of the answer, as the step AnswerReported is about |
| `ResearchGraph.ResearchGraph.Invoke` | novi/graphs/research_graph.py:134-160 | the nodes and routers perform the run; its measure is the number of searches left |
| `ResearchGraph.ResearchGraph.Run` | novi/graphs/research_graph.py:162-199 | the probe, the graph and the reason filled in afterwards are the run that RunEnds, AnswerReported and the other lemmas are about |
| `LockfileScan.StringEnd` | scripts/release.py:97-108 | the index past the closing quote of a string, or a failure |
| `LockfileScan.JsonValueSpan` | scripts/release.py:111-125 | the span of the value at an index, by quote or by bracket counting |
| `LockfileScan.KeyValueSpan` | scripts/release.py:128-159 | the loop finds the first key at a depth and the span of its value |
| `LockfileSpan.SpanOfValue` | scripts/release.py:111-125 | the span of a printed value is that value, whole and nothing more, if and only if it is a string, or an array or object whose brackets, those inside strings counted, balance at its end and not before |
| `LockfileSplice.RootScan` | scripts/release.py:128-159 | in every well-formed document the depth-1 scan finds the first member of the root with the key, or none |
| `LockfileSplice.NestedScan` | scripts/release.py:128-159 | the depth-2 scan finds the first such key in any member of the root, whichever it is |
| `LockfileSplice.SpliceBoth` | scripts/release.py:183-199 | the two spans are disjoint, and splicing the later one first replaces both values and nothing else |
| `LockfileSplice.PatchWrites` | scripts/release.py:162-211 | for every well-formed lockfile whose root version is a string and whose packages and empty-key entry the scanner spans as a whole, the text written is the text of the same document with only the addressed versions changed, layout and order included |
| `LockfileSplice.PatchStaysValid` | scripts/release.py:162-199 | the patched lockfile is a well-formed document again |
| `LockfileSplice.EntryUnderPackages` | scripts/release.py:162-195 | the second version goes into packages[""] if and only if packages holds an empty key and no earlier member of the root does; otherwise packages is untouched and the first such member is written to |
| `LockfileSplice.MissingVersionFails` | scripts/release.py:170-175 | without a root version nothing is written |
| `LockfileSplice.BracketInStringFails` | scripts/release.py:111-195 | a well-formed lockfile with a closing bracket inside a string of the root entry, before its version: the writer raises |
| `LockfileSplice.StrayEntryPatched` | scripts/release.py:177-195 | an earlier member with an empty key takes the write meant for packages |
| `LockfileSplice.HollowPackagesPatched` | scripts/release.py:177-195 | with an empty packages a later member with an empty key takes the write |
| `JsonRead.ReadsText` | scripts/release.py:199-202 | a printed value between whitespace is read back as its data, layout dropped |
| `LockfileReadBack.SameTextSameData` | scripts/release.py:199-202 | a text is the printing of one well-formed document only, up to layout |
| `LockfileReadBack.PatchReads` | scripts/release.py:162-211 | reading the patched text back gives the data of the original with only the addressed versions changed |
| `LockfileReadBack.ReadBackAccepts` | scripts/release.py:195-211 | the writer raises, after the file was overwritten, if and only if the text changed and a repeated key, a stray entry or a value that is no object keeps the versions it wrote from being the ones read back by name |
| `LockfileReadBack.HollowPackagesRaises` | scripts/release.py:177-211 | the file with the empty packages is overwritten in the wrong place and the writer raises afterwards |
| `LockfileReadBack.PatchPackageLockVersions` | scripts/release.py:162-211 | the targets, the splices from the back, the unchanged text, and the read-back: the file afterwards and whether the writer raised |
| `Extraction.WatermarkLags` | novi/brain/brain.py:1024-1048 | over every run of turns and maintenance, whatever call fails and whether before or after it took effect: every acknowledged turn lies in an acknowledged batch that was extracted in the run from exactly those turns and whose knowledge, edges and mirrors are all written; no stored turn is dropped and no acknowledgement taken back |
| `Extraction.NothingInvented` | novi/brain/brain.py:1024-1048 | over every run each record comes from an extraction of turns of its conversation |
| `Extraction.WritesInOrder` | novi/brain/brain.py:1031-1046 | at whatever write a batch breaks off: knowledge only behind its scenario, edges behind all knowledge, mirrors behind all edges, index rows behind their mirror |
| `Extraction.FailuresReported` | novi/brain/brain.py:1024-1048 | an extraction counts as failed unless it had nothing to do or was acknowledged without an error; a first write that does not get through leaves the store as it was |
| `Extraction.MaintenanceDrains` | novi/brain/brain.py:622-650 | once failures stop, as many maintenance passes as there are pending turns acknowledge them all |
| `Extraction.FreshStartLags` | novi/brain/brain.py:1024-1048 | so every run that starts with nothing acknowledged acknowledges no turn before its knowledge is written |
| `Extraction.HealthyExtraction` | novi/brain/storage/conversation_store.py:109-129 | without failures the position of the conversation advances by exactly its batch and no other conversation changes |
| `Extraction.WriteAllKeeps` | novi/brain/brain.py:1030-1046 | a failed batch leaves some of its records and a completed one all of them: a retry loses and invents nothing |
| `Extraction.Brain.WriteProvenanceEdges` | novi/brain/brain.py:1060-1095 | both edges of every item in one transaction: all of them or none |
| `Extraction.Brain.WriteBatch` | novi/brain/brain.py:1031-1046 | scenario, knowledge, edges, mirrors, episode and vault in this order, up to the first failure (WatermarkLags and WritesInOrder say which records that leaves) |
| `Extraction.Brain.ExtractPending` | novi/brain/brain.py:1024-1048 | reads the batch behind the watermark, writes it, and acknowledges only when every write succeeded |
| `Extraction.Brain.Observe` | novi/brain/brain.py:150-168 | the turn is stored before extraction is tried, and a failed extraction is not the caller's |
| `Extraction.ObservedIsStored` | novi/brain/brain.py:150-168 | an observed turn is at the end of its conversation unless the store refused it, whatever the extraction comes to |
| `Extraction.FullBatchIsExtracted` | novi/brain/brain.py:1024-1048 | a batch is extracted once it is full, and not before unless partial batches are asked for |
| `Extraction.Brain.Maintain` | novi/brain/brain.py:622-650 | one batch of each listed conversation unless the vault fails; a nested call does nothing |
| `Redaction.EnclosingIsLongest` | novi/configuration/registry.py:85-96 | the namespace found is the longest one that is a prefix of the path |
| `Redaction.RedactedAlike` | novi/configuration/redaction.py:63-98 | two configurations read the same if and only if they differ only in secrets that have the same shape and are alike set or unset |
| `Redaction.LeafMasked` | novi/configuration/redaction.py:38-73 | for every registry and path: a leaf reads as masked if and only if its path is registered as secret, or is unregistered and its longest registered namespace is secret or has one of its segments among the remaining parts |
| `Redaction.TreeMasked` | novi/configuration/redaction.py:63-98 | when the whole configuration is read, a leaf at any depth is masked if and only if its path or that of a section it lies in is hidden, and reads as it is otherwise |
| `Redaction.EchoRestores` | novi/webui_server.py:1213-1231 | writing back what was read restores the configuration, secrets included, with no condition on it |
| `Redaction.FillAt` | novi/webui_server.py:1213-1231 | for any write: a masked value stands for the stored one, or None, and any other for itself |
| `Redaction.PathReadAgrees` | novi/configuration/redaction.py:63-73 | for every value at every path: reading the path alone shows what the whole tree shows there if and only if no section above it is secret or everything at the path is masked anyway |
| `Redaction.LeafReadAgrees` | novi/configuration/redaction.py:63-73 | for a leaf: if and only if no section above it is secret or the path itself is |
| `Redaction.SecretSectionLeaks` | novi/configuration/redaction.py:63-73 | a secret stored as a section is masked in the tree while a path inside it reads in the clear |
| `Redaction.ConfigRedactor.RedactAt` | novi/configuration/redaction.py:63-73 | redaction of the value at a path, the one LeafMasked and RedactedAlike are about |
| `Redaction.ConfigRedactor.WalkTree` | novi/configuration/redaction.py:88-93 | the loop over a section redacts every child under its own path |
| `Redaction.FillMasked` | novi/webui_server.py:1213-1231 | the loop restores masked values from the current ones |
| `ConfigTree.MergeStripFixpoint` | novi/configuration/store.py:28-80 | what the store writes over restorable defaults loads back to the same tree |
| `ConfigTree.LoadWriteLoadIff` | novi/configuration/store.py:28-80 | for all defaults and files: what is loaded comes back unchanged after write and load if and only if defaults and file are settled, key by key |
| `ConfigTree.SetSurvivesReload` | novi/configuration/state.py:13-33 | for every value, path, defaults and state: what is read back after write and load depends on the value and the default at its place alone, and it is the value if and only if the value has every key the default has there, at every depth, the store rewrites nothing in it, and what it does not write is the default already |
| `ConfigTree.StoredSurvivesReload` | novi/configuration/state.py:13-33 | for values the store writes as they are: a nonempty section comes back if and only if it has every default key, any other value always, and a None or an empty section gives way to the default |
| `ConfigTree.DeletedDefaultReturns` | novi/configuration/store.py:28-64 | the concrete case: a default key deleted by replacing its section is back after the next load |
| `ConfigTree.DeepMerge` | novi/configuration/store.py:58-64 | the loop over the override computes the merge |
| `ConfigTree.StripNone` | novi/configuration/store.py:67-80 | the loop drops None values and emptied sections, also inside lists of sections |
| `ConfigTree.DeepGet` | novi/configuration/state.py:13-21 | the walk along a dotted path |
| `ConfigTree.LoadedReads` | novi/configuration/store.py:28-64 | at every path: a value of the file hides the default, a section stays a section, and the default shows exactly where the file says nothing |
| `ConfigTree.WrittenReads` | novi/configuration/store.py:67-80 | at every path: the file keeps each value that is no None, drops each None and each section without values, and has nothing else |
| `ConfigTree.PutReads` | novi/configuration/state.py:24-33 | a set value is read back at its path, and every path that does not lead through it reads as before |
| `ConfigTree.ConfigStore.Load` | novi/configuration/store.py:28-33 | file values over defaults |
| `ConfigTree.ConfigStore.Write` | novi/configuration/store.py:47-52 | the file holds the stripped configuration |
| `RetiredPaths.WriteKeepsClean` | novi/configuration/manager.py:70-82 | a write that is not refused keeps every retired path empty |
| `RetiredPaths.RefusedMeans` | novi/configuration/manager.py:45-78 | a write is refused exactly when it is at or below a retired setting, or is a whole models or llm section with a key at or below one |
| `RetiredPaths.SetReads` | novi/configuration/manager.py:135-156 | a write of a known setting with a valid value is read back at its path and leaves every path apart from it; any other write changes nothing and says what was at fault |
| `RetiredPaths.WritesKeepClean` | novi/configuration/manager.py:135-166 | for every registry and every sequence of accepted and rejected writes a migrated configuration never holds a value at a retired path |
| `RetiredPaths.ReloadIsClean` | novi/configuration/manager.py:102-105 | nor does the configuration loaded from what was written |
| `RetiredPaths.MigrationSettles` | novi/configuration/migration.py:15-85 | migration empties the retired paths and migrating again changes nothing |
| `RetiredPaths.MigrationKeepsRest` | novi/configuration/migration.py:15-85 | migration touches nothing outside its four sections |
| `RetiredPaths.MigrationKeepsModels` | novi/configuration/migration.py:24-55 | a named primary model stays named, a missing or invalid one becomes empty; of the llm and models sections exactly the retired keys go, and an emptied models section |
| `RetiredPaths.MigrationMovesRuntime` | novi/configuration/migration.py:58-85 | the single temperature becomes the one set, else that of chat, else the first number; the old recall threshold becomes the new one; every other runtime key stays |
| `RetiredPaths.Configuration.MigratePrimaryModel` | novi/configuration/migration.py:24-32 | in place: llm becomes a section with a string primary_model and without workloads |
| `RetiredPaths.Configuration.MigrateTemperature` | novi/configuration/migration.py:58-78 | in place: runtime.temperatures collapses into runtime.temperature, the chat value first |
| `RetiredPaths.Configuration.MigrateRecallThreshold` | novi/configuration/migration.py:81-85 | in place: the retired recall threshold 0.5 becomes 0.8 |
| `RetiredPaths.Configuration.DropLegacyKeys` | novi/configuration/migration.py:35-55 | in place: every legacy key goes, and an emptied models section with them |
| `RetiredPaths.Configuration.Build` | novi/configuration/bootstrap.py:97-108 | startup leaves a clean configuration in memory and never writes the migrated file |
| `RetiredPaths.Configuration.Set` | novi/configuration/manager.py:135-166 | refused, unknown and invalid writes change nothing; an accepted one is in memory and in the file |
| `Jobs.TerminalStays` | novi/jobs/manager.py:88-321 | over every run of operations a terminal job stays terminal |
| `Jobs.StoredTerminalStays` | novi/jobs/manager.py:65-321 | over every run, with restarts, sweeps and failed saves anywhere: a job the store once holds as terminal is terminal in the store ever after |
| `Jobs.MovesOnly` | novi/jobs/manager.py:88-321 | an operation changes only the job it names: its status by the one move the operation has from there, its checkpoint, result and error as given, and nothing else of it |
| `Jobs.SubmittedAsGiven` | novi/jobs/manager.py:88-105 | a submitted job is as it was asked for, without checkpoint, retries, error or result, and changes no other |
| `Jobs.AttemptsAreNew` | novi/jobs/manager.py:122-251 | resume, reopen and retry add one new job for the same task, change no other, and only continuations carry the checkpoint, with its step unchanged |
| `Jobs.ContinuedIff` | novi/jobs/manager.py:122-251 | resume, reopen and retry make a new job exactly for a paused job with a checkpoint, for one in memory or in the store that has a checkpoint and is not over for good, and for one with retries left |
| `Jobs.OneSave` | novi/jobs/manager.py:65-71 | an operation that changes nothing saves nothing; any other saves the one job it touched, and a failed save leaves the store as it was |
| `Jobs.RetriesBounded` | novi/jobs/manager.py:224-251 | over every run, restarts and failed saves included: a job's retry count is the number of retries in a row behind it and within its limit |
| `Jobs.ResumeForgetsLimit` | novi/jobs/manager.py:122-151 | a resumed job keeps its parent's retry limit only when that was the default |
| `Jobs.StoreAgrees` | novi/jobs/manager.py:65-71 | while saves succeed the store holds every job of the memory as it is |
| `Jobs.SweepIsIdempotent` | novi/jobs/persistence.py:257-295 | the startup sweep leaves no abandoned status, touches neither paused nor terminal jobs, and a second sweep changes and saves nothing |
| `Jobs.SweepMarks` | novi/jobs/persistence.py:257-295 | exactly the abandoned jobs become interrupted |
| `Jobs.JobManager.SubmitJob` | novi/jobs/manager.py:88-105 | a new job under a new id |
| `Jobs.JobManager.StartJob` | novi/jobs/manager.py:253-264 | only pending, queued or created jobs start |
| `Jobs.JobManager.PauseJob` | novi/jobs/manager.py:107-120 | only a running job is paused; a given checkpoint replaces the old one |
| `Jobs.JobManager.ResumeJob` | novi/jobs/manager.py:122-151 | a new job exactly when the old one is paused with a checkpoint |
| `Jobs.JobManager.ReopenJob` | novi/jobs/manager.py:153-209 | from memory or the store, unless finished for good or without checkpoint |
| `Jobs.JobManager.CancelJob` | novi/jobs/manager.py:211-222 | exactly the jobs that are not terminal |
| `Jobs.JobManager.RetryJob` | novi/jobs/manager.py:224-251 | a new job exactly while the retry count is below the limit |
| `Jobs.JobManager.CompleteJob` | novi/jobs/manager.py:266-286 | any known job, as finished or, with an error, as errored |
| `Jobs.JobManager.FailJob` | novi/jobs/manager.py:288-299 | any known job; an earlier error is kept when none is given |
| `Jobs.JobManager.CheckpointJob` | novi/jobs/manager.py:301-321 | the checkpoint of a known job, its status unchanged |
| `Jobs.JobManager.RestartAndSweep` | novi/jobs/persistence.py:257-295 | memory is empty, the store swept, and each row names a stored job and its checkpoint step unchanged |
| `Chunker.ChunkTextBounded` | novi/memory/knowledge_index.py:46-90 | no chunk is longer than the limit plus the overlap and a blank line |
| `Chunker.LimitBoundsIff` | novi/memory/knowledge_index.py:37-101 | the documented limit bounds every chunk of every text if and only if there is no overlap or the limit is zero |
| `Chunker.LimitExceeded` | novi/memory/knowledge_index.py:46-51 | a concrete text in which the limit is exceeded when an overlap is carried |
| `Chunker.ParagraphKept` | novi/memory/knowledge_index.py:57-90 | every paragraph within the limit lies whole inside the chunk it is placed in |
| `Chunker.OrderKept` | novi/memory/knowledge_index.py:57-90 | a later paragraph is never placed in an earlier chunk |
| `Chunker.WindowCovers` | novi/memory/knowledge_index.py:66-68 | every character of an oversized paragraph is in one of its windows if and only if the limit is positive |
| `Chunker.WindowsKept` | novi/memory/knowledge_index.py:61-69 | the windows of an oversized paragraph stand together where it is placed |
| `Chunker.ChunkWithOverlap` | novi/memory/knowledge_index.py:46-90 | the loop computes the chunks of the text |
| `Chunker.BlankText` | novi/memory/knowledge_index.py:52-54 | a text of blanks only is one chunk, cut off at the limit, and an empty one has none |
| `Chunker.CarryOver` | novi/memory/knowledge_index.py:77-86 | what a closed chunk leaves to the next: from the last line break within the overlap, else the overlap, else all of it |
| `Chunker.TailIsEnd` | novi/memory/knowledge_index.py:77-86 | the overlap is the end of the closed chunk, as long as allowed unless it is cut back to a line break |
| `Chunker.ForceSplit` | novi/memory/knowledge_index.py:61-69 | closes the current chunk and appends the windows |
| `Capabilities.CapabilityRegistry.Register` | novi/capabilities/registry.py:24-25 | adds or replaces one capability and touches no other |
| `Capabilities.CapabilityRegistry.ResolveAll` | novi/capabilities/registry.py:33-52 | exactly the known capabilities that a chain of known dependencies leads to from the request, each once; cycles and unknown ids end the search |
| `Capabilities.CapabilityRegistry.CheckConflicts` | novi/capabilities/registry.py:63-71 | every conflict between two of them is listed, once and in one order |
| `Capabilities.ConflictsOnce` | novi/capabilities/registry.py:63-71 | each conflicting unordered pair of a list without repeats appears once |
| `Evidence.EvidenceBounded` | novi/graphs/research_intel.py:203-255 | over every sequence of searches at most four bundles are kept and no source twice |
| `Evidence.UnmetMeans` | novi/graphs/research_intel.py:203-256 | of a list of results exactly those are taken, in order, that have no source or one met neither among the kept results nor earlier in the list |
| `Evidence.AccumulatedMeans` | novi/graphs/research_intel.py:203-256 | a search that failed or found nothing new and no text changes nothing; any other adds a bundle of its new results and its text, behind at most the three newest before |
| `Evidence.DecimalMeans` | novi/graphs/research_intel.py:284-309 | source numbers are decimal numerals without leading zeros |
| `Evidence.AccumulateBundle` | novi/graphs/research_intel.py:203-255 | the loops drop results whose source was met, keep the newest bundles and report how many results are new |
| `Evidence.FilterUnmet` | novi/graphs/research_intel.py:230-237 | the results whose source is neither kept nor met earlier in the same bundle |
| `Evidence.ManifestIsFirst` | novi/graphs/research_intel.py:284-309 | on results without repeats the manifest is the first twelve with a URL |
| `Evidence.BuildManifest` | novi/graphs/research_intel.py:284-309 | the manifest of accumulated evidence is its first twelve results with a URL, numbered from S1 |
| `Citations.CitedSourceIds` | novi/graphs/research_intel.py:454-460 | the ids cited in brackets anywhere in the answer, each once, in the order of their first citations |
| `Citations.DistinctInOrder` | novi/graphs/research_intel.py:454-460 | dropping repeats keeps every id and the order of first citation |
| `Citations.CitedMembers` | novi/graphs/research_intel.py:451-460 | an id is found exactly when it stands in brackets at some position |
| `Citations.CitedMeans` | novi/graphs/research_intel.py:451-460 | an id is cited at a position exactly when S and at least one digit stand there in brackets |
| `Citations.SourceIdMeans` | novi/graphs/research_intel.py:284-309 | every id the manifest gives out can be cited, and carries its number |
| `Citations.InvalidCitations` | novi/graphs/research_intel.py:463-494 | the first eight cited ids that the manifest does not have, in the order of citation; empty if and only if every cited id is in the manifest |
| `ModelChoice.GradeIsStrongest` | novi/configuration/recommendation.py:112-136 | the grade is that of the strongest positive claim, the earliest of equally strong ones; none without a positive claim |
| `ModelChoice.EvidenceGrade` | novi/configuration/recommendation.py:112-136 | the best-so-far loop computes the grade |
| `ModelChoice.EvidenceLadder` | novi/configuration/recommendation.py:81-136 | which claim counts as how strong, and which strength ranks before which |
| `ModelChoice.ConfidenceKept` | novi/configuration/recommendation.py:112-136 | the grade carries the confidence of the claim it comes from |
| `ModelChoice.MemoryBounds` | novi/configuration/recommendation.py:295-319 | the least and the greatest estimate, none without one |
| `ModelChoice.BoundsOrdered` | novi/configuration/recommendation.py:295-319 | the lower bound is positive and at most the upper one |
| `ModelChoice.FitMonotone` | novi/configuration/recommendation.py:322-408 | more memory of a known kind never makes a model fit less |
| `ModelChoice.FitMeans` | novi/configuration/recommendation.py:322-408 | which fit a model gets from its memory bounds and the hardware |
| `ModelChoice.RankOrder` | novi/configuration/recommendation.py:466-481 | the better fit ranks first, then the stronger evidence, the higher confidence and the broader model, in this order |
| `ModelChoice.RankMonotone` | novi/configuration/recommendation.py:466-481 | nor does it worsen its rank |
| `ModelChoice.BestIsLeast` | novi/configuration/resolver.py:308-311 | the best rank is one of the candidate's and none of its ranks is better |
| `ModelChoice.ChoiceIndependent` | novi/configuration/resolver.py:281-315 | there is one first candidate at most, and the order of the models has no part in it |
| `ModelChoice.ChosenIff` | novi/configuration/resolver.py:281-315 | a model is picked if and only if some compatible one has evidence for a primary capability, and it is such a one |
| `ModelChoice.ChoiceIsBest` | novi/configuration/resolver.py:281-315 | the model picked covers the most primary capabilities, of those has the best rank, and of those the least name |
| `ModelChoice.ScoredMeans` | novi/configuration/resolver.py:157-175 | which capabilities a model is ranked for, and by which rank |
| `ModelChoice.ScoreModel` | novi/configuration/resolver.py:157-175 | the rank of a model for each primary capability it has evidence for |
| `ModelChoice.PickPrimaryModel` | novi/configuration/resolver.py:281-315 | the eligible candidate that comes before every other by coverage, best rank and name; none when none is eligible |

## Left out

- HTTP and WebSocket endpoints, uploads, command line, chat bridges, containers and process handling: input and output with no invariant of their own.
- SQLite, LanceDB, TOML, YAML and JSON libraries, hashing and embeddings: maps, sets, sequences and functions here; digests are taken to identify contents.
- Nested configuration sections are values, so updates through an alias of an inner dictionary are not captured; the one place where the source relies on an alias, the startup migration, is modelled as an update of the live configuration.
- Conversation.LoadMessages: ids and creation times of messages are reduced to the position, and only the single file is modelled, not the index file beside it.
- Vault.VaultSynchronizer.Sync: leaves out the cache by modification time, the revisions table, a note that cannot be reconstructed or retired, and configurations without a search index or without a relationship store.
- VaultIndex.IndexConverges: a note's index rows are written and removed in one step, while the source upserts the new rows and then deletes left-over ones one by one, so a pass that dies in between is not covered.
- MemoryEdges.Projection.Sync: an edge is a source, a target and a kind; the order in which sets are walked is any order.
- WikiLinks.WikilinkSynchronizer.SyncAll: leaves out the failures that are logged and skipped (an unreadable scan, a failing sweep) and the report's lists of ambiguous titles; the note index is the scan's own.
- WikiLinks.WikilinkSynchronizer.SweepOrphans: the newest rows are those inserted last, while the source orders them by creation time and then by row id.
- WikiLinks.ParseWikilinks: titles and aliases as the pattern cuts them; the single-note path is the diff of one note.
- CodingGraph.CodingGraph.Run: leaves out error records, stream events, metrics, injected understand and plan nodes, an agent loop that raises, and LangGraph's own recursion limit; the text of repair feedback is a parameter.
- CommandReport.ReportFromToolResult: exit codes that are not integers, the command text and durations are left out; lower-casing is a parameter.
- ResearchGraph.ResearchGraph.Run: leaves out evidence bundles (see `Evidence.dfy`), error records, stream events, injected nodes, and how gaps, refined queries and relevance are computed.
- ResearchGraph.ParseDecomposition: starts from the list of strings that the JSON object holds.
- LockfileSplice.PatchWrites: a root version that is no string, and packages or an entry that the scanner does not span as a whole (LockfileSpan.SpanOfValue), are outside its claim; the metadata files of the other package managers are not modelled.
- LockfileReadBack.ReadBackAccepts: a version that is no JSON string body is outside its claim; the reader accepts any run of plain characters as a number or literal.
- Extraction.WatermarkLags: which items a batch yields is any function of the moment and the batch; later curation of knowledge, reflection and the legacy buffer for stores without pending turns are left out.
- Redaction.RedactedAlike: numbers are reals and lists are leaves, so a secret inside a list element is not told apart from the list.
- RetiredPaths.Configuration.Set: the registry's own validation is a parameter; apply callbacks and bus handlers are taken not to write the configuration.
- Jobs.RetriesBounded: calls are sequential, so saving outside the lock is not interleaved with other calls; events, times and separate checkpoint files are left out.
- Chunker.ChunkWithOverlap: the rows of the vector table written from the chunks are left out.
- Citations.InvalidCitations: digits are the ASCII ones; the disclosure phrases and the grounding text are left out.
- ModelChoice.PickPrimaryModel: candidates have distinct names, as the evidence table guarantees; curated seed facts and the explanation text are left out.
- Fact extraction and compression, semantic normalization, the model metadata cache, edit metrics, project migration, evaluation reports and the scheduler: members that would only repeat easier arguments.
