# SafeCode: verified model of the agent's safety-relevant core

SafeCode is a command-line coding agent that proposes patches, runs commands and tests, and asks the
user before it does anything sensitive. This project models the parts whose correctness is not visible
from one function, in Dafny, and proves what they promise. Where the code does not keep a promise, a
concrete input is given and the exact condition under which it does keep it is proved.

| component | files |
|---|---|
| symbol rename: reference search, patch construction, application | `SourceText`, `LineRuns`, `PatchApplier`, `Rename`, `RenameMeaning`, `RenameProject` |
| conversation buffer: compaction, persistence, reload | `Conversation`, `ConversationRuns` |
| user and project settings: merge, presets, layered load | `Config` |
| trust roots and process-local grants | `Trust` |
| approval tiers of a proposal | `ApprovalTier` |
| agent loop: two step protocols, bounded runs, sequences of calls | `AgentSteps`, `AgentEffects`, `AgentExits`, `AgentRuns`, `AgentRunSafety`, `AgentCalls`, `AgentWrites`, `AgentLoop`, `Validation` |
| `fix --watch`: repeated invocations over one task log | `FixWatch`, `FixRepeats` |
| diff sections and change counts; printing of TOML values | `DiffHunks`, `TomlValue` |

`Collections` holds the shared facts about lists, sets and orders.

The model keeps the form of the source. `SafeCodeConfig`, `GrantTable`, `ConversationBuffer`,
`SessionFile`, `TaskSidecar` and `AgentLoop` are classes whose methods update their fields and are proved
equal to a specification function of the old state; loops of the source are loops with invariants; the
theorems are then about the specification functions, over all inputs and all runs. Answers of the model,
test results, file contents, failing writes and the clock are inputs that may take any value.

## Main results

- **Rename.** Below the search cap, the proposal applies if and only if, in every searched file, each run
  that changes has its text in one place when its turn comes (`RenameProject.RenameAppliesIff`); it then
  replaces each run of lines in its own place, and a searched file ends as the file with exactly its NAME
  tokens renamed if and only if every run is faithful (`RenameProject.RenameEndToEnd`). A run that starts
  inside a triple-quoted string is not: a docstring of five lines is rewritten although it holds no token to
  rename (`RenameMeaning.DocstringIsRewritten`), against the comment in `src/safecode/cli_refactor.py:48-53`.
- **Conversation.** At most forty user turns ever, and nothing lost without a summary unless a reload met
  more than eighty messages; messages as such are unbounded, so that can happen.
- **Settings.** The merge is the loosest common tightening of the two files, except that two non-empty
  disjoint host allowlists merge to the empty list, which its readers take as "no restriction". After the
  presets, the knobs can end laxer than the user wrote, under an exact condition; of two loads with a
  preset, one is at least as strict as the other exactly when its policy ranks at least as high.
- **Approval tiers.** Automatic is exactly what is documented, measured by the lines in exactly one of the
  two texts, and independent of block order. Gated is not: a protected path before a deletion turns the gate
  into a confirmation, which `full_auto` passes.
- **Agent loop.** One invariant over every sequence of steps and runs on a loop object, with anything the
  user and other commands do to its session and pending patch in between: exact stuck counter, only
  permitted patches applied, plan position within the plan. The final status and the reported reason
  determine each other, and each way a step, an iteration and a run can wait, complete, raise or go on is
  given by the exact condition for it (`AgentExits`). A validation repair can replace a pending patch, a patch
  already written is asked for again when applying raises late, an intent that is stuck right after an
  approved write makes the run wait for the user instead of ending as stuck, the "aborted" reason is
  unreachable, replanning is dead code, and remembered context restarts a session that was to be resumed.
- **Write guard.** With auto-edit on, the count of writes never exceeds nine plus the largest number of
  writes in one turn, and once it has reached ten no call dispatches another tool. But a turn that raises is
  not counted: any number of writes can be dispatched with the count at zero
  (`AgentWrites.RaisedTurnsEscapeTheGuard`). The count is the number of writes dispatched exactly when no
  turn raised after dispatching one, and then the same bound holds of the writes.
- **fix --watch.** Proposals stay within the cap over every interleaving of commands, and the cap can be
  used up. Once a failure is recorded, the same failure is refused through any number of applies, edits,
  rollbacks, passes and repetitions, until another failure is recorded
  (`FixRepeats.RecordedFailureIsRefused`). Both depend on recording having worked.
- **Printers.** Exact conditions for the round trips of diff sections and of TOML values.

## Model

| member | source | states |
|---|---|---|
| SourceText.ReplaceSymbolInSource | src/safecode/cli_refactor.py:41-67 | the token loop returns the chunk with every NAME token equal to the old name replaced on the target lines, and the chunk unchanged when it does not tokenise; stated of the pieces of a line, so the spacing that `untokenize` may change between tokens is not covered |
| SourceText.ReplaceInLine | src/safecode/cli_refactor.py:57-64 | one line of the token loop: replaced on a target line, copied otherwise, with the lexer state carried on |
| SourceText.RenameLineAt | src/safecode/cli_refactor.py:58-64 | position by position: renaming changes the NAME tokens that spell the old name and nothing else, so never a string or comment |
| SourceText.RenameLineFixedIff | src/safecode/cli_refactor.py:58-64 | a line is left as it is exactly when it has no such NAME token |
| SourceText.RenameLineFlippedIff | src/safecode/cli_refactor.py:57-64 | tokenising from the wrong side of a triple quote gives the right line exactly when the name does not occur as a word |
| SourceText.SliceState | src/safecode/cli_refactor.py:55-57 | tokenising a slice of a file from scratch sees the file's string state when the slice starts in code, and the opposite state otherwise |
| SourceText.ReplacedTokenises | src/safecode/cli_refactor.py:54-67 | renaming neither makes nor breaks tokenisability |
| SourceText.ReplacedRoundTripIff | src/safecode/cli_refactor.py:41-67 | renaming a chunk there and back restores it exactly when it does not tokenise or no target line held the new name |
| LineRuns.GroupLines | src/safecode/cli_refactor.py:116-122 | the grouping loop computes the specified runs |
| LineRuns.RunsBelowAreRuns | src/safecode/cli_refactor.py:116-122 | the runs are consecutive inside, separated by at least one line, in order, and cover exactly the expanded lines |
| LineRuns.RunsAreUnique | src/safecode/cli_refactor.py:116-122 | that description determines the grouping: the runs are the maximal ones |
| Rename.SearchFile | src/safecode/agent/find_references_tool.py:155-163 | scanning one file appends its matching lines in order and stops at the cap |
| Rename.FindReferences | src/safecode/agent/find_references_tool.py:142-165 | the fallback search returns the first hundred mentions over the sorted files |
| Rename.FirstHundred | src/safecode/agent/find_references_tool.py:142-165 | the search returns all of the mentions, or the first hundred of more |
| Rename.ExpandLines | src/safecode/cli_refactor.py:107-111 | the expansion is exactly the lines within one of a touched line, clipped to the file |
| Rename.BuildRunBlocks | src/safecode/cli_refactor.py:124-142 | at most one block per run: none without a textual match, none without a change |
| Rename.BuildFileBlocks | src/safecode/cli_refactor.py:106-142 | one file's blocks are those of its runs, in order |
| Rename.SplicedAt | src/safecode/cli_refactor.py:124-142 | position by position: inside a run its own renamed text, outside every run the original line |
| Rename.SplicedKeepsUntouched | src/safecode/cli_refactor.py:129-135 | only touched lines change: context lines keep all their pieces, and their bytes as far as `untokenize` reproduces the spacing between tokens (it does not for a tab, nor for blanks before a backslash continuation) |
| Rename.NoOverlappingMatch | src/safecode/cli_refactor.py:106-125 | the text of a run cannot be found overlapping the run's own place from above: the run would have been longer |
| Rename.PatchIsPositional | src/safecode/patch/applier.py:155-187 | search and replace with a unique match puts every block of one file at its own run, part way through the patch too |
| Rename.PatchAppliesIff | src/safecode/patch/applier.py:155-187 | with every mention touched, the blocks of a file apply exactly when every run that changes has its text at its own place and nowhere apart from it when its turn comes |
| PatchApplier.ApplyUpdates | src/safecode/patch/applier.py:155-187 | the update blocks of one file are applied in order, each exactly when its search text matches once (`ApplyBlockIff` says when that is) |
| PatchApplier.UniqueMatchIsOwn | src/safecode/patch/applier.py:164-172 | a block whose search text matches once and occurs at a place either matches there or overlaps it |
| PatchApplier.ApplyBlockIff | src/safecode/patch/applier.py:164-186 | a block applies exactly when its search text has one place in the file, anywhere in it, and then exactly that place is replaced |
| RenameMeaning.RunMatchesFileIff | src/safecode/cli_refactor.py:124-135 | one run gives the file's renamed lines exactly when it starts outside strings and tokenises, or has nothing to rename |
| RenameMeaning.PatchIsRenameIff | src/safecode/cli_refactor.py:86-144 | with every mention touched, the patched file is the file with its NAME tokens renamed exactly when every run is faithful |
| RenameMeaning.DocstringIsRewritten | src/safecode/cli_refactor.py:48-67 | counterexample to the documented promise: a docstring without any NAME token is rewritten |
| RenameMeaning.DocstringIsPatched | src/safecode/patch/applier.py:155-187 | the same counterexample through the applier: the one block matches exactly once, so the proposal applies and the docstring is changed |
| RenameMeaning.RenameRoundTripIff | src/safecode/cli_refactor.py:86-144 | old to new and new to old on the same lines restores the file exactly when no accepted run had the new name on a touched line |
| RenameProject.CollectLines | src/safecode/cli_refactor.py:86-92 | the dictionary of line sets holds, for every file, the lines of its usable references |
| RenameProject.BuildRenamePatch | src/safecode/cli_refactor.py:86-144 | the whole patch: the blocks of every referenced file, in file order |
| RenameProject.ProposalIsPositional | src/safecode/patch/applier.py:125-187 | over all files: a proposal that applies has replaced every run in its own place and touched no other file |
| RenameProject.SearchBelowCapIsComplete | src/safecode/agent/find_references_tool.py:142-165 | fewer than a hundred references means every mention in the searched files was found |
| RenameProject.RenameEndToEnd | src/safecode/cli_refactor.py:86-144 | search, patch and application composed: unsearched files are untouched, and a searched file is the renamed file exactly when it is faithful |
| RenameProject.RenameAppliesIff | src/safecode/cli_refactor.py:86-144 | below the search cap the proposal applies, to all files at once, exactly when in every searched file every run that changes has such a place: a condition on the files alone |
| Conversation.ConversationBuffer.Load | src/safecode/agent/conversation.py:49-67 | loading keeps the last eighty messages, and starts empty when a line cannot be parsed or the file is missing |
| Conversation.ConversationBuffer.Append | src/safecode/agent/conversation.py:85-88 | an append adds the message, compresses beyond forty user turns and rewrites the file |
| Conversation.ConversationBuffer.FindBatchBoundary | src/safecode/agent/conversation.py:202-209 | the scan finds the position just after the tenth user message |
| Conversation.ConversationBuffer.CompressOldestTurns | src/safecode/agent/conversation.py:200-226 | the block before the boundary, half the buffer when forced, is replaced by one summary |
| Conversation.ConversationBuffer.CompactNow | src/safecode/agent/conversation.py:117-122 | manual compaction of a buffer with more than one message |
| Conversation.ConversationBuffer.CompactWithLlm | src/safecode/agent/conversation.py:124-187 | compaction with a model summary, and with the textual one when the call fails or is empty |
| Conversation.BoundaryIff | src/safecode/agent/conversation.py:202-209 | a boundary exists exactly when there are that many user messages, and cuts off exactly that many |
| Conversation.AppendedUsers | src/safecode/agent/conversation.py:193-198 | an append never leaves more than forty turns, and compression removes exactly ten |
| Conversation.CompactNowShrinksIff | src/safecode/agent/conversation.py:117-122 | manual compaction never grows the buffer and shrinks it exactly from four messages up |
| Conversation.CompactNowCuts | src/safecode/agent/conversation.py:117-122 | manual compaction cuts after the tenth user message, or in the middle below ten turns, and its one summary stands for exactly the messages that went |
| Conversation.AppendCuts | src/safecode/agent/conversation.py:193-226 | an append beyond forty turns cuts after the tenth user message, and the summary stands for exactly what went |
| Conversation.LlmCuts | src/safecode/agent/conversation.py:124-187 | up to ten turns the model is not asked; beyond, its answer or else the textual summary takes the place of everything up to the tenth user message |
| Conversation.RepeatedCompactionSettles | src/safecode/agent/conversation.py:117-122 | repeated manual compaction reaches at most three messages |
| Conversation.LlmFailureKeepsTheSameSuffix | src/safecode/agent/conversation.py:169-187 | a failed model call and a successful one keep the same messages; only the summary differs |
| Conversation.ReloadIsLosslessIff | src/safecode/agent/conversation.py:56-64 | saving and loading is lossless exactly up to eighty messages |
| ConversationRuns.TurnCapHolds | src/safecode/agent/conversation.py:49-226 | over every mix of appends, compactions, failed writes and reloads the buffer holds at most forty user turns |
| ConversationRuns.MessagesUnbounded | src/safecode/agent/conversation.py:193-198 | the number of messages has no bound: tool results alone grow it for ever |
| ConversationRuns.NoGapsEver | src/safecode/agent/conversation.py:49-226 | besides one leading summary, the buffer is always an unbroken tail of what was appended |
| ConversationRuns.NothingLostSilently | src/safecode/agent/conversation.py:49-226 | as long as no reload met more than eighty messages, the buffer is the whole history or one summary and then a tail of it |
| ConversationRuns.AppendsAlone | src/safecode/agent/conversation.py:85-88 | under appends alone the buffer is determined by the history, and the dropped prefix holds a multiple of ten turns |
| Config.StricterPolicyRank | src/safecode/config.py:512-524 | the stricter policy has the larger of the two ranks, with an unknown name counted as balanced on the left and ignored on the right |
| Config.MergeNeverLaxerThanUser | src/safecode/config.py:329-414 | the merge is never laxer than the user's file on limits, policy, flags, commands, caps and approval, and keeps its providers and trust roots |
| Config.MergeHonoursProject | src/safecode/config.py:329-414 | against the project's file the merge is no laxer on policy, limits and network exactly when the project's policy name is known or the user's ranks at least as balanced, and on the other knobs exactly unless the command lists share nothing and the user's is not empty |
| Config.MergedCommandsAsSet | src/safecode/config.py:350-352 | the merged commands are the common ones, or all of the user's when there is none |
| Config.MergeIsLoosestCommonTightening | src/safecode/config.py:329-414 | nothing stricter than necessary: whatever is at least as strict as both files is at least as strict as the merge |
| Config.MergedHostsExactIffNoClash | src/safecode/config.py:358-365 | the permitted hosts are exactly those both files permit, exactly unless the two lists are non-empty and disjoint |
| Config.ClashOpensTheNetwork | src/safecode/config.py:358-365 | counterexample: two files that name one host each merge to a network open to every host |
| Config.MergeIdempotentIffNoClash | src/safecode/config.py:329-414 | merging the same project file again changes nothing, exactly unless the allowlists clash |
| Config.LoadKeepsNetworkAndPolicyFloor | src/safecode/config.py:131-161 | whatever preset runs, the load ends with the merge's network switch and allowlist, and with a policy at least as strict as each source asked |
| Config.LoadIgnoresProjectLlmAndTrust | src/safecode/config.py:377-378 | non-interference: the provider and trust tables of a project file do not affect the load |
| Config.LoadProviderPrecedence | src/safecode/config.py:162-176 | environment over active profile over the user's table for the provider name, and the user's table as it is without either |
| Config.LoadKeepsUserKnobsIff | src/safecode/config.py:131-161 | the knobs end no laxer than the user wrote exactly when no preset is selected or the selected one is no laxer |
| Config.LoadKeepsUserLimits | src/safecode/config.py:131-177 | limits, caps, approval settings and the network switch survive every layer of the load |
| Config.ProjectPolicyLineLowersUserKnob | src/safecode/config.py:140-161 | counterexample: a project line that only repeats the policy in force undoes a stricter knob of the user |
| Config.StrictIffAskedFor | src/safecode/config.py:131-145 | the policy in force is strict exactly when the user file, the project file or the environment asks for it |
| Config.StrictLoad | src/safecode/config.py:268-278 | a load with a preset under a strict policy confirms read-only and medium commands, blocks high-risk ones, allows exactly `git`, `ls` and `pwd`, keeps to the project root and runs no medium hooks, whatever the files say |
| Config.BalancedLoad | src/safecode/config.py:279-288 | the same for the balanced policy and its alias: read-only commands need no confirmation, and `echo` is allowed as well |
| Config.ExperimentalLoad | src/safecode/config.py:289-299 | the same for the experimental policy and its alias: nothing but high risk is held up, and medium hooks run |
| Config.UnknownPolicyLoad | src/safecode/config.py:315-318 | under an unknown policy name the knobs stay as the two files agreed |
| Config.PresetsFollowRank | src/safecode/config.py:268-326 | of two loads with presets of known policies, one is no laxer than the other in every knob exactly when its policy ranks at least as high |
| Config.DefaultsAreBalanced | src/safecode/config.py:15-19 | settings nobody wrote already have the knobs of the balanced preset |
| Config.TiesKeepTheUsersWord | src/safecode/config.py:512-537 | on equal rank the user's spelling of policy and approval mode is kept |
| Config.MergedModeIff | src/safecode/config.py:527-531 | the merged approval mode is full-auto only if both are, automatic edits only if both allow at least that, and an unknown mode counts as asking every time |
| Config.ProjectDecidesHooks | src/safecode/config.py:332-376 | hook commands are the project's, each list in its place, and the user's have no effect |
| Config.ProjectDecidesFormatter | src/safecode/config.py:411-412 | the formatter runs only if both enable it, with the project's commands if it lists any |
| Config.LoadProviderFields | src/safecode/config.py:162-176 | each provider setting comes from the first source that has one |
| Config.SafeCodeConfig.ApplyPolicyPreset | src/safecode/config.py:307-326 | the preset of the policy overwrites its knobs in place; an unknown policy changes nothing (what each preset permits: `StrictLoad`, `BalancedLoad`, `ExperimentalLoad`) |
| Config.SafeCodeConfig.MergeTrustedConfig | src/safecode/config.py:329-414 | the merge of a user object with a project's settings, section by section in place |
| Config.SafeCodeConfig.Load | src/safecode/config.py:131-177 | merge, environment policy, preset, provider profile and environment provider, in that order |
| Trust.EffectiveRankIsJoin | src/safecode/config.py:454-460 | the effective policy has the largest rank among the configured policy and the matching roots with a known policy |
| Trust.RootOrderIrrelevant | src/safecode/config.py:454-460 | the effective rank does not depend on the order of the roots |
| Trust.MatchesIff | src/safecode/config.py:474-487 | a root with subdirectories covers exactly its own path followed by any components, and one without only itself |
| Trust.TableHoldsLiveGrants | src/safecode/config.py:417-437 | after any sequence of grants, revocations and clears the table holds exactly the live grants |
| Trust.EffectiveRankAfterRun | src/safecode/config.py:417-471 | after any such sequence the effective rank of a path is the join of policy, configured roots and live grants |
| Trust.GrantTable.GrantTrust | src/safecode/config.py:420-425 | a grant is added under its identifier |
| Trust.LatestGrantIsLast | src/safecode/config.py:420-425 | the latest grant comes last, after all the others that are left |
| Trust.GrantTable.RevokeTrust | src/safecode/config.py:428-430 | exactly the grant with the identifier goes, and the result says whether there was one |
| Trust.GrantTable.ClearTrust | src/safecode/config.py:433-437 | the table is emptied and its size returned |
| Trust.GrantTable.EffectiveTrust | src/safecode/config.py:440-471 | the loop over the matching roots computes the effective policy |
| ApprovalTier.SuffixHasOneDot | src/safecode/agent/approval_tier.py:68 | the suffix used for the documentation test is empty or one dot and what follows it |
| ApprovalTier.MatchesNeverAutoIff | src/safecode/agent/approval_tier.py:91-103 | a path is protected exactly when some pattern covers it |
| ApprovalTier.PatternCoversIff | src/safecode/agent/approval_tier.py:91-103 | a pattern covers exactly the path it spells, everything below the directory it names, with or without slashes at its end, and every file of its name; spaces around it do not matter |
| ApprovalTier.BlankCoversNothing | src/safecode/agent/approval_tier.py:94-96 | a blank pattern covers nothing |
| ApprovalTier.SuffixOfIs | src/safecode/agent/approval_tier.py:68 | the suffix is what follows the last dot of the name, in lower case, and empty for a leading or trailing dot |
| ApprovalTier.DocsOnlyIff | src/safecode/agent/approval_tier.py:66-77 | the suffix settles documentation and binary files, and the keywords decide about every other |
| ApprovalTier.ChangedLineCountIsSize | src/safecode/agent/approval_tier.py:80-88 | the count by sets is the number of different lines in exactly one of the texts, at least one for an update with any text; for creations and deletions the number of lines |
| ApprovalTier.CountIsSymmetric | src/safecode/agent/approval_tier.py:86-88 | an update and its reversal count alike |
| ApprovalTier.NewLineAddsOne | src/safecode/agent/approval_tier.py:86-88 | a line new to both texts adds one beyond the minimum, wherever it is put |
| ApprovalTier.RepeatedLineAddsNothing | src/safecode/agent/approval_tier.py:86-88 | a line the text already has adds nothing |
| ApprovalTier.SharedLineTakesOne | src/safecode/agent/approval_tier.py:86-88 | a line that only the other text had takes one away, down to the minimum |
| ApprovalTier.FirstScanIff | src/safecode/agent/approval_tier.py:129-135 | the first scan is settled by the first block that deletes, creates or is protected |
| ApprovalTier.AutoIff | src/safecode/agent/approval_tier.py:114-150 | automatic exactly when every block is an unprotected documentation update, no more files are touched than allowed, and the different lines in exactly one of the texts, summed over the blocks, stay within the limit |
| ApprovalTier.GateIff | src/safecode/agent/approval_tier.py:129-135 | gated exactly when the block that settles the scan is a deletion or creation |
| ApprovalTier.DangerousIsGatedIff | src/safecode/agent/approval_tier.py:118-135 | the documented rule that any deletion or creation is gated holds exactly without a protected path before the first of them |
| ApprovalTier.DeletionBehindProtectedPath | src/safecode/agent/approval_tier.py:129-135 | counterexample: a deletion after a change to `uv.lock` is only confirmed, and gated in the other order |
| ApprovalTier.AutoIgnoresOrder | src/safecode/agent/approval_tier.py:114-150 | a permutation of the blocks is automatic exactly when the original is |
| ApprovalTier.MergedAutoIsUserAuto | src/safecode/config.py:399-410 | what is automatic under merged settings is automatic under the user's alone |
| ApprovalTier.MergedLiftsPauseIff | src/safecode/config.py:399-410 | a project file can lift a pause, exactly under full-auto and by protecting a path before the first dangerous block |
| AgentEffects.PatchStepEffect | src/safecode/agent/loop_dispatcher.py:264-468 | a patch step that returns reports a stop exactly when it leaves the session waiting, one that is interrupted leaves the session alone; either way an existing pending patch stays and at most one patch is applied, one the tier rule allows |
| AgentEffects.ChoiceEffect | src/safecode/agent/loop.py:527-655 | every exit of the JSON step: truthful report, same plan, at most one position further, one intent counted, patches handled; a raising or interrupted exit leaves the session alone |
| AgentEffects.AskedPatchIsPendingIff | src/safecode/agent/loop_dispatcher.py:276-468 | an edited patch is applied without asking exactly when allowed and applied cleanly; the step is cut short exactly when applying is interrupted; a step that asks has the patch pending and unwritten, exactly unless applying raised after the files were written |
| AgentEffects.JsonStepMovesIff | src/safecode/agent/loop.py:527-655 | the plan moves on exactly when an intent is dispatched that is not a held-up patch; only a stuck intent aborts; an apply is marked exactly by an approved write, and an abort keeps the mark it finds |
| AgentEffects.TurnDispatchesFirstTwenty | src/safecode/agent/multi_tool_turn.py:181-218 | a native turn dispatches exactly the first twenty of the tools offered over all its answers, up to an interruption; it reports the cap exactly when more were offered, and otherwise ends as its last answer says |
| AgentEffects.ReplyEffect | src/safecode/agent/loop.py:282-479 | every exit of the native step, the raising ones included: truthful report, never aborted, patches and intents untouched; a turn that raises adds its tools but no count |
| AgentEffects.GuardStopsEveryStep | src/safecode/agent/loop.py:251-280 | with auto-edit on and ten writes counted, a native step on an unfinished plan stops for the user and dispatches no tool |
| AgentEffects.FirstBatchCommandsWait | src/safecode/agent/loop.py:352-395 | without full-auto, a first batch that contains a command, at once or after a contract failure, dispatches none of its tools |
| AgentEffects.JsonStepSound | src/safecode/agent/loop.py:485-655 | a JSON step keeps the loop invariant, reports truthfully, and with a task open never completes a triple of dispatched intents |
| AgentEffects.NativeStepSound | src/safecode/agent/loop.py:181-479 | a native step keeps the loop invariant, also when a model call raises or the user interrupts it, reports truthfully and leaves the intent history alone |
| AgentEffects.CounterKept | src/safecode/agent/loop_budget.py:99-115 | the stuck counter stays equal to the length of the longest run of identical intents at the end of the history |
| AgentEffects.DispatchKept | src/safecode/agent/loop_budget.py:99-153 | with a task open, what was dispatched ends as what was routed does, cut to two |
| AgentEffects.MayApplyIsSafe | src/safecode/agent/loop_dispatcher.py:357-366 | a patch the loop may apply: never without a trust flag, with auto-edit alone only an automatic one, and never a gated one |
| AgentExits.PreparedIff | src/safecode/agent/loop.py:485-498 | without a session a goal is needed; another goal restarts, a stored plan is kept, and only an empty one is filled in |
| AgentExits.ReplyEndsIff | src/safecode/agent/loop.py:282-479 | a command is put to the user exactly when the reply holds one, full-auto is off and it has no secret; the step waits for that or for a closing answer that needs approval, completes with one that does not, and moves the plan exactly when a turn ran and returned |
| AgentExits.NativeStepEndsIff | src/safecode/agent/loop.py:181-479 | the same for the whole native step: only below the guard and on an unfinished plan is the reply acted on |
| AgentExits.PatchStepEndsIff | src/safecode/agent/loop_dispatcher.py:264-468 | which of the four ways out a patch step takes: a patch pending before, a failed edit, applied, waiting |
| AgentExits.PatchStepFiles | src/safecode/agent/loop_dispatcher.py:264-412 | an edited patch counts as applied exactly when the files were written, and stays pending exactly unless it was taken out again after that, also when the step raises; nothing is written over a pending patch |
| AgentExits.DispatchEndsIff | src/safecode/agent/loop.py:561-655 | the action left by a dispatched intent tells its route, and the other way round |
| AgentExits.ChoiceEndsIff | src/safecode/agent/loop.py:527-655 | the JSON step waits exactly for a stop of the model, a patch pending before, or one not applied cleanly; two contract failures leave an active session in place |
| AgentExits.SecondAnswerOnlyAfterFailure | src/safecode/agent/loop.py:527-560 | the model is asked again exactly after a contract failure, and the second answer then counts as the first would have |
| AgentExits.SecondReplyOnlyAfterFailure | src/safecode/agent/loop.py:282-330 | the same for the native protocol |
| AgentExits.JsonStepCompletesIff | src/safecode/agent/loop.py:500-525 | a JSON step completes the session exactly when the plan is finished |
| AgentExits.TimeBudgetEndsIff | src/safecode/agent/loop.py:694-703 | the time budget is looked at first and aborts the session without a step |
| AgentExits.UnvalidatedEndsIff | src/safecode/agent/loop.py:704-759 | after a step without validation the run goes on exactly when the session is active, and otherwise ends with the reason that fits |
| AgentExits.ValidatedEndsIff | src/safecode/agent/loop.py:710-759 | after validation: a pass changes nothing, a repair waits, and a failure is replanned under four conditions or ends the run |
| AgentExits.RunFollowsTrace | src/safecode/agent/loop.py:693-759 | a run is the chain of its iterations, each from where the one before ended and only the first with the goal, up to the limit or the first that breaks off or raises, whose state and reason are then the run's; results add up |
| AgentExits.ReplannedIsSticky | src/safecode/agent/loop.py:693-759 | a loop that uses up its iterations reports a new plan exactly when some iteration made one |
| AgentExits.RunEndsIff | src/safecode/agent/loop.py:661-775 | a run asks for clarification exactly for a named ambiguous goal; a task's step budget turns exactly a loop that used it up below the caller's limit into a failure; otherwise the loop's end is the run's |
| AgentExits.MemoryComesFirst | src/safecode/agent/loop_planner.py:271-280 | what is remembered comes before the goal, separated by a blank line, and neither loses anything |
| Validation.RunAfterApply | src/safecode/agent/validation.py:80-288 | the suites run in order up to the first failure, which decides between no progress, the repair limit and a repair proposal |
| Validation.OutcomeIsUnique | src/safecode/agent/validation.py:80-288 | that description determines the outcome |
| Validation.OutcomeIff | src/safecode/agent/validation.py:21 | validation passes exactly when every configured one of test, lint, typecheck and build exits with 0; otherwise the earliest failing one in that order decides, and the exact conditions for no progress, the repair limit and either end of a repair are given |
| Validation.FreshOutcome | src/safecode/agent/validation.py:80-235 | called as the loop calls it, validation never reports a second repair, a lack of progress or a reached limit |
| AgentRunSafety.AdvanceApplyGoesOn | src/safecode/agent/loop.py:781-785 | only an executed, approved write is classified as an apply step; it does not wait for the user and has not completed |
| AgentRunSafety.IterateSound | src/safecode/agent/loop.py:693-758 | one iteration of a run keeps the loop invariant, records at most two results, and breaks off only with a reason that fits the state |
| AgentRunSafety.RunIsSound | src/safecode/agent/loop.py:661-775 | a run keeps the loop invariant, makes at most the smaller of the two limits iterations with at most two results each, and ends with a fitting reason |
| AgentRunSafety.ReasonTellsStatus | src/safecode/agent/loop.py:693-763 | the final status and the reason determine each other; no run reports plain `aborted` |
| AgentRunSafety.StepBudgetFailsOnlyActive | src/safecode/agent/loop.py:760-763 | the step-budget failure is recorded only for a session still active after every iteration, so it never replaces a completed one |
| AgentRunSafety.RunKeepsDispatch | src/safecode/agent/loop.py:661-775 | with a task open throughout, a run keeps dispatched intents free of triples |
| AgentRunSafety.CompletionTakesAllSteps | src/safecode/agent/loop.py:500-525 | completion takes one iteration for every plan step left and one more |
| AgentCalls.EveryReachableState | src/safecode/agent/loop.py:181-775 | the invariant over every sequence of steps, runs and outside changes of session and pending patch from a fresh loop object: plan position, exact counter, only permitted patches applied, at most 29 counted writes with auto-edit on, and no triple of dispatched intents while a task is open |
| AgentCalls.CallSound | src/safecode/shell/runtime.py:336-426 | one step, run or outside change keeps that invariant: the shell keeps the loop object while the user approves, discards or interrupts |
| AgentCalls.ValidatesIff | src/safecode/agent/loop.py:781-785 | a step is followed by validation exactly when it dispatches an approved write, or a stuck intent aborts right after one |
| AgentCalls.StuckEndsIff | src/safecode/agent/loop.py:710-756 | a stuck intent ends the run as `loop_stuck` exactly when validation is off, the step before was no approved write, or the validation passes; with a repair it waits for the user |
| AgentCalls.StuckWriteWaitsForUser | src/safecode/agent/loop_budget.py:134-153 | counterexample: the same approved write three times with a failing suite ends waiting for the user |
| AgentCalls.WithoutTaskThriceInARow | src/safecode/agent/loop_budget.py:126-132 | counterexample: without an open task the same intent is dispatched three times in a row |
| AgentCalls.PendingReplacedIff | src/safecode/agent/loop.py:787-811 | an iteration replaces an existing pending patch exactly when it validates, which is spelled out in its inputs, and a different repair patch lands in the same file |
| AgentCalls.RunKeepsPending | src/safecode/agent/loop.py:661-775 | a run whose repairs go elsewhere never touches an existing pending patch |
| AgentCalls.RunReplacesPendingIff | src/safecode/agent/loop.py:661-775 | over a whole run an existing pending patch is replaced exactly when a repair landed in its file and the last one differs |
| AgentCalls.RepairReplacesPending | src/safecode/agent/loop.py:787-811 | counterexample: an approved write with a failing suite replaces the user's pending patch |
| AgentCalls.AppliesIff | src/safecode/agent/loop_dispatcher.py:276-412 | a patch step writes exactly when nothing is pending, the edit succeeds, the tier rule allows it and the applier writes |
| AgentCalls.MayApplyIff | src/safecode/agent/loop_dispatcher.py:357-366 | the tier rule in terms of the proposal alone |
| AgentCalls.HiddenDeletionIsApplied | src/safecode/agent/loop_dispatcher.py:357-366 | under full-auto a deletion behind a protected path is applied unattended, and waits in the other order |
| AgentCalls.FreshRunsNeverReplan | src/safecode/agent/loop_planner.py:123-191 | with the validation results the loop really gets, no run is replanned or stops for lack of progress or too many repairs |
| AgentCalls.ReplannedAtMostTwice | src/safecode/agent/loop_planner.py:144-145 | whatever validation reports, a session is replanned at most twice over any run |
| AgentCalls.CompletedRunTookAllSteps | src/safecode/agent/loop.py:693-759 | a JSON run that reports completion made at least one iteration more than its plan had steps left |
| AgentCalls.ResumeContinuesIff | src/safecode/agent/loop_planner.py:271-280 | a run without a goal continues the stored session exactly when no context is remembered or it equals the stored goal |
| AgentCalls.SameGoalContinuesIff | src/safecode/agent/loop_planner.py:271-280 | naming the stored goal continues the session exactly when no context is remembered |
| AgentWrites.GuardHoldsForGood | src/safecode/agent/loop.py:251-280 | with auto-edit on and ten writes counted, no later call of any kind dispatches a tool, whatever happens in between |
| AgentWrites.GuardStopsEveryLaterStep | src/safecode/agent/loop.py:251-280 | and every later native step on an unfinished plan stops for the user |
| AgentWrites.CountIsBounded | src/safecode/agent/loop.py:416-421 | with auto-edit on, the count never exceeds nine plus any bound on the writes of one turn |
| AgentWrites.WriteCallsAreTheWrites | src/safecode/agent/loop.py:419-421 | writes are counted by the names of the two tools that write files, each call once |
| AgentWrites.WritesAreCountedOrLost | src/safecode/agent/loop.py:416-421 | every write dispatched is either counted or belongs to a turn that raised |
| AgentWrites.CountIsExactIff | src/safecode/agent/loop.py:416-421 | the count is the number of writes dispatched exactly when no turn raised after dispatching one |
| AgentWrites.WritesAreBounded | src/safecode/agent/loop.py:251-280 | under that condition the writes dispatched never exceed nine plus any bound on the writes of one turn |
| AgentWrites.RaisedTurnsEscapeTheGuard | src/safecode/agent/loop.py:416-421 | counterexample: turns of twenty edits whose follow-up model call raises leave the count at zero, any number of times |
| AgentLoops.RunTurn | src/safecode/agent/multi_tool_turn.py:181-218 | the turn loop: batch after batch until the model stops, twenty tools have run, or the turn raises |
| AgentLoops.AgentLoop.constructor | src/safecode/agent/loop.py:103-160 | a new loop object starts with zero counters over the stored session |
| AgentLoops.AgentLoop.Prepare | src/safecode/agent/loop.py:487-498 | a missing session or another goal starts a planned session; an empty plan is filled in |
| AgentLoops.AgentLoop.AbortIfStuck | src/safecode/agent/loop_budget.py:99-153 | the counter is updated first; the third identical intent aborts while a task is open |
| AgentLoops.AgentLoop.ExecutePatchProposal | src/safecode/agent/loop_dispatcher.py:264-468 | the patch step in place: pending patch kept, proposal saved, tier checked, applied or left for approval, with the places where it can be interrupted |
| AgentLoops.AgentLoop.Step | src/safecode/agent/loop.py:485-655 | the JSON step in place is the specified transition, including the exits that raise |
| AgentLoops.AgentLoop.DispatchTurn | src/safecode/agent/loop.py:397-479 | the turn in place: its tools run first, and only a turn that returns is counted and saved |
| AgentLoops.AgentLoop.CountWrites | src/safecode/agent/loop.py:419-421 | the number of write tools among the calls of a turn |
| AgentLoops.AgentLoop.StepNatively | src/safecode/agent/loop.py:199-479 | the native step in place is the specified transition, including the exits that raise |
| AgentLoops.AgentLoop.RunValidation | src/safecode/agent/loop.py:787-829 | the session after validation; a skipped one saves nothing, and a repair patch overwrites the default file |
| AgentLoops.AgentLoop.TryReplan | src/safecode/agent/loop_planner.py:123-191 | replanning under full-auto, from two repairs on, at most twice, and only to a non-empty plan |
| AgentLoops.AgentLoop.RunIteration | src/safecode/agent/loop.py:694-759 | the body of the run loop is the specified iteration, with each of its ways out |
| AgentLoops.AgentLoop.RunLoop | src/safecode/agent/loop.py:693-759 | the loop with its breaks and its sticky reason computes the specified run |
| AgentLoops.AgentLoop.Run | src/safecode/agent/loop.py:661-775 | clarification, loop and the step-budget failure when the loop was not broken off |
| FixWatch.RunProfileSuites | src/safecode/cli_fix.py:82-130 | suites run in order up to the first failing one, which decides exit code and category; the skipped ones before it are listed in order |
| FixWatch.TaskSidecar.RunFixWatch | src/safecode/cli_fix.py:411-761 | the ladder of outcomes in place: the log, the exit code and whether a patch was proposed (what is recorded and returned: `FixRepeats.InvocationRecords`, `FixRepeats.FailureExits`) |
| FixWatch.TaskSidecar.FindLatestHash | src/safecode/cli_fix.py:588-591 | the backward scan finds the hash of the latest fix entry that has one |
| FixWatch.TaskSidecar.RecordApply | src/safecode/task/wiring.py:73-99 | an apply marks the latest open proposal and appends its own entry |
| FixWatch.ProposesIff | src/safecode/cli_fix.py:411-761 | a patch is proposed exactly when nothing on the ladder stands before it; the exit code is zero exactly when the tests passed or a patch was proposed |
| FixWatch.InvokeCount | src/safecode/cli_fix.py:663-742 | an invocation adds one proposal exactly when it proposed a patch and could record it, and only below the cap |
| FixWatch.MarkAppliedKeepsCount | src/safecode/task/wiring.py:79-84 | marking a proposal as applied keeps the number of counted proposals |
| FixWatch.ProposalCap | src/safecode/cli_fix.py:663-696 | over any interleaving of watch runs, applies, edits and rollbacks the proposals stay within the larger of limit and initial number; plain fixes add to that |
| FixWatch.RecordedProposalsAreCapped | src/safecode/cli_fix.py:663-742 | when every recording works, the cap bounds the patches really proposed |
| FixWatch.UnrecordedProposalsUnbounded | src/safecode/cli_fix.py:727-744 | counterexample: while the log cannot be written the same failure is proposed for any number of times |
| FixWatch.NoProposalRepeatsAFailure | src/safecode/cli_fix.py:588-626 | no watch proposal carries the hash of the hash-bearing fix entry before it, whatever else writes the log (that failures are recorded with their hash: `FixRepeats.InvocationRecords`) |
| FixWatch.PassDoesNotClearNoProgress | src/safecode/cli_fix.py:588-592 | a passing run in between does not clear the no-progress rule |
| FixRepeats.InvocationRecords | src/safecode/task/wiring.py:122-165 | every failing run that is recorded leaves one entry with its own hash and status, so the latest hash of the log becomes that of this failure; passes and interruptions leave the latest hash alone |
| FixRepeats.FailureExits | src/safecode/cli_fix.py:526-696 | the exit code and the recorded category of each failing way out, with no progress before a blocked command |
| FixRepeats.OtherExits | src/safecode/cli_fix.py:421-474 | the exit codes of refused, interrupted and proposing invocations |
| FixRepeats.SuiteCategoryIff | src/safecode/cli_fix.py:98-118 | a command is reported as blocked exactly when it did not execute and exited with 125 or 126, as timed out exactly when it exited with 124 |
| FixRepeats.NoTaskNoMemory | src/safecode/cli_fix.py:588-663 | without a task neither an earlier failure nor the budget stands in the way |
| FixRepeats.LatestProposalIsMarked | src/safecode/task/wiring.py:73-99 | an apply marks the latest open proposal and nothing else |
| FixRepeats.OtherCommandsRecordOne | src/safecode/task/wiring.py:73-151 | every other command leaves one entry of its own kind at the end |
| FixRepeats.LatestKeptIff | src/safecode/task/wiring.py:122-165 | a command keeps the latest failure exactly when it records no other |
| FixRepeats.RecordedFailureIsRefused | src/safecode/cli_fix.py:588-626 | over commands: after a recorded failure the same failure is never proposed for again while its task can be read, whatever comes between, until another failure is recorded; a run that reaches the check exits with 1 as no progress |
| FixRepeats.OtherFailureClears | src/safecode/cli_fix.py:588-592 | after a record of another failure only the budget stands before the next proposal |
| FixRepeats.CountIsCardinality | src/safecode/task/wiring.py:168-170 | the budget counts the fix entries that proposed a patch, applied since or not, each once |
| FixRepeats.LimitIsUsedUp | src/safecode/cli_fix.py:663-696 | runs on failures that never come twice in a row are given exactly as many patches as the limit allows |
| DiffHunks.ParseFileHunks | src/safecode/cli_diff_render.py:24-49 | the parser loop computes the specified sections |
| DiffHunks.SplitConcat | src/safecode/cli_diff_render.py:30 | splitting into lines distributes over concatenation at a line end that is not cut in two |
| DiffHunks.SplitAtBreak | src/safecode/cli_diff_render.py:30 | lines end at each of the ten line ends and nowhere else, with a carriage return and the newline behind it as one |
| DiffHunks.SectionsHoldPlainLines | src/safecode/cli_diff_render.py:24-49 | of any text at all: every section has a name, and no line of its body starts like a header |
| DiffHunks.ParseOfRender | src/safecode/cli_diff_render.py:24-49 | parsing a printed diff gives exactly the sections whose name does not vanish, under the name that is left |
| DiffHunks.RoundTripIff | src/safecode/cli_diff_render.py:24-49 | the sections come back exactly when every name is non-empty, starts with neither `b` nor `/` and does not end in whitespace |
| DiffHunks.ParseOfGitRender | src/safecode/cli_diff_render.py:39-45 | the lines git prints before a section end the one before it and are themselves dropped: the same sections come back |
| DiffHunks.BuildLosesItsFirstLetter | src/safecode/cli_diff_render.py:34 | counterexample: `build.py` is shown as `uild.py` |
| DiffHunks.CountsAreExactIff | src/safecode/cli_diff_render.py:52-55 | the two counts never exceed the true ones and are exact exactly when no added text starts with two pluses and no removed text with two minuses |
| TomlValue.EscapedUnfolds | src/safecode/cli_model.py:44 | the two replacement passes escape each character on its own |
| TomlValue.CharsBack | src/safecode/cli_model.py:44-45 | a printed string is read back to its closing quote, or rejected at its first control character |
| TomlValue.ValueBack | src/safecode/cli_model.py:35-45 | reading after printing, with a separator, the end of an array or nothing behind: the value itself, with a missing one as an empty string, or an error |
| TomlValue.IntegerBack | src/safecode/cli_model.py:38-39 | a printed integer of any size is read back |
| TomlValue.DecimalIsPlain | src/safecode/cli_model.py:38-39 | only a negative number has a sign, and only zero starts with a zero |
| TomlValue.RoundTripIff | src/safecode/cli_model.py:35-45 | printing and reading is the identity exactly on values without disallowed control characters and without missing ones |
| TomlValue.PrintIsInjective | src/safecode/cli_model.py:35-45 | two readable values print alike only if they differ at most in missing against empty |

## Left out

- TOML and JSON parsing of settings, sessions and task logs: the parsed values are inputs, one record per line.
- Hook lists, model retry settings and fallback provider settings are carried along unmodified.
- Path resolution, symbolic links and the audit record of a trust lookup: a root matches a path by its resolved components.
- The Python tokeniser: a line is a list of words, triple-quote marks and opaque pieces; which chunks are rejected for their layout is an arbitrary predicate of their shape. The two kinds of triple quote are one.
- Rename.SplicedKeepsUntouched: `untokenize` is taken to return unchanged tokens with the spacing they had; in fact a tab between tokens becomes a blank and blanks before a backslash continuation go.
- Choosing the files to search (symbol index, import graph, walk of the project), and references found by jedi, which need not be whole lines of a textual match.
- SourceText.ReplaceSymbolInSource: works on lines of pieces instead of characters, so a name that is only part of an identifier is not represented.
- PatchApplier.ApplyUpdates: matches whole lines, so a search text found starting inside a line is not considered; checks of paths, file modes and checkpoints around the write are absent.
- The wording of summaries, their length limits and secret redaction: a summary is the block it stands for, or the model's text.
- Partial writes of the conversation file: a write happens completely or not at all.
- Conversation calls inside the native step, context compaction, subagent findings, cost, journal and audit records.
- Effects of the tools themselves, of MCP servers, subagents and formatters: only that they were dispatched and what they answered.
- Errors raised by the store while the loop saves a session, and clarification that fails after it has started a session.
- An interruption during validation or between the steps of a run has no exit of its own: its state is that of the steps before it followed by an outside change.
- Wall-clock time: whether the time budget is used up is an arbitrary input of each iteration.
- AgentCalls.EveryReachableState: a stored session, and one written from outside, has its position within its plan.
- AgentEffects.FirstBatchCommandsWait: says nothing about commands in later batches of a turn, because the code does not check them.
- The inside of plain `fix`: only the log entry it leaves.
- FixWatch.NoProposalRepeatsAFailure: hashes are compared as values; collisions of the hash function are not considered.
- DiffHunks.RoundTripIff: for diffs without a `\ No newline` marker; the parser itself handles both as written.
- TomlValue.RoundTripIff: floats and tables are not represented; the reader follows TOML 1.0 and is only claimed to be right on printed text.
- Rich rendering, prompts, command-line plumbing, doctor checks and network access.
