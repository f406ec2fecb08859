# jsh: from a command line to the kernel

A model of `jsh`, a small job-control shell, in the three parts a command line passes through, with
proofs that they do together what the shell promises.

1. **The parser** (`src/command.c`, `src/string_utils.c`). `Splitting` and `StringUtils` are the
   tokenizer. `Syntax` is the grammar as a tree with its printer. `Commands` says what flattening a
   tree gives: pipes, calls, and the array of slots. `Parser` is the parser as it works: it joins and
   re-splits token slices in every nested call, sets consumed tokens to NULL, opens files, allocates
   pipes, and finds "the last stage" through two globals. `Verdict` and `Acceptance` say which lines are
   accepted, `Redirections` what a redirection does from the characters it is written with, `Residue`
   what a line leaves in one of the globals. `Listing`, `Slots`, `PipeTree`, `Wiring`, `Plugging`,
   `Channels` and `CommandTree` say what the result looks like, and `Ledger`, `Salvage` and
   `Conservation` who owns which descriptor. `Scanning` relates the token array to the tree, step by
   step.
2. **The launcher** (`src/internals.c`). `Handshake` is the agreement on the process group as
   interleaved steps of parent and child; `Rendezvous` proves that every interleaving ends where the
   launcher's specification says. `Launches` and `Shells` are specification and code, `LaunchSoundness`
   and `EndOfFile` what holds of the processes: their group and the descriptors they hold. `Programs`
   follows a line to what its processes execute.
3. **Jobs** (`src/jobs.c`, `src/exit.c`). `Statuses`, `Kernels` and `Waiting` are statuses, the kernel's
   side of waiting, and the rounds over a job. `Jobs` and `JobTables` are the loops of the source.
   `Tracking`, `Soundness` and `Runs` prove that the shell's records and the kernel agree in every run,
   and `Groups` that watched processes are in their job's group. `Polling` says which answers of the
   kernel a round asks for and what it makes of them, `Endings` and `Continuing` what that means for
   launched jobs and for `fg`, `bg` and `jobs`, `Quitting` with which code the shell leaves.
   `ExitCodes` follows the code of a pipeline from its last stage to `last_exit_code`, and `Detaching`
   says which launched jobs end up detached.

`Lines`, `PlainLines`, `ReadLine`, `TypedLines`, `LastSegment`, `ClosedOnce`, `Leaving` and `Prompt` put
the parts together: lines of several commands, one turn of the prompt's loop, and whole sessions.
`Examples` has the concrete lines named below.

Each part has two layers: functions on values (`RunPipeline`, `Decide`, `LaunchAll`, `Execute`,
`Sweep`, `ExecuteLine`), about which the theorems are proved, and classes whose methods follow the C
code and are proved equal to those functions.

## What was found

- **A failed substitution can spoil a later line.** `parse_command` resets only one of its two globals.
  `Residue.LeftSet` says for all tokens whether the other one is set after the parse, and
  `Verdict.AcceptsExactlyDerivable` which lines are then refused although nothing is wrong with them:
  pipelines of three or more stages without a substitution of their own. So `a <( b > f )` spoils
  `a | b | c` (`Examples.RefusalSpoilsTheNextLine`).
- **Earlier commands keep the pipes of later ones open.** All commands of a line are parsed before
  the first is executed, so every process of an earlier command inherits both ends of the pipes of every
  later one and never closes them. In `sleep 9 & cat <( ls )` the reader sees no end of file before
  `sleep` has ended (`Examples.SleepHoldsThePipeOfCat`). `Lines.LaterPipesAreInherited` says exactly which
  process holds which pipe; within one command the discipline is right (`EndOfFile`).
- **A refused line leaks.** When a segment that is not the last is refused, the commands parsed before it
  are freed without closing their descriptors, as in `a > f & ) & b`
  (`Examples.RefusedLineKeepsItsFile`). It happens exactly if one of the accepted segments has a pipe, a
  substitution or a redirection (`Lines.RefusedLineLeaks`).
- **The guard of `exit` sees neither its own job nor the rest of its line.** `sleep 9 | exit &` decides to
  leave and then puts the pipeline into the table, and `exit & sleep 9 &` decides to leave and then
  executes the second command (`Examples.PipedExitLeavesItsJob`, `Examples.ExitThenLeavesAJob`).
  `Leaving.TableWhenLeaving` says for all lines when the shell leaves with an empty table; a job that a
  later command of the line has started can only be taken out again by a later `exit`, `jobs` or `fg`.
- **A child that dies during the handshake can end the shell.** `SIGPIPE` is not among the ignored
  signals, so the shell is ended by its own write if and only if the child is killed before that write
  and the shell was not started with the signal ignored. It gives up on the launch, as the error branches
  mean it to, in the other runs in which the child is killed before it has answered, and in no more
  (`Handshake.HowALaunchEnds`, with `Handshake.DeadChildBreaksTheShell` as the run that shows it).
- **A launch that is given up keeps a descriptor and loses children.** The read end of the second pipe
  stays open, and nobody waits any more for the processes started so far. For a launch, a line and a
  session this happens if and only if some process dies before it has answered
  (`Runs.LaunchStartsExactly`, `Lines.LineConserves`, `ReadLine.TurnKeeps`, `Prompt.WhatASessionLoses`); a
  plain `ls` is enough (`Examples.DeadProcessKeepsADescriptor`).
- **A job of internal commands only counts as detached.** Its group is 0, and `kill(-0, 0)` asks about the
  shell's own group (`Jobs.DetachedWithoutProcesses`). The shell gets into this state exactly by
  launching internal commands alone (`Detaching.DetachedExactly`), as in `pwd | pwd`
  (`Examples.InternalLineDetaches`).
- **A line is executed although its last segment is refused.** `project.md:281-282` says that a line with
  a failed redirection is not executed and that its code is 1. If the last of several segments is
  refused, the others are executed and the code is theirs; the refusal leaves a trace only where the first
  command has a plain `exit` (`LastSegment.OnlyTheLastRefused`, `Examples.FailedRedirectionGivesZero`).
- **The code of a killed last stage is 0**, because the exit status is read from the status word without
  looking how the process ended (`Statuses.DecodingRecovers`, `ExitCodes.ForegroundCode`).

Where documentation and code differ, the code is modelled, as in the last but one point; and
`src/jobs.h:54-62` speaks of the status of the first subjob, which is slot 0 and so the last stage.

## Conventions

- Descriptors 0, 1 and 2 are open always. An oracle decides which `open` succeeds and which free number
  is handed out; allocation, `pipe` and `fork` succeed. Which descriptors are open is a set of numbers.
  Every open is recorded with the name of the file and the mode.
- A pointer to a call is its index in the order the calls are built (`store`); the C array
  `command_calls` is the sequence of those indices. An argument `/dev/fd/N` is a tagged word.
- Where C leaves the order open or reads freed memory, the evident order is taken: `iterator->index` is
  read before the call at `src/string_utils.c:128` and `src/string_utils.c:154`, and the three
  descriptors are read before the call is destroyed at `src/command.c:527-529`.
- The first token of a call is looked at before the loop over the others, the branches of that loop are
  methods of their own, and so are shared loop bodies of the job code.
- A world decides what the kernel answers: pids, reports of `waitpid`, whether descendants keep a group
  alive, whether a child survives its launch. Each process has a serial number besides its pid, because
  pids are used again. A status word is packed as the usual macros unpack it.
- A process is known by its group, what it has open, its arguments and what its three streams are
  copies of. `tcsetpgrp` and the `kill` behind it in `fg` are one question, whether the group exists;
  group 0, which names no group there, is always refused.
- `exit`, `fg`, `bg` and the sweep of `jobs` act on the session; `cd`, `pwd` and `kill` return 0 or 1 as
  an oracle says, which also reads numbers.

## Model

| member | source | states |
|---|---|---|
| Splitting.WordsAreClean | src/string_utils.c:57-84 | No word of a split string is empty or contains the separator, for every separator that is not empty |
| Splitting.WordsAndGapsRebuild | src/string_utils.c:35-84 | The string is its words with their gaps between them: separators repeated, then a word, and so on to the last gap |
| Splitting.InnerGapsArePositive | src/string_utils.c:35-84 | Between two words there is at least one separator |
| Splitting.FollowedCountIsExact | src/string_utils.c:136-161 | Word i has the delimiter right behind it exactly if i is below the count of followed words |
| Splitting.SplitOfJoin | src/string_utils.c:111-191 | Splitting the join of non-empty, space-free tokens gives back the same tokens, so nested parses see the original slice |
| Splitting.SpaceWordsAreTokens | src/string_utils.c:111-134 | What splitting at spaces yields are such tokens |
| StringUtils.StringIterator.SkipSeparators | src/string_utils.c:35-39 | The loop of trim_start leaves the string as after dropping every leading separator |
| StringUtils.StringIterator.HasNextWord | src/string_utils.c:47-50 | True exactly if a word is left |
| StringUtils.StringIterator.NextWord | src/string_utils.c:57-84 | Returns the first of the remaining words, leaves the others, and counts one more |
| StringUtils.StringIterator.GetNumberOfWordsLeft | src/string_utils.c:87-108 | The one-pass count is the number of words the loop will yield, also for separators of several characters |
| StringUtils.SplitString | src/string_utils.c:111-134 | The array is filled exactly, with the words in order; NULL exactly if there are none |
| StringUtils.SplitStringKeepTrace | src/string_utils.c:136-161 | Also reports the index of the last word that has a delimiter right behind it |
| StringUtils.JoinStrings | src/string_utils.c:166-191 | The tokens with the separator between them |
| StringUtils.IsOnlyComposedOf | src/string_utils.c:326-335 | True exactly if splitting by the pattern yields no word |
| StringUtils.TrimSpaces | src/string_utils.c:230-288 | The part without leading and trailing spaces; the backward scan would leave the buffer exactly on a non-empty string of spaces |
| StringUtils.TrimmedIsUnique | src/string_utils.c:230-288 | There is only one such part |
| StringUtils.SplittableIsTrimmable | src/command.c:594-606 | A string has a word exactly if it is not all spaces, so the parser trims only where trimming is defined |
| Utils.AddSet | src/utils.c:28-40 | The array afterwards and the returned status: the first empty place takes a value not met before it |
| Utils.Contains | src/utils.c:52-59 | True exactly if the value is in the list |
| Utils.Distinct3Members | src/internals.c:357-386 | Three additions to an empty set keep each of three descriptors above 2 once, and no other above 2 |
| Utils.DistinctMembers | src/utils.c:121-139 | The same for the values of an array of any length |
| Syntax.ParseIsSound | src/command.c:687-867 | A tree that the grammar finds for tokens is well formed and prints as exactly those tokens |
| Syntax.ParseIsComplete | src/command.c:687-867 | The printed tokens of every well-formed tree are parsed back to that tree |
| Syntax.ParseIsExact | src/command.c:687-867 | Tokens parse to a tree if and only if the tree is well formed and prints as them: the round trip both ways |
| Syntax.ClosingFindsBody | src/command.c:474-492 | Of balanced tokens followed by a closing symbol and anything at all, that closing symbol is the one chosen |
| Parser.Parser.ParseRedirections | src/command.c:377-458 | Succeeds exactly if the symbol is one of the seven and the open is granted; then descriptor 0, 1 or 2 of the stage, as the first character <, > or 2 says, is the opened file and the other two are as before; the file named is opened in the mode of the symbol, and the stream it replaces is closed if that was redirected too |
| Redirections.PipelineOpens | src/command.c:377-458 | A parse asks for exactly the files of the line, from the left to the right, each to be read, created, cut off or appended to as the characters of its symbol say |
| Redirections.StageStreams | src/command.c:377-458 | In a stage the last redirection by a symbol that begins with <, > or 2 decides where its input, output and errors lead, to the descriptor returned for that file; in front of a pipe symbol its output leads into the pipe |
| Redirections.AcceptedByCharacters | src/command.c:687-803 | Which lines are accepted, with the placement rules in terms of the first character of each symbol |
| Redirections.EachOperator | src/command.c:377-458 | Each of the seven symbols behind a name and before a file is taken as a redirection: accepted exactly if the file can be opened, which is then the stream of its first character, opened in its mode |
| Parser.Parser.LinkPipelines | src/command.c:564-587 | Allocates a pipe and makes the builder its writer and the next stage its reader, by index and by descriptor |
| Parser.Parser.FindClosing | src/command.c:474-492 | The scan over the token array finds the closing symbol of the grammar, or none |
| Parser.Parser.StrikeOut | src/command.c:538-543 | Sets a range of the token array to NULL and leaves the rest |
| Parser.Parser.ParseCommandSubstitution | src/command.c:469-562 | Parses the enclosed tokens with a nested call, gives their last stage the write end of the pipe allocated before, and replaces them by the path of its read end; or fails, leaving only what cleaning up can close, and the substitution global set exactly as the tokens between the two symbols tell |
| Parser.Parser.FilterArguments | src/command.c:806-828 | The arguments that have not been set to NULL, in order |
| Parser.Parser.ParseCommandCall | src/command.c:687-867 | The recursive, token-mutating parser decides exactly as the tree semantics does, in every context: same command so far, same call returned, and the two globals name the last stages they are said to name; after a failure everything opened can still be closed |
| Parser.Parser.ParseCommand | src/command.c:594-649 | The whole parse refines the tree semantics: accepted exactly if that accepts, with the same pipes and calls, and with the slots that Listing.SlotsInOrder determines; a refused line leaves the set of open descriptors as it was; and whatever the outcome, the substitution global is set afterwards exactly if a function of the tokens and of the granted opens says so |
| Verdict.AcceptsExactlyDerivable | src/command.c:594-867 | Accepted if and only if the tokens derive from a tree that obeys the placement rules, every open is granted, and, where the substitution global was left set by an earlier line, the tree has a substitution or at most two stages; and the result is what flattening that tree gives |
| Verdict.SpoiledExactly | src/command.c:790-803 | A substitution global that is still set refuses exactly the pipelines with a middle stage and no substitution of their own |
| Verdict.StillSetUnlessReset | src/command.c:469-472 | After a pipeline that global is still set if and only if it was set before and no substitution has reset it |
| Verdict.NeverSetAgain | src/command.c:790-856 | From an unset global, an accepted parse leaves it unset |
| Verdict.ThreeStagesCanBeSpoiled | src/command.c:790-803 | A pipeline of three plain words is accepted with the global unset and refused with it set |
| Residue.AcceptedLeaves | src/command.c:469-562 | An accepted line leaves the substitution global set exactly if it was set before and no substitution has reset it |
| Residue.SetByRefusedSubstitution | src/command.c:521-531 | A line whose substitution redirects the output of its last stage leaves the global set exactly if the open is granted |
| Examples.RefusalSpoilsTheNextLine | src/command.c:521-531 | The counterexample: in any session of the two lines a <( b > f ) and then three plain stages, the second is refused, although it is accepted with the global unset |
| Acceptance.PipelineAcceptance | src/command.c:687-803 | Flattening a tree succeeds exactly if the placement rules hold and every open is granted; says how many files were opened, and whether the last stage redirects its output |
| Listing.PipelineListing | src/command.c:740-772 | Each call of a parsed pipeline is listed once, except the first stage and the last stage of the main pipeline |
| Listing.FinalOrderIsComplete | src/command.c:610-634 | The finished command lists every call once, loses none, has the last stage in slot 0 and the others behind it in the order in which they were built |
| Listing.SlotsInOrder | src/command.c:610-634 | So each slot is determined: slot c behind the first has call c - 1, or call c from the number of the last stage on |
| Slots.SlotIsStage | src/command.c:610-634 | And the call in each slot has the arguments of its stage |
| PlainLines.PlainIsAccepted | src/command.c:610-634 | A pipeline of plain words is accepted, unless the substitution global is set and it has more than two stages, and its stages stand in the slots from the right to the left |
| Wiring.PipelineWiring | src/command.c:460-587 | The pipes each call reads and writes are exactly, and in this order, those the tree gives it |
| Plugging.PipelineArgs | src/command.c:806-838 | The arguments of every call: its words in source order, redirections removed, each substitution replaced by the path of its own pipe |
| Channels.PipelineStreams | src/command.c:355-587 | The three streams of every call: the shell's own, or the file that the last redirection of that stream opened, or the pipe that goes before it |
| Plugging.PipelinePlugs | src/command.c:533-587 | The writer of a pipe has its write end as standard output; its reader has the read end as standard input or among its arguments |
| PipeTree.WritesOnce | src/command.c:460-587 | In the flow computed from a tree, every call but its last stage writes one pipe, and that one none |
| PipeTree.FlowDescends | src/command.c:460-587 | In that flow the writer of a pipe is one step further from the last stage than its reader |
| CommandTree.CommandIsPipeTree | src/command.c:594-634 | Every accepted command: one call more than pipes, each pipe with exactly one reader and one writer, slot 0 writing none and every other call one, and ranks that are 0 at slot 0 and fall by one from writer to reader |
| CommandTree.EveryCallLeadsToFirst | src/command.c:594-634 | In such a command, following writer to reader from a call leads to slot 0 after n pipes if and only if n is its rank |
| Ledger.PipelineLedger | src/command.c:377-587 | Parsing adds both ends of each pipe and one descriptor for each finally redirected stream and nothing else, none of them open before, and no two calls share one |
| Salvage.CleaningRestores | src/command.c:610-648 | Whatever a failed parse has left, listing the one call only the global still names and cleaning up gives back the set of open descriptors |
| Files.FileTable.CloseUnusedFromArray | src/utils.c:121-148 | Closes each descriptor above 2 of an array of any length, once |
| Closing.Contains2 | src/utils.c:61-71 | True exactly if the value is an end of a pipe |
| Closing.CloseUnusedFileDescriptorsHelper | src/internals.c:357-386 | Closes the redirected streams of one call that are not pipe ends, in order and each once |
| Closing.CloseUnusedFileDescriptors | src/internals.c:388-396 | Does so for every listed call |
| Closing.ClosePipes | src/internals.c:287-293 | Closes both ends of every pipe, in order |
| Conservation.ParsingIsBalanced | src/command.c:594-634 | The descriptors of an accepted line are accounted for: pipes and streams of listed calls |
| Conservation.HoldsNothingExactly | src/command.c:377-587 | An accepted line holds no descriptor if and only if none of its tokens is a pipe, substitution or redirection symbol |
| ClosedOnce.EachIsClosedOnce | src/internals.c:280-396 | In the record of closes of launching a command and closing behind it, those of the handshakes included, each descriptor that parsing added occurs exactly once, and no other that was open occurs |
| Handshake.RunsAreSound | src/internals.c:136-233 | The invariant of the two-pipe handshake holds in every state of every interleaving, the child being killed at any time included |
| Handshake.NoExecutionOutsideTheGroup | src/internals.c:159-199 | No child executes its program before it is in its job's group, and setpgid always finds the group |
| Handshake.ReturnsOnlyAfterJoining | src/internals.c:222-233 | The shell returns from launching only after the child has joined |
| Handshake.NeverStuck | src/internals.c:136-233 | In no reachable state are both blocked |
| Handshake.RunsAreShort | src/internals.c:136-233 | No run makes more than sixteen steps, so both reads return even if the child dies |
| Handshake.EndOfLaunch | src/internals.c:136-233 | What each has open at the end; a shell that gives up keeps an end of a pipe open |
| Handshake.HowALaunchEnds | src/internals.c:136-233 | For every finished run: the shell returns if and only if the child is not killed before it has answered; it is ended by SIGPIPE if and only if the child is killed before the shell sends the group and the signal is not ignored; and it gives up if and only if the child is killed before it has answered and that is not the case |
| Handshake.BrokenByLateSend | src/internals.c:208-214 | In every run, finished or not, the shell has been ended by SIGPIPE exactly if the signal is not ignored and a kill came before its write |
| Handshake.DeadChildBreaksTheShell | src/internals.c:208-214 | The counterexample: a run in which the child dies early and the shell is ended by SIGPIPE, which it does not ignore |
| Rendezvous.EveryRunEndsAsLaunched | src/internals.c:130-234 | Every finished interleaving without a killed child ends in the group, tables and process that the launcher's specification records |
| Rendezvous.EveryFailureEndsAsRecorded | src/internals.c:208-228 | Every interleaving in which the shell gives up ends as the specification of a failed launch records, with one more descriptor open only if SIGPIPE is ignored |
| Shells.CloseReadingPipes | src/internals.c:97-111 | Closes the read end of every pipe the call does not read |
| Shells.CloseWritingPipes | src/internals.c:113-128 | Closes the write end of every pipe the call does not write |
| Shells.Shell.ExecuteSingleCommand | src/internals.c:130-234 | Launches one call: session, descriptor table, group, closed descriptors and information returned are those of the specification |
| Shells.Shell.StartProcess | src/internals.c:136-233 | The same for an external call, through the handshake |
| Shells.Shell.ExecuteAsJob | src/internals.c:242-270 | Launches slot by slot up to a failure, and keeps what became of slot 0 |
| Shells.Shell.ExecuteExternalCommand | src/internals.c:280-348 | Launch, closing of the pipes, and then waiting or watching, as specified; Conclude demands that no end of the pipes is open any more |
| Shells.Shell.Conclude | src/internals.c:300-347 | In the foreground waits, and takes the code of slot 0 if the job has finished; a stopped or background job goes into the table |
| Shells.Shell.ExecuteCommand | src/internals.c:56-70 | Internal call or job, then the closing of redirected streams, then the last exit code |
| Shells.Shell.ExecuteInternalCommand | src/internals.c:73-95 | Session and code are those the internal command is specified to give |
| Shells.Shell.ExitCommand | src/exit.c:6-50 | Changes session and code as specified, of which Quitting.ExitAlone and Quitting.TypedExit say what it is |
| Quitting.ExitAlone | src/exit.c:6-50 | Too many arguments, a job that is left, or an argument that is no number from 0 to 255 give code 1 and no decision to leave; otherwise the shell is to leave, with the code of the argument or, without one, that of the command before |
| Quitting.TypedExit | src/exit.c:6-50 | The same for a typed line with any arguments: it decides to leave if and only if it has at most one, which is a code, and no job is left, and then with that code, without an argument with the one the session had |
| Shells.Shell.FgCommand | src/fg.c:4-21 | Refuses without exactly one good job word, and otherwise continues that job in the foreground |
| Continuing.FgAnswers | src/fg.c:4-21 | fg returns 0 if and only if its one argument names a job that has a group with some process in it; that job is then out of the table exactly if finished; otherwise fg returns 1 and changes neither table nor children |
| Shells.Shell.BgCommand | src/bg.c:4-21 | The same for continuing in the background |
| Continuing.BgAnswers | src/bg.c:4-21 | bg returns 0 if and only if its one argument names a job in whose group some process is left, otherwise 1, and waits for nobody |
| Continuing.JobsAnswers | src/jobs.c:506-560 | jobs leaves what a refresh leaves, without jobs that have ended, and returns 1 exactly for too many arguments or a word with a percent sign that names no job |
| LaunchSoundness.ProcessUnderway | src/internals.c:130-270 | Starting a process keeps the launch invariant: group, unreaped, and open descriptors less the foreign pipe ends, for every process started so far |
| LaunchSoundness.BuiltinUnderway | src/internals.c:130-134 | So does running an internal command in the middle of a launch, though it may reap other jobs |
| LaunchSoundness.LeaderIsThere | src/internals.c:204-206 | While a job is launched its group is that of an unreaped child, so later processes find it |
| LaunchSoundness.ForkKeepsCoupled | src/jobs.c:31-50 | A new child matches its new record, and no old record even if its pid had been used before |
| Runs.EveryLaunchEnds | src/internals.c:242-270 | Every launch ends with all processes in place, the table as before and no child lost, or with the job dropped, one descriptor left open and children lost that nobody will wait for |
| Runs.LaunchStartsExactly | src/internals.c:208-270 | A launch succeeds if and only if each of the next children, as many as there are external calls, lives to answer the shell |
| Runs.OneGroupLedByFirst | src/internals.c:204-206 | All external processes of a job are in one group, named after the first of them |
| EndOfFile.HoldsWhatItUses | src/internals.c:97-128 | A process of the job holds the write end of a pipe exactly if its call writes it, and the read end exactly if its call reads it |
| EndOfFile.OnlyItsWriterHolds | src/internals.c:182-183 | So each end is held by one process of the job at most, the only reader or writer, and by none if that call is internal |
| EndOfFile.WaitingIsWellFounded | src/internals.c:97-128 | A chain of processes each waiting for the next to close a pipe never closes a circle and is no longer than the tree is high |
| Programs.ProcessExecutesItsStage | src/internals.c:159-199 | From the tree to the processes: in every launch the process of a slot executes its stage, with the arguments as written and each of the three streams leading where the tree says |
| Lines.AcceptedPipesEnd | src/internals.c:280-293 | From an accepted segment to its launched job: which process holds each end of each pipe, and that the table the shell is left with has neither |
| Statuses.DecodingRecovers | src/jobs.c:330-342 | The status macros recover what the kernel packed into a status word; the exit status of a killed process reads 0 |
| Statuses.FallbackIsForOtherWords | src/jobs.c:330-342 | The last branch is reached exactly for words that end in 255 and are not 0xffff, which no kernel reports |
| Jobs.IsJobAlive | src/jobs.c:180-193 | True exactly if some subjob is Running or Stopped; false for NULL |
| Jobs.IsJobFinished | src/jobs.c:210-225 | True exactly if no subjob is, or for NULL |
| Jobs.IsJobKilled | src/jobs.c:231-251 | True exactly if finished and some subjob was killed |
| Jobs.IsJobSuspended | src/jobs.c:257-278 | True exactly if not finished and no subjob is Running |
| Jobs.IsJobRunning | src/jobs.c:284-299 | True exactly if some subjob is Running |
| Jobs.ExactlyOneStatus | src/jobs.c:180-299 | Exactly one of running, suspended and finished holds, NULL entries included, and alive is the negation of finished |
| Jobs.UpdateJobStatus | src/jobs.c:304-328 | The status is that of the written definitions, given whether the group exists; the fallback branch is never taken |
| Jobs.DetachedWithoutProcesses | project.md:45-60 | With existence meaning the job's own group, the status meets the definitions if and only if the job is not a finished one without processes |
| Detaching.DetachedExactly | src/internals.c:300-330 | After the wait for a launched foreground job the status is that of the definitions if and only if some call runs in a process of its own; otherwise it is Detached in every world |
| Detaching.InternalJobsDetach | src/internals.c:280-330 | Internal commands alone always launch, and give a job without group and processes that is Detached after the wait |
| Examples.InternalLineDetaches | src/jobs.c:304-328 | The counterexample: pwd piped into pwd |
| Jobs.ProcessWaitpidResponse | src/jobs.c:351-363 | Fails exactly on -1; 0 leaves the status, anything else decodes it |
| Jobs.WaitForJob | src/jobs.c:372-398 | Looks at unfinished subjobs in order up to a failed waitpid, then updates the status; Polling.SweepingDoesNotWait says that it never waits |
| Jobs.BlockingWaitForJob | src/jobs.c:400-434 | The same, waiting; returns what slot 0 gave |
| Polling.SweepingDoesNotWait | src/jobs.c:372-398 | wait_for_job and the sweep do not depend on what the kernel would report to somebody who waits |
| Polling.RefreshingDoesNotWait | src/jobs.c:447-468 | Neither does the refresh before a prompt |
| Polling.BlockingDoesNotPoll | src/jobs.c:400-434 | The blocking wait does not depend on what the kernel would report to a poll |
| Polling.RoundReports | src/jobs.c:351-434 | A round takes exactly one answer for each unfinished subjob, in order, and makes of it what it says: Done, Killed, Stopped, Running, or no change |
| Polling.SweepReports | src/jobs.c:447-468 | The same for each job of the table in a sweep; the job leaves the table if and only if by then all its subjobs have ended |
| Polling.QuietRefresh | src/jobs.c:447-468 | A refresh during which no child has anything to report takes no living job out of the table and changes no subjob |
| Endings.ForegroundStatus | src/jobs.c:304-328 | The status after the wait, from the answers: Stopped exactly if some process was reported stopped, else Detached while a process is left in the group, else Killed exactly if one was reported killed, else Done |
| Endings.JobAnswers | src/internals.c:280-348 | A failed launch has code 1 and leaves no job; a background job has code 0 and goes into the table as launched, without a wait; a foreground job goes there with code 0 if some process was stopped, and else is forgotten with the code of slot 0 |
| JobTables.AddingAlwaysFits | src/jobs.c:135-160 | After growing there is a free slot, and the table grows only when it is full; the least free slot is taken, every other job keeps its slot and id, and the count goes up by one |
| JobTables.JobTable.AddJob | src/jobs.c:135-160 | Puts the job into the least free slot under the next number, growing by 64 if full; -1 exactly for NULL |
| JobTables.JobTable.RemoveJob | src/jobs.c:162-178 | Empties the slot of an existing id and fails for any other; the table stays consistent |
| JobTables.JobTable.AreJobsRunning | src/jobs.c:436-445 | True exactly if some job of the table is alive |
| JobTables.JobTable.FdUpdateJobs | src/jobs.c:447-468 | Removing while it iterates, the sweep does to table and kernel what sweeping slot after slot is specified to do |
| JobTables.JobTable.PutJobInForeground | src/jobs.c:563-606 | Continues and waits for one job, and removes it if it has finished |
| Continuing.FgSucceedsExactly | src/jobs.c:563-606 | It succeeds if and only if the job has a group and some process is left in it; otherwise every job and every child stays as it is |
| Groups.EveryRunIsGrouped | src/internals.c:204-206 | In every session that can be reached, each watched process that has not ended is in the group of its own job |
| Groups.LivingJobsContinue | src/jobs.c:563-620 | So fg and bg return 0 for every job with a subjob that has not ended |
| Prompt.EveryLivingJobContinues | src/prompt.c:77-118 | The same after any lines typed at the prompt |
| JobTables.JobTable.GetJob | src/jobs.c:622-655 | A job exactly for a word with a percent sign whose number names an occupied slot |
| Tracking.LookKeepsCoupled | src/jobs.c:351-398 | One waitpid never fails and keeps every watched record equal to the truth: Running or Stopped exactly while unreaped; finished records never change |
| Tracking.WaitKeepsCoupled | src/jobs.c:372-434 | So does a round over a job, blocking or not |
| Tracking.SweepKeepsCoupled | src/jobs.c:447-468 | So does a sweep, which drops only records of reaped children |
| Tracking.AfterBlockingWait | src/jobs.c:400-434 | After a blocking wait no subjob is Running, and the job is finished or Stopped |
| Tracking.SweepLeavesTheLiving | src/jobs.c:447-468 | Whatever the kernel answers, failures of waitpid included, a sweep leaves only jobs with a living subjob, under their ids |
| Tracking.AliveUnlessEmpty | src/jobs.c:436-468 | So afterwards some job is alive if and only if the table is not empty |
| Soundness.ExitKeeps | src/exit.c:6-50 | exit decides to leave only with an empty table, and returns one byte |
| Soundness.BuiltinKeeps | src/internals.c:73-95 | Every internal command keeps the session right, also while a job is being launched, and returns one byte |
| Runs.EveryCommandKeeps | src/internals.c:56-70 | Every command keeps the session right; the table afterwards has what was left when its calls were started and one job more exactly if the command is no internal one by itself, all its processes have started, and it runs in the background or is not finished when the wait is over; only with an empty table does it decide to leave; children are only ever lost, and none is if and only if all its processes have started |
| Runs.EveryRunIsSound | src/internals.c:50-70 | So every session that any sequence of refreshes, refused lines and commands can reach is right about all its children, and has lost none if and only if no process has died while it was being launched |
| Runs.InEveryRun | src/jobs.c:351-468 | In every run: no refused waitpid, no child reaped twice, status exactly while unreaped, last exit code a byte, slot i with id i + 1 and a capacity of a positive multiple of 64 |
| Runs.ForegroundEnds | src/internals.c:300-330 | A foreground job ends finished and untracked, or Stopped and in the table under its id |
| Runs.FgEnds | src/jobs.c:563-606 | So does a job that fg has brought back: out of the table exactly if finished; every other job stays where it is |
| Leaving.TableOfALeavingLine | src/exit.c:17-37 | At the end of a line in which a command has decided to leave, the table is empty if and only if it was empty when the calls of some command from that one on had been started and no command from there on has left a job |
| Leaving.TableOfAnUnattendedLine | src/prompt.c:97-112 | If no later command calls exit, jobs or fg: if and only if no command from the deciding one on has left a job |
| Leaving.TableWhenLeaving | src/prompt.c:77-118 | The same for a typed line, over a whole turn of the loop |
| Examples.PipedExitLeavesItsJob | src/exit.c:17-37 | The first counterexample: sleep 9 piped into exit, in the background, decides to leave and leaves its own job in the table |
| Examples.ExitThenLeavesAJob | src/prompt.c:97-112 | The second: exit followed by sleep 9 in the background; the rest of the line is still executed |
| Slots.SlotZeroIsLastStage | src/command.c:610-634 | Slot 0 has the arguments of the last stage of the main pipeline as it is written |
| ExitCodes.ForegroundCode | src/internals.c:300-330 | The code of a finished foreground job is slot 0's own: what the internal command returned, or the exit status of the process, 0 if killed |
| ExitCodes.ExitCodeOfPipeline | src/internals.c:56-70 | From the tree to last_exit_code: the code of a pipeline that finishes is that of its last stage |
| ReadLine.Reader.ParseReadLine | src/command.c:869-948 | Commands in segment order, each that of its segment, in the background exactly if followed by the delimiter; a refused segment refuses the line unless it is the last of several; last_exit_code is 1 after any refused segment; the substitution global is as the refused segment, or else the last one, has left it |
| ReadLine.Reader.Turn | src/prompt.c:77-118 | One turn of the loop: refresh, parse, execute in order, as specified; and the substitution global afterwards |
| TypedLines.NothingTyped | src/command.c:869-885 | A line that begins with the delimiter or has nothing else does nothing but look at the jobs: code, table and substitution global stay |
| TypedLines.EachCommandEnds | src/prompt.c:97-112 | Each command of a line: an internal one by itself acts on the session and returns its own code; any other runs as a job, in the background if and only if the delimiter stands behind it |
| ReadLine.TurnKeeps | src/prompt.c:77-118 | Over a whole turn the session stays right and nothing that was open is closed; an executed line leaves the descriptor table as it was, and loses no child, if and only if all its processes live to answer the shell; a refused line loses none, and leaves the table as it was if and only if no segment accepted before has a pipe, substitution or redirection symbol |
| Lines.AcceptedIsLine | src/command.c:869-948 | Every command of a line has one call more than pipes |
| LastSegment.OnlyTheLastRefused | src/command.c:918-948 | If of several segments the last alone is refused, the others are executed and the last exit code is that of the last of them; unless the first of them has a plain exit, session and table are what these commands leave by themselves |
| Examples.FailedRedirectionGivesZero | project.md:281-282 | The counterexample: pwd in front of a > f; the open is refused, pwd is executed all the same, and the code is 0 |
| Lines.LineConserves | src/internals.c:208-396 | After each command of a line the table has the descriptors of the commands still to come and others left by failed launches, and there are such, and lost children, if and only if some process so far has died before it has answered |
| Examples.DeadProcessKeepsADescriptor | src/internals.c:208-228 | The counterexample: after a plain ls whose process dies early, a descriptor more is open and a child is lost |
| Lines.RefusedLineLeaks | src/command.c:918-924 | A refused line leaves the table as it was if and only if no accepted segment of it has a pipe, substitution or redirection symbol |
| Examples.RefusedLineKeepsItsFile | src/command.c:918-924 | The counterexample: a > f, then a segment that is refused, then another one; the file stays open |
| Lines.LaterPipesAreInherited | src/prompt.c:97-112 | In the execution of any line, a process of one command holds the ends of the pipes of another exactly if that one comes later |
| Examples.SleepHoldsThePipeOfCat | src/prompt.c:97-112 | The counterexample: in sleep 9 in the background and then cat <( ls ), the process of sleep holds both ends of the pipe of cat |
| Prompt.EverySessionIsSound | src/prompt.c:77-118 | After any lines typed at the prompt: no refused waitpid, no child reaped twice, status exactly while unreaped, last exit code a byte, table well formed |
| Prompt.WhatASessionLoses | src/prompt.c:77-118 | Over a whole session the table only grows and children are only lost: it is what it was if and only if every turn has left it so, all children are still waited for if and only if all processes of all executed lines have lived to answer, and the first implies the second |
| Prompt.OnlyRefusalsSpoil | src/prompt.c:77-118 | In a session without a refused segment the substitution global is never set at the prompt |
| Prompt.WhenASessionEnds | src/prompt.c:77-118 | When a session has come to its end, the table is empty exactly as said of its last line |

## Left out

- What `cd`, `pwd` and `kill` do besides returning 0 or 1, and what `jobs` and `?` print: thin wrappers over system calls, or display.
- Prompt text, readline, history, and the end of input that stands for `exit`: terminal input and output.
- `tcsetpgrp` other than in `fg`, and signal set-up: their error paths return without restoring the terminal.
- `src/proc.c` and the printing of jobs: display of `/proc` only.
- The stored command strings of calls and `remove_extra_pipes`: used for display only.
- `malloc`, `free` and their failures: objects have identity, memory is not modelled.
- Contents of files: `open` is an oracle, which does not know what earlier opens have created or cut off.
- How much a pipe can hold: an internal command writing to a full pipe is not modelled.
- A child that is stopped in the middle of the handshake: the shell waits until it is continued.
- Signals the shell sends: `kill(-pgid, SIGKILL)` after a failed launch only changes what the world reports later, and `SIGCONT` only whether the group exists.
- Rendezvous.EveryRunEndsAsLaunched: the launcher's code takes one interleaving, and this lemma speaks for all others; runs in which SIGPIPE ends the shell have no launcher state to compare with.
- Runs.EveryLaunchEnds: a process that dies before it has answered is recorded as a child in the job's group with nothing open, although it may have died before joining; the shell has forgotten it either way.
- Lines.LaterPipesAreInherited: speaks of descriptors by number, and so only of processes started between the parse of a line and the closing of its pipes; and only if all processes up to the command's own live to answer the shell, since what becomes of a launch that is given up is said by Lines.LineConserves.
- Prompt.EverySessionIsSound: the lines are given; the end of input, which the shell takes for `exit`, is one of them.
- ReadLine.Reader.Turn: after a refused line only the set of open descriptors is specified, not how many files have been asked for.
