# Verified models of the repository's own logic

Most of the repository demonstrates libraries. Seven pieces hold logic of their own, and this project models
them in Dafny and proves what they promise.

* **The coroutine runtime** of the benchmark server: a lazy, move-only `Task`, frames linked by `caller_`,
  symmetric transfer at `co_await` and at the final suspend point, detached roots that destroy themselves, and
  awaiters completed by callbacks. Any coroutine program is a pair of arbitrary functions (`Direct.Program`),
  so loops, recursion and branching on awaited values are all covered. `Frames` is the machine of frames, Task
  handles, thread stacks and pending operations, in which every undefined use of a handle is an outcome of its
  own; `Direct.Eval` is plain recursive evaluation. `Coroutines` holds the theorems over every run of every
  program (an `Execution` is a run with all its states), `Discipline` a static condition under which no run
  misuses the library, `Server` the benchmark server as one such program, `ServerRuns` where its accept loop and
  its connections come to on any answers, `Connections` the correspondence of connections and the roots that serve
  them, and `Runtime` the same machine as a class whose fields change in place. `Progress` shows that whatever
  evaluation promises, some run delivers, and `Leaks` what a move assignment over a full Task costs. `Resuming` and
  `ResumeLaws` are about programs that also call `Task::resume`, which the discipline of the other modules leaves
  out.
* **The pretty printer** (`Printer`): a stream appended to in separator loops, proved equal to a recursive
  join; `Parser` inverts it, and `Nesting` scans its brackets.
* **The timestamp writer** (`Timestamp`, `TimestampLaws`, `TimestampWriting`): a buffer filled backwards, with a cache per second.
* **rang's colour back ends** (`Rang`, `RangLaws`): escape sequences in the byte stream and the attribute of a
  native console, related through a decoder of SGR sequences (section 8.3.117 of ECMA-48).
* **Recipe recording** (`Recipes`): the recorder of the Arrow cookbook and the table its runs merge into.
* **The pool of io contexts** (`Pool`): placement in turn, and where a server's connections land.
* **Two timers sharing a count** (`Timers`), with callbacks that do not overlap and with ones that do.

How the coroutine files build on one another: `Direct`, `Frames`, `Chains` (the invariant and the history that
instruments a run), `Transfers` (each transfer keeps it), `Threads` and `Steps` (what a chain of frames means
in direct style, and that each transition moves it as direct-style evaluation would), `Runs` (every stimulus
keeps both), `Roots`, `Coroutines`, then `Discipline`, `Server`, `Connections`, `Progress`, `ServerRuns`, `Leaks` and
`Runtime`.
`Resuming`, `ResumeSteps` and `ResumeLaws` build on `Frames` alone. `Prelude` has the option type, `Decimal` the
digits, `Division` quotients and remainders.

## What the proofs found

* The cached timestamp is the one formatted from scratch exactly when some call so far, perhaps this one, was
  outside epoch second 0. A first call in second 0 leaves date and time as zero bytes
  (`TimestampLaws.CacheAgrees`, `TimestampLaws.FirstCallInSecondZero`).
* Printed text can be read back by `Parser.Parse` exactly when no string in it has a quote and a number is not
  followed by a digit (`Parser.Unambiguous`, `Parser.QuotesAreAmbiguous`).
* Before the epoch the milliseconds are negative and show as the last digits of their two's complement
  (`TimestampLaws.MillisBeforeEpoch`, `TimestampLaws.OneBeforeEpoch`).
* A coloured byte stream decodes to what was inserted exactly when no text has an escape character
  (`RangLaws.BytesDecode`, `RangLaws.ForgedSequence`).
* A reset gives a native console its first attribute back exactly when that used only its low byte
  (`RangLaws.ResetRestores`).
* `EndRecipe("")` is accepted when no recipe is open, and records everything written since the last accepted
  start, also what was written after that recipe ended. The recorder is right exactly when this never happens
  (`Recipes.RecordsEpisodes`, `Recipes.RecordsHistory`, `Recipes.BlankEndIsAccepted`).
* A move assignment leaks exactly when it goes to another Task that still has a frame
  (`Leaks.OverwriteLeaks`, `Leaks.LeakedForever`).
* Timer callbacks that overlap reach a count one above the limit exactly when both passed the check for the
  same last number (`Timers.FinalCount`, `Timers.BothOutcomes`).
* `Task::resume` leaves the handle in the Task. A run that calls it breaks exactly when it calls it on an empty or
  finished Task, or when a Task so resumed is later awaited, spawned, resumed again or destroyed, and a Task is
  destroyed at the latest when its owner returns. The destructor destroys the frame twice if it has finished by
  then, and midway if it has not (`ResumeLaws.BreaksExactlyWhenTripped`, `ResumeLaws.HowItBreaks`,
  `ResumeLaws.DestroysTwice`). No code of the repository calls it.

## Model

| member | source | states |
|---|---|---|
| `Coroutines.NothingBreaks` | asio/benchmark/task.hpp:8-152 | in every run of every program no dead, running or finished frame is resumed, none is destroyed twice or while it waits, no Task or completion dangles, and no `co_await` finishes without a value |
| `Coroutines.AlwaysGood` | asio/benchmark/task.hpp:8-152 | the ownership and chain invariant, and the agreement of every root with direct style, hold before, between and after all events of every execution |
| `Coroutines.ExecutionPlays` | asio/benchmark/task.hpp:8-152 | the states of an execution are those the machine comes to by its events |
| `Coroutines.ExecutionOf` | asio/benchmark/task.hpp:8-152 | every run of the machine that does not stop has an execution, so what holds of executions holds of runs |
| `Coroutines.LiveOrDestroyed` | asio/benchmark/task.hpp:19-27 | every frame ever created is live or destroyed, never both; the final awaiter destroyed it if and only if it is a spawned root, its owning Task otherwise |
| `Coroutines.DestroyedForGood` | asio/benchmark/task.hpp:89-93 | a frame destroyed at any point of a run is still so at its end, by the same destroyer, and never live again |
| `Coroutines.OneOwner` | asio/benchmark/task.hpp:86-106 | every live frame is a root no Task holds, or is held by exactly one Task |
| `Coroutines.NothingLeaks` | asio/benchmark/task.hpp:89-99 | when a root has finished, every frame created beneath it has been destroyed |
| `Coroutines.OnlyStartedFramesOwn` | asio/benchmark/task.hpp:34-40 | a frame that was not started, or has finished, owns no frames, so a destructor never cascades |
| `Coroutines.ChainShape` | asio/benchmark/task.hpp:123-127 | the caller links of an unfinished root form a chain without repetition from the root to a leaf that executes or is parked, each other frame waiting for the next |
| `Coroutines.OneChain` | asio/benchmark/task.hpp:47 | a live frame is in the chain of root r if and only if it is started and was created beneath r, so the chains are disjoint |
| `Coroutines.OnePlace` | asio/benchmark/benchmark_mt.cpp:24-32 | a frame executes at exactly one place of one thread or at none, and waits for a callback if and only if that operation is pending |
| `Coroutines.AgreesWithDirectStyle` | asio/benchmark/task.hpp:55-63 | a finished or parked root has produced, at every await, the values that plain recursive evaluation of its body produces on the same answers, and stops as it does |
| `Coroutines.ParkedIsPending` | asio/benchmark/benchmark_mt.cpp:24-28 | an unfinished root is parked if and only if its leaf is in the hands of the operating system |
| `Coroutines.ScheduleDoesNotMatter` | asio/benchmark/task.hpp:119-132 | two runs, under any schedules and beside any other roots, give equal bodies with equal answers the same events, result and place |
| `Coroutines.MisuseIsStuck` | asio/benchmark/task.hpp:120-144 | a misuse reported for a thread is one direct-style evaluation of its root runs into at the same point |
| `Coroutines.CompletionDelivers` | asio/benchmark/benchmark_mt.cpp:24-49 | in every run an operation can complete if and only if it is pending, so each request is answered at most once; that finds the awaiter live, resumes its frame once with exactly the answer, appends it to its root's history only, and leaves every other frame and root alone |
| `Progress.Delivers` | asio/benchmark/task.hpp:17-132 | for every body whose direct-style evaluation on some answers finishes or waits, and whose spawned bodies do so without an answer, there is a run that launches it, gives these answers, and comes to the same result or request with the same events |
| `Progress.EvalLeads` | asio/benchmark/task.hpp:119-132 | recursive evaluation from any point of a body is a sequence of steps of the explicit stack, over any callers, to the same outcome, with the same events and the same answers left |
| `Direct.EvaluatesIsDeterministic` | asio/benchmark/task.hpp:119-132 | direct-style evaluation, the reference, has at most one result |
| `Direct.ArrivesEvaluates` | asio/benchmark/task.hpp:119-132 | where an explicit stack of calls stops, recursive evaluation on the same answers stops, in the same way and with the same events |
| `Transfers.KeepCall` | asio/benchmark/task.hpp:123-127 | transfer into an awaited frame keeps the ownership and chain invariant, the chain growing by the callee |
| `Transfers.KeepJoin` | asio/benchmark/task.hpp:19-23 | transfer from a finished frame to its caller keeps the invariant, the chain shrinking by the callee, which stays owned |
| `Transfers.KeepDetach` | asio/benchmark/runtime.hpp:4-7 | spawn keeps the invariant, the taken frame becoming a root with a chain of its own |
| `Steps.CallThread` | asio/benchmark/task.hpp:123-127 | an await of a Task that has not run is a recursive call in direct style: the caller is pushed, without the awaited slot |
| `Steps.JoinThread` | asio/benchmark/task.hpp:129-132 | a return to the caller is a return in direct style: the caller resumes with the value, and the Task now holds it |
| `Steps.DetachThread` | asio/benchmark/runtime.hpp:4-7 | spawn starts a call of its own and takes the Task from the spawning one, whose meaning is otherwise the same |
| `Runs.RunGood` | asio/benchmark/task.hpp:112-144 | any action of any running frame keeps the invariant, and keeps every root at a point its direct-style evaluation comes to |
| `Runs.AdvanceGood` | asio/benchmark/benchmark_mt.cpp:39-51 | so does any stimulus: an action, a completion, or a launch from outside |
| `Roots.EventGrows` | asio/benchmark/runtime.hpp:4-7 | a launch adds the one root it launches; any other event adds none and logs no spawn, or adds one whose body its spawner has just logged |
| `Discipline.NeverMisused` | asio/benchmark/task.hpp:100-144 | a program whose control states respect a typing of their Task locals never awaits or takes an empty Task, overwrites a full one, or spawns one that ran, in any run |
| `ResumeLaws.AdvanceFair` | asio/benchmark/task.hpp:8-152 | for programs that also call `Task::resume`: one event breaks if and only if it resumes in place an empty or finished Task, or uses, destroys or resumes again a Task that was resumed in place; otherwise it keeps the invariant |
| `ResumeLaws.BreaksExactlyWhenTripped` | asio/benchmark/task.hpp:137-148 | a run of such a program breaks if and only if one of its events does one of these things |
| `ResumeLaws.ResumedStaysOwnerless` | asio/benchmark/task.hpp:19-27 | in every such run a frame resumed in place goes on without a caller, whatever is done with its Task, until its final awaiter destroys it |
| `ResumeLaws.HowItBreaks` | asio/benchmark/task.hpp:89-132 | the destructor of its Task destroys the frame twice if it is gone and midway if it is not; `co_await` finds it gone, running, or waiting for a value that has not come |
| `ResumeLaws.WithoutResume` | asio/benchmark/task.hpp:146-148 | a program that never calls `Task::resume` never breaks |
| `ResumeLaws.CallerDecides` | asio/benchmark/task.hpp:19-25 | a frame that returns while another frame's Task holds it will be destroyed twice if and only if it has no caller; with one, the Task destroys it once |
| `ResumeLaws.DestroysTwice` | asio/benchmark/task.hpp:89-93 | a run from nothing, of a body that resumes a Task in place, ends in a second destruction |
| `ResumeLaws.DestroysMidway` | asio/benchmark/task.hpp:89-93 | the same where the resumed frame waits for a completion ends in a destruction midway |
| `ResumeLaws.AwaitsParked` | asio/benchmark/task.hpp:129-132 | the same where it is awaited while it waits ends in a `co_await` without a value |
| `Server.ServerNeverMisused` | asio/benchmark/benchmark_mt.cpp:93-138 | no run of the server awaits or takes an empty Task, overwrites a full one, or spawns one that ran |
| `Server.ConnectionTrace` | asio/benchmark/benchmark_mt.cpp:93-105 | in every run each connection's operations are (read that succeeds, write)* and at most one read that fails; it waits for the next of these, and ends only after the failure |
| `ServerRuns.SessionComes` | asio/benchmark/benchmark_mt.cpp:93-105 | on every list of answers evaluation of a connection comes to a stop, with the operations `ServerRuns.Session` gives from the answers alone |
| `ServerRuns.SessionStopsWhere` | asio/benchmark/benchmark_mt.cpp:95-104 | that stop: finished if and only if an answer to a read is an error, the first such one being the last answer used; otherwise waiting for a read after pairs of answers, and for a write after one more |
| `ServerRuns.ConnectionStands` | asio/benchmark/benchmark_mt.cpp:93-105 | in every run a connection that has finished or waits stands exactly there, for the answers it got |
| `ServerRuns.ConnectionServes` | asio/benchmark/benchmark_mt.cpp:93-105 | for any answers there is a run in which a connection gets them and comes there |
| `Server.AcceptTrace` | asio/benchmark/benchmark_mt.cpp:120-138 | in every run the accept loop spawns one process per successful accept, in order and before the next accept, and ends only when an accept fails |
| `ServerRuns.AcceptsCome` | asio/benchmark/benchmark_mt.cpp:120-138 | on every list of answers evaluation of the accept loop comes to a stop, with the accepts and spawns `ServerRuns.Accepts` gives from the answers alone |
| `ServerRuns.AcceptsStopWhere` | asio/benchmark/benchmark_mt.cpp:121-136 | that stop: finished if and only if an accept fails; otherwise waiting for the next connection after as many as there are answers; with one spawn, in order, for each accept before the first failure |
| `ServerRuns.AcceptLoopStands` | asio/benchmark/benchmark_mt.cpp:120-138 | in every run an accept loop that has finished or waits stands exactly there, for the answers it got |
| `ServerRuns.AcceptLoopServes` | asio/benchmark/benchmark_mt.cpp:120-138 | for any answers there is a run in which the accept loop gets them, spawning as it goes, and comes there |
| `Server.ServerRoots` | asio/benchmark/benchmark_mt.cpp:117-136 | in every run of the server every root is an accept loop or the process of a connection |
| `Connections.OneRootPerConnection` | asio/benchmark/benchmark_mt.cpp:117-136 | in every run with one accept loop the spawns it has logged are those of connections 0, 1, ... in order, each of these is served by exactly one root, and no root serves any other |
| `Connections.SpawnsAreAccepted` | asio/benchmark/benchmark_mt.cpp:125-136 | whenever the accept loop waits or has ended, it has spawned as many processes as there were accepts before the first failure, the number of connections that `Pool.TcpServer.Listen` places for the same results |
| `Runtime.CoroutineRuntime.ResumeHandle` | asio/benchmark/task.hpp:129-132 | resumes exactly one frame, with the value its await yields |
| `Runtime.CoroutineRuntime.DestroyTasks` | asio/benchmark/task.hpp:89-93 | destructors run one by one, in any order, leave what dropping all the Tasks at once leaves |
| `Runtime.CoroutineRuntime.FinalAwait` | asio/benchmark/task.hpp:17-27 | transfers to the caller, or destroys the frame when there is none |
| `Runtime.CoroutineRuntime.SpawnFrom` | asio/benchmark/runtime.hpp:4-7 | takes the handle and runs the frame on top of the spawning one; reports misuse and then changes nothing |
| `Runtime.CoroutineRuntime.AwaitOn` | asio/benchmark/task.hpp:112-135 | links the caller and transfers, or goes on at once when the callee is done |
| `Runtime.CoroutineRuntime.MakeIn` | asio/benchmark/task.hpp:154-162 | a call creates one frame, suspended, owned by the Task it is assigned to |
| `Runtime.CoroutineRuntime.MoveIn` | asio/benchmark/task.hpp:96-106 | the move assignment as it is, for any two Tasks: the target takes the handle and the source loses it, over itself it does nothing, and what a full target held is not destroyed but reported as lost |
| `Leaks.OverwriteLeaks` | asio/benchmark/task.hpp:100-106 | at any point of any run, a move assignment by the running frame puts a frame out of reach if and only if it goes from one Task to another that still has that frame |
| `Leaks.LeakedForever` | asio/benchmark/task.hpp:100-106 | a frame out of reach is never destroyed, however the run goes on |
| `Runs.ParkGood` | asio/benchmark/benchmark_mt.cpp:24-28 | awaiting an operation keeps the invariant, and leaves the root at exactly the point where its direct-style evaluation asks for that answer |
| `Runtime.CoroutineRuntime.ReturnFrom` | asio/benchmark/task.hpp:55-58 | stores the value, destroys the locals, suspends finally |
| `Runtime.CoroutineRuntime.RunThread` | asio/benchmark/task.hpp:112-144 | in every valid state the operations, changing fields in place, do what the machine does and keep the invariant and the agreement with direct style, whatever the running frame asks for |
| `Runtime.CoroutineRuntime.CompleteOperation` | asio/benchmark/benchmark_mt.cpp:43-49 | the completion handler does the same for any pending operation |
| `Runtime.CoroutineRuntime.LaunchRoot` | asio/benchmark/benchmark_mt.cpp:117 | so does a spawn outside every coroutine |
| `Printer.Stream.PrintTo` | asio/learn_asio/print.hpp:76-138 | appends exactly the recursive text of the value |
| `Printer.NumTextIs` | asio/learn_asio/print.hpp:80-82 | the text of an integer is the one text of digits with its value and no zero in front of others, after a minus if and only if it is negative |
| `Printer.Stream.PrintItems` | asio/learn_asio/print.hpp:98-108 | the loop with a first flag prints the join of the element texts in brackets, at every depth |
| `Printer.Stream.PrintEntries` | asio/learn_asio/print.hpp:85-97 | the same for the entries of a map |
| `Printer.Stream.PrintLine` | asio/learn_asio/print.hpp:160-167 | appends the join of the arguments' texts and a line end |
| `Printer.Pretty` | asio/learn_asio/print.hpp:170-175 | returns the text of the value |
| `Parser.Unambiguous` | asio/learn_asio/print.hpp:76-138 | parsing the text of a value and whatever follows it gives back the value, up to variants and optionals, and what followed, if and only if no string in it has a quote and no digit follows a number |
| `Parser.SameText` | asio/learn_asio/print.hpp:109-120 | values that differ in variants and optionals only print alike; and of the values that print like one without quotes, these are exactly the others without quotes |
| `Parser.QuotesAreAmbiguous` | asio/learn_asio/print.hpp:78-79 | two lists, one with a quote in a string, that differ and print alike |
| `Parser.LineUnambiguous` | asio/learn_asio/print.hpp:154-167 | a printed line gives back its arguments one by one, whatever is printed after it, if and only if no string in them has a quote |
| `Nesting.NestsExactly` | asio/learn_asio/print.hpp:85-138 | brackets outside string literals close in the order they open, in the text of a value and of every value in it, on any brackets open before, if and only if every string in it, scanned between its quotes, leaves the literal open and the brackets as they were; one without quotes does |
| `Nesting.QuoteBreaksNesting` | asio/learn_asio/print.hpp:78-79 | a string with a quote whose bracket is then outside any literal |
| `TimestampWriting.TimestampWriter.WriteInt` | asio/learn_asio/log.hpp:118-131 | writes the last digits of the number, and the separator unless the width is 4, before the position given, and nothing else |
| `TimestampWriting.TimestampWriter.WriteTimestamp` | asio/learn_asio/log.hpp:138-163 | the seven backward writes leave the whole format over the buffer, or only new milliseconds when the second is the same |
| `TimestampWriting.TimestampWriter.GetTimestamp` | asio/learn_asio/log.hpp:133-164 | the writer keeps its buffer and second as all calls so far leave them, and the text is the one formatted from scratch if and only if some call so far, this one included, was outside second 0 |
| `TimestampLaws.CacheAgrees` | asio/learn_asio/log.hpp:133-164 | after any calls, forwards or back in time, the 23 characters are those formatted from scratch if and only if some call was outside second 0; the terminating zeros are never touched |
| `TimestampLaws.CacheInvariant` | asio/learn_asio/log.hpp:145-163 | the date part of the buffer always belongs to the last second, or is still blank, and the milliseconds to the last call |
| `TimestampLaws.FirstCallInSecondZero` | asio/learn_asio/log.hpp:135-149 | a first call at the epoch leaves the date blank |
| `TimestampLaws.MillisInRange` | asio/learn_asio/log.hpp:138-144 | from the epoch on, seconds and milliseconds are the instant rounded down |
| `TimestampLaws.MillisBeforeEpoch` | asio/learn_asio/log.hpp:138-144 | before it, they are the instant rounded up, and the milliseconds are not positive |
| `TimestampLaws.OneBeforeEpoch` | asio/learn_asio/log.hpp:141-147 | one millisecond before the epoch shows as 615 |
| `TimestampLaws.DigitsAreLast` | asio/learn_asio/log.hpp:118-126 | a number too wide for its field shows its last digits |
| `TimestampLaws.Separators` | asio/learn_asio/log.hpp:155-163 | where the separators stand, all other characters being digits, whatever the fields hold |
| `TimestampLaws.StampReadBack` | asio/learn_asio/log.hpp:155-163 | for years 0 to 9999 the 23 characters give back every field |
| `TimestampLaws.StampOrder` | asio/learn_asio/log.hpp:155-163 | for years 0 to 9999 the order of the characters is the order of the field tuples, both ways |
| `Rang.OutputStream.SetColorNative` | rang/rang.hpp:444-453 | what is buffered is shown with the previous attribute, then the new state's attribute is in force; nothing changes without a console |
| `RangLaws.DecodeSequence` | rang/rang.hpp:439-442 | decoding the sequence of a manipulator gives back that manipulator and leaves what follows |
| `Rang.OutputStream.SetColor` | rang/rang.hpp:455-475 | off Windows the sequence goes into the bytes; on Windows too if the terminal mode is Ansi, or Auto where the terminal takes sequences; otherwise the state of the console changes, if there is one |
| `Rang.OutputStream.Insert` | rang/rang.hpp:478-493 | nothing changes when colours are off, or left to a stream that has none; otherwise bytes grow by the sequence alone, or state and attribute of the console change alone, by platform and terminal mode, case by case |
| `RangLaws.WhichWay` | rang/rang.hpp:455-493 | a manipulator goes into the bytes, or to the console, if and only if control mode, terminal mode and platform are the ones spelled out |
| `Rang.OutputStream.InsertAll` | rang/rang.hpp:439-493 | under fixed modes, for any interleaving of text and manipulators the bytes are their concatenation, and a native console shows every character with the attribute in force when it was inserted, although flushed later |
| `Rang.OutputStream.Perform` | rang/rang.hpp:439-502 | with changes of the control and terminal mode in between, every item goes the way that the modes in force when it comes give it: the bytes are those of the items in order, and the console is told its own manipulators and every byte |
| `RangLaws.RouteIs` | rang/rang.hpp:478-502 | the way of each item is that of the control and terminal mode in force when it comes |
| `RangLaws.LastControlRules` | rang/rang.hpp:499-501 | the control mode in force is the last one set, or the first if none was |
| `RangLaws.LastTermRules` | rang/rang.hpp:495-497 | the terminal mode in force is the last one set, or the first if none was |
| `RangLaws.RouteDecodes` | rang/rang.hpp:439-502 | whatever the changes of mode, decoding the bytes recovers exactly the text and the manipulators sent into them, if and only if no text has an escape |
| `RangLaws.RouteIsTokens` | rang/rang.hpp:439-502 | whatever the changes of mode, what the console is told is an interleaving of text and its own manipulators, so the laws about its state and attribute hold of it |
| `RangLaws.BytesDecode` | rang/rang.hpp:439-442 | decoding the byte stream recovers exactly the interleaving, if and only if no text has an escape |
| `RangLaws.ForgedSequence` | rang/rang.hpp:439-442 | text holding a sequence decodes like a manipulator |
| `RangLaws.BackEndsAgree` | rang/rang.hpp:439-493 | stripping the decoded bytes gives the uncoloured output, and replaying them gives the native console's display, state and attribute, if and only if no text has an escape |
| `RangLaws.CodesAreDistinct` | rang/rang.hpp:51-108 | a code stands for exactly one manipulator, over all five enumerations of manipulators |
| `RangLaws.PlainIsSilent` | rang/rang.hpp:481-492 | the text of any interleaving, sequences taken out, is what a stream without sequences receives |
| `RangLaws.StateIsHistory` | rang/rang.hpp:360-412 | the native state is the last foreground set, the last background set, and which styles occurred since the last reset |
| `RangLaws.NibblesAreAttributes` | rang/rang.hpp:348-384 | the console colour has the red and blue bits of the terminal colour exchanged, and the intensity bit when bright |
| `RangLaws.AttributeIsHistory` | rang/rang.hpp:360-437 | after any sequence with a manipulator, the attribute is a function of the last foreground set, the last background set and the styles since the last reset, whatever came before |
| `RangLaws.AttributeIsPaint` | rang/rang.hpp:414-437 | bold intensifies the foreground, underline and blink the background, then reversed swaps and conceal hides; only the low byte is used |
| `RangLaws.EachCharacter` | rang/rang.hpp:444-453 | each character is shown with the attribute its own history asks for |
| `RangLaws.ReversedSwapsConcealCopies` | rang/rang.hpp:414-437 | reversed swaps the two nibbles; conceal copies the resulting background nibble into the foreground |
| `RangLaws.ResetRestores` | rang/rang.hpp:330-346 | a reset restores the start-up attribute if and only if that fits the low byte |
| `RangLaws.DefaultIsLowByte` | rang/rang.hpp:338-343 | the start-up state stands for exactly the low byte of the start-up attribute |
| `Recipes.RecordsHistory` | arrow/cookbook/common.cc:33-57 | what any call history records: one row for each episode, its name and text, and one for every `EndRecipe("")` that comes while nothing is open, with all that was written since the last accepted start |
| `Recipes.RecordsEpisodes` | arrow/cookbook/common.cc:33-57 | what is recorded is exactly the episodes of the call history, name and text, if and only if `EndRecipe("")` never comes while nothing is open; otherwise there is one row too many for each |
| `Recipes.FailsUnlessOrderly` | arrow/cookbook/common.cc:33-50 | a session has a failed check if and only if its history is not orderly |
| `Recipes.NamedEndsSuffice` | arrow/cookbook/common.cc:46-50 | histories that never end the empty name are among the right ones |
| `Recipes.BlankEndIsAccepted` | arrow/cookbook/common.cc:46-57 | a history without a failed check in which a blank end records again what the last recipe wrote, with what was written after it ended |
| `Recipes.WhileOpen` | arrow/cookbook/common.cc:33-50 | while a recipe is open, all other starts and ends are rejected and change nothing but the failures |
| `Recipes.BuildersAgree` | arrow/cookbook/common.cc:53-54 | the name and output builders never differ in length |
| `Recipes.TestBinary.StartRecipe` | arrow/cookbook/common.cc:33-44 | does what the session machine does, in place |
| `Recipes.TestBinary.EndRecipe` | arrow/cookbook/common.cc:46-57 | does what the session machine does, in place |
| `Recipes.TestBinary.CreateRecipeOutputTable` | arrow/cookbook/common.cc:99-112 | one chunk with all recorded rows in order; the builders are left empty |
| `Recipes.PopulateMap` | arrow/cookbook/common.cc:114-128 | for any table and map: adds the rows to the map, later rows winning, or reads outside chunk 0, the latter if and only if chunk 0 of a column does not hold all rows |
| `Recipes.MergeRecipeTables` | arrow/cookbook/common.cc:130-152 | in whatever order the map is iterated, the table has no repeated name and means the old map overridden by the new |
| `Recipes.MergeAssociates` | arrow/cookbook/common.cc:130-152 | merging is associative up to the order of rows |
| `Recipes.MergeAgain` | arrow/cookbook/common.cc:130-152 | merging the same table again changes at most the order of rows |
| `Recipes.SameMapSameRows` | arrow/cookbook/common.cc:136-141 | tables without repeated names and with the same meaning have the same rows in some order |
| `Recipes.LastRowWins` | arrow/cookbook/common.cc:125-127 | the map has exactly the names of the rows, each with its last output |
| `Recipes.TestBinary.DumpRecipeOutput` | arrow/cookbook/common.cc:158-174 | the file means what it did, overridden by what was recorded, without a repeated name; the builders are left empty |
| `Recipes.TestBinary.RunAllTests` | arrow/cookbook/main.cc:9-27 | the file is merged with the recorded rows if nothing else failed, the history is orderly and it recorded something; otherwise it is left alone |
| `Recipes.PublishedExactly` | arrow/cookbook/main.cc:11-12 | a run is published if and only if nothing else failed, its history is orderly and it recorded something |
| `Recipes.RunBinaries` | arrow/cookbook/main.cc:11-13 | after any runs the file gives each name the last output published for it, or what it had before |
| `Recipes.RunByRun` | arrow/cookbook/common.cc:158-174 | merging run by run is merging all published rows in order at once |
| `Recipes.PublishedRunsAreOrderly` | arrow/cookbook/main.cc:12-13 | a published run whose ends are named consists of complete episodes with text around them, perhaps with one left open at the end, and publishes exactly the complete ones |
| `Pool.IOContextPool.constructor` | asio/benchmark/io_context_pool.hpp:10-21 | that many distinct new contexts, each guarded |
| `Pool.IOContextPool.GetIoContext` | asio/benchmark/io_context_pool.hpp:31-37 | call number k gets context k mod n |
| `Pool.IOContextPool.Stop` | asio/benchmark/io_context_pool.hpp:57-67 | no guard is left and every context is stopped, also the second time |
| `Pool.EvenShare` | asio/benchmark/io_context_pool.hpp:31-37 | how many calls of any window a context gets, exactly |
| `Pool.FairShares` | asio/benchmark/io_context_pool.hpp:31-37 | that is the even share rounded down or up, and differs by at most one between contexts |
| `Pool.InTurnIsFair` | asio/benchmark/benchmark_mt.cpp:120-124 | placing connections in turn, from any context on, keeps their numbers within one |
| `Pool.TcpServer.constructor` | asio/benchmark/benchmark_mt.cpp:109-118 | the acceptor takes a turn of its own |
| `Pool.TcpServer.Listen` | asio/benchmark/benchmark_mt.cpp:120-138 | connection k lands on the context k + 1 turns after the acceptor's, up to the first failed accept, and connections per context differ by at most one |
| `Timers.Printer.Print1` | asio/tests/test_multithread.cpp:25-35 | a callback counts and re-arms its timer a second later, below the limit only |
| `Timers.Printer.Print2` | asio/tests/test_multithread.cpp:37-47 | the same for the other timer |
| `Timers.Printer.Run` | asio/tests/test_multithread.cpp:56-67 | whichever timer fires next, callbacks that do not overlap end after exactly limit + 2 of them, with the count at the limit |
| `Timers.FinalCount` | asio/tests/test_multithread.cpp:25-47 | with check and increment apart, the final count is the limit, or one more if and only if both chains once passed the check for the same last number; callbacks number the count plus 2 |
| `Timers.AlwaysEnds` | asio/tests/test_multithread.cpp:25-47 | every interleaving ends within a fixed number of steps, which the final count determines |
| `Timers.BothOutcomes` | asio/tests/test_multithread.cpp:25-47 | both final counts are reached by some interleaving, the larger one if and only if the limit is not 0 |

## Left out

- Exceptions in coroutines: `unhandled_exception` terminates, so only normal returns are modelled.
- `Task::resume` within the theorems about direct style: `Coroutines` covers programs that do not call it, `ResumeLaws` those that do, for breakage only. Waking a parked frame by it, which in C++ hands the frame a default value, counts as breakage.
- Runs that go on after a misuse: an await or take of an empty Task, a spawn of a finished one and a move over a full one are reported and end the run; `Leaks` says what the last of them costs.
- Tasks that are moved into another coroutine's parameters or returned by it: Tasks are locals of one frame.
- Destructors that cascade: proved not to happen among the programs modelled.
- Frames still parked when the pool stops: no code of the repository reclaims them.
- Interleaving within an action: a frame's action up to its next suspension or transfer is one step; threads interleave between actions. Memory-model effects are not modelled.
- Sockets, buffers and the contents of requests: an operation is pending and completes once, with any answer; the server looks at the error code only. Which error code it is does not matter to it.
- The C++ stack depth that symmetric transfer saves: the stacks of the model are those of nested `resume` calls.
- `name_of`, the traits that choose a printing branch, floating-point and `char` values, custom printers and the unprintable fallback.
- Iteration order of printed containers: a map carries its entries in the order it is iterated in.
- `ConsoleLogger`, log levels and message formatting; `thread_local` copies of the timestamp cache are independent instances of the one modelled.
- `localtime`: any fixed function from seconds to fields.
- rang's terminal detection and console calls: their answers are inputs (`Rang.Platform`).
- rang's native state is one per process: the model is of one stream, as two streams on two consoles would share it.
- Printing of text by anything but rang to the same console.
- Arrow's file format, status results and file errors: a file is a stored table, on the success path; a table without rows is read back without chunks, as Arrow's stream writer leaves it.
- `FindTestDataFile`: file-system search only.
- `IOContextPool::run` and the threads it joins; `get_io_context` of an empty pool, which the code does not guard against.
- Timers as clocks: any armed timer may fire next, so every order of expiry is covered.
- Non-atomic increments of the shared count, which are undefined in C++: with overlapping callbacks the increment is one step.
- Values with quotes whose own text nests although some string in them does not return: brackets of different strings can cancel out.
