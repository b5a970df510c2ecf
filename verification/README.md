# Models of the coursework programs

The repository is a collection of C programs: a chat over a System V message queue, a shell that runs
pipelines, two worker-pool servers, telephone directories, per-endpoint counters, a growable array, a
spiral matrix, an Internet checksum and several threaded exercises. This project models the ones that
hold a protocol or an algorithm and proves what they promise, for every input and every run.

Sequential code is modelled in its own form: classes with the fields the C code updates, arrays that are
overwritten or shifted in place, loops with invariants, each proved against a specification function whose
properties are lemmas. Threads are modelled as state machines in which every lock, read, write, queue
operation and unlock is a step of its own; their theorems speak about every reachable state of every
interleaving of these steps. The chat server is modelled at four granularities: whole handler bodies
(`ChatAtomic`), single sends and appends with each frame parsed in private (`ChatInterleaved`,
`ChatRosters`), single sends, appends and `strtok` calls with the one position `strtok` saves per process
(`ChatParsing`), and whole parses over that position (`ChatOverlappingParses`). `ChatSeparateRuns` says which
runs of `ChatParsing` behave as with private parses, `ChatMixedTokens` what happens in others.

| File | Content |
|---|---|
| `ChatCodec` | the text frames: `sprintf`, `strtok`, `atoi`, and which inputs survive the trip |
| `ChatServer`, `ChatClient` | the handler bodies and loops of server and client |
| `ChatMirror`, `ChatAtomic` | handler bodies as steps: a drained client is an exact replica of the server |
| `ChatInterleaved` | single sends and appends as steps, frames parsed in private: exactly which messages a client can miss |
| `ChatRosters` | the same steps: every client's member list follows the server's |
| `ChatParsing`, `ChatTexts` | the server as one process: text buffers, each `strtok` call a step that reads and writes the one saved position |
| `ChatSeparateParses`, `ChatSeparateRuns` | runs in which no parse falls into another: they refine `ChatInterleaved`, and its results hold |
| `ChatOverlappingParses` | whole parses: the server ends on a line exactly when a member frame was taken meanwhile |
| `ChatMixedTokens` | a run in which the words of a line become a member |
| `PipelineSyntax`, `Tokeniser` | what a command line means, and the in-place tokeniser that computes it |
| `Pipeline` | `pipe`, `fork`, `dup2`, `close` over descriptor tables |
| `WorkerQueue`, `SlotHandshake` | the two worker-pool servers |
| `Sequences`, `GrowableArray` | search and deletion by shifting; the doubling array of the chat |
| `DirectorySpec`, `LinkedDirectory`, `ArrayDirectory` | two directories that refine one specification |
| `EndpointCounters` | the keyed counters of the echo server |
| `Spiral` | the spiral fill |
| `Checksum` | deferred carries against one's complement addition (RFC 1071, section 2) |
| `Shelves` | customers, loader and one mutex per shelf |
| `SharedCounter`, `MapReduce` | counting threads, and the loops they must agree with |

## Findings

- task13/chat/src/server.c:78-83 and 129-135: the message thread sends a line to everybody before it appends
  it to the list and takes no lock, and the membership thread replays the list to a newcomer before it
  registers it. A message finished between these two points is never seen by the newcomer.
  As long as no parse of a frame falls into another (next item), `ChatSeparateRuns.SeenIsHistoryThenLive` says
  exactly what is seen, `CompleteIffNothingFellBetween` when nothing is missed, nothing is seen twice or out of
  order (`SeenIsASubsequence`), and member lists are not affected (`RosterIsExact`);
  `ChatInterleaved.AMessageCanBeMissed` exhibits a run in which a message is missed.
- task13/chat/src/server.c:65-76 and 120-133: both server threads parse with plain `strtok`, which keeps one
  position per process, and the message thread holds no lock while it does and broadcasts the line between its
  first and its second call. With a join frame "1 nick 123" and a line "a 7 b" at the server, calls in the order
  65, 120, 72, 76, 130, 133 register a member "a" with the number 7, while everybody is told of nick and 123, and
  list the line as "b", while everybody was sent "a 7 b" (`ChatMixedTokens.OverlapBreaksBoth`, for any nickname
  and any words); when the client 123 leaves, no member is found and the server writes before the array
  (`LeaveCanMiss`). With coarser timing, each parse undisturbed, the server ends on a null pointer at line 130
  exactly when a member frame was taken between the reception of the line and that call
  (`ChatOverlappingParses.LineIsLostIffFrameBegun`), and lists what was sent otherwise (`AppendsWhatWasSent`). In
  every run in which no call of one thread falls between the first and the last call for a frame of the other,
  the server never faults (`ChatSeparateRuns.NoFaultWhenSeparate`) and all the results with private parses hold
  (`SeparateRunsRefine`). The shell's tokeniser uses `strtok_r`, whose position belongs to its caller.
- task13/chat/src/client.c:100, 169 and 232: the frame a client sends itself on `!exit` is printed with a
  space where its reader looks for `>`: the reader does not recognise the exit word and passes a null pointer
  to `atoi` (`ChatCodec.SelfExitFrameIsNotAnExit`). It does no harm as long as the reader has seen the flag
  first.
- task16_ether_header/client.c:44-47: the checksum equals the one's complement checksum for all buffers of a
  given length exactly when that length is at most 131076 bytes (`Checksum.AgreesUpToTheLimit`).
- task16_cs_models/parallel_buff/server.c:64-67: the slot server's selection loop restarts at slot 1, not 0, so
  a selection that found slot 0 busy never picks it (`SlotHandshake.RescanSkipsSlotZero`).
- task12/pipeline_bash/src/main.c:212-215: the last loop of `pipeline_handler` never finds an open descriptor;
  the fork loop has closed every pipe end by then (`Pipeline.AllEndsClosed`).
- task6/DM_abonent_directory.c:89-97: the linked directory leaves `tail` at the released cell when its only
  cell is removed (`LinkedDirectory.Directory.CellRemove`); no operation reads it then.
- task11/task11.2/mapreduce.c:13 and 23-29: the sum is the limit exactly when the number of threads divides
  it, and with more threads than numbers no thread stops (`MapReduce.SumIsTheLimit`,
  `TooManyThreadsNeverStop`).

## Assumptions

- C strings are sequences of characters without their terminator; the tokeniser works on the characters of
  the buffer, terminators included. `int` is unbounded except in the checksum, whose words are 16 bits wide;
  its `long` accumulator does not overflow.
- Memory is sequentially consistent. Allocation, `fork`, `pipe` and sends succeed. Queues are unbounded and
  frames fit their buffers.
- In the chat one `data_add` (task13/chat/src/data.c:20-34) is one step. In C it may reallocate the array and
  writes three fields of an entry before it increments `size`, while the other thread reads the same array
  without a lock (task13/chat/src/server.c:148-149 and 165-166); a reader is taken to see the list before or after.
- One `strtok` call together with the use of its token is one step. After a call the saved position is the end
  of the string or behind the delimiter that ended the token, as in glibc. `msgrcv` delivers the sender's whole
  buffer, so that arbitrary characters follow a frame's terminator. The nicknames and lines clients send hold no
  terminator.
- Process numbers in the chat are distinct and greater than 2, the two reserved message types. In
  `ChatAtomic` nicknames are non-empty without a space and lines are non-empty without `>` and are not the
  exit word; `ChatCodec` proves that these are exactly the inputs whose join and chat frames decode, and states
  the weaker condition under which a leave frame does. A null pointer passed
  to `strcmp`, `strlen` or `atoi`, and a leave frame for an unknown member, are the fault `ChatAtomic.NoFault`
  excludes.
- The descriptors `pipe` hands out are a parameter, constrained to be unused and distinct. A pipeline has at
  least two commands.

## Model

| member | source | states |
|---|---|---|
| ChatCodec.StrtokPlace | task13/chat/src/server.c:65-76 | a `strtok` token is the first longest stretch of the input without the delimiter, the remainder is what follows the delimiter that ends it, and there is none exactly when the input holds nothing but delimiters |
| ChatCodec.StrtokSuffix | task13/chat/src/server.c:65-76 | what is written behind a string comes out only after the string's own tokens |
| ChatCodec.AtoiDecimal | task13/chat/src/server.c:70 | `atoi` undoes `%d` for every integer |
| ChatCodec.JoinRoundTrip | task13/chat/src/client.c:225-237 | a join frame decodes to its nickname and pid, at the server and at a client, exactly when the nickname is non-empty and has no space |
| ChatCodec.LeaveRoundTrip | task13/chat/src/client.c:129 | a leave frame decodes to its pid, at the server and at a client, exactly when the nickname has one word or its second word reads as the pid; a good nickname does |
| ChatCodec.ChatRoundTrip | task13/chat/src/client.c:229-230 | a chat frame decodes to its line and pid at the server exactly when the line is non-empty and has no `>`; at a client also only when it is not the exit word |
| ChatCodec.PollRoundTrip | task13/chat/src/client.c:130 | the frame a leaving client puts on the chat queue is read as a poll, whatever the nickname |
| ChatCodec.MemberTokens | task13/chat/src/client.c:153-166 | server and client read a member frame alike, whatever the nickname; a good one is read back |
| ChatCodec.ReplayText | task13/chat/src/server.c:160-167 | the frames replayed from decoded entries are character for character the frames once sent |
| ChatCodec.SelfExitFrameIsNotAnExit | task13/chat/src/client.c:95-101 | a frame with the exit word is decoded as an exit exactly at priority 2; the one a client sends itself is a broken frame |
| ChatServer.Find | task13/chat/src/data.c:44-51 | the first index with that id, or -1 if there is none |
| ChatServer.Server.BroadcastText | task13/chat/src/server.c:147-152 | the loop appends one copy to the queue of each registered member, in order |
| ChatServer.Server.ShareMembers | task13/chat/src/server.c:158-164 | the first loop queues a join frame for each online member, in order |
| ChatServer.Server.ShareHistory | task13/chat/src/server.c:165-169 | the second loop queues a chat frame for every message, in order |
| ChatServer.Server.ShareDatabase | task13/chat/src/server.c:154-170 | the newcomer's queue gets the online members and then every message |
| ChatServer.Server.MembersHandler | task13/chat/src/server.c:61-91 | one iteration of the membership thread changes members, counter, queue and exit flag as `HandleMember` says, on every text |
| ChatServer.Server.MessageHandler | task13/chat/src/server.c:117-137 | one iteration of the message thread changes messages and queue as `HandleMessage` says, on every text; it stops exactly on a poll with no members left |
| ChatClient.DrainedMessages | task13/chat/src/client.c:144-184 | draining a queue without a fault appends exactly its chat lines, in order |
| ChatClient.StillRunning | task13/chat/src/client.c:144-184 | a reader that runs after draining met no fault on the way |
| ChatClient.AbsorbConcat | task13/chat/src/client.c:144-184 | absorbing a queue in two parts is absorbing it at once |
| ChatClient.Client.SendMessage | task13/chat/src/client.c:225-237 | queues one frame of the given priority; the server decodes it to the line, poll, join or leave that was meant when line or nickname is good |
| ChatClient.Client.Drain | task13/chat/src/client.c:144-184 | the reader loop, run until its queue is empty or it stops, has absorbed the whole queue in order and touched no other queue |
| ChatMirror.OnlineAfterLeave | task13/chat/src/server.c:66-70 | switching one distinct member off removes just that entry from the online members |
| ChatMirror.BroadcastBox | task13/chat/src/server.c:147-152 | with distinct ids a broadcast adds exactly one frame to each registered member's queue and none to any other |
| ChatMirror.MirrorsNewcomer | task13/chat/src/server.c:78-83 | replay, registration and announcement make an empty replica mirror the server |
| ChatMirror.MirrorsJoin | task13/chat/src/client.c:158-166 | absorbing a join frame keeps a replica a mirror of the extended list |
| ChatMirror.MirrorsLeave | task13/chat/src/client.c:154-157 | absorbing a leave frame finds its target and keeps the replica a mirror |
| ChatAtomic.StepInv | task13/chat/src/server.c:46-152 | every step of server threads and clients keeps the invariant that each registered reader, once drained, mirrors the server |
| ChatAtomic.ReachableInv | task13/chat/src/server.c:31-144 | the invariant holds in every reachable state |
| ChatAtomic.ReplicaPlusPendingIsTheLog | task13/chat/src/server.c:129-170 | in every reachable state a registered reader's messages followed by its pending chat lines are the server's whole list, however late it joined |
| ChatAtomic.DrainedReplicaIsExact | task13/chat/src/client.c:144-184 | a drained registered reader has the server's messages and the server's online members, in order |
| ChatAtomic.NoFault | task13/chat/src/client.c:153-181 | every frame parses and every leave frame finds its target, at the server and at all clients |
| ChatAtomic.CounterCounts | task13/chat/src/server.c:51-91 | `members_online` is the number of online entries while the membership loop runs |
| ChatAtomic.StopsWithTheLastMember | task13/chat/src/server.c:85-89 | the membership loop stops in exactly the step that takes the last online member away, and then nobody registered still reads |
| ChatAtomic.ShutdownInv | task13/chat/src/server.c:85-89 | emptying the list when nobody is announced any more keeps the invariant |
| ChatInterleaved.StepInv | task13/chat/src/server.c:54-169 | with each frame parsed in private: every single send, append, registration and test keeps each client's view of the form the next row states |
| ChatInterleaved.ReachableInv | task13/chat/src/server.c:54-169 | with each frame parsed in private: that holds in every reachable state |
| ChatInterleaved.SeenIsHistoryThenLive | task13/chat/src/server.c:78-83 | with each frame parsed in private: what a registered client received and has pending is, as history, the messages before the end of its replay and then, live, those from its registration on, the one in flight included once its turn has come; the ranges do not overlap |
| ChatInterleaved.SeenIsASubsequence | task13/chat/src/server.c:129-135 | with each frame parsed in private: a client's view embeds, in strictly increasing positions, into the list plus the one message in flight |
| ChatInterleaved.CompleteIffNothingFellBetween | task13/chat/src/server.c:78-135 | with each frame parsed in private: for the step a that ended a client's replay and the step b that registered it: the client has all it is due exactly when no step from a to b appended a message and none was sent out but not yet appended at b, and then entry by entry |
| ChatInterleaved.ReplayEnd | task13/chat/src/server.c:165-169 | a registration comes after a step at which the replay loop had sent the whole list, with nothing else done by its thread in between |
| ChatInterleaved.Registration | task13/chat/src/server.c:79 | a recorded window is the list length at the end of the replay and the messages due at the registering step |
| ChatInterleaved.MessagesGrow | task13/chat/src/server.c:135 | the list grows by exactly the appending steps of a run |
| ChatInterleaved.AMessageCanBeMissed | task13/chat/src/server.c:129-135 | there is a run after which a quiet, registered, reading client lacks a message of the list |
| ChatRosters.StepRosters | task13/chat/src/server.c:54-169 | with each frame parsed in private: every single send, append, switching-off and test keeps the member-list results below |
| ChatRosters.ReachableRosters | task13/chat/src/server.c:54-169 | with each frame parsed in private: they hold in every reachable state |
| ChatRosters.RosterIsExact | task13/chat/src/server.c:147-164 | with each frame parsed in private: what a registered client took and has pending, with the one announcement that may still be due to it, rebuilds the server's online members in order, and no leave frame misses its target; between frames of the thread nothing is due |
| ChatRosters.LeaveFindsItsMember | task13/chat/src/server.c:66-70 | with each frame parsed in private: a leave frame the server takes from its queue has an online member to switch off, so nothing is written before the array |
| ChatRosters.ClosesWhenNobodyIsLeft | task13/chat/src/server.c:85-89 | with each frame parsed in private: at the test `members_online` is the number of online members, and the list is given up exactly when there is none |
| ChatParsing.TextAtIs | task13/chat/src/server.c:64 | the string at an index of a buffer is what stands there up to the first terminator |
| ChatParsing.CallIs | task13/chat/src/server.c:65-76 | a call of `strtok` at any index of any buffer returns the first token of the string there, writes at most one terminator, and stops where the remainder of the string stands |
| ChatTexts.ClientMemberText | task13/chat/src/client.c:225-237 | a member frame a client sends has its three tokens and decodes to the join or leave meant |
| ChatTexts.ClientChatText | task13/chat/src/client.c:229-230 | a line a client sends has its three tokens and decodes to line and number, at the server and at the clients |
| ChatTexts.ClientPollText | task13/chat/src/client.c:130 | a leaving client's chat frame decodes to a poll |
| ChatTexts.MembersStepInHand | task13/chat/src/server.c:64-82 | as long as the saved position is its own, the membership thread has the tokens of its frame in hand, call by call, and the buffer it announces is the frame |
| ChatTexts.MessagesStepInHand | task13/chat/src/server.c:118-135 | as long as no member frame was begun since the line's first token, the message thread has the tokens of its line in hand |
| ChatSeparateParses.StepSeparate | task13/chat/src/server.c:54-169 | a step that does not parse inside the other thread's parse never faults, keeps the invariant, and is one step of the machine with private parses or none |
| ChatSeparateParses.ReachableSeparate | task13/chat/src/server.c:54-169 | the invariant holds in every state of every run of such steps |
| ChatSeparateRuns.SeparateRunsRefine | task13/chat/src/server.c:54-169 | such a run, followed state by state, is a run of the machine with private parses |
| ChatSeparateRuns.NoFaultWhenSeparate | task13/chat/src/server.c:65-133 | in such a run no null token is used and no leave frame misses its member |
| ChatSeparateRuns.TokensAreTheFrame | task13/chat/src/server.c:65-133 | in such a run what is registered, switched off or appended is what the frame received says |
| ChatSeparateRuns.SeenIsHistoryThenLive | task13/chat/src/server.c:78-83 | in such a run a registered client's view is the history before the end of its replay and the live messages from its registration on |
| ChatSeparateRuns.SeenIsASubsequence | task13/chat/src/server.c:129-135 | in such a run a view embeds, in strictly increasing positions, into the list plus the message in flight |
| ChatSeparateRuns.CompleteIffNothingFellBetween | task13/chat/src/server.c:78-135 | in such a run, for the step a that ended a client's replay and the step b that registered it: the client has all it is due exactly when no step from a to b listed a line and none was sent out but not yet listed at b |
| ChatSeparateRuns.RosterIsExact | task13/chat/src/server.c:147-164 | in such a run what a registered client took and has pending, with the announcement still due to it, rebuilds the server's online members; while the membership thread waits nothing is due |
| ChatSeparateRuns.LeaveFindsItsMember | task13/chat/src/server.c:66-70 | in such a run the number a leave frame gives is that of an online member |
| ChatSeparateRuns.ClosesWhenNobodyIsLeft | task13/chat/src/server.c:85-89 | in such a run the counter is the number of online members, and the list is given up exactly when there is none |
| ChatOverlappingParses.ReachableWhole | task13/chat/src/server.c:61-137 | in every run of undisturbed whole parses, until it faults: a line in hand goes on at its own remainder, or a member frame was begun since and the saved position is at the end of that frame |
| ChatOverlappingParses.FaultsIffFrameTaken | task13/chat/src/server.c:129-131 | at that granularity the second call for a line gets null exactly when the history variable `taken` is set, and the line otherwise |
| ChatOverlappingParses.TakenMeans | task13/chat/src/server.c:65-120 | in any run `taken` is set exactly when the first call for a member frame was made since the first call for the line |
| ChatOverlappingParses.LineIsLostIffFrameBegun | task13/chat/src/server.c:120-131 | at that granularity the server ends on a line it has sent to everybody exactly when such a call was made in between |
| ChatOverlappingParses.AppendsWhatWasSent | task13/chat/src/server.c:130-135 | at that granularity a line that is appended is the line that was sent |
| ChatMixedTokens.TokensCanMix | task13/chat/src/server.c:65-135 | for any nicknames and words u, v, w there is a run in which the newcomer is announced under its name but registered as u with the number v, and the line "u v w" is sent to everybody but listed as w |
| ChatMixedTokens.OverlapBreaksBoth | task13/chat/src/server.c:65-135 | after it a client's frames do not rebuild the server's online members, and its view does not embed into the server's list |
| ChatMixedTokens.LeaveCanMiss | task13/chat/src/server.c:66-70 | after it the leave frame of the client finds no member, so the server writes before the array |
| PipelineSyntax.FirstWord | task12/pipeline_bash/src/main.c:95-121 | a trimmed non-blank piece has a first word |
| PipelineSyntax.WordsToken | task12/pipeline_bash/src/main.c:107-118 | the words of a string are its first token at spaces followed by the words of the remainder |
| PipelineSyntax.MeaningToken | task12/pipeline_bash/src/main.c:86-98 | the commands of a line are those of its first token at bars followed by those of the remainder |
| PipelineSyntax.RenderRoundTrip | task12/pipeline_bash/src/main.c:75-143 | the meaning of a written pipeline is the pipeline |
| Tokeniser.StrtokR | task12/pipeline_bash/src/main.c:86-87 | one call writes at most the terminator behind its token, leaves the remainder readable and unchanged, and splits off exactly the first token |
| Tokeniser.TrimPiece | task12/pipeline_bash/src/main.c:90-93 | the trimmed piece is left in place; nothing from the piece's terminator on changes |
| Tokeniser.SplitArgs | task12/pipeline_bash/src/main.c:105-119 | the inner scan returns the first 15 words and changes nothing behind the piece |
| Tokeniser.ParsePiece | task12/pipeline_bash/src/main.c:90-127 | a piece gives its command, or none if blank, and the outer remainder survives the inner pass |
| Tokeniser.Append | task12/pipeline_bash/src/main.c:121-137 | the command is stored behind the others and the array grows by one exactly when it is full |
| Tokeniser.CutLine | task12/pipeline_bash/src/main.c:76 | the buffer holds the text before the first newline or terminator |
| Tokeniser.Parse | task12/pipeline_bash/src/main.c:75-143 | whatever the buffer holds, the commands are the split-trim-drop-split-keep meaning of its line, and the allocated size exceeds the count |
| Tokeniser.MeaningWellFormed | task12/pipeline_bash/src/main.c:105-126 | every command has 1 to 15 arguments and its first argument as path |
| Tokeniser.TypedPipeline | task12/pipeline_bash/src/main.c:75-143 | a written pipeline typed with its newline is parsed back to itself |
| Pipeline.SetUpChild | task12/pipeline_bash/src/main.c:183-195 | a child ends with its parent's first table, 0 and 1 moved onto its pipes, and no other pipe end, repeated closes included |
| Pipeline.PipelineHandler | task12/pipeline_bash/src/main.c:167-215 | for any number of commands from two on, the parent ends with its first table and child i with the table of position i |
| Pipeline.AllEndsClosed | task12/pipeline_bash/src/main.c:202-215 | once every end counts as closed, the parent's table is the one it started with |
| Pipeline.OneWriterOneReader | task12/pipeline_bash/src/main.c:183-195 | pipe j has exactly one writer, child j on 1, and exactly one reader, child j+1 on 0; the parent holds neither |
| Pipeline.NoStrayDescriptors | task12/pipeline_bash/src/main.c:183-195 | a child's descriptors are those the shell started with; the ends of the pipeline keep the shell's input and output |
| Pipeline.ReaderSeesEnd | task12/pipeline_bash/src/main.c:202-215 | when the writing child is gone nobody alive can write to its pipe |
| WorkerQueue.StepInv | task16_cs_models/producer_consumer/server.c:82-157 | every queue operation keeps order, poison count and the balance of answers |
| WorkerQueue.ReachableInv | task16_cs_models/producer_consumer/server.c:82-157 | that holds in every reachable state, for any number of workers |
| WorkerQueue.PoisonIsASuffix | task16_cs_models/producer_consumer/server.c:152-157 | behind a poison message there are only poison messages |
| WorkerQueue.PoisonIsConserved | task16_cs_models/producer_consumer/server.c:128-130 | once all poison is queued, what is left of it plus the workers it stopped is the number of workers |
| WorkerQueue.TakenInOrder | task16_cs_models/producer_consumer/server.c:101-119 | requests taken, queued and held, in that order, are the requests received |
| WorkerQueue.CleanShutdown | task16_cs_models/producer_consumer/server.c:93-99 | when all workers have stopped the queue is empty and every request received was answered exactly once |
| WorkerQueue.DrainProgresses | task16_cs_models/producer_consumer/server.c:117-157 | after the kill every step of any thread lowers the number of steps left |
| WorkerQueue.DrainNeverStuck | task16_cs_models/producer_consumer/server.c:117-157 | after the kill some step is possible while some worker has not stopped |
| SlotHandshake.ReachableInv | task16_cs_models/parallel_buff/server.c:57-121 | the handshake invariant holds in every reachable state before a kill |
| SlotHandshake.RequestsAreConserved | task16_cs_models/parallel_buff/server.c:71-121 | for each client, requests received are answers sent plus requests in slots plus the one the main thread holds |
| SlotHandshake.SelectedSlotStaysFree | task16_cs_models/parallel_buff/server.c:59-87 | from its selection to the raising of its flag a slot stays free and its worker idle |
| SlotHandshake.WaitingClientsSurvive | task16_cs_models/parallel_buff/server.c:86-87 | no step of the main thread changes a slot whose client is waiting |
| SlotHandshake.AnswersAreGenuine | task16_cs_models/parallel_buff/server.c:116 | a worker about to send holds a complete address that was received and has an answer outstanding |
| SlotHandshake.RescanSkipsSlotZero | task16_cs_models/parallel_buff/server.c:59-68 | a selection that has passed slot 0 never looks at it again and selects another slot |
| SlotHandshake.RaisedSlotIsServed | task16_cs_models/parallel_buff/server.c:103-121 | the worker of a slot with a raised flag can step, and its step takes it on by one stage |
| SlotHandshake.WaitingIsAnswered | task16_cs_models/parallel_buff/server.c:103-121 | with at most three steps of its own the worker of a waiting client's slot has answered that client, whatever the other threads do |
| SlotHandshake.WaitingSlotIsFreed | task16_cs_models/parallel_buff/server.c:103-121 | with at most four it has lowered the flag, the slot unchanged until then |
| GrowableArray.Data.constructor | task13/chat/src/data.c:6-14 | an empty list of capacity 1 |
| GrowableArray.FirstIndex | task13/chat/src/data.c:44-51 | the first entry with that id, or -1 exactly when no entry has it |
| GrowableArray.Data.Grow | task13/chat/src/data.c:21-29 | doubling keeps the entries and copies as many as there were |
| GrowableArray.Data.Add | task13/chat/src/data.c:20-34 | the list grows by the entry at its end; the size stays within a capacity that is a power of two |
| GrowableArray.Data.Find | task13/chat/src/data.c:44-51 | the loop returns the first index with that id, or -1 |
| GrowableArray.Data.RemoveAt | task13/chat/src/data.c:38-41 | the shifting loop removes exactly the entry at that index |
| GrowableArray.Data.Delete | task13/chat/src/data.c:36-42 | exactly the first entry with a present id is removed, the others keep their order |
| GrowableArray.Data.CopiesAreAmortised | task13/chat/src/data.c:21-29 | all growths together copied capacity - 1 entries, fewer than two per add once there was one |
| DirectorySpec.FirstNamed | task4/abonent_directory.c:39-50 | the first entry with that name, or -1 exactly when there is none |
| Sequences.IndexOfMeans | task13/chat/src/data.c:44-51 | the one search all lists are specified by: the first index from a given one that holds the key, or -1 exactly when none does |
| LinkedDirectory.Directory.constructor | task6/DM_abonent_directory.c:8-13 | the empty list is well linked |
| LinkedDirectory.Directory.CellAdd | task6/DM_abonent_directory.c:29-57 | appends the entry in a new cell, keeps the links inverse and the count right, and refuses the 101st |
| LinkedDirectory.Directory.CellSearch | task6/DM_abonent_directory.c:59-69 | the first cell with that name, or null if there is none |
| LinkedDirectory.Directory.CellRemove | task6/DM_abonent_directory.c:86-115 | null changes nothing; a listed cell is taken out of exactly its position, wherever it is, and the list stays well linked; when the only cell goes, `tail` still points at it |
| LinkedDirectory.Unlinked | task6/DM_abonent_directory.c:89-109 | relinking the neighbours of a cell leaves the others mutually linked |
| LinkedDirectory.Directory.DirFree | task6/DM_abonent_directory.c:71-84 | releases every listed cell once and leaves an empty list |
| LinkedDirectory.Directory.DeleteNamed | task6/main.c:41-49 | removes the first entry with that name, if any |
| ArrayDirectory.Directory.FindIndex | task4/abonent_directory.c:39-50 | the first matching slot from an index on, or -1, over all hundred slots |
| ArrayDirectory.Directory.AddEntry | task4/abonent_directory.c:73-99 | appends unless full; slots behind the count stay blank |
| ArrayDirectory.Directory.RemoveSlot | task4/abonent_directory.c:115-122 | clearing and shifting removes exactly that entry and leaves a blank slot behind the rest |
| ArrayDirectory.Directory.DeleteNamed | task4/abonent_directory.c:102-122 | removes the first entry with that name, if any |
| ArrayDirectory.Directory.Search | task4/abonent_directory.c:130-143 | the loop ends having printed every match, in order; it says there is none exactly when nothing was printed |
| ArrayDirectory.MatchesAreAllMatches | task4/abonent_directory.c:130-143 | the printed indices are all matching ones, strictly increasing |
| ArrayDirectory.BlanksNeverMatch | task4/abonent_directory.c:39-50 | searching the blank slots too finds what searching the entries finds |
| ArrayDirectory.RunBoth | task4/abonent_directory.c:72-122 | given the same commands, array directory and linked directory go through the same entries |
| EndpointCounters.List.constructor | task_echo/src/list.c:4-10 | the empty list after no calls |
| EndpointCounters.List.Find | task_echo/src/list.c:12-21 | the node of that endpoint, or null exactly when it has none |
| EndpointCounters.List.Append | task_echo/src/list.c:38-45 | a new node with count 1 is linked behind the tail; the others keep their counts |
| EndpointCounters.List.AddEndpoint | task_echo/src/list.c:23-50 | after any trace of calls the result is the number of adds of the endpoint since its last switch-off, this call included |
| EndpointCounters.List.SwitchOffEndpoint | task_echo/src/list.c:52-58 | the endpoint counts from zero again; an unknown endpoint changes nothing |
| EndpointCounters.List.Kill | task_echo/src/list.c:60-68 | each node is read and then released, from the first to the last |
| EndpointCounters.List.KillIsSafe | task_echo/src/list.c:60-68 | so every node is released, and none is read or released again after its release |
| EndpointCounters.List.KeysAreUnique | task_echo/src/list.c:23-50 | no endpoint has two nodes and `size` is the number of distinct endpoints ever added |
| EndpointCounters.OneMoreCall | task_echo/src/list.c:23-58 | what one more call does to the number of adds since the last switch-off |
| EndpointCounters.LastOff | task_echo/src/list.c:52-58 | the position of the endpoint's last switch-off: none follows it |
| EndpointCounters.ArrivalsMean | task_echo/src/list.c:37-46 | the nodes' endpoints are those ever added, each once |
| Spiral.Snail | task2/snail_matrix.c:19-42 | the loop ends with every cell holding its number, the cells having been written in the order 1 to n*n |
| Spiral.CellOfVal | task2/snail_matrix.c:22-42 | every cell holds a number in 1..n*n, and that number leads back to the cell |
| Spiral.ValOfCell | task2/snail_matrix.c:22-42 | every number in 1..n*n has a cell that holds it |
| Spiral.EachCellOnce | task2/snail_matrix.c:22-42 | the writes visit every cell exactly once |
| Spiral.ConsecutiveAdjacent | task2/snail_matrix.c:22-42 | consecutive numbers stand in side-adjacent cells |
| Spiral.RingStart | task2/snail_matrix.c:22-26 | ring k starts at its corner with 1 + 4*k*(n-k) |
| Spiral.Sides | task2/snail_matrix.c:23-40 | the numbers along the four sides of a ring |
| Checksum.ComputeCheckSum | task16_ether_header/client.c:30-48 | the loop, odd last byte included, computes the deferred-carry checksum, which up to 131076 bytes is the one's complement checksum |
| Checksum.DeferredCarriesAgree | task16_ether_header/client.c:44-47 | two folds of the plain sum are the complement of word-by-word end-around-carry addition |
| Checksum.AgreesUpToTheLimit | task16_ether_header/client.c:30-48 | for a given length they agree on all buffers exactly when the length is at most 131076 |
| Checksum.StoredCheckSumVerifies | task16_ether_header/client.c:81-92 | storing the checksum in a zeroed word makes the recomputed checksum 0 |
| Checksum.HeaderVerifies | task16_ether_header/client.c:81-92 | the same for a two-byte field of a header in either byte order |
| Checksum.SingleWordChange | task16_ether_header/client.c:30-48 | a recomputed 0 survives a change of one word only between 0 and 0xFFFF |
| Checksum.ByteOrderIndependence | task16_ether_header/client.c:34-47 | swapping the bytes of every word swaps those of the checksum |
| Checksum.BigIsSwappedLittle | task16_ether_header/client.c:34-42 | reading a buffer, odd lengths included, in the other byte order swaps every word |
| Shelves.StepInv | task11/task11.3/main.c:30-113 | every lock, read, write and unlock of any thread keeps the invariant |
| Shelves.ReachableInv | task11/task11.3/main.c:30-130 | the invariant holds in every reachable state, for any number of customers |
| Shelves.GoodsAreConserved | task11/task11.3/main.c:12-46 | shelves plus goods taken are 2500 plus 500 per load; each customer's taken plus need is constant; shelves and needs are non-negative multiples of 500 |
| Shelves.ShelvesAreExclusive | task11/task11.3/main.c:30-38 | no two customers hold the mutex of one shelf |
| Shelves.LoaderIsAlone | task11/task11.3/main.c:30-46 | no customer holds the mutex of a shelf while the loader does |
| Shelves.LoaderLeavesLast | task11/task11.3/main.c:125-129 | when the loader has stopped every customer has all it wanted, and the loads balance exactly |
| Shelves.FinishedRunHadFiftyFiveLoads | task11/task11.3/main.c:48-51 | a finished run with three customers wanting 10000 to 12000 had at least 55 loads |
| Shelves.NeverStuck | task11/task11.3/main.c:115-130 | until the program has finished some thread can take a step |
| Shelves.HolderProgresses | task11/task11.3/main.c:30-46 | whoever holds a mutex can step, and each step of its own is one of the at most five that end with its release |
| Shelves.CustomersAreServed | task11/task11.3/main.c:48-80 | a customer that has not stopped can step, or waits for a mutex whose holder, customer or loader, can |
| SharedCounter.StepInv | task11/task11.2/mutex.c:9-22 | every lock, test, read, write and unlock keeps the invariant, with either test |
| SharedCounter.ReachableInv | task11/task11.2/mutex.c:9-34 | the invariant holds in every reachable state |
| SharedCounter.NeverPastTheLimit | task11/task11.2/spinlock.c:9-23 | the counter never passes the limit, with either test |
| SharedCounter.OneThreadInside | task11/task11.2/mutex.c:12-18 | at most one thread is between lock and unlock |
| SharedCounter.StoppedMeansDone | task11/task11.2/mutex.c:13-16 | when a thread has stopped the counter is the limit |
| SharedCounter.TestsAgree | task11/task11.2/spinlock.c:13 | the program testing `==` has exactly the runs of the program testing `>=` |
| SharedCounter.StepsTaken | task11/task11.2/mutex.c:11-19 | the steps of a run are five per addition plus what the threads are ahead |
| SharedCounter.EveryRunEnds | task11/task11.2/mutex.c:24-34 | a run has at most five steps per number and three per thread; a finished one has just that many and the counter is the limit |
| SharedCounter.NeverStuck | task11/task11.2/mutex.c:11-19 | while some thread has not stopped some thread can step |
| MapReduce.ReachableInv | task11/task11.2/mapreduce.c:7-29 | cells stay within their share and the joined threads' cells are summed, in every reachable state |
| MapReduce.SumIsTheLimit | task11/task11.2/mapreduce.c:23-29 | the final sum is the limit less the remainder, so the limit exactly when the number of threads divides it |
| MapReduce.TooManyThreadsNeverStop | task11/task11.2/mapreduce.c:11-15 | with more threads than numbers to count no thread stops |
| MapReduce.EveryRunEnds | task11/task11.2/mapreduce.c:11-29 | with at least one number per thread a run has at most (2 + 2 * share) steps per thread, and one that has joined them all has just that many |
| MapReduce.NeverStuck | task11/task11.2/mapreduce.c:23-29 | until all threads are joined some thread or the main thread can take a step |
| MapReduce.Sequential | task11/task11.2/sequential.c:4-11 | the simple loop ends with the limit |

## Left out

- task14/chat: the shared-memory variant of the chat, whose publishing is not atomic.
- Sockets, `select`, signals, ncurses, printing, failures of `malloc`, `fork`, `exec` and sends, error returns of `msgrcv`, the bound `MSGLEN` and the capacity of the queue.
- Chat timing: whether a blocked message thread is woken at shutdown, and a client whose reader takes its own exit frame before it has seen the flag; exit is modelled as ceasing to read. The start of the threads and `data_init` are before the first state.
- ChatAtomic.NoFault: handler bodies do not overlap there, so neither do their parses; `ChatSeparateRuns` and `ChatOverlappingParses` treat single `strtok` calls.
- ChatInterleaved.StepInv: each frame is parsed in private, so the position the two threads share is missing; `ChatSeparateParses.StepSeparate` says for which steps of the server it holds.
- ChatInterleaved.ReachableInv: frames are parsed in private; it holds for the runs of the server that `ChatSeparateRuns.SeparateRunsRefine` names.
- ChatInterleaved.SeenIsHistoryThenLive: with private parses only; `ChatSeparateRuns.SeenIsHistoryThenLive` states it for the server.
- ChatInterleaved.SeenIsASubsequence: with private parses only; `ChatSeparateRuns.SeenIsASubsequence` states it for the server, `ChatMixedTokens.OverlapBreaksBoth` that it fails when parses overlap.
- ChatInterleaved.CompleteIffNothingFellBetween: with private parses only; `ChatSeparateRuns.CompleteIffNothingFellBetween` states it for the server.
- ChatRosters.StepRosters: frames are parsed in private; `ChatSeparateParses.StepSeparate` says for which steps of the server it holds.
- ChatRosters.ReachableRosters: frames are parsed in private; it holds for the runs `ChatSeparateRuns.SeparateRunsRefine` names.
- ChatRosters.RosterIsExact: with private parses only; `ChatSeparateRuns.RosterIsExact` states it for the server, `ChatMixedTokens.OverlapBreaksBoth` that it fails when parses overlap.
- ChatRosters.LeaveFindsItsMember: with private parses only; `ChatSeparateRuns.LeaveFindsItsMember` states it for the server, `ChatMixedTokens.LeaveCanMiss` that it fails when parses overlap.
- ChatRosters.ClosesWhenNobodyIsLeft: with private parses only; `ChatSeparateRuns.ClosesWhenNobodyIsLeft` states it for the server.
- ChatMixedTokens.OverlapBreaksBoth: exhibits one order of calls, for any names and words; it does not say that every overlap does harm, which would be false, since the words of a frame and of a line may happen to agree.
- Looking up an author's name for display (task13/chat/src/client.c:209), which may miss a member a late joiner never learned.
- The kill path of `parallel_buff`, where a worker can overwrite the stop value; the slot theorems hold before a kill.
- WorkerQueue.StepInv: the pool size is a parameter, while `thread_killer` always sends three messages, the size of the program's pool.
- Pipeline.PipelineHandler: a pipeline of fewer than two commands is not covered; an empty line reaches the C function with count 0.
- GrowableArray.Data.Delete: deleting an id that is not present is not covered; the C code then reads before the array.
- The field widths of the directories' strings and their `scanf` input; names are any non-empty strings in the array directory and any strings in the linked one.
- Releasing memory is modelled only where a walk over a list does it (`DirFree`, `Kill`).
- MapReduce.TooManyThreadsNeverStop: integers are unbounded, so what a C compiler makes of the overflow of the cell is not covered.
- Shelves and the counters: `sleep`, `rand` and printing; the choices are arbitrary instead.
- task9/fake_mc, task_drivers, task1, task3, task7, task8, the other matrix and array exercises and the simple client/server pairs: single loops or straight-line code that would add only easy members.
