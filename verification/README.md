# Concurrency exercises in C, modelled in Dafny

Six small concurrent programs of the repository, each as a step system with theorems over all
interleavings, and as an imperative program proved to perform those steps.

- **Producer/consumer** (`tid/prod_cons.c`): any number of threads, a mutex and a condition variable
  around a linked stack. `ProdConsSteps` is the step system (one action is one statement of one
  thread; thread creation may happen at any time); `ProdConsSafety` has mutual exclusion and node
  ownership, `ProdConsHistory` linearisability and conservation, `ProdConsProgress` the wake-up
  invariant, termination and the possible end states, `ProdConsOutcome` the clean end of the
  program. `ProdConsInvariant` puts these together and says what each statement means under them, and
  `ProdConsProgram` is the program, whose statements keep that invariant. The five iterations of the
  source are an arbitrary `n`.
- **Command loop** (`tidpid/procon1.c`, workers also in `tidpid/procon.c`): `CommandHistories` runs
  the same step system one joined worker at a time and proves the bracket-matching and completion
  theorems (`Brackets` has the brackets). `ProconSpec` is the loop on values. `ProconThreads` is main
  with its workers, the registries and the counters `P` and `C` as one step system; `ProconAgreement`
  proves that list, registries, print-outs and replies of every interleaving of it are those of the
  loop on values. `ProconProgram` is the loop with its heap list and registry arrays.
- **UDP chat roster** (`socket/s.c`): `RosterSpec` on values, `RosterServer` on the heap.
- **Message-queue chat** (`pid/pipemsg/pro2.c`): `ChatQueue` is the step system of all readers and
  senders, `ChatProcess` the processes with their byte buffers, alone and all together on the queue.
- **TCP client table** (`socket/more_tcp/t2s.c`): `ClientTable` is the step system, `ClientServer`
  the array, the counter and the loops.
- **Mutex-protected counter** (`tid/pth_mutex.c`): `SharedCounter`, with load and store split.

Conventions. Addresses of nodes are numbers and `malloc` may return any address not in use, so freed
addresses come back. A wait releases the lock and blocks in one step, a signal wakes at least one
sleeper if there is one, and sleepers may wake without a signal (POSIX.1-2017, System Interfaces,
`pthread_cond_wait` and `pthread_cond_signal`). Whether the k-th send of a server succeeds is a
function parameter `accepts`. Received datagrams, texts, drawn numbers, allocated addresses and the
choice of the next thread are inputs. Allocation is assumed to succeed.

Three promises of the programs are false, and the exact condition is proved. The id written for a
create command is the new thread's if and only if that thread has entered it and not yet left
(`ProconThreads.ReportedId`, with a run in `ProconThreads.ReportedTooEarly`). A chat reader prints a
message of another group whenever its group number is 0 or negative (`ChatQueue.GroupsAreSeparate`,
with the run in `ChatQueue.ForeignMessagePrinted`). A chat text of 90 characters or more depends on
bytes the reader never receives (`ChatQueue.TextArrives`).

## Model

| member | source | states |
|---|---|---|
| ProdConsSafety.SafeStep | tid/prod_cons.c:19-31 | Every enabled action keeps lock ownership, the chain from `head`, what each thread knows, unshared hands and the absence of leaks |
| ProdConsSafety.ControlStep | tid/prod_cons.c:25-28 | Every action keeps: a thread is between lock and unlock exactly when the lock names it |
| ProdConsSafety.MutualExclusion | tid/prod_cons.c:39-44 | In every interleaving of any number of threads at most one is between lock and unlock |
| ProdConsSafety.NoInvalidAccess | tid/prod_cons.c:42-46 | No statement goes through a null or freed pointer and nothing is freed twice, although freed addresses are reused |
| ProdConsSafety.OneOwner | tid/prod_cons.c:21-27 | An allocated node is in the chain exactly once or in exactly one thread's hand, and nobody owns a freed one |
| ProdConsSafety.ChainUnique | tid/prod_cons.c:5-11 | Following `next` from `head` gives one finite list, so the auxiliary `chain` is that list |
| ProdConsHistory.Linearizable | tid/prod_cons.c:25-28 | In every interleaving the pushes and pops, ordered by the assignments to `head`, are a legal LIFO history ending in the content of the list, and each thread's lines are its own operations in order |
| ProdConsHistory.ContentStep | tid/prod_cons.c:42-43 | One action changes the list as the sequential stack does with the operation it records |
| ProdConsHistory.TracedStep | tid/prod_cons.c:21-30 | A producer has printed what it pushed plus its hand, a consumer has popped what it printed plus its hand, and the loop counters count them |
| ProdConsHistory.Conservation | tid/prod_cons.c:45-46 | In every reachable state each value was produced as often as it was consumed, is on the stack and is in hands |
| ProdConsProgress.NoWakeupIsLost | tid/prod_cons.c:40-41 | While a consumer sleeps, the stacked nodes are at most the producers between push and signal plus the awake consumers that have still to pop; a node and a sleeper imply a thread that can act |
| ProdConsProgress.NoLostWakeupNotify | tid/prod_cons.c:29 | A signal sent after the unlock keeps that bound, since it wakes at least one sleeper |
| ProdConsProgress.NoLostWakeupRun | tid/prod_cons.c:39-44 | Every other statement keeps the bound |
| ProdConsProgress.BalancedStep | tid/prod_cons.c:25-28 | The length of the list is always pushes minus pops |
| ProdConsProgress.MeasureStep | tid/prod_cons.c:37-48 | Every step but a spurious wake-up lowers a measure in which re-waits are charged to the remaining signals |
| ProdConsProgress.RunsAreBounded | tid/prod_cons.c:19-48 | Once all threads exist, every run is at most as long as the measure plus four steps for each spurious wake-up |
| ProdConsProgress.CanMove | tid/prod_cons.c:25-44 | A thread that neither sleeps nor has finished can take a step when no other thread holds the lock |
| ProdConsProgress.Outcome | tid/prod_cons.c:50-60 | A reachable state where only spurious wake-ups are possible has all threads finished if and only if there are at least as many producers as consumers (or no items); otherwise the list is empty and a consumer sleeps |
| ProdConsProgress.Finish | tid/prod_cons.c:57-58 | From every reachable state some run without spurious wake-ups ends in such a state |
| ProdConsOutcome.EndsClean | tid/prod_cons.c:50-60 | With as many producers as consumers every run ends with all threads finished, `head` NULL, every node freed, and each value consumed as often as produced |
| ProdConsProgram.Program.Interleave | tid/prod_cons.c:15-60 | Under any scheduler the program reaches a state of the step system and keeps, after every statement, mutual exclusion, node ownership, the wake-up bound, the program order of each thread and a legal LIFO history |
| ProdConsProgram.Program.Perform | tid/prod_cons.c:15-49 | Every action keeps that invariant, and the stack changes exactly as a sequential LIFO stack does under the operations the action records |
| ProdConsProgram.Program.Make | tid/prod_cons.c:21-24 | Whatever free address is allocated, the new node is in this thread's hand alone and not on the stack, and its number is the next one this thread has printed |
| ProdConsProgram.Program.LinkNode | tid/prod_cons.c:26 | The thread's own node now leads a well-formed list ahead of the stack, which is unchanged, and no other node is written |
| ProdConsProgram.Program.PublishNode | tid/prod_cons.c:27 | The last number this thread printed is pushed on the stack, and all it has printed is then pushed |
| ProdConsProgram.Program.PthreadMutexLock | tid/prod_cons.c:25 | The thread, a woken waiter included, then owns the lock and no other thread is in a critical section |
| ProdConsProgram.Program.PthreadMutexUnlock | tid/prod_cons.c:28 | No thread is then in a critical section, and the stack is as it was |
| ProdConsProgram.Program.PthreadCondSignal | tid/prod_cons.c:29-30 | If anybody slept, somebody is woken, and nobody falls asleep |
| ProdConsProgram.Program.TestHead | tid/prod_cons.c:40 | The thread goes on to wait exactly when the stack is empty, and otherwise to take |
| ProdConsProgram.Program.PthreadCondWait | tid/prod_cons.c:41 | Only on an empty stack; the thread sleeps and leaves nobody in a critical section |
| ProdConsProgram.Program.WakeSpuriously | tid/prod_cons.c:41 | Exactly one sleeper less, and the invariant survives it |
| ProdConsProgram.Program.TakeHead | tid/prod_cons.c:42 | There is a top node, and it is what the thread takes |
| ProdConsProgram.Program.AdvanceHead | tid/prod_cons.c:43 | Exactly the top number leaves the stack, as this thread's latest pop, and the node is in this thread's hand alone |
| ProdConsProgram.Program.FreeNode | tid/prod_cons.c:45-47 | The freed node was on no chain and in no other hand, it alone leaves the heap, and all this thread has popped is then printed |
| ProdConsProgram.Program.PthreadCreate | tid/prod_cons.c:55-56 | A thread is added, at any time, that has done nothing yet |
| ProdConsProgram.Program.constructor | tid/prod_cons.c:11-13 | The globals start empty and unlocked, and the invariant holds |
| CommandHistories.ProducerEffect | tidpid/procon1.c:26-44 | A joined producer leaves its `n` printed numbers, last on top, on what it found, in every interleaving |
| CommandHistories.ConsumerEffect | tidpid/procon1.c:46-64 | A joined consumer has printed the top `n` items of what it found, in order |
| CommandHistories.AloneExec | tidpid/procon1.c:85-90 | Between a create command and its join only the new thread acts |
| CommandHistories.Matching | tidpid/procon1.c:83-100 | For every history of create commands that runs to completion, each consumer has printed exactly the `n` items of the producer it closes, last produced first |
| Brackets.MatchesUnique | tidpid/procon1.c:83-100 | A consumer closes at most one producer |
| Brackets.OpenIsOpen | tidpid/procon1.c:83-100 | The p-th entry of the list of open producers is a producer with p unclosed ones after it |
| CommandHistories.StackLength | tidpid/procon1.c:51-58 | Between commands the list holds `n` items for each producer more than consumers, and every prefix is balanced |
| CommandHistories.Completion | tidpid/procon1.c:83-100 | A history can run to completion if and only if every prefix has at least as many producers as consumers |
| CommandHistories.JoinNeverReturns | tidpid/procon1.c:54-55 | The join of a consumer that closes nothing returns in no continuation, spurious wake-ups included, and all the while the list stays empty and the consumer prints nothing |
| CommandHistories.JoinReturns | tidpid/procon1.c:90-99 | In every other case a run that cannot go on, but for spurious wake-ups, has finished the worker |
| CommandHistories.JoinIsBounded | tidpid/procon1.c:90-99 | Every run during a join is at most as long as a measure of its first state plus four steps for each spurious wake-up |
| ProconSpec.LoopAgreesWithThreads | tidpid/procon1.c:78-100 | Whatever the interleaving of the workers of a request log, list and print-outs are those of the sequential loop on that log |
| ProconThreads.Registers | tidpid/procon1.c:26-64 | In every state of every run of main and its workers, with at most 1024 of each kind, P and C count the workers that have left, and the entries below them are their ids in creation order; while main reads, these are all workers created |
| ProconThreads.KeptStep | tidpid/procon1.c:28-43 | Every step of main or a worker keeps each registry: counter the workers that left, slots the ids of those that entered, zeros after them |
| ProconThreads.LinesCarryTheirIds | tidpid/procon1.c:35-59 | Every printed line carries the id of the thread that prints it, although it is read from the registry slot at a shared counter |
| ProconThreads.ReportedId | tidpid/procon1.c:86-89 | The id written for a create command is the new worker's if and only if the worker has entered and not yet left by then; otherwise it is zero |
| ProconThreads.ReportedTooEarly | tidpid/procon1.c:86-89 | A run in which main writes zero, since the new thread has not started |
| ProconThreads.OrderlyStep | tidpid/procon1.c:85-90 | Whatever the scheduler does, only the worker that main waits for has not left |
| ProconAgreement.RepliesAreOwed | tidpid/procon1.c:120-139 | In every run the replies are those the loop on values owes to the requests read |
| ProconAgreement.RepliesInPlace | tidpid/procon1.c:120-149 | In every run every request is answered in its turn: a list command, position by position, with the ids of exactly the workers of its kind created before it, in creation order; an unknown command with one reply; any other with none |
| ProconThreads.IdsAre | tidpid/procon1.c:123-138 | The ids of the workers of a kind are those at an increasing list of positions, which holds exactly these workers |
| ProconAgreement.Histories | tidpid/procon1.c:85-99 | Every run of main and its workers is a history in which each worker runs from its creation to its join, so the theorems on histories hold of it |
| ProconAgreement.EveryHistoryHappens | tidpid/procon1.c:78-100 | Conversely, whatever the requests and whatever the actions of the workers in their turns, spurious wake-ups included, some run of main and its workers goes through them |
| ProconAgreement.LoopAgrees | tidpid/procon1.c:78-151 | In every run list, registries, print-outs and replies are those of the sequential loop while main reads and after it has exited, and also all the while it waits in a join that never returns |
| ProconAgreement.JoinGoesOn | tidpid/procon1.c:85-99 | In any other join some step other than a spurious wake-up is always possible until main reads again |
| ProconProgram.Procon.constructor | tidpid/procon1.c:20-24 | The globals start empty |
| ProconProgram.Procon.Push | tidpid/procon1.c:33-38 | A new node with the given number becomes the head of the list |
| ProconProgram.Procon.Pop | tidpid/procon1.c:56-59 | The first number is removed and returned |
| ProconProgram.Procon.Produce | tidpid/procon1.c:31-42 | The loop puts the numbers on the list, the last one first |
| ProconProgram.Procon.Consume | tidpid/procon1.c:51-62 | The loop takes `n` numbers off the front, or all of them and then waits |
| ProconProgram.Procon.Producer | tidpid/procon1.c:28-44 | The id is entered in slot P, and P counts it when the loop ends |
| ProconProgram.Procon.Consumer | tidpid/procon1.c:48-64 | The id is entered in slot C, and C counts it only if the loop ends |
| ProconProgram.Procon.List | tidpid/procon1.c:123-128 | One reply for each entry below the counter is added, position by position in the order of the array |
| ProconProgram.Procon.CreateAConsumer | tidpid/procon1.c:92-100 | The join returns if the list was long enough, otherwise the loop hangs |
| ProconProgram.Procon.Execute | tidpid/procon1.c:83-149 | One command changes list, registries, replies and status as the loop on values says; a list command writes its own registry entry by entry, an unknown one a single reply, and only exit ends the loop |
| ProconProgram.Procon.Serve | tidpid/procon1.c:78-151 | The loop on any commands, with at most 1024 workers of each kind, ends in the state of the loop on values |
| RosterSpec.RosterIsStanding | socket/s.c:177-188 | After any datagrams the roster is exactly the logins not followed by a quit from their address, newest first |
| RosterSpec.Multiplicity | socket/s.c:39-47 | An address is in the roster once for each login since its last quit |
| RosterSpec.Delivered | socket/s.c:49-111 | Over any run each datagram of type L, B or Q, and no other, reaches every address once per standing login of it, never its own sender, in order; an address without a login gets nothing |
| RosterSpec.TextIsDelivered | socket/s.c:69-85 | A B datagram, if no send fails, adds to the inbox of every other address as many copies as it has standing logins, and leaves the roster as it was |
| RosterSpec.OthersAreIgnored | socket/s.c:177-188 | A datagram of any other type changes nothing |
| RosterSpec.InboxIs | socket/s.c:59-77 | The inbox of an address is every message sent to it, in the order of the log |
| RosterSpec.ExitCutsTheLog | socket/s.c:59-63 | With failing sends the process sends exactly the messages of the faultless run before the first failing one, and exits there |
| RosterSpec.ServedStays | socket/s.c:102-106 | Nothing happens after the exit |
| RosterServer.Server.constructor | socket/s.c:30-37 | The list is the sentinel alone |
| RosterServer.Server.InsertData | socket/s.c:39-47 | One fresh node with the address is linked right after the sentinel, all others stay |
| RosterServer.Server.SendToOthers | socket/s.c:69-85 | The message goes to every entry with another address, in list order, up to the first failing send |
| RosterServer.Server.ProcessLogin | socket/s.c:49-67 | The sender is put in front, and every entry with another address is told |
| RosterServer.Server.Unlink | socket/s.c:95-98 | The next node leaves the list and is freed |
| RosterServer.Server.ProcessQuit | socket/s.c:87-111 | On any list, duplicates included, exactly the nodes with another address stay, in order, exactly the others are freed, and one message goes to each survivor in order |
| RosterServer.Server.QuitStep | socket/s.c:91-109 | One pass of the loop keeps the final list, the final freed nodes and the final log |
| RosterServer.Server.Dispatch | socket/s.c:177-188 | L, B and Q datagrams change roster and log as the specification says, other types nothing, and allocations minus frees stay the list length plus one |
| RosterServer.Server.Serve | socket/s.c:168-189 | On any datagrams the heap list and the log are those of the specification |
| RosterServer.KeepAddrs | socket/s.c:93-108 | Filtering nodes and filtering addresses agree |
| RosterServer.KeepCount | socket/s.c:95-98 | Kept and freed nodes together are all nodes |
| ChatQueue.Conservation | pid/pipemsg/pro2.c:52-66 | In every interleaving each message sent successfully is in exactly one place: the queue, one reader's hands or the print-outs, so none is lost and none is printed twice |
| ChatQueue.GenuineStep | pid/pipemsg/pro2.c:60-62 | No number of re-queues alters type, name or text bytes of a message |
| ChatQueue.Exec | pid/pipemsg/pro2.c:52-87 | In every reachable state all queued and held messages are as their senders composed them |
| ChatQueue.PrintedIsProper | pid/pipemsg/pro2.c:60-64 | Everything printed was sent under another name, was selected by the reader's group number, and shows the sender's name |
| ChatQueue.GroupsAreSeparate | pid/pipemsg/pro2.c:54 | A print-out is of the reader's own group if and only if the reader's group number is positive |
| ChatQueue.ForeignMessagePrinted | pid/pipemsg/pro2.c:36 | With group number 0, or a negative one large enough, a foreign message is received and printed |
| ChatQueue.TextArrives | pid/pipemsg/pro2.c:74-78 | A text reads the same for every content of the reader's stale bytes if and only if it is at most 89 characters long |
| ChatQueue.ShortTextsArrive | pid/pipemsg/pro2.c:64 | In every run a text of at most 89 characters is printed exactly as typed, with its sender's name |
| ChatQueue.PrintedInTurn | pid/pipemsg/pro2.c:52-66 | With any other messages in the queue, a free reader with group number 0 or above that goes on prints a message for it after at most as many passes as the message's place in the queue, put-backs included |
| ChatQueue.PassIsTwoSteps | pid/pipemsg/pro2.c:54-64 | A pass of the reader loop is a receive and an answer of the step system |
| ChatQueue.Pick | pid/pipemsg/pro2.c:54 | The receive takes the first message its type argument selects |
| ChatQueue.PickMeans | pid/pipemsg/pro2.c:54 | The receive finds a message exactly when one is for the group: the first of its type for a positive number, the first of all for 0, the first of the lowest type for a negative one |
| ChatQueue.CString | pid/pipemsg/pro2.c:60-64 | The bytes before the first zero byte |
| ChatProcess.ReadString | pid/pipemsg/pro2.c:60-64 | Scanning a buffer for the zero byte yields that string |
| ChatProcess.Reader.Fill | pid/pipemsg/pro2.c:10-15 | A received message overwrites the first 100 bytes and leaves the last ten |
| ChatProcess.Reader.Receive | pid/pipemsg/pro2.c:54 | The struct holds the selected message, which has left the queue |
| ChatProcess.Reader.Deal | pid/pipemsg/pro2.c:60-64 | One's own message goes back unchanged, any other is printed from the struct |
| ChatProcess.Sender.Fgets | pid/pipemsg/pro2.c:74 | A line is stored with its zero byte and the bytes after it stay |
| ChatProcess.Sender.Send | pid/pipemsg/pro2.c:78-80 | 100 bytes are queued under the group number, and refused for one below 1 |
| ChatProcess.Room.constructor | pid/pipemsg/pro2.c:24 | All users start with an empty queue and nothing received |
| ChatProcess.Room.Type | pid/pipemsg/pro2.c:74-78 | On any queue a line typed into the buffer and sent adds exactly one message to the queue and the log for a positive group number, and none otherwise; no message in the queue or in a struct is altered |
| ChatProcess.Room.Take | pid/pipemsg/pro2.c:54 | Receiving into the struct is a receive of the step system on any queue, and leaves the structs of the others as they were |
| ChatProcess.Room.Answer | pid/pipemsg/pro2.c:60-64 | Putting back or printing from the struct is an answer of the step system on any queue |
| ChatProcess.Room.Interleave | pid/pipemsg/pro2.c:50-88 | Under any scheduler queue and print-outs of the processes with their buffers are those of a run that makes every move in its turn; passed over are only lines of over 99 bytes, receives with no queued message for the reader, and answers of readers that hold none |
| ChatProcess.EveryLineIsSent | pid/pipemsg/pro2.c:74-78 | Under any scheduler the messages sent are exactly the lines of at most 99 bytes that users with a positive group number have typed, one for each, in order |
| ChatProcess.BlockedOrNot | pid/pipemsg/pro2.c:54 | A reader waits only while it holds a message or no queued message is for it, a typed line of at most 99 bytes never waits |
| ChatProcess.LinesArriveAsTyped | pid/pipemsg/pro2.c:60-78 | Under any scheduler every line printed was typed by the user under whose name it is shown, and it is shown byte for byte if it has at most 89 characters |
| ClientTable.TableIsServingClients | socket/more_tcp/t2s.c:41-54 | In every interleaving the entries have pairwise distinct open descriptors and are exactly the serving clients; a leaving thread always finds its client |
| ClientTable.OpenUntilClosed | socket/more_tcp/t2s.c:54 | After any run the open descriptors, with the names of their clients, are exactly those registered with no close since |
| ClientTable.DescriptorsComeBack | socket/more_tcp/t2s.c:41-54 | From every reachable state a client in the table can leave, and after its removal, announcement and close any client can register on the same descriptor, even if the table was full |
| ClientTable.CanCome | socket/more_tcp/t2s.c:96-110 | In every reachable state with less than 100 entries any client can register on any descriptor that is not open |
| ClientTable.CanSpeak | socket/more_tcp/t2s.c:40-57 | In every reachable state every client in the table can send any text |
| ClientTable.CanGoOn | socket/more_tcp/t2s.c:53-54 | A thread on its way out is never held up, whatever the others do |
| ClientTable.TableIsRegisteredMinusDeparted | socket/more_tcp/t2s.c:96-110 | After any run the table is exactly the clients that registered and have not been removed |
| ClientTable.DropDeletes | socket/more_tcp/t2s.c:43-50 | Moving the last entry into the gap deletes exactly the client, as from a set |
| ClientTable.OthersOnce | socket/more_tcp/t2s.c:24-25 | The addressees of a broadcast are all clients but the sender, once each |
| ClientTable.OthersInOrder | socket/more_tcp/t2s.c:24-25 | The addressees are in the order of the table |
| ClientTable.BroadcastReaches | socket/more_tcp/t2s.c:21-32 | A broadcast sends the message to the first addressees in table order: to all of them if every send succeeds, otherwise up to the first failing send, which is the last one tried |
| ClientTable.Announces | socket/more_tcp/t2s.c:105-108 | In every reachable state an arrival, a text and a departure add to the log exactly one message for every other client and none for anybody else, if no send fails |
| ClientTable.WhatIsSaid | socket/more_tcp/t2s.c:38-53 | What is sent is the arrival of the client that registers, a text under the name its sender registered with, or the departure under the name registered on that descriptor; a removal and a close send nothing |
| ClientServer.Server.constructor | socket/more_tcp/t2s.c:16-19 | The table starts empty |
| ClientServer.Server.SendToOthers | socket/more_tcp/t2s.c:21-32 | The loop over the array performs that broadcast |
| ClientServer.Server.Register | socket/more_tcp/t2s.c:96-110 | The slot at `cnt` is filled, the others are told, and the table grows by the client |
| ClientServer.Server.Say | socket/more_tcp/t2s.c:56-58 | A text is broadcast under its sender's name |
| ClientServer.Server.Find | socket/more_tcp/t2s.c:43-44 | The first slot with the descriptor is found, or `cnt` |
| ClientServer.Server.Remove | socket/more_tcp/t2s.c:41-52 | The client's slot takes the last entry and the table shrinks |
| ClientServer.Server.Tell | socket/more_tcp/t2s.c:47-53 | The departure is broadcast after the removal |
| SharedCounter.Serialisable | tid/pth_mutex.c:11-33 | For every interleaving the counter stays in [-n, n] and ends at 0, the `th1:` and `th2:` lines are those of one thread run after the other, and each enter line is printed once, before the values of its thread |
| SharedCounter.EnterLines | tid/pth_mutex.c:11 | In every reachable state a thread has printed nothing before its entry, and afterwards its enter line once, as its first line |
| SharedCounter.ValuesAre | tid/pth_mutex.c:16 | The value lines compared are all those of the output, in order |
| SharedCounter.WaitsOnlyForTheOther | tid/pth_mutex.c:12-19 | In every reachable state a thread that has not finished can go on, unless it waits for the mutex and the other thread is in its loop |
| SharedCounter.InvStep | tid/pth_mutex.c:12-19 | Every load, store, print, lock and unlock keeps the output that of a serial execution so far |
| SharedCounter.Terminates | tid/pth_mutex.c:40-43 | Every run can go on until both threads have finished, after exactly 6n + 6 statements |
| SharedCounter.Program.constructor | tid/pth_mutex.c:6-7 | The counter starts at 0, unlocked |
| SharedCounter.Program.Statement | tid/pth_mutex.c:8-35 | Every statement keeps the output serial so far; the first one prints the enter line; only the owner of the mutex changes the counter, by exactly one from its present value, and only the owner prints it |
| SharedCounter.Program.Interleave | tid/pth_mutex.c:36-45 | Under any complete schedule the program ends with counter 0, both enter lines once and serial values |

## Left out

- The `delete` command of the command loop (`tidpid/procon1.c:101-119`): it acts on thread-specific-data keys.
- ProconThreads.ReportedId: P and the slot are read in one step, and it says nothing once a registry is full, where the C code reads past its array.
- `tidpid/procon.c` has the same workers and joins; it enters ids inside the loops, and its list commands print the address of the array. Neither difference is modelled.
- Registries beyond 1024 workers, a client table beyond 100 entries, chat names longer than 9 characters: the C code writes past its arrays there.
- ProconProgram.Procon.Serve: runs each worker as one piece between its creation and its join; `ProconAgreement.LoopAgrees` shows that all interleavings have the same result.
- CommandHistories.Matching: assumes at least one item per worker (the source has five); with none, consumers print nothing.
- ClientServer.Server.Register: is atomic, like the removal, although the source does not lock these sections; the thread is taken to copy its client when it is created.
- RosterServer.Server.ProcessQuit: after a failing send it says nothing about the list but that it is still a list of old nodes, since the process has exited.
- ProdConsProgram.Program.Interleave: the heap is a map from addresses to cells instead of objects, so that freed addresses can be allocated again.
- ChatQueue.PrintedIsProper: a text buffer without any zero byte is read to the end of the struct only.
- ChatQueue.PrintedInTurn: for group numbers below 0 a message can be overtaken for ever by messages of lower type, and nothing is claimed.
- Queue capacity, the quit dialogue, and delivery order of the message-queue chat: re-queueing reorders messages.
- Sockets, FIFOs, `fork`, `sleep`, signals and C string formatting; sends and prints are log entries.
- `tid/pth_sem.c`, `socket/more_tcp/t1s.c`, `socket/more_tcp/s.c`, `gdb/gbtest.c` and the remaining echo programs, file copiers and fork demos.
