# Warehouse protocol: a verified model

The warehouse is a set of processes that share one memory segment, four System V semaphores and a
message queue. Workers put packages on a circular belt; one dispatcher takes them off and loads
them on the truck at the dock; an express process adds priority batches to the same truck; trucks
dock, wait for a message, leave and come back; an operator's terminal sends departures, express
orders and the stop command. Every process first takes a slot in the session table.

This project models that system in three layers and proves what holds in every interleaving.

* **Values.** `BeltRing`, `SessionTable`, `Docking` and `Ledger` give every critical section as a
  function on values: the ring, the slot table, the dock record. `Ledger` adds a history of all
  dockings, so that conservation can be stated. `Production` has the generators of packages
  and express items.
* **Objects.** `Segment`, `BeltController`, `SessionController`, `DockController` and `Console` are
  the source's classes, with arrays and fields updated in place and the source's own loops. Each
  method that is a critical section is proved equal to its function of the value layer.
* **Processes.** `Protocol` is a transition system. A state is the shared memory, the semaphores,
  the message queues and the program counter of every process. Each lock, unlock, wait, signal,
  send, receive and unlocked read is a separate step, and `login` writes its slot in four steps,
  because the stop scan may see it half done. A critical section first copies the data that its
  mutex guards and later writes what it computed from the copy, so mutual exclusion is not built in
  but proved, and every later proof rests on it (`BeltTheorems.SectionsAreAtomic`). Any number of
  processes of each kind may be started at any time.

`Structure`, `Exclusion`, `ControlFlow`, `Mail`, `Floor`, `Registry`, `Yard`, `Accounts`, `Rejection`,
`Shutdown` and `Programs` each hold one part of the invariant and prove that every step keeps it.
`Safety` joins them: `Safety.RunInv` says that the invariant holds after every run. The modules named
`...Theorems`, with `Winding` and `CommandRuns`, state the results over all reachable states and runs.
`Paths`, `Runs` and `Driving` build runs, from the start and from an arbitrary reachable state; with
them `MassLimit`, `LoadLimit`, `ShutdownLoss`, `StaleMail`, `Stranding`, `Marooning` and `Quiescence` say
exactly when a promise of the source holds. `Crowding` does so for the room on a truck.

Assumptions: numbers are exact; process ids are positive and never reused; a package number does
not overflow; each process logs in once, as the session guards in `src/` do. A wait on a mutex is
not interrupted. Waits on the two counting semaphores and on the message queue may be interrupted
at any time, and then return without a token or a message, as the code does.

Where comments and code differ, the model follows the code:

* `push` says that it enforces the mass limit (`include/Belt.h:144-147`) but does not look at it.
  `MassLimit.MassLimitHoldsExactlyWhen` proves that the limit holds in all runs if and only if the
  belt has at most 40 slots; the configured belt has 10.
* `max_load` is tested only after loading, and a truck that was told to leave can be loaded until it
  reads its message. The counts that occur are exactly those that the truck's volume has room for
  (`LoadLimit.LoadOccursExactlyWhen`), up to 154; the limit of 100 is kept in all runs if and only if
  there is no room for 101 of the smallest packages (`LoadLimit.MaxLoadKeptExactlyWhen`). Express
  does not change `current_load`.
* At shutdown a truck is said to deliver whatever it has on board (`include/Truck.h:104-108`), but
  the test is for more than 0.1 kg. It goes uncounted if and only if it is empty or has a single
  package of exactly 0.1 kg (`ShutdownLoss.ShutdownUncountedExactlyWhen`), and the latter does occur
  (`ShutdownLoss.LossHappens`).
* A departure is meant for the truck at the dock, but a truck takes one message per docking, so that a
  further one sends it away from its next docking. Left to itself, a waiting truck comes to wait on a
  later docking with a message already in its queue if and only if the system runs and it has two
  messages (`StaleMail.StaleExactlyWhen`). The dispatcher alone brings that about, under the lock, with
  one departure for a full truck and another for the next package (`StaleMail.DispatcherSendsTwice`).
  Moreover `handleDepart`, which is said to lock (`include/terminal/TerminalAction.h:73`), takes no lock,
  and can send its message after the truck has docked again (`StaleMail.LateDeparture`). The dock
  theorems hold all the same.
* The stop command is said to end all processes. Every process has a bounded number of steps left
  after it (`Winding.StepsBounded`), so that the warehouse comes to rest in every run
  (`Quiescence.StoppedComesToRest`). Trucks and the express process get their message
  (`ShutdownTheorems.NoLostShutdown`) and exit, but the stop wakes nobody who waits for a semaphore: the
  warehouse stands still exactly when all others have exited (`Quiescence.StillExactlyWhen`). A waiting
  dispatcher is left behind for ever if and only if no package is signalled and no worker has one on
  its way (`Stranding.DispatcherStrandedExactlyWhen`); a waiting worker, if and only if there is no free
  slot, the packages on the belt and the tokens in flight fill it exactly, and nobody can return a
  slot any more (`Marooning.WorkerStrandedExactlyWhen`). Both occur after a complete stop command
  (`Quiescence.StopCanLeaveBehind`).

## Model

| member | source | states |
|---|---|---|
| `BeltRing.AtIsModulo` | include/Belt.h:182 | the conditional step used for ring positions is the source's remainder |
| `BeltRing.EmptyRingOk` | include/Manager.h:127-138 | the zeroed segment is a well-formed ring that stands for the empty queue |
| `BeltRing.PushEnqueues` | include/Belt.h:166-185 | push succeeds exactly when there is room; then the queue gains the package, newly numbered, at its end, and the ring stays well-formed; otherwise nothing changes |
| `BeltRing.PopDequeues` | include/Belt.h:217-232 | pop returns and removes the oldest package of a non-empty queue and keeps the order of the rest; on an empty one it returns the zero package and changes nothing |
| `BeltRing.PushHistory` | include/Belt.h:175-185 | packages are numbered 1, 2, ... in the order of insertion, over all pushes |
| `BeltRing.PopHistory` | include/Belt.h:223-232 | the i-th successful pop returns the package numbered i |
| `BeltRing.WindowWeight` | include/Belt.h:184-185 | the weight counter is the sum over the packages on the belt and at most 25 kg per slot |
| `SessionTable.StrnEqualIsPrefix` | include/SessionManager.h:68-69 | the 31-character comparison with an untruncated name is equality with the truncated name |
| `SessionTable.CStringIsPrefix` | include/SessionManager.h:69 | a C string is the part of the name before its first NUL |
| `SessionTable.StoredIsTruncated` | include/SessionManager.h:94 | a name without NUL is stored as its first 31 characters |
| `SessionTable.DuplicateIsStoredName` | include/SessionManager.h:68-69 | a slot counts as duplicate exactly if it is active and stores what the name would be stored as |
| `SessionTable.FreeSlot` | include/SessionManager.h:76-82 | the result is the first inactive slot, and is missing exactly if all are active |
| `SessionTable.LoginSlot` | include/SessionManager.h:67-89 | login fails exactly if the name is taken or all slots are, and otherwise gets the first inactive slot |
| `SessionTable.LogoutUndoesLogin` | include/SessionManager.h:60-134 | while logged in a name cannot log in again; after logout every later login fares as if nothing had happened, down to the slot it gets |
| `Production.GeneratedExactlyWhen` | include/Worker.h:94-124 | the packages that the random draws can give are exactly those of the three type, volume and weight classes, upper ends of the weight ranges excluded |
| `Production.ExpressExactlyWhen` | include/Express.h:105-122 | the express items that the draws can give are exactly those of at least 1 and less than 15 kg in one of the three volumes |
| `Ledger.ClaimKeeps` | include/Truck.h:58-76 | docking at a free dock keeps the books: an empty truck with limits in range, nothing lost |
| `Ledger.LoadKeeps` | include/Dispatcher.h:101-139 | a load attempt keeps the books: sums match the cargo, both limits hold, a full or refusing truck is called |
| `Ledger.BatchSums` | include/Express.h:108-142 | an express batch adds exactly the weight and volume of the items taken, within the limits, and leaves the package count alone |
| `Ledger.BatchIsLongest` | include/Express.h:124-142 | what is taken of any batch is added and within the limits, and one item more would exceed a limit |
| `Ledger.BatchKeeps` | include/Express.h:108-142 | an express batch keeps the books |
| `Ledger.DepartKeeps` | include/Truck.h:164-178 | a departure of the own truck, loaded or empty, becomes one counted trip with its record and cargo, frees the dock and keeps the books |
| `Ledger.ShutdownKeeps` | include/Truck.h:136-162 | leaving at shutdown turns the cargo into one trip, counted unless it is at most 0.1 kg |
| `Ledger.UncountedTripIsNearlyEmpty` | include/Truck.h:139-156 | a trip that was not counted carried nothing or one belt package of exactly 0.1 kg |
| `Ledger.ShutdownLosesExactly` | include/Truck.h:139-156 | a loaded truck leaves uncounted if and only if its cargo is one item of exactly 0.1 kg |
| `Ledger.LossByRecord` | include/Truck.h:139-156 | the same read off the truck's record: uncounted if and only if it shows an empty truck, or one package and 0.1 kg |
| `Ledger.WeightLeft` | include/Truck.h:139-168 | weight that left the dock, by the trucks' records, is counted weight plus lost weight, and at most 0.1 kg is lost per uncounted trip |
| `Ledger.VolumeLeft` | include/Truck.h:139-168 | the same sum for the volume |
| `Ledger.LoadBound` | include/Dispatcher.h:102-121 | a truck never has more than 154 belt packages |
| `Ledger.RoomAfterOneBatch` | include/Dispatcher.h:101-111 | a truck with at most one express batch and nothing from the belt has room for every package a worker can make |
| `Ledger.NoRoomAfterTwoBatches` | include/Express.h:108-142 | one batch is the most that holds for: after two batches a truck in range can refuse every package |
| `Crowding.RefusalExactlyWhen` | include/Express.h:102-142 | after b express batches and nothing from the belt a truck can refuse a worker's package if and only if b greatest batches and one greatest package exceed its volume or its weight |
| `Crowding.OneBatchIsSafe` | include/Dispatcher.h:101-111 | after at most one batch no truck in range refuses any package a worker can make |
| `Segment.SharedState.constructor` | include/Manager.h:127-133 | the segment that the owner sets up is the initial state of the transition system |
| `Segment.MessageQueue.SendSignal` | include/Manager.h:248-260 | a message is appended to those of its receiver; a non-positive receiver gets nothing |
| `Segment.MessageQueue.Receive` | include/Manager.h:268-288 | the oldest message of the receiver is taken, and no other queue changes |
| `BeltController.Belt.WorkLoadDelay` | include/Belt.h:64-75 | the delay is 500 ms divided by the number of workers, rounded down, and 100 ms without any |
| `BeltController.Belt.RegisterWorker` | include/Belt.h:105-118 | the counter becomes what the value function says; registers exactly if fewer than 100 workers are registered |
| `BeltController.Belt.UnregisterWorker` | include/Belt.h:126-136 | the counter becomes what the value function says and never goes below zero |
| `BeltController.Belt.Push` | include/Belt.h:156-193 | the array ring becomes what the value function says; the queue gains the package at its end exactly if the call succeeds |
| `BeltController.Belt.Pop` | include/Belt.h:209-242 | the array ring becomes what the value function says; the package returned is the front of the old queue |
| `SessionController.SessionManager.FindDuplicate` | include/SessionManager.h:67-74 | the first scan finds a duplicate exactly if one exists |
| `SessionController.SessionManager.FindFree` | include/SessionManager.h:76-82 | the second scan finds the first inactive slot or gives -1 |
| `SessionController.SessionManager.Login` | include/SessionManager.h:60-110 | login succeeds exactly if there is a slot for the name; then this slot, and only this, holds the whole new entry, with the first 31 characters of a name without NUL; otherwise nothing changes |
| `SessionController.SessionManager.Logout` | include/SessionManager.h:117-134 | logout deactivates the object's own slot, clears its rights and count and keeps its name and pid, and touches no other |
| `SessionController.SessionManager.TrySpawnProcess` | include/SessionManager.h:140-152 | granted exactly below the quota, and then counted in the own slot only |
| `SessionController.SessionManager.ReportProcessFinished` | include/SessionManager.h:158-166 | the own slot's count goes down by one but not below zero |
| `SessionController.SessionManager.GetCurrentRole` | include/SessionManager.h:169-173 | the role of the own slot, and no role without a session |
| `DockController.Truck.RandomizeTruckSpecs` | include/Truck.h:58-76 | every field of the record is set; nothing of the previous truck remains |
| `DockController.Truck.TryDock` | include/Truck.h:119-132 | docks exactly at a free dock; an occupied one is untouched |
| `DockController.Truck.LeaveOnShutdown` | include/Truck.h:136-162 | a truck that owns the dock frees it, and is counted exactly if it has more than 0.1 kg; any other changes nothing |
| `DockController.Truck.Depart` | include/Truck.h:164-178 | a truck that owns the dock frees it and is counted, whatever it carries; any other changes nothing |
| `DockController.Truck.CleanUp` | include/Truck.h:186-190 | afterwards this truck is not at the dock; another truck's record is untouched |
| `DockController.Dispatcher.TryLoad` | include/Dispatcher.h:98-141 | the package is loaded if and only if a truck is there and weight and volume fit, and is then added and counted; a departure is sent exactly if the truck refused it or now has its maximal count or at least 99% of its weight or volume |
| `DockController.Express.DeliverExpressBatch` | include/Express.h:83-145 | the loop takes the longest prefix of the batch that fits: it is added, within the limits, and one item more would exceed one; a departure is sent exactly if it stopped early |
| `Console.BroadcastReaches` | include/terminal/TerminalAction.h:123-127 | every process gets one end-of-work message per active slot of its own, behind what it already had, and nothing else |
| `Console.BroadcastTells` | include/terminal/TerminalAction.h:123-127 | a process with an active slot has the message afterwards |
| `Console.FirstNamed` | include/terminal/TerminalAction.h:157-165 | the first active slot with the name, missing exactly if there is none |
| `Console.PidNamed` | include/terminal/TerminalAction.h:157-165 | the pid in the slot of that name that has no earlier one, and -1 without any |
| `Console.TerminalActions.HandleStop` | include/terminal/TerminalAction.h:116-136 | for an administrator the flag is cleared, the terminal closed and the message broadcast; for others nothing happens |
| `Console.TerminalActions.FindProcessByRole` | include/terminal/TerminalAction.h:157-165 | the pid in the first active slot of the name, or -1 |
| `Console.TerminalActions.HandleVip` | include/terminal/TerminalAction.h:46-63 | an operator's order goes to the express process if there is one |
| `Console.TerminalActions.HandleDepart` | include/terminal/TerminalAction.h:80-97 | an operator's order goes to the pid in the dock record if a truck is present |
| `Exclusion.BaseAct` | include/Manager.h:198-240 | every step of every process keeps the mutex counts, the freshness of private copies and the shape of processes |
| `Mail.ProcMail` | include/Manager.h:248-274 | a step only appends to the queues of others and takes at most the head of its own |
| `Mail.SendExactly` | include/Manager.h:248-260 | a message goes behind the others of its receiver, and to nobody else |
| `Mail.ReceiveExactly` | include/Manager.h:268-274 | a receive blocks exactly on an empty queue, takes the oldest message and nobody else's, and that message alone decides what the truck or the express process does next |
| `StepTheorems.MutexWait` | include/Manager.h:198-240 | a wait on a mutex goes through exactly if the mutex is free, and takes it |
| `StepTheorems.CountingWait` | include/Manager.h:198-234 | a wait on a counting semaphore goes through exactly with a token, which it takes, or if it is interrupted, when it takes none |
| `StepTheorems.InterruptedReceive` | include/Manager.h:268-274 | an interrupted receive takes no message; a truck sets out with none, the express process tries again |
| `StepTheorems.LoopsTestRunning` | include/Worker.h:99 | every loop goes on exactly while the system runs and the process was not asked to stop; a truck leaves for the last time exactly on the end of work or after the stop |
| `Floor.FloorAct` | include/Belt.h:156-242 | every step keeps token conservation, the queue history, the worker count and the package classes |
| `Registry.RegistryAct` | include/SessionManager.h:60-166 | every step keeps the correspondence of slots and processes, including logins half done |
| `Registry.OneDispatcher` | src/main_dispatcher.cpp:14-16 | two processes in the dispatcher's loop are the same process |
| `Yard.TruckOccupancy` | include/Truck.h:119-190 | a truck's critical section docks at a free dock, leaves its own, or changes nothing about occupancy |
| `Yard.YardAct` | include/Truck.h:115-193 | every step keeps dock ownership, the books and the pending departures |
| `Accounts.AccountsAct` | include/Dispatcher.h:85-147 | every step keeps the account of all popped packages |
| `Rejection.RejectAct` | include/Dispatcher.h:97-146 | every step keeps the law of rejections |
| `Shutdown.StopAct` | include/terminal/TerminalAction.h:116-136 | every step keeps the shutdown invariant, during and after an unlocked scan |
| `Safety.InitInv` | include/Manager.h:127-138 | the initial state satisfies the invariant for every belt size |
| `Safety.StepInv` | include/Manager.h:198-274 | every step of every process, the start of a process and the master's own stop keep the whole invariant |
| `Safety.RunInv` | include/Manager.h:127-138 | the invariant holds after every run from the initial state |
| `BeltTheorems.TokensConserved` | include/Belt.h:162-240 | empty tokens, full tokens and operations in flight add up to K plus the number of interrupted waits; the package count follows from the full tokens; the ring is well-formed even so |
| `BeltTheorems.PushIsNeverRefused` | include/Belt.h:166-173 | without interrupted waits the "belt full" branch is never taken |
| `BeltTheorems.PopIsNeverEmpty` | include/Belt.h:217-221 | without interrupted waits the "belt empty" branch, and the dispatcher's branch for number 0, are never taken |
| `BeltTheorems.BeltIsFifo` | include/Belt.h:175-232 | in every interleaving the tail is (head + count) mod K, free slots are zeroed, and packages leave in the order of their numbers 1, 2, ... |
| `BeltTheorems.PackagesAccounted` | include/Dispatcher.h:85-147 | the numbers 1 to the total are, in this order, on trucks, dropped, in the dispatcher's hand, on the belt; at most one package is ever dropped and none while the system runs; loaded numbers are a prefix |
| `BeltTheorems.WorkerCountExact` | include/Belt.h:64-136 | the worker counter is exact and at most 100; the unlocked test and division never sees zero; the underflow guard never fires |
| `BeltTheorems.BeltMass` | include/Belt.h:184-232 | the mass on the belt is the sum over its packages and at most 25 kg per slot |
| `BeltTheorems.HolderCanMove` | include/Manager.h:198-240 | a process inside a critical section always has an enabled step |
| `BeltTheorems.MutualExclusion` | include/Manager.h:218-240 | each mutex admits one process and nobody holds both |
| `BeltTheorems.SectionsAreAtomic` | include/Belt.h:164-191 | a critical section works on current data, so it has the effect of the method in one piece |
| `BeltTheorems.BeltNeverStuck` | include/Belt.h:156-242 | when a worker waits for a slot and the dispatcher for a package, some process in the belt protocol can move without an interruption |
| `MassLimit.MassLimitHoldsExactlyWhen` | include/Belt.h:144-185 | the mass limit holds in all runs if and only if the belt has at most 40 slots |
| `DockTheorems.DockIsOwned` | include/Truck.h:118-178 | a truck is present exactly while one process is between docking and leaving, and the record has that process's pid |
| `DockTheorems.IdentityNeverStolen` | include/Truck.h:166-190 | the "identity theft" branch and the body of the final clean-up are never taken |
| `DockTheorems.PayloadConserved` | include/Truck.h:139-168 | everything accepted was carried by exactly one trip or is on the docked truck, item by item and in the sums of weight and volume; the counter counts the counted trips; losses are at most 0.1 kg per uncounted trip, and only single packages of exactly 0.1 kg |
| `DockTheorems.EveryDepartureCounts` | include/Truck.h:166-168 | in every reachable state of the running system the completed trucks are all trips, also of empty trucks; only the shutdown leaves trips out |
| `LoadingTheorems.LoadExactlyWhen` | include/Dispatcher.h:101-139 | in every reachable state a package is refused if and only if the cargo on board leaves no room for it; otherwise it is put on board and counted, and the truck is told to leave exactly if that has made it full |
| `LoadingTheorems.BatchExactlyWhen` | include/Express.h:102-142 | in every reachable state the longest prefix of the batch for which the cargo leaves room goes on board, for every batch of 3 to 5 items that can be drawn, and the truck is told to leave exactly if that is not the whole batch |
| `LoadingTheorems.DrawsExactlyWhen` | include/Truck.h:62-75 | a worker can make exactly the packages of its classes, and a truck can dock at a free dock with exactly the limits in range, which its record then has |
| `DockTheorems.TruckWithinLimits` | include/Dispatcher.h:102-121 | both loaders together never exceed the truck's weight and volume, and the belt packages on board are no more than the volume has room for, 154 in any case |
| `LoadLimit.LoadOccursExactlyWhen` | include/Dispatcher.h:102-121 | for every truck in range and every count, a run with that many belt packages on the docked truck exists if and only if that many of the smallest fit its volume |
| `LoadLimit.MaxLoadKeptExactlyWhen` | include/Dispatcher.h:119-126 | a truck stays within 100 packages in all runs if and only if it has no room for 101 of the smallest |
| `ShutdownLoss.ShutdownUncountedExactlyWhen` | include/Truck.h:139-156 | in every reachable state a truck leaves uncounted at shutdown if and only if its record shows an empty truck, or one package and 0.1 kg |
| `ShutdownLoss.LossHappens` | include/Truck.h:139-156 | for every belt size a run exists in which a truck takes one package away uncounted |
| `StaleMail.StaleExactlyWhen` | include/Truck.h:134-178 | left to itself, a waiting truck comes to wait on a later docking with a message already queued if and only if the system runs and it now has two messages |
| `StaleMail.SecondMessageStays` | include/Truck.h:134-178 | from any reachable state with two messages the truck leaves on the first and docks again, empty and not called, with the second still queued |
| `StaleMail.DispatcherSendsTwice` | include/Dispatcher.h:119-137 | for every belt size a run without any terminal exists in which the dispatcher sends the docked truck two departures |
| `StaleMail.LateDeparture` | include/terminal/TerminalAction.h:87-91 | between the terminal's read of the dock and its send the truck can leave and dock again, empty and not called, and then gets the departure |
| `DockTheorems.RejectedByAtMostOneTruck` | include/Dispatcher.h:97-146 | with at most one express batch per docking a package is refused by at most one docking |
| `DockTheorems.DepartureIsPending` | include/Dispatcher.h:119-137 | a truck that reached its package count, refused the package in hand or was called by a loader has a message queued or received whenever the dock mutex is free |
| `SessionTheorems.SessionsAreDistinct` | include/SessionManager.h:91-103 | a logged-in process owns an active slot with its own pid and truncated name, and no two share slot or name |
| `SessionTheorems.NamesAsTyped` | include/SessionManager.h:94 | a logged-in process whose name has no NUL is in the table under the first 31 characters of it |
| `SessionTheorems.TableMatchesProcesses` | include/SessionManager.h:60-134 | with the mutex free, a slot is active exactly if a process owns it, and active names are pairwise distinct |
| `SessionTheorems.LoginFailsExactlyWhen` | include/SessionManager.h:67-89 | in every reachable state login fails if and only if a logged-in process has the truncated name or all slots are active |
| `SessionTheorems.LoginFailsByName` | include/SessionManager.h:67-89 | for names without NUL login fails if and only if a logged-in process has the same first 31 characters or all 210 slots are active |
| `SessionTheorems.LoginWritesEntry` | include/SessionManager.h:91-103 | the separate writes of a login add up to the whole entry |
| `SessionTheorems.QuotaBalance` | include/SessionManager.h:140-166 | a session's count is exactly what it is running and stays within its quota |
| `SessionTheorems.SpawnGrantedExactlyWhen` | include/Worker.h:99-131 | a worker is granted its sub-process if and only if its quota is at least one |
| `SessionTheorems.DispatcherIsUnique` | src/main_dispatcher.cpp:14-16 | at most one dispatcher is at work, however many are started |
| `ShutdownTheorems.NoLostShutdown` | include/terminal/TerminalAction.h:120-127 | once a scan has passed its slot, a truck that waits or is about to wait, and an express process that waits, has the end-of-work message and can go on |
| `ShutdownTheorems.CompletedScanReachesAll` | include/terminal/TerminalAction.h:120-127 | after a complete scan every such process has the message |
| `ShutdownTheorems.StopIsFinal` | include/terminal/TerminalAction.h:121 | no step sets the running flag again |
| `ShutdownTheorems.RunStopIsFinal` | include/terminal/TerminalAction.h:121 | no run does |
| `ShutdownTheorems.EndWorkOnlyAfterStop` | include/Truck.h:118-161 | an end-of-work message, and a truck that has left its loop, up to its logout, exist only after the stop |
| `Programs.WindsDown` | include/Truck.h:118-192 | every step of every process stays in the program of its kind and after the stop brings it closer to its end; a truck logs out only after its clean-up |
| `Programs.ProgramsAct` | include/Truck.h:118-192 | every step keeps all processes in their programs and trucks out of the logout while the system runs |
| `Winding.RunBound` | include/Worker.h:99-133 | over any run after the stop, the steps a process made and those left do not exceed those left at the start, also if it is logging in or not yet started |
| `Winding.StepsBounded` | include/Dispatcher.h:155-163 | after the stop a worker makes at most 26 steps, a truck 18, a terminal 636 and any other process 12, wherever it was and whenever it was started, whatever the others do |
| `Winding.RunsEnd` | src/main.cpp:103-118 | every run after the stop without new processes is bounded by the sum of these numbers over the processes |
| `ShutdownTheorems.TruckNeverStuck` | include/Truck.h:134-190 | after a complete scan a truck that has not exited can move, or waits for a mutex whose holder can |
| `CommandTheorems.OnlyAdminStops` | include/terminal/TerminalAction.h:116-121 | the running flag is cleared only by the master or by a process that logged in as administrator |
| `CommandTheorems.CommandsNeedRights` | include/terminal/TerminalAction.h:46-97 | for operators and administrators, by the role they logged in with, vip begins its search of the table and depart, with a truck at the dock, reads its pid; for all others the terminal goes back to its loop |
| `CommandTheorems.BatchesAreOrdered` | src/main_express.cpp:42-49 | over every run, the batches a process has begun and the orders still in its queue are no more than the orders sent to it |
| `CommandTheorems.OrdersBecomeBatches` | src/main_express.cpp:42-49 | for an express process they are exactly the orders sent to it, over every run: no order is lost |
| `CommandRuns.VipRun` | include/terminal/TerminalAction.h:46-63 | a permitted vip, run alone from any reachable state, sends one express order to the pid found first under the service's name and does nothing else |
| `CommandRuns.VipReachesExpress` | include/terminal/TerminalAction.h:46-63 | with an express process logged in, that order goes behind its other messages and no other queue changes |
| `CommandRuns.DepartRun` | include/terminal/TerminalAction.h:80-97 | a permitted depart with a truck at the dock, run alone, sends one departure to the pid in the record and does nothing else |
| `CommandRuns.StopRun` | include/terminal/TerminalAction.h:116-136 | an administrator's stop, run alone, clears the flag and leaves the messages of the broadcast over the whole table; anybody else's changes nothing |
| `CommandRuns.VipDelivers` | src/main_express.cpp:42-49 | for every belt size a run exists in which a vip command puts an express batch on the docked truck |
| `CommandRuns.StartExactlyWhen` | src/main.cpp:81-97 | a process of any kind can be started at any time under an unused pid and the name its program uses, and nothing else happens |
| `Stranding.StrandedForEver` | include/Belt.h:209-215 | a dispatcher that waits after the stop with no package signalled or on its way stays there in every run without an interruption |
| `Stranding.Release` | include/Belt.h:160-192 | from any reachable state in which a worker has a package on its way, a run without interruptions leads to a signalled package while the dispatcher waits |
| `Stranding.DispatcherStrandedExactlyWhen` | include/Belt.h:209-215 | after the stop a waiting dispatcher is never released if and only if no package is signalled and no worker has one on its way or is about to be granted one |
| `Stranding.StrandingHappens` | include/terminal/TerminalAction.h:116-130 | for every belt size a complete stop command can leave the dispatcher behind |
| `Marooning.MaroonedForEver` | include/Belt.h:160-164 | a worker that waits after the stop with no free slot and nobody to return one stays there in every run without an interruption |
| `Marooning.WorkerStrandedExactlyWhen` | include/Belt.h:160-164 | after the stop a waiting worker is never released if and only if there is no free slot, packages and tokens in flight fill the belt exactly, and nobody can return a slot any more |
| `Marooning.MarooningHappens` | include/terminal/TerminalAction.h:116-130 | for every belt size a complete stop command can leave a worker behind on the full belt |
| `Quiescence.StillExactlyWhen` | include/terminal/TerminalAction.h:99-131 | after a complete scan no process can move if and only if each has exited, or waits for a package with none signalled, or for a slot with none free; the last two never occur together |
| `Quiescence.StoppedComesToRest` | include/terminal/TerminalAction.h:99-131 | from every state with a complete scan a standstill is reached, every run there without new processes is bounded, and wherever such a run cannot go on all have exited but those who wait for a semaphore that is zero |
| `Quiescence.StopCanLeaveBehind` | include/terminal/TerminalAction.h:99-131 | both kinds of standstill occur, for every belt size |

## Left out

- The bodies of `Truck::run`, `Dispatcher::run` and `Worker::run` as single sequential methods: their loops are steps of the transition system, since other processes act between any two of them; only their critical sections are methods.
- Interrupted waits on a mutex: `semOperation` then returns as if it had locked, and mutual exclusion is lost; interrupted waits on the counting semaphores are modelled.
- Rounding of `double`, overflow of `int` counters, reuse of process ids, and reordering of memory accesses by the hardware.
- The kernel's limit on the size of a message queue, failing system calls, and removal of the IPC objects while they are in use.
- `fork`, `execv`, `waitpid`, `kill` and POSIX signal handlers: a process may start at any time, and a handler's flag is a nondeterministic choice.
- Sleeps, travel times and random generators: replaced by nondeterministic choice within the stated ranges.
- Second `login` of the same process without `logout`, which orphans a slot: `SessionController.SessionManager.Login` covers it for one object, the transition system does not.
- `include/Config.h`, logging, and the console loop and command table in `include/terminal/`.
- `Package::pushAction`, timestamps, status flags and the bit operators other than the role test: they would only add easy members.
- `force_truck_departure`, `p4_load_command` and organisation ids: unused or passed through.
