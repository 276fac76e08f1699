# Verification of the CIS support code

A Dafny model of the parts of this repository whose correctness is hard to see by reading: a readers/writer file
lock between processes, the election of a single instance and its message socket, the route tables of the RPC
server and the protocol that fills them, frame extraction from a TCP stream, rotation of vectors about an axis and
the satellite spot drawn with it, log rotation, the binary form of settings, and the encoding of angles.

`dafny verify dfyconfig.toml` checks all of it.

## What is modelled

- **File lock.** `RwLock` is the written contract: many readers or one writer. `LockedFileWin` is the Windows
  implementation as a step system: the shared state holds the live processes, the owner of every named mutex and
  the open handles; every call into the operating system is one atomic step; any number of processes take part, and
  a process may exit or crash between any two steps, which abandons its mutexes. `LockedFileWinSafety` proves the
  invariant, `LockedFileWinTheorems` the contract, `LockedFileWinProgress` freedom from deadlock, and
  `LockedFileWinCalls` what each call comes to: the lock, a refusal or a wait.
  `LockedFileUnixSteps` is the `fcntl()` implementation as a step system of the same kind, with the kernel's locks as
  in IEEE Std 1003.1-2008, System Interfaces, chapter 3, `fcntl()` and `close()`; `LockedFileUnix` is its lock object
  as a class whose calls are those of the step system.
- **Single instance.** `SingleInstance` elects an instance on top of the Windows lock, step by step, and
  `SingleInstanceUnix` on top of the Unix lock. `LocalPeers` receives a length-prefixed message from a socket that
  hands bytes over as it likes.
- **RPC routes.** `BiMaps` is the bidirectional map, `RpcRoutes` the server's tables, `RpcRuns` sequences of
  operations on them, `RpcProtocol` clients, channels and server together.
- **Stream framing.** `BullionClients` is the client that cuts `*`...`;\n\r` frames; `BullionRuns` its runs over a
  whole stream.
- **Rotation.** `SpaceModel` over exact reals: the square root is any function that really is one, an angle is its
  cosine and sine. `SatelliteSpots` uses it for the circle of ground a satellite sees.
- **Log rotation.** `LogRotation` models the file names as a map, and every remove, rename and reopen may fail.
- **Settings.** `DataStreams` is the library's big-endian form of numbers, flags, strings and lists;
  `SettingsCodec` nests properties, objects and nodes in it. The form of a variant is a parameter that must obey the
  round-trip law.
- **Angles.** `AngleEncoding` is the decimal degrees-minutes-thousandths form and its three bytes. `Numbers` holds
  the 32-bit types.

## Assumptions

- Windows lock: opening a mutex by name fails only when nobody has it open; waiting for all of several mutexes is
  atomic; releasing a mutex one does not own does nothing; each process uses one lock object per file, from one
  thread. `MAXIMUM_WAIT_OBJECTS` is 64. The destructor is an unlock followed by the end of the process.
- Unix lock: a waiting `fcntl()` that meets a conflict returns only when interrupted, and then fails.
- RPC protocol: messages of one connection are handled in the order sent; connection ids are not reused while in
  use; whether a client is connected does not change within one call.
- Stream framing: no frame is longer than the 1000 bytes of the scratch buffer.
- Message socket: the four bytes of the length do arrive and the length fits an `int`. A read takes what is buffered
  and returns -1 only when that is nothing and the socket is broken; a wait that meets the break may return either
  answer, and on a broken socket every further wait returns false.
- Settings: strings and lists are shorter than half the range of a 32-bit length.
- Log rotation: a rename fails when its target exists; a line written to a closed device is lost; opening a device
  in the mode "not open" fails. The number of backups is not exactly 0x80000000, where the loop's `i + 1` overflows
  an `int`.

## Where code and documentation disagree

- `lock()` is documented to return true exactly when the file is locked afterwards. `lock(NoLock)` returns true when
  it is not (`LockedFileUnix.QtLockedFile.Lock`), and on a closed file it returns false whatever is held
  (`LockedFileWinTheorems.ClosedFileLock`).
- On Unix, closing a locked file drops the lock in the kernel but not in the object; reopened, `lock()` returns true
  with nothing locked (`LockedFileUnix.ReopenedFile`), and two processes can both have a write lock by their own
  account (`LockedFileUnixSteps.TwoWriters`).
- On Windows, a file closed while locked stays locked, because `unlock()` refuses a closed file; whoever waits for it
  then waits until that process ends, or opens the file again and unlocks it (`LockedFileWinProgress.ClosedWriterBlocks`).
- A stream of frames with nothing between them never makes `HasWaitingPacket` true, because the test wants a byte
  after the last terminator; such a stream is buffered for ever (`BullionRuns.PureStreamEmitsNothing`).
- A buffer over 1000000 bytes is announced to lose its oldest bytes for exceeding the limit. In fact its first
  1000000 bytes go and only the excess stays, complete frames included (`BullionClients.OverflowLosesFrame`), and
  again while the excess is over the limit. The newest 1000000 bytes stay exactly when there were 2000000
  (`BullionClients.TrimKeepsNewest`).
- Rotating a vector that lies on the axis gives the vector back only at the origin or on a coordinate axis
  (`SpaceModel.RotationExact`, `SpaceModel.DiagonalAxis`).
- With no backups, or more than an `int` can count, the second rotation closes the log for good
  (`LogRotation.RollsExactly`, `LogRotation.NoBackups`); so does any failed rotation (`LogRotation.ClosedForGood`).
- Three bytes hold an encoded angle only for angles below 168 degrees that are above -1/60000 degree, that is, those
  that do not round to something negative (`AngleEncoding.RecoveredExactly`).

## Model

| member | source | states |
|---|---|---|
| RwLock.SpecStepKeepsExclusive | redist/qtsingleapplication/src/qtlockedfile.cpp:49-53 | every step of the written contract keeps a writer alone |
| LockedFileWinSafety.NextKeepsInv | redist/qtsingleapplication/src/qtlockedfile_win.cpp:104-203 | the inductive invariant (every field of every lock object matches the owners and handles in the system, and a writer's scan covers all live readers even with gaps between slots) survives every system call, outcome, exit and crash |
| LockedFileWinSafety.RunKeepsInv | redist/qtsingleapplication/src/qtlockedfile_win.cpp:104-203 | the same over whole runs of any number of processes |
| LockedFileWinTheorems.MutualExclusion | redist/qtsingleapplication/src/qtlockedfile.cpp:49-53 | in every run, crashes included, no live process holds any lock beside a writer |
| LockedFileWinTheorems.Refines | redist/qtsingleapplication/src/qtlockedfile_win.cpp:104-203 | every action of the Windows lock is one step of the readers/writer contract, or invisible to it |
| LockedFileWinTheorems.ModeIsOwnership | redist/qtsingleapplication/src/qtlockedfile_win.cpp:173-201 | outside a call the remembered mode is exactly what the process owns: nothing, one slot and no more, or the gate while nobody else owns a slot |
| LockedFileWinTheorems.LockReturns | redist/qtsingleapplication/src/qtlockedfile_win.cpp:104-175 | for an open file and a mode other than NoLock, lock() has returned true exactly when that mode is held; after false nothing at all is owned |
| LockedFileWinTheorems.ClosedFileLock | redist/qtsingleapplication/src/qtlockedfile_win.cpp:106-109 | on a closed file lock() answers false, which is the truth exactly when another mode than the one asked for is held |
| LockedFileWinTheorems.WaitersOwn | redist/qtsingleapplication/src/qtlockedfile_win.cpp:117-168 | a process waiting for the gate owns nothing, one waiting for the slots owns the gate alone, and a slot owner can always go on |
| LockedFileWinTheorems.SlotDiscipline | redist/qtsingleapplication/src/qtlockedfile_win.cpp:126-170 | the writer starts with no slots collected, waits on at most MAX_READERS, none of them its own; a reader looks for and creates slots only while it owns the gate, and a freshly created one is owned by nobody |
| LockedFileWinTheorems.AtMostMaxReaders | redist/qtsingleapplication/src/qtlockedfile_win.cpp:45-47 | live readers own pairwise different slots, and there are never more than MAX_READERS of them |
| LockedFileWinProgress.SomebodyMoves | redist/qtsingleapplication/src/qtlockedfile_win.cpp:117-168 | deadlock freedom: unless all is quiet, and if nobody holds a lock on a closed file, some process can go on with its call or unlock without any wait ending in an error, readers that ask for the write lock included |
| LockedFileWinProgress.FinishingRunsEnd | redist/qtsingleapplication/src/qtlockedfile_win.cpp:104-203 | without new lock() calls no run, errors included, is longer than a bound on the work that was left, so no call spins for ever |
| LockedFileWinProgress.Drains | redist/qtsingleapplication/src/qtlockedfile_win.cpp:104-203 | if nobody holds a lock on a closed file, all calls can return and all locks be released without any error |
| LockedFileWinProgress.DrainsExactly | redist/qtsingleapplication/src/qtlockedfile_win.cpp:104-203 | for every reachable state: everything can come to rest without an error if and only if nobody holds a lock on a closed file |
| LockedFileWinProgress.ClosedWriterBlocks | redist/qtsingleapplication/src/qtlockedfile_win.cpp:177-182 | a reachable state in which nobody can move without an error: one process has closed its file with the write lock held, another waits |
| LockedFileWinCalls.LockAlone | redist/qtsingleapplication/src/qtlockedfile_win.cpp:104-175 | lock() of an open file for a mode not held, from any reachable state and with nobody else acting meanwhile: it returns true with the mode if and only if nobody else is in the gate and fewer than MAX_READERS others read (to read) or nobody else holds a lock (to write); it waits if and only if it may block and somebody is in the gate or, to write, holds a lock; otherwise it returns false with nothing held. A lock of its own is released first and never in the way |
| LockedFileWinCalls.RoomToRead | redist/qtsingleapplication/src/qtlockedfile_win.cpp:126-141 | with the gate free, some slot is not owned by another process if and only if fewer than MAX_READERS others hold a read lock |
| LockedFileWinCalls.WaitLasts | redist/qtsingleapplication/src/qtlockedfile_win.cpp:121-168 | whatever the others do, a waiting call stays where it is and can go on without an error if and only if the conflict is over: nobody else in the gate, or behind the gate no other lock |
| LockedFileWinCalls.WaitObtains | redist/qtsingleapplication/src/qtlockedfile_win.cpp:121-175 | with nothing left to wait for, a waiting call that is not interrupted returns, with the lock if and only if there is room for it |
| LockedFileWinCalls.LockAgain | redist/qtsingleapplication/src/qtlockedfile_win.cpp:114-115 | lock() for the mode already held returns true at once and changes nothing |
| LockedFileWinCalls.UnlockAlone | redist/qtsingleapplication/src/qtlockedfile_win.cpp:177-203 | unlock() never waits and returns true if and only if the file is open, and then nothing is owned; on a closed file it changes nothing; lock(NoLock) is the same |
| LockedFileWinCalls.ErrorGivesUp | redist/qtsingleapplication/src/qtlockedfile_win.cpp:117-170 | after any system error, and when waiting for all slots reports another than the first as abandoned, the call returns false with nothing held; an error on one slot of the reader's scan only loses that slot |
| LockedFileWinCalls.RunOnIsRun | redist/qtsingleapplication/src/qtlockedfile_win.cpp:104-203 | a call followed alone is a run of the system, each of whose steps has a normal answer |
| SingleInstance.HappenKeepsFair | redist/qtsingleapplication/src/qtlocalpeer.cpp:112-132 | every launch, call, system call and end keeps: a process has been told "not a client" exactly when it holds the write lock between calls |
| SingleInstance.OneInstance | redist/qtsingleapplication/src/qtlocalpeer.cpp:112-132 | in every history at most one live process was ever told that it is not a client, and that answer never changes for it |
| SingleInstance.AskLoses | redist/qtsingleapplication/src/qtlocalpeer.cpp:114-118 | an immediate answer "client" means that the lock file is not open |
| SingleInstance.ProceedLoses | redist/qtsingleapplication/src/qtlocalpeer.cpp:117-118 | without a system error, an answer "client" means that another live process holds the lock or is just obtaining it |
| SingleInstance.AskAnswers | redist/qtsingleapplication/src/qtlocalpeer.cpp:112-132 | in any reachable state a process that asks without being interrupted is told "client" if and only if it does not hold the lock yet and its lock file is not open or another process is in the gate |
| SingleInstanceUnix.HappenKeepsFair | redist/qtsingleapplication/src/qtlocalpeer.cpp:112-132 | the same on the Unix lock: every event keeps that a process has been told "not a client" exactly when it holds the write lock, which the kernel knows of |
| SingleInstanceUnix.OneInstance | redist/qtsingleapplication/src/qtlocalpeer.cpp:112-132 | on the Unix lock, too, at most one live process was ever told that it is not a client, and that answer never changes for it |
| SingleInstanceUnix.ClientLoses | redist/qtsingleapplication/src/qtlocalpeer.cpp:117-118 | an answer "client" without an error means that the lock file is not open, or that another live process has been told that it is not a client |
| SingleInstanceUnix.AskAnswers | redist/qtsingleapplication/src/qtlocalpeer.cpp:112-132 | on the Unix lock: if and only if it does not hold the lock yet and its lock file is not open or another process has locked it |
| LockedFileUnixSteps.Refines | redist/qtsingleapplication/src/qtlockedfile_unix.cpp:48-108 | every action of the Unix lock (start, exit, crash, open, close, call, fcntl() with success, error or interrupt) is one step of the readers/writer contract by its own process, or invisible to it |
| LockedFileUnixSteps.NextKeepsInv | redist/qtsingleapplication/src/qtlockedfile_unix.cpp:48-108 | every action keeps: the kernel's locks are exclusive, and each mode is the kernel's or one left over from a close |
| LockedFileUnixSteps.StaleMeans | redist/qtsingleapplication/src/qtlockedfile_unix.cpp:84-108 | a mode is left over exactly from a close of a locked file on, for as long as it is not assigned |
| LockedFileUnixSteps.StaleHistory | redist/qtsingleapplication/src/qtlockedfile_unix.cpp:48-108 | over any run: exactly when the run has an action that closed the file with that mode, kept ever since |
| LockedFileUnixSteps.ModeIsOwnership | redist/qtsingleapplication/src/qtlockedfile_unix.cpp:79-107 | in every run the remembered mode is what the kernel has for the process if and only if the process has not closed the file while locked and kept that mode since |
| LockedFileUnixSteps.MutualExclusion | redist/qtsingleapplication/src/qtlockedfile.cpp:49-53 | in every run, crashes included, two processes that have not done so never hold locks beside a writer |
| LockedFileUnixSteps.LockReturns | redist/qtsingleapplication/src/qtlockedfile_unix.cpp:48-81 | lock() of an open file has returned true exactly when the mode asked for is the mode; after false without a failed release neither object nor kernel has a lock |
| LockedFileUnixSteps.LockAlone | redist/qtsingleapplication/src/qtlockedfile_unix.cpp:48-81 | lock() of an open file for a mode not held, nobody else acting meanwhile: with a conflict a blocking call has no normal step, also when it first released another lock; otherwise it returns true with the lock if and only if there is no conflict, else false with nothing locked |
| LockedFileUnixSteps.WaitLasts | redist/qtsingleapplication/src/qtlockedfile_unix.cpp:69-70 | whatever the others do, a waiting call stays where it is and can go on without an error if and only if no lock of another process conflicts |
| LockedFileUnixSteps.TwoWriters | redist/qtsingleapplication/src/qtlockedfile_unix.cpp:58-59 | a reachable state in which two processes both have an open file and the mode WriteLock |
| LockedFileUnix.Kernel.SetLock | redist/qtsingleapplication/src/qtlockedfile_unix.cpp:64-76 | the kernel sets the lock exactly when no other process conflicts, as one step of the readers/writer contract |
| LockedFileUnix.Kernel.ClearLock | redist/qtsingleapplication/src/qtlockedfile_unix.cpp:94-104 | unlocking removes the lock of this process and no other |
| LockedFileUnix.QtLockedFile.Lock | redist/qtsingleapplication/src/qtlockedfile_unix.cpp:48-81 | the call is that of the step system; object and kernel keep agreeing and other processes keep what they have; true exactly when the mode asked for is held; after false without a failed release nothing is held |
| LockedFileUnix.LockCallMeans | redist/qtsingleapplication/src/qtlockedfile_unix.cpp:48-81 | the steps of a whole call in one: which mode and which kernel locks result, for every mode, failure and interference |
| LockedFileUnix.QtLockedFile.Unlock | redist/qtsingleapplication/src/qtlockedfile_unix.cpp:84-108 | the result, the mode and the kernel's locks in every case |
| LockedFileUnix.QtLockedFile.Close | redist/qtsingleapplication/src/qtlockedfile.h:67-81 | closing drops the lock in the kernel; the object agrees exactly when it was closed unlocked |
| LockedFileUnix.LockBeside | redist/qtsingleapplication/src/qtlockedfile.cpp:49-53 | when one of two agreeing lock objects calls lock(), both still agree with the kernel, and they never both hold a lock when one writes |
| LockedFileUnix.ReopenedFile | redist/qtsingleapplication/src/qtlockedfile_unix.cpp:58-59 | after closing and reopening, lock(WriteLock) answers true with nothing locked |
| LocalPeers.LocalSocket.ReadRawData | redist/qtsingleapplication/src/qtlocalpeer.cpp:188-190 | copies what has come in, no more than asked for, behind what the buffer holds, and takes exactly that off the stream; -1 exactly when there is nothing and the socket is broken |
| LocalPeers.ReadMore | redist/qtsingleapplication/src/qtlocalpeer.cpp:187-191 | one round of the loop: a timeout and a wait that reports a break read nothing, a wait that hides a break makes the read return -1 |
| LocalPeers.ReadMessage | redist/qtsingleapplication/src/qtlocalpeer.cpp:184-191 | bytes copied and bytes remaining always make up the declared length; the buffer holds the message, or its beginning after a wait that returned false; negative exactly when a read returned -1 |
| LocalPeers.ReceiveConnection | redist/qtsingleapplication/src/qtlocalpeer.cpp:172-203 | for every split of the bytes: the whole message, or its beginning after a timeout or a reported break; dropped exactly when a read returned -1, and acknowledged exactly when not |
| LocalPeers.SentIsReceived | redist/qtsingleapplication/src/qtlocalpeer.cpp:159-191 | however the sent bytes are split, and whatever happens behind them, the message handed over is the one that was sent |
| LocalPeers.CutShort | redist/qtsingleapplication/src/qtlocalpeer.cpp:191-203 | a message cut short is dropped exactly when the socket was broken with nothing behind the length, or breaks with a wait that returns true; otherwise its beginning is handed over, and acknowledged |
| BiMaps.BiMap.Insert | src/CISCommonLib/src/Templates/BiMap.h:172-183 | both maps get the pair exactly when neither key was there; they stay mirrors |
| BiMaps.BiMap.RemoveByLeft | src/CISCommonLib/src/Templates/BiMap.h:185-200 | the pair of that left key leaves both maps |
| BiMaps.BiMap.RemoveByRight | src/CISCommonLib/src/Templates/BiMap.h:202-217 | the pair of that right key leaves both maps |
| BiMaps.BiMap.Left | src/CISCommonLib/src/Templates/BiMap.h:231-235 | the left key whose pair has this right key, the default when there is none |
| BiMaps.BiMap.Right | src/CISCommonLib/src/Templates/BiMap.h:237-241 | the right key whose pair has this left key, the default when there is none |
| BiMaps.BiMap.Clear | src/CISCommonLib/src/Templates/BiMap.h:157-162 | both maps are empty |
| BiMaps.BiMap.IsEmpty | src/CISCommonLib/src/Templates/BiMap.h:164-170 | true exactly when the left map, and exactly when the right map, is empty |
| BiMaps.BiMap.Assign | src/CISCommonLib/src/Templates/BiMap.h:267-274 | both maps become the other's, and mirrors again |
| BiMaps.BiMap.Size | src/CISCommonLib/src/Templates/BiMap.h:149-155 | the two maps always have the same size, as the source asserts |
| BiMaps.BiMap.Equals | src/CISCommonLib/src/Templates/BiMap.h:261-265 | comparing only the left maps compares both |
| BiMaps.MirrorUnique | src/CISCommonLib/src/Templates/BiMap.h:255-265 | a map has at most one mirror |
| RpcRoutes.RpcRoutedServer.RegisterReceiver | src/CISCommonLib/src/Rpc/RpcRoutedServer.cpp:41-69 | true exactly for a listener that is not null, has no route, and asks for a free one; it is then last in the receiver list and has the route, unless that is 0; the index stays the join of the tables and the guarded insert always succeeds |
| RpcRoutes.RpcRoutedServer.DeregisterReceiver | src/CISCommonLib/src/Rpc/RpcRoutedServer.cpp:71-84 | the listener loses its route and all its places in the list, nothing else changes; the index stays the join |
| RpcRoutes.WithoutMeans | src/CISCommonLib/src/Rpc/RpcRoutedServer.cpp:71-73 | taking a listener out of the receiver list takes out every place it has and nothing else, and keeps the order |
| RpcRoutes.RpcRoutedServer.RegisterClient | src/CISCommonLib/src/Rpc/RpcRoutedServer.cpp:86-109 | true exactly for a client that is not 0, has no route, and asks for a free one; it then has that route, else nothing changes; the index stays the join and the guarded insert always succeeds |
| RpcRoutes.RpcRoutedServer.DeregisterClient | src/CISCommonLib/src/Rpc/RpcRoutedServer.cpp:111-122 | the client loses its route, nothing else changes; the index stays the join |
| RpcRoutes.RpcRoutedServer.Dispatch | src/CISCommonLib/src/Rpc/RpcRoutedServer.cpp:23-39 | a message reaches every receiver when it has no client, else exactly the listener registered under the client's route |
| RpcRoutes.RpcRoutedServer.InternalCall | src/CISCommonLib/src/Rpc/RpcRoutedServer.cpp:9-21 | a call reaches everyone when it has no sender, else exactly the client registered under the sender's route |
| RpcRoutes.JoinAddListener | src/CISCommonLib/src/Rpc/RpcRoutedServer.cpp:55-66 | adding a listener and, if its route has a client, one index entry keeps the index the join; the client was not in the index |
| RpcRoutes.JoinAddClient | src/CISCommonLib/src/Rpc/RpcRoutedServer.cpp:93-104 | the same for a client |
| RpcRoutes.JoinDropListener | src/CISCommonLib/src/Rpc/RpcRoutedServer.cpp:77-83 | dropping a listener from index and table keeps the index the join |
| RpcRoutes.JoinDropClient | src/CISCommonLib/src/Rpc/RpcRoutedServer.cpp:115-121 | dropping a client from index and table keeps the index the join |
| RpcRuns.SidesAreIndependent | src/CISCommonLib/src/Rpc/RpcRoutedServer.cpp:41-122 | a run leaves each side's table and answers where that side's operations alone leave them |
| RpcRuns.InterleavingDoesNotMatter | src/CISCommonLib/src/Rpc/RpcRoutedServer.cpp:41-122 | runs with the same listener operations and the same client operations end in the same tables and gave the same answers, however interleaved |
| RpcRuns.Execute | src/CISCommonLib/src/Rpc/RpcRoutedServer.cpp:41-122 | the server object itself follows these runs, with its index the join of its tables |
| RpcRuns.ClientHistory | src/CISCommonLib/src/Rpc/RpcRoutedServer.cpp:86-122 | after any run a client is in the table under a route if and only if some operation registered it there, route and client being free, and none since has deregistered it |
| RpcRuns.ListenerHistory | src/CISCommonLib/src/Rpc/RpcRoutedServer.cpp:41-84 | the same for listeners |
| RpcRuns.DeliverBothWays | src/CISCommonLib/src/Rpc/RpcRoutedServer.cpp:9-39 | after any run a message from client c reaches listener l, and a call by l reaches c, if and only if both were registered under one route, free at the time, and neither has been deregistered since; without a partner they reach nobody |
| RpcProtocol.RpcRoutedClient.RegisterRoute | src/CISCommonLib/src/Rpc/RpcRoutedClient.cpp:14-30 | true exactly when connected and asked for a route; then that route is remembered and a register call for it sent, behind a deregister call exactly when another route was held; else nothing changes |
| RpcProtocol.RpcRoutedClient.DeregisterRoute | src/CISCommonLib/src/Rpc/RpcRoutedClient.cpp:32-41 | when connected with a route, it is forgotten and a deregister call sent; else nothing changes |
| RpcProtocol.HappenKeepsConsistent | src/CISCommonLib/src/Rpc/RpcRoutedClient.cpp:14-41 | whatever the server has for a connection, the messages on their way leave it absent or at the client's route; every connect, request, loss and delivery keeps that |
| RpcProtocol.Agreement | src/CISCommonLib/src/Rpc/RpcRoutedClient.cpp:14-41 | in every history, once a client's channel is empty, the server's entry for its connection is absent or the route the client remembers, and absent when that is none |
| RpcProtocol.AskArrives | src/CISCommonLib/src/Rpc/RpcRoutedClient.cpp:14-30 | in every history, once a connected client has asked for a route and its messages have been handled, the server has it under exactly that route if and only if no other connection had the route, and otherwise under none; the entries of others are untouched |
| RpcProtocol.RouteRemembered | src/CISCommonLib/src/Rpc/RpcRoutedClient.cpp:14-41 | the remembered route changes only by the client's own requests while connected; it outlives the connection |
| BullionClients.WaitingMeans | src/ADSBReceiver/src/BullionClient.cpp:9-19 | the test holds exactly when the buffer has a star, later a last terminator, and behind it at least one byte and no special ones |
| BullionClients.StarWithin | src/ADSBReceiver/src/BullionClient.cpp:43-63 | bytes before a star are dropped, a second star belongs to the frame |
| BullionClients.FramesAppend | src/ADSBReceiver/src/BullionClient.cpp:25-64 | the frames of a stream are those complete so far, then those of what is left and what follows |
| BullionClients.BullionClient.TakeFrame | src/ADSBReceiver/src/BullionClient.cpp:40-63 | the scan emits the first frame of the buffer and cuts behind it, or changes nothing when there is none |
| BullionClients.TrimKeepsNewest | src/ADSBReceiver/src/BullionClient.cpp:33-39 | an overlong buffer keeps its newest 1000000 bytes if and only if it has 2000000 |
| BullionClients.OverflowLosesFrame | src/ADSBReceiver/src/BullionClient.cpp:32-39 | a waiting buffer one byte too long, with a complete frame, of which one byte stays and nothing is emitted |
| BullionClients.DrainIsFrames | src/ADSBReceiver/src/BullionClient.cpp:32-64 | up to twice the limit all rounds together emit exactly the frames of the buffer, trimmed at most once, and leave what follows the last; without a trim those are all frames of the buffer |
| BullionClients.DrainIsFull | src/ADSBReceiver/src/BullionClient.cpp:32-64 | however long the buffer and however often it is trimmed, all rounds together leave no complete frame |
| BullionClients.BullionClient.Round | src/ADSBReceiver/src/BullionClient.cpp:32-64 | every round strictly shrinks the buffer: it emits the first frame of the trimmed buffer and cuts behind it, or only trims |
| BullionClients.BullionClient.ReadyRead | src/ADSBReceiver/src/BullionClient.cpp:25-64 | the loop ends, having emitted and left what these rounds do, nothing when no packet is waiting |
| BullionRuns.NothingLost | src/ADSBReceiver/src/BullionClient.cpp:25-64 | while nothing was trimmed, frames emitted and frames in the buffer are together the frames of all bytes received |
| BullionRuns.ChunkingDoesNotMatter | src/ADSBReceiver/src/BullionClient.cpp:25-64 | any cutting of a stream emits a prefix of the same frames, so of two cuttings one emits a prefix of the other's |
| BullionRuns.FullDrain | src/ADSBReceiver/src/BullionClient.cpp:32-64 | after a chunk that makes a packet wait no complete frame stays in the buffer, trimmed or not |
| BullionRuns.FramesNeverWait | src/ADSBReceiver/src/BullionClient.cpp:14-18 | no prefix of back-to-back frames makes the test hold |
| BullionRuns.PureStreamEmitsNothing | src/ADSBReceiver/src/BullionClient.cpp:9-64 | so from such a stream, in whatever chunks, nothing is ever emitted and everything is kept |
| BullionRuns.Feed | src/ADSBReceiver/src/BullionClient.cpp:25-64 | the client object fed chunk by chunk follows these runs, overlong buffers included |
| SpaceModel.Project | redist/pwgis/examples/DemoSatelliteSpot/SpaceModel.cpp:109-121 | the scalar product over the length, 0 for a null vector |
| SpaceModel.Normalize | redist/pwgis/examples/DemoSatelliteSpot/SpaceModel.cpp:125-137 | the vector over its length, itself when null |
| SpaceModel.Transform | redist/pwgis/examples/DemoSatelliteSpot/SpaceModel.cpp:98-106 | the coordinates along the three vectors |
| SpaceModel.TransformBasis | redist/pwgis/examples/DemoSatelliteSpot/SpaceModel.cpp:88-96 | each vector of a basis in coordinates |
| SpaceModel.Rotate | redist/pwgis/examples/DemoSatelliteSpot/SpaceModel.cpp:53-68 | off the axis exactly v cos a + (v x k) sin a + k(k.v)(1 - cos a) with k the unit axis, each coordinate written out; null for a null axis |
| SpaceModel.RotationAboutZ | redist/pwgis/examples/DemoSatelliteSpot/SpaceModel.cpp:53-85 | about the third axis (x, y, z) goes to (x cos a + y sin a, -x sin a + y cos a, z) |
| SpaceModel.CodeTurns | redist/pwgis/examples/DemoSatelliteSpot/SpaceModel.cpp:53-147 | change of basis, turn in the plane and division by column lengths together equal that formula for every vector off the axis |
| SpaceModel.OnAxisSigns | redist/pwgis/examples/DemoSatelliteSpot/SpaceModel.cpp:60-67 | on the axis only the signs of the axis come back, each coordinate with the size of the vector |
| SpaceModel.RotationExact | redist/pwgis/examples/DemoSatelliteSpot/SpaceModel.cpp:53-68 | for an axis that is not null the formula holds if and only if the vector is off the axis, or null, or the axis is a coordinate axis |
| SpaceModel.DiagonalAxis | redist/pwgis/examples/DemoSatelliteSpot/SpaceModel.cpp:53-68 | the vector (1, 1, 0) does not come back from a rotation about itself |
| SpaceModel.NullAxis | redist/pwgis/examples/DemoSatelliteSpot/SpaceModel.cpp:125-127 | about a null axis everything goes to the origin |
| SpaceModel.RotationKeeps | redist/pwgis/examples/DemoSatelliteSpot/SpaceModel.cpp:53-68 | off the axis length and axis component are kept |
| SpaceModel.RotationsCompose | redist/pwgis/examples/DemoSatelliteSpot/SpaceModel.cpp:53-68 | two rotations in a row are one by the sum of the angles |
| SpaceModel.RotationUndone | redist/pwgis/examples/DemoSatelliteSpot/SpaceModel.cpp:53-68 | rotating back by the opposite angle gives the vector again |
| SpaceModel.RotationsAreCircle | redist/pwgis/examples/DemoSatelliteSpot/SpaceModel.cpp:53-68 | a vector is reached by some angle if and only if it has the same length and the same axis component |
| SatelliteSpots.HalfVisible | redist/pwgis/examples/DemoSatelliteSpot/SatelliteSpot.cpp:65-72 | the half angle is an angle with positive sine, and its cosine is the earth's radius over the satellite's distance from the centre |
| SatelliteSpots.ObserverFrames | redist/pwgis/examples/DemoSatelliteSpot/SatelliteSpot.cpp:33-50 | the axis points to the satellite and the line from the zero point to the satellite touches the sphere |
| SatelliteSpots.SpotIsHorizon | redist/pwgis/examples/DemoSatelliteSpot/SatelliteSpot.cpp:53-57 | the points that some azimuth gives are exactly the points of the sphere that see the satellite on the horizon |
| SatelliteSpots.AzimuthFromNorth | redist/pwgis/examples/DemoSatelliteSpot/SatelliteSpot.cpp:33-57 | the point for an azimuth lies in that direction from the place below the satellite, counted from north through east, half the visible angle away |
| SatelliteSpots.VectorRecovers | redist/pwgis/examples/DemoSatelliteSpot/SpaceModel.cpp:8-25 | length, latitude and longitude can be read back from the vector |
| SatelliteSpots.TangentLine | redist/pwgis/examples/DemoSatelliteSpot/SatelliteSpot.cpp:70-71 | from every such point the line to the satellite is tangent, and its length is the distance the source computes |
| SatelliteSpots.SatelliteSpot.SetObserver | redist/pwgis/examples/DemoSatelliteSpot/SatelliteSpot.cpp:13-51 | both errors leave the object as it was; else the axis points to the new satellite, the zero point lies half the visible angle to its north, and the hemisphere is set |
| SatelliteSpots.SatelliteSpot.GetPoint | redist/pwgis/examples/DemoSatelliteSpot/SatelliteSpot.cpp:53-57 | the zero point turned about the axis by the azimuth, by the closed formula, and on the horizon circle |
| SatelliteSpots.SatelliteSpot.GetEarthSpotNodes | redist/pwgis/examples/DemoSatelliteSpot/SatelliteSpot.cpp:74-89 | nothing for a step out of range; else, in order and each once, exactly the points at 0, step, 2 step, ... before the full circle that pass the latitude check, all on the horizon circle |
| LogRotation.ShiftsOn | src/CISCommonLib/src/Logger/Logger.cpp:34-43 | in every round of the loop the target of the rename is vacant, and afterwards the backups above have moved up by one |
| LogRotation.RollerFileLoggerEngine.RollOver | src/CISCommonLib/src/Logger/Logger.cpp:24-51 | for every pattern of failures: which files moved, which did not, and whether the device is open again |
| LogRotation.RollerFileLoggerEngine.WriteToFile | src/CISCommonLib/src/Logger/Logger.cpp:16-22 | the text is appended to an open device. While the live file is not larger than allowed nothing else changes; else, nothing failing, it becomes backup 1, the others move up and an empty file is open; whenever the device is open afterwards it was open before and the file is not larger than allowed |
| LogRotation.RollKeepsHistory | src/CISCommonLib/src/Logger/Logger.cpp:24-51 | whatever fails, the backups from oldest to newest and the live file read the same as before, except that the old last backup may be gone |
| LogRotation.RollSucceeds | src/CISCommonLib/src/Logger/Logger.cpp:24-51 | when nothing fails every backup has moved up by one, the live file is backup 1, and an empty live file is open |
| LogRotation.RollOpens | src/CISCommonLib/src/Logger/Logger.cpp:24-51 | for every pattern of failures: the device is open afterwards if and only if it was open, there is a live file, nothing necessary was refused, and backup 1 was vacated or free |
| LogRotation.RollStops | src/CISCommonLib/src/Logger/Logger.cpp:34-43 | when a backup cannot be renamed, it and those below are where they were, those above have moved up, and the device stays closed |
| LogRotation.RollReaches | src/CISCommonLib/src/Logger/Logger.cpp:34-50 | when all backups could move, the live file is backup 1 unless its rename was refused, and there is a new empty one only if the device was opened again |
| LogRotation.HistoryIsSuffix | src/CISCommonLib/src/Logger/Logger.cpp:16-51 | over any run with any failures the files hold, in order, all that reached an open device but a lost beginning |
| LogRotation.NothingLostInside | src/CISCommonLib/src/Logger/Logger.cpp:16-51 | over any run without failures they hold a suffix of everything logged |
| LogRotation.ClosedForGood | src/CISCommonLib/src/Logger/Logger.cpp:26-50 | once an early return has left the device closed it is never reopened and nothing is logged any more |
| LogRotation.RollsExactly | src/CISCommonLib/src/Logger/Logger.cpp:34-50 | with nothing failing, the log stays open if and only if backup 1 is free or the number of backups is at least 1 and fits the loop's signed counter |
| LogRotation.NoBackups | src/CISCommonLib/src/Logger/Logger.cpp:34-50 | with no backups and backup 1 taken, a rotation in which nothing is refused changes no file and closes the device |
| DataStreams.Uint32RoundTrip | src/CISCommonLib/src/Settings/Property.h:37-38 | four big-endian bytes give the number back and leave what follows |
| DataStreams.BigEndian | src/CISCommonLib/src/Settings/Property.h:37-38 | the number is its four bytes with falling weights, the most significant first |
| DataStreams.TextRoundTrip | src/CISCommonLib/src/Settings/Property.h:37-43 | a string comes back, null and empty kept apart |
| DataStreams.TextLayout | src/CISCommonLib/src/Settings/Property.h:37-43 | a null string is four bytes 255, any other its number of bytes, then its units |
| DataStreams.UnitBytes | src/CISCommonLib/src/Settings/Property.h:37-43 | every unit is two bytes, the more significant first |
| DataStreams.BoolRoundTrip | src/CISCommonLib/src/Settings/Property.h:37-38 | a flag is one byte, 0 or 1, and comes back |
| DataStreams.ListRoundTrip | src/CISCommonLib/src/Settings/SettingsNode.h:47-64 | a list of any length comes back when its items do |
| SettingsCodec.PropertyRoundTrip | src/CISCommonLib/src/Settings/Property.h:35-53 | a property comes back, negative numbers included, and what follows is left |
| SettingsCodec.ObjectRoundTrip | src/CISCommonLib/src/Settings/Object.h:21-38 | an object comes back with the value of the object it was read into |
| SettingsCodec.NodeRoundTrip | src/CISCommonLib/src/Settings/SettingsNode.h:17-26 | a node comes back with its properties, its object's value replaced by the default |
| SettingsCodec.NodesRoundTrip | src/CISCommonLib/src/Settings/SettingsNode.h:47-64 | a list of nodes comes back likewise, whatever bytes follow it |
| SettingsCodec.SameBytes | src/CISCommonLib/src/Settings/SettingsNode.h:17-54 | two lists have the same bytes if and only if they differ at most in the values of their objects |
| SettingsCodec.OutStream.WriteProperty | src/CISCommonLib/src/Settings/Property.h:35-39 | id, pid, name, value, state and flag are written in this order, numbers as unsigned |
| SettingsCodec.OutStream.WriteObject | src/CISCommonLib/src/Settings/Object.h:21-24 | id, pid, name, state and flag, without the value |
| SettingsCodec.OutStream.WriteNode | src/CISCommonLib/src/Settings/SettingsNode.h:17-20 | the object, then the list of properties |
| SettingsCodec.ThereAndBack | src/CISCommonLib/src/Settings/SettingsNode.h:47-64 | a list written to bytes and read from them is the list that was written, but for the values of its objects |
| SettingsCodec.DataStream.ReadProperty | src/CISCommonLib/src/Settings/Property.h:41-53 | reading field by field gives what the bytes say, or leaves the stream bad |
| SettingsCodec.DataStream.ReadObject | src/CISCommonLib/src/Settings/Object.h:26-38 | likewise, with the value of the object read into untouched |
| SettingsCodec.DataStream.ReadNode | src/CISCommonLib/src/Settings/SettingsNode.h:22-26 | likewise for an object and its list of properties |
| SettingsCodec.NodesFromBytes | src/CISCommonLib/src/Settings/SettingsNode.h:56-64 | the decoded list, when the stream stayed good to the end |
| AngleEncoding.EncodesThousandths | src/KtrSimulator/KtrSimulator.cpp:173-181 | rounding at each of three steps equals rounding once to thousandths of a minute, written in mixed radix |
| AngleEncoding.EncodesDigits | src/KtrSimulator/KtrSimulator.cpp:173-181 | degrees, minutes and thousandths stand side by side in the decimal digits |
| AngleEncoding.EncodesNegative | src/KtrSimulator/KtrSimulator.cpp:174-177 | the casts round towards zero: the encoding of the opposite angle is the opposite number |
| AngleEncoding.EncodingMonotone | src/KtrSimulator/KtrSimulator.cpp:173-181 | the encoding keeps the order of all angles |
| AngleEncoding.LittleLost | src/KtrSimulator/KtrSimulator.cpp:173-181 | decoding gives the angle back within less than a thousandth of a minute |
| AngleEncoding.NoOverflow | src/KtrSimulator/KtrSimulator.cpp:174-179 | below 21474 degrees every product and sum of the encoding fits an int |
| AngleEncoding.RecoveredExactly | src/KtrSimulator/KtrSimulator.cpp:255-261 | the three bytes give the encoded number back if and only if the angle is below 168 degrees and not a thousandth of a minute or more below zero |
| AngleEncoding.MinusOneDegree | src/KtrSimulator/KtrSimulator.cpp:255-261 | the bytes of minus one degree give back another number |
| AngleEncoding.EncodeAutopilotPosition | src/KtrSimulator/KtrSimulator.cpp:252-263 | the message is AG, latitude, longitude, and when each of them can be read back from it |

## Left out

- Sockets, timers, the retry in `sendMessage`, and `fromUtf8`: only the bytes and the outcomes are modelled.
- `QtLocalPeer::isClient` listening on its server: the result does not change the answer.
- LockedFileUnix.QtLockedFile.Lock: the class follows one object; what the others leave in the kernel between its two fcntl() calls is a parameter. All processes together are the step system's.
- Progress of the Unix lock: who waits in fcntl() and when a deadlock is reported is the kernel's affair.
- The constructors and `open(mode)` of the lock file beyond an open flag; Truncate is refused there.
- BullionClients.BullionClient.ReadyRead: the message sent on an overflow is not modelled.
- `RpcServerBase`, the wiring of method names to slots, and signals: not part of this model.
- `leftKeys` and `rightKeys` of the bidirectional map: they only list keys.
- Floating-point rounding, trigonometric values and the inside of `sqrt`: exact reals with their defining equations.
- `getLatitude` and `getLongitude`: inverse trigonometric functions. A latitude check on the resulting angle is a parameter of `GetEarthSpotNodes`.
- `fixLongitude`, `isLatitudeCorrect`, `getGeoBorder` and the other PwGis geometry: bodies not in the repository.
- SettingsCodec.NodesFromBytes: what a half-read node holds after the stream has gone bad is not modelled, because the source does not look at the stream's status.
- AngleEncoding.EncodesThousandths: does not model int overflow above 21474 degrees.
- The simulator's list of aircraft, their moving positions and the text messages: look-ups, random numbers and number formatting. A position is given to `EncodeAutopilotPosition`.
- Windows, dialogs, databases, ini settings, the tree model and the JSON declarations: user interface and plumbing.
