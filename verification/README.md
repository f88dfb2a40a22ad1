# MPStuBS in Dafny

A model of MPStuBS, a small teaching kernel for multiprocessor PCs, and proofs about it. It covers the
concurrent core of the kernel, the data structures under it, the text output pipeline, the arithmetic of
the interval timer and the keyboard decoder. `dafny verify dfyconfig.toml` checks all of it.

## What is modelled

**The kernel as a step machine** (`KernelState.dfy`). `KernelState.Next` is a labelled transition system
over any number of CPUs below 2^32. Each CPU has an interrupt-enable bit, the guard's flag, an epilogue
queue, registers and a stack pointer. Each thread and each CPU's boot code has a stack of suspended control
flows, each with a program counter. The accesses to flags, lock words, `queue_flag`, life pointers, kill flags
and the interrupt controller in `Guard::enter`, `leave` and `relay`, in `Gate`, in `Ticketlock`, in `Scheduler`,
`Dispatcher` and `Assassin` are steps of their own, and so are the save and the load half of `toc_switch`. One
operation on the ready list or an epilogue queue is one step, and so is the scan of the life pointers in
`Scheduler::kill`: only the CPU that holds the lock, or that owns the queue with interrupts masked, is at such a
step. Interrupts arrive between any two steps while they are enabled,
on top of whatever runs. Which stack a CPU runs on is decided by its stack pointer alone, so the
representation does not rule out that two CPUs run on one stack; that is proved. Ticket counters wrap at
2^32. `KernelInvariant.Inv` is the invariant, `KernelInduction` proves that it is inductive, and the modules
after it prove what holds in every run from boot: `KernelInterrupts` what becomes of an interrupted and of a
handling control flow, `KernelLevels` when interrupts are enabled and in which order epilogues run,
`KernelOperations` what each operation does to the threads.

Three things are visible in the machine that the code does not advertise. `Dispatcher::active` returns
before its `enable_int`, so `resume` and the assassin's epilogue go on with interrupts masked
(thread/dispatcher.cc:42-46). A null thread, used by `exit` with an empty ready list or by the assassin on a
CPU without a thread, leads to the program counter `Fault` and nothing further. `resume` puts the current
thread into the ready list before its registers are saved; that this is safe rests on the lock being held
until the successor releases it.

**The scheduler as one CPU executes it** (`Scheduler.dfy`): the imperative operations over the ready list,
the life pointers and the kill flags. `KernelAtomic.OperationIsAtomic` proves that the interleaved steps of the
machine, from the entry of a guarded operation or an epilogue to its end, amount to these operations.

**Registers and memory** (`Toc.dfy`): `toc_go`, `toc_switch` and `toc_settle` as moves of machine words.

**Data structures**: the intrusive queue with its pointer to a next field, on the heap (`IntrusiveQueue.dfy`),
and the ring buffer, both as a class and as two processes whose reads and writes interleave
(`RingBuffer.dfy`).

**Output**: `Terminal.dfy` says what printing a text in a window means, `Layout.dfy` what that puts where,
`Screen.dfy` is the code that does it
(cell memory, cursor registers, windows), `Stream.dfy` has the buffering and the stream operators,
`NumberText.dfy` the text of numbers.

**Arithmetic and keyboard**: `Division.dfy`, `Watch.dfy`, `Keyboard.dfy`.

The model takes these things from outside: the results of prologues, the tick rate measured by the local
APIC, the bytes from the keyboard, the registers that code between the modelled steps leaves behind. It
assumes sequential consistency; that `ready` is called only on a live thread that is neither queued nor
running; that `schedule` is called from boot code; that a thread's kill flag, the decoder's prefix and the
LED byte start out zero, as global storage does; that interrupt destination bit c selects CPU c; that an
inter-processor interrupt, once sent, stays pending until its CPU takes it, and that a second one sent to the
same CPU before that merges with it.

## What does not hold

**`Watch::windup` against its documentation.** It promises to report whether the interval could be set
(device/watch.h:50). It never returns false: `_divide` is a byte and wraps from 128 to 0 before it is compared
with 128. `Watch.Watch.Windup` proves this, `Watch.DividerMatches` gives the exact condition under which the
settings are right, `Watch.OutOfRange` what happens beyond it, and `Watch.OutOfRangeExample` an input. `windup`
does not reset `_divide` either, so a second call multiplies onto the divider of the first.

**A kill can be missed.** `Scheduler::kill` evicts a thread that runs elsewhere by an interrupt whose epilogue
resumes if the CPU's thread is dying. The assassin is one gate with one `queue_flag` for all CPUs. If the interrupt
finds the flag of its CPU up while another CPU has the gate in its queue, `set_queued` reports it queued, this CPU
queues nothing, and the one epilogue runs on the other CPU. The killed thread runs on. `KernelMissedKill.KillCanBeMissed`
is a run from boot that ends so: two threads kill each other, as user/app1/appl.cc:39-40 can make them do, each
CPU being inside the guard when its interrupt comes. `KernelEviction.EvictionExactly` proves that this is the only
way: eviction stays under way in every state if and only if its CPU does not read `queue_flag` set on behalf of
another one.

Three behaviours that no documentation speaks about, but a caller may not expect:

- `CGA_Stream::set_attribute` also recolours characters that are buffered but not yet flushed, since the
  attribute is read at the flush (device/cgastr.cc:23-35). `Output.PendingRecoloured` and `Output.ChangeIsInvisible`
  say exactly when.
- `O_Stream` returns to base ten after a number, but not after an unsigned zero, which returns early
  (object/o_stream.cc:75-78).
- A tab blanks the cells it passes except the last one, whose content stays (machine/cgascr.cc:120-131).

## Model

| member | source | states |
|---|---|---|
| KernelInduction.InitInv | guard/guard.cc:17-88 | the state after boot satisfies the invariant of the whole kernel machine |
| KernelInduction.NextInv | thread/scheduler.cc:15-97 | every transition of every CPU (steps, interrupts, returns, switches, system calls) keeps the invariant: stack shape, tickets, gates, thread placement, saved contexts |
| KernelTheorems.Always | guard/guard.cc:17-88 | the invariant holds in every state of every run from boot |
| KernelTheorems.MutualExclusion | guard/guard.cc:17-54 | at most one CPU is between acquiring and releasing the guard's lock, in every run, across thread switches, kills and counter wrap-around |
| KernelTheorems.LockNeverLost | machine/ticketlock.h:45-60 | the counters agree exactly when no CPU has a ticket; otherwise some CPU holds the lock or it is a waiting CPU's turn: the lock is never leaked |
| KernelTickets.Draw | machine/ticketlock.h:45-46 | drawing a ticket keeps the queue of tickets consecutive modulo 2^32 and the waiting CPUs distinct |
| KernelTickets.Turn | machine/ticketlock.h:50 | only the first CPU in ticket order can see its turn, because fewer than 2^32 tickets are out |
| KernelTickets.Unlock | machine/ticketlock.h:57-60 | the holder's increment of the turn passes the lock to the next ticket, wrapped or not |
| KernelTickets.OneHolder | machine/ticketlock.h:45-60 | two CPUs that own the lock are the same CPU, the first in ticket order |
| KernelTheorems.StacksExclusive | machine/toc.asm:36-57 | no two CPUs ever run on one stack |
| KernelTheorems.ReadyThreadsSaved | thread/scheduler.cc:58-86 | whenever the lock is free, every thread in the ready list is off all CPUs and its registers and stack are those of its last call of toc_switch |
| KernelInduction.LoadedContext | thread/thread.cc:18-22 | whatever a CPU is about to load is completely saved and run by no other CPU, even though resume queues a thread before it is saved |
| KernelTheorems.SwitchRoundTrip | machine/toc.asm:36-57 | a thread that switches away and is next loaded on any CPU continues with the registers, the stack and the return address it had, whatever ran in between |
| KernelGuard.GuardState | guard/guard.cc:17-54 | a CPU whose flag is down has an empty epilogue queue and holds no ticket, except in the masked window between clearing the flag and releasing the lock |
| KernelGuard.QueueFlagExact | guard/gate.h:59-72 | queue_flag is set exactly when some CPU has the gate in its queue, or is between set_queued and enqueue or between dequeue and set_dequeued |
| KernelGuard.QueuedOnce | guard/guard.cc:64-72 | over all CPUs a gate is queued or in such a window at most once |
| KernelGuard.RequestRecorded | guard/gate.h:65-72 | when queue_flag is written, an epilogue of the gate is owed by some CPU, by this one if the gate was not queued before |
| KernelGuard.RequestNotLost | guard/guard.cc:58-88 | a prologue that asks for its epilogue while its CPU's flag is up has its CPU on the way to the write of queue_flag; from that write on, new or coalesced, an epilogue of the gate stays owed, by one CPU whose flag stays up, until it starts there |
| KernelInterrupts.InterruptIsServed | guard/guard.cc:58-88 | a prologue of any gate that asks for its epilogue while the flag is down: the handler's frame goes through the test, enable_int and Guard::enter in this order, on whichever CPUs run its stack, and leaves this path only by starting that epilogue |
| KernelInterrupts.CallIsExecuted | guard/guard.cc:17-28 | a guarded call from level 0 goes through Guard::enter and leaves it only by starting the operation it asked for, on its own stack and in its own frame |
| KernelInterrupts.EnteredIsBegun | guard/guard.cc:17-28 | a frame inside Guard::enter, for a call or an epilogue, never goes back and never leaves except into that body |
| KernelInterrupts.InterruptTransparent | boot/startup.asm:109-125 | an interrupt starts the gate's prologue; whatever then runs, on whichever CPUs, the interrupted frames stay as they were until a CPU returns to them with the registers, stack and interrupt-enable bit they had |
| KernelLevels.Interruptible | guard/guard.cc:17-88 | interrupts are enabled at every step of waiting for the lock, of critical sections, of epilogues and of toc_switch, and disabled in prologues, set_queued, set_dequeued, the rest of leave and resume up to the switch |
| KernelLevels.EpiloguesInOrder | guard/guard.cc:33-50 | a queued gate is overtaken by none: its place in its CPU's queue falls by exactly the number of gates taken |
| KernelLevels.QueueStep | guard/guard.cc:33-72 | gates are added at the end of the own CPU's queue and taken at its front, from where they go on to their epilogue |
| KernelLevels.ThreadsAreTimed | thread/scheduler.cc:89-97 | a CPU that runs on a thread's stack has its timer running, so every thread can be preempted |
| KernelThreads.OnePlaceAlways | thread/scheduler.cc:58-86 | in every reachable state a thread is at most once in the ready list and in at most one life slot, and in both only while its CPU holds the lock on its way out of it |
| KernelThreads.KillIsFinal | thread/scheduler.cc:22-50 | once kill has passed its removal step, the thread is never again in the ready list, never on its way to a CPU and never loaded, in any continuation |
| KernelThreads.MaskIsOneBit | thread/scheduler.cc:46-49 | the 8-bit destination mask has exactly the target's bit, and no CPU's bit when the thread runs nowhere |
| KernelThreads.KillInterruptsItsCpu | thread/scheduler.cc:38-49 | the interrupt of a kill goes to exactly the CPU whose life pointer is the thread |
| KernelThreads.BoundedBypass | thread/scheduler.cc:15-97 | while a thread waits in the ready list, no more threads are taken off it than stood in front, on any CPUs |
| KernelThreads.ReadyUntilChosen | thread/scheduler.cc:58-97 | a thread leaves the ready list only by being killed, or as first of the list, chosen by the CPU that dequeues it |
| KernelThreads.ChosenUntilLoaded | thread/dispatcher.cc:22-40 | a chosen thread is never lost: it stays bound to its CPU until that CPU loads it; only an exit called on a CPU without a thread faults instead |
| KernelThreads.ServedInTurn | thread/scheduler.cc:15-97 | a thread at position k of the ready list leaves it no later than by the (k+1)-th dequeue on any CPUs, by a kill or chosen by a CPU, and then it is loaded there or still bound to it |
| KernelAtomic.SectionUndisturbed | syscall/guarded_scheduler.h:24-50 | while one CPU holds the lock, no transition of another changes the ready list, a thread or a life pointer |
| KernelAtomic.OperationIsAtomic | syscall/guarded_scheduler.h:24-50 | the body of every critical section (ready, kill, resume, exit, schedule, the epilogues of watch and assassin), interleaved with all other CPUs and interrupts, ends with the outcome, ready list, life pointers, kill flags and interrupts sent of the operation of Scheduler executed alone |
| KernelOperations.ResumeYields | device/watch.cc:49-55 | a resume, called or as the timer's epilogue: a live current thread goes to the end of the ready list, a dying one does not, and the CPU leaves it for the head of that list; it dies on boot code, or if the list is then empty |
| KernelOperations.AssassinYields | thread/assassin.cc:9-15 | the assassin's epilogue does the same for a dying thread, changes nothing for a live one, and faults on boot code |
| KernelOperations.ReadyAppends | thread/scheduler.cc:53-55 | ready appends its thread to the ready list and changes nothing else |
| KernelOperations.KillRemoves | thread/scheduler.cc:22-50 | kill sets this thread's flag, takes the thread out of the ready list if it is there, and changes no other flag, no other entry and no life pointer |
| KernelOperations.ExitSwitches | thread/scheduler.cc:15-19 | exit leaves its thread for the first ready one and puts it nowhere; without one, or on boot code, it faults |
| KernelOperations.ScheduleStarts | thread/scheduler.cc:89-97 | schedule starts the first ready thread and takes it off the list; without one the CPU dies |
| KernelOperations.OthersLeaveAlone | guard/secure.h:35-48 | a critical section of other code, or the epilogue of another device, changes no list, life pointer or kill flag |
| KernelAtomic.ResumeIsAtomic | thread/scheduler.cc:58-86 | the same for a resume, whoever calls it, from its first access to its switch or the CPU's stop |
| KernelAtomic.ResumeFindsLive | thread/scheduler.cc:67-83 | resume stops its CPU exactly when neither the current nor any ready thread is live; otherwise its successor is live |
| KernelAtomic.AssassinDecides | thread/assassin.cc:9-15 | the assassin's epilogue, whatever runs meanwhile, ends as a resume if the CPU's thread is dying at its start, changes nothing if it is not, and faults without a thread |
| KernelThreads.KillSendsInterrupt | thread/scheduler.cc:34-49 | the step that sends the interrupt makes it pending for exactly the CPU that runs the thread |
| KernelEviction.EvictionExactly | thread/scheduler.cc:22-50 | after kill(t) with t running on CPU d, d keeps being about to leave t (interrupt pending, handled, queued, or its epilogue running), or has left it or stopped, in every state up to any later one, if and only if d nowhere reads queue_flag set without having the gate itself |
| KernelEviction.EvictionStep | guard/gate.h:65-72 | the transition that loses an eviction is that read of queue_flag and no other, of any CPU |
| KernelEviction.MissedForAnother | guard/gate.h:65-72 | at such a read another CPU has the gate in its queue or is about to queue or dequeue it |
| KernelMissedKill.KillCanBeMissed | user/app1/appl.cc:39-40 | a run from boot at whose end a CPU runs a killed thread, interrupts enabled, and nothing is on its way to evict it |
| KernelProgress.NoDeadlock | guard/guard.cc:17-88 | whenever a CPU spins for the lock or a gate_lock, another CPU inside the kernel can go on or has stopped for good |
| KernelProgress.OneCpu | guard/guard.cc:17-88 | every CPU can take a step, spins in one of the two waiting loops, or has stopped |
| KernelProgress.GateLockMoves | machine/spinlock.h:48-58 | a gate_lock is never waited for by its own holder, and the holder is always able to go on |
| KernelProgress.StopsExactly | thread/scheduler.cc:15-97 | from the state in which an operation is entered: its CPU will use a null thread exactly if it exits with nothing ready or from boot code, or runs the assassin's epilogue on boot code; it will die exactly if it resumes on boot code, or from a dying thread with nothing ready, or schedules with nothing ready |
| KernelProgress.StoppedByOperation | thread/assassin.cc:9-15 | whenever a CPU has stopped, in any run, it entered such an operation with such a cause |
| KernelProgress.NoThreadOnBoot | thread/dispatcher.cc:22-46 | outside the switch window a CPU has no thread exactly while it runs its own boot stack, and otherwise it runs on the stack of its thread |
| Scheduler.Scheduler.Active | thread/dispatcher.cc:41-46 | returns the CPU's life pointer and leaves interrupts disabled |
| Scheduler.Scheduler.SetActive | thread/dispatcher.cc:34-39 | sets this CPU's life pointer, no other, and leaves interrupts enabled |
| Scheduler.Scheduler.Dispatch | thread/dispatcher.cc:26-32 | switches from the old to the new thread, or uses a null thread if one is missing |
| Scheduler.Scheduler.Exit | thread/scheduler.cc:15-19 | switches to the first ready thread without queueing the current one; crashes exactly when there is none or the CPU runs none |
| Scheduler.Scheduler.Kill | thread/scheduler.cc:22-50 | marks the thread; takes it off the ready list, or names the CPU to interrupt |
| Scheduler.Scheduler.Resume | thread/scheduler.cc:58-86 | outcome, ready list and life pointers after a resume, with the loop that skips dying threads |
| Scheduler.Scheduler.Schedule | thread/scheduler.cc:89-97 | starts the first ready thread, or stops the CPU if there is none |
| Scheduler.Scheduler.AssassinEpilogue | thread/assassin.cc:9-15 | resumes if the CPU's thread is dying, else nothing; a crash without a thread |
| Scheduler.ResumeConserves | thread/scheduler.cc:58-86 | ready and running threads together are conserved by a resume, except for dying ones that are dropped |
| Scheduler.ResumeOutcome | thread/scheduler.cc:67-83 | from a live current thread there is always a live successor; the CPU stops exactly when current and ready threads are all dying |
| Toc.Machine.Go | machine/toc.asm:18-27 | all callee-saved registers and the stack pointer come from the structure, and execution goes on at the address on top of that stack |
| Toc.Machine.Switch | machine/toc.asm:37-57 | the first structure holds the registers at the call, nothing else in memory changes, and execution goes on with the registers in the second, also when both are the same |
| Toc.Machine.Settle | machine/toc.cc:12-23 | the prepared stack and structure; all other memory is unchanged |
| Toc.SwitchRoundTrip | machine/toc.asm:37-57 | two switches compose to a plain return: same registers, stack pointer and return address |
| Toc.SwitchToSelf | machine/toc.asm:37-57 | switching to the own structure is a plain return |
| Toc.FirstRun | machine/toc.cc:12-23 | the first switch to a settled thread enters kickoff with the thread as argument and the panic routine as return address |
| Toc.FirstGo | machine/toc.asm:18-27 | so does starting a CPU's first thread |
| IntrusiveQueue.Queue.Enqueue | object/queue.h:93-99 | appends to the sequence; the list stays acyclic and tail points at the last next field |
| IntrusiveQueue.Queue.Dequeue | object/queue.h:105-120 | takes the first element and clears its link, or returns null when empty |
| IntrusiveQueue.Queue.Remove | object/queue.h:176-196 | removes the first match, wherever it is, the last element included; returns it or null |
| IntrusiveQueue.Queue.InsertFirst | object/queue.h:201-208 | prepends to the sequence |
| IntrusiveQueue.Queue.InsertAfter | object/queue.h:215-222 | inserts behind the given element and moves tail if that was the last |
| IntrusiveQueue.Queue.Iterate | object/queue.h:131-162 | the iterator sees exactly the contents, in order |
| IntrusiveQueue.Queue.Unlinked | object/queue.h:181-193 | what cutting one position out does to every neighbour and to the last field |
| IntrusiveQueue.Queue.Linked | object/queue.h:215-222 | what putting one element in does to every neighbour and to the last field |
| RingBuffer.BBuffer.Produce | object/bbuffer.h:39-49 | appends, or refuses exactly when CAP-1 elements are held |
| RingBuffer.BBuffer.Consume | object/bbuffer.h:56-64 | takes the first element, or refuses exactly when empty |
| RingBuffer.ConcurrentFifo | object/bbuffer.h:39-64 | under every interleaving of the two sides' reads and writes, consumed followed by buffered elements are the produced ones, and at most CAP-1 are held |
| RingBuffer.UnreadNotOverwritten | object/bbuffer.h:42-44 | no step of the producer changes an unread element |
| RingBuffer.ProduceOutcome | object/bbuffer.h:40-48 | at its read of out the producer gives up exactly when CAP-1 elements are unread |
| RingBuffer.ConsumeOutcome | object/bbuffer.h:56-64 | whatever the producer does meanwhile, a consume call gives up exactly if nothing was unread when it read in |
| RingBuffer.ProducerAdvances | object/bbuffer.h:39-49 | a produce call that goes on publishes the value it was called with, and nothing before its write of in |
| RingBuffer.ConsumerAdvances | object/bbuffer.h:56-64 | a consume call that goes on takes the first unread element, and nothing before its write of out |
| Terminal.PrintConcat | machine/cgascr.cc:70-175 | printing two parts in sequence is printing the whole, for every split of every text |
| Terminal.PrintConfined | machine/cgascr.cc:85-174 | printing changes no cell outside its window |
| Terminal.PrintLocal | machine/cgascr.cc:85-174 | what a window shows afterwards depends on that window's cells and cursor alone |
| Terminal.WindowsCommute | device/cgastr.cc:16-20 | output to two disjoint windows gives the same screen and cursors in either order |
| Terminal.WindowsTile | device/cgastr.cc:16-20 | the five windows of the system are disjoint and cover the screen |
| Terminal.TabStop | machine/cgascr.cc:120-131 | within a line a tab moves to the next multiple of four, blanks what it passes except the last cell and changes nothing else |
| Layout.OrdinaryShown | machine/cgascr.cc:97-171 | an ordinary character replaces the cell at the cursor by itself in its colours and no other; then the cursor goes one column on, or to the next line at the right edge, or the window moves up in its last line |
| Layout.NewlineShown | machine/cgascr.cc:97-171 | a line break writes no character: column 0 of the next line, or the window moves up and its last row is blank |
| Layout.BackspaceShown | machine/cgascr.cc:91-138 | a backspace goes one column back, stopping at the left edge, and blanks the cell there and no other |
| Layout.NulShown | machine/cgascr.cc:86-90 | a zero character does nothing |
| Layout.TabShown | machine/cgascr.cc:111-131 | a tab, wherever the edges are, is as many blanks as it has columns, but that its last column is passed without writing |
| Layout.TextLaidOut | machine/cgascr.cc:85-174 | a text of ordinary characters that leaves room in the window stands there character by character from the cursor on, wrapped at the right edge, in its colours; every other cell is the same and the cursor is behind it |
| Screen.CursorRoundTrip | machine/cgascr.cc:21-67 | reading the hardware cursor inverts writing it through two bytes |
| Screen.CgaScreen.SetPos | machine/cgascr.cc:21-44 | sets the hardware or software cursor, or ignores a position outside the window; the hardware registers get the two bytes of the cell's number |
| Screen.CgaScreen.GetPos | machine/cgascr.cc:47-67 | returns the cursor and does not move it |
| Screen.CgaScreen.Show | machine/cgascr.cc:191-214 | writes one cell, negative coordinates counting from the far edge; ignores positions off the screen |
| Screen.CgaScreen.ScrollUp | machine/cgascr.cc:150-162 | the two loops over the window move its rows up by one, blank the last one in the given colours and leave every cell outside alone |
| Screen.TurnedRest | machine/cgascr.cc:85-171 | one turn of the printing loop, tab columns included, leaves what the rest of the printing comes to unchanged |
| Screen.CgaScreen.Print | machine/cgascr.cc:70-175 | the loop terminates and computes Terminal.Print, which the Layout rows above say cell by cell, for the hardware and the software cursor |
| Screen.CgaScreen.Reset | machine/cgascr.cc:178-188 | fills exactly the window and puts the cursor into its corner |
| Output.NothingLost | object/strbuf.cc:5-12 | after any run of inserts and flushes, the characters printed followed by those in the buffer are all characters put |
| Output.FlushTransparent | device/cgastr.cc:23-27 | after a final flush the window shows what one print of the whole text would show |
| Output.FlushPointsInvisible | device/cgastr.cc:23-27 | two runs that put the same characters cannot be told apart once flushed |
| Output.PendingRecoloured | device/cgastr.cc:23-35 | one pending character that writes a cell, wherever it is in the buffer and wherever the cursor is, makes flushes under two colours differ |
| Output.ChangeIsInvisible | device/cgastr.cc:23-35 | changing the colours before the flush is invisible for every cursor and content of the window if and only if the pending characters are all NUL; in particular with an empty buffer |
| Stream.OutStream.constructor | device/cgastr.h:37-48 | a stream starts with an empty buffer, base ten, and its window cleared in its own colours |
| Stream.OutStream.Put | object/strbuf.cc:5-12 | one character more; the buffer is flushed when it is full and has room between calls |
| Stream.OutStream.Flush | device/cgastr.cc:23-27 | prints the buffer and empties it |
| Stream.OutStream.Text | object/o_stream.cc:17-23 | puts the characters up to the terminating zero |
| Stream.OutStream.SetAttribute | device/cgastr.cc:33-35 | changes the colours for everything printed from the next flush on; the buffer stays |
| Stream.OutStream.Bool | object/o_stream.cc:25-33 | puts true or false as a word |
| Stream.OutStream.Bin | object/o_stream.cc:123-127 | puts the prefix 0b, then base two |
| Stream.OutStream.Oct | object/o_stream.cc:129-133 | puts the prefix 0, then base eight |
| Stream.OutStream.Dec | object/o_stream.cc:135-138 | base ten, and no output |
| Stream.OutStream.Hex | object/o_stream.cc:140-144 | puts the prefix 0x, then base sixteen |
| Stream.Convert | object/o_stream.cc:72-87 | the backward loop writes exactly the digits of the number and stays inside its 33 characters |
| Stream.OutStream.Unsigned | object/o_stream.cc:71-89 | puts the unsigned text; base ten afterwards except for zero |
| Stream.OutStream.Signed | object/o_stream.cc:61-69 | puts the signed text; base ten afterwards |
| Stream.OutStream.Pointer | object/o_stream.cc:97-100 | puts a hexadecimal address with prefix; base ten afterwards, even for null |
| Stream.OutStream.Endl | object/o_stream.cc:111-114 | after a line break everything put so far is on the screen |
| NumberText.UnsignedRoundTrip | object/o_stream.cc:71-89 | reading the text of an unsigned number gives it back, and it has no leading zero, for every base from 2 to 36 |
| NumberText.DigitIs | object/o_stream.cc:83 | the digits are 0 to 9 and then the small letters a to z |
| NumberText.TextIsUnique | object/o_stream.cc:71-89 | every digit sequence without leading zero is the text of the number it stands for |
| NumberText.SignedRoundTrip | object/o_stream.cc:61-69 | reading the text of any signed 32-bit number gives it back, the minimum included; the text has no leading zero, a minus sign exactly if the number is negative and the base ten, and is the machine word to other bases |
| NumberText.SignedTextIsUnique | object/o_stream.cc:61-69 | every text of that form is the text of the number it stands for, and of no other |
| NumberText.DigitsFit | object/o_stream.cc:72-87 | a number below 2^k has at most k digits to any base, so the buffer index never falls below its start |
| Division.Div64 | utils/math.h:20-43 | exact quotient and remainder for every 64-bit numerator and every nonzero denominator, although every operation is taken modulo 2^64 |
| Division.ShiftLeft | utils/math.h:23-26 | the shifting loop loses no bit and ends after at most 63 turns |
| Division.TakeBit | utils/math.h:28-36 | one turn of the second loop moves one bit of the quotient out of the remainder, without overflow |
| Watch.Watch.Windup | device/watch.cc:9-41 | counter and divider after any call on any watch, and that the call always reports success |
| Watch.Watch.Interval | device/watch.cc:58-62 | the period of the stored counter and divider, computed without overflow |
| Watch.TicksFit | device/watch.cc:13-17 | the tick count is the whole number of ticks in the interval, at a rate given per millisecond |
| Watch.PeriodFits | device/watch.cc:58-62 | the period is the whole number of microseconds that the counter takes with its divider |
| Watch.ShiftsLeast | device/watch.cc:21-29 | the tick count is halved exactly as often as is needed to fit |
| Watch.DividerMatches | device/watch.cc:21-29 | the stored divider matches the stored counter if and only if the watch was fresh and the tick count is below 2^38+128 |
| Watch.IntervalBound | device/watch.cc:58-62 | in that range the interval is at most the one asked for, and short of it by at most the rounding of divider and tick rate |
| Watch.OutOfRange | device/watch.cc:21-39 | beyond that range the interval reads zero although success was reported |
| Watch.OutOfRangeExample | device/watch.cc:9-62 | fifty minutes at 100000 ticks a millisecond, a 100 MHz bus: windup on a fresh watch returns true and interval returns zero |
| Keyboard.BitsIndependent | machine/key.h:84-177 | setting one modifier bit sets it and leaves all others alone |
| Keyboard.Decoder.SetLed | machine/keyctrl.cc:95-115 | sets or clears the LED's bit in the control byte |
| Keyboard.Decoder.GetAsciiCode | machine/keydecoder.cc:49-94 | character and scan code chosen by prefix and modifiers, in their order of precedence |
| Keyboard.Decoder.Decode | machine/keydecoder.cc:104-225 | prefix, key and LED byte after one byte from the keyboard |
| Keyboard.KeyboardHistory | machine/keydecoder.cc:104-225 | after any byte sequence, the prefix is the previous byte if that was 0xe0 or 0xe1; Shift (42, 54), Alt (56) and Ctrl (29), left and right told by 0xe0, are set exactly if the last of their codes came without the break bit; each lock (58, 69, 70) is the parity of its presses; the LED byte is ScrollLock 1, NumLock 2, CapsLock 4 |
| Keyboard.KeyReported | machine/keydecoder.cc:147-216 | which bytes yield a key, and its character and scan code from the byte history alone: keypad digits under NumLock whatever else is held, AltGr before Shift, CapsLock for letters only |
| Keyboard.CapsLockIsCapital | machine/keydecoder.cc:10-87 | in the program's tables, CapsLock without Shift turns every key's character into its capital, umlauts included, and changes no key without one |
| Keyboard.KeypadIsMainBlock | machine/keydecoder.cc:60-70 | in the program's tables, a keypad key under NumLock gives the character and the scan code of the key with that label in the main block |

## Left out

- Hardware access: I/O ports, local and I/O APIC, CMOS, PIT, PIC, starting the other CPUs; the interrupt and cursor hardware appear as abstract steps and two bytes.
- ACPI and MP table discovery, GDT, plugbox, guardian dispatch by vector: lookups and raw-memory walks.
- Console, serial line, panic, bell, semaphore, idle thread and applications: declarations or I/O.
- Debug output inside guard, scheduler, dispatcher and watch: tracing only.
- Weak memory: the step machine is sequentially consistent.
- Progress over time: that a waiting CPU is eventually served is not stated, as it depends on fair interrupts; KernelProgress.NoDeadlock and KernelThreads.ServedInTurn state what does not.
- KernelInterrupts.InterruptIsServed: says that the handler leaves its path only by starting the epilogue, not that it gets that far. Its frame lies on the interrupted thread's stack, so if that thread is switched away and killed before the handler enters the guard, the epilogue never runs.
- KernelThreads.KillInterruptsItsCpu: for at most eight CPUs, the width of the destination mask; the program's life array has four entries.
- KernelEviction.EvictionExactly: for at most eight CPUs, for the same reason.
- Scheduler.Scheduler.Kill: scans all life pointers, where the program scans those of the online CPUs.
- Screen.CgaScreen.Print: starts from a cursor inside the window, as it is from the first reset on; before that the program's cursor fields are uninitialised. Windows lie on the screen and are not empty.
- Division.Div64: a zero denominator is excluded; on it the shifting loop never ends.
- Watch.Watch.Interval: a zero tick rate is excluded for the same reason.
- Stream.OutStream.Signed: negating the minimum is undefined in C++; the model wraps, as the machine does.
- Keyboard.Decoder.Decode: make codes 89, 90 and 94 to 127 are excluded; the program would read beyond its tables, which have 89 entries.
- Linking the ready list and the epilogue queues of the step machine to the heap of IntrusiveQueue: the machine uses sequences, which IntrusiveQueue shows the queue to be.
- History fields: `waiting`, `callRegs` and `callStack` in KernelState, `produced` and `consumed` in RingBuffer are never read by a step that the program takes.
