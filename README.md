# ChibiOS/GFX: GQUEUE queues and the configuration safety rules

This project models two parts of ChibiOS/GFX in Dafny and proves properties of them.

**GQUEUE** (`include/gqueue/gqueue.h`) provides intrusive linked queues of caller-owned items. It has three variants:

- **ASync**: no operation blocks.
- **GSync**: Get waits on a counting semaphore until an item is there.
- **FSync**: Get waits as GSync does. Put and Push also wait, on a semaphore inside the item, until that item has been taken out again.

Each variant offers Init, Get (Pop is the same operation), Put, Push, Remove, IsEmpty and IsIn.

Each variant is a `Queue` class whose fields are the source's fields: `head`, `tail`, and the semaphore count `sem` for GSync and FSync. The shared `Item` class has the intrusive `next` link. Its `released` flag stands for an FSync item's semaphore. A ghost sequence `Contents` lists the linked items head first. `Valid()` ties `Contents` to the real links: the items are distinct, each `next` points to the following item, and the last item's `next` is null. For GSync and FSync, `Valid()` also requires that the semaphore counts the linked items.

IsIn and Remove walk the list with a loop, `GQueueCore.Locate`. The ordering guarantees are proved on a value model of the contents (`Op`, `After`, `Handed`):

- Put with Get is FIFO.
- Push with Pop is LIFO.
- Remove takes out exactly the one item.

**gfx_rules.h** is an ordered chain of preprocessor checks over the user's configuration macros. Each check either raises an `#error` or switches on a macro that another one depends on, and later checks see the macros switched on by earlier ones.

A macro is modelled as an integer, as the preprocessor sees it. TRUE is 1. FALSE and an undefined macro are 0. `#if X` holds when X is not 0.

Each block of the chain is a method, and its body follows the source's `#if` nesting. `Resolve` runs the blocks in the source's order. It is proved to produce:

- the macros given by a closed-form function, `Closure`;
- the errors given by a second closed form, `Errors`.

The properties proved about these closed forms:

- Resolution only switches macros on.
- It switches one on only when a rule needs it.
- It leaves a configuration that satisfies every dependency unchanged.
- It is idempotent.
- The build goes through exactly when the resolved configuration satisfies all the rules.

## Model

| member | source | states |
|---|---|---|
| GQueueCore.Locate | include/gqueue/gqueue.h:206-221 | The walk from `head` finds `pitem` exactly when it is linked; on success it returns the item's position and the item linked before it (null for the head) |
| GQueueCore.Without | include/gqueue/gqueue.h:173-190 | Removing an item that is not linked changes nothing; removing a linked one shortens the contents by one and introduces no item |
| GQueueCore.WithoutAt | include/gqueue/gqueue.h:173-190 | Removing the item at position k (its first occurrence) leaves every other item in the same order |
| GQueueCore.WithoutRemovesAll | include/gqueue/gqueue.h:173-190 | In a queue of distinct items, the removed item is no longer in the queue and the rest stay distinct |
| GQueueCore.UnlinkedChain | include/gqueue/gqueue.h:173-190 | Making the predecessor (or head) skip the item at position k and moving `tail` off it leaves a well-linked chain of exactly the remaining items |
| GQueueCore.PutGetIsFifo | include/gqueue/gqueue.h:93-95 | With only Puts and Gets, the items handed out, followed by what is left, equal the initial contents followed by the put items in order: a FIFO |
| GQueueCore.PushPopIsLifo | include/gqueue/gqueue.h:93-95 | Pushing items one by one and then popping as many times hands them back in reverse order and restores the contents: a stack at the head |
| GQueueCore.RunAppend | include/gqueue/gqueue.h:93-95 | Running two sequences of operations one after the other gives the same contents and the same handed-out items as running them joined |
| GQueueASync.Queue.Init | include/gqueue/gqueue.h:88-103 | A new ASync queue is valid and empty |
| GQueueASync.Queue.Get | include/gqueue/gqueue.h:105-119 | An empty queue gives null and stays empty; otherwise the head item is returned and unlinked, and the rest stay in order |
| GQueueASync.Queue.Put | include/gqueue/gqueue.h:121-139 | An unlinked item is linked at the tail and the earlier items keep their order |
| GQueueASync.Queue.Push | include/gqueue/gqueue.h:153-171 | An unlinked item is linked at the head, so it is the next one out |
| GQueueASync.Queue.Remove | include/gqueue/gqueue.h:173-190 | The item is unlinked from wherever it is, the rest keep their order, and an item that was not linked leaves the queue unchanged |
| GQueueASync.Queue.IsEmpty | include/gqueue/gqueue.h:192-204 | TRUE exactly when no item is linked |
| GQueueASync.Queue.IsIn | include/gqueue/gqueue.h:206-221 | TRUE exactly when the item is linked |
| GQueueGSync.Queue.Init | include/gqueue/gqueue.h:88-103 | A new GSync queue is valid and empty, with a zero semaphore |
| GQueueGSync.Queue.Get | include/gqueue/gqueue.h:105-119 | As ASync Get, for any wait that can end: on an empty queue every finite wait times out with null; otherwise the head is taken and the semaphore goes down by one |
| GQueueGSync.Queue.Put | include/gqueue/gqueue.h:121-139 | Links the item at the tail and signals the semaphore, which keeps counting the linked items |
| GQueueGSync.Queue.Push | include/gqueue/gqueue.h:153-171 | Links the item at the head and signals the semaphore |
| GQueueGSync.Queue.Remove | include/gqueue/gqueue.h:173-190 | Unlinks the item from wherever it is and keeps the semaphore equal to the number of linked items; an unlinked item changes nothing |
| GQueueGSync.Queue.IsEmpty | include/gqueue/gqueue.h:192-204 | TRUE exactly when no item is linked |
| GQueueGSync.Queue.IsIn | include/gqueue/gqueue.h:206-221 | TRUE exactly when the item is linked |
| GQueueFSync.Queue.Init | include/gqueue/gqueue.h:88-103 | A new FSync queue is valid and empty, with a zero semaphore |
| GQueueFSync.Queue.Get | include/gqueue/gqueue.h:105-119 | As GSync Get; in addition the item taken is released (its producer's wait ends), and no other item's release state changes |
| GQueueFSync.Queue.Put | include/gqueue/gqueue.h:121-139 | Links the item at the tail and waits while other threads complete a given number of Gets; TRUE exactly when the item was taken out, FALSE on a timeout with the item still linked; TIME_IMMEDIATE never waits and TIME_INFINITE waits until the item is taken |
| GQueueFSync.Queue.Push | include/gqueue/gqueue.h:153-171 | As Put, but the item is linked at the head, so the first Get completed by another thread takes it |
| GQueueFSync.Queue.Append | include/gqueue/gqueue.h:121-139 | The linking half of Put: the item goes to the tail, unreleased, and the semaphore is signalled |
| GQueueFSync.Queue.Prepend | include/gqueue/gqueue.h:153-171 | The linking half of Push: the item goes to the head, unreleased, and the semaphore is signalled |
| GQueueFSync.Queue.AwaitTaken | include/gqueue/gqueue.h:129-131 | The waiting half of Put and Push: after n Gets by other threads, the first n items are released and gone, and the result is TRUE exactly when the producer's item was among them |
| GQueueFSync.Queue.Remove | include/gqueue/gqueue.h:173-190 | Unlinks the item from wherever it is and releases it, so that a producer waiting on it is signalled; an item that is not linked is left alone |
| GQueueFSync.Queue.Unlink | include/gqueue/gqueue.h:173-190 | The unlinking half of Remove: reports whether the item was linked and leaves the contents without it |
| GQueueFSync.Queue.IsEmpty | include/gqueue/gqueue.h:192-204 | TRUE exactly when no item is linked |
| GQueueFSync.Queue.IsIn | include/gqueue/gqueue.h:206-221 | TRUE exactly when the item is linked |
| GQueueScenarios.PutThreeGetFour | include/gqueue/gqueue.h:129-131 | Three FSync Puts with TIME_IMMEDIATE all time out and leave their items linked; four Gets then return them in put order and then null, and each producer is released |
| GQueueScenarios.PutThree | include/gqueue/gqueue.h:121-139 | Three Puts with TIME_IMMEDIATE on an empty FSync queue return FALSE and leave the items linked in put order |
| GQueueScenarios.TimeoutThenRemove | include/gqueue/gqueue.h:180-182 | An item whose Put timed out is still in the queue; removing it unlinks it and signals its producer |
| GfxRules.Closure | include/gfx_rules.h:29-148 | The resolved macros: only switched on, never switched off; every dependency the chain enforces holds; no macro outside the six the rules may force is written; none is switched on without a rule needing it; an already consistent configuration is left as it is; with no OS given, ChibiOS alone is selected |
| GfxRules.Resolve | include/gfx_rules.h:19-148 | Running the blocks in their order yields the closed-form macros of `Closure` and the errors of `Errors`, neither of which depends on GFX_DISPLAY_RULE_WARNINGS; with that macro FALSE, the default, no warning is shown |
| GfxRules.GosRules | include/gfx_rules.h:29-38 | With no OS on, ChibiOS is switched on (with a warning when warnings are enabled); an OS sum other than TRUE is an error |
| GfxRules.GwinRules | include/gfx_rules.h:40-81 | With GWIN on: no GDISP is an error, no CLIP a warning, the button rules apply, and a console without GDISP_NEED_TEXT is an error; nothing happens otherwise |
| GfxRules.ButtonRules | include/gfx_rules.h:49-73 | A button without GDISP_NEED_TEXT is an error; GEVENT is switched on; a missing mouse/toggle input is warned about; MULTITHREAD is switched on when neither MULTITHREAD nor ASYNC is |
| GfxRules.GinputRules | include/gfx_rules.h:83-98 | With GINPUT on, GEVENT and GTIMER are switched on, each with its own warning; no error |
| GfxRules.GdispRules | include/gfx_rules.h:100-113 | With GDISP on, MULTITHREAD with ASYNC is an error, and ASYNC switches both GQUEUE and GQUEUE_NEED_GSYNC on unless both already are |
| GfxRules.GaudinRules | include/gfx_rules.h:118-126 | With GAUDIN and GEVENT on, GTIMER is switched on |
| GfxRules.GadcRules | include/gfx_rules.h:128-136 | With GADC on, GTIMER is switched on |
| GfxRules.GtimerRules | include/gfx_rules.h:141-148 | Only warnings: with GTIMER and GDISP on and neither MULTITHREAD nor ASYNC; no macro or error changes |
| GfxRules.NoErrorsIffAccepted | include/gfx_rules.h:29-113 | The chain raises no error exactly when the resolved configuration satisfies every rule: a single OS, GWIN with GDISP, text for buttons and consoles, and not both MULTITHREAD and ASYNC |
| GfxRules.ResolveIdempotent | include/gfx_rules.h:19-148 | Resolving an already resolved configuration changes no macro and raises the same errors |
| GfxRules.OneOs | include/gfx_rules.h:29-38 | With the OS macros TRUE or FALSE, the OS rule lets the build through exactly when one OS is on after resolution |
| GfxRules.OsSumAdmitsTwoOses | include/gfx_rules.h:36-38 | The OS rule adds the macros' values: with an OS macro of -1, two OSes can both be on without the error |
| GfxRules.ButtonThenAudio | include/gfx_rules.h:49-126 | GEVENT switched on by the button rule is seen by the later GAUDIN rule, which then switches GTIMER on, with no error and, with warnings off, no warning |

## Left out

- Threads, blocking and time are not modelled. A wait is represented by its outcome.
- GQueueGSync.Queue.Get: a TIME_INFINITE Get on an empty queue would block until another thread puts an item, and with one thread it never returns. Its requires excludes that call, and the model does not capture a Put made by another thread while Get waits.
- GQueueFSync.Queue.Get: same exclusion as GSync Get for a TIME_INFINITE Get on an empty queue.
- GQueueFSync.Queue.Put and GQueueFSync.Queue.Push:
  - The Gets that other threads complete during the wait are given as a count parameter, `takenMeanwhile`. The model covers only Gets; a Remove by another thread during the wait is not modelled.
  - Which waits time out is not modelled: any count up to the queue length is admitted for a finite wait other than TIME_IMMEDIATE.
- The PSync variant is not modelled, because the header says it is not implemented.
- `include/gqueue/gqueue.c` is not part of this model. Two behaviours are assumed from the header's notes and the semaphore fields:
  - Linking an FSync item resets its semaphore.
  - Get and Remove take one count off the queue's semaphore for each item they unlink.
- `delaytime_t` and TIME_IMMEDIATE / TIME_INFINITE follow the Win32 port (`include/gos/win32.h`). The other OS ports are not part of this model.
- gfx_rules.h:
  - The `#warning` texts are modelled as tags only. The compiler's printing of them is not modelled.
  - The chain keeps going after an `#error` (the preprocessor carries on) and collects every error, although a real build stops at the first one.
  - The empty blocks (GWIN_NEED_GRAPH, TDISP, GEVENT, GAUDOUT, GQUEUE, GMISC) are not modelled, because they do nothing.
- GfxRules.Resolve: the warnings are specified block by block in each block method's contract. Resolve's own contract states only that no warning is shown when GFX_DISPLAY_RULE_WARNINGS is FALSE, not the closed form of the warnings when it is TRUE.
- The configuration headers that set the macros (`halext/include/gdisp.h`, the driver configuration files) are not modelled. The model takes any macro values as input.
