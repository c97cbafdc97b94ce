# go-workerpool, sequential model in Dafny

This project models the core of a small Go worker pool: a generic FIFO
queue (package `queue`), a processor that owns one queue and runs a pool of
polling workers over it (package `processor`), and the registry of two
processors that the HTTP layer enqueues to and queries (package `usecase`).
Locks, goroutines, channels and the ticker are not modelled. Each operation
runs as one atomic step, which is what the source's mutexes provide. A
worker's loop is reduced to one tick step. A run of enqueues and ticks is
described by the trace function `Processor.Run`.

Files, one module each:

- `wrappers.dfy`: `Option`, standing for Go's `(value, ok)` pairs.
- `fmt.dfy`: the `%d` formatting used for message contents and error texts, and a parser that reads it back.
- `queue.dfy`: class `Queue.Queue` over a `seq` field `items`. It comes with the abstract dequeue `Pop` and the FIFO round-trip lemmas.
- `processor.dfy`: class `Processor.Processor`. It owns a `Queue`, holds the worker IDs `Start` launched, and has one `Tick` step. The file also holds the trace semantics `Run` and its ordering lemmas.
- `usecase.dfy`: class `Usecase.Registry`, which stands for the package-level `processors` slice. The file also holds the `Message` and `Error` datatypes.

Where the design description and the code differ, the model follows the code:

- `Processor.Enqueue` returns nothing (processor/processor.go:33). The size after insertion reaches callers only through `Registry.Enqueue`.
- A worker count of zero or less is not rejected. `Start` then launches no worker.

## Model

| member | source | states |
|---|---|---|
| Fmt.NatToString | usecase/usecase.go:28 | the `%d` text of a non-negative size is a non-empty string of decimal digits, with a leading '0' exactly when the value is 0 |
| Fmt.NatToStringRoundTrip | usecase/usecase.go:28 | reading the digits back gives the number printed |
| Fmt.IntToString | usecase/usecase.go:23 | the `%d` text of an int starts with '-' exactly when the int is negative |
| Fmt.IntToStringRoundTrip | usecase/usecase.go:23 | parsing the `%d` text of any int gives back that int |
| Fmt.IntToStringInjective | usecase/usecase.go:23 | different ints print differently |
| Queue.Pop | queue/queue.go:24-36 | one dequeue gives None exactly on an empty queue, which it leaves as it was; otherwise the head, and the head followed by the rest is the old contents |
| Queue.EnqueueAllAppends | queue/queue.go:18-22 | enqueuing x1..xn one call at a time appends exactly x1..xn at the tail, in order |
| Queue.DrainEmpty | queue/queue.go:28-31 | dequeuing an empty queue any number of times returns nothing and leaves it empty |
| Queue.DrainTakesPrefix | queue/queue.go:24-36 | n dequeues return the first min(n, size) items in order and leave the rest |
| Queue.FifoRoundTrip | queue/queue.go:18-35 | enqueuing x1..xn on an empty queue and dequeuing n times yields x1..xn in order; the next dequeue reports ok = false |
| Queue.Queue.constructor | queue/queue.go:12-16 | a new queue is empty |
| Queue.Queue.Enqueue | queue/queue.go:18-22 | the item goes at the tail, the earlier items stay unchanged and in order, and the size grows by exactly one |
| Queue.Queue.Dequeue | queue/queue.go:24-36 | on an empty queue ok = false and the queue is unchanged; otherwise it returns the head and leaves exactly the old tail; agrees with `Pop` |
| Queue.Queue.Peek | queue/queue.go:38-48 | returns the same (item, ok) as `Dequeue` would (ok iff non-empty, item the head), and changes nothing |
| Queue.Queue.Size | queue/queue.go:50-54 | the number of items queued |
| Queue.Queue.IsEmpty | queue/queue.go:56-60 | true exactly when the size is 0 |
| Queue.Queue.Clear | queue/queue.go:62-66 | the queue is empty afterwards, whatever it held, so clearing twice is the same as once |
| Processor.WorkerIdsAreOneToN | processor/processor.go:48-52 | `Start` launches exactly `workers` workers, numbered 1..workers in increasing order, and none when `workers` <= 0 |
| Processor.RunKeepsOrder | processor/processor.go:77-91 | across any run of enqueues and ticks, the items handed to the callback followed by those still queued equal the initial queue followed by the submitted items: nothing is lost, duplicated or reordered |
| Processor.HandedIsPrefixOfSubmitted | processor/processor.go:77-91 | starting from an empty queue, the callback receives a prefix of the submitted items, in submission order |
| Processor.Processor.constructor | processor/processor.go:22-30 | stores the id, worker count and callback; the queue is fresh and empty and no worker is launched |
| Processor.Processor.Enqueue | processor/processor.go:33-37 | appends the message to the owned queue and raises its size by exactly one; agrees with a `Submit` step of `Run` |
| Processor.Processor.GetQueueSize | processor/processor.go:40-44 | returns the owned queue's length and changes nothing |
| Processor.Processor.Start | processor/processor.go:46-53 | appends the worker IDs 1..workers, in launch order, to those already launched |
| Processor.Processor.Tick | processor/processor.go:77-91 | on an empty queue nothing is handed over and the queue is unchanged; otherwise exactly the head is removed and handed to the callback; the queue afterwards is the old tail whether or not the callback reports an error; agrees with a `Tick` step of `Run` |
| Usecase.ErrorTextNamesId | usecase/usecase.go:23 | the text of an invalid-ID error ends with the rejected ID, readable back from it |
| Usecase.GreetingInjective | usecase/usecase.go:28 | messages built at different queue sizes have different contents |
| Usecase.Registry.constructor | usecase/usecase.go:13-15 | before `Initialize` the registry is empty, so no ID is valid |
| Usecase.Registry.Initialize | usecase/usecase.go:17-19 | the registry holds exactly the two given processors in order, and the valid IDs are exactly 0 and 1 |
| Usecase.Registry.Enqueue | usecase/usecase.go:21-33 | an ID < 0 or >= the registry length gives (0, zero Message, invalid-ID error) and changes nothing. A valid ID gives a message whose count is the queue size before insertion and whose content is "Hello World! " followed by that count. The message is appended to that queue. The returned total is the size after insertion, which is count + 1. No other processor's queue changes |
| Usecase.Registry.GetQueueSize | usecase/usecase.go:35-41 | an out-of-range ID gives (0, invalid-ID error); a valid ID gives that processor's queue size and no error |

## Left out

- Queue.Queue.Dequeue: on an empty queue the returned item is Go's zero value of `T`. Dafny has no generic zero value, so the model only says `ok` is false and leaves the item unspecified.
- Queue.Queue.Peek: the item returned on an empty queue is left unspecified, for the same reason.
- The mutexes in `Queue` and `Processor` are not modelled. Every operation is one atomic step, which is what the locks guarantee. Interleavings of concurrent callers are sequences of these steps, as `Processor.Run` describes.
- Goroutines, `sync.WaitGroup`, the stop channel, `context` cancellation, the one-second ticker and `Stop` (processor/processor.go:55-71, 96-99) are not modelled. Their point is concurrency and timing. `Start` records the IDs of the workers it launches instead of spawning them.
- The `recover()` of a panicking callback and the worker's termination (processor/processor.go:56-61) are not modelled. They are Go runtime behaviour. The callback is a total function that returns `true` for a non-nil error.
- The callback's own side effects are not modelled. The `time.Sleep` in main.go's callbacks and the `log.Printf` calls are I/O. `Tick` returns the callback's error flag in place of logging it.
- Processor.Processor.Tick: models one ticker case of a worker's loop, not the loop. Which worker performs a tick is not modelled.
- main.go is not part of this model: gin routing, `strconv.Atoi` on path parameters, the shift from 1-based URL IDs to 0-based registry IDs, signal handling and `os.Exit` are process wiring and I/O.
- Usecase.Registry.Enqueue: calls `GetQueueSize` three times, as the source does. Run sequentially, the two reads before insertion agree and the read after insertion is one more. Under concurrency they could differ, which the model does not capture.
