# Load-balancing broker: routing core in Dafny

This project models the routing core of a ZeroMQ load-balancing broker. The
broker has a client-facing ROUTER socket (the frontend) and a worker-facing
ROUTER socket (the backend). Workers announce themselves with `READY`, and their
identities wait in a FIFO. Two pumps move messages between the sockets:

- The **frontend pump** takes a client message `[client, "", body]`. It claims
  the oldest free worker and sends `[worker, "", client, body]` to the backend.
- The **backend pump** takes a worker message `[worker, "", body, ...]`. It puts
  the worker back on the FIFO. Unless `body` is `READY`, `body` is the client
  identity, and it sends `[client, "", result]` to the frontend.

No session table exists. The client identity travels inside the frames.

Modules:

- `Frames` (`frames.dfy`): bytes (`bv8`), frames (`seq<bv8>`), multiparts,
  the empty delimiter, the five-byte `READY` sentinel, the framing errors
  `NotEnoughMessages`, `TooManyMessages` and `MsgNotEmpty`, and `Option`/`Result`.
- `Codec` (`codec.dfy`): the `Envelope { addr, empty, request }` record, its
  conversion to a multipart, and `PopEnvelope`. `PopEnvelope` pops the three
  leading frames and checks the delimiter, which both pumps do first.
- `Pumps` (`pumps.dfy`): the shared state `Broker(queue, toBackend, toFrontend)`
  and one iteration of each pump as a pure function returning an `Outcome`.
  An `Outcome` is the new state plus the error that stopped the pump, if any.
  A failed iteration keeps the side effects it had already made.
- `Routing` (`routing.dfy`): the two concurrent pumps as a sequence of atomic
  `Action`s. `Run` executes any interleaving.
  - A frontend action is enabled only when a worker is queued. This models the
    blocking `recv` on the FIFO.
  - Once a pump has failed, nothing more runs (a modelling choice; see below).
  - Lemmas over `Run` cover FIFO accounting, dispatch order, reply correlation,
    and the concrete scenarios.

The sockets, the network and the Python peers are outside the model. Messages
sent are appended to `toBackend` and `toFrontend`. `Routing.WorkerReply` stands
for a REQ worker that answers a job with one result frame (the behaviour of
`python/worker2router.py`). It is used only to state the correlation round trip.

Where the code and the protocol it intends disagree, the model follows the code:

- `TooManyMessages` is declared but never produced. Frames after the third
  (frontend), after `READY`, or after the result (backend) are dropped, not
  rejected.
- The frontend dequeues a worker before it looks at the client message. A
  malformed request still uses up the worker.
- The backend re-queues the worker before it pops the result frame. A
  `[w, "", client]` message with no result queues `w` and then fails with
  `NotEnoughMessages`.
- The worker queue is not deduplicated. A worker that says `READY` twice is
  queued twice, so a worker identity can appear more than once in the queue.
- `assert!(empty.is_empty())` is a panic in the source. The model reports it as
  `MsgNotEmpty`, the variant the source declares for it.
- A failing pump panics. As a modelling choice, `Run` halts the whole broker
  at the first fault and permits no further action. In the process, tokio
  turns the panic into an error of that task, and the broker ends only when
  `try_join!(...).unwrap()` (src/main.rs:168) sees it. See "## Left out" for
  the window this cuts.
- A client whose identity is the five bytes `READY` never receives its reply.
  The worker's answer reads as an availability announcement
  (`Routing.ReadyClientIdentityLosesReply`). ROUTER sockets assign identities
  that start with a zero byte, so this needs an explicitly chosen identity.

## Model

| member | source | states |
|---|---|---|
| `Codec.ToMultipart` | src/main.rs:19-28 | No contract of its own: the multipart is `[addr, empty, request]` in that order. `Codec.EnvelopeRoundTrip` states its property, and `Codec.ToMultipartInjective` shows it loses no field |
| `Codec.PopEnvelope` | src/main.rs:107-119 | Popping the header succeeds exactly when there are at least three frames and the second is empty. Fewer than three frames is `NotEnoughMessages`; otherwise a non-empty delimiter is `MsgNotEmpty`; `TooManyMessages` never occurs. On success, envelope plus remainder rebuilds the input exactly |
| `Codec.EnvelopeRoundTrip` | src/main.rs:13-29 | Converting an envelope to a multipart gives three frames in field order. Popping them back, followed by any trailing frames, returns the same envelope and the trailing frames when the delimiter is empty, and `MsgNotEmpty` otherwise |
| `Codec.ToMultipartInjective` | src/main.rs:19-28 | The envelope-to-multipart conversion loses nothing: different envelopes give different multiparts |
| `Pumps.Dispatch` | src/main.rs:120-124 | No contract of its own: the job layout `[worker, empty, client, body]`. `Pumps.FrontendStep` and `Routing.RequestDispatched` state it in terms of the client message |
| `Pumps.FrontendStep` | src/main.rs:102-125 | One frontend iteration on a non-empty queue always removes the queue head, even when the message is bad. It succeeds exactly when the message has at least three frames and an empty second frame; it then sends `[head, "", m[0], m[2]]` to the backend. On failure it sends nothing and reports `NotEnoughMessages` (fewer than three frames) or `MsgNotEmpty`. It never writes to the frontend |
| `Pumps.BackendStep` | src/main.rs:131-164 | One backend iteration. A short message or a non-empty delimiter fails and leaves the state unchanged. Otherwise `m[0]` is appended to the queue. With `m[2]` = READY nothing is sent. With another `m[2]` and a fourth frame, `[m[2], "", m[3]]` goes to the frontend. Without a fourth frame it fails with `NotEnoughMessages` after the enqueue. It never writes to the backend |
| `Pumps.FrontendIgnoresTrailingFrames` | src/main.rs:107-124 | Frames after the third never change what the frontend pump does |
| `Pumps.BackendIgnoresTrailingFrames` | src/main.rs:134-160 | Frames after `READY`, or after the result frame, never change what the backend pump does |
| `Routing.Enabled` | src/main.rs:102-105 | No contract of its own: a frontend iteration can run only when a worker is queued, which models the blocking `r.recv()`. Nothing runs after a fault. `Routing.QueueIsFifo` relies on it for "claims never outnumber available workers" |
| `Routing.Step` | src/main.rs:102-164 | No contract of its own: one iteration of the pump that owns the action. The per-message facts are `Routing.RequestDispatched`, `Routing.ReadyRequeues` and `Routing.ReplyRelayed` |
| `Routing.Run` | src/main.rs:101-168 | No contract of its own: runs one interleaving of the two pump loops, and is `None` when an action is not enabled at its turn. `Routing.QueueIsFifo`, `Routing.DispatchOrder` and `Routing.ReplyCorrelation` state what every run does |
| `Routing.WorkerReply` | python/worker2router.py:13-16 | No contract of its own: the REQ worker answers a job `[w, "", c, body]` with one result frame, which the broker sees as `[w, "", c, result]`. `Routing.ReplyCorrelation` uses it |
| `Routing.RequestDispatched` | src/main.rs:105-125 | A request `[c, "", body]` arriving while a worker is queued is dispatched to the head worker as `[w, "", c, body]`, and the head leaves the queue |
| `Routing.ReadyRequeues` | src/main.rs:147-164 | `[w, "", READY]` appends `w` to the queue and sends nothing |
| `Routing.ReplyRelayed` | src/main.rs:149-161 | `[w, "", c, r]` with `c` not READY appends `w` to the queue and sends `[c, "", r]` to the frontend |
| `Routing.QueueIsFifo` | src/main.rs:99-149 | Over any interleaving, the queue equals the sequence "initial queue, then every worker the backend enqueued, in order" minus one front element per client request handled. Claims never outnumber available workers |
| `Routing.DispatchOrder` | src/main.rs:99-125 | Over any interleaving without a fault, every request handled was well-formed. The backend output grows by exactly the jobs that pair the k-th request with the k-th worker of "initial queue, then every arrival" |
| `Routing.KthRequestGoesToKthWorker` | src/main.rs:99-125 | The same order, job by job: the k-th new backend message is `[w_k, "", c_k, body_k]`, taken from the k-th client request and the k-th worker in arrival order. Earlier backend messages stay untouched |
| `Routing.ReplyCorrelation` | src/main.rs:120-161 | A request `[c, "", body]` is dispatched to the head worker `w`. Whatever other actions interleave, `w`'s answer to that job delivers `[c, "", result]` to the frontend and puts `w` back at the queue tail. The dispatched job stays in the backend output |
| `Routing.RelayedAfterAnyInterleaving` | src/main.rs:149-161 | After any prefix of actions, a worker reply for a non-READY client is relayed last to the frontend and re-queues its worker last, and earlier backend output is kept |
| `Routing.ServesWorkersInArrivalOrder` | src/main.rs:99-125 | READY from W1, W2, W3 and then requests R1, R2, R3 dispatch R1 to W1, R2 to W2 and R3 to W3, and leave the queue empty |
| `Routing.ThreeReadies` | src/main.rs:147-164 | Three READY announcements queue the three workers in the order they spoke |
| `Routing.ThreeRequests` | src/main.rs:105-125 | With three workers queued, three requests take them in queue order |
| `Routing.EndToEndExchange` | src/main.rs:101-164 | READY from `w` gives queue `[w]`. Request `[c, "", ping]` then sends `[w, "", c, ping]` and empties the queue. `w`'s answer `[w, "", c, pong]` re-queues `w` and delivers `[c, "", pong]` |
| `Routing.RepeatedReadyQueuesTwice` | src/main.rs:147-149 | Two READY announcements from the same worker put it in the queue twice (no deduplication) |
| `Routing.ReadyClientIdentityLosesReply` | src/main.rs:150-164 | A reply to a client whose identity is READY is taken for an announcement: the worker is re-queued and the result is dropped |

## Left out

- Socket construction, binding ports 5672 and 5673, the sink/stream split, the
  send buffer of 25, and awaiting sends (src/main.rs:83-97, 125, 161). These are
  transport I/O. A send is modelled as an append to `toBackend` or `toFrontend`
  that always succeeds.
- Transport errors (`multipart.unwrap()` at src/main.rs:103 and 132, failed
  sends) and the `Zmq`, `TokioZmq`, `WorkerSend` and `WorkerRecv` variants with
  their `Display` and `From` impls (src/main.rs:35-38, 44-68). These wrap foreign
  errors and formatting.
- The window between a pump's panic and process exit. Tokio catches the panic,
  and the broker ends only when `try_join!` (src/main.rs:168) returns the
  error and `main` panics. Until then the other pump keeps running. After the
  backend pump dies, `r.recv()` (src/main.rs:105) still hands out workers
  already in the crossbeam channel, so the frontend can still send
  `[w, "", c, body]` (src/main.rs:120-125). `Run` halts at the first fault
  instead, so it allows none of these sends.
- The channel disconnecting when the other pump has ended (`r.recv().unwrap()`
  and `s.send(...).unwrap()`, src/main.rs:105 and 149). Any fault already halts
  the whole model broker, so a disconnected queue cannot be observed.
- `tokio::spawn`, `try_join!`, real parallelism, and the channel's internal
  synchronisation (src/main.rs:128, 167-168). Each pump iteration is one atomic
  action. Within an iteration, only the order of the queue operation against
  the decoding is observable, and the model keeps that order.
- The inbound streams ending, which stops a pump normally. A run simply stops.
- The `Stop` control handler (src/main.rs:72-79). It always answers `true` and
  is never installed.
- `main`, executable-path resolution, log4rs configuration (src/main.rs:171-194)
  and all `debug!` logging.
- `build.rs`, which copies configuration directories at build time.
- The Python client and worker scripts, beyond `Routing.WorkerReply`. That
  function stands for the worker answering one job with one result frame.
