# EDA event relay: a verified model of the listener chain

The repository relays one event through three NATS listeners. The seed payload
arrives on `events.chain`. Listener one upper-cases it and forwards it to
`events.chain.listener2`. Listener two reverses it rune by rune and forwards it to
`events.chain.listener3`. Listener three lower-cases it and stops. A
`sync.WaitGroup` of 3 holds `NatsOps` back until every listener has run. After
that, `NatsOps` builds an `EventResponse` from the three listener values and
the current time.

This project models that core in Dafny:

- `runes.dfy` (module `Runes`): `ReverseString` as a two-pointer swap loop over
  a rune buffer. It is proved equal to a functional `Reverse`.
- `env.dfy` (module `Env`): the key-validation loop of `LoadEnv`. It is
  all-or-nothing and reports the first missing key.
- `waitgroups.dfy` (module `WaitGroups`): the WaitGroup as a counter.
  `Add` fails when the counter would go negative, as Go panics there.
- `pipeline.dfy` (module `Pipeline`): the listener chain as ordered data.
  Each `Stage` has a subject, a transform, which value it keeps and its
  next subject. The module gives a sequential delivery semantics and proves
  it correct for every linear chain.
- `natsmessage.dfy` (module `NatsMessage`): the three fixed subjects, the
  concrete `Chain`, and `NatsOps` up to the assembled record.
- `results.dfy` (module `Results`): `Option` and `Result`.

Text is a sequence of code points (`Runes.Text`), the value `[]rune(s)` gives.
`strings.ToUpper` and `strings.ToLower` are the two fields of a `CaseMapping`.
They are arbitrary total functions, so every result holds for any case table.
The broker is a `Broker` value. It says which subscribe calls and which
publish calls return an error. The clock reading for `EventTime` is a
parameter.

The record holds what the code stores, not what each listener outputs.
Listener one keeps the seed unchanged, not its upper-cased output
(natsMessage/natsMessage.go:129-130). Listener two keeps what it received, the
upper-cased seed, not its reversal (157-158). Listener three keeps its
lower-cased output (191-197). So for a seed `P` the record is
`(P, Upper(P), Lower(Reverse(Upper(P))))`.

Subscribe and publish errors are only logged, and the run carries on
(140-144, 146-150, 168-172, 174-178, 204-208):

- After a failed subscription, that listener never runs.
- After a failed forward, the next listener never receives anything.

In both cases the WaitGroup is never released, and the run ends at the
10-second deadline (`DeadlineExceeded`, which is `logger.Fatal` in the source).
Every such run has at least one log entry, and a completed run has none.

The seed is not published by `NatsOps` itself: it comes from outside
(natsMessage/natsMessage.go:125). The model assumes exactly one seed message on
`events.chain`, arriving after all three subscriptions exist.

## Model

| member | source | states |
|---|---|---|
| Runes.Reverse | internal/eda/utils.go:36-42 | reversal keeps the number of runes |
| Runes.ReverseAt | internal/eda/utils.go:37-39 | rune i of the reversal is rune n-1-i of the input |
| Runes.ReverseInvolution | internal/eda/utils.go:35-43 | reversing twice gives back the input |
| Runes.ReverseString | internal/eda/utils.go:35-43 | the swap loop returns as many runes as it got, with output[i] == input[n-1-i]; 0- or 1-rune inputs come back unchanged; the result equals `Reverse`. The loop invariant says that after k swaps, positions [0,k) and (n-1-k,n) are swapped and the middle is untouched |
| Env.LookupAll | internal/eda/utils.go:21-31 | success exactly when every key has a non-empty value; then one value per key in key order, each non-empty; otherwise the error names the first key that is unset or empty |
| Env.LoadEnv | internal/eda/utils.go:15-32 | a load error is returned before any key is looked up; otherwise it behaves as `LookupAll` on the loaded variables |
| Env.FirstMissingReported | internal/eda/utils.go:23-27 | when key i is the first missing one, the result is exactly the error for key i, whatever follows it |
| Env.Getenv | internal/eda/utils.go:24 | a set key reads as its stored value, and an unset key reads as the empty string |
| WaitGroups.Add | natsMessage/natsMessage.go:122-123 | the counter moves by delta, and the call fails instead of going negative |
| WaitGroups.Done | natsMessage/natsMessage.go:127 | `Done` succeeds exactly when the counter is positive and then lowers it by one; the same deferred call ends each handler (also lines 155 and 183); `DoneTimesSpec` states its repetition |
| WaitGroups.DoneTimesSpec | natsMessage/natsMessage.go:123-229 | a counter of c survives exactly c calls of `Done`, is released after the c-th call and not before, and the next call fails |
| Pipeline.ForwardMessage | natsMessage/natsMessage.go:38-44 | nil exactly when the publish succeeds; otherwise the error carries the forwarding listener's name and the publish error, and its text starts with that name |
| Pipeline.ErrorText | natsMessage/natsMessage.go:41 | the error text starts with the listener's name and a colon, and ends with the publish error |
| Pipeline.SubscribeAll | natsMessage/natsMessage.go:126-209 | a stage is live exactly when its subscribe call succeeded; the log holds one entry per failed subscription, in chain order, naming the listener and the cause, so it is empty exactly when every stage is live |
| Pipeline.Handle | natsMessage/natsMessage.go:129-136 | a handler's output is its stage's transform of what it received; a stage that keeps what it received stores that, one that keeps its output stores the output (the same shape at 157-164 and 185-197); `ListenerHandlers` states it for the three listeners |
| Pipeline.Forward | natsMessage/natsMessage.go:138-144 | a message is in flight afterwards exactly when the stage has a next subject and the publish succeeded, and it carries the output to that subject; the log changes exactly when the publish failed, by one `PublishFailed` entry naming the listener and the cause (also 166-172; listener three forwards nothing, 199-202) |
| Pipeline.RunHandler | natsMessage/natsMessage.go:126-145 | a handler call succeeds exactly when the counter is positive, lowers it by one, writes its own stage's slot and no other (the same for the handlers at 154-173 and 182-203) |
| Pipeline.Step | natsMessage/natsMessage.go:126-209 | with nothing in flight nothing changes; a delivery fails only on a counter already at zero; `StepRoutes` and `StepAt` characterize it |
| Pipeline.StepRoutes | natsMessage/natsMessage.go:126-209 | a delivery writes only the slot of a subscribed stage listening on the message's subject |
| Pipeline.RunChain | natsMessage/natsMessage.go:113-236 | a completed run has one value per stage, and a run that times out still has a positive counter; `RunChainCorrect` characterizes it |
| Pipeline.Unwrap | natsMessage/natsMessage.go:231-235 | the listener pointers can be read exactly when every slot was written, and then the values are the slots' contents |
| Pipeline.StepAt | natsMessage/natsMessage.go:126-203 | delivering stage k's payload to a subscribed stage k stores its value and decrements the counter once; the next stage's payload is in flight exactly when a next stage exists and the publish succeeded |
| Pipeline.QuietAt | natsMessage/natsMessage.go:229 | with nothing in flight the run stays put, and the WaitGroup is released exactly when every stage has run; then every slot holds its reference value |
| Pipeline.DeliverFrom | natsMessage/natsMessage.go:126-229 | from any stage with that stage's payload as the one message in flight, delivery ends quiet with no counter panic; the WaitGroup is released exactly when the rest of the chain is subscribed and published; then every slot holds its reference value; the log gains exactly `ForwardLog`: nothing if the chain completes or stops at an unsubscribed stage, otherwise one `PublishFailed` entry naming the listener whose forward failed and the publish error |
| Pipeline.HealthySubscribed | natsMessage/natsMessage.go:126-209 | a chain that can complete has every one of its listeners subscribed |
| Pipeline.RunChainCorrect | natsMessage/natsMessage.go:113-236 | for every linear chain, a single seed arriving after the subscriptions, and every successful publish delivered, a run never panics; it completes exactly when every subscription and forward succeeds; then value i is stage i's reference value and nothing was logged; a run that times out has logged at least one error; the log is the subscription failures followed by `ForwardLog` |
| NatsMessage.ChainIsLinear | natsMessage/natsMessage.go:19-24 | the three subjects are pairwise distinct, listeners one and two forward to the next listener's subject, and listener three forwards nothing |
| NatsMessage.ListenerHandlers | natsMessage/natsMessage.go:126-203 | listener one keeps what it received and forwards `ToUpper` of it; listener two keeps what it received and forwards its reversal; listener three keeps `ToLower` of what it received |
| NatsMessage.NatsOps | natsMessage/natsMessage.go:82-236 | it fails with a configuration error exactly when `LoadEnv("NATS_URL")` fails, and a record carries the caller's clock reading; `NatsOpsRecord` characterizes it |
| NatsMessage.NatsOpsRecord | natsMessage/natsMessage.go:82-236 | once connected, for a single seed arriving after the subscriptions and with every successful publish delivered, `NatsOps` never panics; it records exactly when `NATS_URL` is set and every subscription and forward succeeds; the record is `(P, Upper(P), Lower(Reverse(Upper(P))), now)` |
| NatsMessage.CyclicChainPanics | natsMessage/natsMessage.go:199-201 | with the forward of line 201 alone enabled, listener three sends back to listener one's subject, listener one runs a second time, and that fourth handler call's `Done` drives the WaitGroup negative |

## Left out

- NATS connect, subscribe, publish and drain (natsMessage/natsMessage.go:55-76, 105-111, 151, 179, 209): these are network calls. Only the error result of subscribe and publish is modelled, as fields of `Broker`. A subscription error leaves `sub1`/`sub2`/`sub3` nil, so the deferred `Drain` might fail at exit; that is not modelled either.
- Concurrency: the goroutine that races `ctx.Done()` against `done`, `runtime.Goexit`, `logger.Fatal` and real `sync.WaitGroup` interleavings (natsMessage/natsMessage.go:116-119, 212-226, 261). Handlers run one after another in causal order. The 10-second deadline is the outcome of a run whose WaitGroup is never released. The data race on the shared `err` variable written by the handlers is not modelled.
- Delivery order: a run makes |chain|+1 deliveries. A linear chain is quiet after |chain| of them. The extra one exposes the fourth `Done` of the cyclic variant. An unbounded cycle is not modelled beyond that panic.
- The seed's arrival: the model delivers exactly one seed message on `events.chain`, after all three subscriptions exist. A second seed message would run listener one again. Its `Done` could drive the counter negative, or let `Wait` return with `listenerThree` still nil. A seed arriving before the subscriptions is dropped, and the run times out. The "never panics" results hold only for the single seed after setup.
- NatsMessage.CyclicChainPanics: covers only line 201's forward to listener one's subject. Line 202's second forward to listener two's subject is not modelled, because a `Stage` has a single `next` subject.
- Delivery and connection: `nats.Connect` is taken to succeed; its failure is `logger.Fatal` (natsMessage/natsMessage.go:105-110). A publish that returns nil is taken to reach its subscriber before the deadline. NATS core is at-most-once: `Publish` only buffers, and a slow consumer or a disconnect can still drop the message. The "completes exactly when" results hold only under both assumptions.
- Database: `InitDB`, the connection string, and the prepared INSERT with its logged errors (database/db.go; natsMessage/natsMessage.go:238-254). These go through a driver that is not part of this model. `NatsOps` ends at the assembled `EventResponse`.
- `time.Now()` for `EventTime`: it is the `now` parameter.
- `strings.ToUpper`/`ToLower` case tables: `CaseMapping` leaves them unconstrained.
- UTF-8 decoding and encoding in `[]rune(input)` and `string(runes)`: invalid bytes would become U+FFFD. Text is code points throughout, and a rune is an unbounded `int`, not an `int32`.
- Log output (zerolog, the log file, `Logger` in internal/eda/utils.go:46-54): opening the log file is taken to succeed, though its failure ends the process with `log.Fatalf` before `LoadEnv` runs (natsMessage/natsMessage.go:83-86). Handlers' log calls are dropped. Subscription and publish errors are kept as `LogEntry` values.
- `godotenv.Load` and `os.Getenv`: they are one input, `Env.Loaded`. That is the load error, or the variable map after loading, where an unset key reads as "".
- Env.LoadEnv: the error text "<key> does not exist in the env file" is represented by the structured `MissingKey(key)`, not as a string.
- The HTTP layer: `NatsOpsDemo` (natsMessage/natsMessage.go:48-79), main.go and cmd/eda/main.go are wiring only. cmd/eda/main.go refers to `NatServerConn` and `ConnectionManager`, which natsMessage.go does not define. main.go registers the zero-argument `NatsOps` as a fiber handler, which does not match a fiber handler's signature either.
- Package paths: natsMessage.go imports `ReverseString` and `LoadEnv` from the `utils` package; the model follows their definitions in internal/eda/utils.go (`package internal`) and takes them to be the same functions.
