# Gotra gateway and services: a verified model

Gotra gives a developer's local application a public URL. A command-line agent opens one WebSocket to a gateway
instance; public requests for `https://label.base-domain` arrive at any instance and are forwarded over that
socket, or first over Redis Pub/Sub to the instance that holds it. Around this sit a Postgres database with a
migration runner, an authentication service with sessions and one-time tokens, and an analytics pipeline.

The project models the parts of this that are algorithms and proves what they promise. `dafny verify dfyconfig.toml`
checks everything.

| modules | what they are |
|---|---|
| `TunnelProto`, `Pending`, `Registry`, `Tunnels` | messages, pending-call tables, the in-memory registry, Redis route keys, tunnel rows; with classes for the objects the source updates in place |
| `Ownership` | the control plane as a state machine: registering, read loops ending, `add`/`remove`, status writes, row deletion through the API, route refresh, expiry, arbitrary Redis contents |
| `History`, `RouteHistory` | what connections, rows, registries, route keys and refreshers say about the run that led to them |
| `Exclusive`, `Routes` | who owns a label, how far that survives row deletions, and what the label's route key says and for how long |
| `Progress` | what the control plane can always do: register under a free label, run connections to their end, keep routes alive |
| `Forwarding` | the data plane as a state machine: public calls, `forward`, `forwardRemote`, peers, agents, every wait with all its `select` branches |
| `Links`, `Replies` | the inductive invariants of the data plane |
| `Cluster`, `Completion`, `Delivery`, `OneServer` | both planes together: safety over all runs, that every call can end, schedules that deliver or refuse, refinement to one process |
| `Invocations`, `Journal`, `Outcomes` | what invocations, calls, cluster requests, messages and error pages say about the run that led to them |
| `Service` | what timely routes and free labels give callers |
| `Migrate` | the migration runner: many at once, and the loop of one |
| `Sessions`, `Auth` | the session and token tables statement by statement; the authentication service over them |
| `Analytics` | the batching queue |
| `Strings`, `Base64`, `Password`, `Address` | text codecs: base64 of sections 4 and 5 of RFC 4648, unpadded as section 3.2 allows, the PHC string, public URLs, hosts, request targets |

## How the gateway is modelled

A run is a sequence of atomic steps of goroutines on any number of instances and agents, in any order. Between
two accesses to shared state another goroutine may run: `add` lists a connection and writes its route in
two steps, `remove` takes two, the refresher snapshots names in one step and writes each key in a later one, a
public call takes one step for each look-up, `Store`, write, `select` branch and `Delete`. A `select` may take any
branch at any time except those that need a reply or a closed connection, so a timeout may also come late or early.

Requests on a socket and on Redis may be lost or overtaken, not duplicated. Replies may also be duplicated and
arrive after the wait ended. A write may fail after it took effect. Identifiers from `uuid.NewString` are new;
encoding and decoding of JSON is taken as the identity. Redis keys expire after 90 seconds; `Corrupt` steps put any
content in Redis; `ApiCreate` and `ApiDelete` steps insert and delete tunnel rows behind the gateway's back.

Hypotheses about runs are stated for one label, and only by the lemmas that need them:

* `SparesRun` at a level: no step deletes the row of a connection of the label at that level. `Claiming` are the
  connections in a registry or still to be listed, `Acting` those that may also still delete the label's route key,
  `Unfinished` those whose goroutine has not finished, `Ever` all there ever were. Deleting the rows of tunnels that
  have disconnected is within the first three.
* `TimelyRun` for a label and the instance of its connection: that instance's writes of this key succeed, Redis keeps the
  key, time never advances to 90 seconds after the snapshot of that instance's last finished refresh pass, and the
  label's row is deleted only when no connection acts for it and no refresher has it in its snapshot. With the
  source's interval of 30 seconds that tolerates two passes missed in a row. Other instances may be late, fail or stop.

The steps are what is modelled of the source; what they mean is said without them. `History`, `RouteHistory`,
`Invocations`, `Journal` and `Outcomes` tell the value of every field of the state from the events of the run alone;
`Progress`, `Completion`, `Delivery` and `Service` say which of its ends a run can always be brought to.

Logs that only the proofs read (`socketLog`, `busLog`, `executed`, `captured`) are part of the data-plane state.

## Where the code and what it says differ

* `errorMap.Wrap` is documented as nil in, nil out. Several repository methods return its `*AppError` as an
  `error`, which Go makes non-nil even for a nil pointer (services/internal/auth/repository.go:256, 280, 289, 327).
  `VerifyEmail`, `RequestPasswordReset` and `ResetPassword` are modelled as meant, with nil out.
* `RequestPasswordReset` is documented to answer an unknown address like a known one
  (services/internal/auth/service.go:206-208). Its look-up reports an unknown address as "invalid credentials", not as
  `ErrNotFound` (services/internal/auth/repository.go:63-65), so the call returns that error. The model follows the code.
* `newSubdomain` can return the empty string, when all eight base64 characters are '-' or '_'; `MintedLabel` says exactly
  when. Such a tunnel has no host that leads to it.
* The fallback label of `newSubdomain` holds a '-', although labels are documented as alphanumeric
  (services/internal/gateway/server.go:425-432).
* A connection whose REGISTERED message cannot be sent is removed without being closed and its row stays active
  (services/internal/gateway/server.go:213-218); `ClosedIffReadLoopEnded` states this.
* Capture stores a path that holds an encoded '?' differently from how it was requested: `CaptureRecoversPathAndQuery`.
  Replay loses a '?' that ends a target: `ReplayRebuildsTarget`.

## Model

| member | source | states |
|---|---|---|
| Pending.FirstReplyWins | services/internal/gateway/registry.go:60-93 | After any sequence of deliveries a waiting call holds the first reply to its id if there was one, an entry already answered is unchanged, and no entry appears or goes. |
| Pending.ReplyChan.TrySend | services/internal/gateway/registry.go:88-91 | The send with a default branch never blocks: it fills an empty one-place channel and leaves a full one alone. |
| Pending.PendingCalls.Store | services/internal/gateway/registry.go:61-63 | `Store` adds exactly one waiting entry with a new, empty channel. |
| Pending.PendingCalls.Deliver | services/internal/gateway/registry.go:86-93 | `deliver` changes at most the entry of its id, and only from waiting to answered. |
| Pending.PendingCalls.Delete | services/internal/gateway/registry.go:64-64 | `Delete` removes exactly the entry of its id. |
| Registry.LookupMeaning | services/internal/gateway/registry.go:143-166 | After any history of `add` and `remove`, a label leads to a connection if and only if that one was the last added for it and has not been removed itself; a superseded connection's late `remove` never evicts its successor. |
| Registry.ReplacedAreClosedOnce | services/internal/gateway/registry.go:143-148 | When each connection is added once, `add` closes exactly the superseded connections, each once. |
| Registry.CurrentNotReplaced | services/internal/gateway/registry.go:145-148 | A connection the map holds has not been closed by `add`. |
| Registry.Redis.Set | services/internal/gateway/registry.go:151-153 | A route write sets owner and a 90 second expiry of one key, or, failing, changes nothing. |
| Registry.Redis.Del | services/internal/gateway/registry.go:163-165 | Deleting a key removes that key whoever wrote it. |
| Registry.Redis.Get | services/internal/gateway/registry.go:181-185 | A key is found until it expires and not afterwards. |
| Registry.AgentConn.Close | services/internal/gateway/registry.go:95-100 | However often it is called, the channel is closed exactly once and stays closed. |
| Registry.AgentConn.Deliver | services/internal/gateway/registry.go:86-93 | A response reaches the waiting call of its id, first one wins. |
| Registry.Registry.Add | services/internal/gateway/registry.go:143-154 | `add` replaces the entry, closes the connection it superseded and writes the route when there is Redis. |
| Registry.Registry.Remove | services/internal/gateway/registry.go:156-166 | `remove` deletes the entry only when it is this connection's, and the route key in any case. |
| Registry.Registry.LocalLookup | services/internal/gateway/registry.go:168-174 | The look-up finds exactly the entry of the label. |
| Registry.Registry.OwnerInstance | services/internal/gateway/registry.go:176-186 | The owner is the one the unexpired key names; without Redis there is none. |
| Registry.Registry.DeliverReply | services/internal/gateway/registry.go:214-222 | A cluster reply reaches the waiting call of its id, first one wins. |
| Registry.Registry.RefreshPass | services/internal/gateway/registry.go:236-245 | One pass gives every name of the snapshot whose write succeeds this instance as owner and a full TTL, and touches no other key. |
| Tunnels.Repository.Create | services/internal/tunnels/repository.go:70-79 | A taken public URL is refused and changes nothing; otherwise exactly one row in status created appears. |
| Tunnels.Repository.SetStatus | services/internal/tunnels/repository.go:99-103 | The status of the row with this id changes and nothing else does. |
| Tunnels.Repository.Delete | services/internal/tunnels/repository.go:106-115 | Deletes the row of the id and no other, and reports not-found exactly when there is none. |
| Tunnels.DeleteIsApiDelete | services/internal/tunnels/repository.go:106-115 | Deleting by id is the deletion step of the ownership state machine. |
| History.LifeOfConnection | services/internal/gateway/server.go:201-231 | In every run each connection has taken the steps of `register` and of the end of `readLoop` in their order, each once; it is in the phase after the last of them, on the instance and under the label it was created with, and knows whether all its status writes succeeded. |
| History.ReadsIffConfirmed | services/internal/gateway/server.go:160-161 | A connection has come into its read loop if and only if its REGISTERED message was sent, and was turned away if and only if it could not be. |
| History.RowMeaning | services/internal/tunnels/repository.go:70-115 | A URL has a row if and only if one was inserted for it and not deleted since, and it is that row. |
| History.StatusMeaning | services/internal/tunnels/repository.go:99-103 | A row's status is disconnected if its connection wrote that successfully, else active if it wrote that, else created; rows of other tunnels keep theirs. |
| History.RegistryMeaning | services/internal/gateway/registry.go:143-161 | In every run an instance's map is the one `Registry.LookupMeaning` speaks of, for its own additions and removals; a connection is closed if and only if its read loop ended or an addition took its place. |
| RouteHistory.KeyMeaning | services/internal/gateway/registry.go:151-165 | In every run a route key holds what was written to it last - a gateway's own instance with 90 seconds to live - unless it was deleted since. |
| RouteHistory.RefresherMeaning | services/internal/gateway/registry.go:235-246 | A refresher's clock is the start of its last pass; still to write are the names its registry held then and that it has not tried since; the pass counts as finished exactly when none is left. |
| Progress.RegistersIffFree | services/internal/gateway/server.go:201-221 | From every reachable state and on every instance that runs, an agent can be registered under a label - read loop running, row active, route and registry leading to it - if and only if the label has no row. |
| Progress.OutsidersAreFree | services/internal/tunnels/repository.go:70-115 | In every state time can pass, Redis can come to hold anything, an instance can start, and rows can be inserted and deleted through the API. |
| Progress.EveryConnectionCanEnd | services/internal/gateway/server.go:223-231 | From every reachable state every connection can run to its end by at most eight steps of its own, with any pattern of failing writes. |
| Progress.RoutesCanBeKept | services/internal/gateway/registry.go:231-246 | Every timely run can be continued, with a pass every 30 seconds, to any later time, and the connection is found then. |
| Ownership.RegistryKept | services/internal/gateway/server.go:204-231 | Every step keeps: an entry of a registry is a connection of that instance, registered under that label and not yet removed; ended connections are closed; a listed connection that is open is the one its label leads to. |
| Ownership.RowsKept | services/internal/gateway/server.go:204-228 | Every step keeps tunnel ids unique and each row's status what its connection has written. |
| Exclusive.NeverReplaces | services/migrations/0002_core_platform.sql:64-64 | While every connection with a claim to the label has its row, the unique index on public URLs makes the replacing branch of `add` unreachable. |
| Exclusive.ExclusiveKept | services/internal/gateway/server.go:201-211 | Every step that does not delete the row of a connection of the label at a level keeps that each of them has its row. |
| Exclusive.HeldKept | services/internal/gateway/registry.go:143-161 | With the same proviso a connection that was listed and not unlisted is the entry of its label, and only ended read loops have closed connections. |
| Exclusive.ExclusiveOwnership | services/internal/gateway/server.go:201-211 | In every run that spares the rows of a label's connections at a level, at most one connection of the label is at that level; for `Ever`, a label belongs to one connection for good. |
| Exclusive.OneRegistry | services/internal/gateway/server.go:201-211 | In every run that deletes no row of a connection in a registry or still to be listed, the label is in at most one registry of the cluster, and in none when a connection is about to be listed: `add` never replaces. |
| Exclusive.DeletionSharesRegistry | services/internal/tunnels/repository.go:106-115 | For the first row of the label that is deleted: some continuation puts the label in the registries of two instances if and only if the row was that of a connection in a registry or still to be listed. |
| Exclusive.DeletionSharesLabel | services/internal/tunnels/repository.go:106-115 | For each level and the first row of the label that is deleted: some continuation lists a connection beside another one of the label at that level if and only if the deleted row was that of a connection at that level. |
| Routes.RoutesKept | services/internal/gateway/registry.go:237-245 | Every route key, and every key a refresher is about to write after releasing its lock, names an instance on which the label was registered. |
| Routes.RouteNamesTheOwner | services/internal/gateway/registry.go:151-153 | While a connection acts for the label, the label's route is absent or names its instance, in every run in which Redis keeps this key and the row is deleted only when nothing is left of the label. |
| Routes.TtlKept | services/internal/gateway/registry.go:26-26 | No key ever has more than 90 seconds to live. |
| Routes.RouteLapses | services/internal/gateway/registry.go:22-28 | A label that nobody writes successfully for 90 seconds is not routed any more, resurrected keys included, after any uncorrupted run. |
| Routes.LiveKept | services/internal/gateway/registry.go:226-248 | In steps timely for one instance the key of its routed connection survives until 90 seconds after that instance's last finished pass, and longer once the current pass has rewritten it. |
| Routes.KeyKept | services/internal/gateway/registry.go:156-166 | No other connection and no other instance deletes or takes over the key of a routed connection, although `remove` deletes unconditionally; nothing is asked of them. |
| Routes.RoutedIsReachable | services/internal/gateway/registry.go:226-248 | In every run timely for its instance and label, from the write of its route until it is unlisted, a connection's label has a live route to its instance and that instance's registry leads to it, whatever other instances do. |
| Routes.DeletionUnroutes | services/internal/tunnels/repository.go:106-115 | For the first row of the label deleted before the label is forgotten: some continuation, timely for the instance and label of a routed connection, in which peers do not find that connection exists if and only if a connection still acted for the label or a refresher still had it in its snapshot. |
| Ownership.StatusOnlyAdvances | services/internal/gateway/server.go:204-228 | Over any stretch of a run a row not deleted in it keeps its id and only moves from created to active to disconnected, also when status writes fail. |
| Ownership.GoneIsClean | services/internal/gateway/server.go:224-230 | Once a read loop has run to its end the connection is closed, in no registry, and its row, if still there and written without failure, is disconnected. |
| Exclusive.ClosedIffReadLoopEnded | services/internal/gateway/server.go:213-231 | Exactly the connections whose read loop ended are closed, a rejected one never; a row is disconnected only when its connection ran to the end, and then is unless a status write failed; connections at the level spared have their row. |
| Journal.ArrivedOnce | services/internal/gateway/server.go:254-270 | In every run each call arrived exactly once: its record names the instance it arrived at, its request, and the label its Host header leads to. |
| Journal.WayMeaning | services/internal/gateway/server.go:274-284 | In every run the way of a call is what its look-ups found: an invocation on the connection its own registry held; or, that registry not holding the label, the instance its route named; or an error page that says what was missing. |
| Invocations.InvocationMeaning | services/internal/gateway/registry.go:58-84 | In every run an invocation is in the phase its own steps brought it to, and its result is the error of its failed write, the error of the branch of the select it took, or a response read from its connection under its id. |
| Outcomes.OriginMeaning | services/internal/gateway/server.go:274-276 | The invocations are exactly those for which the caller's or the peer's registry held a connection when it was looked at, and each is on that connection for that request. |
| Outcomes.ReplyMeaning | services/internal/gateway/server.go:400-410 | The replies on Redis are exactly those published: the response of an invocation for a peer, or the refusal of an instance without the label. |
| Outcomes.RequestMeaning | services/internal/gateway/registry.go:190-212 | In every run a cluster request is in the phase its own steps brought it to, and its outcome is the error of its failed publication, of the branch it took, or the content of a reply published for it. |
| Outcomes.ErrorMeaning | services/internal/gateway/server.go:255-289 | Every error page of `handlePublic` has one of six texts, each with its cause in the run: no label, no local entry and no route, a failed publication, 30 seconds without a reply, a client that went away, a peer without the label. |
| Outcomes.AnswerMeaning | services/internal/gateway/server.go:303-319 | Every answer is what the call's own invocation read from its connection, or a 502 page that names why it failed. |
| Outcomes.LogsAreComplete | services/internal/gateway/registry.go:70-72 | The logs behind `NoMisrouting` and `AtMostOnce` miss nothing: they are all socket writes and all publications of the run, in order. |
| Outcomes.OnlySentIsSeen | services/internal/gateway/registry.go:70-72 | Agents have run only requests that were written to their socket, peers have taken up only requests whose publication reached Redis, and response frames are those agents sent. |
| Links.LinkKept | services/internal/gateway/server.go:272-289 | Every step keeps calls, invocations and cluster requests linked one to one. |
| Links.BusKept | services/internal/gateway/registry.go:190-199 | Every step keeps: a message on Redis is the request of the call it was made for, addressed to the instance the route named, published once and taken up at most once. |
| Links.CallGrow | services/internal/gateway/server.go:254-298 | No step changes the request of a call, the way it took once taken, or its outcome once it has one. |
| Replies.RoutedKept | services/internal/gateway/server.go:394-405 | Every invocation, also for a peer, is on a connection registered with the label its caller asked for, because the peer looks in its own map. |
| Replies.SocketKept | services/internal/gateway/registry.go:66-72 | Every frame on or from a socket belongs to an invocation on that connection, carries its request or the response the agent gave to it, and was written once. |
| Replies.AgentPendingKept | services/internal/gateway/registry.go:60-64 | The keys of a connection's pending table are the invocations between `Store` and `Delete`, and an answered entry holds the agent's response to that invocation. |
| Replies.RepliesKept | services/internal/gateway/registry.go:190-222 | The keys of an instance's pending table are its cluster requests in progress; what waits in a channel is the response of the invocation that served that request, or an error when nobody served it and nobody can any more. |
| Replies.OutcomesKept | services/internal/gateway/server.go:274-289 | A call that was answered has the response its own invocation returned; an error brought by a reply means that its request was not served. |
| Replies.CaptureKept | services/internal/gateway/server.go:316-318 | Captures are of finished forward calls that returned a response, each exactly once. |
| Cluster.Reachable | services/internal/gateway/server.go:254-411 | The conjunction of all invariants holds after every run, whatever happens to rows and route keys. |
| Cluster.Correlation | services/internal/gateway/server.go:365-411 | In every interleaving an answered caller has the response the agent's application produced for that caller's own request, on a connection registered with its label, or the gateway's error page; the handler never dereferences a missing response. |
| Cluster.ServesOneCall | services/internal/gateway/registry.go:60-64 | No two calls share the invocation that answers them. |
| Cluster.NoMisrouting | services/internal/gateway/server.go:394-405 | With arbitrary route contents, resurrected keys and deleted rows, every request written to a socket goes to a connection registered with the label the caller asked for, and is that caller's request. |
| Cluster.AtMostOnce | services/internal/gateway/server.go:274-289 | Each public request is written to at most one socket at most once and published at most once, also when routes point at the sender or in a cycle. |
| Cluster.CaptureAccounting | services/internal/gateway/server.go:303-319 | A finished forward call that returned a response has exactly one capture, with its request and response, on the instance and for the tunnel of its connection; every other invocation has none. |
| Cluster.CapturedResponseReachesCaller | services/internal/gateway/registry.go:201-211 | The caller of a captured exchange has exactly the captured response, or no outcome yet, or its own instance gave up: publishing failed, the wait timed out, or the caller went away. No reply turns a captured response into an error. |
| Cluster.RefusedIsNotForwarded | services/internal/gateway/server.go:401-405 | A caller that got an error although its instance did not give up was not served: its request is written to no socket. |
| Cluster.PendingTablesExact | services/internal/gateway/registry.go:190-212 | In every reachable state the keys of both kinds of pending table are precisely the calls in progress. |
| Cluster.QuiescentTablesEmpty | services/internal/gateway/registry.go:64-64 | When no call is in progress all pending tables are empty. |
| Cluster.OutcomeIsFinal | services/internal/gateway/registry.go:74-93 | A call has at most one outcome: no later step, late, repeated or unknown replies included, changes it. That it can have one is `Completion.EveryCallCanEnd`. |
| Cluster.WaitersAreReleased | services/internal/gateway/registry.go:81-83 | Once the read loop of a connection has ended, every call still waiting on it is enabled to return with ErrNoTunnel. |
| Completion.NextStep | services/internal/gateway/server.go:254-298 | A waiting call can always take a step of its own that needs no message to arrive. |
| Completion.OwnStepAdvances | services/internal/gateway/registry.go:74-83 | Every own step of a waiting call, whichever branch it takes, brings it closer to its outcome. |
| Completion.OtherStepsDoNotHinder | services/internal/gateway/registry.go:74-83 | No other step, of any goroutine, agent or instance, takes a call further away from its outcome. |
| Completion.SevenStepsSuffice | services/internal/gateway/server.go:254-298 | In every run from every reachable state a call waits through fewer than seven steps of its own, however they interleave with others. |
| Completion.EveryCallCanEnd | services/internal/gateway/registry.go:74-93 | From every reachable state every call can be brought to its outcome within seven steps of the gateway that need no message to arrive. |
| Delivery.ServesCompletely | services/internal/gateway/server.go:303-319 | From any state with the connection up, `serveLocally` has a schedule that ends with the agent's response, captured once. |
| Delivery.LocalDelivery | services/internal/gateway/server.go:274-276 | A call that arrives where its tunnel is connected can be answered with any response the application gives, captured once. |
| Delivery.RemoteDelivery | services/internal/gateway/server.go:277-289 | A call that arrives elsewhere can be answered the same way through a live route to the instance of the connection. |
| Delivery.WaitCanEnd | services/internal/gateway/registry.go:74-83 | A call waiting for an agent can end by each branch that brings no response, and its caller gets the 502 page of that branch. |
| Delivery.RemoteWaitCanEnd | services/internal/gateway/registry.go:201-211 | A call waiting for a peer can end by a timeout or by its client going away, and gets that error. |
| Delivery.StaleRouteIsRefused | services/internal/gateway/server.go:400-410 | The caller of a route that names an instance without the label can get that instance's refusal, and no agent sees the request. |
| Delivery.MissingRouteIsRefused | services/internal/gateway/server.go:279-283 | Without a route, or without Redis, a call not found locally gets "no active tunnel for" its label, and no agent sees the request. |
| Service.ProjectPlays | services/internal/gateway/server.go:204-250 | The control steps of a run of the whole gateway are a run of the control plane, so what holds of those holds of it. |
| Service.AnsweredWhereverItArrives | services/internal/gateway/server.go:272-289 | In every run of the whole gateway that is timely for the instance and label of a connection in its read loop: a request whose host leads to the label, arriving now at any instance that runs, can be answered by that connection with any response its agent gives, captured once; on the connection's own instance, without Redis. |
| Service.FreeLabelCanServe | services/internal/gateway/server.go:139-161 | From every reachable state in which a label has no row (earlier ones deleted only when their connections had left the registries), an agent can register it on any instance, and a request for it arriving then at any instance can be answered by that agent. |
| OneServer.Simulates | services/internal/gateway/server.go:254-298 | Every event of the cluster other than the deletion of the row of a connection in a registry or still to be listed is an allowed act of one process with a single map from labels to agents, or invisible to callers. |
| OneServer.RunSimulates | services/internal/gateway/server.go:254-298 | The same for stretches of runs from any state that keeps the invariants. |
| OneServer.Refines | services/internal/gateway/server.go:254-298 | Every run without such deletions is, event by event, a run of the one process and ends in the state it shows to callers: a label is opened only while it is not open, a call goes to the agent the map holds, runs there at most once, and ends with that reply or an error. |
| Migrate.TransactionExtends | services/internal/migrate/migrate.go:54-66 | A transaction for a file whose predecessors are committed extends the committed prefix by that file, or does not commit. |
| Migrate.StepKeeps | services/internal/migrate/migrate.go:39-66 | Every step of any of the concurrent runners keeps the invariant and only adds versions. |
| Migrate.SkipIsCommitted | services/internal/migrate/migrate.go:40-42 | A file skipped on the strength of a snapshot taken outside the transaction is committed. |
| Migrate.CommittedIsPrefix | services/internal/migrate/migrate.go:24-70 | With any number of runners, interleaved and failing anywhere, committed versions are always a prefix of the sorted files, each once, the schema is the fold of that prefix, and a runner that reports success finds all files committed. |
| Migrate.SomeRunnerCanSucceed | services/internal/migrate/migrate.go:24-70 | From every reachable state of the concurrent runners, however they died, some runner can still succeed if and only if the files apply in order. |
| Migrate.SuccessIsClean | services/internal/migrate/migrate.go:55-66 | A runner has failed if and only if it met an error or lost a confirmation, and reports success if and only if it went through the whole list. |
| Migrate.TableIsCreatedFirst | services/internal/migrate/migrate.go:25-32 | The table of versions exists if and only if some runner has created it, and none reads it before. |
| Migrate.Database.AppliedVersions | services/internal/migrate/migrate.go:72-88 | The set read is exactly the recorded versions. |
| Migrate.Database.Up | services/internal/migrate/migrate.go:24-70 | The loop computes the specification function of one run, for every placement of faults. |
| Migrate.UpKeeps | services/internal/migrate/migrate.go:39-69 | A run leaves a committed prefix that only grows; it reports success if and only if its table could be created and read, the files apply in order, and no file still to be applied met a fault; then all files are committed. |
| Migrate.UpStopsAtFirstFailure | services/internal/migrate/migrate.go:24-69 | A run goes past no fault: it ends with all files, after the file whose confirmation was lost, or before the file that does not apply or whose transaction was lost. |
| Migrate.ResumedEqualsUninterrupted | services/internal/migrate/migrate.go:39-69 | Any sequence of runs that finally succeeds yields the schema and version table of one clean run, and a further run, whatever its faults, changes nothing. |
| Migrate.SortedMigrationFiles | services/internal/migrate/migrate.go:90-104 | In the list each name is a proper prefix of every later one or has the smaller character where they first differ; it holds exactly the plain files named with something before ".sql". |
| Migrate.BeforeIsLexical | services/internal/migrate/migrate.go:102-102 | The comparison that sorts is lexical order, ascending. |
| Migrate.InsertSorts | services/internal/migrate/migrate.go:102-102 | Sorting names that are distinct keeps them in strict lexical order. |
| Migrate.SortedIsDistinct | services/internal/migrate/migrate.go:90-104 | The sorted list satisfies what the other results ask of the file list. |
| Sessions.LookupMeaning | services/internal/auth/repository.go:164-188 | In every interleaving of statements a refresh token is accepted, for the user it was issued to, if and only if its session was opened, has not expired, and since then saw neither a revocation nor a committed reset of its user. |
| Sessions.RowMeaning | services/internal/auth/repository.go:150-161 | A session row is the first insert under its hash, with user and expiry of that insert, and is revoked if and only if something ended it. |
| Sessions.AcceptedAgain | services/internal/auth/service.go:151-160 | The second of two look-ups of a token succeeds after the first exactly when no revocation or reset came between and it has not expired: the condition under which concurrent refreshes both pass. |
| Sessions.NeverActiveAgain | services/internal/auth/repository.go:169-169 | A revoked or expired session never becomes active again. |
| Sessions.ResetEndsEarlierSessions | services/internal/auth/repository.go:324-328 | After a committed reset no session of the user that its revoking UPDATE found is accepted by any later look-up. |
| Sessions.EffectsAreIssues | services/internal/auth/repository.go:261-304 | Committed uses of a token plus its unused rows never outnumber its issues. |
| Sessions.OneTime | services/internal/auth/repository.go:261-304 | Each verification or reset token issued once takes effect in at most one committed transaction, with any interleaving and rollbacks. |
| Sessions.EffectWasIssued | services/internal/auth/repository.go:264-266 | A token takes effect only for a user it was issued to and before the expiry it was issued with. |
| Sessions.TokenMeaning | services/internal/auth/repository.go:261-304 | In every interleaving a verification or reset token is good for a user, now or at any later time, if and only if it was issued with an expiry after that time and took no effect since, the user being that of the first such issue. |
| Sessions.PasswordMeaning | services/internal/auth/repository.go:308-321 | A user's stored password is that of the user's last committed reset, or the one from before the run. |
| Sessions.VerifiedMeaning | services/internal/auth/repository.go:278-281 | An address is verified if and only if it was before or a committed verification was for its user. |
| Sessions.Owner | services/internal/auth/repository.go:296-299 | A user is returned if and only if an unused, unexpired row has the hash, and it is the user of such a row. |
| Auth.Repository.CreateSession | services/internal/auth/repository.go:150-161 | Inserts the session, or fails on a used hash and changes nothing. |
| Auth.Repository.GetActiveSessionByHash | services/internal/auth/repository.go:164-176 | Returns the row exactly when it is neither revoked nor expired. |
| Auth.Repository.RevokeSessionByHash | services/internal/auth/repository.go:185-188 | Stamps the revocation time, also over an earlier one. |
| Auth.Repository.ConsumeEmailVerification | services/internal/auth/repository.go:261-275 | Marks the usable rows of the hash used and returns the user. |
| Auth.Repository.ConsumePasswordReset | services/internal/auth/repository.go:293-304 | Marks the usable rows of the hash used and returns the user. |
| Auth.Repository.RevokeAllUserSessions | services/internal/auth/repository.go:324-328 | Revokes the user's sessions that are not revoked yet. |
| Auth.Service.IssueTokens | services/internal/auth/service.go:357-379 | A session for the user under the new token's hash, expiring after the configured time. |
| Auth.Service.Login | services/internal/auth/service.go:119-144 | All branches of the login, failing statements included. |
| Auth.Service.Refresh | services/internal/auth/service.go:148-171 | All branches of the rotation: the session is revoked before anything that can still fail. |
| Auth.Service.Logout | services/internal/auth/service.go:174-179 | Revokes the session of the token; an empty token is accepted and does nothing. |
| Auth.Service.RequestPasswordReset | services/internal/auth/service.go:209-229 | Stores the hash of a new token for one hour; an unknown address is an error. |
| Auth.Service.ResetPassword | services/internal/auth/service.go:233-267 | One transaction: consume, set the password, revoke the sessions, or none of it. |
| Auth.Service.VerifyEmail | services/internal/auth/service.go:187-204 | One transaction: consume and mark the address verified, or none of it. |
| Auth.RunIsStatements | services/internal/auth/service.go:119-267 | A run of service calls is a run of the statements and transactions they issue, so what is proved of those for every interleaving holds of the service. |
| Auth.RefreshedAtMostOnce | services/internal/auth/service.go:148-171 | Over every run of calls made one at a time a refresh token is accepted at most once, and later attempts change nothing. |
| Auth.RotationKeepsUser | services/internal/auth/service.go:158-170 | An accepted refresh spends the presented token and opens exactly one session, for the same user, under another token; no other session changes. |
| Auth.SessionsWithinLogins | services/internal/auth/service.go:119-179 | Over every run of calls made one at a time a user's active sessions never outnumber that user's accepted logins. |
| Auth.LoggedOutStaysOut | services/internal/auth/service.go:174-179 | After an accepted logout the token is refused for the rest of the run. |
| Auth.LoginMeaning | services/internal/auth/service.go:119-144 | A login is accepted if and only if its statements work, its token is new and the password derives the key stored for the user of the address; it opens that user one session. Otherwise nothing changes, and "invalid credentials" says exactly that the password did not fit. |
| Auth.NoPasswordNoLogin | services/internal/auth/repository.go:116-127 | Without a stored password, or with one that does not decode, every login is refused. |
| Auth.LoginWithHash | services/pkg/security/password.go:52-68 | Against a stored hash exactly the passwords that derive the same key are accepted. |
| Auth.LoginFollowsPassword | services/internal/auth/service.go:119-144 | In every run of calls made one at a time an accepted login derives the key of the hash stored by the user's last accepted reset, or of the one from before the run; with working statements and a new token it is accepted if and only if it does. |
| Auth.ClockOfRun | services/internal/auth/service.go:119-267 | Calls take no time in these runs: the clock is that of the waits between them. |
| Auth.RefreshMeaning | services/internal/auth/service.go:148-171 | Exactly an active session's token is accepted, with working statements; once look-up and revocation have worked the session is spent even if the call then fails. |
| Auth.LogoutMeaning | services/internal/auth/service.go:174-179 | A logout whose statement works ends the session of its token and no other; an empty token is accepted and ends none. |
| Auth.RequestResetMeaning | services/internal/auth/service.go:209-229 | A reset is requested exactly for a known address with working statements, and its token is then good for that user. |
| Auth.ResetMeaning | services/internal/auth/service.go:233-267 | A reset is accepted exactly with eight characters or more, a usable token and a commit; it sets that user's password and no other, ends that user's sessions and no other, and uses up the token. |
| Auth.SessionLastsItsLifetime | services/internal/auth/service.go:367-370 | A new token, presented after some seconds, is accepted if and only if they are fewer than its configured lifetime. |
| Auth.ResetWithinTheHour | services/internal/auth/service.go:209-267 | A requested reset token, presented after some seconds, sets the password of that address if and only if they are fewer than 3600, and changes nothing afterwards. |
| Auth.VerificationWithinLifetime | services/internal/auth/service.go:97-102 | An issued verification token, presented after some seconds, verifies its user's address if and only if they are fewer than its lifetime. |
| Auth.VerificationTakesEffect | services/internal/auth/service.go:187-204 | A verification marks the token's user exactly when it commits with a usable token. |
| Auth.ResetLogsOut | services/internal/auth/service.go:249-266 | After an accepted reset every session the user had is refused for the rest of the run. |
| Auth.LoginAfterReset | services/internal/auth/service.go:238-262 | Right after an accepted reset a login passes if and only if its password derives the key of the new one; the new password always does. |
| Analytics.Store.Record | services/internal/analytics/analytics.go:117-125 | Queues the event unless the store is disabled or 1024 events wait, and never blocks. |
| Analytics.Store.Flush | services/internal/analytics/analytics.go:149-175 | Empties the buffer into one batch; the rows written are those of the batch that were appended, if the batch was prepared and sent. |
| Analytics.Store.Turn | services/internal/analytics/analytics.go:127-147 | One turn of the loop for each case of its select. |
| Analytics.TickHandsOver | services/internal/analytics/analytics.go:143-144 | After every run that ends with a tick the buffer is empty: every accepted event not still in the channel has been handed over. |
| Analytics.ReceiveHandsOver | services/internal/analytics/analytics.go:135-142 | Taking an event from the channel hands over a batch if and only if it is the five hundredth in the buffer; otherwise it only joins the buffer. |
| Analytics.DisabledIsInert | services/internal/analytics/analytics.go:117-120 | A store without a connection takes nothing and writes nothing. |
| Analytics.FifoConservation | services/internal/analytics/analytics.go:117-160 | In every run the batches handed over, then the buffer, then the channel are the accepted events in order; accepted are all but those recorded while 1024 waited; the buffer is below 500 after each turn and batches have 1 to 500 events. |
| Analytics.ShutdownKeepsChannel | services/internal/analytics/analytics.go:132-134 | After the loop stopped, all accepted events were handed over if and only if the channel was empty; what was left is never handed over. |
| Analytics.TableIsAcceptedPrefix | services/internal/analytics/analytics.go:167-174 | While the writer works the table holds the rows of the accepted events in order, up to those still queued. |
| Analytics.TableTellsEvents | services/internal/analytics/analytics.go:167-168 | While the writer works, row j of the table is the j-th accepted event, column by column: project, tunnel, method, path, time, and the low 16 and 32 bits of status and duration. |
| Analytics.AppendedAreKept | services/internal/analytics/analytics.go:167-171 | Of a batch the rows are those of the events whose append did not fail, in order. |
| Analytics.RowsOfOneStep | services/internal/analytics/analytics.go:162-175 | Rows appear only when a batch is handed over, and none of them if it could not be prepared or sent. |
| Analytics.RowIsFaithful | services/internal/analytics/analytics.go:168-168 | Status and duration survive the conversion exactly within 16 and 32 bits. |
| Base64.RoundTrip | services/pkg/security/password.go:86-93 | Decoding inverts unpadded encoding for every byte sequence, in the standard and the URL alphabet. |
| Base64.EncodeAlphabet | services/pkg/security/token.go:19-19 | Tokens hold only characters of the URL alphabet, hashes only of the standard one. |
| Base64.EncodeIsSplit | services/pkg/security/token.go:19-19 | The characters of an encoding are its bytes regrouped in six bits. |
| Base64.SplitRegroupsBits | services/pkg/security/token.go:19-19 | Each three bytes read as one number are their four sextets read as one, and one or two left at the end are theirs without the fill bits. |
| Base64.TablesOfTheStandard | services/pkg/security/password.go:48-49 | The alphabets are those of tables 1 and 2 of RFC 4648. |
| Base64.DecodesExactly | services/pkg/security/password.go:86-93 | A string is decoded if and only if, line breaks apart, it holds only characters of the alphabet and their number is not one more than a multiple of four. |
| Base64.EncodeLength | services/pkg/security/token.go:14-19 | A token of n bytes has (4n + 2) / 3 characters: six bytes make eight, thirty-two make forty-three. |
| Password.PhcRoundTrip | services/pkg/security/password.go:48-98 | `decodeHash` inverts the printer for all 32-bit memory and iteration counts, 8-bit parallelism and arbitrary salt and key. |
| Password.VerifyAfterHash | services/pkg/security/password.go:38-68 | Verification against a produced hash accepts exactly the passwords that derive the same key, the hashed one included, with Argon2id a function parameter. |
| Password.DecodeMeaning | services/pkg/security/password.go:70-98 | A text is decoded if and only if it has six '$'-separated parts, the second naming the algorithm, the third holding a version of any value, and the others are the parameters, salt and key that result. |
| Password.ScanParamsMeaning | services/pkg/security/password.go:81-84 | The parameters are read exactly from "m=", ",t=" and ",p=" with a numeral within the field's width after each; what follows is not looked at. |
| Password.ScanUintMeaning | services/pkg/security/password.go:81-84 | A numeral is read exactly when it is blank space without a newline, then digits of a value below the limit, up to the first character that is no digit. |
| Password.HashText | services/pkg/security/password.go:38-50 | The parts of a new hash: version 19, 65536 KiB, three iterations, two lanes, and the key derived with them in 32 bytes. |
| Password.ScanPrintedParams | services/pkg/security/password.go:81-84 | Scanning the printed parameters gives them back. |
| Strings.SplitJoin | services/pkg/security/password.go:71-71 | Splitting inverts joining when no part holds the separator. |
| Strings.JoinSplit | services/pkg/security/password.go:71-71 | Joining inverts splitting, and no part holds the separator. |
| Address.MintedLabel | services/internal/gateway/server.go:426-432 | Every minted label is a host label. From random bytes it holds only lower-case letters and digits and is empty exactly when all their sextets are '-' or '_'; the UUID head that stands in for a failed random source has twelve characters, one of them '-'. |
| Address.LabelSpellsSextets | services/internal/gateway/server.go:426-431 | A label minted from random bytes has one character for each of their sextets that is not '-' or '_', in order: its letter or digit in lower case. |
| Address.PublicUrlInjective | services/internal/gateway/server.go:202-202 | Under one base domain a public URL determines its label, so the unique index on URLs is one on labels. |
| Address.UrlHost | services/internal/requests/service.go:124-131 | The host of a public URL is label and base domain. |
| Address.HostOfUrl | services/internal/requests/service.go:124-131 | The scheme, http or https, and everything from the first '/' after the host are dropped. |
| Address.SplitsHostAndPort | services/internal/gateway/server.go:415-417 | Exactly the strings "host:port" and "[host]:port" are split, at that colon. |
| Address.HostNamesLabel | services/internal/gateway/server.go:414-423 | A Host header without a port leads to a label if and only if it is that label under the base domain. |
| Address.HostRoundTrip | services/internal/gateway/server.go:414-432 | A non-empty label survives the way through its public URL and the Host header. |
| Address.HostRoundTripWithPort | services/internal/gateway/server.go:415-417 | With any numeric port appended it survives if and only if the base domain holds no bracket. |
| Address.ReplayRebuildsTarget | services/internal/requests/service.go:68-71 | Replay's join inverts capture's split if and only if the first '?' of the target is not its last character. |
| Address.CaptureRecoversPathAndQuery | services/internal/gateway/server.go:323-327 | Capture recovers the path and query of a request if and only if the decoded path holds no '?'. |

## Left out

- `register`, `readLoop`, `handlePublic`, `serveLocally`, `forward`, `forwardRemote` and `handleClusterRequest` as methods: they block while other goroutines run, so each is a sequence of steps of the two state machines and no class stands for it.
- Checks in `register` before the row is created (token, project role, port): they only decide whether a registration starts.
- Heartbeats, read deadlines, reconnecting and backoff of the agent: a read loop may end at any time, and an agent that reconnects is a new connection.
- Statuses below 100 in an agent's response: `w.WriteHeader` panics for them; `Panicked` stands only for a missing response.
- Real sockets, TLS, HTTP, JSON, body size limits and header copying, hop-by-hop headers included.
- The request the agent makes to the local application: its response is arbitrary, once for each frame taken.
- Storing captures in Postgres: what is counted is the hand-over to `capture`.
- Schedulers: that a goroutine which can run does run. `Completion` bounds the steps a call needs, `Delivery` shows schedules that deliver.
- What happens after the row of a connection in use is deleted: safety of forwarding and completion are proved with such deletions. Ownership and refinement stop there, and `Exclusive.DeletionSharesRegistry` says that they must; reachability stops at a deletion before the label is forgotten, and `Routes.DeletionUnroutes` says that it must.
- Postgres and Redis internals: statements, transactions and commands are atomic steps. The repositories hold their tables as values, so their methods are no more than the statements they issue; what the tables mean over runs is in `Sessions`, `Exclusive` and `Analytics`.
- Begin, read and lock errors of the migration runner one by one: a transaction commits or not, and its confirmation arrives or not.
- SHA-256, Argon2id, random sources and constant-time comparison: functions and values given from outside; argon2.IDKey panics for zero iterations or parallelism, which decoded hashes could ask for, and the model does not.
- Users: the directory is fixed. Register, OAuth, workspaces, access tokens and e-mail delivery are not modelled; sessions they open would count as logins.
- Auth.RefreshedAtMostOnce: for calls made one at a time, as `Refresh` looks up and revokes in two statements; `Sessions.AcceptedAgain` says exactly when concurrent ones both pass.
- Sessions.ResetEndsEarlierSessions: a reset is one step, so "earlier" means before its revoking UPDATE; a login that inserts its session between that UPDATE and the commit counts as later.
- Clock differences between the service and the database: `Auth` uses one clock, `Sessions` takes any expiry.
- Analytics.FifoConservation: batches are conserved up to the hand-over; `flush` drops a batch the writer cannot prepare or send.
- Reading analytics (averages, quantiles), AI providers, billing, configuration, the web application and deployment files.
- Overrides in `Replay` and the request it sends: only the rebuilding of the target and the host are modelled.
