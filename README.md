# Load-balance controller: a Dafny model

This project models the core of a Kubernetes controller that gives pooled virtual IPs to
Services of type LoadBalancer. It covers five parts:

- **Allocation client and IP pool cache** (`Sdk`, `sdk.dfy`). The cache is a class over a
  `map` from IP to record, with `GetByKey`, `Delete`, `Set` and the destructive `Pop`.
  `GetAvailableIp` checks the inventory listing in a fixed order: non-empty, empty, failed.
  `WaitForCacheSync` fills the cache at startup. `Bind`/`Unbind` turn a POST response into
  success or an error. The HTTP client is an oracle `Transport` from (url, body) to a
  response. The result of the `list` GET is a parameter.
- **Reconciler and event handlers** (`Controllers`, `controller.dfy`). `Reconcile` is
  `syncLoadBalance` as a function of what the lister, the allocation client and the status
  writer answer. It returns the result and the ordered log of calls made. The `Controller`
  class holds the work queue, the keys passed to `Done` and the call log. Its methods
  `AddService`, `UpdateService`, `DeleteService`, `SyncLoadBalance` and `ProcessNextItem`
  are proved against the pure decision functions and `Reconcile`.
- **Inventory table** (`Models`, `models.dfy`). The `loadbalances` table is a class over a
  sequence of rows in primary-key order, so gorm's `First` is the first matching row.
  `Bind` and `Released` are methods proved against `BindTable` and `ReleasedTable`. The
  "bound iff owned" invariant and the bind/release round trip are proved about those two
  functions.
- **Request validator** (`Validation`, `valid.dfy`).
- **Option defaulting** (`Options`, `options.dfy`). The hostname is passed in as a
  parameter.

`errors.dfy` holds the `Option`, `Result` and `Outcome` types standing in for Go's error
returns.

Where the intended behaviour and the code disagree, the model follows the code:

- At startup the cache is not cleared before it is filled. Records cached earlier and no
  longer listed stay (`WarmKeepsUnlisted`).
- A deletion tombstone is not unwrapped. It is passed as is to `addService`, which panics
  (first finding below). The pure `DeleteDecisionAsWritten` follows the code. The
  `Controller` class runs the corrected handler `DeleteDecision`.
- The inventory table does not stop one Service from holding several IPs. So `Released`
  frees only the first row owned by the Service, and the round-trip lemma requires that the
  Service owns no other row.

## Model

| member | source | states |
|---|---|---|
| `Sdk.ServiceCache.GetByKey` | pkg/cloudprovider/sdk/loadbalalce.go:22-26 | Returns the cached record when `key` is present and nil (`None`) otherwise. |
| `Sdk.ServiceCache.Delete` | pkg/cloudprovider/sdk/loadbalalce.go:28-32 | Afterwards `GetByKey(ip)` is absent; every other key reads as before. |
| `Sdk.ServiceCache.Set` | pkg/cloudprovider/sdk/loadbalalce.go:34-38 | Afterwards `GetByKey(ip)` is the given record; every other key reads as before. |
| `Sdk.ServiceCache.Pop` | pkg/cloudprovider/sdk/loadbalalce.go:40-55 | The loop over the map leaves `lastKey` on some key, or on "" for an empty map. The cache and result are `PopAt` at that key, whatever the iteration order. |
| `Sdk.PopAt` | pkg/cloudprovider/sdk/loadbalalce.go:45-54 | Last key "": error "no available ip by cache", cache unchanged. Otherwise returns that entry's IP and removes exactly that key; all other entries stay the same. |
| `Sdk.PopOutcomes` | pkg/cloudprovider/sdk/loadbalalce.go:40-55 | For any iteration order: an empty cache fails and stays unchanged. Every failure leaves the cache unchanged and needs an empty cache or a "" key. A success removes one non-"" key and returns its record's IP. |
| `Sdk.PopMayTakeAnyKey` | pkg/cloudprovider/sdk/loadbalalce.go:45-54 | Any non-"" key is a possible pop. When the cache holds such a key and no key "", every allowed run of `pop` succeeds. |
| `Sdk.LoadBalanceClient.Bind` | pkg/cloudprovider/sdk/loadbalalce.go:57-78 | POSTs to the bind URL a body with the config region as cluster plus ip, namespace and name. Succeeds iff the transport succeeds and the code is 200. Otherwise fails with the transport error or the backend message. |
| `Sdk.LoadBalanceClient.Unbind` | pkg/cloudprovider/sdk/loadbalalce.go:80-99 | POSTs to the released URL a body carrying only name and namespace. Same success rule as `Bind`. |
| `Sdk.LoadBalanceClient.GetAvailableIp` | pkg/cloudprovider/sdk/loadbalalce.go:101-111 | Non-empty listing: first record's IP, cache unchanged. Empty listing: "no available ip", cache unchanged, not consulted. Failed listing: exactly the outcomes and cache effects `pop` allows. |
| `Sdk.LoadBalanceClient.WaitForCacheSync` | pkg/cloudprovider/sdk/loadbalalce.go:132-146 | Returns true iff the listing succeeded. On failure the cache is unchanged. On success the cache is `Warm` of the old cache and the listing. |
| `Sdk.LoadBalanceClient.NewLoadBalance` | pkg/cloudprovider/sdk/loadbalalce.go:148-155 | Keeps the configuration; the cache is new and empty. |
| `Sdk.Warm` | pkg/cloudprovider/sdk/loadbalalce.go:139-141 | The synced cache's keys are the old keys plus every listed IP. |
| `Sdk.WarmKeepsUnlisted` | pkg/cloudprovider/sdk/loadbalalce.go:132-146 | A cached key that is not listed keeps its record. |
| `Sdk.WarmStoresLast` | pkg/cloudprovider/sdk/loadbalalce.go:139-141 | A listed IP holds the last listed record with that IP. |
| `Sdk.WarmKeyedByIp` | pkg/cloudprovider/sdk/loadbalalce.go:139-141 | If every cached record sits under its own IP before the sync, that still holds after it. |
| `Sdk.WarmShared` | pkg/cloudprovider/sdk/loadbalalce.go:139-140 | As written, under the loop-variable aliasing of Go before 1.22: every listed IP maps to the last listed record. |
| `Sdk.AliasedCacheRepeatsIp` | pkg/cloudprovider/sdk/loadbalalce.go:139-140 | With aliased entries, two pops of a two-record listing return the second record's IP both times. |
| `Sdk.SyncedPopsDiffer` | pkg/cloudprovider/sdk/loadbalalce.go:51-53 | With per-record entries, a pop returns the key it removes, so two successive pops return different IPs. |
| `Controllers.AddDecision` | pkg/cloudprovider/controllers/loadbalance.go:165-174 | A Service is enqueued under its namespace key iff its type is LoadBalancer; other Services are ignored. A non-Service panics in the type assertion. |
| `Controllers.UpdateDecision` | pkg/cloudprovider/controllers/loadbalance.go:176-184 | Equal resource versions do nothing. Otherwise it behaves exactly like `addService(new)`. |
| `Controllers.DeleteDecisionAsWritten` | pkg/cloudprovider/controllers/loadbalance.go:186-204 | A live Service behaves like `addService`. A non-tombstone, or a tombstone not holding a Service, enqueues nothing. A tombstone holding a Service panics. |
| `Controllers.DeleteDecision` | pkg/cloudprovider/controllers/loadbalance.go:186-204 | The corrected handler passes the tombstone's Service to `addService`. It never panics. |
| `Controllers.TombstoneDeletePanics` | pkg/cloudprovider/controllers/loadbalance.go:197-202 | A tombstone holding a LoadBalancer Service panics as written. When corrected, it enqueues that Service's key. |
| `Controllers.DesiredIp` | pkg/cloudprovider/controllers/loadbalance.go:126-134 | Picks `loadBalancerIP` if non-empty, else the first ingress IP. The result is "" (allocate) exactly when both are empty. |
| `Controllers.Reconcile` | pkg/cloudprovider/controllers/loadbalance.go:117-163 | A pass makes at most three calls. It calls `Unbind` exactly when the lister reports the Service not found. It writes a status only after a successful bind, and then returns that write's result. The lemmas in the rows below state the rest of its behaviour. |
| `Controllers.NotFoundReleases` | pkg/cloudprovider/controllers/loadbalance.go:118-122 | Not found: exactly one `Unbind(name, namespace)` and its result. No allocation, bind or status write. |
| `Controllers.LookupErrorSurfaces` | pkg/cloudprovider/controllers/loadbalance.go:118-124 | Any other lister error is returned as is, and no call is made. |
| `Controllers.AllocationFailureStops` | pkg/cloudprovider/controllers/loadbalance.go:141-146 | An allocation error is returned right after `GetAvailableIp`. No bind and no status write follow. |
| `Controllers.BindOnce` | pkg/cloudprovider/controllers/loadbalance.go:141-151 | `Bind(name, namespace, ip)` is called exactly once, with the desired or allocated IP. `GetAvailableIp` comes before it only when no IP is named. A failed bind ends the pass with its error. |
| `Controllers.StatusWriteIff` | pkg/cloudprovider/controllers/loadbalance.go:153-162 | After a successful bind, a status write happens iff the ingress list is empty or its first IP differs. The written status has that IP as its only ingress entry. The pass returns its result. |
| `Controllers.SecondPassWritesNothing` | pkg/cloudprovider/controllers/loadbalance.go:126-162 | A pass over the Service as the first pass wrote it binds the same non-empty IP and makes no status write. |
| `Controllers.OverrideWins` | pkg/cloudprovider/controllers/loadbalance.go:128-134 | Ingress 10.0.0.5 with `loadBalancerIP` 10.0.0.9 binds and records 10.0.0.9. |
| `Controllers.FreshServiceScenario` | pkg/cloudprovider/controllers/loadbalance.go:117-163 | `default/web` with no IP: ask the pool, bind 10.0.0.1, then write a status whose only ingress is 10.0.0.1. |
| `Controllers.Added` | pkg/cloudprovider/controllers/loadbalance.go:172 | Queue `Add`: the key is waiting afterwards, a key already waiting is not queued twice, and the keys stay distinct. |
| `Controllers.Controller.Add` | pkg/cloudprovider/controllers/loadbalance.go:172 | A queue that is shutting down ignores the key. Otherwise the queue becomes `Added(queue, key)`. Nothing else changes. |
| `Controllers.Controller.AddService` | pkg/cloudprovider/controllers/loadbalance.go:165-174 | Returns `AddDecision(obj)` and applies it to the queue; nothing else changes. |
| `Controllers.Controller.UpdateService` | pkg/cloudprovider/controllers/loadbalance.go:176-184 | Returns `UpdateDecision` and applies it to the queue; nothing else changes. |
| `Controllers.Controller.DeleteService` | pkg/cloudprovider/controllers/loadbalance.go:186-204 | Returns the corrected `DeleteDecision` and applies it to the queue; nothing else changes. |
| `Controllers.Controller.SyncLoadBalance` | pkg/cloudprovider/controllers/loadbalance.go:117-163 | The result and the calls appended to the log are those of `Reconcile`. Queue and `Done` log are unchanged. |
| `Controllers.Controller.ProcessNextItem` | pkg/cloudprovider/controllers/loadbalance.go:96-115 | An empty, shutting-down queue returns false without `Done`. Otherwise the head key goes to `Done` exactly once. Returns true iff the split and `syncLoadBalance` both succeed. |
| `Models.FirstWhere` | cmd/cloud-provider-manager/models/loadbalance.go:34-44 | `First` picks the first row that satisfies the filter, or none when no row does. |
| `Models.GetByIp` | cmd/cloud-provider-manager/models/loadbalance.go:34-38 | Returns a row holding the IP with the smallest key, or "record not found" iff none holds it. |
| `Models.GetByService` | cmd/cloud-provider-manager/models/loadbalance.go:40-44 | Returns a row owned by (name, namespace) with the smallest key, or "record not found" iff none is. |
| `Models.SaveAt` | cmd/cloud-provider-manager/models/loadbalance.go:60 | With unique keys, `Save` overwrites exactly the row with the saved key, and key order is kept. |
| `Models.BindTable` | cmd/cloud-provider-manager/models/loadbalance.go:46-61 | Unknown IP: "record not found", table unchanged. Bound first match: "ip has been bound", table unchanged. Otherwise only the first match changes, to status 1 with the request's owner and `now`. The request's other fields are ignored. |
| `Models.ReleasedTable` | cmd/cloud-provider-manager/models/loadbalance.go:63-73 | No owned row: "record not found", table unchanged. Otherwise only the first owned row changes: owner cleared, status 0, stamped `now`. |
| `Models.BindKeepsOwned` | cmd/cloud-provider-manager/models/loadbalance.go:56-59 | A bind with a non-empty owner keeps "status 1 iff namespace and name are non-empty". |
| `Models.ReleasedKeepsOwned` | cmd/cloud-provider-manager/models/loadbalance.go:68-70 | A release keeps "status 1 iff namespace and name are non-empty". |
| `Models.StepsKeepIdsAscending` | cmd/cloud-provider-manager/models/loadbalance.go:46-73 | Neither operation changes keys, so the table stays in key order. |
| `Models.BindThenReleased` | cmd/cloud-provider-manager/models/loadbalance.go:46-73 | Bind a free IP, then release the same Service (owning no other row). The row ends free with no owner, every other row is as before, and the IP can be bound again. |
| `Models.Table.Bind` | cmd/cloud-provider-manager/models/loadbalance.go:46-61 | The table and the result are those of `BindTable`. A failed `Save` leaves the table unchanged and returns its error. |
| `Models.Table.Released` | cmd/cloud-provider-manager/models/loadbalance.go:63-73 | The table and the result are those of `ReleasedTable`. A failed `Save` leaves the table unchanged and returns its error. |
| `Validation.Valid` | cmd/cloud-provider-manager/controllers/loadbalance/valid.go:5-10 | False when the IP, the service name or the namespace is empty. True when all three are set. |
| `Validation.ValidIgnoresOtherFields` | cmd/cloud-provider-manager/controllers/loadbalance/valid.go:6-9 | Cluster, status, carriers, CIDR, key and times do not affect the verdict. |
| `Validation.ValidBindKeepsOwned` | cmd/cloud-provider-manager/controllers/loadbalance/valid.go:6-7 | Binding a request that passes `Valid` keeps "bound iff owned". |
| `Options.NewLoadBalanceServer` | cmd/loadbalance-controller/app/options/options.go:54-63 | Config path "config.yml", lease name "loadbalance-controller", lease namespace "kube-system". Kube-config, region and lease identity are empty. |
| `Options.WithDefaults` | cmd/loadbalance-controller/app/options/options.go:39-52 | Empty lease name, namespace and identity get "loadbalance-controller", "kube-system" and the hostname (which may be ""). Set lease fields are kept. Kube-config, config path and region are never changed. |
| `Options.WithDefaultsIdempotent` | cmd/loadbalance-controller/app/options/options.go:39-52 | With the same hostname, defaulting twice equals defaulting once. |
| `Options.WithDefaultsFillsLease` | cmd/loadbalance-controller/app/options/options.go:39-52 | Afterwards both lease names are set. So is the identity, when the hostname is non-empty. |
| `Options.DefaultsOfNewServer` | cmd/loadbalance-controller/app/options/options.go:39-63 | Defaulting the initial flags only sets the lease identity to the hostname. |
| `Options.LoadBalanceFlags.SetDefaultRequiredValue` | cmd/loadbalance-controller/app/options/options.go:39-52 | The fields afterwards are `WithDefaults` of the fields before. |

## Left out

- Leader election, signal handling, goroutines, `Run`, `runWorker` and `wait.Until`. These are concurrency and client-go machinery.
- The `sync.RWMutex` of the cache. The cache is modelled sequentially.
- The HTTP GET of `List` and the JSON re-marshal of its data. The listing is a parameter (`Result<seq<LoadBalance>>`).
- `Sdk.LoadBalanceClient.GetAvailableIp` and `Sdk.LoadBalanceClient.WaitForCacheSync`: a listing whose `data` is JSON null. `List` then returns a nil slice pointer and no error, since it never checks the envelope's code (loadbalalce.go:113-130). `len(*ipList)` at line 103 and `range *fullData` at line 139 then dereference nil and panic. The parameter type has no value for that case, so neither method models the panic.
- The HTTP client itself. A POST is the oracle `Transport`. A reply that decodes to nil (which Go would dereference) is not modelled.
- `SplitMetaNamespaceKey`, the Service lister and `UpdateStatus`. They are oracle values in `ProcessNextItem` and `Reconcile`. The reconciler's writes into the lister's own cached Service object are not modelled. Line 154 sets the new ingress on the cached object before `UpdateStatus`. So when the write fails, the cache already shows the new IP. A later resync of that object reaches `updateService` with an equal resource version and is dropped. As a result, a failed status write is not retried until the Service changes on the server (read from the code, not executed).
- `Controllers.Controller.ProcessNextItem`: requires a non-empty queue or a shutting-down one. On an empty queue that is not shutting down, `Get` blocks forever and has no outcome.
- The work queue's rate limiting and in-flight bookkeeping. It is a sequence of distinct keys: `Add` of a waiting key is coalesced, and `Get` takes the head.
- `NewLoaBalanceController`'s refusal to start when `WaitForCacheSync` fails. The informer wiring of that constructor is client-go plumbing.
- `Controllers.Controller.DeleteService`: runs the corrected handler `DeleteDecision`. On a tombstone holding a Service it enqueues that Service's key. The code as written panics there, and only `Controllers.DeleteDecisionAsWritten` models that panic.
- Queue shutdown. `Run` defers `ShuttingDown()` (loadbalance.go:73), which only reads the flag, so the program never shuts its queue down. The `quit` branch of `processNextItem` (lines 98-100) is therefore unreachable in the program (read from the code, not executed). The model keeps the queue's `ShutDown`, after which `Add` is ignored.
- `Models.Table.Bind`: when `Save` fails, Go returns the updated row together with the error. The model returns only the error.
- `Models.GetByIp` and `Models.GetByService` (and so `BindTable` and `ReleasedTable`): rows match only when the IP, or the service name and namespace, are exactly equal. The queries run on MySQL with `charset=utf8mb4` (models/db.go:17), and the table's collation is not part of this model. A default utf8mb4 collation ignores case, and the MySQL 5.7 one also ignores trailing spaces. So the database may match a row, for example `Default/Web` against `default/web`, that the model reports as "record not found".
- Database failures other than `Save`'s error, for example a failing query in `GetByIp`. The query is modelled as succeeding or finding nothing.
- `UpdatedAt`/`CreatedAt`. These are abstract integers; `now` is a parameter.
- The owner check of the `Released` HTTP handler (controllers/loadbalance/loadbalance.go:53) and all gin handlers and routes. These are HTTP plumbing.
- `pkg/config`, `pkg/util/parsers`, `models/db.go`, both `main.go` files and the cobra command wiring. These are file reads, library wrappers and CLI plumbing.

## Findings

| source | as written | input that shows it | evidently intended | confidence | as-written member | corrected member |
|---|---|---|---|---|---|---|
| pkg/cloudprovider/controllers/loadbalance.go:202 | `deleteService` passes the tombstone itself to `addService`, whose unchecked type assertion (line 166) panics | a delete event carrying `DeletedFinalStateUnknown{Obj: <LoadBalancer Service>}` | pass `tombstone.Obj`, so the Service gets its final reconciliation | high, not executed | `Controllers.DeleteDecisionAsWritten`, `Controllers.TombstoneDeletePanics` | `Controllers.DeleteDecision` |
| pkg/cloudprovider/sdk/loadbalalce.go:139-140 | `set(data.Ip, &data)` stores the address of the loop variable; before Go 1.22 every entry is the last listed record | listing `[{ip: a}, {ip: b}]`, then two fallback pops | one record per IP, so each pop hands out a different IP | medium, not executed (depends on the module's Go version, which is not part of this model) | `Sdk.WarmShared`, `Sdk.AliasedCacheRepeatsIp` | `Sdk.Warm`, `Sdk.SyncedPopsDiffer` |
