# SmsForwarder gateway: verified model

The gateway is a small web service whose whole state is one database: devices, their frp tunnels, webhook
tokens, received events, rate-limit windows and command logs. This project models that database as one value,
models every service that writes it, and proves what the services keep over whole runs: any number of
devices, any requests in any order, and, where the code lets requests overlap, any interleaving.

`dafny verify dfyconfig.toml` checks everything.

## How the model is built

| part | modules |
|---|---|
| rows, constraints, and a session with flush, commit and rollback | `Models` |
| what one unit of work writes: only the columns it changed since it loaded the row, all or nothing | `Transactions` |
| device and tunnel operations: what each reads (`Plan`), what it then commits (`Apply`) | `Devices`, `Tunnels` |
| the same services as classes over a session, each method proved to carry out its operation | `TunnelService` |
| the outcome of every request, said from the request, the settings and literals | `TunnelOutcomes`, `WebhookOutcomes`, `DispatchOutcomes` |
| runs in which reading and commit of different sessions interleave | `PortSafety` |
| who owns a device's base URL: in serial runs, and exactly when it survives interleaving | `BaseUrls`, `Ownership` |
| the frpc configuration file and a TOML reader for it; the dashboard join | `FrpcToml`, `FrpsService` |
| fixed-window limiter, over timed runs | `RateLimiter` |
| webhook creation, rotation, lookup, ingest and the ingest endpoint, as functions and as a service | `Webhooks`, `WebhookService` |
| serial runs of the whole gateway and the history of its deliveries | `GatewayRuns` |
| event log and counters, their independence of order, throughput, tokens | `Ledger`, `Reordering`, `IngestOrder`, `Throughput`, `Tokens` |
| the event cache and its pagination, and the pages as clients receive them | `EventCache`, `DispatchedPages` |
| command dispatch, and runs with many dispatches in flight | `Commands`, `Lifecycle` |
| phone masking and scrubbing | `Masking`, `Scrubbing` |
| JSON values, `json.dumps` with a reader, the fallback event id | `Values`, `JsonText`, `Deduplication` |
| decimal numbers, counting, permutations | `Decimal`, `Prelude` |

A service method is proved against a function on the tables (`Serial`, `CreateWebhook`, `RotateWebhook`,
`Ingest`, `Post`, `Check`, `Begin`, `Resume`, `Scrub`). The outcome lemmas say what those functions yield in
every case without naming their parts; the other theorems are about the runs made of them. Times are integers of microseconds. Clock readings, generated tokens and ids, the device's
answer, the dashboard's answer and Python's character tables are parameters.

## What turned out different from the intent

- `disable` does not check that the tunnel is enabled. Enable (saving A), disable, change to B, disable gives A
  back: `BaseUrls.DisablingTwiceForgetsUpdate`. `BaseUrls.LatestStep` and `BaseUrls.DisableRestoresLatest` say
  exactly when a disable keeps the user's latest URL: the tunnel is enabled, or what it saved is in force.
- The lock that keeps `base_url` from being updated under an enabled tunnel is read before the commit, and an
  enable saves the base URL it read before its own. Across sessions both can be stale:
  `Ownership.StaleUpdateOverridesTunnel`, `Ownership.StaleEnableSavesOldUrl`. `Ownership.OwnedExactly` says for
  every interleaving exactly when the base URL stays in order.
- A lost port race is caught only between devices. Two sessions that enable the same device's disabled tunnel on
  one port both succeed: `PortSafety.SameDeviceCommitsTwice`, and `PortSafety.RacingEnables` for exactly which.
- `retry_after` is floored. Waiting exactly that long reaches the next window only when less than or exactly one
  second is left, or a whole number of seconds: `RateLimiter.RejectionWait`, and only then is the retry admitted:
  `RateLimiter.RetryAtAnnouncedTime`, with `RateLimiter.AnnouncedWaitTooShort`. One second more always does.
- The limiter admits the first request of a window whatever the limit is, so every bound is max(limit, 1).
- Contact and location queries in cache mode look for event types that ingest never stores:
  `EventCache.ContactAndLocationCachesAreEmpty`.
- The frpc file escapes nothing. `FrpcToml.ReadToml` gives the exact condition under which it reads back.
- A number and its own masked form mask alike: `Masking.NumberAndMaskedFormCollide`. `Masking.MaskPhoneEqual`
  says exactly which texts do; among texts without an asterisk it is those that differ in hidden digits only.
- The error text of a failed command is stored as raised: `Lifecycle.ErrorTextIsNotScrubbed`.

## Model

| member | source | states |
|---|---|---|
| Models.Session.Commit | app/db/session.py:12-29 | all pending work is stored if it meets every constraint, otherwise the store is untouched |
| TunnelService.DeviceService.Create | app/services/device_service.py:15-26 | the session carries out the serial create: row stored, or an existing id or null channel fails and stores nothing |
| TunnelService.DeviceService.Update | app/services/device_service.py:37-57 | the loop of column assignments equals the serial update, and a base URL change under an enabled tunnel is refused |
| TunnelService.TunnelService.NextRemotePort | app/services/tunnel_service.py:122-136 | the scan returns the least allowed port that no row holds, or nothing |
| PortSafety.PlanIsDerived | app/services/tunnel_service.py:30-53 | every row a plan would write has URLs, status and proxy name in agreement with its port, switch and device |
| TunnelService.TunnelService.Enable | app/services/tunnel_service.py:23-62 | equals the serial enable in tables, result and each of its four errors |
| TunnelService.TunnelService.Update | app/services/tunnel_service.py:64-72 | equals the serial update: null values skipped, the rest assigned in order |
| TunnelService.TunnelService.Disable | app/services/tunnel_service.py:74-82 | equals the serial disable: switched off, device's base URL set to the saved one, both rows or neither |
| TunnelService.TunnelService.RotateToken | app/services/tunnel_service.py:84-89 | equals the serial rotation and returns the configured token |
| TunnelService.TunnelService.RenderConfig | app/services/tunnel_service.py:91-104 | records the time and returns the file name and the text printed from the stored row |
| TunnelService.TunnelService.RequireTunnel | app/services/tunnel_service.py:115-120 | finds the row exactly when device and tunnel exist, and otherwise says which is missing |
| TunnelOutcomes.CreateDeviceOutcome | app/services/device_service.py:15-26 | a new id gets exactly the row of the request, inactive, an empty secret kept as none; a known id fails and stores nothing |
| TunnelOutcomes.UpdateDeviceOutcome | app/services/device_service.py:37-57 | an update succeeds if and only if the device is known, names no base URL under an enabled tunnel and does not end with a null channel, each other case with its error; then only that row changes, each column to the last change that counts |
| TunnelOutcomes.ExplicitEnableOutcome | app/services/tunnel_service.py:23-62 | with an explicit nonzero port exactly that port is used, or refused with the error of its case; both rows are given column by column |
| TunnelOutcomes.AutomaticEnableOutcome | app/services/tunnel_service.py:23-62 | without one, zero included, the least port no row holds is used, and it fails only when there is none |
| TunnelOutcomes.UpdateTunnelOutcome | app/services/tunnel_service.py:64-72 | an update of an existing tunnel always succeeds and reaches only local address and transport flags |
| TunnelOutcomes.DisableOutcome | app/services/tunnel_service.py:74-82 | the exact rows after a disable, of an enabled tunnel or not, and which of device and tunnel is missing otherwise |
| TunnelOutcomes.RotateTokenOutcome | app/services/tunnel_service.py:84-89 | only the token column changes, to the configured token |
| TunnelOutcomes.RenderConfigOutcome | app/services/tunnel_service.py:91-102 | only the time of the last configuration changes |
| Transactions.DisjointTunnelWritesCommute | app/db/session.py:12 | units of work that change different columns of a tunnel row may commit in either order, and no change is lost |
| Transactions.DisjointDeviceWritesCommute | app/db/session.py:12 | the same for device rows |
| Tunnels.SerialEnable | app/services/tunnel_service.py:28-62 | with an allowed port, enable stores device and tunnel rows together or reports the port as taken and stores nothing |
| Tunnels.SerialWrites | app/services/tunnel_service.py:23-104 | carried out alone, an operation stores its device and tunnel rows as planned, or nothing at all |
| Tunnels.SerialDeviceRow | app/services/tunnel_service.py:23-104 | for any device, an operation leaves its row alone but for the base URL, changes it as an update says, or creates it |
| Tunnels.ChangeTunnelKeepsPlacement | app/services/tunnel_service.py:64-72 | no update reaches port, URLs, switch, status, proxy name or saved URL |
| PortSafety.RunsAreOk | app/services/tunnel_service.py:23-120 | constraints and derived columns hold in every state of every interleaving, and of every unit of work still in flight |
| PortSafety.MergeKeepsDerived | app/services/tunnel_service.py:30-55 | writing back only changed columns onto a row another session changed keeps port, URLs and status in agreement |
| PortSafety.PortsAreSafe | app/services/tunnel_service.py:28-62 | over all interleavings no two tunnels share a port, none is out of range, and URLs, status and proxy name agree with port, switch and device |
| PortSafety.SyncedBaseUrlsDiffer | app/services/tunnel_service.py:54-55 | two enabled tunnels whose devices were synced never share a base URL |
| PortSafety.UrlsIdentifyPort | app/services/tunnel_service.py:143-149 | each printed URL determines its port and conversely |
| PortSafety.AllocatorIsExact | app/services/tunnel_service.py:122-136 | pigeonhole: no port is offered exactly when rows are as many as ports; an offered one is the least untaken |
| PortSafety.AutomaticEnable | app/services/tunnel_service.py:28-62 | in every reachable state an enable without a port succeeds exactly while rows are fewer than ports, and re-enabling moves the tunnel |
| PortSafety.StaleEnableCommit | app/services/tunnel_service.py:56-60 | an enable planned on old tables is refused exactly when its port is on another device's row by then or the device's row was created meanwhile |
| PortSafety.RacingEnables | app/services/tunnel_service.py:56-60 | of any enables that picked one free port, in any order, one commits if and only if it is first, or is for the first one's device and that already had a row |
| PortSafety.ExactlyOneCommits | app/services/tunnel_service.py:56-60 | exactly the first commits if and only if its device had no row or no later enable is for it |
| PortSafety.SameDeviceCommitsTwice | app/services/tunnel_service.py:56-60 | two enables of one device's disabled row on one free port both commit |
| BaseUrls.SerialIsAnInterleaving | app/services/tunnel_service.py:23-104 | every serial run is one of the interleaved runs, so their safety carries over |
| BaseUrls.SerialOwnDevice | app/services/tunnel_service.py:23-104 | what each successful operation does to the columns that decide the base URL; a failed one changes nothing |
| BaseUrls.BaseUrlAlwaysOwned | app/services/tunnel_service.py:50-55 | in every serial run an untunnelled device has a URL the user supplied, a tunnelled one the tunnel's or the saved one, and what is saved was supplied |
| BaseUrls.LatestStep | app/services/tunnel_service.py:74-82 | one step keeps the user's latest URL if and only if it is not a disable of a disabled tunnel whose saved URL differs |
| BaseUrls.DisciplinedRunsKeepLatest | app/services/tunnel_service.py:50-79 | when disables only restore, the user's latest URL is kept, in force or saved, through any number of cycles of any devices |
| BaseUrls.DisableRestoresLatest | app/services/tunnel_service.py:74-82 | after such a run a disable puts the latest URL in force if and only if the tunnel is enabled or that URL already is in force |
| BaseUrls.DisablingTwiceForgetsUpdate | app/services/tunnel_service.py:74-82 | a run in which a second disable undoes the user's later change |
| Ownership.OwnedExactly | app/services/tunnel_service.py:23-82 | over all interleavings a device's base URL is owned in every state if and only if every commit of the device met the condition for its operation |
| Ownership.CommitKeeps | app/services/tunnel_service.py:23-82 | one commit on changed tables keeps ownership if and only if the condition for its operation holds |
| Ownership.UpdateCommit | app/services/device_service.py:40-57 | a stale update keeps it if and only if it changes no URL, meets no enabled tunnel, or names the tunnel's or the saved URL |
| Ownership.EnableCommit | app/services/tunnel_service.py:42-60 | a stale enable keeps it if and only if the URL it leaves in force is the one placed on the row or the one saved there |
| Ownership.DisableCommit | app/services/tunnel_service.py:74-82 | a stale disable keeps it if and only if it writes back what it read as saved, or the URL in force is in order for the state it leaves |
| Ownership.FirstEnableKeeps | app/services/tunnel_service.py:31-55 | a first enable keeps it if it syncs, and otherwise exactly when the URL in force is still the one it read, or its own |
| Ownership.UndisturbedCommitKeeps | app/services/tunnel_service.py:23-82 | a commit whose columns nobody changed since its reading always keeps it |
| Ownership.StaleUpdateOverridesTunnel | app/services/device_service.py:40-57 | the lock on base_url is no lock across sessions: an update that read before an enable and commits after it succeeds |
| Ownership.StaleEnableSavesOldUrl | app/services/tunnel_service.py:50-55 | an enable that read A and commits after an update to B saves A, over B in force or in place of it |
| Devices.LastDeviceChangeHolds | app/services/device_service.py:37-57 | after an update each column holds what the last change that counts gave it; an empty secret does not count |
| Devices.UnnamedDeviceColumnStays | app/services/device_service.py:37-57 | a column the update does not name keeps its value |
| Tunnels.LastTunnelChangeHolds | app/services/tunnel_service.py:64-72 | after an update each column holds the last value given for it, nulls passed over |
| Tunnels.UnnamedTunnelColumnStays | app/services/tunnel_service.py:64-72 | a column given no value keeps its value |
| FrpcToml.ReadToml | app/services/tunnel_service.py:157-179 | the printed file reads back to the configuration if and only if no quoted field holds a quote, backslash or control character other than tab |
| FrpcToml.TomlInjective | app/services/tunnel_service.py:157-179 | such configurations print alike only when all ten settings agree |
| FrpcToml.RenderedConfigsAreOwn | app/services/tunnel_service.py:91-104 | in every reachable state a device's file names server, token, its own proxy and port, is called after the proxy, and no other device's file is the same |
| FrpsService.JoinIsLastWins | app/services/frps_service.py:31-39 | the dictionary join finds what a search from the end of the dashboard's list finds |
| FrpsService.RowsAreJoined | app/services/frps_service.py:32-37 | the ordered query lists every joined row once, strictly ascending by port |
| FrpsService.ListingIsTheJoin | app/services/frps_service.py:30-90 | one item for each tunnel, strictly ascending by port, joined to the last proxy of its name, connected exactly when that is online |
| FrpsService.ConnectedOnly | app/services/frps_service.py:42-48 | the filtered listing is exactly the connected items in order, with total equal to connected; a failed fetch fails both alike |
| FrpsService.ProxyNamesAgree | app/services/tunnel_service.py:151-152 | two proxy names agree exactly when the ids agree on their first 123 characters |
| FrpsService.ProxyHasOneDevice | app/services/frps_service.py:38-41 | in every reachable state one proxy is shown on two devices only if their ids agree on 123 characters, never for shorter ids |
| RateLimiter.CheckRateLimit | app/utils/rate_limiter.py:9-26 | the session stores exactly the checked windows and raises exactly on a rejection, with its wait |
| RateLimiter.CheckMovesCounter | app/utils/rate_limiter.py:9-26 | a window's counter moves exactly when a request of it is admitted, and that is exactly while it is below max(limit, 1) |
| RateLimiter.WindowAdmitsExactly | app/utils/rate_limiter.py:9-26 | in every timed run the stored count of a window is the number admitted in it, which is the smaller of requests made and max(limit, 1) |
| RateLimiter.IntervalAdmitsAtMost | app/utils/rate_limiter.py:9-26 | any half-open 60 seconds admit at most twice max(limit, 1) |
| RateLimiter.IntervalBoundIsTight | app/utils/rate_limiter.py:9-26 | for every limit some run attains that bound |
| RateLimiter.RejectionWait | app/utils/rate_limiter.py:22-24 | a rejection stores nothing, waits 1 to 60 seconds, and exactly when that wait alone reaches the next window |
| RateLimiter.RetryIsAdmitted | app/utils/rate_limiter.py:22-24 | one second after the announced wait the key is admitted again |
| RateLimiter.RetryAtAnnouncedTime | app/utils/rate_limiter.py:22-24 | after exactly the announced wait it is admitted if and only if at most one second, or a whole number of seconds, was left |
| RateLimiter.AnnouncedWaitTooShort | app/utils/rate_limiter.py:22-24 | a request told to wait 59 seconds is rejected again after 59 seconds |
| WebhookOutcomes.CreateOutcome | app/services/webhook_service.py:26-42 | in every reachable state a create succeeds if and only if device is known and hash new; it adds exactly one row, the new token resolves to it and every other token as before |
| WebhookOutcomes.RotateOutcome | app/services/webhook_service.py:44-48 | the exact rows after a rotation, and its two failing cases, in which nothing is stored |
| WebhookOutcomes.LimiterOutcome | app/api/v1/webhooks.py:33-34 | the budget spent is that of the token's first eight characters in the clock minute |
| WebhookOutcomes.LookupOutcome | app/services/webhook_service.py:50-61 | lookup yields a row if and only if it is enabled and bears the token's hash, and refuses the token otherwise |
| WebhookOutcomes.TypeRule | app/adapters/webhook_parser.py:7-16 | the type chosen is known, and other than notification exactly when event_type names it, or type when that is missing or falsy |
| WebhookOutcomes.IdRule | app/services/webhook_service.py:66-69 | the id is the binding of a truthy event_id, else of a truthy id, else the digest of device, type and content |
| WebhookOutcomes.IngestOutcome | app/services/webhook_service.py:63-97 | the event stored and the answer given carry the type and id the payload calls for; device, webhook and log change exactly so |
| WebhookOutcomes.DeliverOutcome | app/api/v1/webhooks.py:31-41 | the endpoint case by case: tables and answer for an exhausted budget, a malformed body, an unknown token, a body that is no object, and an accepted payload |
| WebhookOutcomes.StoredEventsFollowTheirPayload | app/services/webhook_service.py:63-97 | in every run each stored event has the body, address and time of a delivery and the type and id that body calls for |
| Webhooks.EventTypeIsNamed | app/adapters/webhook_parser.py:7-16 | a type other than notification is chosen if and only if it is valid and named by event_type, or by type when event_type is missing or falsy |
| WebhookService.WebhookService.Create | app/services/webhook_service.py:26-42 | commits the new row, together with rows the session already changed, or nothing |
| WebhookService.WebhookService.Rotate | app/services/webhook_service.py:44-48 | the loop that disables rows reaches the store only with the new row; unknown devices change nothing |
| WebhookService.WebhookService.IngestPayload | app/services/webhook_service.py:63-97 | the flush, rollback and commit path equals the ingest function in tables and answer |
| WebhookService.WebhookService.IngestWebhook | app/api/v1/webhooks.py:31-41 | limiter, body, lookup and ingest in sequence equal the endpoint function; whatever fails later, the limiter's count stays spent |
| WebhookService.EventDecidesSchema | app/services/webhook_service.py:81-86 | the flush fails exactly when the device already has an event with that id |
| GatewayRuns.DeliverEffect | app/api/v1/webhooks.py:31-41 | what a delivery does to every table, told apart by limited, refused and accepted |
| GatewayRuns.TunnelEffect | app/services/tunnel_service.py:23-104 | device and tunnel operations touch no webhook, event, window or counter |
| Ledger.BooksAlwaysBalance | app/services/webhook_service.py:63-97 | constraints, first-wins log, duplicate flags and all counters agree with the delivery history in every run |
| Ledger.LogIsFirstDeliveries | app/services/webhook_service.py:63-97 | the stored events are exactly the first accepted delivery of each device and event id, in order |
| Ledger.FirstWinsMeans | app/services/webhook_service.py:81-86 | an event is in the log if and only if an accepted delivery brought it and none before it carried its pair |
| Ledger.CountersCount | app/services/webhook_service.py:87-96 | webhook_count is the number of distinct ids stored, called counts add up to accepted deliveries, and those are stored plus duplicates |
| Ledger.ActivityIsLastDelivery | app/services/webhook_service.py:87-92 | in every run a device was last seen at its last accepted delivery and is active exactly when it has one |
| Reordering.SameReceiptsSameCounters | app/services/webhook_service.py:87-96 | runs whose accepted deliveries agree up to order end with the same counters |
| Reordering.LimitedWhen | app/utils/rate_limiter.py:22-24 | in every run a delivery is turned away by the limiter exactly when its key was tried max(limit, 1) times before in its clock minute |
| Reordering.AdmittedIffFits | app/api/v1/webhooks.py:31-41 | the limiter lets a batch of deliveries through if and only if each one's minute has room for all attempts in it |
| Reordering.ReorderedDeliveries | app/services/webhook_service.py:63-97 | deliveries that fit their minutes may come in any order: all get through, and every device's and webhook's counters end the same |
| IngestOrder.IngestInAnyOrder | app/services/webhook_service.py:63-97 | ingest calls alone, from any tables and in any order, end with the same counters and stored ids |
| IngestOrder.IngestCounts | app/services/webhook_service.py:63-97 | what one ingest call does to counters and stored ids, or that it does nothing |
| Throughput.LimitsAreTheLimiters | app/api/v1/webhooks.py:34 | the windows stored by a gateway run are those of the limiter run it contains |
| Throughput.AcceptedWereAdmitted | app/api/v1/webhooks.py:31-41 | accepted deliveries of a token in any period are at most the requests admitted under its prefix |
| Throughput.MinuteThroughput | app/api/v1/webhooks.py:31-41 | within a clock minute a webhook's called_count grows by at most max(limit, 1), prefix sharing and invalid tokens notwithstanding |
| Throughput.IntervalThroughput | app/api/v1/webhooks.py:31-41 | within any 60 seconds it grows by at most twice that |
| Tokens.LookupNeverAmbiguous | app/services/webhook_service.py:50-61 | in every reachable state lookup finds exactly the one matching webhook or none, and never fails on two |
| Tokens.RotationLeavesOne | app/services/webhook_service.py:44-48 | rotation succeeds exactly for a known device and a new hash; then the device has one enabled webhook, the new token's |
| Tokens.DisabledForever | app/services/webhook_service.py:44-61 | a token whose webhook is disabled is refused in every continuation |
| Tokens.RotationSupersedes | app/services/webhook_service.py:44-61 | a token that worked stops working at the next rotation of its device, for ever |
| EventCache.NewestFirstReverses | app/services/command_service.py:115 | with an increasing clock the ordering by time is the log backwards |
| EventCache.PagesAtRest | app/services/command_service.py:101-125 | pages fetched until a short one concatenate to exactly the matching events newest first, without repeats, and every total is their number |
| EventCache.PaginationNeverSkips | app/services/command_service.py:101-125 | with any requests between fetches, every event stored at the first fetch is on some fetched page |
| EventCache.ContactAndLocationCachesAreEmpty | app/services/command_service.py:23-29 | contact and location queries find nothing in the cache in any run |
| DispatchOutcomes.DispatchOutcome | app/services/command_service.py:37-85 | what a dispatch performs, the log it leaves column by column, and its two failing cases |
| DispatchOutcomes.QueryCachePerforms | app/services/command_service.py:101-125 | for each of the five cached commands the answer is the page of its event type, with total and both arguments, defaults 1 and 10; other commands are refused |
| DispatchOutcomes.QueryRealtimePerforms | app/services/command_service.py:87-99 | the call goes to the device's URL at the command's own path with every entry but the mode, or the obstacle is named |
| DispatchOutcomes.PageIsListed | app/services/command_service.py:113-119 | a page holds the newest-first matching events at positions (page_num - 1) * page_size onward, at most page_size of them |
| DispatchedPages.PageAnswered | app/services/command_service.py:101-125 | the items and the total a client reads off the answer to a page request |
| DispatchedPages.DispatchedPagesNeverSkip | app/services/command_service.py:101-125 | a client that dispatches page after page until a short one, with anything in between, is sent every matching event stored when it started |
| DispatchedPages.DispatchedPagesAtRest | app/services/command_service.py:101-125 | with no event stored in between it is sent exactly the matching events, newest first, once each, with their number as every total |
| DispatchedPages.TraceInOrder | app/services/command_service.py:115 | with an increasing clock the log is in the order of its times in every state |
| Commands.CommandService.CreateLog | app/services/command_service.py:69-85 | stores exactly the pending log with the scrubbed request, unless the request id exists |
| Commands.CommandService.FinishLog | app/services/command_service.py:127-138 | replaces exactly that log by the finished one with the scrubbed response |
| Commands.CommandService.DispatchBegin | app/services/command_service.py:44-51 | the part of dispatch before its await, errors included, equals the first step of the protocol |
| Commands.CommandService.DispatchEnd | app/services/command_service.py:54-61 | the part after the await equals its second step |
| Lifecycle.RunsAreSound | app/services/command_service.py:37-61 | over all interleavings: pending if and only if in flight, completion time if and only if finished, summaries scrubbed |
| Lifecycle.PendingLogsAreInFlight | app/services/command_service.py:37-85 | the pending logs are exactly the dispatches in flight, and no stored summary has anything left to scrub |
| Lifecycle.OneLogPerDispatch | app/services/command_service.py:69-85 | the number of logs is the number of dispatches started on a known device |
| Lifecycle.FinishesOnReturn | app/services/command_service.py:54-61 | a pending log finishes exactly when its own call returns, with the status, scrubbed response and error that call calls for |
| Lifecycle.FinishedForever | app/services/command_service.py:127-138 | a finished log never changes again |
| Lifecycle.CallsInFlightAreAllowed | app/services/command_service.py:87-99 | in every run each call in flight is for its log's known command at that command's path, with a URL, and its log's channel is not webhook-only |
| Lifecycle.CalledOnlyWhenAllowed | app/services/command_service.py:87-99 | in every run a started dispatch calls the device if and only if it is realtime, for a known command, and the device is not webhook-only and has a URL; no other step starts a call |
| Lifecycle.ErrorTextIsNotScrubbed | app/services/command_service.py:54-59 | a stored error text holds a phone number if and only if the failure it reports does |
| Masking.MaskPhoneMeetsRuns | app/utils/masking.py:5-11 | the scanner changes a position exactly at offset 3 to 6 of a maximal run of exactly eleven digits, and keeps length and everything else |
| Masking.MaskPhoneLeavesNoPhone | app/utils/masking.py:5-11 | no maximal eleven-digit run is left |
| Masking.MaskPhoneFixpoint | app/utils/masking.py:5-11 | a text without such a run is unchanged |
| Masking.MaskPhoneEqual | app/utils/masking.py:5-11 | two texts mask alike if and only if at every position they agree and are both hidden or both not, or both show an asterisk |
| Masking.NumberAndMaskedFormCollide | app/utils/masking.py:5-11 | an eleven-digit number and its masked form differ in public text and mask alike |
| Masking.MaskPhoneRevealsExactlyPublicText | app/utils/masking.py:5-11 | texts that differ only in hidden digits mask alike, and without asterisks only those do |
| Scrubbing.ScrubValue | app/utils/masking.py:14-31 | the recursive loop over an arbitrary value computes the scrubbed value |
| Scrubbing.ScrubMapping | app/utils/masking.py:17-28 | the dictionary filled in the loop, later equal keys overwriting earlier ones, equals its specification |
| Scrubbing.ScrubItemIsNormal | app/utils/masking.py:19-27 | the cell written for any entry has nothing left to scrub: placeholder under sensitive keys, no string under content keys |
| Scrubbing.ScrubSequence | app/utils/masking.py:29-30 | every element is scrubbed, in order |
| Scrubbing.ScrubbedMapping | app/utils/masking.py:17-28 | a scrubbed mapping has each key text once, with the placeholder, the length of the text or the scrubbed value that the last entry of that text calls for |
| Scrubbing.ScrubReachesNormalForm | app/utils/masking.py:14-31 | scrubbing twice is scrubbing once, and the results are exactly the values with nothing left to scrub at any depth |
| Scrubbing.ScrubHidesSecrets | app/utils/masking.py:14-31 | values that differ only under sensitive keys, in same-length content strings or in hidden digits scrub to the same summary |
| JsonText.ReadEscaped | app/utils/deduplication.py:7 | an escaped string is read back up to its closing quote, whatever follows |
| JsonText.ReadPrint | app/utils/deduplication.py:7 | a printed JSON value is read back, whatever follows it |
| JsonText.PrintInjective | app/utils/deduplication.py:7 | distinct JSON values print differently |
| Deduplication.CanonKeepsMeaning | app/utils/deduplication.py:7 | sorting keys at every depth changes nothing a reader sees |
| Deduplication.MeaningFixesCanon | app/utils/deduplication.py:7 | values equal up to key order have one sorted form |
| Deduplication.DumpsIdentifiesMeaning | app/utils/deduplication.py:7 | two dumps are equal if and only if the JSON values agree up to key order |
| Deduplication.StableEventIdIdentifiesContent | app/utils/deduplication.py:6-8 | two fallback ids are equal if and only if device, event type and JSON value agree |
| Decimal.ReadIntRender | app/services/tunnel_service.py:143-149 | a printed integer is read back, whatever non-digit follows |

## Left out

- ReorderedDeliveries: for batches the limiter lets through, stated as counts of attempts; beyond that the order decides which deliveries are refused, and IngestInAnyOrder covers ingest without the limiter.
- StableEventIdIdentifiesContent: device id and event type hold no `|`, as generated ids and the five event types do not; SHA-256 is taken as injective; JSON numbers are integers; a lone surrogate in a JSON string, which no Dafny character is and which makes `encode` raise, is not modelled.
- DumpsIdentifiesMeaning: JSON numbers are integers.
- ReadPrint: JSON numbers are integers.
- PrintInjective: JSON numbers are integers.
- RenderConfig: the audit row that the same commit writes is not modelled, nor is the audit service.
- MinuteThroughput: SHA-256 is taken as injective, here and in IntervalThroughput.
- RetryIsAdmitted: assumes that no request of that key has yet been made in the later window, as does RetryAtAnnouncedTime.
- PaginationNeverSkips: needs a strictly increasing clock, since equal timestamps have no tie-breaker in the query; PagesAtRest and the dispatched forms need the same.
- ProxyHasOneDevice: over runs of device and tunnel operations, which are the only ones that write tunnels.
- BaseUrlAlwaysOwned: for serial runs; over interleavings it can fail, and OwnedExactly says when.
- DisciplinedRunsKeepLatest: for serial runs.
- Counters under concurrent sessions: they are read, incremented and written back, so updates can be lost; all counter and limiter claims are for serial requests.
- Task cancellation and process death while a dispatch awaits: a log can then stay pending.
- `default=str` of the JSON encoder, which a parsed JSON body never reaches.
- The text of a non-string event type or query mode: taken to name no type and no mode.
- Client-supplied event ids that are not strings: how the driver stores or refuses them is a parameter.
- PageIsListed: for page numbers from 1 and sizes from 0, which the request schemas ensure.
- Column lengths, which SQLite does not enforce.
- Keys of mappings that are neither strings nor stringified distinctly: two keys of one text collapse to the later value, as in the code.
- The migration lacks the unique `device_id` of tunnels that the ORM model declares; the model has the ORM's constraint.
- Encryption, decryption and token generation: stored secrets appear as plaintext, generated tokens and ids as parameters.
- Parsing of the dashboard's answer: the fetched proxies, or the failure to fetch them, are a parameter.
- Validation of requests, authentication, permissions, users, HTTP routing and responses, settings loading, migrations and the frontend.
