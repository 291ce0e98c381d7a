# performance-insight: probe runner and alert dispatcher

This project models the core of `src/index.ts`. The core has two classes.

- `PerformanceManager.report` runs a fixed battery of nineteen MySQL/InnoDB
  diagnostic queries, one at a time, through one query runner. Each query is
  wrapped in `logQuery`. A failing query is caught and logged, and the run
  goes on. A successful query raises an alert. The alert's title is the
  query text, its body is the serialised result, and its severity is
  `'error'`. The alert call is not awaited.
- `IntegrationManager` fans each alert out over its channel list in order.
  - A `discord` entry appends the alert to `discordBuffer` and sets a
    timer, `bufferTimeout`, if none is set.
  - A `slack` or `email` entry calls its (empty) stub once.
  - Any other type rejects the call, and the later entries are not
    visited.
  - When the timer fires, the whole buffer goes out as one webhook post to
    the first `discord` entry, with one embed per buffered alert. Once the
    post settles, whether it succeeded or not, the buffer is emptied and
    the handle cleared.

Files:

- `dispatch.dfy`, module `Dispatch`: the dispatcher state as a value. It holds
  the buffer, a timer state (`Idle` = `null`, `Armed`, or `Fired` = the
  callback has started but the field is still set), the payload of the post
  being awaited, a log of every outbound call and a log of every message
  `sendAlert` received. Each step has a function: `Enqueue`, `SendAlert`
  (which logs the message and runs the channel loop `FanOut`), `BeginFlush`
  (the callback up to `await axios.post`) and `EndFlush` (the rest). `Valid` is the invariant of the
  reachable states. The lemmas cover fan-out, the invariant, flushing and
  coalescing.
- `integration.dfy`, module `Integration`: class `IntegrationManager`. Its
  fields are updated in place, and every method is proved equal to its
  `Dispatch` function. `TimerStep` and `Elapse` model what the event loop
  delivers while a caller is suspended: a timer firing, or the webhook post
  settling.
- `probing.dfy`, module `Probing`: the probe table and the query runner
  (an oracle that records what it was asked). It also holds class
  `PerformanceManager`, with `LogQuery` and `Report` proved against the
  `RunProbes` function, and the lemmas about which alerts a run raises.

Three behaviours of the code are worth noting:

- Only a successful query raises an alert; a failed one is only logged
  (src/index.ts:32-39).
- Alerts appended while the webhook post is awaited are wiped unsent at
  src/index.ts:208; `LateAlertsAreDropped` states this.
- The Slack and e-mail stubs are awaited one after another
  (src/index.ts:168, 171).

## Model

| member | source | states |
|---|---|---|
| Dispatch.FirstDiscord | src/index.ts:192 | the index found is that of a `discord` entry with no `discord` entry before it; there is none exactly when no entry is `discord` |
| Dispatch.WebhookUrl | src/index.ts:202 | definition, no contract: the entry's `webhookUrl` credential, `None` when the key is missing |
| Dispatch.Embeds | src/index.ts:195-199 | the payload has one embed per buffered message, in buffer order, with the message's title and its text as description (the severity is dropped) |
| Dispatch.Enqueue | src/index.ts:179-187 | the message goes at the end of the buffer; afterwards a timer is set, and a timer already set is left as it was; nothing else changes |
| Dispatch.SendAlert | src/index.ts:159-177 | one `sendAlert` call: the message is logged as received exactly once, whatever the channels do |
| Dispatch.FanOut | src/index.ts:162-176 | the channel loop never changes the received-alert log or a post in flight, and never shrinks the buffer or the call log |
| Dispatch.FanOutChannels | src/index.ts:162-176 | with only supported channel types the loop runs to the end and resolves; the buffer gains exactly one copy of the message per `discord` entry; each `slack`/`email` entry makes exactly one call with the message, in configuration order; a timer is started only if none was set |
| Dispatch.SendAlertFansOut | src/index.ts:159-177 | with only supported channel types, `sendAlert` resolves, and its whole new state is given: buffer, timer, post in flight, calls and received alerts |
| Dispatch.FanOutStopsAtUnsupported | src/index.ts:162-176 | at the first entry of another type the call rejects with "Unsupported alert type: <type>"; the state is what the entries before it produced, and no later entry is visited |
| Dispatch.BeginFlush | src/index.ts:189-202 | definition, no contract: the callback up to the awaited post; its properties are `FlushPostsWholeBuffer` and `FlushWithoutPostChangesNothing` |
| Dispatch.EndFlush | src/index.ts:201-209 | definition, no contract: the callback after the post settles; its properties are `EndFlushResets` and `LateAlertsAreDropped` |
| Dispatch.EnqueuePreservesValid | src/index.ts:179-187 | appending keeps the invariant of reachable states, including the in-flight payload being a prefix of the buffer |
| Dispatch.SendAlertPreservesValid | src/index.ts:159-187 | a whole `sendAlert` keeps the invariant of reachable states |
| Dispatch.FanOutKeepsValid | src/index.ts:162-176 | the invariant holds after every prefix of the channel loop |
| Dispatch.FlushPostsWholeBuffer | src/index.ts:189-202 | in a reachable state the timer fires with a non-empty buffer and a `discord` entry, and it makes exactly one post to that first entry's `webhookUrl`, carrying `Embeds` of the whole buffer; the buffer is unchanged until the post settles |
| Dispatch.FlushWithoutPostChangesNothing | src/index.ts:190-193 | with an empty buffer or no `discord` entry the callback posts nothing and changes neither the buffer nor the (still set) handle, so a later enqueue does not start a timer |
| Dispatch.EndFlushResets | src/index.ts:201-209 | whether the post resolved or rejected, the buffer ends up empty, no timer is set, no call is made, and the invariant holds |
| Dispatch.FanOutInFlight | src/index.ts:162-187 | while a handle is set, the channel loop neither posts to the webhook nor changes the timer; the old buffer and the old call log are kept as prefixes, so it only appends messages and immediate calls |
| Dispatch.SendAllInFlight | src/index.ts:179-209 | any number of alerts sent while a post is in flight keep the invariant, keep the buffer and the call log as prefixes, and make no webhook post |
| Dispatch.LateAlertsAreDropped | src/index.ts:201-209 | alerts sent while a post is in flight are discarded when it settles: the buffer is empty, no timer is set, and no post since the one in flight carried them |
| Dispatch.SendAllCoalesces | src/index.ts:159-187 | successive alerts to supported channels append each message once per `discord` entry, in order, make one immediate call per `slack`/`email` entry per message, log every message as received, and start at most one timer |
| Dispatch.CoalescedDelivery | src/index.ts:179-209 | from an idle dispatcher, a non-empty run of alerts is delivered to Discord by exactly one post carrying all of them in order; after it settles, successfully or not, the dispatcher is idle and empty |
| Dispatch.DiscordCountPositive | src/index.ts:192-193 | if any entry is `discord`, the lookup finds one |
| Dispatch.SendAllPreservesValid | src/index.ts:159-187 | successive `sendAlert` calls keep the invariant |
| Integration.Step | src/index.ts:182-209 | definition, no contract: a timer firing runs `BeginFlush` when a timer is armed, a post settling runs `EndFlush` when a post is in flight; otherwise nothing happens |
| Integration.Steps | src/index.ts:182-209 | the runtime's events never deliver an alert, and they only ever append to the call log |
| Integration.StepsPreserveValid | src/index.ts:182-209 | timer firings and post completions, in any order the runtime delivers them, keep the invariant |
| Integration.IntegrationManager.constructor | src/index.ts:150-157 | stores the channel list; the buffer is empty, no timer is set, nothing is in flight, and the invariant holds |
| Integration.IntegrationManager.SendAlert | src/index.ts:159-177 | logs the message, then the channel loop leaves the object in the state `Dispatch.SendAlert` gives and returns its outcome; it keeps the invariant |
| Integration.IntegrationManager.BufferDiscordAlert | src/index.ts:179-187 | appends the alert to `discordBuffer`; sets the timer only if none is set |
| Integration.IntegrationManager.SendSlackAlert | src/index.ts:221-223 | records exactly one Slack call with the message; nothing else changes |
| Integration.IntegrationManager.SendEmail | src/index.ts:225-227 | records exactly one e-mail call with the message; nothing else changes |
| Integration.IntegrationManager.SendBufferedDiscordAlerts | src/index.ts:189-202 | the state `BeginFlush` gives; from a reachable state, exactly one post of the whole buffer to the first `discord` entry; keeps the invariant |
| Integration.IntegrationManager.FinishBufferedDiscordAlerts | src/index.ts:201-210 | for either result of the post, empties `discordBuffer` and clears `bufferTimeout`, making no call; keeps the invariant |
| Integration.IntegrationManager.Elapse | src/index.ts:182-185 | applies the runtime's timer and post events as `Steps` says; keeps the invariant |
| Probing.QueryRunner.Query | src/index.ts:33 | records the query and returns the oracle's answer for it |
| Probing.RunProbe | src/index.ts:30-41 | one `logQuery`: the dispatcher receives one alert, titled with the query and carrying the serialised rows, when the query succeeds, and none when it fails, whatever the runtime did meanwhile |
| Probing.RunProbes | src/index.ts:44-127 | definition, no contract: `RunProbe` for each probe in turn; its properties are `RunProbesRaises` and `RunProbesPreservesValid` |
| Probing.Raised | src/index.ts:30-41 | a run raises at most one alert per query, all of severity `'error'`; none when every query fails; when every query succeeds, one per query in order, titled with the query text and carrying its serialised result |
| Probing.RaisedSplits | src/index.ts:32-39 | failures are isolated: the alerts of later probes do not depend on the earlier ones |
| Probing.RunProbesRaises | src/index.ts:29-136 | whatever the runtime does while queries are awaited, the dispatcher receives exactly the raised alerts, one `sendAlert` each, in probe order |
| Probing.QuietRunSendsRaised | src/index.ts:29-136 | with no timer activity during the run, the whole dispatcher state is that of the raised alerts sent one after another |
| Probing.RunProbesPreservesValid | src/index.ts:29-136 | whatever the answers and the timer activity, a run keeps the dispatcher's invariant |
| Probing.PerformanceManager.constructor | src/index.ts:23-27 | creates a fresh dispatcher over the given channels in its initial state |
| Probing.PerformanceManager.LogQuery | src/index.ts:30-41 | issues exactly the given query; the dispatcher's new state is `RunProbe`: a result raises one `'error'` alert titled with the query and carrying the serialised rows, whose outcome is dropped; an error raises none |
| Probing.PerformanceManager.Report | src/index.ts:29-136 | issues the nineteen queries exactly once each, in the order written, whatever they return; the dispatcher ends in the state `RunProbes` gives and has received exactly the raised alerts; keeps the invariant |
| Probing.PerformanceManager.LogQueries | src/index.ts:44-127 | the awaited `logQuery` calls in order: every probe's query is issued once, failures included, and the dispatcher receives exactly the raised alerts |
| Probing.ProbeBattery | src/index.ts:44-127 | the battery has nineteen probes, each with a non-empty query text |

## Left out

- The received-alert log `alerts` is not a field of the source. It records
  the arguments of each `sendAlert` call, so that what a run delivers can be
  stated whatever the channels do with it.
- Console output is left out: the start markers, the printed results, the
  error lines and the "Sent N Discord alerts" line. That line counts the
  buffer after the post settles, so it includes late alerts.
- The HTTP call to the webhook is left out. The post is recorded as a
  `WebhookPost` call, and its result is the boolean of `PostSettles`. A
  missing `webhookUrl` is recorded as `None`. Whatever `axios` does with it
  is not modelled.
- The database, `QueryRunner.query` and the meaning of the SQL are left
  out. The runner is an oracle indexed by call number and query text.
  `JSON.stringify` is a function passed in, assumed total. A throw from it
  would land in the same catch as a query error.
- Real time is left out: the 1000 ms delay of `setTimeout` (the comment
  beside it says five seconds) and which event comes first. What the runtime
  does while `report` awaits a query is an input, `timers(i)`, made of
  timer firings and post completions.
- Microtask interleaving inside `sendAlert` is not modelled. Its loop
  yields at each awaited Slack or e-mail stub. Those stubs resolve at once,
  and no timer or I/O callback runs before the microtask queue drains. So
  one `sendAlert` is modelled as one atomic step.
- The rejection of an unawaited `sendAlert` is not modelled at process
  level. Node.js reports it as an unhandled rejection, and that can end the
  process. The model only records that it does not reach `logQuery`'s
  catch.
- `PerformanceManager.sendAlert` (src/index.ts:138-140) is a one-line
  forwarder that fixes the severity to `'error'`. It is folded into
  `LogQuery`.
- The nineteen straight-line `await logQuery(...)` calls are written as a
  loop over the `Probes` table. The table keeps the query texts and
  descriptions exactly as written.
- `getColorForAlertType` is left out. It is dead code: its only use is
  commented out.
- `MonitorConfig` and `monitorConfigs` are left out: they are stored and
  never read. The manager's `name` is kept as a field, but its only use is
  in log lines, which are left out.
- The bodies of the Slack and e-mail senders are left out, because they are
  empty. Only the fact of each call is recorded.
- Credentials are modelled as a map from strings to strings. The source
  allows any value type.
- test/src/index.ts and vite.config.ts are not part of this model: they are
  an example program doing I/O and a build configuration.
