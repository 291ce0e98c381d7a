/**
 * The alert dispatcher of src/index.ts (class IntegrationManager) as values:
 * the state it keeps, one function per step it takes, and what those steps
 * preserve. The class in integration.dfy is proved against these functions.
 */
module Dispatch {

  datatype Option<+T> = None | Some(value: T)

  /** The `type` of an alert message: 'error' | 'warning' | 'info'. */
  datatype Severity = Error | Warning | Info

  /**
   * One configured channel. `kind` is the run-time value of the `type` tag,
   * which nothing checks against the three declared names, so it may be any
   * string; `credentials` is the record the Discord path reads `webhookUrl` from.
   */
  datatype AlertConfig = AlertConfig(kind: string, credentials: map<string, string>)

  datatype AlertMessage = AlertMessage(title: string, message: string, severity: Severity)

  /** One entry of the Discord payload; the severity is not carried over. */
  datatype Embed = Embed(title: string, description: string)

  /** An outbound call to a channel, as the dispatcher issues it. */
  datatype Call =
    | SlackCall(message: string)
    | EmailCall(message: string)
    | WebhookPost(url: Option<string>, embeds: seq<Embed>)

  /** How one `sendAlert` promise settles: resolved, or rejected with the error's text. */
  datatype Outcome = Pass | Fail(error: string)

  /**
   * The timer behind `bufferTimeout`. Idle: the field is null. Armed: a
   * handle whose callback has not run yet. Fired: the callback has started;
   * the field keeps its handle until the flush resets it.
   */
  datatype Timer = Idle | Armed | Fired

  /**
   * The dispatcher's mutable state: `discordBuffer`, `bufferTimeout`, the
   * payload of a Discord post whose result is still awaited, the log of
   * every outbound call made so far, and the log of every message
   * `sendAlert` was called with.
   */
  datatype Dispatcher = Dispatcher(
    buffer: seq<AlertMessage>,
    timer: Timer,
    inFlight: Option<seq<Embed>>,
    calls: seq<Call>,
    alerts: seq<AlertMessage>)

  datatype Sent = Sent(state: Dispatcher, outcome: Outcome)

  const DiscordKind := "discord"
  const SlackKind := "slack"
  const EmailKind := "email"

  /** A dispatcher as the constructor leaves it. */
  const Initial := Dispatcher([], Idle, None, [], [])

  predicate Supported(c: AlertConfig) {
    c.kind == DiscordKind || c.kind == SlackKind || c.kind == EmailKind
  }

  function UnsupportedError(kind: string): string {
    "Unsupported alert type: " + kind
  }

  /** `alertConfigs.find(config => config.type === 'discord')`, as an index. */
  function FirstDiscord(configs: seq<AlertConfig>): (r: Option<nat>)
    ensures r.None? <==> forall i :: 0 <= i < |configs| ==> configs[i].kind != DiscordKind
    ensures r.Some? ==> r.value < |configs| && configs[r.value].kind == DiscordKind
    ensures r.Some? ==> forall j :: 0 <= j < r.value ==> configs[j].kind != DiscordKind
  {
    if configs == [] then None
    else if configs[0].kind == DiscordKind then Some(0)
    else match FirstDiscord(configs[1..])
      case None => None
      case Some(i) => Some(i + 1)
  }

  /** `config.credentials.webhookUrl`, absent when the record has no such key. */
  function WebhookUrl(c: AlertConfig): Option<string> {
    if "webhookUrl" in c.credentials then Some(c.credentials["webhookUrl"]) else None
  }

  /** The Discord payload: one embed per buffered message. */
  function Embeds(buffer: seq<AlertMessage>): (r: seq<Embed>)
    ensures |r| == |buffer|
    ensures forall i :: 0 <= i < |buffer| ==> r[i] == Embed(buffer[i].title, buffer[i].message)
  {
    if buffer == [] then [] else [Embed(buffer[0].title, buffer[0].message)] + Embeds(buffer[1..])
  }

  /** bufferDiscordAlert: append, and start a timer unless one is set. */
  function Enqueue(s: Dispatcher, m: AlertMessage): (r: Dispatcher)
    ensures r.buffer == s.buffer + [m]
    ensures r.timer != Idle && (s.timer != Idle ==> r.timer == s.timer)
    ensures r.inFlight == s.inFlight && r.calls == s.calls && r.alerts == s.alerts
  {
    s.(buffer := s.buffer + [m], timer := if s.timer == Idle then Armed else s.timer)
  }

  /** One `sendAlert(title, message, type)` call: the message is received, then fanned out over `configs`. */
  function SendAlert(configs: seq<AlertConfig>, s: Dispatcher, m: AlertMessage): (r: Sent)
    ensures r.state.alerts == s.alerts + [m]
  {
    FanOut(configs, s.(alerts := s.alerts + [m]), m)
  }

  /** The channel loop of `sendAlert`: the entries of `configs`, in order, until one is rejected. */
  function FanOut(configs: seq<AlertConfig>, s: Dispatcher, m: AlertMessage): (r: Sent)
    ensures r.state.alerts == s.alerts && r.state.inFlight == s.inFlight
    ensures |r.state.buffer| >= |s.buffer| && |r.state.calls| >= |s.calls|
    decreases |configs|
  {
    if configs == [] then Sent(s, Pass)
    else
      var c := configs[0];
      if c.kind == DiscordKind then FanOut(configs[1..], Enqueue(s, m), m)
      else if c.kind == SlackKind then FanOut(configs[1..], s.(calls := s.calls + [SlackCall(m.message)]), m)
      else if c.kind == EmailKind then FanOut(configs[1..], s.(calls := s.calls + [EmailCall(m.message)]), m)
      else Sent(s, Fail(UnsupportedError(c.kind)))
  }

  /**
   * The timer callback, sendBufferedDiscordAlerts, up to the awaited post:
   * with an empty buffer or no Discord channel it returns at once (and the
   * handle stays set); otherwise it posts the whole buffer as one payload.
   */
  function BeginFlush(configs: seq<AlertConfig>, s: Dispatcher): Dispatcher
    requires s.timer == Armed
  {
    var fired := s.(timer := Fired);
    if |s.buffer| == 0 then fired
    else match FirstDiscord(configs)
      case None => fired
      case Some(i) =>
        var embeds := Embeds(s.buffer);
        fired.(inFlight := Some(embeds), calls := s.calls + [WebhookPost(WebhookUrl(configs[i]), embeds)])
  }

  /**
   * The rest of sendBufferedDiscordAlerts once the post settles: `ok` only
   * chooses which line is logged; the buffer and the handle are reset either way.
   */
  function EndFlush(s: Dispatcher, ok: bool): Dispatcher
    requires s.inFlight.Some?
  {
    s.(buffer := [], timer := Idle, inFlight := None)
  }

  /**
   * The states the dispatcher can reach: a timer is set exactly when the
   * buffer is non-empty; only a Discord channel fills the buffer; a post is
   * in flight exactly while the fired handle is still set, and its payload
   * is the buffer's front (messages added since then sit behind it).
   */
  ghost predicate Valid(configs: seq<AlertConfig>, s: Dispatcher) {
    && (s.timer == Idle <==> s.buffer == [])
    && (s.buffer != [] ==> FirstDiscord(configs).Some?)
    && (s.timer == Fired <==> s.inFlight.Some?)
    && (s.inFlight.Some? ==>
          0 < |s.inFlight.value| <= |s.buffer| &&
          s.inFlight.value == Embeds(s.buffer[..|s.inFlight.value|]))
  }

  // ----- specification helpers -----

  function DiscordCount(configs: seq<AlertConfig>): nat {
    if configs == [] then 0
    else (if configs[0].kind == DiscordKind then 1 else 0) + DiscordCount(configs[1..])
  }

  /** The immediate calls one message gives rise to: one per Slack or e-mail entry, in order. */
  function ImmediateCalls(configs: seq<AlertConfig>, message: string): seq<Call> {
    if configs == [] then []
    else
      var rest := ImmediateCalls(configs[1..], message);
      if configs[0].kind == SlackKind then [SlackCall(message)] + rest
      else if configs[0].kind == EmailKind then [EmailCall(message)] + rest
      else rest
  }

  function Copies(m: AlertMessage, n: nat): (r: seq<AlertMessage>)
    ensures |r| == n && forall i :: 0 <= i < n ==> r[i] == m
  {
    seq(n, _ => m)
  }

  /** Each message of `ms` repeated `d` times, in order. */
  function Spread(ms: seq<AlertMessage>, d: nat): seq<AlertMessage> {
    if ms == [] then [] else Copies(ms[0], d) + Spread(ms[1..], d)
  }

  function SpreadCalls(configs: seq<AlertConfig>, ms: seq<AlertMessage>): seq<Call> {
    if ms == [] then [] else ImmediateCalls(configs, ms[0].message) + SpreadCalls(configs, ms[1..])
  }

  /** Successive `sendAlert` calls, with no timer activity in between. */
  function SendAll(configs: seq<AlertConfig>, s: Dispatcher, ms: seq<AlertMessage>): Dispatcher
    decreases |ms|
  {
    if ms == [] then s else SendAll(configs, SendAlert(configs, s, ms[0]).state, ms[1..])
  }

  predicate AllSupported(configs: seq<AlertConfig>) {
    forall i :: 0 <= i < |configs| ==> Supported(configs[i])
  }

  // ----- fan-out -----

  lemma AllSupportedTail(configs: seq<AlertConfig>)
    requires configs != [] && AllSupported(configs)
    ensures Supported(configs[0]) && AllSupported(configs[1..])
  {
  }

  /**
   * With only supported channels the loop runs to the end: the buffer gains
   * one copy of the message per Discord entry, each Slack or e-mail entry
   * makes one call, and a timer is started only if none was set.
   */
  lemma {:induction false} FanOutChannels(configs: seq<AlertConfig>, s: Dispatcher, m: AlertMessage)
    requires AllSupported(configs)
    ensures FanOut(configs, s, m).outcome == Pass
    ensures FanOut(configs, s, m).state.buffer == s.buffer + Copies(m, DiscordCount(configs))
    ensures FanOut(configs, s, m).state.calls == s.calls + ImmediateCalls(configs, m.message)
    ensures FanOut(configs, s, m).state.timer ==
              if s.timer == Idle && DiscordCount(configs) > 0 then Armed else s.timer
    decreases |configs|
  {
    if configs != [] {
      var c, rest := configs[0], configs[1..];
      AllSupportedTail(configs);
      if c.kind == DiscordKind {
        var next := Enqueue(s, m);
        FanOutChannels(rest, next, m);
        assert ImmediateCalls(configs, m.message) == ImmediateCalls(rest, m.message);
        calc {
          s.buffer + [m] + Copies(m, DiscordCount(rest));
          s.buffer + ([m] + Copies(m, DiscordCount(rest)));
          { assert [m] + Copies(m, DiscordCount(rest)) == Copies(m, DiscordCount(configs)); }
          s.buffer + Copies(m, DiscordCount(configs));
        }
      } else if c.kind == SlackKind {
        var next := s.(calls := s.calls + [SlackCall(m.message)]);
        FanOutChannels(rest, next, m);
        assert DiscordCount(configs) == DiscordCount(rest);
        calc {
          s.calls + [SlackCall(m.message)] + ImmediateCalls(rest, m.message);
          s.calls + ([SlackCall(m.message)] + ImmediateCalls(rest, m.message));
          s.calls + ImmediateCalls(configs, m.message);
        }
      } else {
        var next := s.(calls := s.calls + [EmailCall(m.message)]);
        FanOutChannels(rest, next, m);
        assert DiscordCount(configs) == DiscordCount(rest);
        calc {
          s.calls + [EmailCall(m.message)] + ImmediateCalls(rest, m.message);
          s.calls + ([EmailCall(m.message)] + ImmediateCalls(rest, m.message));
          s.calls + ImmediateCalls(configs, m.message);
        }
      }
    }
  }

  /** One whole `sendAlert` to supported channels resolves, and its effect on every part of the state. */
  lemma SendAlertFansOut(configs: seq<AlertConfig>, s: Dispatcher, m: AlertMessage)
    requires AllSupported(configs)
    ensures SendAlert(configs, s, m) == Sent(Dispatcher(
              s.buffer + Copies(m, DiscordCount(configs)),
              if s.timer == Idle && DiscordCount(configs) > 0 then Armed else s.timer,
              s.inFlight,
              s.calls + ImmediateCalls(configs, m.message),
              s.alerts + [m]), Pass)
  {
    FanOutChannels(configs, s.(alerts := s.alerts + [m]), m);
  }

  /**
   * The first unsupported entry rejects the call: the entries before it
   * have taken effect, and none after it is visited.
   */
  lemma {:induction false} FanOutStopsAtUnsupported(configs: seq<AlertConfig>, k: nat, s: Dispatcher, m: AlertMessage)
    requires k < |configs| && !Supported(configs[k])
    requires AllSupported(configs[..k])
    ensures FanOut(configs, s, m) ==
              Sent(FanOut(configs[..k], s, m).state, Fail(UnsupportedError(configs[k].kind)))
    decreases k
  {
    if k > 0 {
      var c, rest := configs[0], configs[1..];
      AllSupportedTail(configs[..k]);
      assert configs[..k][1..] == rest[..k - 1];
      var next :=
        if c.kind == DiscordKind then Enqueue(s, m)
        else if c.kind == SlackKind then s.(calls := s.calls + [SlackCall(m.message)])
        else s.(calls := s.calls + [EmailCall(m.message)]);
      FanOutStopsAtUnsupported(rest, k - 1, next, m);
    }
  }

  // ----- the invariant -----

  /** Appending keeps the in-flight payload a prefix of the buffer. */
  lemma EnqueuePreservesValid(configs: seq<AlertConfig>, s: Dispatcher, m: AlertMessage)
    requires Valid(configs, s) && FirstDiscord(configs).Some?
    ensures Valid(configs, Enqueue(s, m))
  {
  }

  /**
   * The channel loop over any stretch `rest` of the channel list keeps the
   * invariant of the whole list `all`, provided a Discord entry in `rest`
   * is one of `all`.
   */
  lemma {:induction false} FanOutKeepsValid(all: seq<AlertConfig>, rest: seq<AlertConfig>, s: Dispatcher, m: AlertMessage)
    requires Valid(all, s)
    requires FirstDiscord(rest).Some? ==> FirstDiscord(all).Some?
    ensures Valid(all, FanOut(rest, s, m).state)
    decreases |rest|
  {
    if rest != [] {
      var c := rest[0];
      assert FirstDiscord(rest[1..]).Some? ==> FirstDiscord(rest).Some?;
      if c.kind == DiscordKind {
        EnqueuePreservesValid(all, s, m);
        FanOutKeepsValid(all, rest[1..], Enqueue(s, m), m);
      } else if c.kind == SlackKind {
        FanOutKeepsValid(all, rest[1..], s.(calls := s.calls + [SlackCall(m.message)]), m);
      } else if c.kind == EmailKind {
        FanOutKeepsValid(all, rest[1..], s.(calls := s.calls + [EmailCall(m.message)]), m);
      }
    }
  }

  lemma SendAlertPreservesValid(configs: seq<AlertConfig>, s: Dispatcher, m: AlertMessage)
    requires Valid(configs, s)
    ensures Valid(configs, SendAlert(configs, s, m).state)
  {
    FanOutKeepsValid(configs, configs, s.(alerts := s.alerts + [m]), m);
  }

  // ----- flushing -----

  /**
   * In a reachable state the timer fires with a non-empty buffer and a
   * Discord channel, so the callback makes exactly one post, to the first
   * Discord entry's webhook, carrying one embed per buffered message in
   * buffer order, and leaves the buffer as it was until the post settles.
   */
  lemma FlushPostsWholeBuffer(configs: seq<AlertConfig>, s: Dispatcher)
    requires Valid(configs, s) && s.timer == Armed
    ensures s.buffer != [] && FirstDiscord(configs).Some?
    ensures BeginFlush(configs, s).calls ==
              s.calls + [WebhookPost(WebhookUrl(configs[FirstDiscord(configs).value]), Embeds(s.buffer))]
    ensures BeginFlush(configs, s).buffer == s.buffer
    ensures BeginFlush(configs, s).inFlight == Some(Embeds(s.buffer))
    ensures Valid(configs, BeginFlush(configs, s))
  {
  }

  /**
   * With an empty buffer or no Discord channel the callback posts nothing
   * and changes neither the buffer nor the set handle; since the handle is
   * never reset, no later enqueue starts a timer again.
   */
  lemma FlushWithoutPostChangesNothing(configs: seq<AlertConfig>, s: Dispatcher, m: AlertMessage)
    requires s.timer == Armed && (s.buffer == [] || FirstDiscord(configs).None?)
    ensures BeginFlush(configs, s) == s.(timer := Fired)
    ensures Enqueue(BeginFlush(configs, s), m).timer == Fired
  {
  }

  /** Settling the post, whatever its result, empties the buffer and resets the timer. */
  lemma EndFlushResets(configs: seq<AlertConfig>, s: Dispatcher, ok: bool)
    requires Valid(configs, s) && s.inFlight.Some?
    ensures EndFlush(s, ok) == EndFlush(s, !ok)
    ensures EndFlush(s, ok).buffer == [] && EndFlush(s, ok).timer == Idle
    ensures EndFlush(s, ok).calls == s.calls
    ensures Valid(configs, EndFlush(s, ok))
  {
  }

  /** Alerts sent while a post is in flight only grow the buffer and make immediate calls. */
  lemma {:induction false} SendAllInFlight(configs: seq<AlertConfig>, s: Dispatcher, ms: seq<AlertMessage>)
    requires Valid(configs, s) && s.timer == Fired
    ensures Valid(configs, SendAll(configs, s, ms))
    ensures SendAll(configs, s, ms).timer == Fired
    ensures SendAll(configs, s, ms).inFlight == s.inFlight
    ensures |SendAll(configs, s, ms).buffer| >= |s.buffer|
    ensures SendAll(configs, s, ms).buffer[..|s.buffer|] == s.buffer
    ensures |SendAll(configs, s, ms).calls| >= |s.calls|
    ensures SendAll(configs, s, ms).calls[..|s.calls|] == s.calls
    ensures forall j :: |s.calls| <= j < |SendAll(configs, s, ms).calls| ==>
              !SendAll(configs, s, ms).calls[j].WebhookPost?
    decreases |ms|
  {
    if ms != [] {
      var next := SendAlert(configs, s, ms[0]).state;
      SendAlertPreservesValid(configs, s, ms[0]);
      FanOutInFlight(configs, s.(alerts := s.alerts + [ms[0]]), ms[0]);
      SendAllInFlight(configs, next, ms[1..]);
      assert SendAll(configs, s, ms) == SendAll(configs, next, ms[1..]);
      assert SendAll(configs, s, ms).buffer[..|next.buffer|][..|s.buffer|] == next.buffer[..|s.buffer|];
      assert SendAll(configs, s, ms).calls[..|next.calls|][..|s.calls|] == next.calls[..|s.calls|];
    }
  }

  /**
   * The channel loop while the handle is set never posts and never touches
   * the timer: it only appends messages to the buffer and immediate calls.
   */
  lemma {:induction false} FanOutInFlight(configs: seq<AlertConfig>, s: Dispatcher, m: AlertMessage)
    requires s.timer != Idle
    ensures FanOut(configs, s, m).state.timer == s.timer
    ensures FanOut(configs, s, m).state.buffer[..|s.buffer|] == s.buffer
    ensures FanOut(configs, s, m).state.calls[..|s.calls|] == s.calls
    ensures forall j :: |s.calls| <= j < |FanOut(configs, s, m).state.calls| ==>
              !FanOut(configs, s, m).state.calls[j].WebhookPost?
    decreases |configs|
  {
    if configs != [] {
      var c := configs[0];
      if c.kind == DiscordKind {
        var next := Enqueue(s, m);
        FanOutInFlight(configs[1..], next, m);
        assert next.buffer[..|s.buffer|] == s.buffer;
      } else if c.kind == SlackKind {
        var next := s.(calls := s.calls + [SlackCall(m.message)]);
        FanOutInFlight(configs[1..], next, m);
        assert next.calls[..|s.calls|] == s.calls;
      } else if c.kind == EmailKind {
        var next := s.(calls := s.calls + [EmailCall(m.message)]);
        FanOutInFlight(configs[1..], next, m);
        assert next.calls[..|s.calls|] == s.calls;
      }
    }
  }

  /**
   * Messages that arrive while a post is in flight are lost: once the post
   * settles the buffer is empty and no timer is set, yet no post since the
   * one in flight carried them.
   */
  lemma LateAlertsAreDropped(configs: seq<AlertConfig>, s: Dispatcher, ms: seq<AlertMessage>, ok: bool)
    requires Valid(configs, s) && s.timer == Fired
    ensures SendAll(configs, s, ms).inFlight.Some?
    ensures EndFlush(SendAll(configs, s, ms), ok).buffer == []
    ensures EndFlush(SendAll(configs, s, ms), ok).timer == Idle
    ensures forall j :: |s.calls| <= j < |EndFlush(SendAll(configs, s, ms), ok).calls| ==>
              !EndFlush(SendAll(configs, s, ms), ok).calls[j].WebhookPost?
  {
    SendAllInFlight(configs, s, ms);
  }

  // ----- coalescing -----

  /**
   * Successive alerts with only supported channels and no timer activity:
   * the buffer gains every message once per Discord entry, in order, the
   * immediate calls are made per message, and at most one timer is started.
   */
  lemma {:induction false} SendAllCoalesces(configs: seq<AlertConfig>, s: Dispatcher, ms: seq<AlertMessage>)
    requires AllSupported(configs)
    ensures SendAll(configs, s, ms) == Dispatcher(
              s.buffer + Spread(ms, DiscordCount(configs)),
              if s.timer == Idle && DiscordCount(configs) > 0 && ms != [] then Armed else s.timer,
              s.inFlight,
              s.calls + SpreadCalls(configs, ms),
              s.alerts + ms)
    decreases |ms|
  {
    var d := DiscordCount(configs);
    if ms == [] {
      assert s.buffer + Spread(ms, d) == s.buffer;
      assert s.calls + SpreadCalls(configs, ms) == s.calls;
      assert s.alerts + ms == s.alerts;
    } else {
      var next := SendAlert(configs, s, ms[0]).state;
      SendAlertFansOut(configs, s, ms[0]);
      SendAllCoalesces(configs, next, ms[1..]);
      var r := SendAll(configs, next, ms[1..]);
      assert SendAll(configs, s, ms) == r;
      assert r.timer == if s.timer == Idle && d > 0 then Armed else s.timer;
      assert r.inFlight == s.inFlight;
      assert r.buffer == s.buffer + Spread(ms, d) by {
        SpreadAppend(s.buffer, ms, d);
      }
      assert r.calls == s.calls + SpreadCalls(configs, ms) by {
        SpreadCallsAppend(s.calls, configs, ms);
      }
      assert r.alerts == s.alerts + ms by {
        AppendHead(s.alerts, ms);
      }
    }
  }

  lemma AppendHead<T>(prefix: seq<T>, xs: seq<T>)
    requires xs != []
    ensures prefix + [xs[0]] + xs[1..] == prefix + xs
  {
    assert [xs[0]] + xs[1..] == xs;
  }

  lemma SpreadAppend(prefix: seq<AlertMessage>, ms: seq<AlertMessage>, d: nat)
    requires ms != []
    ensures prefix + Copies(ms[0], d) + Spread(ms[1..], d) == prefix + Spread(ms, d)
  {
    var head, tail := Copies(ms[0], d), Spread(ms[1..], d);
    calc {
      prefix + head + tail;
      prefix + (head + tail);
      { assert Spread(ms, d) == head + tail; }
      prefix + Spread(ms, d);
    }
  }

  lemma SpreadCallsAppend(prefix: seq<Call>, configs: seq<AlertConfig>, ms: seq<AlertMessage>)
    requires ms != []
    ensures prefix + ImmediateCalls(configs, ms[0].message) + SpreadCalls(configs, ms[1..])
         == prefix + SpreadCalls(configs, ms)
  {
    var head, tail := ImmediateCalls(configs, ms[0].message), SpreadCalls(configs, ms[1..]);
    calc {
      prefix + head + tail;
      prefix + (head + tail);
      { assert SpreadCalls(configs, ms) == head + tail; }
      prefix + SpreadCalls(configs, ms);
    }
  }

  /**
   * From an idle dispatcher, any non-empty run of alerts to supported
   * channels that include Discord is delivered to Discord by exactly one
   * post carrying all of them in order; after it settles, successfully or
   * not, the dispatcher is idle and empty again.
   */
  lemma CoalescedDelivery(configs: seq<AlertConfig>, s: Dispatcher, ms: seq<AlertMessage>, ok: bool)
    requires Valid(configs, s) && s.timer == Idle
    requires AllSupported(configs) && DiscordCount(configs) > 0 && ms != []
    ensures SendAll(configs, s, ms).timer == Armed
    ensures FirstDiscord(configs).Some?
    ensures BeginFlush(configs, SendAll(configs, s, ms)).inFlight.Some?
    ensures BeginFlush(configs, SendAll(configs, s, ms)).calls ==
              s.calls + SpreadCalls(configs, ms) +
              [WebhookPost(WebhookUrl(configs[FirstDiscord(configs).value]),
                           Embeds(Spread(ms, DiscordCount(configs))))]
    ensures EndFlush(BeginFlush(configs, SendAll(configs, s, ms)), ok).buffer == []
    ensures EndFlush(BeginFlush(configs, SendAll(configs, s, ms)), ok).timer == Idle
  {
    SendAllCoalesces(configs, s, ms);
    assert s.buffer == [];
    assert s.buffer + Spread(ms, DiscordCount(configs)) == Spread(ms, DiscordCount(configs));
    DiscordCountPositive(configs);
    SendAllPreservesValid(configs, s, ms);
    FlushPostsWholeBuffer(configs, SendAll(configs, s, ms));
  }

  lemma {:induction false} DiscordCountPositive(configs: seq<AlertConfig>)
    requires DiscordCount(configs) > 0
    ensures FirstDiscord(configs).Some?
    decreases |configs|
  {
    if configs[0].kind != DiscordKind {
      DiscordCountPositive(configs[1..]);
    }
  }

  lemma {:induction false} SendAllPreservesValid(configs: seq<AlertConfig>, s: Dispatcher, ms: seq<AlertMessage>)
    requires Valid(configs, s)
    ensures Valid(configs, SendAll(configs, s, ms))
    decreases |ms|
  {
    if ms != [] {
      SendAlertPreservesValid(configs, s, ms[0]);
      SendAllPreservesValid(configs, SendAlert(configs, s, ms[0]).state, ms[1..]);
    }
  }
}
