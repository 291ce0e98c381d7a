/**
 * class IntegrationManager of src/index.ts: the channel list, the Discord
 * buffer and its timer handle, updated in place. Every method is proved to
 * move the object's state exactly as the matching function of Dispatch
 * says, and to keep Dispatch.Valid.
 */
module Integration {
  import opened Dispatch

  /** An event the runtime delivers while a caller is suspended. */
  datatype TimerStep =
    | TimerFires            // the callback armed by bufferDiscordAlert runs
    | PostSettles(ok: bool) // the awaited Discord post resolves (true) or rejects (false)

  /** A step takes effect only when it can happen: a timer is armed, or a post is in flight. */
  function Step(configs: seq<AlertConfig>, s: Dispatcher, t: TimerStep): Dispatcher {
    match t
    case TimerFires => if s.timer == Armed then BeginFlush(configs, s) else s
    case PostSettles(ok) => if s.inFlight.Some? then EndFlush(s, ok) else s
  }

  /** The runtime's events never call `sendAlert`, and a post, once made, stays in the log. */
  function Steps(configs: seq<AlertConfig>, s: Dispatcher, ts: seq<TimerStep>): (r: Dispatcher)
    ensures r.alerts == s.alerts
    ensures |r.calls| >= |s.calls| && r.calls[..|s.calls|] == s.calls
    decreases |ts|
  {
    if ts == [] then s else Steps(configs, Step(configs, s, ts[0]), ts[1..])
  }

  /** Whatever the runtime does meanwhile, the dispatcher stays in a reachable state. */
  lemma {:induction false} StepsPreserveValid(configs: seq<AlertConfig>, s: Dispatcher, ts: seq<TimerStep>)
    requires Valid(configs, s)
    ensures Valid(configs, Steps(configs, s, ts))
    decreases |ts|
  {
    if ts != [] {
      var next := Step(configs, s, ts[0]);
      if ts[0].TimerFires? && s.timer == Armed {
        FlushPostsWholeBuffer(configs, s);
      }
      StepsPreserveValid(configs, next, ts[1..]);
    }
  }

  /** Prefix then rest is the same as all the steps at once. */
  lemma {:induction false} StepsAppend(configs: seq<AlertConfig>, s: Dispatcher, ts: seq<TimerStep>, t: TimerStep)
    ensures Steps(configs, s, ts + [t]) == Step(configs, Steps(configs, s, ts), t)
    decreases |ts|
  {
    if ts != [] {
      assert (ts + [t])[1..] == ts[1..] + [t];
      StepsAppend(configs, Step(configs, s, ts[0]), ts[1..], t);
    }
  }

  class IntegrationManager {
    const alertConfigs: seq<AlertConfig>
    var discordBuffer: seq<AlertMessage>
    var bufferTimeout: Timer
    /** The payload of the Discord post being awaited, if any. */
    var inFlight: Option<seq<Embed>>
    /** Every outbound call made so far, in order. */
    var calls: seq<Call>
    /** Every message `sendAlert` was called with, in order. */
    var alerts: seq<AlertMessage>

    function State(): Dispatcher
      reads this
    {
      Dispatcher(discordBuffer, bufferTimeout, inFlight, calls, alerts)
    }

    ghost predicate Valid()
      reads this
    {
      Dispatch.Valid(alertConfigs, State())
    }

    constructor (alertConfigs: seq<AlertConfig>)
      ensures this.alertConfigs == alertConfigs
      ensures State() == Initial && Valid()
    {
      this.alertConfigs := alertConfigs;
      discordBuffer, bufferTimeout, inFlight, calls, alerts := [], Idle, None, [], [];
    }

    /**
     * sendAlert: visit the channels in order; Discord entries buffer the
     * message, Slack and e-mail entries call out at once, and any other type
     * rejects the call, leaving the later entries unvisited.
     */
    method SendAlert(title: string, message: string, severity: Severity) returns (outcome: Outcome)
      modifies this
      ensures Sent(State(), outcome) ==
                Dispatch.SendAlert(alertConfigs, old(State()), AlertMessage(title, message, severity))
      ensures old(Valid()) ==> Valid()
    {
      var alertMessage := AlertMessage(title, message, severity);
      ghost var start := State();
      alerts := alerts + [alertMessage];
      var i := 0;
      while i < |alertConfigs|
        invariant 0 <= i <= |alertConfigs|
        invariant FanOut(alertConfigs[i..], State(), alertMessage) ==
                  Dispatch.SendAlert(alertConfigs, start, alertMessage)
      {
        var alertConfig := alertConfigs[i];
        assert alertConfigs[i..][1..] == alertConfigs[i + 1..];
        if alertConfig.kind == DiscordKind {
          BufferDiscordAlert(alertMessage);
        } else if alertConfig.kind == SlackKind {
          SendSlackAlert(message);
        } else if alertConfig.kind == EmailKind {
          SendEmail(message);
        } else {
          outcome := Fail(UnsupportedError(alertConfig.kind));
          if old(Valid()) { SendAlertPreservesValid(alertConfigs, start, alertMessage); }
          return;
        }
        i := i + 1;
      }
      outcome := Pass;
      if old(Valid()) { SendAlertPreservesValid(alertConfigs, start, alertMessage); }
    }

    /** bufferDiscordAlert: append; set a timer only if none is set. */
    method BufferDiscordAlert(alertMessage: AlertMessage)
      modifies this
      ensures State() == Enqueue(old(State()), alertMessage)
      ensures discordBuffer == old(discordBuffer) + [alertMessage]
      ensures old(bufferTimeout) != Idle ==> bufferTimeout == old(bufferTimeout)
    {
      discordBuffer := discordBuffer + [alertMessage];
      if bufferTimeout == Idle {
        bufferTimeout := Armed;
      }
    }

    /** The Slack stub: one call per message, nothing batched. */
    method SendSlackAlert(message: string)
      modifies this
      ensures State() == old(State()).(calls := old(calls) + [SlackCall(message)])
    {
      calls := calls + [SlackCall(message)];
    }

    /** The e-mail stub: one call per message, nothing batched. */
    method SendEmail(message: string)
      modifies this
      ensures State() == old(State()).(calls := old(calls) + [EmailCall(message)])
    {
      calls := calls + [EmailCall(message)];
    }

    /**
     * The timer callback, sendBufferedDiscordAlerts, up to `await axios.post`:
     * it returns early on an empty buffer or when no Discord channel is
     * configured; otherwise it posts every buffered message as one payload.
     */
    method SendBufferedDiscordAlerts()
      requires bufferTimeout == Armed
      modifies this
      ensures State() == BeginFlush(alertConfigs, old(State()))
      ensures old(Valid()) ==> Valid()
      ensures old(Valid()) ==>
                calls == old(calls) + [WebhookPost(WebhookUrl(alertConfigs[FirstDiscord(alertConfigs).value]),
                                                   Embeds(old(discordBuffer)))]
    {
      ghost var start := State();
      bufferTimeout := Fired;
      if |discordBuffer| == 0 {
        return;
      }
      var found := FirstDiscord(alertConfigs);
      if found.None? {
        return;
      }
      var config := alertConfigs[found.value];
      var embeds := Embeds(discordBuffer);
      calls := calls + [WebhookPost(WebhookUrl(config), embeds)];
      inFlight := Some(embeds);
      if old(Valid()) { FlushPostsWholeBuffer(alertConfigs, start); }
    }

    /**
     * The rest of sendBufferedDiscordAlerts once the post settles, `ok`
     * telling whether it resolved: the buffer and the handle are reset
     * either way, including messages added while the post was in flight.
     */
    method FinishBufferedDiscordAlerts(ok: bool)
      requires inFlight.Some?
      modifies this
      ensures State() == EndFlush(old(State()), ok)
      ensures discordBuffer == [] && bufferTimeout == Idle && calls == old(calls)
      ensures old(Valid()) ==> Valid()
    {
      inFlight := None;
      discordBuffer := [];
      bufferTimeout := Idle;
    }

    /** The runtime delivers timer and post events while a caller is suspended. */
    method Elapse(ts: seq<TimerStep>)
      modifies this
      ensures State() == Steps(alertConfigs, old(State()), ts)
      ensures old(Valid()) ==> Valid()
    {
      ghost var start := State();
      var i := 0;
      while i < |ts|
        invariant 0 <= i <= |ts|
        invariant State() == Steps(alertConfigs, start, ts[..i])
      {
        assert ts[..i + 1] == ts[..i] + [ts[i]];
        StepsAppend(alertConfigs, start, ts[..i], ts[i]);
        match ts[i] {
          case TimerFires =>
            if bufferTimeout == Armed { SendBufferedDiscordAlerts(); }
          case PostSettles(ok) =>
            if inFlight.Some? { FinishBufferedDiscordAlerts(ok); }
        }
        i := i + 1;
      }
      assert ts[..i] == ts;
      if old(Valid()) { StepsPreserveValid(alertConfigs, start, ts); }
    }
  }
}
