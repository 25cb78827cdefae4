/** One call of `checkAIReady` as a function of what it reads: the `ready`
    flag, the configuration, the two localStorage entries, the clock, the
    probe's reply and the random draws of a fresh token. It yields the new
    flag, configuration and store, whether the probe conversation stays in
    the registry, the effects in the order the code performs them, and the
    call's result. A retry scheduled with `setTimeout` is the effect
    `ScheduleRetry`; the retry itself is the next call (see `Run`). */
module Readiness {
  import opened JsValues
  import opened Conversations
  import Radix
  import Guid

  /** The single message of the throw-away probe conversation. */
  const PROBE_MESSAGE := Message("user", "What day is it today?")

  /** The lifetime given to a cached key: one day, in milliseconds. */
  const ONE_DAY_MS := 86_400_000

  /** localStorage's `apiKey` and `apiKeyExpiration` (epoch milliseconds). */
  datatype Store = Store(apiKey: Option<string>, apiKeyExpiration: Option<int>)

  datatype Effect =
    | Probe(request: Request)    // getResponseCode's POST
    | NotifyReady                // Adapt.trigger('openai:ready')
    | CloseOverlay               // _closeOverlay()
    | DisplayOverlay(url: string) // _displayOverlay(), showing this URL in its iframe
    | ScheduleRetry              // setTimeout(() => this.checkAIReady(), 10000)

  /** What the call resolves to: true, an error message, or undefined. */
  datatype Outcome = Ready | Failed(message: string) | Pending

  datatype Step = Step(
    ready: bool,
    settings: Settings,
    store: Store,
    keepsProbe: bool,
    effects: seq<Effect>,
    outcome: Outcome)

  /** A backend reached directly with a key of the configuration's own. */
  predicate DirectMode(s: Settings)
  {
    Truthy(s.apiUrl) && !s.useClientAPIKey
  }

  /** Keys issued by the client auth server to the learner. */
  predicate ProxyMode(s: Settings)
  {
    s.useClientAPIKey && Truthy(s.clientAuthServer)
  }

  /** `getItem('apiKeyExpiration') > Date.now()` compares a missing entry (null) as 0. */
  function StoredExpiration(store: Store): int
  {
    if store.apiKeyExpiration.Some? then store.apiKeyExpiration.value else 0
  }

  /** The configuration has no key and the store holds one that has not expired. */
  predicate CachedKeyUsable(s: Settings, store: Store, now: int)
  {
    !Truthy(s.apiKey) && Truthy(store.apiKey) && StoredExpiration(store) > now
  }

  predicate IsOk(reply: ProbeReply)
  {
    reply.Answered? && reply.status.code == 200
  }

  predicate IsRefused(reply: ProbeReply)
  {
    reply.Answered? && reply.status.code != 200
  }

  function OverlayUrl(clientAuthServer: Option<string>, key: string): string
  {
    Text(clientAuthServer) + "?accessToken=" + key
  }

  /** The probe conversation's request under the given configuration. */
  function ProbeOf(s: Settings): Effect
  {
    Probe(ProbeRequest(s, [PROBE_MESSAGE]))
  }

  /** How many times the effects announce readiness. */
  function Notifications(effects: seq<Effect>): nat
  {
    multiset(effects)[NotifyReady]
  }

  /** How many times the effects schedule another readiness check. */
  function Retries(effects: seq<Effect>): nat
  {
    multiset(effects)[ScheduleRetry]
  }

  /** How many probe requests the effects send, whatever they carry. */
  function ProbeCount(effects: seq<Effect>): (n: nat)
    ensures n <= |effects|
    ensures n == 0 <==> forall e :: e in effects ==> !e.Probe?
  {
    if effects == [] then 0
    else (if effects[0].Probe? then 1 else 0) + ProbeCount(effects[1..])
  }

  /** Some effect shows the overlay. */
  predicate ShowsOverlay(effects: seq<Effect>)
  {
    exists e :: e in effects && e.DisplayOverlay?
  }

  /** Direct mode: one probe; 200 makes the plugin ready, anything else is an error. */
  function DirectCheck(s: Settings, store: Store, reply: ProbeReply): (r: Step)
    ensures r.settings == s && r.store == store && !r.keepsProbe
    ensures r.ready <==> r.outcome == Ready
    ensures r.ready <==> IsOk(reply)
    ensures r.outcome != Pending
    ensures IsRefused(reply) ==>
      r.outcome == Failed("Error: " + Radix.ToString(reply.status.code, 10) + " " + reply.status.text)
    ensures reply.ProbeError? ==> r.outcome == Failed("Error fetching response code: " + reply.error)
  {
    match ProbeResult(reply)
    case Err(message) => Step(false, s, store, false, [ProbeOf(s)], Failed(message))
    case Ok(status) =>
      if status.code == 200 then Step(true, s, store, false, [ProbeOf(s), NotifyReady], Ready)
      else Step(false, s, store, false, [ProbeOf(s)],
                Failed("Error: " + Radix.ToString(status.code, 10) + " " + status.text))
  }

  /** Direct mode sends one probe, announces readiness exactly on success and
      neither shows the overlay nor schedules a retry. */
  lemma DirectCheckEffects(s: Settings, store: Store, reply: ProbeReply)
    ensures var r := DirectCheck(s, store, reply);
      Notifications(r.effects) == (if r.ready then 1 else 0) &&
      (forall e :: e in r.effects ==> e == ProbeOf(s) || e == NotifyReady) &&
      multiset(r.effects)[ProbeOf(s)] == 1 && ProbeCount(r.effects) == 1
  {
  }

  /** No usable key: store a fresh token in the configuration, show the auth
      server's page for it and poll again later. */
  function IssueKey(s: Settings, store: Store, earlier: seq<Effect>, draws: seq<Guid.Draw>): (r: Step)
    requires |draws| == 8
    ensures !r.ready && !r.keepsProbe && r.store == store && r.outcome == Pending
    ensures r.settings == s.(apiKey := Some(Guid.GenerateGuid(draws)))
    ensures Guid.IsGuidShaped(r.settings.apiKey.value)
    ensures r.effects == earlier + [DisplayOverlay(OverlayUrl(s.clientAuthServer, r.settings.apiKey.value)), ScheduleRetry]
  {
    var key := Guid.GenerateGuid(draws);
    Step(false, s.(apiKey := Some(key)), store, false,
         earlier + [DisplayOverlay(OverlayUrl(s.clientAuthServer, key)), ScheduleRetry], Pending)
  }

  /** Proxy mode with a key in the configuration: probe with it; on 200 cache
      it for a day and close the overlay. On any other status a retry is
      scheduled and both later branches are skipped, so the probe conversation
      is never destroyed on this path. */
  function KeyedCheck(s: Settings, store: Store, now: int, reply: ProbeReply): (r: Step)
    ensures r.settings == s && r.ready == IsOk(reply) && (r.ready <==> r.outcome == Ready)
    ensures r.keepsProbe <==> IsRefused(reply)
    ensures r.outcome == Pending <==> IsRefused(reply)
    ensures r.ready ==> r.store == Store(s.apiKey, Some(now + ONE_DAY_MS))
    ensures !r.ready ==> r.store == store
  {
    match ProbeResult(reply)
    case Err(message) => Step(false, s, store, false, [ProbeOf(s)], Failed(message))
    case Ok(status) =>
      if status.code == 200 then
        Step(true, s, Store(s.apiKey, Some(now + ONE_DAY_MS)), false,
             [ProbeOf(s), NotifyReady, CloseOverlay], Ready)
      else
        Step(false, s, store, true, [ProbeOf(s), ScheduleRetry], Pending)
  }

  /** A configured key is probed as it is, readiness is announced and the
      overlay closed exactly on success, a retry is scheduled exactly when
      the call resolves to undefined, and the overlay is never shown. */
  lemma KeyedCheckEffects(s: Settings, store: Store, now: int, reply: ProbeReply)
    ensures var r := KeyedCheck(s, store, now, reply);
      Notifications(r.effects) == (if r.ready then 1 else 0) &&
      (CloseOverlay in r.effects <==> r.ready) &&
      Retries(r.effects) == (if r.outcome == Pending then 1 else 0) &&
      !ShowsOverlay(r.effects) &&
      (forall e :: e in r.effects && e.Probe? ==> e == ProbeOf(s)) &&
      multiset(r.effects)[ProbeOf(s)] == 1 && ProbeCount(r.effects) == 1
  {
  }

  /** Proxy mode with no configured key but a cached one: adopt it and probe
      with it; on any status but 200 evict it from the store and the
      configuration and issue a new key. A failed fetch leaves it adopted. */
  function CachedCheck(s: Settings, store: Store, reply: ProbeReply, draws: seq<Guid.Draw>): (r: Step)
    requires |draws| == 8
    ensures r.ready == IsOk(reply) && (r.ready <==> r.outcome == Ready) && !r.keepsProbe
    ensures r.settings == s.(apiKey := r.settings.apiKey)
    ensures r.outcome == Pending <==> IsRefused(reply)
    ensures IsRefused(reply) ==>
      r.store == Store(None, None) && r.settings.apiKey == Some(Guid.GenerateGuid(draws))
    ensures !IsRefused(reply) ==> r.store == store && r.settings.apiKey == store.apiKey
  {
    var adopted := s.(apiKey := store.apiKey);
    match ProbeResult(reply)
    case Err(message) => Step(false, adopted, store, false, [ProbeOf(adopted)], Failed(message))
    case Ok(status) =>
      if status.code == 200 then Step(true, adopted, store, false, [ProbeOf(adopted), NotifyReady], Ready)
      else IssueKey(s.(apiKey := None), Store(None, None), [ProbeOf(adopted)], draws)
  }

  /** The probe of a cached key carries that key, readiness is announced
      exactly on success, and a retry is scheduled exactly on a refusal. */
  lemma CachedCheckEffects(s: Settings, store: Store, reply: ProbeReply, draws: seq<Guid.Draw>)
    requires |draws| == 8
    ensures var r := CachedCheck(s, store, reply, draws);
      Notifications(r.effects) == (if r.ready then 1 else 0) &&
      Retries(r.effects) == (if r.outcome == Pending then 1 else 0) &&
      CloseOverlay !in r.effects &&
      (forall e :: e in r.effects && e.Probe? ==> e == ProbeOf(s.(apiKey := store.apiKey))) &&
      multiset(r.effects)[ProbeOf(s.(apiKey := store.apiKey))] == 1 && ProbeCount(r.effects) == 1
  {
  }

  /** A refused cached key, and nothing else, shows the overlay, for the new token. */
  lemma CachedCheckOverlay(s: Settings, store: Store, reply: ProbeReply, draws: seq<Guid.Draw>)
    requires |draws| == 8
    ensures var r := CachedCheck(s, store, reply, draws);
      (ShowsOverlay(r.effects) <==> IsRefused(reply)) &&
      (forall e :: e in r.effects && e.DisplayOverlay? ==>
        e.url == OverlayUrl(s.clientAuthServer, Guid.GenerateGuid(draws)))
  {
    var r := CachedCheck(s, store, reply, draws);
    if IsRefused(reply) {
      assert r.effects[1] in r.effects && r.effects[1].DisplayOverlay?;
    }
  }

  /** Proxy mode, in the code's order: the configured key, else an unexpired
      cached key, else a new key. */
  function ProxyCheck(s: Settings, store: Store, now: int, reply: ProbeReply, draws: seq<Guid.Draw>): (r: Step)
    requires |draws| == 8
    // Ready exactly when a key was probed and answered with 200.
    ensures r.ready <==> IsOk(reply) && (Truthy(s.apiKey) || CachedKeyUsable(s, store, now))
    ensures r.ready <==> r.outcome == Ready
    // The probe is left registered exactly on a refused configured key.
    ensures r.keepsProbe <==> Truthy(s.apiKey) && IsRefused(reply)
    // The call resolves to undefined on a refusal or when there was no key to probe.
    ensures r.outcome == Pending <==> IsRefused(reply) || (!Truthy(s.apiKey) && !CachedKeyUsable(s, store, now))
    // A failed probe fetch is caught and its message returned.
    ensures reply.ProbeError? && (Truthy(s.apiKey) || CachedKeyUsable(s, store, now)) ==>
      r.outcome == Failed("Error fetching response code: " + reply.error)
    // Only the key may change in the configuration.
    ensures r.settings == s.(apiKey := r.settings.apiKey)
  {
    if Truthy(s.apiKey) then KeyedCheck(s, store, now, reply)
    else if CachedKeyUsable(s, store, now) then CachedCheck(s, store, reply, draws)
    else IssueKey(s, store, [], draws)
  }

  /** One call of `checkAIReady`. */
  function ReadyStep(ready: bool, s: Settings, store: Store, now: int, reply: ProbeReply,
                     draws: seq<Guid.Draw>): (r: Step)
    requires |draws| == 8
    // Once ready, a call changes nothing and does nothing.
    ensures ready ==> r == Step(true, s, store, false, [], Ready)
    // The call resolves to true exactly when the plugin is ready afterwards ...
    ensures r.ready <==> r.outcome == Ready
    // ... which it becomes only on a probe answered with 200.
    ensures !ready && r.ready ==> IsOk(reply)
    // Only the key may change in the configuration.
    ensures r.settings == s.(apiKey := r.settings.apiKey)
    // The probe conversation stays registered exactly on a refused configured key in proxy mode.
    ensures r.keepsProbe <==> !ready && ProxyMode(s) && Truthy(s.apiKey) && IsRefused(reply)
    // Neither mode configured: the fixed 500 error and nothing else.
    ensures !ready && !DirectMode(s) && !ProxyMode(s) ==>
      r == Step(false, s, store, false, [], Failed("Error: 500 Internal Server Error"))
    // Direct mode: a refusal is returned as an error carrying the status.
    ensures !ready && DirectMode(s) && IsRefused(reply) ==>
      !r.ready && r.store == store &&
      r.outcome == Failed("Error: " + Radix.ToString(reply.status.code, 10) + " " + reply.status.text)
    // A failed probe fetch is caught and its message returned.
    ensures var probed := DirectMode(s) || (ProxyMode(s) && (Truthy(s.apiKey) || CachedKeyUsable(s, store, now)));
      !ready && probed && reply.ProbeError? ==> r.outcome == Failed("Error fetching response code: " + reply.error)
    // Proxy mode, configured key accepted: cache it for a day.
    ensures !ready && ProxyMode(s) && Truthy(s.apiKey) && IsOk(reply) ==>
      r.store == Store(s.apiKey, Some(now + ONE_DAY_MS))
    // The store is written only then, or emptied when a cached key is refused.
    ensures r.store != store ==>
      !ready && ProxyMode(s) &&
      ((Truthy(s.apiKey) && IsOk(reply) && r.store == Store(s.apiKey, Some(now + ONE_DAY_MS))) ||
       (CachedKeyUsable(s, store, now) && IsRefused(reply) && r.store == Store(None, None)))
    // A refused cached key is evicted from store and configuration and replaced by a new token.
    ensures !ready && ProxyMode(s) && CachedKeyUsable(s, store, now) && IsRefused(reply) ==>
      r.store == Store(None, None) && r.settings.apiKey == Some(Guid.GenerateGuid(draws)) &&
      r.outcome == Pending
  {
    if ready then Step(true, s, store, false, [], Ready)
    else if DirectMode(s) then DirectCheck(s, store, reply)
    else if ProxyMode(s) then ProxyCheck(s, store, now, reply, draws)
    else Step(false, s, store, false, [], Failed("Error: 500 Internal Server Error"))
  }

  /** What one call does, in effects: "openai:ready" fires exactly on the
      transition to ready, and a retry is scheduled exactly when the call
      resolves to undefined. */
  lemma ReadyStepEffects(ready: bool, s: Settings, store: Store, now: int, reply: ProbeReply,
                         draws: seq<Guid.Draw>)
    requires |draws| == 8
    ensures var r := ReadyStep(ready, s, store, now, reply, draws);
      Notifications(r.effects) == if !ready && r.ready then 1 else 0
    ensures var r := ReadyStep(ready, s, store, now, reply, draws);
      Retries(r.effects) == if r.outcome == Pending then 1 else 0
  {
    var r := ReadyStep(ready, s, store, now, reply, draws);
    if ready || (!DirectMode(s) && !ProxyMode(s)) {
    } else if DirectMode(s) {
      assert r == DirectCheck(s, store, reply);
      DirectCheckEffects(s, store, reply);
    } else if Truthy(s.apiKey) {
      assert r == KeyedCheck(s, store, now, reply);
      KeyedCheckEffects(s, store, now, reply);
    } else if CachedKeyUsable(s, store, now) {
      assert r == CachedCheck(s, store, reply, draws);
      CachedCheckEffects(s, store, reply, draws);
    } else {
      assert r == IssueKey(s, store, [], draws);
    }
  }

  /** Every probe of one call carries the configured key, or the cached one
      exactly when proxy mode adopts it. */
  lemma ReadyStepProbeKey(ready: bool, s: Settings, store: Store, now: int, reply: ProbeReply,
                          draws: seq<Guid.Draw>)
    requires |draws| == 8
    ensures var r := ReadyStep(ready, s, store, now, reply, draws);
      forall e :: e in r.effects && e.Probe? ==>
        e == ProbeOf(if ProxyMode(s) && CachedKeyUsable(s, store, now) then s.(apiKey := store.apiKey) else s)
    ensures var r := ReadyStep(ready, s, store, now, reply, draws);
      ProbeCount(r.effects) ==
        if !ready && (DirectMode(s) || (ProxyMode(s) && (Truthy(s.apiKey) || CachedKeyUsable(s, store, now))))
        then 1 else 0
  {
    var r := ReadyStep(ready, s, store, now, reply, draws);
    if ready || (!DirectMode(s) && !ProxyMode(s)) {
    } else if DirectMode(s) {
      assert r == DirectCheck(s, store, reply);
      DirectCheckEffects(s, store, reply);
    } else if Truthy(s.apiKey) {
      assert r == KeyedCheck(s, store, now, reply);
      KeyedCheckEffects(s, store, now, reply);
    } else if CachedKeyUsable(s, store, now) {
      assert r == CachedCheck(s, store, reply, draws);
      CachedCheckEffects(s, store, reply, draws);
    } else {
      assert r == IssueKey(s, store, [], draws);
    }
  }

  /** Only a configured key accepted in proxy mode closes the overlay; an
      accepted cached key leaves it as it is. */
  lemma ReadyStepClosesOverlay(ready: bool, s: Settings, store: Store, now: int, reply: ProbeReply,
                               draws: seq<Guid.Draw>)
    requires |draws| == 8
    ensures var r := ReadyStep(ready, s, store, now, reply, draws);
      CloseOverlay in r.effects <==> !ready && ProxyMode(s) && Truthy(s.apiKey) && IsOk(reply)
  {
    var r := ReadyStep(ready, s, store, now, reply, draws);
    if ready || (!DirectMode(s) && !ProxyMode(s)) {
    } else if DirectMode(s) {
      assert r == DirectCheck(s, store, reply);
      DirectCheckEffects(s, store, reply);
    } else if Truthy(s.apiKey) {
      assert r == KeyedCheck(s, store, now, reply);
      KeyedCheckEffects(s, store, now, reply);
    } else if CachedKeyUsable(s, store, now) {
      assert r == CachedCheck(s, store, reply, draws);
      CachedCheckEffects(s, store, reply, draws);
    } else {
      assert r == IssueKey(s, store, [], draws);
    }
  }

  /** The overlay in one call: it is shown exactly when proxy mode ends up
      without a working key, pointing at the auth server with the new token. */
  lemma ReadyStepOverlay(ready: bool, s: Settings, store: Store, now: int, reply: ProbeReply,
                         draws: seq<Guid.Draw>)
    requires |draws| == 8
    ensures var r := ReadyStep(ready, s, store, now, reply, draws);
      ShowsOverlay(r.effects) <==>
        !ready && ProxyMode(s) && !Truthy(s.apiKey) && (!CachedKeyUsable(s, store, now) || IsRefused(reply))
    ensures var r := ReadyStep(ready, s, store, now, reply, draws);
      forall e :: e in r.effects && e.DisplayOverlay? ==>
        r.settings.apiKey == Some(Guid.GenerateGuid(draws)) &&
        e.url == OverlayUrl(s.clientAuthServer, Guid.GenerateGuid(draws))
  {
    var r := ReadyStep(ready, s, store, now, reply, draws);
    if ready || (!DirectMode(s) && !ProxyMode(s)) {
    } else if DirectMode(s) {
      assert r == DirectCheck(s, store, reply);
      DirectCheckEffects(s, store, reply);
    } else if Truthy(s.apiKey) {
      assert r == KeyedCheck(s, store, now, reply);
      KeyedCheckEffects(s, store, now, reply);
    } else if CachedKeyUsable(s, store, now) {
      assert r == CachedCheck(s, store, reply, draws);
      CachedCheckOverlay(s, store, reply, draws);
    } else {
      assert r == IssueKey(s, store, [], draws);
      assert r.effects[0] in r.effects && r.effects[0].DisplayOverlay?;
    }
  }

  /** The inputs of one call. */
  datatype Attempt = Attempt(now: int, reply: ProbeReply, draws: seq<Guid.Draw>)

  predicate WellFormed(attempts: seq<Attempt>)
  {
    forall i :: 0 <= i < |attempts| ==> |attempts[i].draws| == 8
  }

  /** Where a run of calls leaves the plugin: state, probes left registered,
      and all effects in order. */
  datatype Trace = Trace(ready: bool, settings: Settings, store: Store, leaked: nat, effects: seq<Effect>)

  /** Consecutive calls of `checkAIReady`, each a retry or a new page;
      `leaked` counts the probe conversations left registered. */
  function Run(ready: bool, s: Settings, store: Store, attempts: seq<Attempt>): (t: Trace)
    requires WellFormed(attempts)
    // Once ready, the plugin stays ready.
    ensures ready ==> t.ready
    // Each call leaves at most one probe behind.
    ensures t.leaked <= |attempts|
    decreases |attempts|
  {
    if attempts == [] then Trace(ready, s, store, 0, [])
    else
      var a := attempts[0];
      WellFormedTail(attempts);
      var step := ReadyStep(ready, s, store, a.now, a.reply, a.draws);
      var rest := Run(step.ready, step.settings, step.store, attempts[1..]);
      Trace(rest.ready, rest.settings, rest.store,
            rest.leaked + (if step.keepsProbe then 1 else 0), step.effects + rest.effects)
  }

  /** Every call after the first has its eight draws too. */
  lemma WellFormedTail(attempts: seq<Attempt>)
    requires WellFormed(attempts) && attempts != []
    ensures WellFormed(attempts[1..])
  {
    forall i | 0 <= i < |attempts| - 1 ensures |attempts[1..][i].draws| == 8 {
      assert attempts[1..][i] == attempts[i + 1];
    }
  }

  /** However many times `checkAIReady` runs, "openai:ready" fires once at most:
      exactly once if the plugin became ready during the run, never if it
      already was; and a run that starts ready changes nothing. */
  lemma {:induction false} RunNotifiesOnce(ready: bool, s: Settings, store: Store, attempts: seq<Attempt>)
    requires WellFormed(attempts)
    ensures ready ==> Run(ready, s, store, attempts) == Trace(true, s, store, 0, [])
    ensures var t := Run(ready, s, store, attempts);
      Notifications(t.effects) == (if !ready && t.ready then 1 else 0)
    decreases |attempts|
  {
    if attempts != [] {
      var a := attempts[0];
      var step := ReadyStep(ready, s, store, a.now, a.reply, a.draws);
      WellFormedTail(attempts);
      RunNotifiesOnce(step.ready, step.settings, step.store, attempts[1..]);
      ReadyStepEffects(ready, s, store, a.now, a.reply, a.draws);
      var t := Run(step.ready, step.settings, step.store, attempts[1..]);
      assert multiset(step.effects + t.effects) == multiset(step.effects) + multiset(t.effects);
    }
  }

  /** Readiness within a run needs some probe answered with 200. */
  lemma {:induction false} RunReadyNeedsOk(ready: bool, s: Settings, store: Store, attempts: seq<Attempt>)
    requires WellFormed(attempts)
    ensures Run(ready, s, store, attempts).ready && !ready ==>
      exists i :: 0 <= i < |attempts| && IsOk(attempts[i].reply)
    decreases |attempts|
  {
    if attempts != [] {
      var a := attempts[0];
      var step := ReadyStep(ready, s, store, a.now, a.reply, a.draws);
      WellFormedTail(attempts);
      RunReadyNeedsOk(step.ready, step.settings, step.store, attempts[1..]);
      if Run(ready, s, store, attempts).ready && !ready && !step.ready {
        var i :| 0 <= i < |attempts| - 1 && IsOk(attempts[1..][i].reply);
        assert attempts[i + 1] == attempts[1..][i];
      }
    }
  }

  /** Over a run the configuration changes in its key alone, and probe
      conversations are left registered only in proxy mode, one per call at most. */
  lemma {:induction false} RunKeepsMode(ready: bool, s: Settings, store: Store, attempts: seq<Attempt>)
    requires WellFormed(attempts)
    ensures var t := Run(ready, s, store, attempts);
      t.settings == s.(apiKey := t.settings.apiKey) &&
      t.leaked <= |attempts| && (t.leaked > 0 ==> ProxyMode(s))
    decreases |attempts|
  {
    if attempts != [] {
      var a := attempts[0];
      var step := ReadyStep(ready, s, store, a.now, a.reply, a.draws);
      WellFormedTail(attempts);
      RunKeepsMode(step.ready, step.settings, step.store, attempts[1..]);
      assert ProxyMode(step.settings) == ProxyMode(s);
    }
  }

  /** Each refused call with a configured key in proxy mode leaves its probe
      registered, so n such calls leak n probes; the plugin stays unready
      with its key and store as they were. */
  lemma {:induction false} RunLeaksEachRefusal(s: Settings, store: Store, attempts: seq<Attempt>)
    requires WellFormed(attempts) && ProxyMode(s) && Truthy(s.apiKey)
    requires forall i :: 0 <= i < |attempts| ==> IsRefused(attempts[i].reply)
    ensures var t := Run(false, s, store, attempts);
      t.leaked == |attempts| && !t.ready && t.settings == s && t.store == store
    decreases |attempts|
  {
    if attempts != [] {
      var a := attempts[0];
      assert IsRefused(a.reply);
      var step := ReadyStep(false, s, store, a.now, a.reply, a.draws);
      assert step == KeyedCheck(s, store, a.now, a.reply);
      WellFormedTail(attempts);
      forall i | 0 <= i < |attempts| - 1 ensures IsRefused(attempts[1..][i].reply) {
        assert attempts[1..][i] == attempts[i + 1];
      }
      RunLeaksEachRefusal(s, store, attempts[1..]);
    }
  }

  /** The proxy branch as the code writes it: three `if`s in a row, each
      testing the configuration and store the previous one left. A branch
      that returns (ready, or a caught error) ends the call; a refused
      configured key falls through after scheduling its retry, and a refused
      cached key after clearing the key. */
  function InOrderProxyCheck(s: Settings, store: Store, now: int, reply: ProbeReply,
                             draws: seq<Guid.Draw>): Step
    requires |draws| == 8
  {
    var start := Step(false, s, store, false, [], Pending);
    // if (this.config.apiKey)
    var first := if Truthy(start.settings.apiKey) then KeyedCheck(start.settings, start.store, now, reply)
                 else start;
    if first.outcome != Pending then first
    else
      // if (!this.config.apiKey && localStorage.getItem('apiKey') && ... > Date.now())
      var second :=
        if !Truthy(first.settings.apiKey) && Truthy(first.store.apiKey) && StoredExpiration(first.store) > now then
          var adopted := first.settings.(apiKey := first.store.apiKey);
          match ProbeResult(reply)
          case Err(message) => Step(false, adopted, first.store, false, [ProbeOf(adopted)], Failed(message))
          case Ok(status) =>
            if status.code == 200 then
              Step(true, adopted, first.store, false, [ProbeOf(adopted), NotifyReady], Ready)
            else
              Step(false, adopted.(apiKey := None), Store(None, None), false, [ProbeOf(adopted)], Pending)
        else first;
      if second.outcome != Pending then second
      // if (!this.config.apiKey)
      else if !Truthy(second.settings.apiKey) then IssueKey(second.settings, second.store, second.effects, draws)
      else second
  }

  /** The three `if`s in a row amount to the three-way choice of `ProxyCheck`:
      once one branch has run, the later tests are false or the call has
      returned. */
  lemma InOrderProxyCheckIsProxyCheck(s: Settings, store: Store, now: int, reply: ProbeReply,
                                      draws: seq<Guid.Draw>)
    requires |draws| == 8
    ensures InOrderProxyCheck(s, store, now, reply, draws) == ProxyCheck(s, store, now, reply, draws)
  {
  }
}
