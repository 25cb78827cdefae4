/** `class OpenAIODI`: the plugin's single manager. It owns the configuration
    object, the `ready` flag and the registry of live conversations, and runs
    `checkAIReady`. The browser's localStorage entries are the field `store`;
    the clock, the probe's reply and the random draws are parameters. */
module Plugin {
  import opened JsValues
  import opened Conversations
  import opened Readiness
  import opened Registry
  import Guid
  import Radix

  class OpenAIODI {
    var conversations: seq<Conversation>
    var ready: bool
    const config: Config
    var store: Store

    /** The registry holds each conversation once, and all of them share the
        manager's configuration object. */
    ghost predicate Valid()
      reads this
    {
      Distinct(conversations) && forall c :: c in conversations ==> c.config == config
    }

    /** An empty registry, not ready; `config` is the `_openaiodi` object that
        the host's page-ready signal supplies. */
    constructor (config: Config, store: Store)
      ensures Valid() && conversations == [] && !ready
      ensures this.config == config && this.store == store
    {
      conversations := [];
      ready := false;
      this.config := config;
      this.store := store;
    }

    /** `createConversation`: a new conversation on the shared configuration,
        appended to the registry. `registering` says whether the source also
        starts its server registration now (only once ready); that request and
        its reply are `Conversation.SetConversationID`. */
    method CreateConversation() returns (c: Conversation, registering: bool)
      requires Valid()
      modifies this`conversations
      ensures Valid() && fresh(c) && c.config == config
      ensures c.messages == [] && c.currentBlock == EMPTY_BLOCK && c.id == None
      ensures conversations == old(conversations) + [c]
      ensures registering == ready
    {
      c := new Conversation(config);
      conversations := conversations + [c];
      registering := ready;
    }

    /** `destroyConversation`: `indexOf`, then `splice` when found. */
    method DestroyConversation(c: Conversation)
      requires Valid()
      modifies this`conversations
      ensures Valid()
      ensures conversations == RemoveFirst(old(conversations), c)
    {
      var index := IndexOf(conversations, c);
      if index != -1 {
        RemoveFirstAt(conversations, c, index);
        RemoveFirstDistinct(conversations, c);
        conversations := conversations[..index] + conversations[index + 1..];
      }
    }

    /** `checkAIReady`, statement by statement: the new flag, configuration,
        store, effects and result are those of `ReadyStep`; the probe
        conversation is gone from the registry again, except on the path where
        the code forgets to destroy it. */
    method CheckAIReady(now: int, reply: ProbeReply, draws: seq<Guid.Draw>)
      returns (outcome: Outcome, effects: seq<Effect>)
      requires Valid() && |draws| == 8
      modifies this, config
      ensures Valid()
      ensures var step := ReadyStep(old(ready), old(config.current), old(store), now, reply, draws);
        ready == step.ready && config.current == step.settings && store == step.store &&
        outcome == step.outcome && effects == step.effects
      ensures var step := ReadyStep(old(ready), old(config.current), old(store), now, reply, draws);
        if step.keepsProbe then
          |conversations| == |old(conversations)| + 1 &&
          conversations[..|old(conversations)|] == old(conversations) &&
          fresh(conversations[|old(conversations)|]) &&
          conversations[|old(conversations)|].messages == [PROBE_MESSAGE]
        else
          conversations == old(conversations)
    {
      if ready {
        return Ready, [];
      }
      var before := conversations;
      ghost var settings, stored := config.current, store;
      var probe, _ := CreateConversation();
      assert probe !in before by {
        assert Distinct(before + [probe]) && (before + [probe])[|before|] == probe;
      }
      probe.AddMessage(PROBE_MESSAGE);

      if Truthy(config.current.apiUrl) && !config.current.useClientAPIKey {
        assert ReadyStep(false, settings, stored, now, reply, draws) == DirectCheck(settings, stored, reply);
        outcome, effects := CheckDirect(probe, reply, before);
      } else if config.current.useClientAPIKey && Truthy(config.current.clientAuthServer) {
        assert ReadyStep(false, settings, stored, now, reply, draws) == ProxyCheck(settings, stored, now, reply, draws);
        outcome, effects := CheckProxy(probe, now, reply, draws, before);
      } else {
        outcome, effects := CheckMisconfigured(probe, before);
      }
    }

    /** Neither mode configured: the probe is destroyed, an error with the
        fixed 500 status is thrown, and the catch block destroys it again. */
    method CheckMisconfigured(probe: Conversation, ghost before: seq<Conversation>)
      returns (outcome: Outcome, effects: seq<Effect>)
      requires Valid() && conversations == before + [probe] && probe !in before
      modifies this`conversations
      ensures Valid() && conversations == before
      ensures outcome == Failed("Error: 500 Internal Server Error") && effects == []
    {
      RemoveFirstOfAppended(before, probe);
      DestroyConversation(probe);
      DestroyConversation(probe);  // again in the catch block, where it finds nothing
      return Failed("Error: 500 Internal Server Error"), [];
    }

    /** The direct-mode branch of `checkAIReady` (apiUrl set, no client key). */
    method CheckDirect(probe: Conversation, reply: ProbeReply, ghost before: seq<Conversation>)
      returns (outcome: Outcome, effects: seq<Effect>)
      requires Valid() && probe.config == config && probe.messages == [PROBE_MESSAGE]
      requires conversations == before + [probe] && probe !in before
      modifies this`ready, this`conversations
      ensures Valid() && conversations == before
      ensures var step := DirectCheck(config.current, store, reply);
        ready == (old(ready) || step.ready) && outcome == step.outcome && effects == step.effects
    {
      RemoveFirstOfAppended(before, probe);
      var request, response := probe.GetResponseCode(reply);
      effects := [Probe(request)];
      if response.Err? {
        DestroyConversation(probe);  // in the catch block
        return Failed(response.message), effects;
      }
      if response.value.code == 200 {
        ready := true;
        effects := effects + [NotifyReady];
        DestroyConversation(probe);
        return Ready, effects;
      }
      DestroyConversation(probe);
      DestroyConversation(probe);  // again in the catch block, where it finds nothing
      return Failed("Error: " + Radix.ToString(response.value.code, 10) + " " + response.value.text), effects;
    }

    /** The proxy-mode branch of `checkAIReady` (client key and auth server
        set). The code tests three conditions in a row; once the first holds
        the other two are false, and the second falls through to the third
        only after clearing the key, so this is a three-way choice. */
    method CheckProxy(probe: Conversation, now: int, reply: ProbeReply, draws: seq<Guid.Draw>,
                      ghost before: seq<Conversation>)
      returns (outcome: Outcome, effects: seq<Effect>)
      requires Valid() && probe.config == config && probe.messages == [PROBE_MESSAGE] && |draws| == 8
      requires conversations == before + [probe] && probe !in before
      modifies this`ready, this`conversations, this`store, config
      ensures Valid()
      ensures var step := ProxyCheck(old(config.current), old(store), now, reply, draws);
        ready == (old(ready) || step.ready) && config.current == step.settings && store == step.store &&
        outcome == step.outcome && effects == step.effects &&
        conversations == if step.keepsProbe then before + [probe] else before
    {
      if Truthy(config.current.apiKey) {
        outcome, effects := ProbeConfiguredKey(probe, now, reply, before);
      } else if Truthy(store.apiKey) && StoredExpiration(store) > now {
        outcome, effects := ProbeCachedKey(probe, reply, draws, before);
      } else {
        outcome, effects := IssueNewKey(probe, [], draws, before);
      }
    }

    /** A key in the configuration: probe with it. On 200 the key is cached
        for a day and the overlay closed; on another status a retry is
        scheduled and, as the code has it, the probe is not destroyed. */
    method ProbeConfiguredKey(probe: Conversation, now: int, reply: ProbeReply, ghost before: seq<Conversation>)
      returns (outcome: Outcome, effects: seq<Effect>)
      requires Valid() && probe.config == config && probe.messages == [PROBE_MESSAGE]
      requires conversations == before + [probe] && probe !in before
      modifies this`ready, this`conversations, this`store
      ensures Valid()
      ensures var step := KeyedCheck(config.current, old(store), now, reply);
        ready == (old(ready) || step.ready) && store == step.store &&
        outcome == step.outcome && effects == step.effects &&
        conversations == if step.keepsProbe then before + [probe] else before
    {
      RemoveFirstOfAppended(before, probe);
      var request, response := probe.GetResponseCode(reply);
      effects := [Probe(request)];
      if response.Err? {
        DestroyConversation(probe);  // in the catch block
        return Failed(response.message), effects;
      }
      if response.value.code == 200 {
        ready := true;
        effects := effects + [NotifyReady];
        store := Store(config.current.apiKey, Some(now + ONE_DAY_MS));
        effects := effects + [CloseOverlay];
        DestroyConversation(probe);
        return Ready, effects;
      }
      effects := effects + [ScheduleRetry];
      return Pending, effects;
    }

    /** No key in the configuration but an unexpired one in the store: adopt
        it into the shared configuration, so the probe carries it. If refused,
        remove both store entries and the configured key, then issue a new key. */
    method ProbeCachedKey(probe: Conversation, reply: ProbeReply, draws: seq<Guid.Draw>,
                          ghost before: seq<Conversation>)
      returns (outcome: Outcome, effects: seq<Effect>)
      requires Valid() && probe.config == config && probe.messages == [PROBE_MESSAGE] && |draws| == 8
      requires conversations == before + [probe] && probe !in before
      modifies this`ready, this`conversations, this`store, config
      ensures Valid() && conversations == before
      ensures var step := CachedCheck(old(config.current), old(store), reply, draws);
        ready == (old(ready) || step.ready) && config.current == step.settings && store == step.store &&
        outcome == step.outcome && effects == step.effects
    {
      RemoveFirstOfAppended(before, probe);
      config.current := config.current.(apiKey := store.apiKey);
      var request, response := probe.GetResponseCode(reply);
      effects := [Probe(request)];
      if response.Err? {
        DestroyConversation(probe);  // in the catch block
        return Failed(response.message), effects;
      }
      if response.value.code == 200 {
        ready := true;
        effects := effects + [NotifyReady];
        DestroyConversation(probe);
        return Ready, effects;
      }
      store := Store(None, None);
      config.current := config.current.(apiKey := None);
      outcome, effects := IssueNewKey(probe, effects, draws, before);
    }

    /** No usable key: put a fresh token into the configuration, show the
        overlay for it, destroy the probe and schedule a retry. */
    method IssueNewKey(probe: Conversation, earlier: seq<Effect>, draws: seq<Guid.Draw>,
                       ghost before: seq<Conversation>)
      returns (outcome: Outcome, effects: seq<Effect>)
      requires Valid() && |draws| == 8
      requires conversations == before + [probe] && probe !in before
      modifies this`conversations, config
      ensures Valid() && conversations == before
      ensures var step := IssueKey(old(config.current), store, earlier, draws);
        config.current == step.settings && outcome == step.outcome && effects == step.effects
    {
      RemoveFirstOfAppended(before, probe);
      var key := Guid.GenerateGuid(draws);
      config.current := config.current.(apiKey := Some(key));
      effects := earlier + [DisplayOverlay(OverlayUrl(config.current.clientAuthServer, key))];
      DestroyConversation(probe);
      effects := effects + [ScheduleRetry];
      outcome := Pending;
    }
  }
}
