/**
 * The bot itself (gtsr/api.go and gtsr/conversations.go): plugin
 * registration, the sorted list of conversation topics, routing of inbound
 * message events, the fan-out of channel messages to plugins, the per-user DM
 * table, and the per-user conversation table.
 *
 * Panics that the source raises on purpose are `Fatal` statuses; panics
 * from an unchecked index or a nil entry are outcomes of their own. In both
 * cases the state is the one reached when the panic happens.
 */
module Bot {
  import opened Wrappers
  import opened Collation
  import opened Messaging
  import opened Handler

  /** First character of a direct-message channel ID. */
  const DmPrefix: char := 'D'
  /** First character of a public channel ID. */
  const ChannelPrefix: char := 'C'

  const RunningPanic: string := "Register plugins before starting the Slack Bot"
  const TopicPanic: string := "Can't load multiple plugins that use the same conversation label"
  const CronPanic: string := "Can't load multiple plugins that use the same cron ID"
  const AlreadyRunningPanic: string :=
    "There is already an instance of this Slack Bot running! Create a new instance to run two concurrently!"

  /** Opaque reference to a plugin-supplied action (a Go func value). */
  type ActionRef = nat

  datatype User = User(id: string, name: string)
  datatype Channel = Channel(id: string, name: string)

  datatype ConvoTopic = ConvoTopic(id: string, labelText: string, action: ActionRef)
  datatype CronJob = CronJob(id: string, name: string, spec: string, action: ActionRef)

  datatype PluginConfig = PluginConfig(
    name: string,
    description: string,
    version: string,
    featureConvo: bool,
    topics: seq<ConvoTopic>,
    featureCron: bool,
    jobs: seq<CronJob>)

  /** A plugin, identified by `handle`; `config` is what its `Init()` returns. */
  datatype Plugin = Plugin(handle: nat, config: PluginConfig)

  function TopicKey(t: ConvoTopic): string { t.labelText }
  function JobKey(j: CronJob): string { j.id }

  // ---------------------------------------------------------------------
  // Registration of topics and jobs

  /**
   * The result of storing a list of values into a map under their keys, one
   * after the other: either all went in, or the key that was already present,
   * with the map as it stood at that moment.
   */
  datatype Insertion<V> = Inserted(m: map<string, V>) | Collided(m: map<string, V>, key: string)

  /** The keys of `vs` are pairwise distinct and none is already in `m`. */
  predicate FreshKeys<V>(m: map<string, V>, vs: seq<V>, key: V -> string)
  {
    && (forall i :: 0 <= i < |vs| ==> key(vs[i]) !in m)
    && (forall i, j :: 0 <= i < j < |vs| ==> key(vs[i]) != key(vs[j]))
  }

  /** The registration loop of `AddPlugin` for topics (by label) or jobs (by ID). */
  function InsertAll<V>(m: map<string, V>, vs: seq<V>, key: V -> string): (r: Insertion<V>)
    ensures forall k :: k in m ==> k in r.m && r.m[k] == m[k]
    ensures r.Collided? ==> r.key in r.m && exists i :: 0 <= i < |vs| && key(vs[i]) == r.key
    decreases |vs|
  {
    if |vs| == 0 then Inserted(m)
    else if key(vs[0]) in m then Collided(m, key(vs[0]))
    else InsertAll(m[key(vs[0]) := vs[0]], vs[1..], key)
  }

  /** The loop completes exactly when no key collides, with the map or within the list. */
  lemma {:induction false} InsertAllSucceedsIff<V>(m: map<string, V>, vs: seq<V>, key: V -> string)
    ensures InsertAll(m, vs, key).Inserted? <==> FreshKeys(m, vs, key)
    decreases |vs|
  {
    if |vs| > 0 && key(vs[0]) !in m {
      var m' := m[key(vs[0]) := vs[0]];
      InsertAllSucceedsIff(m', vs[1..], key);
      if FreshKeys(m', vs[1..], key) {
        forall i, j | 0 <= i < j < |vs|
          ensures key(vs[i]) != key(vs[j])
        {
          if i > 0 {
            assert key(vs[1..][i - 1]) != key(vs[1..][j - 1]);
          } else {
            assert key(vs[1..][j - 1]) !in m';
          }
        }
      }
      if FreshKeys(m, vs, key) {
        forall i | 0 <= i < |vs[1..]|
          ensures key(vs[1..][i]) !in m'
        {
          assert vs[1..][i] == vs[i + 1];
          assert key(vs[0]) != key(vs[i + 1]);
        }
        forall i, j | 0 <= i < j < |vs[1..]|
          ensures key(vs[1..][i]) != key(vs[1..][j])
        {
          assert key(vs[i + 1]) != key(vs[j + 1]);
        }
      }
    }
  }

  /**
   * A successful loop stores every value under its key, keeps every earlier
   * entry, and adds nothing else.
   */
  lemma {:induction false} InsertAllContents<V>(m: map<string, V>, vs: seq<V>, key: V -> string)
    requires FreshKeys(m, vs, key)
    ensures InsertAll(m, vs, key).Inserted?
    ensures var r := InsertAll(m, vs, key).m;
      && r.Keys == m.Keys + (set i | 0 <= i < |vs| :: key(vs[i]))
      && (forall k :: k in m ==> r[k] == m[k])
      && (forall i :: 0 <= i < |vs| ==> r[key(vs[i])] == vs[i])
    decreases |vs|
  {
    InsertAllSucceedsIff(m, vs, key);
    if |vs| > 0 {
      var m' := m[key(vs[0]) := vs[0]];
      assert FreshKeys(m', vs[1..], key) by {
        InsertAllSucceedsIff(m', vs[1..], key);
      }
      InsertAllContents(m', vs[1..], key);
      var r := InsertAll(m, vs, key).m;
      assert r == InsertAll(m', vs[1..], key).m;
      assert (set i | 0 <= i < |vs| :: key(vs[i])) == {key(vs[0])} + (set i | 0 <= i < |vs[1..]| :: key(vs[1..][i])) by {
        forall i | 0 <= i < |vs| && i > 0
          ensures key(vs[i]) in (set i | 0 <= i < |vs[1..]| :: key(vs[1..][i]))
        {
          assert vs[1..][i - 1] == vs[i];
        }
      }
      forall i | 0 <= i < |vs|
        ensures r[key(vs[i])] == vs[i]
      {
        if i > 0 {
          assert vs[1..][i - 1] == vs[i];
        }
      }
    }
  }

  /**
   * A collision leaves in the map exactly what the values before the
   * colliding one put there: the loop over that prefix succeeds with the same
   * map, and the reported key is the colliding value's.
   */
  lemma {:induction false} CollisionKeepsPrefix<V>(m: map<string, V>, vs: seq<V>, key: V -> string)
    requires InsertAll(m, vs, key).Collided?
    ensures var r := InsertAll(m, vs, key);
      exists j :: 0 <= j < |vs| && InsertAll(m, vs[..j], key) == Inserted(r.m)
        && r.key == key(vs[j]) && r.key in r.m
    decreases |vs|
  {
    var r := InsertAll(m, vs, key);
    if key(vs[0]) in m {
      assert InsertAll(m, vs[..0], key) == Inserted(r.m);
    } else {
      var m' := m[key(vs[0]) := vs[0]];
      CollisionKeepsPrefix(m', vs[1..], key);
      var j' :| 0 <= j' < |vs[1..]| && InsertAll(m', vs[1..][..j'], key) == Inserted(r.m)
        && r.key == key(vs[1..][j']) && r.key in r.m;
      assert vs[..j' + 1][1..] == vs[1..][..j'];
      assert InsertAll(m, vs[..j' + 1], key) == Inserted(r.m);
    }
  }

  /** The three registries `AddPlugin` updates. */
  datatype Registry = Registry(topics: map<string, ConvoTopic>, crons: map<string, CronJob>, plugins: seq<Plugin>)

  /**
   * `AddPlugin(plugin)` on a registry: the new registry and the status.
   * Topics are registered before jobs; a panic stops everything after it.
   */
  function AddPluginResult(running: bool, reg: Registry, plugin: Plugin): (r: (Registry, Status))
    ensures running ==> r == (reg, Fatal(RunningPanic))
    ensures r.1 == Done ==> r.0.plugins == reg.plugins + [plugin]
    ensures r.1 != Done ==> r.0.plugins == reg.plugins
    ensures r.1 in {Done, Fatal(RunningPanic), Fatal(TopicPanic), Fatal(CronPanic)}
    ensures !plugin.config.featureConvo ==> r.0.topics == reg.topics
    ensures !plugin.config.featureCron || r.1 == Fatal(TopicPanic) ==> r.0.crons == reg.crons
  {
    if running then (reg, Fatal(RunningPanic))
    else
      var c := plugin.config;
      var t := if c.featureConvo then InsertAll(reg.topics, c.topics, TopicKey) else Inserted(reg.topics);
      if t.Collided? then (reg.(topics := t.m), Fatal(TopicPanic))
      else
        var j := if c.featureCron then InsertAll(reg.crons, c.jobs, JobKey) else Inserted(reg.crons);
        if j.Collided? then (Registry(t.m, j.m, reg.plugins), Fatal(CronPanic))
        else (Registry(t.m, j.m, reg.plugins + [plugin]), Done)
  }

  /**
   * Registration succeeds exactly when the bot is not running and every
   * enabled feature brings labels (or IDs) that are new and distinct.
   */
  lemma AddPluginSucceedsIff(running: bool, reg: Registry, plugin: Plugin)
    ensures var c := plugin.config;
      AddPluginResult(running, reg, plugin).1 == Done <==>
        && !running
        && (c.featureConvo ==> FreshKeys(reg.topics, c.topics, TopicKey))
        && (c.featureCron ==> FreshKeys(reg.crons, c.jobs, JobKey))
  {
    var c := plugin.config;
    InsertAllSucceedsIff(reg.topics, c.topics, TopicKey);
    InsertAllSucceedsIff(reg.crons, c.jobs, JobKey);
  }

  /**
   * After a successful registration each of the plugin's topics is stored
   * under its label (when conversations are enabled); earlier topics are kept
   * and nothing else is added.
   */
  lemma AddPluginStoresTopics(running: bool, reg: Registry, plugin: Plugin)
    requires AddPluginResult(running, reg, plugin).1 == Done
    ensures var c := plugin.config;
      var r := AddPluginResult(running, reg, plugin).0;
      && (forall k :: k in reg.topics ==> k in r.topics && r.topics[k] == reg.topics[k])
      && r.topics.Keys == reg.topics.Keys + (if c.featureConvo then set i | 0 <= i < |c.topics| :: c.topics[i].labelText else {})
      && (c.featureConvo ==> forall i :: 0 <= i < |c.topics| ==> r.topics[c.topics[i].labelText] == c.topics[i])
  {
    var c := plugin.config;
    AddPluginSucceedsIff(running, reg, plugin);
    if c.featureConvo {
      InsertAllContents(reg.topics, c.topics, TopicKey);
    }
  }

  /**
   * After a successful registration each of the plugin's jobs is stored under
   * its ID (when cron jobs are enabled); earlier jobs are kept and nothing
   * else is added.
   */
  lemma AddPluginStoresJobs(running: bool, reg: Registry, plugin: Plugin)
    requires AddPluginResult(running, reg, plugin).1 == Done
    ensures var c := plugin.config;
      var r := AddPluginResult(running, reg, plugin).0;
      && (forall k :: k in reg.crons ==> k in r.crons && r.crons[k] == reg.crons[k])
      && r.crons.Keys == reg.crons.Keys + (if c.featureCron then set i | 0 <= i < |c.jobs| :: c.jobs[i].id else {})
      && (c.featureCron ==> forall i :: 0 <= i < |c.jobs| ==> r.crons[c.jobs[i].id] == c.jobs[i])
  {
    var c := plugin.config;
    AddPluginSucceedsIff(running, reg, plugin);
    if c.featureCron {
      InsertAllContents(reg.crons, c.jobs, JobKey);
    }
  }

  /**
   * A topic-label collision is fatal, the plugin is not appended, and the
   * topics stored before the colliding one stay in the map.
   */
  lemma TopicCollisionKeepsEarlierTopics(running: bool, reg: Registry, plugin: Plugin)
    requires AddPluginResult(running, reg, plugin).1 == Fatal(TopicPanic)
    ensures var c := plugin.config;
      var r := AddPluginResult(running, reg, plugin).0;
      && r.plugins == reg.plugins && r.crons == reg.crons
      && exists j :: 0 <= j < |c.topics| && InsertAll(reg.topics, c.topics[..j], TopicKey) == Inserted(r.topics)
           && c.topics[j].labelText in r.topics
  {
    CollisionKeepsPrefix(reg.topics, plugin.config.topics, TopicKey);
  }

  /**
   * Two plugins cannot share a conversation label: once the first is
   * registered, registering the second is fatal and does not append it.
   */
  lemma SharedLabelIsFatal(reg: Registry, p1: Plugin, p2: Plugin, i: nat, j: nat)
    requires AddPluginResult(false, reg, p1).1 == Done
    requires p1.config.featureConvo && p2.config.featureConvo
    requires i < |p1.config.topics| && j < |p2.config.topics|
    requires p1.config.topics[i].labelText == p2.config.topics[j].labelText
    ensures var reg1 := AddPluginResult(false, reg, p1).0;
      && AddPluginResult(false, reg1, p2).1 == Fatal(TopicPanic)
      && AddPluginResult(false, reg1, p2).0.plugins == reg.plugins + [p1]
  {
    var reg1 := AddPluginResult(false, reg, p1).0;
    AddPluginStoresTopics(false, reg, p1);
    assert TopicKey(p2.config.topics[j]) in reg1.topics;
    InsertAllSucceedsIff(reg1.topics, p2.config.topics, TopicKey);
  }

  // ---------------------------------------------------------------------
  // Routing of inbound message events

  /** An inbound `slack.MessageEvent`, reduced to what the bot reads. */
  datatype MessageEvent = MessageEvent(user: string, channel: string, text: string, timestamp: string, threadTimestamp: string)

  /** The message handed to plugins (`IncomingMessage`). */
  datatype IncomingMessage = IncomingMessage(text: string, channel: string, timestamp: string)

  /**
   * What the `MessageEvent` branch of `ServeSlack` does: skip the event, fan
   * it out to the plugins, dispatch it as a conversation, do nothing for any
   * other channel kind, or crash indexing an empty channel ID.
   */
  datatype Route = Skipped | ToPlugins | ToConversation | Unrouted | ChannelIndexPanic

  /** `selfId` is the bot's own user ID (`rtm.GetInfo().User.ID`). */
  function RouteMessage(ev: MessageEvent, selfId: string): (r: Route)
    ensures r == Skipped <==> ev.user == selfId || ev.threadTimestamp != ""
    ensures r == ChannelIndexPanic <==> r != Skipped && ev.channel == ""
    ensures r == ToPlugins <==> r != Skipped && ev.channel != "" && ev.channel[0] == ChannelPrefix
    ensures r == ToConversation <==> r != Skipped && ev.channel != "" && ev.channel[0] == DmPrefix
  {
    if ev.user == selfId then Skipped
    else if ev.threadTimestamp != "" then Skipped
    else if |ev.channel| == 0 then ChannelIndexPanic
    else if ev.channel[0] == ChannelPrefix then ToPlugins
    else if ev.channel[0] == DmPrefix then ToConversation
    else Unrouted
  }

  /** One call of a plugin's `ParseMessage`, with the error it returned (logged). */
  datatype Invocation = Invocation(plugin: Plugin, err: Option<string>)

  /**
   * `parseMessage`: a nil-channel panic when the channel is unknown, or the
   * message, the scoped messenger, and the calls made.
   */
  datatype FanOut = UnknownChannelPanic | Delivered(msg: IncomingMessage, messenger: Messenger, calls: seq<Invocation>)

  /** `dispatchConversation`: a nil-user panic, or the prompt sent to `user`. */
  datatype Dispatch = UnknownDmPanic | Prompted(user: string, request: PostRequest)

  /** The result of handling one `MessageEvent`. */
  datatype EventHandling =
    | NotHandled(route: Route)
    | FannedOut(fanOut: FanOut)
    | Dispatched(dispatch: Dispatch)

  // ---------------------------------------------------------------------
  // Per-user state

  /** A user's conversation: whether one is in progress, and its messenger. */
  datatype Conversation = Conversation(inConversation: bool, messenger: Messenger)

  /** A user's DM state: the current conversation and the queue behind it. */
  datatype DirectMessage = DirectMessage(current: Option<Conversation>, queue: seq<Conversation>)

  /** The entry `initDms` creates: no current conversation, an empty queue. */
  const IdleDm: DirectMessage := DirectMessage(None, [])

  /** The conversation `newConversation(user)` creates. */
  function NewConversationFor(gm: GlobalMessenger, user: string): (c: Conversation)
    ensures !c.inConversation
    ensures c.messenger.Channel() == "@" + user && c.messenger.global == gm
  {
    Conversation(false, gm.Scope("@" + user))
  }

  /** The conversation table after the get-or-create step of `dispatchConversation`. */
  function WithConversation(convs: map<string, Conversation>, gm: GlobalMessenger, user: string): (r: map<string, Conversation>)
    ensures r.Keys == convs.Keys + {user}
    ensures forall u :: u in convs ==> r[u] == convs[u]
    ensures user !in convs ==> r[user] == NewConversationFor(gm, user)
  {
    if user in convs then convs else convs[user := NewConversationFor(gm, user)]
  }

  /** Get-or-create is idempotent: a second dispatch for the same user changes nothing. */
  lemma WithConversationIdempotent(convs: map<string, Conversation>, gm: GlobalMessenger, user: string)
    ensures WithConversation(WithConversation(convs, gm, user), gm, user) == WithConversation(convs, gm, user)
  {
  }

  const PromptText: string := "test"
  const PromptLabel: string := "How can I help?"
  const PromptOptions: seq<string> := ["abc", "xyz"]

  /** The single dropdown of the prompt `dispatchConversation` sends. */
  const PromptDropdown: AttachmentAction :=
    AttachmentAction(PromptLabel, PromptLabel, SelectType, "",
                     [ActionOption("abc", "abc"), ActionOption("xyz", "xyz")], [])

  /** The bot: its registries, directory snapshots and per-user tables. */
  class SlackBot {
    const token: string
    const gm: GlobalMessenger
    /** The callback registry that api.go attaches to the global messenger. */
    const listener: CallbackListener

    var running: bool

    var users: map<string, User>
    var channels: map<string, Channel>
    /**
     * IM channel ID to user (read as `sb.dms` by conversations.go). An entry
     * is `None` when `fetchIMs` found no user with the IM's user ID and stored
     * a nil pointer.
     */
    var ims: map<string, Option<User>>

    var plugins: seq<Plugin>
    var topics: map<string, ConvoTopic>
    var crons: map<string, CronJob>

    /** User name to DM state (`gm.dms` in api.go). */
    var dms: map<string, DirectMessage>
    /** User name to conversation (`sb.converations`). */
    var conversations: map<string, Conversation>

    /** `InitSlack`: empty registries, a fresh empty callback listener. */
    constructor InitSlack(api: ApiHandle, verificationToken: string)
      ensures token == verificationToken && gm == GlobalMessenger(api)
      ensures fresh(listener) && listener.callbacks == map[]
      ensures !running && plugins == [] && topics == map[] && crons == map[]
      ensures users == map[] && channels == map[] && ims == map[]
      ensures dms == map[] && conversations == map[]
    {
      token := verificationToken;
      gm := GlobalMessenger(api);
      listener := new CallbackListener();
      running := false;
      users, channels, ims := map[], map[], map[];
      plugins, topics, crons := [], map[], map[];
      dms, conversations := map[], map[];
    }

    /** The start of `ServeSlack`: a second start is fatal. */
    method StartServing() returns (status: Status)
      modifies this`running
      ensures status == Done <==> !old(running)
      ensures status != Done ==> status == Fatal(AlreadyRunningPanic)
      ensures running
    {
      if running {
        return Fatal(AlreadyRunningPanic);
      }
      running := true;
      status := Done;
    }

    /** `AddPlugin`, with the state reached if it panics. */
    method AddPlugin(plugin: Plugin) returns (status: Status)
      modifies this`topics, this`crons, this`plugins
      ensures (Registry(topics, crons, plugins), status)
        == AddPluginResult(running, Registry(old(topics), old(crons), old(plugins)), plugin)
    {
      if running {
        return Fatal(RunningPanic);
      }
      var config := plugin.config;
      if config.featureConvo {
        var i := 0;
        while i < |config.topics|
          invariant 0 <= i <= |config.topics|
          invariant InsertAll(old(topics), config.topics, TopicKey) == InsertAll(topics, config.topics[i..], TopicKey)
          invariant crons == old(crons) && plugins == old(plugins)
        {
          var topic := config.topics[i];
          assert config.topics[i..][0] == topic && config.topics[i..][1..] == config.topics[i + 1..];
          if topic.labelText in topics {
            return Fatal(TopicPanic);
          }
          topics := topics[topic.labelText := topic];
          i := i + 1;
        }
      }
      if config.featureCron {
        var i := 0;
        while i < |config.jobs|
          invariant 0 <= i <= |config.jobs|
          invariant InsertAll(old(crons), config.jobs, JobKey) == InsertAll(crons, config.jobs[i..], JobKey)
          invariant config.featureConvo ==> topics == InsertAll(old(topics), config.topics, TopicKey).m
          invariant !config.featureConvo ==> topics == old(topics)
          invariant plugins == old(plugins)
        {
          var job := config.jobs[i];
          assert config.jobs[i..][0] == job && config.jobs[i..][1..] == config.jobs[i + 1..];
          if job.id in crons {
            return Fatal(CronPanic);
          }
          crons := crons[job.id := job];
          i := i + 1;
        }
      }
      plugins := plugins + [plugin];
      status := Done;
    }

    /** Every topic label exactly once, in ascending order. */
    method SortedConvoTopics() returns (labels: seq<string>)
      ensures multiset(labels) == multiset(topics.Keys)
      ensures StrictlyAscending(labels)
    {
      var collected: seq<string> := [];
      var rest := topics.Keys;
      while rest != {}
        invariant rest <= topics.Keys
        invariant multiset(collected) + multiset(rest) == multiset(topics.Keys)
        decreases rest
      {
        var k :| k in rest;
        collected := collected + [k];
        rest := rest - {k};
      }
      var a := new string[|collected|](i requires 0 <= i < |collected| => collected[i]);
      assert a[..] == collected;
      SortStrings(a);
      labels := a[..];
      assert multiset(labels) == multiset(topics.Keys);
      forall x
        ensures multiset(labels)[x] <= 1
      {
      }
      SortedUniqueIsStrict(labels);
    }

    /**
     * What `parseMessage` promises for `ev`: an unknown channel is the nil
     * channel panic; otherwise one call per plugin, in registration order,
     * each with the same message and channel-scoped messenger.
     */
    predicate FannedOutAs(ev: MessageEvent, parse: (Plugin, IncomingMessage, Messenger) -> Option<string>, r: FanOut)
      reads this
    {
      && (r == UnknownChannelPanic <==> ev.channel !in channels)
      && (r.Delivered? ==>
            && ev.channel in channels
            && r.msg == IncomingMessage(ev.text, ev.channel, ev.timestamp)
            && r.messenger == gm.Scope(channels[ev.channel].name)
            && |r.calls| == |plugins|
            && forall i :: 0 <= i < |plugins| ==> r.calls[i] == Invocation(plugins[i], parse(plugins[i], r.msg, r.messenger)))
    }

    /**
     * `parseMessage`: every plugin's `ParseMessage` is called once, in
     * registration order, with the same message and channel-scoped messenger;
     * an error is logged and the loop goes on. `parse` stands for the plugins'
     * own code.
     */
    method ParseMessage(ev: MessageEvent, parse: (Plugin, IncomingMessage, Messenger) -> Option<string>) returns (r: FanOut)
      ensures FannedOutAs(ev, parse, r)
    {
      if ev.channel !in channels {
        return UnknownChannelPanic;
      }
      var channel := channels[ev.channel];
      var scoped := gm.Scope(channel.name);
      var msg := IncomingMessage(ev.text, ev.channel, ev.timestamp);
      var calls: seq<Invocation> := [];
      var i := 0;
      while i < |plugins|
        invariant 0 <= i <= |plugins|
        invariant |calls| == i
        invariant forall k :: 0 <= k < i ==> calls[k] == Invocation(plugins[k], parse(plugins[k], msg, scoped))
      {
        var err := parse(plugins[i], msg, scoped);
        calls := calls + [Invocation(plugins[i], err)];
        i := i + 1;
      }
      r := Delivered(msg, scoped, calls);
    }

    /**
     * `initDms`: afterwards every user name has a DM entry; existing entries
     * are kept and each new one is idle.
     */
    method InitDms()
      modifies this`dms
      ensures forall u :: u in users.Values ==> u.name in dms
      ensures forall n :: n in old(dms) ==> n in dms && dms[n] == old(dms)[n]
      ensures forall n :: n in dms && n !in old(dms) ==>
        dms[n] == IdleDm && exists u :: u in users.Values && u.name == n
    {
      var rest := users.Values;
      while rest != {}
        invariant rest <= users.Values
        invariant forall u :: u in users.Values && u !in rest ==> u.name in dms
        invariant forall n :: n in old(dms) ==> n in dms && dms[n] == old(dms)[n]
        invariant forall n :: n in dms && n !in old(dms) ==>
          dms[n] == IdleDm && exists u :: u in users.Values && u.name == n
        decreases rest
      {
        var user :| user in rest;
        if user.name !in dms {
          dms := dms[user.name := IdleDm];
        }
        rest := rest - {user};
      }
    }

    /** `newConversation`: `user` now maps to a fresh, idle conversation. */
    method NewConversation(user: string)
      modifies this`conversations
      ensures conversations == old(conversations)[user := NewConversationFor(gm, user)]
    {
      conversations := conversations[user := NewConversationFor(gm, user)];
    }

    /**
     * What `dispatchConversation` promises for `ev`, taking the conversation
     * table from `before` to `after`: an IM channel that is unknown or maps to
     * a nil user is the nil-user panic and changes nothing; otherwise the
     * sender's conversation is got or created and the topic prompt goes to its
     * channel.
     */
    predicate PromptedAs(ev: MessageEvent, before: map<string, Conversation>, after: map<string, Conversation>, r: Dispatch)
      reads this
    {
      if ev.channel !in ims || ims[ev.channel].None? then
        r == UnknownDmPanic && after == before
      else
        && r.Prompted?
        && r.user == ims[ev.channel].value.name
        && after == WithConversation(before, gm, r.user)
        && r.request.api == after[r.user].messenger.global.api
        && r.request.channel == after[r.user].messenger.Channel()
        && r.request.text == PromptText
        && r.request.params.asUser
        && |r.request.params.attachments| == 1
        && r.request.params.attachments[0].actions == [PromptDropdown]
        && IsCallbackId(r.request.params.attachments[0].callbackId)
    }

    /**
     * `dispatchConversation`: get or create the sender's conversation, then
     * send the topic prompt through its messenger.
     */
    method DispatchConversation(ev: MessageEvent) returns (r: Dispatch)
      modifies this`conversations
      ensures PromptedAs(ev, old(conversations), conversations, r)
    {
      if ev.channel !in ims || ims[ev.channel].None? {
        return UnknownDmPanic;
      }
      var user := ims[ev.channel].value.name;
      if user !in conversations {
        NewConversation(user);
      }
      var msg := conversations[user].messenger.NewMessage(PromptText);
      msg.AddDropdown(PromptLabel, PromptOptions);
      assert msg.actions[0].options == PromptDropdown.options;
      assert msg.actions == [PromptDropdown];
      var req := msg.Send();
      r := Prompted(user, req);
    }

    /**
     * The `MessageEvent` branch of `ServeSlack`: a `'C'` channel triggers
     * exactly the plugin fan-out, a `'D'` channel exactly the conversation
     * dispatch, and anything else neither.
     */
    method HandleMessageEvent(ev: MessageEvent, selfId: string, parse: (Plugin, IncomingMessage, Messenger) -> Option<string>)
      returns (h: EventHandling)
      modifies this`conversations
      ensures var route := RouteMessage(ev, selfId);
        && (route == ToPlugins <==> h.FannedOut?)
        && (route == ToConversation <==> h.Dispatched?)
        && (route !in {ToPlugins, ToConversation} ==> h == NotHandled(route))
        && (route != ToConversation ==> conversations == old(conversations))
      ensures h.FannedOut? ==> FannedOutAs(ev, parse, h.fanOut)
      ensures h.Dispatched? ==> PromptedAs(ev, old(conversations), conversations, h.dispatch)
    {
      var route := RouteMessage(ev, selfId);
      if route == ToPlugins {
        var fanOut := ParseMessage(ev, parse);
        h := FannedOut(fanOut);
      } else if route == ToConversation {
        var dispatch := DispatchConversation(ev);
        h := Dispatched(dispatch);
      } else {
        h := NotHandled(route);
      }
    }

    /**
     * `interactionHandler` once the payload is decoded: the decision is taken
     * with this bot's verification token against the listener's current
     * callbacks, which it leaves as they are.
     */
    method InteractionHandler(cb: ActionCallback) returns (h: Handling)
      ensures h == Interaction(token, cb, listener.callbacks)
      ensures cb.token != token ==> h == Dropped(IllegalToken)
      ensures h.Respond? ==> cb.callbackId in listener.callbacks && h.target == listener.callbacks[cb.callbackId]
    {
      h := Interaction(token, cb, listener.callbacks);
    }
  }
}
