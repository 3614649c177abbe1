/**
 * The subscribe command without its network and console: building the SubscribeRequest from
 * the flags, formatting a SubscribeResponse into the canonical message, the per-response
 * decision of the session's read loop, the model negotiation applied to the request, and the
 * subscription map built from the flags or the configuration file.
 */
module Subscribe {
  import opened Wrappers
  import opened Text
  import opened Gnmi
  import opened Cmd

  /** The values the subscribe command reads from its flags. */
  datatype SubscribeFlags = SubscribeFlags(
    paths: seq<string>,
    prefix: string,
    encoding: string,
    mode: string,
    streamMode: string,
    qos: uint32,
    sampleInterval: string,
    heartbeatInterval: string,
    suppressRedundant: bool,
    updatesOnly: bool)

  datatype RequestError =
    | NoPath
    | PrefixParse(reason: string)
    | InvalidEncoding(name: string)
    | InvalidListMode(name: string)
    | BadDuration(reason: string)
    | PathParse(reason: string)
    | InvalidStreamMode(name: string)

  /** The subscription-list mode is upper-cased only ("-" is not replaced). */
  function ParseListMode(s: string): (r: Option<ListMode>)
    ensures r.Some? ==> ListModeName(r.value) == ToUpper(s)
    ensures forall m :: ListModeName(m) == ToUpper(s) ==> r == Some(m)
  {
    ListModeByName(ToUpper(s))
  }

  /** The stream subscription mode is upper-cased with "-" replaced by "_". */
  function ParseStreamMode(s: string): (r: Option<SubscriptionMode>)
    ensures r.Some? ==> SubscriptionModeName(r.value) == NormalizedName(s)
    ensures forall m :: SubscriptionModeName(m) == NormalizedName(s) ==> r == Some(m)
  {
    SubscriptionModeByName(NormalizedName(s))
  }

  predicate PathParses(env: Collaborators, p: string)
  {
    env.toGnmiPath(TrimSpace(p)).Ok?
  }

  /** All the checks made before the per-path loop pass. */
  predicate Preliminaries(f: SubscribeFlags, env: Collaborators)
  {
    |f.paths| > 0 && env.toGnmiPath(f.prefix).Ok? && ParseEncoding(f.encoding).Some?
    && ParseListMode(f.mode).Some? && env.parseDuration(f.sampleInterval).Ok?
    && env.parseDuration(f.heartbeatInterval).Ok?
  }

  /** Every check of createSubscribeRequest passes. */
  predicate Acceptable(f: SubscribeFlags, env: Collaborators)
  {
    Preliminaries(f, env)
    && (forall i :: 0 <= i < |f.paths| ==> PathParses(env, f.paths[i]))
    && (ParseListMode(f.mode) == Some(Stream) ==> ParseStreamMode(f.streamMode).Some?)
  }

  /**
   * Which per-subscription fields the modes set: under ONCE and POLL none (all keep their zero
   * value); under STREAM the stream mode, and ON_CHANGE sets only the heartbeat, while SAMPLE and
   * TARGET_DEFINED set the sample interval and suppress-redundant, and the heartbeat only when
   * suppress-redundant holds. Intervals are nanosecond counts converted to uint64.
   */
  predicate FollowsModeRules(s: Subscription, mode: ListMode, stream: Option<SubscriptionMode>,
                             sample: int, heartbeat: int, suppress: bool)
  {
    (mode != Stream ==>
      s.mode == TargetDefined && s.sampleInterval == 0 && !s.suppressRedundant && s.heartbeatInterval == 0)
    && (mode == Stream ==> stream.Some? && s.mode == stream.value)
    && (mode == Stream && stream == Some(OnChange) ==>
      s.heartbeatInterval == ToUint64(heartbeat) && s.sampleInterval == 0 && !s.suppressRedundant)
    && (mode == Stream && stream.Some? && stream.value != OnChange ==>
      s.sampleInterval == ToUint64(sample) && s.suppressRedundant == suppress
      && s.heartbeatInterval == (if suppress then ToUint64(heartbeat) else 0))
  }

  /** The subscription the mode rules give for one parsed path. */
  function ModeSubscription(path: Option<Path>, mode: ListMode, stream: Option<SubscriptionMode>,
                            sample: int, heartbeat: int, suppress: bool): (sub: Subscription)
    requires mode == Stream ==> stream.Some?
  {
    if mode != Stream then Subscription(path, TargetDefined, 0, false, 0)
    else
      match stream.value
      case OnChange => Subscription(path, OnChange, 0, false, ToUint64(heartbeat))
      case _ => Subscription(path, stream.value, ToUint64(sample), suppress, if suppress then ToUint64(heartbeat) else 0)
  }

  /** The subscription built for a path keeps the path and follows the mode rules. */
  lemma ModeSubscriptionRules(path: Option<Path>, mode: ListMode, stream: Option<SubscriptionMode>,
                              sample: int, heartbeat: int, suppress: bool)
    requires mode == Stream ==> stream.Some?
    ensures ModeSubscription(path, mode, stream, sample, heartbeat, suppress).path == path
    ensures FollowsModeRules(ModeSubscription(path, mode, stream, sample, heartbeat, suppress), mode, stream, sample, heartbeat, suppress)
  {
  }

  /** The subscription built for one path in createSubscribeRequest's loop, field by field. */
  method MakeSubscription(path: Option<Path>, mode: ListMode, stream: Option<SubscriptionMode>,
                          sample: int, heartbeat: int, suppress: bool) returns (sub: Subscription)
    requires mode == Stream ==> stream.Some?
    ensures sub == ModeSubscription(path, mode, stream, sample, heartbeat, suppress)
  {
    sub := Subscription(path, TargetDefined, 0, false, 0);
    if mode == Stream {
      sub := sub.(mode := stream.value);
      match stream.value
      case OnChange =>
        sub := sub.(heartbeatInterval := ToUint64(heartbeat));
      case Sample =>
        sub := sub.(sampleInterval := ToUint64(sample), suppressRedundant := suppress);
        if sub.suppressRedundant {
          sub := sub.(heartbeatInterval := ToUint64(heartbeat));
        }
      case TargetDefined =>
        sub := sub.(sampleInterval := ToUint64(sample), suppressRedundant := suppress);
        if sub.suppressRedundant {
          sub := sub.(heartbeatInterval := ToUint64(heartbeat));
        }
    }
  }

  /** The values the checks before createSubscribeRequest's per-path loop produce. */
  datatype Settings = Settings(prefix: Option<Path>, encoding: Encoding, mode: ListMode, sample: int, heartbeat: int)

  /**
   * The checks createSubscribeRequest makes before its loop, in createSubscribeRequest's order: at least
   * one path, the prefix, the encoding, the list mode, the sample then the heartbeat interval.
   */
  function CheckFlags(f: SubscribeFlags, env: Collaborators): (r: Result<Settings, RequestError>)
    ensures |f.paths| == 0 ==> r == Err(NoPath)
    ensures |f.paths| > 0 && env.toGnmiPath(f.prefix).Err? ==> r == Err(PrefixParse(env.toGnmiPath(f.prefix).error))
    ensures |f.paths| > 0 && env.toGnmiPath(f.prefix).Ok? && ParseEncoding(f.encoding).None? ==>
      r == Err(InvalidEncoding(f.encoding))
    ensures |f.paths| > 0 && env.toGnmiPath(f.prefix).Ok? && ParseEncoding(f.encoding).Some? && ParseListMode(f.mode).None? ==>
      r == Err(InvalidListMode(f.mode))
    ensures |f.paths| > 0 && env.toGnmiPath(f.prefix).Ok? && ParseEncoding(f.encoding).Some? && ParseListMode(f.mode).Some? ==>
      && (env.parseDuration(f.sampleInterval).Err? ==> r == Err(BadDuration(env.parseDuration(f.sampleInterval).error)))
      && (env.parseDuration(f.sampleInterval).Ok? && env.parseDuration(f.heartbeatInterval).Err? ==>
            r == Err(BadDuration(env.parseDuration(f.heartbeatInterval).error)))
    ensures r.Ok? <==> Preliminaries(f, env)
    ensures r.Ok? ==> r.value == Settings(env.toGnmiPath(f.prefix).value, ParseEncoding(f.encoding).value,
      ParseListMode(f.mode).value, env.parseDuration(f.sampleInterval).value, env.parseDuration(f.heartbeatInterval).value)
  {
    if |f.paths| == 0 then Err(NoPath)
    else
      var prefix := env.toGnmiPath(f.prefix);
      if prefix.Err? then Err(PrefixParse(prefix.error))
      else
        var encoding := ParseEncoding(f.encoding);
        if encoding.None? then Err(InvalidEncoding(f.encoding))
        else
          var mode := ParseListMode(f.mode);
          if mode.None? then Err(InvalidListMode(f.mode))
          else
            var sample := env.parseDuration(f.sampleInterval);
            if sample.Err? then Err(BadDuration(sample.error))
            else
              var heartbeat := env.parseDuration(f.heartbeatInterval);
              if heartbeat.Err? then Err(BadDuration(heartbeat.error))
              else Ok(Settings(prefix.value, encoding.value, mode.value, sample.value, heartbeat.value))
  }

  /** One iteration of createSubscribeRequest's loop: the trimmed path parsed, the stream mode checked, the subscription built. */
  method SubscriptionFor(p: string, env: Collaborators, s: Settings, streamName: string,
                         stream: Option<SubscriptionMode>, suppress: bool)
    returns (r: Result<Subscription, RequestError>)
    ensures !PathParses(env, p) ==> r == Err(PathParse(env.toGnmiPath(TrimSpace(p)).error))
    ensures PathParses(env, p) && s.mode == Stream && stream.None? ==> r == Err(InvalidStreamMode(streamName))
    ensures r.Ok? <==> PathParses(env, p) && (s.mode == Stream ==> stream.Some?)
    ensures r.Ok? ==> r.value == ModeSubscription(env.toGnmiPath(TrimSpace(p)).value, s.mode, stream, s.sample, s.heartbeat, suppress)
  {
    var path := env.toGnmiPath(TrimSpace(p));
    if path.Err? {
      return Err(PathParse(path.error));
    }
    if s.mode == Stream && stream.None? {
      return Err(InvalidStreamMode(streamName));
    }
    var sub := MakeSubscription(path.value, s.mode, stream, s.sample, s.heartbeat, suppress);
    return Ok(sub);
  }

  /**
   * createSubscribeRequest's loop: each path, trimmed, parsed in order; under STREAM the stream
   * mode (`stream`, parsed from `streamName`) is checked once the first path has parsed.
   * `failedAt` is the index of the path whose parse error is returned.
   */
  method BuildSubscriptions(paths: seq<string>, env: Collaborators, s: Settings, streamName: string,
                            stream: Option<SubscriptionMode>, suppress: bool)
    returns (r: Result<seq<Subscription>, RequestError>, ghost failedAt: nat)
    ensures r.Ok? <==>
      (forall i :: 0 <= i < |paths| ==> PathParses(env, paths[i])) && (|paths| > 0 && s.mode == Stream ==> stream.Some?)
    ensures r.Err? ==> r.error.PathParse? || r.error.InvalidStreamMode?
    ensures r.Err? && r.error.PathParse? ==>
      failedAt < |paths| && env.toGnmiPath(TrimSpace(paths[failedAt])) == Err(r.error.reason)
      && forall j :: 0 <= j < failedAt ==> PathParses(env, paths[j])
    ensures r.Err? && r.error.InvalidStreamMode? ==>
      r.error.name == streamName && s.mode == Stream && stream.None? && |paths| > 0 && PathParses(env, paths[0])
    ensures |paths| > 0 && PathParses(env, paths[0]) && s.mode == Stream && stream.None? ==>
      r == Err(InvalidStreamMode(streamName))
    ensures r.Ok? ==> |r.value| == |paths|
    ensures r.Ok? ==> forall i :: 0 <= i < |paths| ==>
      r.value[i] == ModeSubscription(env.toGnmiPath(TrimSpace(paths[i])).value, s.mode, stream, s.sample, s.heartbeat, suppress)
  {
    failedAt := 0;
    var subscriptions: seq<Subscription> := [];
    var i := 0;
    while i < |paths|
      invariant 0 <= i <= |paths| && |subscriptions| == i
      invariant forall k :: 0 <= k < i ==> PathParses(env, paths[k])
      invariant i > 0 && s.mode == Stream ==> stream.Some?
      invariant forall k :: 0 <= k < i ==>
        subscriptions[k] == ModeSubscription(env.toGnmiPath(TrimSpace(paths[k])).value, s.mode, stream, s.sample, s.heartbeat, suppress)
    {
      var sub := SubscriptionFor(paths[i], env, s, streamName, stream, suppress);
      if sub.Err? {
        failedAt := i;
        return Err(sub.error), failedAt;
      }
      subscriptions := subscriptions + [sub.value];
      i := i + 1;
    }
    return Ok(subscriptions), failedAt;
  }

  /**
   * createSubscribeRequest: the flag checks, then one subscription per path. `failedAt` is the
   * index of the path whose parse error is returned.
   */
  method CreateSubscribeRequest(f: SubscribeFlags, env: Collaborators)
    returns (r: Result<SubscriptionList, RequestError>, ghost failedAt: nat)
    ensures !Preliminaries(f, env) ==> r.Err? && r == Err(CheckFlags(f, env).error)
    ensures r.Ok? <==> Acceptable(f, env)
    ensures r.Err? && Preliminaries(f, env) ==> r.error.PathParse? || r.error.InvalidStreamMode?
    ensures (Preliminaries(f, env) && PathParses(env, f.paths[0]) && ParseListMode(f.mode) == Some(Stream)
             && ParseStreamMode(f.streamMode).None?) ==> r == Err(InvalidStreamMode(f.streamMode))
    ensures r.Err? && Preliminaries(f, env) && r.error.InvalidStreamMode? ==>
      r.error.name == f.streamMode && ParseListMode(f.mode) == Some(Stream) && ParseStreamMode(f.streamMode).None?
      && PathParses(env, f.paths[0])
    ensures r.Err? && Preliminaries(f, env) && r.error.PathParse? ==>
      failedAt < |f.paths| && env.toGnmiPath(TrimSpace(f.paths[failedAt])) == Err(r.error.reason)
      && forall j :: 0 <= j < failedAt ==> PathParses(env, f.paths[j])
    ensures r.Ok? ==>
      && r.value.prefix == env.toGnmiPath(f.prefix).value
      && r.value.mode == ParseListMode(f.mode).value
      && r.value.encoding == ParseEncoding(f.encoding).value
      && r.value.qos == f.qos
      && r.value.updatesOnly == f.updatesOnly
      && r.value.useModels == []
      && |r.value.subscription| == |f.paths|
    ensures r.Ok? ==> forall i :: 0 <= i < |f.paths| ==>
      r.value.subscription[i].path == env.toGnmiPath(TrimSpace(f.paths[i])).value
      && FollowsModeRules(r.value.subscription[i], r.value.mode, ParseStreamMode(f.streamMode),
                          env.parseDuration(f.sampleInterval).value, env.parseDuration(f.heartbeatInterval).value,
                          f.suppressRedundant)
  {
    failedAt := 0;
    var settings := CheckFlags(f, env);
    if settings.Err? {
      return Err(settings.error), failedAt;
    }
    var subscriptions;
    subscriptions, failedAt := BuildSubscriptions(f.paths, env, settings.value, f.streamMode, ParseStreamMode(f.streamMode), f.suppressRedundant);
    if subscriptions.Err? {
      return Err(subscriptions.error), failedAt;
    }
    var s := settings.value;
    forall i | 0 <= i < |f.paths|
      ensures subscriptions.value[i].path == env.toGnmiPath(TrimSpace(f.paths[i])).value
      ensures FollowsModeRules(subscriptions.value[i], s.mode, ParseStreamMode(f.streamMode), s.sample, s.heartbeat, f.suppressRedundant)
    {
      ModeSubscriptionRules(env.toGnmiPath(TrimSpace(f.paths[i])).value, s.mode, ParseStreamMode(f.streamMode),
                            s.sample, s.heartbeat, f.suppressRedundant);
    }
    return Ok(SubscriptionList(s.prefix, subscriptions.value, f.qos, s.mode, [], s.encoding, f.updatesOnly)), failedAt;
  }

  /** The canonical message of a notification, given the formatter's meta map. */
  function SubscribeMessage(meta: Meta, n: Notification, env: Collaborators): Msg
  {
    Msg(
      if "source" in meta then meta["source"] else "",
      if "system-name" in meta then meta["system-name"] else "",
      if "subscription-name" in meta then meta["subscription-name"] else "",
      n.timestamp,
      env.toXPath(n.prefix),
      Entries(env, n.update),
      seq(|n.delete|, i requires 0 <= i < |n.delete| => env.toXPath(Some(n.delete[i]))))
  }

  /** The message construction of formatSubscribeResponse. */
  method BuildMessage(meta: Meta, n: Notification, env: Collaborators) returns (m: Msg)
    ensures m.timestamp == n.timestamp
    ensures m.source == (if "source" in meta then meta["source"] else "")
    ensures m.systemName == (if "system-name" in meta then meta["system-name"] else "")
    ensures m.subscriptionName == (if "subscription-name" in meta then meta["subscription-name"] else "")
    ensures m.prefix == env.toXPath(n.prefix)
    ensures |m.updates| == |n.update|
    ensures forall i :: 0 <= i < |n.update| ==>
      m.updates[i].path == env.toXPath(Some(n.update[i].path)) && m.updates[i].values.Keys == {ValueKey(n.update[i].path)}
    ensures |m.deletes| == |n.delete| && forall i :: 0 <= i < |n.delete| ==> m.deletes[i] == env.toXPath(Some(n.delete[i]))
    ensures m == SubscribeMessage(meta, n, env)
  {
    m := Msg("", "", "", n.timestamp, env.toXPath(n.prefix), [], []);
    if "source" in meta {
      m := m.(source := meta["source"]);
    }
    if "system-name" in meta {
      m := m.(systemName := meta["system-name"]);
    }
    if "subscription-name" in meta {
      m := m.(subscriptionName := meta["subscription-name"]);
    }
    var updates := FormatUpdates(env, n.update);
    m := m.(updates := updates);
    var k := 0;
    while k < |n.delete|
      invariant 0 <= k <= |n.delete|
      invariant m.updates == updates
      invariant |m.deletes| == k && forall i :: 0 <= i < k ==> m.deletes[i] == env.toXPath(Some(n.delete[i]))
      invariant m.(deletes := []) == SubscribeMessage(meta, n, env).(deletes := [])
    {
      m := m.(deletes := m.deletes + [env.toXPath(Some(n.delete[k]))]);
      k := k + 1;
    }
  }

  /**
   * formatSubscribeResponse: nothing for a response that is not an update; the text form under
   * the textproto format; otherwise the marshalled canonical message, or the marshaller's error.
   */
  method FormatSubscribeResponse(meta: Meta, resp: SubscribeResponse, format: string, env: Collaborators)
    returns (r: Result<Option<seq<bv8>>, string>)
    ensures !resp.UpdateResponse? ==> r == Ok(None)
    ensures resp.UpdateResponse? && format == "textproto" ==> r == Ok(Some(env.subscribeText(resp)))
    ensures resp.UpdateResponse? && format != "textproto" ==>
      var marshalled := env.marshal(SubscribeMessage(meta, resp.notification, env));
      (r.Ok? <==> marshalled.Ok?)
      && (r.Ok? ==> r.value == Some(marshalled.value))
      && (r.Err? ==> r.error == marshalled.error)
  {
    match resp
    case UpdateResponse(n) =>
      if format == "textproto" {
        return Ok(Some(env.subscribeText(resp)));
      }
      var m := BuildMessage(meta, n, env);
      var data := env.marshal(m);
      if data.Err? {
        return Err(data.error);
      }
      return Ok(Some(data.value));
    case _ =>
      return Ok(None);
  }

  /** What the session's read loop selects on. */
  datatype Event = Received(response: SubscribeResponse) | StreamError(message: string) | Cancelled

  /** The loop's response to one event: the bytes and meta written to every output, whether the message is echoed, whether the loop ends. */
  datatype Reaction = Reaction(write: Option<(Option<seq<bv8>>, Meta)>, echo: bool, stop: bool)

  /**
   * The decision of one iteration of the read loop in subRequest, given `formatted`, the result
   * of formatting an update response (ReadLoopStep supplies it), and `indentOk`, whether
   * json.Indent accepted it.
   */
  function React(mode: ListMode, address: string, ev: Event, formatted: Result<Option<seq<bv8>>, string>,
                 quiet: bool, format: string, indentOk: bool): (a: Reaction)
    ensures a.stop <==>
      || ev.Cancelled?
      || (ev.Received? && ev.response.SyncResponse? && mode == Once)
      || (ev.Received? && ev.response.UpdateResponse? && (formatted.Err? || (!quiet && format != "textproto" && !indentOk)))
    ensures a.write.Some? <==> ev.Received? && ev.response.UpdateResponse? && formatted.Ok?
    ensures a.write.Some? ==> a.write.value == (formatted.value, map["source" := address])
    ensures a.echo ==> a.write.Some? && !a.stop
    ensures ev.StreamError? ==> a == Reaction(None, false, false)
  {
    match ev
    case Received(UpdateResponse(_)) =>
      if formatted.Err? then Reaction(None, false, true)
      else
        var written := Some((formatted.value, map["source" := address]));
        if !quiet && format != "textproto" then Reaction(written, indentOk, !indentOk)
        else Reaction(written, false, false)
    case Received(SyncResponse(_)) => Reaction(None, false, mode == Once)
    case Received(ErrorResponse(_)) => Reaction(None, false, false)
    case StreamError(_) => Reaction(None, false, false)
    case Cancelled => Reaction(None, false, true)
  }

  /**
   * One iteration of subRequest's read loop, with formatSubscribeResponse called on an update
   * response and the target's address as the meta source; React then decides.
   */
  method ReadLoopStep(mode: ListMode, address: string, ev: Event, quiet: bool, format: string, indentOk: bool,
                      env: Collaborators)
    returns (a: Reaction)
    ensures !(ev.Received? && ev.response.UpdateResponse?) ==> a == React(mode, address, ev, Ok(None), quiet, format, indentOk)
    ensures ev.Received? && ev.response.UpdateResponse? && format == "textproto" ==>
      a == Reaction(Some((Some(env.subscribeText(ev.response)), map["source" := address])), false, false)
    ensures ev.Received? && ev.response.UpdateResponse? && format != "textproto" ==>
      var marshalled := env.marshal(SubscribeMessage(map["source" := address], ev.response.notification, env));
      && (a.write.Some? <==> marshalled.Ok?)
      && (a.write.Some? ==> a.write.value == (Some(marshalled.value), map["source" := address]))
      && (a.stop <==> marshalled.Err? || (!quiet && !indentOk))
      && (a.echo <==> marshalled.Ok? && !quiet && indentOk)
  {
    var formatted: Result<Option<seq<bv8>>, string> := Ok(None);
    if ev.Received? && ev.response.UpdateResponse? {
      formatted := FormatSubscribeResponse(map["source" := address], ev.response, format, env);
    }
    a := React(mode, address, ev, formatted, quiet, format, indentOk);
  }

  /**
   * The request a session sends after model negotiation: unchanged when no model is asked for;
   * no request at all (the session ends) when the capability query fails; otherwise rebuilt
   * with the supported models, when there are any. `filtered` is (supported, unsupported).
   */
  function NegotiatedRequest(req: SubscriptionList, models: seq<string>,
                             filtered: Result<(seq<ModelData>, seq<ModelData>), string>, updatesOnly: bool)
    : (r: Option<SubscriptionList>)
    ensures r.None? <==> |models| > 0 && filtered.Err?
    ensures r.Some? ==> r.value.(useModels := req.useModels, updatesOnly := req.updatesOnly) == req
    ensures r.Some? && r != Some(req) ==> filtered.Ok? && r.value.useModels == filtered.value.0 != []
    ensures |models| == 0 ==> r == Some(req)
    ensures |models| > 0 && filtered.Ok? && filtered.value.0 == [] ==> r == Some(req)
    ensures |models| > 0 && filtered.Ok? && filtered.value.0 != [] ==>
      r.Some? && r.value.useModels == filtered.value.0 && r.value.updatesOnly == updatesOnly
  {
    if |models| == 0 then Some(req)
    else if filtered.Err? then None
    else if |filtered.value.0| > 0 then Some(req.(useModels := filtered.value.0, updatesOnly := updatesOnly))
    else Some(req)
  }

  /** collector.SubscriptionConfig, with the fields the command fills. */
  datatype SubscriptionConfig = SubscriptionConfig(
    name: string,
    paths: seq<string>,
    prefix: string,
    mode: string,
    encoding: string,
    qos: uint32,
    streamMode: string,
    heartbeatInterval: int,
    sampleInterval: int,
    suppressRedundant: bool,
    updatesOnly: bool)

  /**
   * getSubscriptions: with paths on the command line, the single subscription "default" built
   * from the flags; otherwise one subscription per configured entry, named by its key.
   * `configured` holds each entry's decoding outcome; the entries are visited in an arbitrary
   * order, as Go ranges over a map, and the first failing decode is returned.
   */
  method GetSubscriptions(f: SubscribeFlags, configured: map<string, Result<SubscriptionConfig, string>>, env: Collaborators)
    returns (r: Result<map<string, SubscriptionConfig>, string>)
    ensures |f.paths| > 0 ==> r.Ok? && r.value.Keys == {"default"}
    ensures |f.paths| > 0 ==> r.value["default"] == SubscriptionConfig(
      "default", f.paths, f.prefix, f.mode, f.encoding, f.qos, f.streamMode,
      env.getDuration(f.heartbeatInterval), env.getDuration(f.sampleInterval), f.suppressRedundant, f.updatesOnly)
    ensures |f.paths| == 0 ==> (r.Ok? <==> forall k :: k in configured ==> configured[k].Ok?)
    ensures |f.paths| == 0 && r.Ok? ==> r.value.Keys == configured.Keys
    ensures |f.paths| == 0 && r.Ok? ==> forall k :: k in r.value ==> r.value[k] == configured[k].value.(name := k)
    ensures r.Err? ==> exists k :: k in configured && configured[k] == Err(r.error)
  {
    if |f.paths| > 0 {
      var sub := SubscriptionConfig(
        "default", f.paths, f.prefix, f.mode, f.encoding, f.qos, f.streamMode,
        env.getDuration(f.heartbeatInterval), env.getDuration(f.sampleInterval), f.suppressRedundant, f.updatesOnly);
      return Ok(map["default" := sub]);
    }
    var subscriptions: map<string, SubscriptionConfig> := map[];
    var remaining := configured.Keys;
    while remaining != {}
      invariant remaining <= configured.Keys
      invariant subscriptions.Keys == configured.Keys - remaining
      invariant forall k :: k in subscriptions ==> configured[k].Ok? && subscriptions[k] == configured[k].value.(name := k)
      decreases remaining
    {
      var k :| k in remaining;
      match configured[k]
      case Err(e) =>
        return Err(e);
      case Ok(s) =>
        subscriptions := subscriptions[k := s.(name := k)];
      remaining := remaining - {k};
    }
    return Ok(subscriptions);
  }
}
