/**
 * The get command without its network and console: building the GetRequest from the flags,
 * the per-target model append, and the text printGetResponse writes for a GetResponse.
 */
module Get {
  import opened Wrappers
  import opened Text
  import opened Gnmi
  import opened Cmd
  import Subscribe

  /** The values the get command reads from its flags. */
  datatype GetFlags = GetFlags(paths: seq<string>, prefix: string, target: string, dataType: string, encoding: string)

  datatype GetError =
    | InvalidEncoding(name: string)
    | PrefixParse(reason: string)
    | UnknownDataType(name: string)
    | PathParse(reason: string)

  /** The data type is upper-cased only. */
  function ParseDataType(s: string): (r: Option<DataType>)
    ensures r.Some? ==> DataTypeName(r.value) == ToUpper(s)
    ensures forall t :: DataTypeName(t) == ToUpper(s) ==> r == Some(t)
  {
    DataTypeByName(ToUpper(s))
  }

  /** Every data type is accepted under its protocol name. */
  lemma ParseDataTypeNames(t: DataType)
    ensures ParseDataType(DataTypeName(t)) == Some(t)
  {
    var n := DataTypeName(t);
    assert forall i :: 0 <= i < |n| ==> 'A' <= n[i] <= 'Z';
    ToUpperIdentity(n);
  }

  /** The prefix as createGetRequest sets it: the target is kept only when the parsed prefix is nil. */
  function PrefixAsWritten(parsed: Option<Path>, target: string): (r: Option<Path>)
    ensures parsed.Some? ==> r == parsed
    ensures parsed.None? ==> (r.Some? <==> target != "")
    ensures parsed.None? && r.Some? ==> r.value == Path("", [], target)
  {
    if parsed.None? && target != "" then Some(Path("", [], target)) else parsed
  }

  /** A prefix and a target given together: the target is lost. */
  lemma PrefixAsWrittenDropsTarget()
    ensures PrefixAsWritten(Some(Path("", [PathElem("interfaces", map[])], "")), "router1").value.target == ""
  {
  }

  /** The prefix with the target always applied to it: the corrected rule. */
  function Prefix(parsed: Option<Path>, target: string): (r: Option<Path>)
    ensures r.None? <==> parsed.None? && target == ""
    ensures target != "" ==> r.Some? && r.value.target == target
    ensures target == "" ==> r == parsed
    ensures parsed.Some? ==> r.Some? && r.value.origin == parsed.value.origin && r.value.elem == parsed.value.elem
    ensures parsed.None? && target != "" ==> r == Some(Path("", [], target))
  {
    if target == "" then parsed
    else if parsed.None? then Some(Path("", [], target))
    else Some(parsed.value.(target := target))
  }

  /** The two rules differ only when a prefix and a target are both given. */
  lemma {:induction false} PrefixAgreement(parsed: Option<Path>, target: string)
    ensures Prefix(parsed, target) == PrefixAsWritten(parsed, target) <==>
      parsed.None? || target == "" || parsed.value.target == target
  {
    if parsed.Some? && target != "" && parsed.value.target != target {
      assert Prefix(parsed, target).value.target != PrefixAsWritten(parsed, target).value.target;
    }
  }

  /**
   * The prefix, data type and encoding checks of createGetRequest, in createGetRequest's order,
   * with the prefix set as the code sets it (PrefixAsWritten).
   */
  function GetHeader(f: GetFlags, env: Collaborators): (r: Result<GetRequest, GetError>)
    ensures ParseEncoding(f.encoding).None? ==> r == Err(InvalidEncoding(f.encoding))
    ensures ParseEncoding(f.encoding).Some? && (f.prefix != "" || f.target != "") && env.toGnmiPath(f.prefix).Err? ==>
      r == Err(PrefixParse(env.toGnmiPath(f.prefix).error))
    ensures (ParseEncoding(f.encoding).Some? && (f.prefix != "" || f.target != "" ==> env.toGnmiPath(f.prefix).Ok?)
             && f.dataType != "" && ParseDataType(f.dataType).None?) ==> r == Err(UnknownDataType(f.dataType))
    ensures r.Ok? <==> HeaderAcceptable(f, env)
    ensures r.Ok? ==> r.value.encoding == ParseEncoding(f.encoding).value
    ensures r.Ok? ==>
      r.value.prefix == (if f.prefix == "" && f.target == "" then None else PrefixAsWritten(env.toGnmiPath(f.prefix).value, f.target))
    ensures r.Ok? ==> r.value.dataType == (if f.dataType == "" then All else ParseDataType(f.dataType).value)
    ensures r.Ok? ==> r.value.path == [] && r.value.useModels == []
  {
    var encoding := ParseEncoding(f.encoding);
    if encoding.None? then Err(InvalidEncoding(f.encoding))
    else
      var req := GetRequest(None, [], All, encoding.value, []);
      var parsed := if f.prefix != "" || f.target != "" then env.toGnmiPath(f.prefix) else Ok(None);
      if parsed.Err? then Err(PrefixParse(parsed.error))
      else
        var req := if f.prefix != "" || f.target != "" then req.(prefix := PrefixAsWritten(parsed.value, f.target)) else req;
        if f.dataType == "" then Ok(req)
        else
          var dataType := ParseDataType(f.dataType);
          if dataType.None? then Err(UnknownDataType(f.dataType))
          else Ok(req.(dataType := dataType.value))
  }

  /** The header with the corrected prefix rule: the same checks, and the target always on the prefix. */
  function GetHeaderCorrected(f: GetFlags, env: Collaborators): (r: Result<GetRequest, GetError>)
    ensures r.Err? <==> GetHeader(f, env).Err?
    ensures r.Err? ==> r == GetHeader(f, env)
    ensures r.Ok? ==> r.value.(prefix := GetHeader(f, env).value.prefix) == GetHeader(f, env).value
    ensures r.Ok? && f.target != "" ==> r.value.prefix.Some? && r.value.prefix.value.target == f.target
    ensures r.Ok? && f.target == "" ==> r.value.prefix == GetHeader(f, env).value.prefix
  {
    match GetHeader(f, env)
    case Err(e) => Err(e)
    case Ok(req) =>
      if f.prefix == "" && f.target == "" then Ok(req)
      else Ok(req.(prefix := Prefix(env.toGnmiPath(f.prefix).value, f.target)))
  }

  /**
   * The request header for prefix "/interfaces" and target "router1": as written, the prefix
   * carries no target; the corrected header carries "router1".
   */
  lemma GetHeaderDropsTarget(env: Collaborators)
    requires env.toGnmiPath("/interfaces") == Ok(Some(Path("", [PathElem("interfaces", map[])], "")))
    ensures GetHeader(GetFlags([], "/interfaces", "router1", "", "JSON"), env).Ok?
    ensures GetHeader(GetFlags([], "/interfaces", "router1", "", "JSON"), env).value.prefix.value.target == ""
    ensures GetHeaderCorrected(GetFlags([], "/interfaces", "router1", "", "JSON"), env).value.prefix.value.target == "router1"
  {
    ParseEncodingSpellings(Json);
  }

  predicate HeaderAcceptable(f: GetFlags, env: Collaborators)
  {
    ParseEncoding(f.encoding).Some?
    && (f.prefix != "" || f.target != "" ==> env.toGnmiPath(f.prefix).Ok?)
    && (f.dataType != "" ==> ParseDataType(f.dataType).Some?)
  }

  /**
   * The path loop of createGetRequest: each path trimmed and parsed, in order; the first failure
   * aborts. `failedAt` is the index of the path whose parse error is returned.
   */
  method ParsePaths(paths: seq<string>, env: Collaborators) returns (r: Result<seq<Option<Path>>, GetError>, ghost failedAt: nat)
    ensures r.Ok? <==> forall i :: 0 <= i < |paths| ==> Subscribe.PathParses(env, paths[i])
    ensures r.Ok? ==> |r.value| == |paths|
    ensures r.Ok? ==> forall i :: 0 <= i < |paths| ==> r.value[i] == env.toGnmiPath(TrimSpace(paths[i])).value
    ensures r.Err? ==> r.error.PathParse?
    ensures r.Err? && r.error.PathParse? ==>
      failedAt < |paths| && env.toGnmiPath(TrimSpace(paths[failedAt])) == Err(r.error.reason)
      && forall j :: 0 <= j < failedAt ==> Subscribe.PathParses(env, paths[j])
  {
    failedAt := 0;
    var parsed: seq<Option<Path>> := [];
    var i := 0;
    while i < |paths|
      invariant 0 <= i <= |paths| && |parsed| == i
      invariant forall k :: 0 <= k < i ==> Subscribe.PathParses(env, paths[k])
      invariant forall k :: 0 <= k < i ==> parsed[k] == env.toGnmiPath(TrimSpace(paths[k])).value
    {
      var path := env.toGnmiPath(TrimSpace(paths[i]));
      if path.Err? {
        failedAt := i;
        return Err(PathParse(path.error)), failedAt;
      }
      parsed := parsed + [path.value];
      i := i + 1;
    }
    return Ok(parsed), failedAt;
  }

  /** createGetRequest; `failedAt` is the index of the path whose parse error is returned. */
  method CreateGetRequest(f: GetFlags, env: Collaborators) returns (r: Result<GetRequest, GetError>, ghost failedAt: nat)
    ensures !HeaderAcceptable(f, env) ==> r == Err(GetHeader(f, env).error)
    ensures r.Ok? <==> HeaderAcceptable(f, env) && forall i :: 0 <= i < |f.paths| ==> Subscribe.PathParses(env, f.paths[i])
    ensures r.Err? && HeaderAcceptable(f, env) ==>
      r.error.PathParse? && failedAt < |f.paths| && env.toGnmiPath(TrimSpace(f.paths[failedAt])) == Err(r.error.reason)
      && forall j :: 0 <= j < failedAt ==> Subscribe.PathParses(env, f.paths[j])
    ensures r.Ok? ==> r.value.(path := []) == GetHeader(f, env).value
    ensures r.Ok? ==> |r.value.path| == |f.paths|
    ensures r.Ok? ==> forall i :: 0 <= i < |f.paths| ==> r.value.path[i] == env.toGnmiPath(TrimSpace(f.paths[i])).value
  {
    failedAt := 0;
    var header := GetHeader(f, env);
    if header.Err? {
      return Err(header.error), failedAt;
    }
    var paths;
    paths, failedAt := ParsePaths(f.paths, env);
    if paths.Err? {
      return Err(paths.error), failedAt;
    }
    return Ok(header.value.(path := paths.value)), failedAt;
  }

  /**
   * The GetRequest object createGetRequest returns, which every target's goroutine receives by pointer:
   * the models of getRequest are appended to it in place.
   */
  class SharedGetRequest {
    var request: GetRequest

    constructor (req: GetRequest)
      ensures request == req
    {
      request := req;
    }

    /** The append loop of getRequest, on the shared object. */
    method AppendModels(supported: seq<ModelData>)
      modifies this
      ensures request == old(request).(useModels := old(request).useModels + supported)
    {
      var k := 0;
      while k < |supported|
        invariant 0 <= k <= |supported|
        invariant request == old(request).(useModels := old(request).useModels + supported[..k])
      {
        request := request.(useModels := request.useModels + [supported[k]]);
        assert supported[..k + 1] == supported[..k] + [supported[k]];
        k := k + 1;
      }
      assert supported[..k] == supported;
    }
  }

  /**
   * getRequest as written, run for two targets one after the other: the second target is sent
   * the models supported by the first as well as its own.
   */
  method TwoTargetsAsWritten(req: GetRequest, supportedA: seq<ModelData>, supportedB: seq<ModelData>)
    returns (sentA: GetRequest, sentB: GetRequest)
    ensures sentA.useModels == req.useModels + supportedA
    ensures sentB.useModels == req.useModels + supportedA + supportedB
    ensures supportedA != [] ==> Some(sentB) != RequestForTarget(req, ["m"], Ok((supportedB, [])))
  {
    var shared := new SharedGetRequest(req);
    shared.AppendModels(supportedA);
    sentA := shared.request;
    shared.AppendModels(supportedB);
    sentB := shared.request;
    if supportedA != [] {
      assert |sentB.useModels| > |req.useModels + supportedB|;
    }
  }

  /**
   * The corrected per-target rule, each target working on its own copy of the request:
   * unchanged when no model is asked for; none (the target is
   * abandoned) when the capability query fails; otherwise the request's models followed by
   * exactly the supported ones, in order. `filtered` is (supported, unsupported).
   */
  function RequestForTarget(req: GetRequest, models: seq<string>,
                            filtered: Result<(seq<ModelData>, seq<ModelData>), string>): (r: Option<GetRequest>)
    ensures r.None? <==> |models| > 0 && filtered.Err?
    ensures |models| == 0 ==> r == Some(req)
    ensures r.Some? ==> r.value.(useModels := req.useModels) == req
    ensures |models| > 0 && filtered.Ok? ==> r.Some? && r.value.useModels == req.useModels + filtered.value.0
  {
    if |models| == 0 then Some(req)
    else if filtered.Err? then None
    else Some(req.(useModels := req.useModels + filtered.value.0))
  }

  /** getRequest's model step on the target's own copy of the request. */
  method AttachModels(req: GetRequest, models: seq<string>,
                      filtered: Result<(seq<ModelData>, seq<ModelData>), string>) returns (r: Option<GetRequest>)
    ensures r == RequestForTarget(req, models, filtered)
  {
    var xreq := req;
    if |models| > 0 {
      if filtered.Err? {
        return None;
      }
      var supported := filtered.value.0;
      var k := 0;
      while k < |supported|
        invariant 0 <= k <= |supported|
        invariant xreq == req.(useModels := req.useModels + supported[..k])
      {
        xreq := xreq.(useModels := xreq.useModels + [supported[k]]);
        assert supported[..k + 1] == supported[..k] + [supported[k]];
        k := k + 1;
      }
      assert supported[..k] == supported;
    }
    return Some(xreq);
  }

  /** The prefix of every printed line: the target's name in brackets when several targets are printed. */
  function PrintPrefix(name: string, numTargets: nat, noPrefix: bool): (p: string)
    ensures p != "" <==> numTargets > 1 && !noPrefix
    ensures p != "" ==> p == "[" + name + "] "
  {
    if numTargets > 1 && !noPrefix then "[" + name + "] " else ""
  }

  /** The message printGetResponse builds for one notification. */
  function GetMessage(name: string, n: Notification, env: Collaborators): Msg
  {
    Msg(name, "", "", n.timestamp, env.toXPath(n.prefix), Entries(env, n.update), [])
  }

  /** A get message is the subscribe message of the notification with its source set to the target's name and its deletes dropped. */
  lemma GetMessageIsSubscribeMessage(name: string, n: Notification, env: Collaborators)
    ensures GetMessage(name, n, env) == Subscribe.SubscribeMessage(map["source" := name], n.(delete := []), env)
  {
    var meta := map["source" := name];
    assert "system-name" !in meta && "subscription-name" !in meta;
  }

  /** The message construction of printGetResponse. */
  method BuildGetMessage(name: string, n: Notification, env: Collaborators) returns (m: Msg)
    ensures m.source == name && m.systemName == "" && m.subscriptionName == ""
    ensures m.timestamp == n.timestamp
    ensures m.prefix == env.toXPath(n.prefix)
    ensures |m.updates| == |n.update|
    ensures forall i :: 0 <= i < |n.update| ==>
      m.updates[i].path == env.toXPath(Some(n.update[i].path)) && m.updates[i].values.Keys == {ValueKey(n.update[i].path)}
    ensures m.deletes == []
    ensures m == GetMessage(name, n, env)
  {
    m := Msg(name, "", "", n.timestamp, env.toXPath(n.prefix), [], []);
    var updates := FormatUpdates(env, n.update);
    m := m.(updates := updates);
  }

  /**
   * The text printed for a GetResponse's notifications: each message indented and on its own
   * line, then an empty line; a message the marshaller rejects ends the output at once.
   */
  function Printed(env: Collaborators, name: string, prefix: string, ns: seq<Notification>): string
  {
    if ns == [] then "\n"
    else
      match env.marshalIndent(GetMessage(name, ns[0], env), prefix)
      case Err(_) => ""
      case Ok(text) => prefix + text + "\n" + Printed(env, name, prefix, ns[1..])
  }

  predicate Marshals(env: Collaborators, name: string, prefix: string, n: Notification)
  {
    env.marshalIndent(GetMessage(name, n, env), prefix).Ok?
  }

  /** The message lines printed when every message marshals: each indented text on its own line. */
  function Lines(env: Collaborators, name: string, prefix: string, ns: seq<Notification>): (l: string)
    requires forall i :: 0 <= i < |ns| ==> Marshals(env, name, prefix, ns[i])
    ensures |ns| > 0 ==> |l| > 0 && l[|l| - 1] == '\n'
  {
    if ns == [] then ""
    else
      assert Marshals(env, name, prefix, ns[0]);
      var line := prefix + env.marshalIndent(GetMessage(name, ns[0], env), prefix).value + "\n";
      assert line[|line| - 1] == '\n';
      line + Lines(env, name, prefix, ns[1..])
  }

  /** When every message marshals, the output is every message line and then the empty line. */
  lemma {:induction false} PrintedAllMessages(env: Collaborators, name: string, prefix: string, ns: seq<Notification>)
    requires forall i :: 0 <= i < |ns| ==> Marshals(env, name, prefix, ns[i])
    ensures Printed(env, name, prefix, ns) == Lines(env, name, prefix, ns) + "\n"
  {
    if ns != [] {
      assert Marshals(env, name, prefix, ns[0]);
      PrintedAllMessages(env, name, prefix, ns[1..]);
    }
  }

  /**
   * When the message of notification k is the first the marshaller rejects, the output is what
   * the notifications before k alone would have printed, without the closing empty line.
   */
  lemma {:induction false} PrintedStopsAtFailure(env: Collaborators, name: string, prefix: string, ns: seq<Notification>, k: nat)
    requires k < |ns|
    requires forall i :: 0 <= i < k ==> Marshals(env, name, prefix, ns[i])
    requires !Marshals(env, name, prefix, ns[k])
    ensures Printed(env, name, prefix, ns) + "\n" == Printed(env, name, prefix, ns[..k])
  {
    if k > 0 {
      assert Marshals(env, name, prefix, ns[0]);
      assert ns[1..][..k - 1] == ns[..k][1..];
      PrintedStopsAtFailure(env, name, prefix, ns[1..], k - 1);
    }
  }

  /** One notification's message, built and handed to the indenting marshaller. */
  method MarshalNotification(name: string, prefix: string, n: Notification, env: Collaborators)
    returns (text: Result<string, string>)
    ensures text == env.marshalIndent(GetMessage(name, n, env), prefix)
  {
    var m := BuildGetMessage(name, n, env);
    text := env.marshalIndent(m, prefix);
  }

  /** printGetResponse: the text printed for one target's GetResponse. */
  method PrintGetResponse(name: string, numTargets: nat, noPrefix: bool, format: string, resp: GetResponse, env: Collaborators)
    returns (out: string)
    ensures format == "textproto" ==> out == env.indent(PrintPrefix(name, numTargets, noPrefix), env.getText(resp)) + "\n"
    ensures format != "textproto" ==> out == Printed(env, name, PrintPrefix(name, numTargets, noPrefix), resp.notification)
  {
    var prefix := PrintPrefix(name, numTargets, noPrefix);
    if format == "textproto" {
      return env.indent(prefix, env.getText(resp)) + "\n";
    }
    var ns := resp.notification;
    out := "";
    var i := 0;
    while i < |ns|
      invariant 0 <= i <= |ns|
      invariant out + Printed(env, name, prefix, ns[i..]) == Printed(env, name, prefix, ns)
    {
      var text := MarshalNotification(name, prefix, ns[i], env);
      if text.Err? {
        assert Printed(env, name, prefix, ns[i..]) == "";
        return out;
      }
      assert ns[i..][1..] == ns[i + 1..];
      out := out + prefix + text.value + "\n";
      i := i + 1;
    }
    out := out + "\n";
  }
}
