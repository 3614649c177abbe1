/**
 * The STAN (NATS Streaming) output sink, without its network and timing: configuration
 * defaulting and validation, the subject a message is published on, the per-worker
 * configuration copies, the nil guard and handoff of Write, the connect loop as a run of
 * attempt outcomes, and the per-message marshal-then-publish step with its counters.
 */
module Stan {
  import opened Wrappers
  import opened Text
  import Gnmi
  import Cmd

  const DefaultSubjectName: string := "gnmic-telemetry"
  const DefaultFormat: string := "json"
  /** time.Second, in nanoseconds; durations are int64 nanosecond counts. */
  const Second: int := 1_000_000_000
  const DefaultRecoveryWaitTime: int := 10 * Second
  const DefaultWriteTimeout: int := 10 * Second
  const DefaultNumWorkers: int := 1
  const DefaultPingInterval: int := 5
  const DefaultPingRetry: int := 2

  datatype Config = Config(
    name: string,
    address: string,
    subjectPrefix: string,
    subject: string,
    username: string,
    password: string,
    clusterName: string,
    pingInterval: int,
    pingRetry: int,
    format: string,
    recoveryWaitTime: int,
    numWorkers: int,
    debug: bool,
    writeTimeout: int,
    eventProcessors: seq<string>)

  /** The zero-valued configuration a registered sink starts with. */
  const EmptyConfig: Config := Config("", "", "", "", "", "", "", 0, 0, "", 0, 0, false, 0, [])

  datatype ConfigError = ClusterNameMandatory | UnsupportedFormat(format: string)

  predicate SupportedFormat(f: string)
  {
    f == "event" || f == "protojson" || f == "proto" || f == "json"
  }

  /** A configuration in which every default is in force and which passes validation. */
  predicate Complete(c: Config)
  {
    c.name != "" && c.clusterName != "" && (c.subject != "" || c.subjectPrefix != "")
    && c.recoveryWaitTime != 0 && c.writeTimeout > 0 && c.numWorkers > 0
    && SupportedFormat(c.format) && c.pingInterval != 0 && c.pingRetry != 0
  }

  /** Every field that was already set keeps its value, and the fields no default touches are unchanged. */
  predicate KeepsSetFields(c: Config, d: Config)
  {
    (c.name != "" ==> d.name == c.name)
    && ((c.subject != "" || c.subjectPrefix != "") ==> d.subject == c.subject)
    && (c.recoveryWaitTime != 0 ==> d.recoveryWaitTime == c.recoveryWaitTime)
    && (c.writeTimeout > 0 ==> d.writeTimeout == c.writeTimeout)
    && (c.numWorkers > 0 ==> d.numWorkers == c.numWorkers)
    && (c.format != "" ==> d.format == c.format)
    && (c.pingInterval != 0 ==> d.pingInterval == c.pingInterval)
    && (c.pingRetry != 0 ==> d.pingRetry == c.pingRetry)
    && d.subjectPrefix == c.subjectPrefix && d.address == c.address && d.username == c.username
    && d.password == c.password && d.clusterName == c.clusterName && d.debug == c.debug
    && d.eventProcessors == c.eventProcessors
  }

  /** Every field that was unset has received its default; `id` stands for the generated UUID. */
  predicate DefaultsApplied(c: Config, d: Config, id: string)
  {
    (c.name == "" ==> d.name == "gnmic-" + id)
    && ((c.subject == "" && c.subjectPrefix == "") ==> d.subject == DefaultSubjectName)
    && (c.recoveryWaitTime == 0 ==> d.recoveryWaitTime == DefaultRecoveryWaitTime)
    && (c.writeTimeout <= 0 ==> d.writeTimeout == DefaultWriteTimeout)
    && (c.numWorkers <= 0 ==> d.numWorkers == DefaultNumWorkers)
    && (c.format == "" ==> d.format == DefaultFormat)
    && (c.pingInterval == 0 ==> d.pingInterval == DefaultPingInterval)
    && (c.pingRetry == 0 ==> d.pingRetry == DefaultPingRetry)
  }

  function GeneratedName(name: string, id: string): string
  {
    if name == "" then "gnmic-" + id else name
  }

  /** The defaults set before the format is validated (the ping settings come after it). */
  function BeforeFormatCheck(c: Config, id: string): Config
  {
    c.(name := GeneratedName(c.name, id),
       subject := if c.subject == "" && c.subjectPrefix == "" then DefaultSubjectName else c.subject,
       recoveryWaitTime := if c.recoveryWaitTime == 0 then DefaultRecoveryWaitTime else c.recoveryWaitTime,
       writeTimeout := if c.writeTimeout <= 0 then DefaultWriteTimeout else c.writeTimeout,
       numWorkers := if c.numWorkers <= 0 then DefaultNumWorkers else c.numWorkers,
       format := if c.format == "" then DefaultFormat else c.format)
  }

  /** The outcome of setDefaults on a configuration. */
  function Defaults(c: Config, id: string): (r: Result<Config, ConfigError>)
    ensures c.clusterName == "" ==> r == Err(ClusterNameMandatory)
    ensures c.clusterName != "" ==> (r.Err? <==> c.format != "" && !SupportedFormat(c.format))
    ensures c.clusterName != "" && r.Err? ==> r.error == UnsupportedFormat(c.format)
    ensures r.Ok? ==> Complete(r.value)
    ensures r.Ok? ==> KeepsSetFields(c, r.value) && DefaultsApplied(c, r.value, id)
  {
    if c.clusterName == "" then Err(ClusterNameMandatory)
    else
      var p := BeforeFormatCheck(c, id);
      if !SupportedFormat(p.format) then Err(UnsupportedFormat(p.format))
      else Ok(p.(pingInterval := if p.pingInterval == 0 then DefaultPingInterval else p.pingInterval,
                 pingRetry := if p.pingRetry == 0 then DefaultPingRetry else p.pingRetry))
  }

  /** A complete configuration is left alone, whatever identifier would be generated. */
  lemma CompleteIsFixedPoint(d: Config, id: string)
    requires Complete(d)
    ensures Defaults(d, id) == Ok(d)
  {
  }

  /** A successful setDefaults is idempotent. */
  lemma DefaultsIdempotent(c: Config, id: string, id2: string)
    requires Defaults(c, id).Ok?
    ensures Defaults(Defaults(c, id).value, id2) == Defaults(c, id)
  {
    CompleteIsFixedPoint(Defaults(c, id).value, id2);
  }

  /** The source segment of a subject: dots become dashes, spaces underscores. */
  function SourceSegment(source: string): (r: string)
    ensures |r| == |source|
    ensures '.' !in r && ' ' !in r
  {
    ReplaceChar(ReplaceChar(source, '.', '-'), ' ', '_')
  }

  /**
   * subjectName: `worker` is the worker's copy of the configuration, whose prefix is tested;
   * the prefix and subject written are read from the sink's own configuration `sink`.
   */
  function SubjectName(sink: Config, worker: Config, meta: Cmd.Meta): (r: string)
    ensures ' ' !in r
    ensures worker.subjectPrefix == "" ==> r == ReplaceChar(sink.subject, ' ', '_')
    ensures worker.subjectPrefix != "" ==>
      |sink.subjectPrefix| <= |r| && r[..|sink.subjectPrefix|] == ReplaceChar(sink.subjectPrefix, ' ', '_')
  {
    if worker.subjectPrefix != "" then
      ReplaceChar(sink.subjectPrefix + SubjectSuffix(meta), ' ', '_')
    else
      ReplaceChar(sink.subject, ' ', '_')
  }

  /** What the builder appends after the prefix: "." and the source segment, "." and the subscription name. */
  function SubjectSuffix(meta: Cmd.Meta): string
  {
    (if "source" in meta then "." + SourceSegment(meta["source"]) else "")
    + (if "subscription-name" in meta then "." + meta["subscription-name"] else "")
  }

  /**
   * With a prefix, the subject is the prefix, then "." and the source segment when the meta has
   * a source, then "." and the subscription name when it has one, with every space replaced.
   */
  lemma SubjectNameSegments(sink: Config, worker: Config, meta: Cmd.Meta)
    requires worker.subjectPrefix != ""
    ensures SubjectName(sink, worker, meta)
      == ReplaceChar(sink.subjectPrefix, ' ', '_')
         + ((if "source" in meta then "." + SourceSegment(meta["source"]) else "")
            + (if "subscription-name" in meta then "." + ReplaceChar(meta["subscription-name"], ' ', '_') else ""))
  {
    var source := if "source" in meta then "." + SourceSegment(meta["source"]) else "";
    var name := if "subscription-name" in meta then "." + meta["subscription-name"] else "";
    assert SubjectSuffix(meta) == source + name;
    ReplaceCharAppend(sink.subjectPrefix, source + name, ' ', '_');
    ReplaceCharAppend(source, name, ' ', '_');
    ReplaceCharAbsent(source, ' ', '_');
    if "subscription-name" in meta {
      ReplaceCharAppend(".", meta["subscription-name"], ' ', '_');
      assert ReplaceChar(".", ' ', '_') == ".";
    }
  }

  /** A prefix "t" with source "dev.1" and subscription "s1" gives the subject "t.dev-1.s1". */
  lemma SubjectNameExample(sink: Config, worker: Config)
    requires sink.subjectPrefix == "t" && worker.subjectPrefix == "t"
    ensures SubjectName(sink, worker, map["source" := "dev.1", "subscription-name" := "s1"]) == "t.dev-1.s1"
  {
    var meta := map["source" := "dev.1", "subscription-name" := "s1"];
    var source, name := meta["source"], meta["subscription-name"];
    assert source == "dev.1" && name == "s1";
    SourceSegmentExample();
    ReplaceCharAbsent("t", ' ', '_');
    ReplaceCharAbsent("s1", ' ', '_');
    ExampleSegmentsJoined();
    SubjectNameSegments(sink, worker, meta);
  }

  /** The example's segments, joined with dots. */
  lemma ExampleSegmentsJoined()
    ensures "t" + (("." + "dev-1") + ("." + "s1")) == "t.dev-1.s1"
  {
  }

  lemma SourceSegmentExample()
    ensures SourceSegment("dev.1") == "dev-1"
  {
    var dashed := ReplaceChar("dev.1", '.', '-');
    assert dashed[0] == 'd' && dashed[1] == 'e' && dashed[2] == 'v' && dashed[3] == '-' && dashed[4] == '1';
    ReplaceCharAbsent("dev-1", ' ', '_');
  }

  /** The name fmt.Sprintf("%s-%d", name, i) gives worker i. */
  function WorkerName(name: string, i: nat): string
  {
    name + "-" + NatToString(i)
  }

  /** Different workers of one sink get different names. */
  lemma WorkerNamesDistinct(name: string, i: nat, j: nat)
    requires i != j
    ensures WorkerName(name, i) != WorkerName(name, j)
  {
    if WorkerName(name, i) == WorkerName(name, j) {
      var k := |name| + 1;
      assert WorkerName(name, i)[k..] == NatToString(i);
      assert WorkerName(name, j)[k..] == NatToString(j);
      NatToStringInjective(i, j);
    }
  }

  function WorkerConfig(c: Config, i: nat): Config
  {
    c.(name := WorkerName(c.name, i))
  }

  predicate IsWorkerConfigs(c: Config, ws: seq<Config>)
  {
    |ws| == (if c.numWorkers > 0 then c.numWorkers else 0)
    && forall i :: 0 <= i < |ws| ==> ws[i] == WorkerConfig(c, i)
  }

  /** The loop of Init that gives each worker its own copy of the configuration. */
  method WorkerConfigs(c: Config) returns (ws: seq<Config>)
    ensures IsWorkerConfigs(c, ws)
    ensures forall i :: 0 <= i < |ws| ==> ws[i].(name := c.name) == c
    ensures forall i, j :: 0 <= i < j < |ws| ==> ws[i].name != ws[j].name
  {
    ws := [];
    var i := 0;
    while i < c.numWorkers
      invariant 0 <= i && |ws| == i
      invariant i <= (if c.numWorkers > 0 then c.numWorkers else 0)
      invariant forall k :: 0 <= k < i ==> ws[k] == WorkerConfig(c, k)
      invariant forall k, l :: 0 <= k < l < i ==> ws[k].name != ws[l].name
    {
      forall k | 0 <= k < i ensures ws[k].name != WorkerName(c.name, i) {
        WorkerNamesDistinct(c.name, k, i);
      }
      ws := ws + [WorkerConfig(c, i)];
      i := i + 1;
    }
  }

  /** The state of one worker's broker connection; Connecting is also where a publish failure sends it. */
  datatype ConnState = Connecting | Connected

  /**
   * The connect loop run over the outcomes of its attempts (an attempt succeeds when both the
   * NATS and the STAN connection are made): the number of failed attempts, each logged and
   * followed by the fixed recovery wait, and the state reached.
   */
  function ConnectLoop(attempts: seq<bool>): (r: (nat, ConnState))
    ensures r.0 <= |attempts|
    ensures r.1 == Connected <==> true in attempts
    ensures r.1 == Connected ==> r.0 < |attempts| && attempts[r.0]
    ensures forall i :: 0 <= i < r.0 ==> !attempts[i]
  {
    if attempts == [] then (0, Connecting)
    else if attempts[0] then (0, Connected)
    else
      var rest := ConnectLoop(attempts[1..]);
      (rest.0 + 1, rest.1)
  }

  function Failures(k: nat): (s: seq<bool>)
    ensures |s| == k && true !in s
  {
    seq(k, _ => false)
  }

  /** K failed attempts followed by a successful one: connected, with exactly K failures counted. */
  lemma {:induction false} ConnectsAfterFailures(k: nat, later: seq<bool>)
    ensures ConnectLoop(Failures(k) + [true] + later) == (k, Connected)
  {
    if k > 0 {
      ConnectsAfterFailures(k - 1, later);
      assert (Failures(k) + [true] + later)[1..] == Failures(k - 1) + [true] + later;
    }
  }

  /** However many attempts fail, the loop never gives up and never reaches another state. */
  lemma {:induction false} NeverGivesUp(k: nat)
    ensures ConnectLoop(Failures(k)) == (k, Connecting)
  {
    if k > 0 {
      NeverGivesUp(k - 1);
      assert Failures(k)[1..] == Failures(k - 1);
    }
  }

  /** How the select of Write ended: context done, handed to a worker, or write timeout. */
  datatype Handoff = ContextDone | Accepted | TimedOut

  /** A message accepted by Write and not yet taken by a worker. */
  datatype Pending = Pending(msg: Gnmi.SubscribeResponse, meta: Cmd.Meta)

  /**
   * The sink's metrics as natural-number counters: failed sends by (name, reason), and sent
   * messages and bytes by (name, subject).
   */
  datatype Counters = Counters(
    failed: map<Label, nat>,
    sentMsgs: map<Label, nat>,
    sentBytes: map<Label, nat>)

  const NoCounts: Counters := Counters(map[], map[], map[])

  /** A metric label pair. */
  type Label = (string, string)

  function Count(m: map<Label, nat>, k: Label): nat
  {
    if k in m then m[k] else 0
  }

  function Bump(m: map<Label, nat>, k: Label, n: nat): (r: map<Label, nat>)
    ensures Count(r, k) == Count(m, k) + n
    ensures forall j :: j != k ==> Count(r, j) == Count(m, j)
  {
    m[k := Count(m, k) + n]
  }

  /** What became of one message a worker took. */
  datatype Delivery = MarshalFailed | PublishFailed | Sent(size: nat)

  function Classify(marshalled: Result<seq<bv8>, string>, published: bool): (d: Delivery)
    ensures d.MarshalFailed? <==> marshalled.Err?
    ensures d.PublishFailed? <==> marshalled.Ok? && !published
    ensures d.Sent? ==> marshalled.Ok? && d.size == |marshalled.value|
  {
    match marshalled
    case Err(_) => MarshalFailed
    case Ok(b) => if published then Sent(|b|) else PublishFailed
  }

  /** The counters a worker's single message contributes to. */
  function Tally(k: Counters, worker: string, subject: string): nat
  {
    Count(k.failed, (worker, "marshal_error")) + Count(k.failed, (worker, "publish_error"))
    + Count(k.sentMsgs, (worker, subject))
  }

  /** The metric updates of one delivery: exactly one of the three outcome counters moves, by one. */
  function Record(k: Counters, worker: string, subject: string, d: Delivery): (r: Counters)
    ensures Tally(r, worker, subject) == Tally(k, worker, subject) + 1
    ensures Count(r.failed, (worker, "marshal_error")) == Count(k.failed, (worker, "marshal_error")) + (if d.MarshalFailed? then 1 else 0)
    ensures Count(r.failed, (worker, "publish_error")) == Count(k.failed, (worker, "publish_error")) + (if d.PublishFailed? then 1 else 0)
    ensures Count(r.sentMsgs, (worker, subject)) == Count(k.sentMsgs, (worker, subject)) + (if d.Sent? then 1 else 0)
    ensures Count(r.sentBytes, (worker, subject)) == Count(k.sentBytes, (worker, subject)) + (if d.Sent? then d.size else 0)
    ensures forall key :: key != (worker, "marshal_error") && key != (worker, "publish_error") ==> Count(r.failed, key) == Count(k.failed, key)
    ensures forall key :: key != (worker, subject) ==> Count(r.sentMsgs, key) == Count(k.sentMsgs, key)
    ensures forall key :: key != (worker, subject) ==> Count(r.sentBytes, key) == Count(k.sentBytes, key)
  {
    match d
    case MarshalFailed => k.(failed := Bump(k.failed, (worker, "marshal_error"), 1))
    case PublishFailed => k.(failed := Bump(k.failed, (worker, "publish_error"), 1))
    case Sent(n) => k.(sentMsgs := Bump(k.sentMsgs, (worker, subject), 1), sentBytes := Bump(k.sentBytes, (worker, subject), n))
  }

  /** The sink: its configuration, whether Init succeeded, its workers and the shared counters. */
  class StanOutput {
    var cfg: Config
    /** Set by a successful Init (the marshal options `mo` being non-nil). */
    var ready: bool
    var workers: seq<Config>
    var conns: seq<ConnState>
    /** The intake channel, as the messages handed over and not yet taken by a worker. */
    var intake: seq<Pending>
    var counters: Counters

    ghost predicate Valid()
      reads this
    {
      |conns| == |workers| && (ready ==> Complete(cfg) && IsWorkerConfigs(cfg, workers))
    }

    constructor ()
      ensures Valid()
      ensures cfg == EmptyConfig && !ready && workers == [] && conns == [] && intake == [] && counters == NoCounts
    {
      cfg := EmptyConfig;
      ready := false;
      workers, conns, intake := [], [], [];
      counters := NoCounts;
    }

    /** setDefaults, field by field in place; on an error the fields set so far stay set. */
    method SetDefaults(id: string) returns (err: Option<ConfigError>)
      modifies this`cfg
      ensures err.None? <==> Defaults(old(cfg), id).Ok?
      ensures err.None? ==> cfg == Defaults(old(cfg), id).value
      ensures err.Some? ==> err.value == Defaults(old(cfg), id).error
      ensures err == Some(ClusterNameMandatory) ==> cfg == old(cfg).(name := GeneratedName(old(cfg).name, id))
      ensures err.Some? && err.value.UnsupportedFormat? ==> cfg == BeforeFormatCheck(old(cfg), id)
    {
      ghost var c0 := cfg;
      if cfg.name == "" {
        cfg := cfg.(name := "gnmic-" + id);
      }
      if cfg.clusterName == "" {
        return Some(ClusterNameMandatory);
      }
      ApplyFieldDefaults(id);
      assert cfg == BeforeFormatCheck(c0, id);
      if !SupportedFormat(cfg.format) {
        return Some(UnsupportedFormat(cfg.format));
      }
      if cfg.pingInterval == 0 {
        cfg := cfg.(pingInterval := DefaultPingInterval);
      }
      if cfg.pingRetry == 0 {
        cfg := cfg.(pingRetry := DefaultPingRetry);
      }
      return None;
    }

    /** The defaults setDefaults applies between the cluster-name check and the format check. */
    method ApplyFieldDefaults(id: string)
      requires cfg.name != ""
      modifies this`cfg
      ensures cfg == BeforeFormatCheck(old(cfg), id)
    {
      if cfg.subject == "" && cfg.subjectPrefix == "" {
        cfg := cfg.(subject := DefaultSubjectName);
      }
      if cfg.recoveryWaitTime == 0 {
        cfg := cfg.(recoveryWaitTime := DefaultRecoveryWaitTime);
      }
      if cfg.writeTimeout <= 0 {
        cfg := cfg.(writeTimeout := DefaultWriteTimeout);
      }
      if cfg.numWorkers <= 0 {
        cfg := cfg.(numWorkers := DefaultNumWorkers);
      }
      if cfg.format == "" {
        cfg := cfg.(format := DefaultFormat);
      }
    }

    /**
     * Init with the decoded configuration `c`: defaults and validation, then one worker per
     * configured count, each with its own named copy of the configuration, each starting to connect.
     */
    method Init(c: Config, id: string) returns (err: Option<ConfigError>)
      requires Valid() && !ready
      modifies this
      ensures Valid()
      ensures err.None? <==> Defaults(c, id).Ok?
      ensures err.None? ==> ready && cfg == Defaults(c, id).value && IsWorkerConfigs(cfg, workers)
      ensures err.None? ==> conns == seq(|workers|, _ => Connecting) && intake == [] && counters == old(counters)
      ensures err.Some? ==> !ready && workers == old(workers) && conns == old(conns)
      ensures err.Some? ==> intake == old(intake) && counters == old(counters)
      ensures err.Some? ==>
        cfg == (if c.clusterName == "" then c.(name := GeneratedName(c.name, id)) else BeforeFormatCheck(c, id))
    {
      cfg := c;
      err := SetDefaults(id);
      if err.Some? {
        return;
      }
      var ws := WorkerConfigs(cfg);
      workers := ws;
      conns := seq(|ws|, _ => Connecting);
      intake := [];
      ready := true;
    }

    /** Write: a nil message, or a sink not initialized, is ignored; otherwise the handoff decides. */
    method Write(msg: Option<Gnmi.SubscribeResponse>, meta: Cmd.Meta, handoff: Handoff)
      requires Valid()
      modifies this`intake, this`counters
      ensures Valid()
      ensures msg.None? || !ready || handoff == ContextDone ==> intake == old(intake) && counters == old(counters)
      ensures msg.Some? && ready && handoff == Accepted ==>
        intake == old(intake) + [Pending(msg.value, meta)] && counters == old(counters)
      ensures msg.Some? && ready && handoff == TimedOut ==>
        intake == old(intake) && counters == old(counters).(failed := Bump(old(counters).failed, (cfg.name, "timeout"), 1))
    {
      if msg.None? || !ready {
        return;
      }
      match handoff
      case ContextDone =>
      case Accepted =>
        intake := intake + [Pending(msg.value, meta)];
      case TimedOut =>
        counters := counters.(failed := Bump(counters.failed, (cfg.name, "timeout"), 1));
    }

    /** createSTANConn for worker `w`, over the outcomes of its successive attempts. */
    method Connect(w: nat, attempts: seq<bool>) returns (failures: nat)
      requires Valid() && ready && w < |conns| && conns[w] == Connecting
      modifies this`conns
      ensures Valid()
      ensures (failures, conns[w]) == ConnectLoop(attempts)
      ensures |conns| == old(|conns|) && forall v :: 0 <= v < |conns| && v != w ==> conns[v] == old(conns[v])
    {
      failures := 0;
      var k := 0;
      while k < |attempts| && !attempts[k]
        invariant 0 <= k <= |attempts|
        invariant failures == k
        invariant forall i :: 0 <= i < k ==> !attempts[i]
        invariant ConnectLoop(attempts) == (k + ConnectLoop(attempts[k..]).0, ConnectLoop(attempts[k..]).1)
      {
        assert attempts[k..][1..] == attempts[k + 1..];
        failures := failures + 1;
        k := k + 1;
      }
      if k < |attempts| {
        conns := conns[w := Connected];
      }
    }

    /**
     * One iteration of the worker loop for worker `w`: it takes the next accepted message,
     * marshals it, and publishes it on its subject; a publish failure sends the worker back to
     * connecting. `marshalled` and `published` are the outcomes of the marshaller and the broker.
     */
    method Deliver(w: nat, marshalled: Result<seq<bv8>, string>, published: bool)
      requires Valid() && ready && w < |conns| && conns[w] == Connected && |intake| > 0
      modifies this`intake, this`counters, this`conns
      ensures Valid()
      ensures intake == old(intake)[1..]
      ensures var d := Classify(marshalled, published);
        counters == Record(old(counters), workers[w].name, SubjectName(cfg, workers[w], old(intake)[0].meta), d)
        && conns == old(conns)[w := if d.PublishFailed? then Connecting else Connected]
    {
      var m := intake[0];
      intake := intake[1..];
      var c := workers[w];
      var subject := SubjectName(cfg, c, m.meta);
      match marshalled
      case Err(_) =>
        counters := counters.(failed := Bump(counters.failed, (c.name, "marshal_error"), 1));
      case Ok(b) =>
        if !published {
          counters := counters.(failed := Bump(counters.failed, (c.name, "publish_error"), 1));
          conns := conns[w := Connecting];
        } else {
          counters := counters.(sentMsgs := Bump(counters.sentMsgs, (c.name, subject), 1),
                                sentBytes := Bump(counters.sentBytes, (c.name, subject), |b|));
        }
    }
  }
}
