/**
 * `dispatch_command`: the runtime path. It looks the command up, applies the
 * poison check and then the owner check, runs the handler under a perf
 * sample, and turns a caught exception into one error reply.
 */
module Dispatcher {
  import opened Optional
  import opened Json
  import opened CString
  import opened Command

  const UnknownCommand := "Unknown command"
  const OwnerPrefix := "you must be the process owner to execute '"
  const SamplePrefix := "dispatch_command:"
  /** The size of the `sample_name` buffer. */
  const SampleNameSize := 128

  /** A reply queued on the client by `send_error_response`. */
  datatype Response = ErrorResponse(message: string)

  /**
   * One run of a command's handler, with the session state it ran under:
   * the client's current command and the name of its perf sample.
   */
  datatype HandlerCall = HandlerCall(command: string, args: Json, currentCommand: Option<Json>, sample: Option<string>)

  /** A perf sample handed to the logging sink, with its metadata. */
  datatype LoggedSample = LoggedSample(name: string, meta: map<string, Json>)

  /** The logging sink that `PerfSample::log` writes to. */
  class PerfLog {
    var records: seq<LoggedSample>

    constructor ()
      ensures records == []
    {
      records := [];
    }
  }

  /**
   * A perf sample. Its wall-clock timing against
   * `slow_command_log_threshold_seconds` is not modelled: `overThreshold` is
   * what `finish()` will report.
   */
  class PerfSample {
    const name: string
    const overThreshold: bool
    var meta: map<string, Json>

    constructor (name: string, overThreshold: bool)
      ensures this.name == name && this.overThreshold == overThreshold && meta == map[]
    {
      this.name := name;
      this.overThreshold := overThreshold;
      meta := map[];
    }

    method AddMeta(key: string, value: Json)
      modifies this
      ensures meta == old(meta)[key := value]
    {
      meta := meta[key := value];
    }

    method Log(log: PerfLog)
      modifies log
      ensures log.records == old(log.records) + [LoggedSample(name, meta)]
    {
      log.records := log.records + [LoggedSample(name, meta)];
    }
  }

  /**
   * A client session. `handlerCalls` stands for the side effects handlers
   * have on the session, which are outside this model: it records that a
   * handler ran, and the session state it saw.
   */
  class Client {
    const isOwner: bool
    const peerPid: int
    var currentCommand: Option<Json>
    var perfSample: PerfSample?
    var responses: seq<Response>
    var handlerCalls: seq<HandlerCall>

    /** No dispatch is in flight on this session. */
    predicate Idle()
      reads this
    {
      currentCommand == None && perfSample == null
    }

    constructor (isOwner: bool, peerPid: int)
      ensures this.isOwner == isOwner && this.peerPid == peerPid
      ensures Idle() && responses == [] && handlerCalls == []
    {
      this.isOwner := isOwner;
      this.peerPid := peerPid;
      currentCommand := None;
      perfSample := null;
      responses := [];
      handlerCalls := [];
    }

    /** `send_error_response(client, ...)` with the message already formatted. */
    method SendErrorResponse(message: string)
      modifies this
      ensures responses == old(responses) + [ErrorResponse(message)]
      ensures currentCommand == old(currentCommand) && perfSample == old(perfSample)
      ensures handlerCalls == old(handlerCalls)
    {
      responses := responses + [ErrorResponse(message)];
    }
  }

  /** How `dispatch_command` ends: it returns a boolean, or a non-std exception escapes it. */
  datatype Completion = Return(value: bool) | Raise(thrown: Thrown)

  /**
   * The observable run of `dispatch_command`: how it ends, the error replies
   * it sends, the definition whose handler ran (if any), and whether the perf
   * sample was logged.
   */
  datatype Run = Run(completion: Completion, replies: seq<string>, handler: Option<CommandDef>, logged: bool)

  /** The reply text for a caught exception: folly::exceptionStr (type name, ": ", what()) through "%s". */
  function ExceptionReply(t: Thrown): (m: string)
    requires t.StdException?
    ensures NUL !in t.typeName ==> m == t.typeName + ": " + CStr(t.what)
  {
    var s := t.typeName + ": " + CStr(t.what);
    assert NUL !in t.typeName ==> CStr(s) == s by {
      if NUL !in t.typeName {
        assert s == t.typeName + (": " + CStr(t.what));
        CStrAppend(t.typeName, ": " + CStr(t.what));
      }
    }
    CStr(s)
  }

  /** The owner-check reply, naming the command as its definition spells it. */
  function OwnerMessage(name: string): (m: string)
    ensures OwnerPrefix <= m && |m| == |OwnerPrefix| + |CStr(name)| + 1
    ensures m[|OwnerPrefix|..|m| - 1] == CStr(name) && m[|m| - 1] == '\''
  {
    OwnerPrefix + CStr(name) + "'"
  }

  /** The perf sample's name: snprintf of "dispatch_command:%s" into a 128-byte buffer. */
  function SampleName(name: string): (r: string)
    ensures |r| < SampleNameSize
    ensures SamplePrefix <= r
    ensures r <= SamplePrefix + CStr(name)
    ensures |SamplePrefix| + |CStr(name)| < SampleNameSize ==> r == SamplePrefix + CStr(name)
    ensures |SamplePrefix| + |CStr(name)| >= SampleNameSize ==> |r| == SampleNameSize - 1
  {
    CStrAppend(SamplePrefix, CStr(name));
    Snprintf(SamplePrefix + CStr(name), SampleNameSize)
  }

  /** The metadata a slow sample is logged with: the request and the peer's process id. */
  function SlowMeta(args: Json, pid: int): map<string, Json>
  {
    map["args" := args, "client" := Object(map["pid" := Integer(pid)])]
  }

  /** The policy checks a found command must pass before its handler may run. */
  predicate Admitted(def: CommandDef, poison: string, isOwner: bool)
  {
    (poison == "" || PoisonImmune in def.flags) && (isOwner || AllowAnyUser in def.flags)
  }

  /** The catch block: a std::exception becomes one error reply and `false`. */
  function Caught(t: Thrown, handler: Option<CommandDef>): Run
  {
    if t.StdException? then Run(Return(false), [ExceptionReply(t)], handler, false)
    else Run(Raise(t), [], handler, false)
  }

  /**
   * What `dispatch_command` does with a request, given the registry, the
   * poison reason (empty when healthy), whether the client is the process
   * owner, and whether the perf sample will exceed its threshold.
   */
  function Dispatch(reg: Registry, args: Json, mode: int, poison: string, isOwner: bool, overThreshold: bool)
    : (r: Run)
    // at most one error reply; `false` exactly when one is sent
    ensures |r.replies| <= 1
    ensures r.completion == Return(false) <==> |r.replies| == 1
    ensures r.completion.Raise? ==> r.completion.thrown == OtherException && r.replies == []
    // success exactly when a handler ran and completed
    ensures r.completion == Return(true) <==> r.handler.Some? && r.handler.value.func == Completes
    // the handler runs exactly when the command is found and passes both checks
    ensures r.handler.Some? <==>
              Lookup(reg, args, mode).Found? && Admitted(Lookup(reg, args, mode).def, poison, isOwner)
    ensures r.handler.Some? ==> r.handler.value == Lookup(reg, args, mode).def
    // the sample is logged exactly when the handler completed and finish() reported it slow
    ensures r.logged <==> r.completion == Return(true) && overThreshold
    // a malformed request: the validation error, reported
    ensures var l := Lookup(reg, args, mode);
            l.Threw? ==> r == Run(Return(false), [ExceptionReply(l.thrown)], None, false)
    // an unknown command
    ensures Lookup(reg, args, mode).NotFound? ==> r == Run(Return(false), [UnknownCommand], None, false)
    // the poison check comes first, whatever the owner check would say
    ensures var l := Lookup(reg, args, mode);
            l.Found? && poison != "" && PoisonImmune !in l.def.flags ==>
              r == Run(Return(false), [CStr(poison)], None, false)
    // then the owner check
    ensures var l := Lookup(reg, args, mode);
            l.Found? && (poison == "" || PoisonImmune in l.def.flags) && !isOwner && AllowAnyUser !in l.def.flags ==>
              r == Run(Return(false), [OwnerMessage(l.def.name)], None, false)
    // a handler that throws anything else: it escapes, with no reply and no log record
    ensures r.handler.Some? && r.handler.value.func == Throws(OtherException) ==>
              r.completion == Raise(OtherException) && r.replies == [] && !r.logged
    // a handler that throws a std::exception: its text is the one reply
    ensures r.handler.Some? && r.handler.value.func.Throws? && r.handler.value.func.thrown.StdException? ==>
              r.replies == [ExceptionReply(r.handler.value.func.thrown)]
  {
    match Lookup(reg, args, mode)
    case Threw(t) => Caught(t, None)
    case NotFound => Run(Return(false), [UnknownCommand], None, false)
    case Found(def) =>
      if poison != "" && PoisonImmune !in def.flags then
        Run(Return(false), [CStr(poison)], None, false)
      else if !isOwner && AllowAnyUser !in def.flags then
        Run(Return(false), [OwnerMessage(def.name)], None, false)
      else
        match def.func
        case Completes => Run(Return(true), [], Some(def), overThreshold)
        case Throws(t) => Caught(t, Some(def))
  }

  /** The responses a run queues on the client. */
  function Responses(replies: seq<string>): seq<Response>
  {
    seq(|replies|, i requires 0 <= i < |replies| => ErrorResponse(replies[i]))
  }

  /** The handler call a run records: the handler sees the request as current command and its sample attached. */
  function HandlerCalls(r: Run, args: Json): seq<HandlerCall>
  {
    if r.handler.Some? then
      [HandlerCall(r.handler.value.name, args, Some(args), Some(SampleName(r.handler.value.name)))]
    else []
  }

  /** The record a run hands to the logging sink. */
  function LoggedSamples(r: Run, args: Json, pid: int): seq<LoggedSample>
  {
    if r.logged && r.handler.Some? then [LoggedSample(SampleName(r.handler.value.name), SlowMeta(args, pid))]
    else []
  }

  /** `def->func(client, args)`: runs the handler and records the session state it ran under. */
  method InvokeHandler(client: Client, def: CommandDef, args: Json) returns (o: Outcome)
    modifies client
    ensures o == def.func
    ensures client.handlerCalls == old(client.handlerCalls) +
              [HandlerCall(def.name, args, old(client.currentCommand),
                           if old(client.perfSample) == null then None else Some(old(client.perfSample.name)))]
    ensures client.currentCommand == old(client.currentCommand) && client.perfSample == old(client.perfSample)
    ensures client.responses == old(client.responses)
  {
    var sample := if client.perfSample == null then None else Some(client.perfSample.name);
    client.handlerCalls := client.handlerCalls + [HandlerCall(def.name, args, client.currentCommand, sample)];
    o := def.func;
  }

  /**
   * The perf-sample scope: creates the sample, attaches it to the client,
   * runs the handler, logs the sample with the request and the peer's pid
   * when `finish()` reports it slow, and detaches it on every exit.
   */
  method RunSampled(client: Client, def: CommandDef, args: Json, overThreshold: bool, log: PerfLog)
    returns (o: Outcome)
    modifies client, log
    ensures o == def.func
    ensures client.perfSample == null && client.currentCommand == old(client.currentCommand)
    ensures client.responses == old(client.responses)
    ensures client.handlerCalls == old(client.handlerCalls) +
              [HandlerCall(def.name, args, old(client.currentCommand), Some(SampleName(def.name)))]
    ensures log.records == old(log.records) +
              (if o == Completes && overThreshold
               then [LoggedSample(SampleName(def.name), SlowMeta(args, client.peerPid))] else [])
  {
    var sample := new PerfSample(SampleName(def.name), overThreshold);
    client.perfSample := sample;
    o := InvokeHandler(client, def, args);
    if o == Completes {
      if sample.overThreshold {  // sample.finish()
        sample.AddMeta("args", args);
        sample.AddMeta("client", Object(map["pid" := Integer(client.peerPid)]));
        assert sample.meta == SlowMeta(args, client.peerPid);
        sample.Log(log);
      }
    }
    client.perfSample := null;  // scope exit
  }

  /** The catch block of `dispatch_command`. */
  method Catch(client: Client, t: Thrown) returns (c: Completion)
    modifies client
    ensures c == Caught(t, None).completion
    ensures client.responses == old(client.responses) + Responses(Caught(t, None).replies)
    ensures client.currentCommand == old(client.currentCommand) && client.perfSample == old(client.perfSample)
    ensures client.handlerCalls == old(client.handlerCalls)
  {
    if t.StdException? {
      client.SendErrorResponse(ExceptionReply(t));
      c := Return(false);
    } else {
      c := Raise(t);
    }
  }

  /** The body of `dispatch_command` inside its try block, with the catch block. */
  method DispatchGuarded(
    client: Client, reg: Registry, args: Json, mode: int, poison: string, overThreshold: bool, log: PerfLog)
    returns (c: Completion)
    modifies client, log
    ensures var r := Dispatch(reg, args, mode, poison, client.isOwner, overThreshold);
      c == r.completion &&
      client.currentCommand == old(client.currentCommand) &&
      client.perfSample == (if r.handler.Some? then null else old(client.perfSample)) &&
      client.responses == old(client.responses) + Responses(r.replies) &&
      client.handlerCalls == old(client.handlerCalls) +
        (if r.handler.Some?
         then [HandlerCall(r.handler.value.name, args, old(client.currentCommand), Some(SampleName(r.handler.value.name)))]
         else []) &&
      log.records == old(log.records) + LoggedSamples(r, args, client.peerPid)
  {
    var found := Lookup(reg, args, mode);
    if found.Threw? {
      c := Catch(client, found.thrown);
      return;
    }
    if found.NotFound? {
      client.SendErrorResponse(UnknownCommand);
      return Return(false);
    }
    var def := found.def;
    if poison != "" && PoisonImmune !in def.flags {
      client.SendErrorResponse(CStr(poison));
      return Return(false);
    }
    if !client.isOwner && AllowAnyUser !in def.flags {
      client.SendErrorResponse(OwnerMessage(def.name));
      return Return(false);
    }
    var o := RunSampled(client, def, args, overThreshold, log);
    if o.Throws? {
      c := Catch(client, o.thrown);
    } else {
      c := Return(true);
    }
  }

  /**
   * `dispatch_command(client, args, mode)`. The poison reason is read once;
   * `overThreshold` is what the perf sample's `finish()` reports. The client's
   * current command is the request for the whole call and is cleared on
   * every exit, including an escaping exception.
   */
  method DispatchCommand(
    client: Client, reg: Registry, args: Json, mode: int, poison: string, overThreshold: bool, log: PerfLog)
    returns (c: Completion)
    modifies client, log
    ensures var r := Dispatch(reg, args, mode, poison, client.isOwner, overThreshold);
      c == r.completion &&
      client.currentCommand == None &&
      client.perfSample == (if r.handler.Some? then null else old(client.perfSample)) &&
      client.responses == old(client.responses) + Responses(r.replies) &&
      client.handlerCalls == old(client.handlerCalls) + HandlerCalls(r, args) &&
      log.records == old(log.records) + LoggedSamples(r, args, client.peerPid)
    ensures old(client.Idle()) ==> client.Idle()
  {
    client.currentCommand := Some(args);
    c := DispatchGuarded(client, reg, args, mode, poison, overThreshold, log);
    client.currentCommand := None;  // scope exit
  }
}
