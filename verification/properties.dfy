/**
 * Properties that relate several runs of the dispatcher, or the dispatcher
 * and the command-line preprocessor, on the same request.
 */
module Properties {
  import opened Optional
  import opened Json
  import opened CString
  import opened Command
  import opened Preprocessor
  import opened Dispatcher

  /** A poison-immune command behaves exactly as it would on a healthy server. */
  lemma PoisonImmuneIgnoresPoison(
    reg: Registry, args: Json, mode: int, poison: string, isOwner: bool, overThreshold: bool)
    requires Lookup(reg, args, mode).Found? && PoisonImmune in Lookup(reg, args, mode).def.flags
    ensures Dispatch(reg, args, mode, poison, isOwner, overThreshold) ==
            Dispatch(reg, args, mode, "", isOwner, overThreshold)
  {
  }

  /** A command open to any user behaves for a non-owner exactly as for the owner. */
  lemma AnyUserIgnoresOwnership(
    reg: Registry, args: Json, mode: int, poison: string, overThreshold: bool)
    requires Lookup(reg, args, mode).Found? && AllowAnyUser in Lookup(reg, args, mode).def.flags
    ensures Dispatch(reg, args, mode, poison, false, overThreshold) ==
            Dispatch(reg, args, mode, poison, true, overThreshold)
  {
  }

  /**
   * An owner-only command on a healthy server: a non-owner is refused with a
   * reply naming the command and its handler does not run, while the owner
   * gets the handler's own result.
   */
  lemma OwnerOnlyCommand(reg: Registry, args: Json, mode: int, overThreshold: bool)
    requires Lookup(reg, args, mode).Found? && AllowAnyUser !in Lookup(reg, args, mode).def.flags
    ensures var def := Lookup(reg, args, mode).def;
      var refused := Dispatch(reg, args, mode, "", false, overThreshold);
      var owner := Dispatch(reg, args, mode, "", true, overThreshold);
      refused.completion == Return(false) && refused.handler == None &&
      refused.replies == [OwnerPrefix + CStr(def.name) + "'"] &&
      owner.handler == Some(def) &&
      (owner.completion == Return(true) <==> def.func == Completes)
  {
  }

  /**
   * A malformed request fails on both paths with the same validation text:
   * the preprocessor writes it in its error object and exits with status 1;
   * the dispatcher replies with the exception's type name, ": ", and that text.
   */
  lemma {:induction false} MalformedRequestFailsBothPaths(
    reg: Registry, args: Json, mode: int, poison: string, isOwner: bool, overThreshold: bool, version: string)
    requires !WellFormed(args)
    ensures var message := if ArraySize(args) == 0 then EmptyRequestMessage else NameNotStringMessage;
      Preprocess(reg, args, version) == PreprocessRun(Exits(1), false, [ErrorObject(message, version)]) &&
      Dispatch(reg, args, mode, poison, isOwner, overThreshold) ==
        Run(Return(false), [ValidationErrorType + ": " + CStr(message)], None, false)
  {
    var message := if ArraySize(args) == 0 then EmptyRequestMessage else NameNotStringMessage;
    assert NUL !in ValidationErrorType;
    assert Lookup(reg, args, 0).thrown == ValidationError(message);
    assert Lookup(reg, args, mode).thrown == ValidationError(message);
  }

  /**
   * A command the registry does not know, neither in the preprocessor's mode 0
   * nor in the runtime mode, passes the preprocessor untouched (no output, no
   * exit, no validation) and is refused by the dispatcher with
   * the one "Unknown command" reply, without running a handler.
   */
  lemma UnknownCommandPassesThenIsRefused(
    reg: Registry, args: Json, mode: int, poison: string, isOwner: bool, overThreshold: bool, version: string)
    requires WellFormed(args) && Query(args.items[0].s, 0) !in reg && Query(args.items[0].s, mode) !in reg
    ensures Preprocess(reg, args, version) == PreprocessRun(Returns, false, [])
    ensures Dispatch(reg, args, mode, poison, isOwner, overThreshold) ==
            Run(Return(false), [UnknownCommand], None, false)
  {
  }

  /**
   * Dispatching the same request twice on an idle session, with the poison
   * reason and the registry unchanged, gives the same result both times, sends
   * each reply twice, runs the handler once per dispatch, and leaves the
   * session idle: nothing from the first dispatch carries over. Each run is
   * timed on its own, so each gets its own `finish()` verdict and logs a
   * sample only when that run was slow.
   */
  method DispatchTwice(
    client: Client, reg: Registry, args: Json, mode: int, poison: string, slow1: bool, slow2: bool, log: PerfLog)
    returns (first: Completion, second: Completion)
    requires client.Idle()
    modifies client, log
    ensures first == second
    ensures client.Idle()
    ensures var r1 := Dispatch(reg, args, mode, poison, client.isOwner, slow1);
      var r2 := Dispatch(reg, args, mode, poison, client.isOwner, slow2);
      client.responses == old(client.responses) + Responses(r1.replies) + Responses(r2.replies) &&
      r1.replies == r2.replies &&
      client.handlerCalls == old(client.handlerCalls) + HandlerCalls(r1, args) + HandlerCalls(r2, args) &&
      HandlerCalls(r1, args) == HandlerCalls(r2, args) &&
      log.records == old(log.records) + LoggedSamples(r1, args, client.peerPid) + LoggedSamples(r2, args, client.peerPid)
  {
    first := DispatchCommand(client, reg, args, mode, poison, slow1, log);
    second := DispatchCommand(client, reg, args, mode, poison, slow2, log);
  }
}
