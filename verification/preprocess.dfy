/**
 * `preprocess_command`: the command-line validation path that runs before any
 * client session exists. Unknown commands pass through; a failure is written
 * to standard output as one error object and ends the process with status 1.
 */
module Preprocessor {
  import opened Optional
  import opened Json
  import opened CString
  import opened Command

  /** One PDU written to standard output: the encoding asked for and the value encoded. */
  datatype Pdu = Pdu(pduType: int, capabilities: int, value: Json)

  /** The process's standard output, as the sequence of PDUs written to it. */
  class Stdout {
    var pdus: seq<Pdu>

    constructor ()
      ensures pdus == []
    {
      pdus := [];
    }

    /** `pduEncodeToStream(pduType, capabilities, value, w_stm_stdout())`. */
    method Write(pduType: int, capabilities: int, value: Json)
      modifies this
      ensures pdus == old(pdus) + [Pdu(pduType, capabilities, value)]
    {
      pdus := pdus + [Pdu(pduType, capabilities, value)];
    }
  }

  /** How `preprocess_command` ends: it returns, the process exits, or an exception escapes it. */
  datatype End = Returns | Exits(status: int) | Raises(thrown: Thrown)

  /** The observable run of `preprocess_command`. */
  datatype PreprocessRun = PreprocessRun(end: End, validated: bool, written: seq<Json>)

  /** The error object: the exception text, the server version, and `cli_validated: true`. */
  function ErrorObject(what: string, version: string): (v: Json)
    ensures v.Object? && v.fields.Keys == {"error", "version", "cli_validated"}
    ensures v.fields["error"] == Str(CStr(what)) && v.fields["cli_validated"] == Bool(true)
    ensures v.fields["version"] == Str(CStr(version))
  {
    Object(map["error" := Str(CStr(what)), "version" := Str(CStr(version)), "cli_validated" := Bool(true)])
  }

  /** The catch block: a std::exception is reported and the process exits with status 1. */
  function Failed(t: Thrown, validated: bool, version: string): PreprocessRun
  {
    if t.StdException? then PreprocessRun(Exits(1), validated, [ErrorObject(t.what, version)])
    else PreprocessRun(Raises(t), validated, [])
  }

  /** What `preprocess_command` does with a request, given the registry and PACKAGE_VERSION. */
  function Preprocess(reg: Registry, args: Json, version: string): (r: PreprocessRun)
    // output happens exactly when the process exits, always with status 1 and one error object
    ensures r.end.Exits? <==> r.written != []
    ensures r.end.Exits? ==>
              (r.end.status == 1 && |r.written| == 1 && r.written[0].Object? &&
               "cli_validated" in r.written[0].fields && r.written[0].fields["cli_validated"] == Bool(true))
    ensures r.end.Raises? ==> r.end.thrown == OtherException && r.written == []
    // the validator runs exactly when the command is known and has one
    ensures r.validated <==> Lookup(reg, args, 0).Found? && Lookup(reg, args, 0).def.cliValidate.Some?
    // pass-through: unknown commands, commands without a validator, and validated requests
    ensures Lookup(reg, args, 0).NotFound? ==> r == PreprocessRun(Returns, false, [])
    ensures Lookup(reg, args, 0).Found? && Lookup(reg, args, 0).def.cliValidate in {None, Some(Completes)} ==>
              r.end == Returns && r.written == []
    // failure: a malformed request, or a validator that throws
    ensures !WellFormed(args) ==>
              r == PreprocessRun(Exits(1), false, [ErrorObject(Lookup(reg, args, 0).thrown.what, version)])
    ensures var l := Lookup(reg, args, 0);
            l.Found? && l.def.cliValidate.Some? && l.def.cliValidate.value.Throws? &&
            l.def.cliValidate.value.thrown.StdException? ==>
              r == PreprocessRun(Exits(1), true, [ErrorObject(l.def.cliValidate.value.thrown.what, version)])
    ensures var l := Lookup(reg, args, 0);
            l.Found? && l.def.cliValidate == Some(Throws(OtherException)) ==>
              r == PreprocessRun(Raises(OtherException), true, [])
  {
    match Lookup(reg, args, 0)
    case Threw(t) => Failed(t, false, version)
    case NotFound => PreprocessRun(Returns, false, [])
    case Found(def) =>
      match def.cliValidate
      case None => PreprocessRun(Returns, false, [])
      case Some(Completes) => PreprocessRun(Returns, true, [])
      case Some(Throws(t)) => Failed(t, true, version)
  }

  /**
   * `preprocess_command(args, outputPdu, outputCapabilities)`, writing to
   * `out`. `Exits(1)` stands for the call to `exit(1)`: control never returns
   * to the caller.
   */
  method PreprocessCommand(
    out: Stdout, reg: Registry, args: Json, outputPdu: int, outputCapabilities: int, version: string)
    returns (end: End)
    modifies out
    ensures var r := Preprocess(reg, args, version);
      end == r.end &&
      out.pdus == old(out.pdus) + (if r.written == [] then [] else [Pdu(outputPdu, outputCapabilities, r.written[0])])
  {
    var thrown: Option<Thrown> := None;
    var found := Lookup(reg, args, 0);
    if found.Threw? {
      thrown := Some(found.thrown);
    } else if found.NotFound? {
      // nothing known about it: pass it on for forwards compatibility
      return Returns;
    } else if found.def.cliValidate.Some? && found.def.cliValidate.value.Throws? {
      thrown := Some(found.def.cliValidate.value.thrown);
    }
    if thrown == None {
      return Returns;
    }
    match thrown.value
    case OtherException =>
      end := Raises(OtherException);
    case StdException(_, what) =>
      out.Write(outputPdu, outputCapabilities, ErrorObject(what, version));
      end := Exits(1);
  }
}
