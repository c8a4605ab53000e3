/**
 * Command definitions, the registry, and `lookup`: the request-shape check
 * followed by one registry query.
 */
module Command {
  import opened Optional
  import opened Json

  /** The capability bits the dispatcher consults (CMD_POISON_IMMUNE, CMD_ALLOW_ANY_USER). */
  datatype Flag = PoisonImmune | AllowAnyUser

  /**
   * An exception in flight. Both entry points catch `std::exception` only;
   * anything else passes through them.
   */
  datatype Thrown =
    | StdException(typeName: string, what: string)
    | OtherException

  /** How a call into command code (a handler or a validator) ends. */
  datatype Outcome = Completes | Throws(thrown: Thrown)

  /**
   * A registered command: its name, its flags, the outcome of its optional
   * `cli_validate` hook and the outcome of its handler `func`.
   */
  datatype CommandDef = CommandDef(
    name: string,
    flags: set<Flag>,
    cliValidate: Option<Outcome>,
    func: Outcome)

  /** One registry question: a command name asked for in a lookup mode. */
  datatype Query = Query(name: string, mode: int)

  /** The registry's answer to every query; a query absent from the map finds nothing. */
  type Registry = map<Query, CommandDef>

  datatype LookupResult = Found(def: CommandDef) | NotFound | Threw(thrown: Thrown)

  /** The demangled name of the exception type `lookup` throws. */
  const ValidationErrorType := "watchman::CommandValidationError"
  const EmptyRequestMessage := "invalid command (expected an array with some elements!)"
  const NameNotStringMessage := "invalid command: expected element 0 to be the command name"

  function ValidationError(message: string): Thrown
  {
    StdException(ValidationErrorType, message)
  }

  /** A request names a command: a non-empty array whose first element is a string. */
  predicate WellFormed(args: Json)
  {
    args.Array? && |args.items| > 0 && args.items[0].Str?
  }

  /** The registry query `lookup_command(name, mode)`. */
  function LookupCommand(reg: Registry, name: string, mode: int): LookupResult
  {
    if Query(name, mode) in reg then Found(reg[Query(name, mode)]) else NotFound
  }

  /**
   * `lookup`: rejects a request that is not a non-empty array, then one whose
   * element 0 is not a string, and otherwise asks the registry for that name
   * in the caller's mode. A command the registry does not know is NotFound,
   * not an exception.
   */
  function Lookup(reg: Registry, args: Json, mode: int): (r: LookupResult)
    ensures r == Threw(ValidationError(EmptyRequestMessage)) <==> !(args.Array? && |args.items| > 0)
    ensures r == Threw(ValidationError(NameNotStringMessage)) <==>
              args.Array? && |args.items| > 0 && !args.items[0].Str?
    ensures !r.Threw? <==> WellFormed(args)
    ensures r.Threw? ==> r.thrown.StdException? && r.thrown.typeName == ValidationErrorType
    ensures WellFormed(args) ==>
              (r.Found? <==> Query(args.items[0].s, mode) in reg) &&
              (r.Found? ==> r.def == reg[Query(args.items[0].s, mode)])
  {
    if ArraySize(args) == 0 then
      Threw(ValidationError(EmptyRequestMessage))
    else
      match StringValue(ArrayGet(args, 0))
      case None => Threw(ValidationError(NameNotStringMessage))
      case Some(name) => LookupCommand(reg, name, mode)
  }
}
