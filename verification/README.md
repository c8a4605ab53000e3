# Watchman command dispatch, modelled in Dafny

This project models the request dispatch and policy layer of the Watchman
file-watching service (`watchman/cmds/reg.cpp`). It has three entry points:

- `lookup` checks the shape of a request: it must be a non-empty array whose
  element 0 is a string. It then asks the command registry for that name in
  the caller's mode. A command the registry does not know is "not found",
  not an error.
- `preprocess_command` is the command-line validation path that runs before a
  client session exists. Unknown commands pass through. A known command runs
  its `cli_validate` hook, if it has one. Any `std::exception` is written to
  standard output as one object (`error`, `version`, `cli_validated: true`),
  and the process then exits with status 1.
- `dispatch_command` is the runtime path. It sets the client's
  `current_command` and looks the command up. It replies "Unknown command" if
  the lookup finds nothing. Then comes the poison check, unless the command
  is `CMD_POISON_IMMUNE`, then the owner check, unless it is
  `CMD_ALLOW_ANY_USER`. If both pass, the handler runs under a perf sample,
  which is logged with `args` and `client.pid` only when it is slow. A caught
  exception becomes one error reply and `false`. Scope guards clear
  `current_command` and `perf_sample`.

Layout:

- `optional.dfy`: the `Option` wrapper, standing for a nullable pointer.
- `json.dfy`: structured values, plus the jansson accessors that `lookup`
  uses. On a non-array, `json_array_size` is 0. On anything but a string,
  `json_string_value` is null.
- `cstring.dfy`: what a `const char*` reading of a string yields. It is used
  for `%s` formatting, for JSON strings built from `what()`, and for
  `snprintf`. `CStr` stops at the first NUL.
- `command.dfy`: flags, exceptions, command definitions, the registry, and
  `lookup`.
- `preprocess.dfy`: `preprocess_command`, as a specification function
  `Preprocess` and an imperative method `PreprocessCommand` that writes to a
  `Stdout` object.
- `dispatch.dfy`: `dispatch_command`, as a specification function `Dispatch`
  and an imperative method `DispatchCommand`. The method works on a `Client`
  class (`isOwner`, `currentCommand`, `perfSample`, the replies sent to it), a
  `PerfSample` class and a `PerfLog` sink.
- `properties.dfy`: properties that relate several runs, or the two paths on
  the same request.

Modelling choices:

- The registry is a map from a `Query(name, mode)` to a definition. The body
  of `lookup_command` is not part of this model, so its answer for each name
  and mode is whatever the map holds. Stating `Lookup` against this map is
  how the model says that `mode` is passed on unchanged.
- A definition holds its flags, the outcome of its optional `cli_validate`,
  and the outcome of its handler. Each outcome either completes or throws.
- Exceptions are the `Thrown` datatype. Both entry points catch
  `std::exception` only. Any other exception escapes them: `Raises` from
  `Preprocess`, `Raise` from `Dispatch`. The scope guards still clear the
  session fields in that case.
- The dispatch error text is `folly::exceptionStr(e)`, which is the
  exception's type name, then ": ", then `what()`. The preprocess error text
  is `what()` alone.
- The poison reason is one plain string, and empty means healthy. The check
  tests the `std::string` for emptiness. The reply sends its `c_str()`
  through `%s`, so a reason with an embedded NUL is cut at the NUL.
- `sample.finish()` is the boolean parameter `overThreshold`.
- `exit(1)` is the terminal outcome `Exits(1)`.
- `PACKAGE_VERSION` is the parameter `version`.

Behaviour of the code worth noting:

- Only `std::exception` is caught (lines 68 and 142). Any other exception
  escapes both entry points.
- `perf_sample` is cleared only once the perf-sample scope was entered
  (lines 120-123). The early exits at lines 97-112 leave it as it was, so an
  idle session stays idle.
- The poison reason goes through `%s` (line 104), so it is cut at its first
  NUL character.

## Model

| member | source | states |
|---|---|---|
| CString.CStr | watchman/cmds/reg.cpp:104 | a `%s`/`const char*` reading yields the longest NUL-free prefix: a prefix of the input, with no NUL, and stopping only at a NUL or the end; a NUL-free string is unchanged |
| CString.Snprintf | watchman/cmds/reg.cpp:117-118 | `snprintf` into a buffer of `size` bytes yields a prefix of the C string, shorter than `size`, and all of it when it fits; when it does not fit, exactly `size - 1` characters |
| Command.Lookup | watchman/cmds/reg.cpp:32-48 | throws `CommandValidationError` "expected an array with some elements" exactly when the request is not a non-empty array; throws "expected element 0 to be the command name" exactly when element 0 is not a string; otherwise it does not throw and finds a definition exactly when the registry holds the request's name in the given mode, and that definition is the registry's |
| Preprocessor.ErrorObject | watchman/cmds/reg.cpp:71-74 | the error object has exactly the keys `error`, `version`, `cli_validated`, with the exception text as `error`, `PACKAGE_VERSION` as `version` and `cli_validated` true |
| Preprocessor.Preprocess | watchman/cmds/reg.cpp:50-79 | output happens exactly when the process exits; the exit status is 1 and the output is one error object; the validator runs exactly when the command is known and has one; unknown commands, commands without a validator, and requests the validator accepts return with no output; a malformed request, or a validator that throws a std::exception, writes that exception's error object and exits 1; a non-std exception escapes with no output |
| Preprocessor.Stdout.Write | watchman/cmds/reg.cpp:76 | the encoded PDU is appended to standard output in the caller's encoding and capabilities |
| Preprocessor.PreprocessCommand | watchman/cmds/reg.cpp:50-79 | the imperative procedure ends as `Preprocess` says and writes its one error object, if any, to standard output in the caller's PDU type and capabilities |
| Dispatcher.ExceptionReply | watchman/cmds/reg.cpp:142-144 | the reply for a caught exception is its type name, ": ", and its `what()` text |
| Dispatcher.OwnerMessage | watchman/cmds/reg.cpp:108-110 | the owner-check reply is "you must be the process owner to execute '", then the definition's name as a C string, then "'"; the name can be read back from the message |
| Dispatcher.SampleName | watchman/cmds/reg.cpp:117-119 | the sample name always starts with "dispatch_command:", is a prefix of that text followed by the command name, is at most 127 characters (the 128-byte buffer less its NUL), is complete when it fits, and is cut to exactly 127 characters when it does not |
| Dispatcher.PerfSample.AddMeta | watchman/cmds/reg.cpp:131-135 | metadata is added under its key |
| Dispatcher.PerfSample.Log | watchman/cmds/reg.cpp:136 | the sample is handed to the log with its name and metadata |
| Dispatcher.Client.SendErrorResponse | watchman/cmds/reg.cpp:98 | one error response is queued on the client, and the session fields are left as they were |
| Dispatcher.Dispatch | watchman/cmds/reg.cpp:81-147 | at most one error reply, and `false` exactly when one is sent; a non-std exception escapes with no reply; `true` exactly when the handler ran and completed; the handler runs exactly when the command is found and passes the poison and owner checks; the sample is logged exactly on success with `finish()` over threshold; a malformed request gives the validation error reply, an unknown command gives "Unknown command", poison (for a non-immune command) gives the reason verbatim and takes priority over the owner check, the owner check gives the owner message, and a throwing handler gives its exception text |
| Dispatcher.InvokeHandler | watchman/cmds/reg.cpp:128 | the handler's outcome is the definition's, and it runs with the session's current command and perf sample as they are at the call |
| Dispatcher.RunSampled | watchman/cmds/reg.cpp:114-139 | the handler runs with a fresh sample named by `SampleName` attached; the sample is logged with `args` and `client.pid` exactly when the handler completed and `finish()` reported it slow; `perf_sample` is cleared on every exit, including when the handler throws |
| Dispatcher.Catch | watchman/cmds/reg.cpp:142-146 | a std::exception sends one error reply with its text and yields `false`; any other exception passes through with no reply |
| Dispatcher.DispatchGuarded | watchman/cmds/reg.cpp:95-146 | the try/catch body ends as `Dispatch` says, sends its replies, runs the handler at most once, logs at most one sample, and leaves `current_command` as the caller set it |
| Dispatcher.DispatchCommand | watchman/cmds/reg.cpp:81-147 | the result, the replies sent, the handler run and the logged sample are those of `Dispatch`; the handler sees the request as `current_command` and its perf sample attached; `current_command` is cleared on every exit; `perf_sample` is cleared whenever the handler ran and is untouched otherwise, so an idle session stays idle |
| Properties.PoisonImmuneIgnoresPoison | watchman/cmds/reg.cpp:102-106 | a poison-immune command behaves exactly as it would on a healthy server |
| Properties.AnyUserIgnoresOwnership | watchman/cmds/reg.cpp:108-112 | a command open to any user behaves for a non-owner exactly as for the owner |
| Properties.OwnerOnlyCommand | watchman/cmds/reg.cpp:108-128 | on a healthy server, a non-owner is refused an owner-only command with a reply naming it and no handler run; the owner gets the handler run and its result |
| Properties.MalformedRequestFailsBothPaths | watchman/cmds/reg.cpp:35-45 | a malformed request makes the preprocessor write the validation message and exit 1, and makes the dispatcher reply with the validation error's type name followed by the same message and return `false` |
| Properties.UnknownCommandPassesThenIsRefused | watchman/cmds/reg.cpp:57-63 | a command unknown in mode 0 passes the preprocessor with no output, no validation and no exit, and a command unknown in the runtime mode is refused by the dispatcher with the single "Unknown command" reply and no handler run |
| Properties.DispatchTwice | watchman/cmds/reg.cpp:90-93 | dispatching the same request twice on an idle session gives the same result both times, repeats the replies and the handler run, logs each run's sample according to that run's own `finish()` verdict, and leaves the session idle |

## Left out

- The reader/writer lock on `poisoned_reason` is not modelled. The reason is one string read once, so the two locked reads at lines 102 and 104 are one value.
- Wall-clock timing, the floating-point `slow_command_log_threshold_seconds` setting and `set_wall_time_thresh` are not modelled. `finish()`'s verdict is the `overThreshold` parameter.
- JSON and PDU encoding (`pduEncodeToStream`) is not modelled. A written PDU is the value together with the requested PDU type and capabilities.
- `send_error_response` builds a full response object and may log. The model keeps only the error message of each reply.
- The `logf` debug lines are left out, because they are diagnostics with no effect on the outcome.
- `getPeerProcessID` is the client's constant `peerPid`.
- The bodies of `lookup_command`, the handlers and the `cli_validate` hooks are not part of this model. They are outcomes supplied by the registry map and the definitions.
- A handler's own effects on the session (the replies it sends, the state it changes) are not modelled. Only the fact of its run is recorded, with the session state it saw.
- A handler or validator outcome does not depend on the request's arguments. The definition fixes one outcome per registry entry.
- The constructor of `CommandValidationError` is in a header that is not part of this model. Its `what()` is taken to be the message passed, and its type name is taken as `watchman::CommandValidationError`.
- The `version` field is `PACKAGE_VERSION`, a build-time constant that is not part of this model. It is the parameter `version`.
- Floating-point JSON values are left out, because none of the code paths here inspect them.
- Dispatcher.Dispatch: "`true` exactly when the handler ran and completed" holds under the assumption, stated on the next line, that the other calls in the try block do not throw.
- An exception thrown by a foreign call inside the try block, other than a handler or a validator, is not modelled: `lookup_command` (line 47), the `PerfSample` construction, `set_wall_time_thresh` and `cfg_get_double` (lines 119-126), `add_meta`, `getPeerProcessID` and `log` (lines 131-136), `send_error_response`, and the PDU writer are all taken never to throw. In the source, a `std::exception` from one of the calls at lines 47-136 would be caught at line 142, so even a handler that completed would give `false` and an error reply.
- `exit(1)` is the outcome `Exits(1)`, not real process termination.
- Preprocessor.PreprocessCommand: the request is treated as read-only. `preprocess_command` takes it by mutable reference and hands it to `cli_validate`, which may rewrite it in place for the caller; that rewriting is not captured.
- Dispatcher.SampleName: lengths are counted in Dafny characters, while `snprintf` counts bytes; the two agree for ASCII command names, and multi-byte encodings are not modelled.
