/** The process-wide logger subsystem (`nx::sys::LoggerInit`, `LoggerGet`):
    one-shot initialisation of a shared logger. */
module Log {
  import opened Errors

  /** `LoggerErrorCode`, stored in one byte. */
  datatype LoggerErrorCode = Ok | AlreadyInitialized {
    function Code(): (c: uint8)
      ensures c == 0 <==> this == Ok
    {
      match this
      case Ok => 0
      case AlreadyInitialized => 1
    }
  }

  /** The levels of the `NX_LOG_*` macros. */
  datatype Level = TraceLevel | DebugLevel | InfoLevel | WarnLevel | ErrorLevel | CriticalLevel

  /** The shared logger instance, named and writing to the file at `path`
      (its console and file sinks, level and pattern are not modelled). */
  class Logger {
    const name: string
    const path: string

    constructor (name: string, path: string)
      ensures this.name == name && this.path == path
    {
      this.name := name;
      this.path := path;
    }
  }

  /** `LoggerSubsystem`: the stored logger (null until the first successful
      init) and the flag that makes init one-shot. */
  class LoggerSubsystem {
    var logger: Logger?
    var initialized: bool

    ghost predicate Valid()
      reads this
    {
      initialized <==> logger != null
    }

    /** The static instance before any call. */
    constructor ()
      ensures Valid() && !initialized && logger == null
    {
      logger := null;
      initialized := false;
    }

    /** Whether the `NX_LOG_*` macros may run: each dereferences `LoggerGet()`,
        which is non-null exactly once `LoggerInit` has succeeded. */
    predicate Ready(): (r: bool)
      reads this
      ensures Valid() ==> (r <==> initialized)
    {
      logger != null
    }

    /** `LoggerInit(name, path)`: the first call stores a new logger and marks
        the subsystem initialised; every later call reports
        `kAlreadyInitialized` and leaves the stored logger and the flag alone. */
    method Init(name: string, path: string) returns (e: Error)
      requires Valid()
      modifies this
      ensures Valid() && initialized
      ensures e.IsOk() <==> !old(initialized)
      ensures old(initialized) ==> e == CreateError(LoggerErrorCode.AlreadyInitialized.Code()) && logger == old(logger)
      ensures !old(initialized) ==> e == CreateError(LoggerErrorCode.Ok.Code())
      ensures !old(initialized) ==> fresh(logger) && logger.name == name && logger.path == path
    {
      if initialized {
        e := CreateError(LoggerErrorCode.AlreadyInitialized.Code());
        return;
      }
      logger := new Logger(name, path);
      initialized := true;
      e := CreateError(LoggerErrorCode.Ok.Code());
    }

    /** `LoggerGet()`: the stored logger; the null default before init. */
    function Get(): (l: Logger?)
      requires Valid()
      reads this
      ensures l != null <==> initialized
      ensures l == logger
    {
      logger
    }

    /** One `NX_LOG_*` invocation. The text goes to the sinks, which are outside
        the model; what the model keeps is that the logger must exist, so
        every log line comes after a successful `LoggerInit`. */
    method Emit(level: Level)
      requires Ready()
      ensures Valid() ==> initialized
    {
    }
  }

  /** The two codes are distinct, so only `kOk` gives an "ok" error. */
  lemma CodesDistinct(a: LoggerErrorCode, b: LoggerErrorCode)
    ensures a.Code() == b.Code() ==> a == b
    ensures CreateError(a.Code()).IsOk() <==> a == Ok
  {
  }

  /** Two inits in a row: the second reports `kAlreadyInitialized`, and the
      logger stored by the first is the one `LoggerGet` still returns. */
  method InitTwice(log: LoggerSubsystem, name: string, path: string, name2: string, path2: string)
      returns (first: Error, second: Error)
    requires log.Valid() && !log.initialized
    modifies log
    ensures log.Valid() && first.IsOk() && !second.IsOk()
    ensures second.GetCode() == LoggerErrorCode.AlreadyInitialized.Code()
    ensures log.Get() != null && log.Get().name == name && log.Get().path == path
  {
    first := log.Init(name, path);
    ghost var stored := log.Get();
    second := log.Init(name2, path2);
    assert log.Get() == stored;
  }
}
