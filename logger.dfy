/** The logger facade (logger.service.ts lines 156-271), the `logMessage`
    dispatch it shares (lines 122-127), and the process-wide registration
    (lines 275-298). One `Logger` object stands for the loaded module: the
    environment read once at start-up, the winston logger with its current
    format, and what the console transport, the file transport
    `logs/server.log` and `console.warn` have received, one string per line.
    The clock and the stack capture are parameters of each call. */
module Logging {
  import opened Wrappers
  import opened Text
  import opened Environment
  import opened Location
  import opened Values
  import opened Format
  import opened Bodies

  /** The values the printf format of `toLogFormat` closes over. */
  datatype LineFormat = LineFormat(timestamp: string, level: string, message: string, location: string)

  /** The line a format prints, whatever winston passes it. */
  function Print(f: LineFormat): string
  {
    FormatLine(f.timestamp, f.level, f.message, f.location)
  }

  /** The format `logMessage(level, prefix, message)` installs: the level
      upper-cased, the body the prefix followed by the message, and the
      location resolved from the stack at the call. */
  function Row(level: Level, body: string, timestamp: string, location: string): LineFormat
  {
    LineFormat(timestamp, ToUpper(Name(level)), body, location)
  }

  /** What a transport receives for one line: the line when its gate is open. */
  function Sink(open: bool, line: string): (r: seq<string>)
    ensures open <==> r == [line]
    ensures !open <==> r == []
  {
    if open then [line] else []
  }

  const Full: char := '\U{2588}'

  /** The warning `_envInfo` prints when no environment variable is set. */
  const Banner: string :=
    "\n" + Repeat(Full, 65)
    + "\n" + [Full] + Repeat('\U{2580}', 63) + [Full]
    + "\n\U{2588} \U{26A0}\U{FE0F} **WARNING! WORKING ENVIRONMENT  VARIABLES ARE NOT SET!** \U{26A0}\U{FE0F}  \U{2588}"
    + "\n" + [Full] + Repeat('\U{2584}', 63) + [Full]
    + "\n\U{2588} \U{1F6D1} DEBUG and VERBOSE were disabled for secutiry reasons    \U{1F6D1} \U{2588}"
    + "\n\U{2588} \U{1F6D1} Please, set it into .env so you can use this methods    \U{1F6D1} \U{2588}"
    + "\n" + Repeat(Full, 65)

  /** The warning a second registration logs. */
  const AlreadyRegistered := "Logwise j\U{E1} estava registrado globalmente!"

  class Logger {
    /** The environment name, read once at start-up. */
    const environment: string
    const production: bool
    /** The winston level table and the logger's own level. */
    const levels: map<Level, nat>
    const threshold: Level
    /** The format of the winston logger, replaced on every call. */
    var format: Option<LineFormat>
    var console: seq<string>
    var file: seq<string>
    /** What `console.warn` has printed. */
    var warnings: seq<string>

    /** The table and level are the ones the environment name selects. */
    ghost predicate Valid()
      reads this
    {
      && production == IsProduction(environment)
      && levels == EnabledLevels(production)
      && threshold == DebugLevel(production)
    }

    /** Loading the module and constructing the logger: the banner is
      printed exactly when the environment name is "unset". */
    constructor(vars: EnvVars)
      ensures Valid()
      ensures environment == EnvironmentName(vars)
      ensures format.None? && console == [] && file == []
      ensures warnings == if ShowsBanner(environment) then [Banner] else []
    {
      environment := EnvironmentName(vars);
      production := IsProduction(EnvironmentName(vars));
      levels := EnabledLevels(IsProduction(EnvironmentName(vars)));
      threshold := DebugLevel(IsProduction(EnvironmentName(vars)));
      format := None;
      console := [];
      file := [];
      warnings := if ShowsBanner(EnvironmentName(vars)) then [Banner] else [];
    }

    /** The state one `logMessage(level, prefix, message)` call with body
      `body` leaves: its format installed, its line on each transport whose
      gate admits the level, nothing else changed. */
    twostate predicate Logged(level: Level, body: string, timestamp: string, stack: Option<string>)
      reads this
    {
      var line := Print(Row(level, body, timestamp, GetLogLocation(stack)));
      && format == Some(Row(level, body, timestamp, GetLogLocation(stack)))
      && console == old(console) + Sink(Passes(levels, threshold, level), line)
      && file == old(file) + Sink(Passes(levels, FileSinkLevel, level), line)
      && warnings == old(warnings)
    }

    /** A call that throws before `logMessage` changes nothing. */
    twostate predicate Untouched()
      reads this
    {
      format == old(format) && console == old(console) && file == old(file) && warnings == old(warnings)
    }

    /** `logMessage`: installs a new format, then logs at `level`; the console
      gate is the logger's level, the file gate is `db`. */
    method LogMessage(level: Level, prefix: string, message: string, timestamp: string, stack: Option<string>)
      modifies this
      ensures Logged(level, prefix + message, timestamp, stack)
    {
      var f := Row(level, prefix + message, timestamp, GetLogLocation(stack));
      var line := Print(f);
      var toConsole := Sink(Passes(levels, threshold, level), line);
      var toFile := Sink(Passes(levels, FileSinkLevel, level), line);
      format, console, file := Some(f), console + toConsole, file + toFile;
    }

    method Info(message: string, timestamp: string, stack: Option<string>)
      modifies this
      ensures Logged(Level.Info, ChannelPrefix(Level.Info) + message, timestamp, stack)
    {
      LogMessage(Level.Info, ChannelPrefix(Level.Info), message, timestamp, stack);
    }

    method Success(message: string, timestamp: string, stack: Option<string>)
      modifies this
      ensures Logged(Level.Success, ChannelPrefix(Level.Success) + message, timestamp, stack)
    {
      LogMessage(Level.Success, ChannelPrefix(Level.Success), message, timestamp, stack);
    }

    method Api(message: string, timestamp: string, stack: Option<string>)
      modifies this
      ensures Logged(Level.Api, ChannelPrefix(Level.Api) + message, timestamp, stack)
    {
      LogMessage(Level.Api, ChannelPrefix(Level.Api), message, timestamp, stack);
    }

    method Db(message: string, timestamp: string, stack: Option<string>)
      modifies this
      ensures Logged(Level.Db, ChannelPrefix(Level.Db) + message, timestamp, stack)
    {
      LogMessage(Level.Db, ChannelPrefix(Level.Db), message, timestamp, stack);
    }

    method Client(message: string, timestamp: string, stack: Option<string>)
      modifies this
      ensures Logged(Level.Client, ChannelPrefix(Level.Client) + message, timestamp, stack)
    {
      LogMessage(Level.Client, ChannelPrefix(Level.Client), message, timestamp, stack);
    }

    method Warn(message: string, timestamp: string, stack: Option<string>)
      modifies this
      ensures Logged(Level.Warn, ChannelPrefix(Level.Warn) + message, timestamp, stack)
    {
      LogMessage(Level.Warn, ChannelPrefix(Level.Warn), message, timestamp, stack);
    }

    /** `error(message, object)`: `thrown` when serialising `message` throws. */
    method Error(message: JsValue, extra: JsValue, timestamp: string, stack: Option<string>) returns (thrown: bool)
      modifies this
      ensures thrown <==> ErrorBody(message, extra).None?
      ensures thrown ==> Untouched()
      ensures !thrown ==> Logged(Level.Error, ChannelPrefix(Level.Error) + ErrorBody(message, extra).value, timestamp, stack)
    {
      var body := ErrorBody(message, extra);
      if body.None? {
        return true;
      }
      LogMessage(Level.Error, ChannelPrefix(Level.Error), body.value, timestamp, stack);
      thrown := false;
    }

    /** `debug(message)`: `thrown` when serialising the dump throws. In
      production nothing reaches either transport; the file never gets it. */
    method Debug(message: JsValue, timestamp: string, stack: Option<string>) returns (thrown: bool)
      requires Valid()
      modifies this
      ensures thrown <==> DebugBody(message).None?
      ensures thrown ==> Untouched()
      ensures !thrown ==> Logged(Level.Debug, ChannelPrefix(Level.Debug) + DebugBody(message).value, timestamp, stack)
      ensures file == old(file)
      ensures production ==> console == old(console)
      ensures !production && !thrown ==> |console| == |old(console)| + 1
    {
      var body := DebugBody(message);
      if body.None? {
        return true;
      }
      FileSinkAdmits(production, Level.Debug);
      ProductionSilencesDebug(threshold);
      LoggerThresholdAdmitsTable(production, Level.Debug);
      LogMessage(Level.Debug, ChannelPrefix(Level.Debug), body.value, timestamp, stack);
      thrown := false;
    }

    /** `verbose(message)`: as `debug`, with the verbose dump. */
    method Verbose(message: JsValue, timestamp: string, stack: Option<string>) returns (thrown: bool)
      requires Valid()
      modifies this
      ensures thrown <==> VerboseBody(message).None?
      ensures thrown ==> Untouched()
      ensures !thrown ==> Logged(Level.Verbose, ChannelPrefix(Level.Verbose) + VerboseBody(message).value, timestamp, stack)
      ensures file == old(file)
      ensures production ==> console == old(console)
      ensures !production && !thrown ==> |console| == |old(console)| + 1
    {
      var body := BuildVerboseBody(message);
      if body.None? {
        return true;
      }
      FileSinkAdmits(production, Level.Verbose);
      ProductionSilencesDebug(threshold);
      LoggerThresholdAdmitsTable(production, Level.Verbose);
      LogMessage(Level.Verbose, ChannelPrefix(Level.Verbose), body.value, timestamp, stack);
      thrown := false;
    }
  }

  /** A row whose body is `prefix + message` starts with the timestamp and
      ends with the message. */
  lemma RowEnds(timestamp: string, levelText: string, prefix: string, message: string, location: string)
    ensures var line := FormatLine(timestamp, levelText, prefix + message, location);
      && |message| <= |line| && line[|line| - |message|..] == message
      && StartsWith(line, timestamp)
  {
    var head := RowHead(timestamp, levelText, location);
    SplitAfter(head, prefix, message);
    assert (head + (prefix + message))[..|timestamp|] == head[..|timestamp|];
  }

  /** With a short timestamp, level and location, the message of a row whose
      body is `prefix + message` starts 61 code units plus the prefix's width
      into the line. */
  lemma RowColumn(timestamp: string, levelText: string, prefix: string, message: string, location: string)
    requires Utf16Length(timestamp) <= TimestampWidth
    requires Utf16Length(levelText) <= LevelWidth
    requires Utf16Length(location) <= LocationWidth
    ensures var line := FormatLine(timestamp, levelText, prefix + message, location);
      && |message| <= |line|
      && Utf16Length(line[..|line| - |message|]) == MessageColumn + Utf16Length(prefix)
  {
    var head := RowHead(timestamp, levelText, location);
    SplitAfter(head, prefix, message);
    Utf16LengthAppend(head, prefix);
  }

  /** The row of a `level` call whose body is `prefix + message`: as `RowEnds`. */
  lemma LevelRowEnds(level: Level, prefix: string, message: string, timestamp: string, location: string)
    ensures var line := Print(Row(level, prefix + message, timestamp, location));
      && |message| <= |line| && line[|line| - |message|..] == message
      && StartsWith(line, timestamp)
  {
    RowEnds(timestamp, Row(level, prefix + message, timestamp, location).level, prefix, message, location);
  }

  /** The row of a `level` call whose body is `prefix + message`: as `RowColumn`;
      every level label fits its column. */
  lemma LevelRowColumn(level: Level, prefix: string, message: string, timestamp: string, location: string)
    requires Utf16Length(timestamp) <= TimestampWidth
    requires Utf16Length(location) <= LocationWidth
    ensures var line := Print(Row(level, prefix + message, timestamp, location));
      && |message| <= |line|
      && Utf16Length(line[..|line| - |message|]) == MessageColumn + Utf16Length(prefix)
  {
    var f := Row(level, prefix + message, timestamp, location);
    assert f.level == LevelLabel(level);
    RowColumn(timestamp, f.level, prefix, message, location);
  }

  /** Every line a channel writes starts with the timestamp and ends with its
      message, after the prefix. */
  lemma LineEndsWithMessage(level: Level, message: string, timestamp: string, location: string)
    ensures var line := Print(Row(level, ChannelPrefix(level) + message, timestamp, location));
      && |message| <= |line| && line[|line| - |message|..] == message
      && StartsWith(line, timestamp)
  {
    LevelRowEnds(level, ChannelPrefix(level), message, timestamp, location);
  }

  /** With a short timestamp and location the message of every channel starts
      at the same column: 61 code units of row, then 6 or 16 of prefix. */
  lemma ChannelMessagesAlign(level: Level, message: string, timestamp: string, location: string)
    requires Utf16Length(timestamp) <= TimestampWidth
    requires Utf16Length(location) <= LocationWidth
    ensures var line := Print(Row(level, ChannelPrefix(level) + message, timestamp, location));
      && |message| <= |line|
      && Utf16Length(line[..|line| - |message|])
         == MessageColumn + (if HasCategory(Category(level)) then 16 else 6)
  {
    LevelRowColumn(level, ChannelPrefix(level), message, timestamp, location);
    ChannelPrefixWidth(level);
  }

  /** The global object's `logwise` slot. Once bound it never changes: the
      property is defined read-only and non-configurable, and the proxy in
      it rejects every assignment. */
  class GlobalScope {
    var logwise: Option<Logger>

    constructor()
      ensures logwise.None?
    {
      logwise := None;
    }

    /** Loading the module with `logger` as its instance: binds an empty
      slot; an occupied one keeps its logger, which logs a warning. */
    method Install(logger: Logger, timestamp: string, stack: Option<string>)
      modifies this, if logwise.Some? then {logwise.value} else {}
      ensures old(logwise).None? ==> logwise == Some(logger)
      ensures old(logwise).Some? ==> logwise == old(logwise)
      ensures old(logwise).Some? ==>
        logwise.value.Logged(Level.Warn, ChannelPrefix(Level.Warn) + AlreadyRegistered, timestamp, stack)
    {
      if logwise.None? {
        logwise := Some(logger);
      } else {
        logwise.value.Warn(AlreadyRegistered, timestamp, stack);
      }
    }

    /** An assignment through the proxy: it throws the rejection and
      nothing changes. */
    method AssignThroughProxy() returns (error: Option<string>)
      ensures error == Some(ModificationRejected)
      ensures unchanged(this)
    {
      error := Some(ModificationRejected);
    }
  }

  /** The message of the error the proxy's `set` trap throws. */
  const ModificationRejected := "\U{1F6A8} Modifica\U{E7}\U{E3}o do logger n\U{E3}o permitida!"
}
