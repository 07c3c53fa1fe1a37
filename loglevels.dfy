/** The pflag demo's root command (pflag/cmd/root.go): resolving the log
    level from --log-level, --verbose and --quiet, configuring the
    logger's prefix, and the demo messages logged at each level. */
module LogLevels {
  import opened Wrappers
  import opened Format

  /** The four log levels, in increasing severity. */
  datatype Level = Debug | Info | Warn | Error

  function Severity(level: Level): nat
  {
    match level
    case Debug => 0
    case Info => 1
    case Warn => 2
    case Error => 3
  }

  function Name(level: Level): string
  {
    match level
    case Debug => "debug"
    case Info => "info"
    case Warn => "warn"
    case Error => "error"
  }

  /** Every level, in order of severity. */
  const AllLevels: seq<Level> := [Debug, Info, Warn, Error]

  /** `validLevels`. */
  const ValidLevels: seq<string> := ["debug", "info", "warn", "error"]

  /** The default of --log-level. */
  const DefaultLogLevel: string := "info"

  const ConflictError: string := "Error: cannot use both --verbose and --quiet flags together"

  /** The message for a level that is not valid; it lists the valid
      levels joined by ", ". */
  function InvalidLevelError(level: string): string
  {
    "Error: invalid log level '" + level + "'. Valid levels are: " + Join(ValidLevels, ", ")
  }

  /** The level a name denotes, if it is one of the valid names. */
  function ParseLevel(s: string): (r: Option<Level>)
    ensures r.Some? ==> Name(r.value) == s
    ensures r.None? <==> s !in ValidLevels
  {
    if s == "debug" then Some(Debug)
    else if s == "info" then Some(Info)
    else if s == "warn" then Some(Warn)
    else if s == "error" then Some(Error)
    else None
  }

  /** The valid names are the levels' names, listed in order of severity. */
  lemma ValidLevelsInOrder()
    ensures |ValidLevels| == |AllLevels| == 4
    ensures forall k :: 0 <= k < 4 ==> ValidLevels[k] == Name(AllLevels[k]) && Severity(AllLevels[k]) == k
    ensures forall level :: ParseLevel(Name(level)) == Some(level)
  {
  }

  // ---------------------------------------------------------------------
  // Resolving the level

  /** The level named after the shortcut flags are applied: --verbose
      means "debug", --quiet means "error", otherwise --log-level. */
  function Requested(logLevel: string, verbose: bool, quiet: bool): string
  {
    if verbose then "debug" else if quiet then "error" else logLevel
  }

  /** rootCmd.Run's decision: the level the program continues with, or
      the message it exits with. */
  function Resolve(logLevel: string, verbose: bool, quiet: bool): (r: Result<Level, string>)
    ensures verbose && quiet ==> r == Err(ConflictError)
    ensures r.Ok? ==> Name(r.value) == ToLower(Requested(logLevel, verbose, quiet))
    ensures !(verbose && quiet) ==>
      (r.Ok? <==> ToLower(Requested(logLevel, verbose, quiet)) in ValidLevels)
    ensures !(verbose && quiet) && r.Err? ==>
      r.error == InvalidLevelError(ToLower(Requested(logLevel, verbose, quiet)))
  {
    if verbose && quiet then Err(ConflictError)
    else
      var lowered := ToLower(Requested(logLevel, verbose, quiet));
      match ParseLevel(lowered)
      case Some(level) => Ok(level)
      case None => Err(InvalidLevelError(lowered))
  }

  /** --verbose and --quiet each decide the level alone, whatever
      --log-level says. */
  lemma ShortcutsOverride(logLevel: string)
    ensures Resolve(logLevel, true, false) == Ok(Debug)
    ensures Resolve(logLevel, false, true) == Ok(Error)
  {
    assert ToLower("debug") == "debug";
    assert ToLower("error") == "error";
  }

  /** Validation ignores case: names that agree once lower-cased resolve
      alike. */
  lemma ResolveIgnoresCase(a: string, b: string, verbose: bool, quiet: bool)
    requires ToLower(a) == ToLower(b)
    ensures Resolve(a, verbose, quiet) == Resolve(b, verbose, quiet)
  {
  }

  /** Without shortcut flags, --log-level is accepted exactly when it
      lower-cases to a level's name, and then denotes that level. */
  lemma ExactlyValidAccepted(logLevel: string, level: Level)
    ensures Resolve(logLevel, false, false) == Ok(level) <==> ToLower(logLevel) == Name(level)
  {
    if ToLower(logLevel) == Name(level) {
      ValidLevelsInOrder();
    }
  }

  /** Upper-case spellings of the level names are accepted. */
  lemma UpperCaseAccepted(level: Level)
    ensures Resolve(ToUpper(Name(level)), false, false) == Ok(level)
  {
    var name := Name(level);
    assert ToLower(ToUpper(name)) == name;
    ExactlyValidAccepted(ToUpper(name), level);
  }

  /** With no flags the level is info. */
  lemma DefaultIsInfo()
    ensures Resolve(DefaultLogLevel, false, false) == Ok(Info)
  {
    assert ToLower(DefaultLogLevel) == "info";
  }

  /** A name that is not a level, such as "trace", is rejected. */
  lemma TraceRejected()
    ensures Resolve("trace", false, false) == Err(InvalidLevelError("trace"))
  {
    assert ToLower("trace") == "trace";
  }

  /** The scan of `validLevels` with a `valid` flag and `break`. */
  method IsValidLevel(level: string) returns (valid: bool)
    ensures valid <==> level in ValidLevels
  {
    var validLevels := ValidLevels;
    valid := false;
    var i := 0;
    while i < |validLevels|
      invariant 0 <= i <= |validLevels|
      invariant level !in validLevels[..i]
    {
      if level == validLevels[i] {
        valid := true;
        break;
      }
      i := i + 1;
    }
    assert !valid ==> validLevels[..i] == validLevels;
  }

  // ---------------------------------------------------------------------
  // setupLogging and runDemo

  /** setupLogging's switch: the logger prefix for a level name, or none
      (the prefix is left alone) for any other string. */
  function PrefixFor(level: string): (r: Option<string>)
    ensures r.None? <==> level !in ValidLevels
  {
    match level
    case "debug" => Some("[DEBUG] ")
    case "info" => Some("[INFO] ")
    case "warn" => Some("[WARN] ")
    case "error" => Some("[ERROR] ")
    case _ => None
  }

  /** The line setupLogging prints. */
  function Announcement(level: string): string
  {
    "Log level set to: " + ToUpper(level)
  }

  /** Each valid level's prefix is its upper-cased name in brackets, the
      same name the announcement shows. */
  lemma PrefixIsUpperName(level: Level)
    ensures PrefixFor(Name(level)) == Some("[" + ToUpper(Name(level)) + "] ")
  {
    match level
    case Debug =>
      assert ToUpper("debug") == "DEBUG";
      assert "[" + "DEBUG" + "] " == "[DEBUG] ";
    case Info =>
      assert ToUpper("info") == "INFO";
      assert "[" + "INFO" + "] " == "[INFO] ";
    case Warn =>
      assert ToUpper("warn") == "WARN";
      assert "[" + "WARN" + "] " == "[WARN] ";
    case Error =>
      assert ToUpper("error") == "ERROR";
      assert "[" + "ERROR" + "] " == "[ERROR] ";
  }

  /** The text of the demo message logged for each level. */
  function Message(level: Level): string
  {
    match level
    case Debug => "Debug message: Application started with detailed logging"
    case Info => "Info message: Processing data..."
    case Warn => "Warn message: This is a warning"
    case Error => "Error message: This is an error"
  }

  /** runDemo's switch on the level name: the messages it logs, in order. */
  function DemoMessages(level: string): (r: seq<string>)
    ensures |r| == 0 <==> level !in ValidLevels
  {
    match level
    case "debug" => [Message(Debug), Message(Info), Message(Warn), Message(Error)]
    case "info" => [Message(Info), Message(Warn), Message(Error)]
    case "warn" => [Message(Warn), Message(Error)]
    case "error" => [Message(Error)]
    case _ => []
  }

  function Messages(levels: seq<Level>): seq<string>
  {
    seq(|levels|, k requires 0 <= k < |levels| => Message(levels[k]))
  }

  /** The levels at or above a threshold are the threshold and the
      levels listed after it. */
  lemma AtOrAboveIsSuffix(threshold: Level)
    ensures forall level :: level in AllLevels[Severity(threshold)..] <==> Severity(level) >= Severity(threshold)
  {
    ValidLevelsInOrder();
    forall level
      ensures level in AllLevels[Severity(threshold)..] <==> Severity(level) >= Severity(threshold)
    {
      assert AllLevels[Severity(level)] == level;
    }
  }

  /** runDemo logs exactly the messages of the levels at or above the
      chosen one, from least to most severe: 4, 3, 2 or 1 of them, always
      ending with the error message. */
  lemma DemoFiltersBySeverity(level: Level)
    ensures DemoMessages(Name(level)) == Messages(AllLevels[Severity(level)..])
    ensures |DemoMessages(Name(level))| == 4 - Severity(level)
    ensures DemoMessages(Name(level))[|DemoMessages(Name(level))| - 1] == Message(Error)
  {
    match level
    case Debug => assert AllLevels[0..] == [Debug, Info, Warn, Error];
    case Info => assert AllLevels[1..] == [Info, Warn, Error];
    case Warn => assert AllLevels[2..] == [Warn, Error];
    case Error => assert AllLevels[3..] == [Error];
  }

  // ---------------------------------------------------------------------
  // The command

  /** What a run of the command produces: the error line on stderr with
      exit status 1, or the lines printed on stdout and the messages
      logged (each after the logger's prefix). */
  datatype RunOutcome =
    | Exited(stderr: string)
    | Ran(stdout: seq<string>, logged: seq<string>)

  /** The command's package-level state: its three flags and the
      standard logger's prefix. */
  class PflagDemo {
    var logLevel: string
    var verbose: bool
    var quiet: bool
    var prefix: string

    /** The flags' defaults, before the command line is parsed. */
    constructor ()
      ensures logLevel == DefaultLogLevel && !verbose && !quiet && prefix == ""
    {
      logLevel := DefaultLogLevel;
      verbose := false;
      quiet := false;
      prefix := "";
    }

    /** setupLogging: sets the prefix for a level name and returns the
        line it prints. */
    method SetupLogging(level: string) returns (announcement: string)
      modifies this`prefix
      ensures PrefixFor(level).Some? ==> prefix == PrefixFor(level).value
      ensures PrefixFor(level).None? ==> prefix == old(prefix)
      ensures announcement == Announcement(level)
    {
      match level {
        case "debug" => prefix := "[DEBUG] ";
        case "info" => prefix := "[INFO] ";
        case "warn" => prefix := "[WARN] ";
        case "error" => prefix := "[ERROR] ";
        case _ =>
      }
      announcement := "Log level set to: " + ToUpper(level);
    }

    /** runDemo: the switch on the current level, logging one message per
        line. A valid level logs the messages of every level at least as
        severe, from least to most severe; any other string logs nothing. */
    method RunDemo() returns (logged: seq<string>)
      ensures logged == DemoMessages(logLevel)
      ensures ParseLevel(logLevel).None? ==> logged == []
      ensures ParseLevel(logLevel).Some? ==>
        logged == Messages(AllLevels[Severity(ParseLevel(logLevel).value)..])
    {
      logged := [];
      match logLevel {
        case "debug" =>
          logged := logged + [Message(Debug)];
          logged := logged + [Message(Info)];
          logged := logged + [Message(Warn)];
          logged := logged + [Message(Error)];
        case "info" =>
          logged := logged + [Message(Info)];
          logged := logged + [Message(Warn)];
          logged := logged + [Message(Error)];
        case "warn" =>
          logged := logged + [Message(Warn)];
          logged := logged + [Message(Error)];
        case "error" =>
          logged := logged + [Message(Error)];
        case _ =>
      }
      if ParseLevel(logLevel).Some? {
        DemoFiltersBySeverity(ParseLevel(logLevel).value);
      }
    }

    /** rootCmd.Run. */
    method Run() returns (outcome: RunOutcome)
      modifies this`logLevel, this`prefix
      ensures verbose && quiet ==>
        outcome == Exited(ConflictError) && logLevel == old(logLevel) && prefix == old(prefix)
      ensures !(verbose && quiet) ==> logLevel == ToLower(Requested(old(logLevel), verbose, quiet))
      ensures Resolve(old(logLevel), verbose, quiet).Err? ==>
        outcome == Exited(Resolve(old(logLevel), verbose, quiet).error) && prefix == old(prefix)
      ensures Resolve(old(logLevel), verbose, quiet).Ok? ==>
        var level := Resolve(old(logLevel), verbose, quiet).value;
        logLevel == Name(level)
        && prefix == PrefixFor(Name(level)).value
        && outcome == Ran([Announcement(Name(level)), "", "--- Application Demo ---"],
                          DemoMessages(Name(level)))
    {
      if verbose && quiet {
        return Exited(ConflictError);
      }

      if verbose {
        logLevel := "debug";
      } else if quiet {
        logLevel := "error";
      }

      logLevel := ToLower(logLevel);
      var valid := IsValidLevel(logLevel);
      if !valid {
        return Exited(InvalidLevelError(logLevel));
      }

      var announcement := SetupLogging(logLevel);
      var logged := RunDemo();
      outcome := Ran([announcement, "", "--- Application Demo ---"], logged);
    }
  }
}
