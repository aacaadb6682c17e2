/**
 * Log levels and the parsing of a level name.
 */
module Logger {
  import opened GoStrings

  datatype LogLevel = Debug | Info | Warn | Error

  /** The level's string value. */
  function Name(l: LogLevel): string
  {
    match l
    case Debug => "debug"
    case Info => "info"
    case Warn => "warn"
    case Error => "error"
  }

  /** ParseLogLevel: the lower-cased text selects a level; unknown text selects Info. */
  function ParseLogLevel(level: string): (l: LogLevel)
    ensures l == Warn ==> ToLower(level) == "warn" || ToLower(level) == "warning"
    ensures l != Info ==> ToLower(level) == Name(l) || ToLower(level) == "warning"
  {
    var s := ToLower(level);
    if s == "debug" then Debug
    else if s == "info" then Info
    else if s == "warn" || s == "warning" then Warn
    else if s == "error" then Error
    else Info
  }

  /** Each level's own name parses back to it. */
  lemma ParseName(l: LogLevel)
    ensures ParseLogLevel(Name(l)) == l
  {
    var n := Name(l);
    LowerIdempotentOnLower(n);
  }

  /** Which text selects which level: the four names in any case, "warning" for Warn, and
      Info for everything else, including the empty text. */
  lemma ParseLogLevelCases(level: string)
    ensures ParseLogLevel(level) == Debug <==> ToLower(level) == "debug"
    ensures ParseLogLevel(level) == Warn <==> ToLower(level) == "warn" || ToLower(level) == "warning"
    ensures ParseLogLevel(level) == Error <==> ToLower(level) == "error"
    ensures ParseLogLevel(level) == Info <==>
      ToLower(level) != "debug" && ToLower(level) != "warn" && ToLower(level) != "warning" && ToLower(level) != "error"
  {
  }

  /** Parsing ignores letter case: upper- and lower-cased text parse like the text itself. */
  lemma {:induction false} ParseIgnoresCase(level: string)
    ensures ParseLogLevel(ToUpper(level)) == ParseLogLevel(level)
    ensures ParseLogLevel(ToLower(level)) == ParseLogLevel(level)
  {
    assert ToLower(ToUpper(level)) == ToLower(level) by {
      forall i | 0 <= i < |level| ensures ToLower(ToUpper(level))[i] == ToLower(level)[i] {
        LowerOfUpper(level[i]);
      }
    }
    LowerIdempotent(level);
  }

  lemma LowerOfUpper(c: char)
    ensures LowerChar(UpperChar(c)) == LowerChar(c)
  {
  }

  /** Lower-casing twice is lower-casing once. */
  lemma LowerIdempotent(s: string)
    ensures ToLower(ToLower(s)) == ToLower(s)
  {
    assert forall i | 0 <= i < |s| :: ToLower(ToLower(s))[i] == ToLower(s)[i];
  }

  /** Text that is already lower case is unchanged by lower-casing. */
  lemma LowerIdempotentOnLower(s: string)
    requires forall i | 0 <= i < |s| :: !('A' <= s[i] <= 'Z')
    ensures ToLower(s) == s
  {
    assert forall i | 0 <= i < |s| :: ToLower(s)[i] == s[i];
  }

  /** "DEBUG" gives Debug, "ERROR" gives Error, "Warning" gives Warn, and "" and "verbose" give Info. */
  lemma ParseExamples()
    ensures ParseLogLevel("DEBUG") == Debug && ParseLogLevel("ERROR") == Error
    ensures ParseLogLevel("Warning") == Warn
    ensures ParseLogLevel("") == Info && ParseLogLevel("verbose") == Info
  {
    assert ToLower("DEBUG") == "debug";
    assert ToLower("ERROR") == "error";
    assert ToLower("Warning") == "warning";
    assert ToLower("verbose") == "verbose";
  }
}
