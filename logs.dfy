/**
 * pkg/logs: the per-call logging options (options.go) and the notifier naming rules
 * used when notifiers are registered at start-up (init.go).
 */
module Logs {
  import opened Text

  /** The two LogOption implementations. */
  datatype LogOption = WithNotifierOption | WithNotifyTargetOption(targets: seq<string>)

  function WithNotifier(): LogOption { WithNotifierOption }

  function WithNotifyTarget(targets: seq<string>): LogOption { WithNotifyTargetOption(targets) }

  /** The targets an option contributes. */
  function TargetsOf(o: LogOption): seq<string>
  {
    match o
    case WithNotifierOption => []
    case WithNotifyTargetOption(ts) => ts
  }

  function AllTargets(opts: seq<LogOption>): seq<string>
  {
    if opts == [] then [] else AllTargets(opts[..|opts| - 1]) + TargetsOf(opts[|opts| - 1])
  }

  /** logOptions, the options collected for one log call. */
  class LogOptions {
    var withNotifier: bool
    var targets: seq<string>

    /** &logOptions{} */
    constructor ()
      ensures !withNotifier && targets == []
    {
      withNotifier := false;
      targets := [];
    }

    /** LogOption.apply: both options switch notification on; WithNotifyTarget also appends its targets. */
    method Apply(o: LogOption)
      modifies this
      ensures withNotifier
      ensures targets == old(targets) + TargetsOf(o)
    {
      match o {
        case WithNotifierOption =>
          withNotifier := true;
        case WithNotifyTargetOption(ts) =>
          withNotifier := true;
          targets := targets + ts;
      }
    }

    /** The loop of Logger.logWithOpts over the options of one call. */
    method ApplyAll(opts: seq<LogOption>)
      modifies this
      ensures withNotifier == (old(withNotifier) || opts != [])
      ensures targets == old(targets) + AllTargets(opts)
    {
      var i := 0;
      while i < |opts|
        invariant 0 <= i <= |opts|
        invariant withNotifier == (old(withNotifier) || i > 0)
        invariant targets == old(targets) + AllTargets(opts[..i])
      {
        assert opts[..i + 1][..i] == opts[..i];
        Apply(opts[i]);
        i := i + 1;
      }
      assert opts[..|opts|] == opts;
    }
  }

  /** AllTargets keeps every option's targets, in the order the options were given. */
  lemma {:induction false} AllTargetsAppend(a: seq<LogOption>, b: seq<LogOption>)
    ensures AllTargets(a + b) == AllTargets(a) + AllTargets(b)
  {
    if b != [] {
      assert (a + b)[..|a + b| - 1] == a + b[..|b| - 1];
      AllTargetsAppend(a, b[..|b| - 1]);
    } else {
      assert a + b == a;
    }
  }

  /** WithNotifyTarget() with no targets contributes nothing but still enables notification (see Apply). */
  lemma EmptyTargetListAddsNothing()
    ensures TargetsOf(WithNotifyTarget([])) == [] && WithNotifyTarget([]) != WithNotifier()
  {
  }

  /** capitalize: an ASCII lower-case first byte becomes upper case (by subtracting 32); everything else is kept. */
  function Capitalize(s: string): (r: string)
    ensures |r| == |s|
    ensures s == [] ==> r == []
    ensures |s| > 0 ==> r[1..] == s[1..]
    ensures |s| > 0 && 'a' <= s[0] <= 'z' ==> 'A' <= r[0] <= 'Z' && r[0] as int == s[0] as int - 32
    ensures |s| > 0 && !('a' <= s[0] <= 'z') ==> r == s
  {
    if |s| == 0 then s
    else if 'a' <= s[0] <= 'z' then [(s[0] as int - 32) as char] + s[1..]
    else s
  }

  /** Capitalising twice is the same as capitalising once. */
  lemma CapitalizeIdempotent(s: string)
    ensures Capitalize(Capitalize(s)) == Capitalize(s)
  {
  }

  /** The levels for which a webhook notifier is looked up, in order. */
  const NotifierLevels: seq<string> := ["error", "warn", "info"]

  /** The variable holding a level's webhook URL. */
  function EnvKey(level: string): (k: string)
    ensures |k| == |"DISCORD_WEBHOOK_"| + |level|
    ensures "DISCORD_WEBHOOK_" <= k
    ensures k[|"DISCORD_WEBHOOK_"|..] == ToUpper(level)
  {
    "DISCORD_WEBHOOK_" + ToUpper(level)
  }

  /** The user name a level's notifier posts under. */
  function NotifierUsername(level: string): (u: string)
    ensures |u| == |"Logger"| + |level| + |"Manager"|
    ensures u[..6] == "Logger" && u[6..6 + |level|] == Capitalize(level) && u[6 + |level|..] == "Manager"
  {
    "Logger" + Capitalize(level) + "Manager"
  }

  /** The names of one level, from its upper-cased and capitalised forms. */
  lemma NamesOf(level: string, upper: string, capital: string, key: string, user: string)
    requires ToUpper(level) == upper && Capitalize(level) == capital
    requires key == "DISCORD_WEBHOOK_" + upper && user == "Logger" + capital + "Manager"
    ensures EnvKey(level) == key && NotifierUsername(level) == user
  {
  }

  /** The concrete names for the three levels. */
  lemma NotifierNames()
    ensures EnvKey("error") == "DISCORD_WEBHOOK_ERROR" && NotifierUsername("error") == "LoggerErrorManager"
    ensures EnvKey("warn") == "DISCORD_WEBHOOK_WARN" && NotifierUsername("warn") == "LoggerWarnManager"
    ensures EnvKey("info") == "DISCORD_WEBHOOK_INFO" && NotifierUsername("info") == "LoggerInfoManager"
  {
    LevelWords();
    LevelNames();
    NamesOf("error", "ERROR", "Error", "DISCORD_WEBHOOK_ERROR", "LoggerErrorManager");
    NamesOf("warn", "WARN", "Warn", "DISCORD_WEBHOOK_WARN", "LoggerWarnManager");
    NamesOf("info", "INFO", "Info", "DISCORD_WEBHOOK_INFO", "LoggerInfoManager");
  }

  /** The upper-cased and capitalised forms of the three levels. */
  lemma LevelWords()
    ensures ToUpper("error") == "ERROR" && ToUpper("warn") == "WARN" && ToUpper("info") == "INFO"
    ensures Capitalize("error") == "Error" && Capitalize("warn") == "Warn" && Capitalize("info") == "Info"
  {
  }

  /** The names those forms make. */
  lemma LevelNames()
    ensures "DISCORD_WEBHOOK_" + "ERROR" == "DISCORD_WEBHOOK_ERROR" && "Logger" + "Error" + "Manager" == "LoggerErrorManager"
    ensures "DISCORD_WEBHOOK_" + "WARN" == "DISCORD_WEBHOOK_WARN" && "Logger" + "Warn" + "Manager" == "LoggerWarnManager"
    ensures "DISCORD_WEBHOOK_" + "INFO" == "DISCORD_WEBHOOK_INFO" && "Logger" + "Info" + "Manager" == "LoggerInfoManager"
  {
  }
}
