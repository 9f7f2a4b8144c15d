/**
 * The src/ copy's command line (src/main.go): the loop that walks the raw
 * arguments, taking `--`, positional words, `--flag=value` and `--flag value`
 * apart and recording in `provided` which configuration keys the user set;
 * and the start-up check of the message count against the history limit.
 *
 * Interpret is one pass of the loop body and Parse what the whole loop
 * computes; ParseArgs is the loop itself. Printing help and exiting become results.
 */
module SrcCli {
  import opened Wrappers
  import opened GoText
  import opened GoStrconv
  import opened ConfigMap
  import opened SrcSettings

  /** The flags the loop recognises; each has one or two spellings. */
  datatype Flag =
    | ModelFlag | TemperatureFlag | TopPFlag | FrequencyPenaltyFlag | PresencePenaltyFlag | MaxTokensFlag
    | LimitFlag | SysPromptFileFlag | AccessTokenFlag | ReasoningFlag | StopFlag | PromptFlag
    | StreamFlag | PersistSystemFlag | NoStreamFlag | SaveSettingsFlag | ListFlag | HelpFlag

  /** The spellings the switch lists for a flag. */
  function Spellings(f: Flag): set<string> {
    match f
    case ModelFlag => {"-m", "--model"}
    case TemperatureFlag => {"-T", "--temperature"}
    case TopPFlag => {"-P", "--top-p"}
    case FrequencyPenaltyFlag => {"-f", "--frequency-penalty"}
    case PresencePenaltyFlag => {"-r", "--presence-penalty"}
    case MaxTokensFlag => {"-M", "--max-tokens"}
    case LimitFlag => {"-L", "--limit"}
    case SysPromptFileFlag => {"-s", "--sys-prompt-file"}
    case AccessTokenFlag => {"-k", "--access-token"}
    case ReasoningFlag => {"--reasoning"}
    case StopFlag => {"--stop"}
    case PromptFlag => {"--prompt"}
    case StreamFlag => {"--stream"}
    case PersistSystemFlag => {"-S"}
    case NoStreamFlag => {"--no-stream"}
    case SaveSettingsFlag => {"--save-settings"}
    case ListFlag => {"-l", "--list"}
    case HelpFlag => {"-h", "--help"}
  }

  /** The flag a key names: one-letter flags by their letter, long ones by length first. */
  function FlagNamed(key: string): Option<Flag> {
    if |key| == 2 && key[0] == '-' then
      match key[1]
      case 'm' => Some(ModelFlag)
      case 'T' => Some(TemperatureFlag)
      case 'P' => Some(TopPFlag)
      case 'f' => Some(FrequencyPenaltyFlag)
      case 'r' => Some(PresencePenaltyFlag)
      case 'M' => Some(MaxTokensFlag)
      case 'L' => Some(LimitFlag)
      case 's' => Some(SysPromptFileFlag)
      case 'k' => Some(AccessTokenFlag)
      case 'S' => Some(PersistSystemFlag)
      case 'l' => Some(ListFlag)
      case 'h' => Some(HelpFlag)
      case _ => None
    else if |key| == 7 && key == "--model" then Some(ModelFlag)
    else if |key| == 13 && key == "--temperature" then Some(TemperatureFlag)
    else if |key| == 7 && key == "--top-p" then Some(TopPFlag)
    else if |key| == 19 && key == "--frequency-penalty" then Some(FrequencyPenaltyFlag)
    else if |key| == 18 && key == "--presence-penalty" then Some(PresencePenaltyFlag)
    else if |key| == 12 && key == "--max-tokens" then Some(MaxTokensFlag)
    else if |key| == 7 && key == "--limit" then Some(LimitFlag)
    else if |key| == 17 && key == "--sys-prompt-file" then Some(SysPromptFileFlag)
    else if |key| == 14 && key == "--access-token" then Some(AccessTokenFlag)
    else if |key| == 11 && key == "--reasoning" then Some(ReasoningFlag)
    else if |key| == 6 && key == "--stop" then Some(StopFlag)
    else if |key| == 8 && key == "--prompt" then Some(PromptFlag)
    else if |key| == 8 && key == "--stream" then Some(StreamFlag)
    else if |key| == 11 && key == "--no-stream" then Some(NoStreamFlag)
    else if |key| == 15 && key == "--save-settings" then Some(SaveSettingsFlag)
    else if |key| == 6 && key == "--list" then Some(ListFlag)
    else if |key| == 6 && key == "--help" then Some(HelpFlag)
    else None
  }

  /** Every listed spelling names its flag. */
  lemma FlagNamedSpellings(f: Flag, key: string)
    requires key in Spellings(f)
    ensures FlagNamed(key) == Some(f)
  {
  }

  /** A key names a flag exactly when it is one of that flag's listed spellings. */
  lemma FlagNamedExactly(f: Flag, key: string)
    ensures FlagNamed(key) == Some(f) <==> key in Spellings(f)
  {
    if key in Spellings(f) {
      FlagNamedSpellings(f, key);
    } else if |key| == 2 && key[0] == '-' {
      assert key == ['-', key[1]];
    }
  }

  /** The flags whose value is the word after the `=` or, when that is empty, the next argument. */
  predicate TakesValue(f: Flag) {
    f.ModelFlag? || f.TemperatureFlag? || f.TopPFlag? || f.FrequencyPenaltyFlag? || f.PresencePenaltyFlag?
    || f.MaxTokensFlag? || f.LimitFlag? || f.SysPromptFileFlag? || f.AccessTokenFlag? || f.ReasoningFlag?
    || f.StopFlag? || f.PromptFlag?
  }

  /** The configuration key a flag sets. */
  function CfgKeyOf(f: Flag): Option<string> {
    match f
    case ModelFlag => Some("MODEL")
    case TemperatureFlag => Some("TEMPERATURE")
    case TopPFlag => Some("TOP_P")
    case FrequencyPenaltyFlag => Some("FREQUENCY_PENALTY")
    case PresencePenaltyFlag => Some("PRESENCE_PENALTY")
    case MaxTokensFlag => Some("MAX_TOKENS")
    case LimitFlag => Some("HISTORY_LIMIT")
    case ReasoningFlag => Some("REASONING_EFFORT")
    case StopFlag => Some("STOP")
    case StreamFlag => Some("STREAM")
    case NoStreamFlag => Some("STREAM")
    case _ => None
  }

  /** Everything the loop sets besides the configuration map. */
  datatype Options = Options(
    cfg: map<string, string>,
    provided: map<string, bool>,
    positional: seq<string>,
    accessToken: string,
    sysPromptFile: string,
    persistSystem: bool,
    saveSettings: bool,
    listOnly: bool,
    promptMode: string)

  /** The state before the first argument. */
  function Start(cfg: map<string, string>): Options {
    Options(cfg, map[], [], "", "", false, false, false, "")
  }

  /** Why the loop exits with status 1. */
  datatype ParseError =
    | MissingValue(flag: string)    // "missing value for <the flag as written>"
    | InvalidStream(value: string)  // "--stream" without "=true" or "=false"
    | UnknownOption(arg: string)

  /** The loop ran to the end; help was asked for (the program prints it and returns); or an error. */
  datatype ParseResult = Parsed(opts: Options) | Help(opts: Options) | Failed(error: ParseError)

  /** A token taken apart at its first `=`: (key, value); the value is empty when there is no `=`. */
  function SplitFlag(a: string): (r: (string, string))
    ensures '=' in a ==> r.0 + "=" + r.1 == a && '=' !in r.0
    ensures '=' !in a ==> r == (a, "")
  {
    match CutAtFirst(a, '=')
    case None => (a, "")
    case Some(kv) => kv
  }

  /** What a flag that takes a value does with it. */
  function Assign(o: Options, f: Flag, v: string): Options
    requires TakesValue(f)
  {
    if f == SysPromptFileFlag then o.(sysPromptFile := v, provided := o.provided["SYS_PROMPT_FILE" := true])
    else if f == AccessTokenFlag then o.(accessToken := v)
    else if f == PromptFlag then o.(promptMode := v)
    else
      var k := CfgKeyOf(f).value;
      o.(cfg := o.cfg[k := v], provided := o.provided[k := true])
  }

  /** What a flag that takes no value does. */
  function Switch(o: Options, f: Flag): Options
    requires !TakesValue(f) && f != StreamFlag && f != HelpFlag
  {
    match f
    case PersistSystemFlag => o.(persistSystem := true)
    case NoStreamFlag => o.(cfg := o.cfg["STREAM" := "false"], provided := o.provided["STREAM" := true])
    case SaveSettingsFlag => o.(saveSettings := true)
    case ListFlag => o.(listOnly := true)
  }

  /** One pass of the loop body: it consumed one or two arguments and goes on, or the loop ends. */
  datatype Step = Continue(consumed: nat, o: Options) | Done(result: ParseResult)

  /** The loop body on argument a, with the arguments after it in tail. */
  function Interpret(a: string, tail: seq<string>, o: Options): (step: Step)
    ensures step.Continue? ==> 1 <= step.consumed <= 2 && step.consumed <= 1 + |tail|
  {
    if a == "--" then Done(Parsed(o.(positional := o.positional + tail)))
    else if !HasPrefix(a, "-") then Continue(1, o.(positional := o.positional + [a]))
    else
      var (key, val) := SplitFlag(a);
      match FlagNamed(key)
      case None => Done(Failed(UnknownOption(a)))
      case Some(f) => FlagStep(a, f, val, tail, o)
  }

  /** The loop body on a recognised flag f, written as a with the inline value val. */
  function FlagStep(a: string, f: Flag, val: string, tail: seq<string>, o: Options): (step: Step)
    ensures step.Continue? ==> 1 <= step.consumed <= 2 && step.consumed <= 1 + |tail|
  {
    if f == HelpFlag then Done(Help(o))
    else if TakesValue(f) then
      if val != "" then Continue(1, Assign(o, f, val))
      else if tail == [] then Done(Failed(MissingValue(a)))
      else Continue(2, Assign(o, f, tail[0]))
    else if f == StreamFlag then
      if val == "true" || val == "false" then
        Continue(1, o.(cfg := o.cfg["STREAM" := val], provided := o.provided["STREAM" := true]))
      else Done(Failed(InvalidStream(val)))
    else Continue(1, Switch(o, f))
  }

  /** What the loop computes on the arguments not yet consumed, in state o. */
  function Parse(args: seq<string>, o: Options): ParseResult
    decreases |args|
  {
    if args == [] then Parsed(o)
    else
      match Interpret(args[0], args[1..], o)
      case Done(r) => r
      case Continue(n, o1) => Parse(args[n..], o1)
  }

  /** The argument loop of main, from the default configuration. */
  method ParseArgs(rawArgs: seq<string>, cfg: map<string, string>) returns (r: ParseResult)
    ensures r == Parse(rawArgs, Start(cfg))
  {
    var i := 0;
    var o := Start(cfg);
    while i < |rawArgs|
      invariant i <= |rawArgs|
      invariant Parse(rawArgs[i..], o) == Parse(rawArgs, Start(cfg))
      decreases |rawArgs| - i
    {
      var a := rawArgs[i];
      assert rawArgs[i..][1..] == rawArgs[i + 1..];
      var step := Interpret(a, rawArgs[i + 1..], o);
      if step.Done? {
        return step.result;
      }
      assert rawArgs[i..][step.consumed..] == rawArgs[i + step.consumed..];
      i, o := i + step.consumed, step.o;
    }
    return Parsed(o);
  }

  // ---------------------------------------------------------------------
  // What the loop promises
  // ---------------------------------------------------------------------

  /** A word that does not start with `-`. */
  predicate IsPositional(a: string) {
    !HasPrefix(a, "-")
  }

  /** Words that are all positional are kept in order, and `--` makes every later word positional, in order. */
  lemma {:induction false} DoubleDashEndsFlags(pre: seq<string>, post: seq<string>, o: Options)
    requires forall k :: 0 <= k < |pre| ==> IsPositional(pre[k])
    ensures Parse(pre + ["--"] + post, o) == Parsed(o.(positional := o.positional + pre + post))
    ensures Parse(pre, o) == Parsed(o.(positional := o.positional + pre))
    decreases |pre|
  {
    var args := pre + ["--"] + post;
    if pre == [] {
      assert args[0] == "--" && args[1..] == post;
      assert o.positional + pre + post == o.positional + post;
      assert o.(positional := o.positional + pre) == o;
    } else {
      var o1 := o.(positional := o.positional + [pre[0]]);
      DoubleDashEndsFlags(pre[1..], post, o1);
      assert args[0] == pre[0];
      assert args[1..] == pre[1..] + ["--"] + post;
      assert o1.positional + pre[1..] + post == o.positional + pre + post;
      assert o1.positional + pre[1..] == o.positional + pre;
    }
  }

  /**
   * The configuration keys the loop may set, each marked in provided when
   * set; "SYS_PROMPT_FILE" is marked too, and nothing else.
   */
  predicate ProvidableKey(k: string) {
    (exists f: Flag :: CfgKeyOf(f) == Some(k)) || k == "SYS_PROMPT_FILE"
  }

  /** Every key whose value differs from the defaults is marked provided, and only providable keys are marked. */
  predicate Tracked(cfg0: map<string, string>, o: Options) {
    cfg0.Keys <= o.cfg.Keys
    && (forall k | k in o.cfg && (k !in cfg0 || o.cfg[k] != cfg0[k]) :: IsProvided(o.provided, k))
    && (forall k | k in o.provided :: ProvidableKey(k))
  }

  /** One pass keeps the bookkeeping, whatever it does, and touches no key but the one its flag names. */
  lemma InterpretTracked(a: string, tail: seq<string>, cfg0: map<string, string>, o: Options)
    requires Tracked(cfg0, o)
    ensures var step := Interpret(a, tail, o);
      (step.Continue? ==> Tracked(cfg0, step.o))
      && (step.Done? && !step.result.Failed? ==> Tracked(cfg0, step.result.opts))
    ensures forall k | MarkedKey(a) != Some(k) :: StepKeeps(Interpret(a, tail, o), o, k)
  {
    forall k | MarkedKey(a) != Some(k) ensures StepKeeps(Interpret(a, tail, o), o, k) {
      InterpretMarksOwnKey(a, tail, o, k);
    }
    if a != "--" && HasPrefix(a, "-") {
      var (key, val) := SplitFlag(a);
      if FlagNamed(key).Some? {
        FlagStepTracked(a, FlagNamed(key).value, val, tail, cfg0, o);
      }
    }
  }

  lemma FlagStepTracked(a: string, f: Flag, val: string, tail: seq<string>, cfg0: map<string, string>, o: Options)
    requires Tracked(cfg0, o)
    ensures var step := FlagStep(a, f, val, tail, o);
      (step.Continue? ==> Tracked(cfg0, step.o))
      && (step.Done? && !step.result.Failed? ==> Tracked(cfg0, step.result.opts))
  {
    if f != HelpFlag {
      if TakesValue(f) {
        AssignTracked(cfg0, o, f, val);
        if tail != [] {
          AssignTracked(cfg0, o, f, tail[0]);
        }
      } else {
        assert CfgKeyOf(StreamFlag) == Some("STREAM");
        assert CfgKeyOf(NoStreamFlag) == Some("STREAM");
      }
    }
  }

  lemma AssignTracked(cfg0: map<string, string>, o: Options, f: Flag, v: string)
    requires TakesValue(f) && Tracked(cfg0, o)
    ensures Tracked(cfg0, Assign(o, f, v))
  {
    if f == SysPromptFileFlag {
      ProvideTracked(cfg0, o, "SYS_PROMPT_FILE");
    } else if f != AccessTokenFlag && f != PromptFlag {
      var k := CfgKeyOf(f).value;
      assert ProvidableKey(k) by {
        assert CfgKeyOf(f) == Some(k);
      }
      SetTracked(cfg0, o, k, v);
    }
  }

  /** Marking a providable key keeps the bookkeeping. */
  lemma ProvideTracked(cfg0: map<string, string>, o: Options, k: string)
    requires Tracked(cfg0, o) && ProvidableKey(k)
    ensures Tracked(cfg0, o.(provided := o.provided[k := true]))
  {
  }

  /** Setting a providable key and marking it keeps the bookkeeping. */
  lemma SetTracked(cfg0: map<string, string>, o: Options, k: string, v: string)
    requires Tracked(cfg0, o) && ProvidableKey(k)
    ensures Tracked(cfg0, o.(cfg := o.cfg[k := v], provided := o.provided[k := true]))
  {
  }

  /**
   * The key the loop marks provided when it reads token a as a flag: the
   * key of the flag a names, or "SYS_PROMPT_FILE" for -s; none for `--`,
   * positional words, unknown flags and flags that set no key.
   */
  function MarkedKey(a: string): Option<string> {
    if a == "--" || !HasPrefix(a, "-") then None
    else
      match FlagNamed(SplitFlag(a).0)
      case None => None
      case Some(f) => if f == SysPromptFileFlag then Some("SYS_PROMPT_FILE") else CfgKeyOf(f)
  }

  /** No argument is a flag token for key k. */
  predicate NoFlagFor(args: seq<string>, k: string) {
    forall i :: 0 <= i < |args| ==> MarkedKey(args[i]) != Some(k)
  }

  /** Key k has the same value and the same mark in o1 as in o. */
  predicate KeptKey(o: Options, o1: Options, k: string) {
    (k in o1.cfg <==> k in o.cfg) && (k in o.cfg ==> o1.cfg[k] == o.cfg[k])
    && (k in o1.provided <==> k in o.provided) && (k in o.provided ==> o1.provided[k] == o.provided[k])
  }

  /** Whatever state a step goes on with, or ends with unless it failed, keeps key k. */
  predicate StepKeeps(step: Step, o: Options, k: string) {
    (step.Continue? ==> KeptKey(o, step.o, k))
    && (step.Done? && !step.result.Failed? ==> KeptKey(o, step.result.opts, k))
  }

  /** -k and --prompt set neither a configuration key nor a mark. */
  lemma TokenAndPromptSetNoKey(o: Options, f: Flag, v: string)
    requires f == AccessTokenFlag || f == PromptFlag
    ensures Assign(o, f, v).cfg == o.cfg && Assign(o, f, v).provided == o.provided
  {
  }

  /** One pass sets and marks at most the key of the flag it read. */
  lemma InterpretMarksOwnKey(a: string, tail: seq<string>, o: Options, k: string)
    requires MarkedKey(a) != Some(k)
    ensures StepKeeps(Interpret(a, tail, o), o, k)
  {
    if a != "--" && HasPrefix(a, "-") {
      var (key, val) := SplitFlag(a);
      if FlagNamed(key).Some? {
        FlagStepKeeps(a, FlagNamed(key).value, val, tail, o, k);
      }
    }
  }

  lemma FlagStepKeeps(a: string, f: Flag, val: string, tail: seq<string>, o: Options, k: string)
    requires (if f == SysPromptFileFlag then Some("SYS_PROMPT_FILE") else CfgKeyOf(f)) != Some(k)
    ensures StepKeeps(FlagStep(a, f, val, tail, o), o, k)
  {
    if f != HelpFlag {
      if TakesValue(f) {
        AssignKeeps(o, f, val, k);
        if tail != [] {
          AssignKeeps(o, f, tail[0], k);
        }
      } else if f == StreamFlag {
        assert CfgKeyOf(StreamFlag) == Some("STREAM");
      } else {
        SwitchKeeps(o, f, k);
      }
    }
  }

  lemma AssignKeeps(o: Options, f: Flag, v: string, k: string)
    requires TakesValue(f) && (if f == SysPromptFileFlag then Some("SYS_PROMPT_FILE") else CfgKeyOf(f)) != Some(k)
    ensures KeptKey(o, Assign(o, f, v), k)
  {
  }

  lemma SwitchKeeps(o: Options, f: Flag, k: string)
    requires !TakesValue(f) && f != StreamFlag && f != HelpFlag && CfgKeyOf(f) != Some(k)
    ensures KeptKey(o, Switch(o, f), k)
  {
  }

  /** Arguments with no flag token for k leave k as it was, unset and unmarked when it was. */
  lemma {:induction false} KeyUntouched(args: seq<string>, o: Options, k: string)
    requires NoFlagFor(args, k)
    ensures var r := Parse(args, o); !r.Failed? ==> KeptKey(o, r.opts, k)
    decreases |args|
  {
    if args != [] {
      assert MarkedKey(args[0]) != Some(k);
      InterpretMarksOwnKey(args[0], args[1..], o, k);
      var step := Interpret(args[0], args[1..], o);
      if step.Continue? {
        var rest := args[step.consumed..];
        assert NoFlagFor(rest, k) by {
          forall i | 0 <= i < |rest| ensures MarkedKey(rest[i]) != Some(k) {
            assert rest[i] == args[step.consumed + i];
          }
        }
        KeyUntouched(rest, step.o, k);
      }
    }
  }

  /**
   * The bookkeeping holds for the whole loop, and a key no argument names
   * as a flag keeps its value and its mark.
   */
  lemma {:induction false} ProvidedTracksCfg(args: seq<string>, cfg0: map<string, string>, o: Options)
    requires Tracked(cfg0, o)
    ensures var r := Parse(args, o); !r.Failed? ==> Tracked(cfg0, r.opts)
    ensures var r := Parse(args, o); !r.Failed? ==> forall k | NoFlagFor(args, k) :: KeptKey(o, r.opts, k)
    decreases |args|
  {
    if args != [] {
      InterpretTracked(args[0], args[1..], cfg0, o);
      var step := Interpret(args[0], args[1..], o);
      if step.Continue? {
        ProvidedTracksCfg(args[step.consumed..], cfg0, step.o);
      }
    }
    forall k | NoFlagFor(args, k) ensures var r := Parse(args, o); !r.Failed? ==> KeptKey(o, r.opts, k) {
      KeyUntouched(args, o, k);
    }
  }

  /**
   * From the start, the parse keeps the bookkeeping, and every key marked
   * provided, or changed from the defaults, was named by a flag token among
   * the arguments.
   */
  lemma ProvidedFromStart(rawArgs: seq<string>, cfg0: map<string, string>)
    ensures var r := Parse(rawArgs, Start(cfg0)); !r.Failed? ==> Tracked(cfg0, r.opts)
    ensures var r := Parse(rawArgs, Start(cfg0));
      !r.Failed? ==> forall k | k in r.opts.provided :: !NoFlagFor(rawArgs, k)
    ensures var r := Parse(rawArgs, Start(cfg0));
      !r.Failed? ==> forall k | k in r.opts.cfg && (k !in cfg0 || r.opts.cfg[k] != cfg0[k]) :: !NoFlagFor(rawArgs, k)
  {
    ProvidedTracksCfg(rawArgs, cfg0, Start(cfg0));
  }

  /** A token is split at its first `=`: the key has none, the value keeps any later `=`. */
  lemma {:induction false} SplitFlagAtFirst(key: string, v: string)
    requires '=' !in key
    ensures SplitFlag(key + "=" + v) == (key, v)
  {
    var a := key + "=" + v;
    assert a[|key|] == '=';
    var r := SplitFlag(a);
    var n := |r.0|;
    assert a == r.0 + "=" + r.1;
    assert a[n] == '=';
    if n != |key| {
      assert false;
    }
    assert r.0 == a[..n] == key;
    assert r.1 == a[n + 1..] == v;
  }

  /**
   * `--flag=value` with a non-empty value sets the value, `=` signs and all
   * ("--stop=a=b" sets STOP to "a=b"), and consumes one argument.
   */
  lemma InlineValue(f: Flag, key: string, v: string, rest: seq<string>, o: Options)
    requires TakesValue(f) && key in Spellings(f) && v != ""
    ensures Parse([key + "=" + v] + rest, o) == Parse(rest, Assign(o, f, v))
  {
    FlagNamedSpellings(f, key);
    SpellingShape(f, key);
    SplitFlagAtFirst(key, v);
    var a := key + "=" + v;
    assert a[..|key|] == key;
    assert HasPrefix(a, "-") && a != "--";
    var args := [a] + rest;
    assert args[0] == a && args[1..] == rest;
    assert Interpret(a, rest, o) == FlagStep(a, f, v, rest, o);
  }

  /**
   * A value flag with nothing after `=` takes the next argument, whatever it
   * is; when there is none the error names the flag as written.
   */
  lemma ValueFlagTakesNext(args: seq<string>, o: Options, f: Flag)
    requires |args| >= 1 && TakesValue(f) && args[0] in Spellings(f)
    ensures |args| == 1 ==> Parse(args, o) == Failed(MissingValue(args[0]))
    ensures |args| >= 2 ==> Parse(args, o) == Parse(args[2..], Assign(o, f, args[1]))
  {
    var a := args[0];
    FlagNamedSpellings(f, a);
    SpellingShape(f, a);
    assert SplitFlag(a) == (a, "");
    var step := Interpret(a, args[1..], o);
    assert step == FlagStep(a, f, "", args[1..], o);
    if |args| >= 2 {
      assert step == Continue(2, Assign(o, f, args[1]));
    }
  }

  /** Every spelling is a flag token without `=`. */
  lemma SpellingShape(f: Flag, key: string)
    requires key in Spellings(f)
    ensures '=' !in key && key != "--" && HasPrefix(key, "-")
  {
    assert key[0] == '-';
    match f
    case ModelFlag =>
    case TemperatureFlag =>
    case TopPFlag =>
    case FrequencyPenaltyFlag =>
    case PresencePenaltyFlag =>
    case MaxTokensFlag =>
    case LimitFlag =>
    case SysPromptFileFlag =>
    case AccessTokenFlag =>
    case ReasoningFlag =>
    case StopFlag =>
    case PromptFlag =>
    case StreamFlag =>
    case PersistSystemFlag =>
    case NoStreamFlag =>
    case SaveSettingsFlag =>
    case ListFlag =>
    case HelpFlag =>
  }

  /** `--stream` takes no separate value: bare, it is an error even before a "true". */
  lemma StreamNeedsInlineValue(args: seq<string>, o: Options)
    requires |args| >= 1 && args[0] == "--stream"
    ensures Parse(args, o) == Failed(InvalidStream(""))
  {
    var a := args[0];
    assert a in Spellings(StreamFlag);
    FlagNamedSpellings(StreamFlag, a);
    SpellingShape(StreamFlag, a);
    assert SplitFlag(a) == (a, "");
    assert Interpret(a, args[1..], o) == FlagStep(a, StreamFlag, "", args[1..], o);
  }

  /** A flag the switch does not list ends the loop with an error naming the whole token. */
  lemma UnknownOptionFails(args: seq<string>, o: Options)
    requires |args| >= 1 && args[0] != "--" && HasPrefix(args[0], "-")
    requires FlagNamed(SplitFlag(args[0]).0).None?
    ensures Parse(args, o) == Failed(UnknownOption(args[0]))
  {
  }

  // ---------------------------------------------------------------------
  // Defaults and the start-up check
  // ---------------------------------------------------------------------

  /**
   * filepath.Join(dir, sub) for a relative, already clean sub: an empty dir
   * adds nothing, and a dir ending in "/" gets no second separator.
   */
  function JoinPath(dir: string, sub: string): string {
    if dir == "" then sub
    else if dir[|dir| - 1] == '/' then dir + sub
    else dir + "/" + sub
  }

  /** The keys main's default configuration holds. */
  function ConfigKeys(): set<string> {
    {"BASE_URL", "MODEL", "TEMPERATURE", "TOP_P", "FREQUENCY_PENALTY", "PRESENCE_PENALTY",
     "MAX_TOKENS", "STREAM", "REASONING_EFFORT", "STOP", "HISTORY_DIR", "HISTORY_LIMIT"}
  }

  /** The configuration main starts from; home is $HOME. */
  function DefaultConfig(home: string): (cfg: map<string, string>)
    ensures cfg.Keys == ConfigKeys()
    ensures cfg["HISTORY_DIR"] == JoinPath(home, ".cache/nvidia-chat")
    ensures Atoi(cfg["HISTORY_LIMIT"]) == Some(DefaultHistoryLimit)
  {
    AtoiItoa(DefaultHistoryLimit);
    map[
      "BASE_URL" := "https://integrate.api.nvidia.com/v1",
      "MODEL" := "openai/gpt-oss-120b",
      "TEMPERATURE" := "1",
      "TOP_P" := "1",
      "FREQUENCY_PENALTY" := "0",
      "PRESENCE_PENALTY" := "0",
      "MAX_TOKENS" := "4096",
      "STREAM" := "true",
      "REASONING_EFFORT" := "medium",
      "STOP" := "",
      "HISTORY_DIR" := JoinPath(home, ".cache/nvidia-chat"),
      "HISTORY_LIMIT" := Itoa(DefaultHistoryLimit)]
  }

  /** The defaults pass validateNumericRanges. */
  lemma DefaultsValid(home: string)
    ensures Valid(DefaultConfig(home))
  {
    DefaultCheckedTexts(home);
    DefaultTextsPass();
  }

  lemma DefaultCheckedTexts(home: string)
    ensures Checked(DefaultConfig(home)) == CheckedTexts("1", "1", "0", "0", "4096", "medium", "true")
  {
    var cfg := DefaultConfig(home);
    assert Get(cfg, "TEMPERATURE") == "1" && Get(cfg, "TOP_P") == "1";
    assert Get(cfg, "FREQUENCY_PENALTY") == "0" && Get(cfg, "PRESENCE_PENALTY") == "0";
    assert Get(cfg, "MAX_TOKENS") == "4096" && Get(cfg, "REASONING_EFFORT") == "medium";
    assert Get(cfg, "STREAM") == "true";
  }

  lemma DefaultTextsPass()
    ensures FirstFailure(CheckedTexts("1", "1", "0", "0", "4096", "medium", "true")).None?
  {
    ParseFloatOneDigit('1');
    ParseFloatOneDigit('0');
    assert "1" == ['1'] && "0" == ['0'];
    DefaultMaxTokensParses();
  }

  /** A single digit parses as a float of its value. */
  lemma ParseFloatOneDigit(c: char)
    requires IsDigit(c)
    ensures ParseFloat([c]).Some? && Value(ParseFloat([c]).value) == DigitValue(c) as real
  {
    var s := [c];
    assert SplitSign(s) == (false, s);
    assert DigitRun(s) == 1;
    assert s[1..] == [];
    assert s[..1] + [] == s;
    assert DigitsValue(s) == DigitValue(c) by {
      assert s[..0] == [];
    }
  }

  lemma DefaultMaxTokensParses()
    ensures Atoi("4096") == Some(4096)
  {
    AtoiItoa(4096);
    assert Itoa(4096) == "4096";
  }

  /** Whether the interactive session may start. */
  datatype StartVerdict =
    | CountFailed                        // the conversation file could not be read
    | InvalidLimit(text: string)         // the limit is not a positive int
    | LimitReached(count: int, limit: int)
    | Proceed

  /** The start-up check: count is messageCount's result, None when it failed; Atoi's error is ignored. */
  function StartCheck(count: Option<int>, cfg: map<string, string>): (v: StartVerdict)
    ensures v == Proceed ==> count.Some? && count.value < AtoiIgnoringError(Get(cfg, "HISTORY_LIMIT"))
    ensures v.LimitReached? ==> 0 < v.limit <= v.count && count == Some(v.count)
    ensures v.InvalidLimit? ==> count.Some? && AtoiIgnoringError(v.text) <= 0
    ensures v.CountFailed? <==> count.None?
  {
    var limit := AtoiIgnoringError(Get(cfg, "HISTORY_LIMIT"));
    if count.None? then CountFailed
    else if limit <= 0 then InvalidLimit(Get(cfg, "HISTORY_LIMIT"))
    else if count.value >= limit then LimitReached(count.value, limit)
    else Proceed
  }

  /**
   * The session starts exactly when the count was read and is below a
   * positive limit; a limit that is no number reads as 0 and is refused; one
   * beyond int64 reads as its bound.
   */
  lemma StartCheckExactly(count: Option<int>, cfg: map<string, string>)
    ensures var limit := AtoiIgnoringError(Get(cfg, "HISTORY_LIMIT"));
      (StartCheck(count, cfg) == Proceed <==> count.Some? && 0 < limit && count.value < limit)
      && (count.Some? && AtoiValue(Get(cfg, "HISTORY_LIMIT")).None? ==> StartCheck(count, cfg).InvalidLimit?)
      && ((count.Some? && count.value < MaxInt64 && AtoiValue(Get(cfg, "HISTORY_LIMIT")).Some?
           && AtoiValue(Get(cfg, "HISTORY_LIMIT")).value > MaxInt64) ==> StartCheck(count, cfg) == Proceed)
  {
  }

  /** With the default configuration, a file with fewer than 40 messages may be continued. */
  lemma DefaultLimitForty(home: string, count: int)
    ensures StartCheck(Some(count), DefaultConfig(home)) == if count < 40 then Proceed else LimitReached(count, 40)
  {
    AtoiItoa(DefaultHistoryLimit);
  }
}
