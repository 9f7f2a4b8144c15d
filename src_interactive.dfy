/**
 * The src/ copy's interactive commands (src/ui/interactive.go): exportLastN
 * and the dispatch of one typed line in handleInteractiveInput.
 *
 * Unlike the root program, the src copy compares the whole first word
 * (slash included) against a fixed list, and validates a new setting by
 * running validateNumericRanges on a copy of the configuration with the new
 * value in place. Messages printed to the terminal are not modelled; the
 * index /randomodel draws and the contents of the file /persist-system reads
 * are parameters. /history, /save and /help only read or print, and are
 * reported as an outcome.
 */
module SrcInteractive {
  import opened Wrappers
  import opened GoText
  import opened GoStrconv
  import opened Json
  import opened ModelNames
  import opened ConfigMap
  import opened Export
  import opened SrcFile
  import opened SrcSettings
  import opened SrcConversation

  // ---------------------------------------------------------------------
  // exportLastN
  // ---------------------------------------------------------------------

  /**
   * What exportLastN writes: the last n assistant replies (all of them when
   * n <= 0) oldest first, joined by the separator; nothing when the file
   * cannot be read or holds no assistant reply.
   */
  function LastNExport(n: int, file: Option<ConversationFile>): ExportResult {
    match file
    case None => Failed(ReadFailed)
    case Some(cf) =>
      var selected := LastN(AssistantContents(cf.messages), n);
      if selected == [] then Failed(NoAssistantResponses)
      else Exported(Join(selected, Separator()))
  }

  method ExportLastN(n: int, file: Option<ConversationFile>) returns (r: ExportResult)
    ensures r == LastNExport(n, file)
  {
    if file.None? {
      return Failed(ReadFailed);
    }
    var picked := CollectNewestFirst(file.value.messages, n);
    if |picked| == 0 {
      LastNEmpty(AssistantContents(file.value.messages), n);
      return Failed(NoAssistantResponses);
    }
    var a := Chronological(picked);
    ReversedTwice(LastN(AssistantContents(file.value.messages), n));
    return Exported(Join(a[..], Separator()));
  }

  /** The export fails exactly when the file is unreadable or holds no assistant message. */
  lemma LastNExportFails(n: int, file: Option<ConversationFile>)
    ensures LastNExport(n, file) == Failed(ReadFailed) <==> file.None?
    ensures file.Some? ==>
      var ms := file.value.messages;
      (LastNExport(n, file) == Failed(NoAssistantResponses) <==>
        forall i :: 0 <= i < |ms| ==> ms[i].role != "assistant")
  {
    if file.Some? {
      var ms := file.value.messages;
      var replies := AssistantContents(ms);
      AssistantContentsExactly(ms);
      LastNEmpty(replies, n);
      if exists i :: 0 <= i < |ms| && ms[i].role == "assistant" {
        var i :| 0 <= i < |ms| && ms[i].role == "assistant";
        assert ms[i].content in replies;
      }
      if replies != [] {
        assert replies[0] in replies;
      }
    }
  }

  /** Otherwise it writes the last min(n, k) of the k replies (all k when n <= 0), oldest first. */
  lemma LastNExportWrites(n: int, cf: ConversationFile)
    requires LastNExport(n, Some(cf)).Exported?
    ensures var replies := AssistantContents(cf.messages);
      var k := |replies|;
      var m := if n <= 0 || n >= k then k else n;
      LastNExport(n, Some(cf)).content == Join(replies[k - m..], Separator())
  {
    var replies := AssistantContents(cf.messages);
    var selected := LastN(replies, n);
    assert selected == replies[|replies| - |selected|..];
  }

  // ---------------------------------------------------------------------
  // handleInteractiveInput
  // ---------------------------------------------------------------------

  /** The cases of the switch; Setting stands for the ten setting commands. */
  datatype Command =
    | Exit | History | Clear | Save | PersistSystem | Setting | PersistSettings
    | ExportLast | ExportN | RandomModel | Help

  /** The case a first word selects, slash included (lengths compared first). */
  function CommandNamed(word: string): Option<Command> {
    if |word| == 5 then
      if word == "/exit" || word == "/quit" then Some(Exit)
      else if word == "/save" then Some(Save)
      else if word == "/help" then Some(Help)
      else if word == "/stop" then Some(Setting)
      else None
    else if |word| == 6 then
      if word == "/clear" then Some(Clear)
      else if word == "/model" || word == "/top_p" || word == "/limit" then Some(Setting)
      else None
    else if |word| == 7 then
      if word == "/stream" then Some(Setting) else None
    else if |word| == 8 then
      if word == "/history" then Some(History)
      else if word == "/exportn" then Some(ExportN)
      else None
    else if |word| == 10 then
      if word == "/reasoning" then Some(Setting) else None
    else if |word| == 11 then
      if word == "/max_tokens" then Some(Setting)
      else if word == "/exportlast" then Some(ExportLast)
      else if word == "/randomodel" then Some(RandomModel)
      else None
    else if |word| == 12 then
      if word == "/temperature" then Some(Setting) else None
    else if |word| == 15 then
      if word == "/persist-system" then Some(PersistSystem) else None
    else if |word| == 17 then
      if word == "/presence_penalty" then Some(Setting)
      else if word == "/persist-settings" then Some(PersistSettings)
      else None
    else if |word| == 18 then
      if word == "/frequency_penalty" then Some(Setting) else None
    else None
  }

  /** The configuration key a setting command writes: its name upper-cased, with two renamings. */
  function SettingKey(command: string): string {
    var key := ToUpper(TrimPrefix(command, "/"));
    if key == "REASONING" then "REASONING_EFFORT"
    else if key == "LIMIT" then "HISTORY_LIMIT"
    else key
  }

  /** modelsList of src/config/defaults.go, the list /randomodel draws from. */
  function ModelsList(): seq<string> {
    ["openai/gpt-oss-120b",
     "gpt-oss-120b",
     "seed-oss-36b-instruct",
     "qwen3-coder-480b-a35b-instruct",
     "nvidia-nemotron-nano-9b-v2",
     "llama-3.3-nemotron-super-49b-v1.5",
     "mistral-nemotron",
     "deepseek-v3.1",
     "deepseek-r1-distill-qwen-32b",
     "deepseek-r1-distill-llama-8b",
     "deepseek-r1-0528"]
  }

  /** A setting command's effect: the value is stored only if the whole configuration with it still validates. */
  function Assigned(entries: map<string, string>, key: string, parts: seq<string>): map<string, string> {
    if |parts| < 2 then entries
    else if Valid(entries[key := parts[1]]) then entries[key := parts[1]]
    else entries
  }

  /** What handling a line amounts to besides its effect on the configuration and the file. */
  datatype Outcome =
    | NotACommand                       // false: the line is sent as a prompt
    | Quit                              // os.Exit(0)
    | Handled                           // true, with at most a message printed
    | PrintHistory                      // the file at the conversation path is printed
    | CopyTo(path: string)              // the conversation file is copied to path
    | WriteExport(target: string, result: ExportResult)

  /** The configuration after a line with words parts (pick: the index /randomodel draws). */
  function CfgAfter(entries: map<string, string>, parts: seq<string>, pick: nat): map<string, string>
    requires |parts| >= 1 && pick < |ModelsList()|
  {
    match CommandNamed(parts[0])
    case Some(Setting) => Assigned(entries, SettingKey(parts[0]), parts)
    case Some(RandomModel) => entries["MODEL" := ModelsList()[pick]]
    case _ => entries
  }

  /** The conversation file after a line (readFile: what reading a path yields, None when it is missing or unreadable). */
  function StoredAfter(s: Stored, entries: map<string, string>, parts: seq<string>, readFile: string -> Option<string>)
    : Stored
    requires |parts| >= 1
  {
    match CommandNamed(parts[0])
    case Some(Clear) => Cleared(s)
    case Some(PersistSystem) =>
      if |parts| >= 2 && readFile(parts[1]).Some? then WithSystem(s, readFile(parts[1]).value) else s
    case Some(PersistSettings) => WithSettings(s, entries)
    case _ => s
  }

  /** The outcome of a line. */
  function OutcomeOf(s: Stored, parts: seq<string>): Outcome
    requires |parts| >= 1
  {
    match CommandNamed(parts[0])
    case None => NotACommand
    case Some(Exit) => Quit
    case Some(History) => PrintHistory
    case Some(Save) => if |parts| >= 2 then CopyTo(parts[1]) else Handled
    case Some(ExportLast) => if |parts| >= 2 then WriteExport(parts[1], LastNExport(1, Read(s))) else Handled
    case Some(ExportN) =>
      if |parts| < 3 then Handled
      else if Atoi(parts[1]).None? || Atoi(parts[1]).value <= 0 then Handled
      else WriteExport(parts[2], LastNExport(Atoi(parts[1]).value, Read(s)))
    case Some(_) => Handled
  }

  /** The setting commands: validate a copy with the new value, then store it. */
  method RunSetting(parts: seq<string>, cfg: Cfg) returns (outcome: Outcome)
    requires |parts| >= 1
    modifies cfg
    ensures outcome == Handled
    ensures cfg.entries == Assigned(old(cfg.entries), SettingKey(parts[0]), parts)
  {
    if |parts| < 2 {
      return Handled;
    }
    var val := parts[1];
    var key := KeyFor(parts[0]);
    var tempCfg := cfg.entries[key := val];
    var err := ValidateNumericRanges(tempCfg);
    if err.Some? {
      return Handled;
    }
    cfg.Put(key, val);
    return Handled;
  }

  /** The key computation of the setting commands. */
  method KeyFor(command: string) returns (key: string)
    ensures key == SettingKey(command)
  {
    key := TrimPrefix(command, "/");
    key := ToUpper(key);
    if key == "REASONING" {
      key := "REASONING_EFFORT";
    }
    if key == "LIMIT" {
      key := "HISTORY_LIMIT";
    }
  }

  /** The other cases of the switch. */
  method RunCommand(c: Command, parts: seq<string>, cfg: Cfg, store: Store, readFile: string -> Option<string>,
                    pick: nat) returns (outcome: Outcome)
    requires |parts| >= 1 && CommandNamed(parts[0]) == Some(c) && c != Setting
    requires pick < |ModelsList()|
    modifies cfg, store
    ensures outcome == OutcomeOf(old(store.stored), parts)
    ensures cfg.entries == CfgAfter(old(cfg.entries), parts, pick)
    ensures store.stored == StoredAfter(old(store.stored), old(cfg.entries), parts, readFile)
    ensures store.backups == old(store.backups)
  {
    match c {
      case Exit =>
        return Quit;
      case History =>
        return PrintHistory;
      case Clear =>
        var _ := store.ClearMessages();
        return Handled;
      case Save =>
        if |parts| < 2 {
          return Handled;
        }
        return CopyTo(parts[1]);
      case PersistSystem =>
        if |parts| < 2 {
          return Handled;
        }
        var content := readFile(parts[1]);
        if content.None? {
          return Handled;
        }
        var _ := store.PersistSystemToFile(content.value);
        return Handled;
      case PersistSettings =>
        var _ := store.PersistSettings(cfg.entries);
        return Handled;
      case ExportLast =>
        if |parts| < 2 {
          return Handled;
        }
        var file := store.ReadConversation();
        var r := ExportLastN(1, file);
        return WriteExport(parts[1], r);
      case ExportN =>
        if |parts| < 3 {
          return Handled;
        }
        var n := Atoi(parts[1]);
        if n.None? || n.value <= 0 {
          return Handled;
        }
        var file := store.ReadConversation();
        var r := ExportLastN(n.value, file);
        return WriteExport(parts[2], r);
      case RandomModel =>
        cfg.Put("MODEL", ModelsList()[pick]);
        return Handled;
      case Help =>
        return Handled;
    }
  }

  /** The words of a typed line. */
  function Words(userInput: string): seq<string> {
    Fields(TrimSpace(userInput))
  }

  /** handleInteractiveInput: false (NotACommand) for a blank line or an unknown first word. */
  method HandleInteractiveInput(userInput: string, cfg: Cfg, store: Store, readFile: string -> Option<string>,
                                pick: nat) returns (outcome: Outcome)
    requires pick < |ModelsList()|
    modifies cfg, store
    ensures var parts := Words(userInput);
      parts == [] ==>
        outcome == NotACommand && cfg.entries == old(cfg.entries) && store.stored == old(store.stored)
    ensures var parts := Words(userInput);
      parts != [] ==>
        outcome == OutcomeOf(old(store.stored), parts)
        && cfg.entries == CfgAfter(old(cfg.entries), parts, pick)
        && store.stored == StoredAfter(old(store.stored), old(cfg.entries), parts, readFile)
    ensures store.backups == old(store.backups)
  {
    var parts := Words(userInput);
    if |parts| == 0 {
      return NotACommand;
    }
    outcome := Dispatch(parts, cfg, store, readFile, pick);
  }

  /** The switch on the first word. */
  method Dispatch(parts: seq<string>, cfg: Cfg, store: Store, readFile: string -> Option<string>, pick: nat)
    returns (outcome: Outcome)
    requires |parts| >= 1 && pick < |ModelsList()|
    modifies cfg, store
    ensures outcome == OutcomeOf(old(store.stored), parts)
    ensures cfg.entries == CfgAfter(old(cfg.entries), parts, pick)
    ensures store.stored == StoredAfter(old(store.stored), old(cfg.entries), parts, readFile)
    ensures store.backups == old(store.backups)
  {
    var command := CommandNamed(parts[0]);
    if command.None? {
      return NotACommand;
    }
    if command.value == Setting {
      outcome := RunSetting(parts, cfg);
      return;
    }
    outcome := RunCommand(command.value, parts, cfg, store, readFile, pick);
  }

  // ---------------------------------------------------------------------
  // What a line does
  // ---------------------------------------------------------------------

  /** A blank or white-space-only line is no command: it leaves everything as it was. */
  lemma BlankIsNoCommand(userInput: string)
    requires AllSpace(userInput)
    ensures Words(userInput) == []
  {
    FieldsEmptyIffBlank(TrimSpace(userInput));
  }

  /** The key a command `/<name>` writes when upper-casing name gives upper. */
  lemma KeyOfName(word: string, name: string, upper: string)
    requires word == "/" + name
    requires |upper| == |name| && forall i | 0 <= i < |name| :: upper[i] == UpperChar(name[i])
    ensures ToUpper(TrimPrefix(word, "/")) == upper
  {
    assert HasPrefix(word, "/");
    UpperSpelled(name, upper);
  }

  /** /reasoning and /limit write the keys their settings are stored under. */
  lemma RenamedSettingKeys()
    ensures SettingKey("/reasoning") == "REASONING_EFFORT"
    ensures SettingKey("/limit") == "HISTORY_LIMIT"
  {
    KeyOfName("/reasoning", "reasoning", "REASONING");
    KeyOfName("/limit", "limit", "LIMIT");
  }

  /** A setting command other than /reasoning and /limit writes its name upper-cased. */
  lemma UpperCasedSettingKey(word: string, name: string, upper: string)
    requires word == "/" + name
    requires |upper| == |name| && forall i | 0 <= i < |name| :: upper[i] == UpperChar(name[i])
    requires upper != "REASONING" && upper != "LIMIT"
    ensures SettingKey(word) == upper
  {
    KeyOfName(word, name, upper);
  }

  // The eight other setting commands write their name upper-cased; two per lemma.

  lemma ModelTemperatureKeys()
    ensures SettingKey("/model") == "MODEL" && SettingKey("/temperature") == "TEMPERATURE"
  {
    UpperCasedSettingKey("/model", "model", "MODEL");
    UpperCasedSettingKey("/temperature", "temperature", "TEMPERATURE");
  }

  lemma TopPFrequencyPenaltyKeys()
    ensures SettingKey("/top_p") == "TOP_P" && SettingKey("/frequency_penalty") == "FREQUENCY_PENALTY"
  {
    UpperCasedSettingKey("/top_p", "top_p", "TOP_P");
    UpperCasedSettingKey("/frequency_penalty", "frequency_penalty", "FREQUENCY_PENALTY");
  }

  lemma PresencePenaltyMaxTokensKeys()
    ensures SettingKey("/presence_penalty") == "PRESENCE_PENALTY" && SettingKey("/max_tokens") == "MAX_TOKENS"
  {
    UpperCasedSettingKey("/presence_penalty", "presence_penalty", "PRESENCE_PENALTY");
    UpperCasedSettingKey("/max_tokens", "max_tokens", "MAX_TOKENS");
  }

  lemma StopStreamKeys()
    ensures SettingKey("/stop") == "STOP" && SettingKey("/stream") == "STREAM"
  {
    UpperCasedSettingKey("/stop", "stop", "STOP");
    UpperCasedSettingKey("/stream", "stream", "STREAM");
  }

  /**
   * A setting command changes exactly its own key, and only when the
   * configuration with the new value validates; otherwise nothing changes.
   */
  lemma SettingValidated(entries: map<string, string>, parts: seq<string>, pick: nat, k: string)
    requires |parts| >= 2 && CommandNamed(parts[0]) == Some(Setting) && pick < |ModelsList()|
    ensures var key := SettingKey(parts[0]); var m := CfgAfter(entries, parts, pick);
      (Valid(entries[key := parts[1]]) ==> m == entries[key := parts[1]])
      && (!Valid(entries[key := parts[1]]) ==> m == entries)
      && (k != key ==> (k in m <==> k in entries) && (k in m ==> m[k] == entries[k]))
  {
  }

  /** A configuration that validates still validates after any line. */
  lemma ValidStaysValid(entries: map<string, string>, parts: seq<string>, pick: nat)
    requires |parts| >= 1 && pick < |ModelsList()|
    requires Valid(entries)
    ensures Valid(CfgAfter(entries, parts, pick))
  {
    match CommandNamed(parts[0])
    case Some(Setting) =>
      AssignedKeepsValid(entries, SettingKey(parts[0]), parts);
    case Some(RandomModel) =>
      RandomModelKeepsValid(entries, ModelsList()[pick]);
    case _ =>
  }

  /** A setting command stores its value only when the result validates. */
  lemma AssignedKeepsValid(entries: map<string, string>, key: string, parts: seq<string>)
    requires Valid(entries)
    ensures Valid(Assigned(entries, key, parts))
  {
    if |parts| >= 2 && Valid(entries[key := parts[1]]) {
      assert Assigned(entries, key, parts) == entries[key := parts[1]];
    } else {
      assert Assigned(entries, key, parts) == entries;
    }
  }

  /** Switching the model never breaks validation: MODEL is not a checked key. */
  lemma RandomModelKeepsValid(entries: map<string, string>, name: string)
    requires Valid(entries)
    ensures Valid(entries["MODEL" := name])
  {
    assert !IsCheckedKey("MODEL");
    UncheckedKeyIgnored(entries, "MODEL", name);
  }

  /** `/limit <value>` on a valid configuration stores any value at all: the history limit is never validated. */
  lemma LimitAcceptsAnything(entries: map<string, string>, parts: seq<string>, pick: nat)
    requires |parts| >= 2 && parts[0] == "/limit" && pick < |ModelsList()|
    requires Valid(entries)
    ensures CfgAfter(entries, parts, pick) == entries["HISTORY_LIMIT" := parts[1]]
  {
    assert CommandNamed(parts[0]) == Some(Setting);
    RenamedSettingKeys();
    assert CfgAfter(entries, parts, pick) == Assigned(entries, "HISTORY_LIMIT", parts);
    HistoryLimitNeverInspected(entries, parts[1]);
  }

  /** /exportn exports only for a count that parses as a positive int; otherwise nothing is written. */
  lemma ExportNNeedsPositiveCount(s: Stored, parts: seq<string>)
    requires |parts| >= 3 && parts[0] == "/exportn"
    ensures OutcomeOf(s, parts).WriteExport? <==> Atoi(parts[1]).Some? && Atoi(parts[1]).value > 0
    ensures OutcomeOf(s, parts).WriteExport? ==>
      OutcomeOf(s, parts) == WriteExport(parts[2], LastNExport(Atoi(parts[1]).value, Read(s)))
  {
  }

  /** /clear empties the messages of a readable file and keeps its system prompt and settings. */
  lemma ClearKeepsSystemAndSettings(s: Stored, entries: map<string, string>, parts: seq<string>,
                                    readFile: string -> Option<string>)
    requires |parts| >= 1 && parts[0] == "/clear" && Read(s).Some?
    ensures var r := Read(StoredAfter(s, entries, parts, readFile));
      r.Some? && r.value.messages == [] && r.value.system == Read(s).value.system
      && r.value.settings == Read(s).value.settings
  {
  }

  /** /randomodel switches to a model of the list; nothing else changes. */
  lemma RandomModelFromList(entries: map<string, string>, parts: seq<string>, pick: nat, k: string)
    requires |parts| >= 1 && parts[0] == "/randomodel" && pick < |ModelsList()|
    ensures var m := CfgAfter(entries, parts, pick);
      "MODEL" in m && m["MODEL"] in ModelsList()
      && (k != "MODEL" ==> (k in m <==> k in entries) && (k in m ==> m[k] == entries[k]))
  {
  }

  /** A first word the switch does not list leaves everything to the caller, unchanged. */
  lemma UnknownWordIsPrompt(s: Stored, entries: map<string, string>, parts: seq<string>, pick: nat,
                            readFile: string -> Option<string>)
    requires |parts| >= 1 && CommandNamed(parts[0]).None? && pick < |ModelsList()|
    ensures OutcomeOf(s, parts) == NotACommand
    ensures CfgAfter(entries, parts, pick) == entries && StoredAfter(s, entries, parts, readFile) == s
  {
  }
}
