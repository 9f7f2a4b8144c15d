# nvidia-ai-chat, modelled in Dafny

nvidia-ai-chat is a terminal chat client for the NVIDIA-hosted chat
completion API. It keeps each conversation in a JSON file and talks to the
API through a string configuration map (`cfg`). The project models the
sequential logic at its centre. The repository holds two versions of the
same `package main`, and each is modelled in its own modules:

- the root program (`main.go` and `models.go`): modules `Models`,
  `ModelNames` and `Root*`;
- the older `src/` copy: modules `Src*`. It has a flat `Settings` record,
  other reasoning sentinels and a single whole-configuration check.

Shared, version-independent pieces:

- `Wrappers`: `Option`.
- `GoText`: `strings.TrimSpace`, `Fields`, `ToUpper`, `TrimPrefix`.
- `GoStrconv`: `strconv.Atoi` with its int64 range, `ParseBool`, a decimal
  `ParseFloat`, and `%g` on decimals.
- `Json`: decoded JSON values and `Message`.
- `ConfigMap`: the mutable `cfg` map, as class `Cfg`.
- `ParamMaps`: re-keying parameter maps by their JSON or `cfg` names.
- `Export`: the assistant-reply selection both export commands share.
- `Sse`: the event-stream line filter and the reasoning-block renderer. The
  renderer takes the opening and closing sentinels as parameters.

What is modelled, by area:

1. **Streaming reassembly** (`handleStream`). `Sse.Reassemble` runs the
   scanner loop with the `inReasoning` flag. It is proved equal to
   `Sse.Render`, a declarative rendering in which every maximal run of
   reasoning chunks sits between one opening and one closing sentinel. Chunk
   decoding is a parameter `decode`; the line filter is modelled exactly.
2. **Non-stream extraction** (`handleNonStream`). The field precedence
   between `delta` and `message`, then the sentinel wrapping.
3. **Quiet handlers** (`handleStreamQuiet`, `handleNonStreamQuiet`): content
   only, with their own fall-through rules.
4. **Model schema and payload.** `ModelDefinitions`/`GetModelDefinition` as
   an enum-keyed table with a fallback. `buildPayload` in both versions.
   `validateParameter` and the `/param value|unset` commands.
5. **Settings precedence.** `applyFileSettingsAsDefaults` and
   `persistSettingsToFile` in both versions, and the src copy's
   `validateNumericRanges`.
6. **Conversation store.** A class holding the stored file: read, write,
   append, count, set system, clear, and `ensureHistoryFileStructure`'s
   shape rules with backups.
7. **Line reader.** `readSingleLine`/`readLines` over a byte input, with the
   first-delimiter-completes rule.
8. **Export.** `exportLastN` (backward scan, in-place reversal, filtering),
   `exportNth` and `parseTFlag`.
9. **Command line** of the src copy. The argument loop (`--`, positional
   arguments, `--flag=value` split at the first `=`, missing values,
   `provided` bookkeeping) and the start-up history-limit check.
10. **Interactive commands** of both versions, as one step: a parsed line
    acting on `cfg` and on the store.

Float64 values are modelled as exact decimals `Decimal(mant, exp)`. JSON
bytes are not modelled: a decoded body is a `JsonValue`, and a stored file
is the record it decodes to.

## Model

| member | source | states |
|---|---|---|
| Models.GetModelDefinitionOfKey | models.go:229-232 | every table key looks up its own definition |
| Models.GetModelDefinitionFallback | models.go:233-234 | a name that is no table key gets the generic "others" definition |
| Models.ApiKeyText | models.go:27 | a parameter's APIKey text is empty exactly when it has no payload key |
| Models.RowsSound | models.go:40-226 | every row's parameters have defaults of their declared type and within their declared range, and options only on strings |
| Models.RowsShape | models.go:40-226 | every row has temperature, top_p, max_tokens and stop, each with the payload key of its own name |
| Models.DefinitionSound | models.go:229-235 | the definition looked up for any name is sound in the same sense |
| Models.DefinitionKeyed | models.go:229-235 | every parameter of a looked-up definition is sent under its own name, or not sent at all |
| Models.CoreParametersPresent | models.go:40-226 | every looked-up definition has temperature, top_p, max_tokens and stop |
| Models.DefinitionStop | models.go:40-226 | stop is always a string-array parameter sent as "stop" |
| Models.DefinitionSeed | models.go:40-226 | where a seed exists it is an int sent as "seed" |
| Models.UnkeyedOnlyThinking | models.go:88-129 | the only parameters without a payload key are the "thinking" flags of the 49b Nemotron and deepseek-v3.1 rows |
| Models.SpecialProperties | models.go:74-122 | only deepseek-v3.1 sets ChatTemplateKwargsThinking; only the two Nemotron rows prepend "/think" |
| Models.PrependedOnThinking | models.go:74-89 | the same for a looked-up name: "/think" exactly for the two Nemotron names |
| Models.DeepseekDeclaresSeed | models.go:121-130 | deepseek-v3.1 has an int seed sent as "seed" with a nil default |
| Models.DefaultsInRange | models.go:40-226 | each parameter's default has its declared type and lies within its declared range |
| Models.MaxTokensBounds | models.go:47-220 | max_tokens is an int with minimum 1 everywhere; its maximum is 0 exactly for seed-oss-36b, the 49b Nemotron and "others" |
| Models.SeedDefaults | models.go:61-213 | a seed defaults to 0, except deepseek-v3.1's, which defaults to nil |
| ModelNames.FindModel | models.go:229-232 | the table key a name denotes, if any: found ids have that name, and None means no id has it |
| ModelNames.FindModelOfKey | models.go:229-232 | every key's name finds that key |
| ModelNames.AllModelsComplete | models.go:40-226 | the model enumeration lists every table row |
| ModelNames.ModelNameInjective | models.go:40-226 | no two table rows share a name |
| ModelNames.ParamNamed | models.go:40-226 | the parameter a schema name denotes, if any, with the same round trip |
| ModelNames.ParamNamedOfName | models.go:40-226 | every parameter's name finds that parameter |
| ModelNames.NameOfInjective | models.go:40-226 | distinct parameters have distinct schema names |
| ModelNames.CfgKeySpelled | main.go:458 | a parameter's cfg key is its name upper-cased, spelled out for each parameter |
| ModelNames.CfgKeyInjective | main.go:458 | distinct parameters have distinct cfg keys |
| Sse.PairItems | main.go:579-597 | a chunk contributes its reasoning, then its content, each only when non-empty: a reasoning item never follows a content item |
| Sse.SkippedLineAddsNothing | main.go:540-556 | a skipped line leaves the reassembled items unchanged |
| Sse.Reassemble | main.go:533-604 | the scanner loop's buffer, closed at the end, is the declarative rendering of the stream's items |
| Sse.AppendPair | main.go:579-597 | one chunk's buffer writes and flag changes are one step of the reasoning-block machine |
| Sse.ReassembleLine | main.go:557-598 | one scanner iteration is one step of the machine over that line's items |
| Sse.RenderWithoutReasoning | main.go:578-604 | without reasoning chunks the transcript is the content alone, with no sentinel |
| Sse.MachineMatchesRender | main.go:579-604 | running the two-state machine over any item list and closing an open block gives the rendering |
| Sse.RenderEndsClosed | main.go:600-604 | a rendering whose last item is reasoning ends with the closing sentinel |
| Sse.RunLen | main.go:579-597 | the length of the leading run of reasoning items, which the renderer wraps once |
| Sse.WrapReply | main.go:647-659 | the reply is empty exactly when both texts are empty |
| Sse.WrapReplyRenders | main.go:647-659 | the non-stream wrapping is what the stream renderer makes of one chunk with the same texts |
| Sse.NonStreamDeltaWins | main.go:621-645 | message is consulted only for a field delta leaves empty: with non-empty delta reasoning and content, any message gives the same texts |
| Sse.QuietStream | main.go:1875-1911 | the text printed is each line's quiet content, in order |
| Sse.QuietStreamLine | main.go:1882-1908 | one iteration appends that line's quiet content |
| Sse.QuietLineIgnoresReasoning | main.go:1894-1903 | a line's quiet content does not depend on its reasoning fields |
| Sse.QuietIgnoresReasoning | main.go:1875-1911 | removing every reasoning field from the decoded chunks changes nothing printed |
| Sse.QuietNonStreamIgnoresDelta | main.go:1913-1937 | only choices[0].message.content is read: replacing the first choice's delta changes neither the printed text nor the error |
| Sse.QuietNonStreamFallsBack | main.go:1913-1937 | an empty reply prints the raw body, so nothing is printed only for an empty body; a JSON object body never fails |
| RootStream.HandleStream | main.go:523-613 | the transcript is the rendering with "[Begin of Assistant Reasoning]\n" and "\n[/End of Assistant Reasoning]\n\n"; a scanner error is passed on |
| RootStream.StreamNeverEndsOpen | main.go:600-604 | a stream ending in reasoning still ends with the closing sentinel |
| RootStream.HandleNonStream | main.go:615-666 | a decode failure, or nothing found, is an error; otherwise the texts are wrapped with the unslashed closing sentinel |
| SrcStream.HandleStream | src/api/stream.go:29-119 | the same machine with this copy's closing sentinel, which ends in a single newline |
| SrcStream.StreamNeverEndsOpen | src/api/stream.go:106-110 | a stream ending in reasoning ends with that closing sentinel |
| SrcStream.HandleNonStream | src/api/stream.go:121-172 | the same precedence, wrapped in sentinels without newlines |
| RootMessages.PrepareMessage | main.go:670-716 | the user message is appended; sending is refused exactly when the new count exceeds the limit parsed from HISTORY_LIMIT; the outgoing list ends with that message |
| RootMessages.OutgoingEndsWithStored | main.go:686-716 | the outgoing list is at most two system messages followed by the stored messages unchanged |
| RootMessages.SystemPrecedence | main.go:686-716 | the -s prompt wins over the file's system prompt; with neither, no system prompt is sent |
| RootMessages.ThinkingControlByModel | main.go:703-711 | "/think" is prepended for the two Nemotron models when THINKING is true; "/no_think" only for the 49b model when not |
| RootMessages.ThinkingControlOf | main.go:703-711 | the same rule for any definition whose prepended message is "" or "/think" |
| RootMessages.UnparseableLimitRefuses | main.go:681-684 | a HISTORY_LIMIT that does not parse counts as 0, so every message is refused |
| RootPayload.SentIsConverted | main.go:465-490 | a value is sent as its typed conversion, and is dropped only when it does not convert, is an empty stop, or is seed 0 outside deepseek-v3.1 |
| RootPayload.WriteParam | main.go:452-491 | one parameter's iteration adds exactly that parameter's contribution |
| RootPayload.FillParams | main.go:452-491 | the loop adds exactly the contributions of every parameter of the definition |
| RootPayload.AddSpecialKeys | main.go:493-505 | chat_template_kwargs and the deepseek nil seed are added after the loop |
| RootPayload.BuildPayload | main.go:442-508 | the payload built by the loops is the declarative payload for cfg and messages |
| RootPayload.AssembleFixed | main.go:446-450 | model, messages and stream are always present |
| RootPayload.AssembleParam | main.go:452-491 | a parameter key is present exactly when the parameter contributes, and then holds its contribution |
| RootPayload.AssembleSeed | main.go:500-505 | for deepseek-v3.1 seed is always present: the contribution, or null |
| RootPayload.AssembleKwargs | main.go:494-498 | chat_template_kwargs is present exactly when the model asks for it and THINKING parses, and then holds that boolean |
| RootPayload.ContributionOf | main.go:452-491 | which parameters contribute and with which value, for any parameter table |
| RootPayload.StringContribution | main.go:480-485 | a string parameter contributes its text, unless it is an empty stop |
| RootPayload.PayloadFixedKeys | main.go:446-450 | model, messages and stream (true iff STREAM is "true") are in every payload |
| RootPayload.ParamPresence | main.go:452-491 | a schema parameter appears exactly when it has a payload key, its upper-cased cfg key is present, its value converts, and it is not an empty stop or seed 0 |
| RootPayload.ParamPresenceFor | main.go:452-491 | the same, for any definition keyed by name |
| RootPayload.ThinkingNeverSent | main.go:454-456 | the internal "thinking" parameter is never sent |
| RootPayload.ThinkingNeverSentFor | main.go:454-456 | the same for any definition keyed by name |
| RootPayload.StopSent | main.go:480-485 | stop is sent exactly when STOP is non-empty, and then as that text |
| RootPayload.StopSentFor | main.go:480-485 | the same for any definition whose stop is a string array sent as "stop" |
| RootPayload.SeedZeroOmitted | main.go:470-479 | seed 0 is omitted for every model but deepseek-v3.1 |
| RootPayload.DeepseekAlwaysSeeded | main.go:500-505 | deepseek-v3.1's payload always has seed: the parsed value, or null |
| RootPayload.KwargsPresence | main.go:494-498 | chat_template_kwargs appears exactly for deepseek-v3.1 with a THINKING that parses |
| RootPayload.ResolvesToDeepseek | main.go:500 | a name resolves to the deepseek-v3.1 row exactly when it is that name |
| RootPayload.KeyTextInjective | main.go:446-505 | distinct payload keys have distinct JSON names |
| RootSettings.ApplyStoredParam | main.go:368-397 | one parameter's iteration sets its cfg key to the stored text, unless provided or absent or of the wrong type |
| RootSettings.ApplyStored | main.go:361-397 | the loop writes exactly the loadable stored values of the current model |
| RootSettings.ApplyGlobals | main.go:399-405 | STREAM and HISTORY_LIMIT are taken from the file unless provided; a zero limit is ignored |
| RootSettings.ApplyFileSettingsAsDefaults | main.go:353-408 | a failed read leaves cfg alone; otherwise cfg becomes the declarative result |
| RootSettings.ProvidedNeverChanged | main.go:353-408 | a key marked provided keeps its value and its presence |
| RootSettings.StoredParamApplied | main.go:361-397 | each parameter's cfg key gets the stored text when loadable, and is kept otherwise |
| RootSettings.ProvidedNotLoaded | main.go:369-371 | the loop never writes a key marked provided |
| RootSettings.StoredTextTyped | main.go:374-394 | a stored value is loaded exactly when its JSON type matches the parameter's type |
| RootSettings.StoredTextReadsBack | main.go:374-394 | the loaded text parses back to the stored string, boolean or integer |
| RootSettings.GlobalsApplied | main.go:399-405 | STREAM comes from the file unless provided; HISTORY_LIMIT too when non-zero and not provided |
| RootSettings.CfgKeyNotGlobal | main.go:399-405 | no parameter's cfg key is STREAM or HISTORY_LIMIT |
| RootSettings.PersistParam | main.go:318-341 | one parameter's iteration stores its typed value under its schema name, or leaves the settings alone |
| RootSettings.PersistParams | main.go:318-341 | the loop stores exactly the persistable values over the model's previous settings |
| RootSettings.PersistSettingsToFile | main.go:302-351 | a failed read writes nothing; otherwise the file becomes the declarative result |
| RootSettings.PersistOnlyCurrentModel | main.go:343-348 | system, messages, the default section and every other model's section are unchanged |
| RootSettings.PersistedParam | main.go:318-341 | each parameter is stored when persistable and keeps its previous entry otherwise |
| RootSettings.PersistedOtherKey | main.go:318-341 | entries that are no parameter's name keep their value |
| RootSettings.PersistThenApply | main.go:318-397 | persisting and then applying with nothing provided gives back string values, and booleans and integers in canonical form |
| RootSettings.AppliedAfterPersist | main.go:318-397 | every persisted parameter is loaded back by the next apply |
| RootSettings.AppliedFromEntry | main.go:361-397 | a stored entry of the parameter's JSON type is loaded as its text |
| RootSettings.PersistThenApplyStream | main.go:347-402 | the stream flag survives the round trip as "true" or "false" |
| RootStore.DefaultJson | main.go:195-200 | a nil default is stored as JSON null, and only a nil default |
| RootStore.AppendCounts | main.go:276-283 | appending raises the message count by one, puts the message last and keeps the earlier ones in order |
| RootStore.ClearThenAppend | main.go:1679-1691 | after /clear and one append the file holds just that message, with system and settings kept |
| RootStore.SystemAndAppendIndependent | main.go:293-300 | setting the system prompt and appending commute; neither makes an unreadable file readable, and the system prompt leaves the messages alone |
| RootStore.Store.ReadConversation | main.go:252-262 | reads the stored value |
| RootStore.Store.WriteConversation | main.go:264-274 | the path holds the written record afterwards |
| RootStore.Store.EnsureHistoryFileStructure | main.go:184-250 | a missing or malformed file is replaced by a new one, a malformed one backed up first |
| RootStore.Store.CreateFile | main.go:185-224 | the new file is the declarative new file |
| RootStore.Store.BackUp | main.go:234-246 | the file is moved to the backups and the path is left empty |
| RootStore.Store.AppendMessage | main.go:276-283 | fails exactly when the file does not read; otherwise appends |
| RootStore.Store.MessageCount | main.go:285-291 | the number of stored messages, or an error |
| RootStore.Store.PersistSystemToFile | main.go:293-300 | fails exactly when the file does not read; otherwise sets the system prompt |
| RootStore.Store.ClearMessages | main.go:1679-1691 | fails exactly when the file does not read; otherwise clears the messages |
| RootStore.Store.PersistSettings | main.go:302-351 | writes the persisted settings when the file reads |
| RootStore.Store.ApplySettings | main.go:353-408 | applies the stored settings to cfg when the file reads |
| RootStore.NewFileOf | main.go:185-224 | the new file's record, built step by step |
| RootStore.GenericSettings | main.go:195-200 | the default section of a new file, built from the "others" parameters |
| RootStore.CollectDefaults | main.go:195-200 | the loop over a parameter table stores every default under its schema name |
| RootStore.GenericDefaultsAgree | main.go:195-200 | that loop over the "others" row gives the generic defaults |
| RootStore.OthersDefaults | models.go:216-225 | the "others" row's defaults: temperature 0.5, top_p 1, max_tokens 1024, both penalties 0, stop "" |
| RootStore.EnsuredWellShaped | main.go:184-250 | afterwards the file is well-shaped and readable; running it again changes nothing |
| RootStore.EnsuredKeepsOnlyWellShaped | main.go:227-249 | a well-shaped file is kept as it is; any other becomes the new file, and a present one is backed up |
| RootStore.NewFileShape | main.go:191-222 | a new file has no system prompt and no messages, the stream flag and limit from cfg, and every generic default |
| RootLines.FirstSuffix | main.go:804-813 | the first delimiter, in list order, that the buffer ends with |
| RootLines.Reader.ReadByte | main.go:791 | the next byte is consumed, or EOF when none is left |
| RootLines.EffectiveSettles | main.go:785-787 | replacing an empty delimiter list by the default is idempotent |
| RootLines.LineEnd | main.go:790-814 | the shortest prefix that ends with some delimiter |
| RootLines.ReadLine | main.go:781-815 | a line ends at the first byte that completes a delimiter; with none, the input is returned with EOF |
| RootLines.Reader.ReadSingleLine | main.go:781-815 | the byte loop reads exactly that line and consumes exactly its bytes |
| RootLines.Reader.ReadLines | main.go:817-847 | the lines read until EOF are the declarative line split |
| RootLines.EmptyInputIsEof | main.go:793-797 | no input gives an empty line with EOF |
| RootLines.DefaultLineHasNoCrLf | main.go:785-810 | with the default delimiters a trimmed line holds no CR or LF |
| RootLines.DefaultLineTrimmed | main.go:808-810 | a trimmed default line drops exactly its one-byte line end |
| RootLines.CrEndsLine | main.go:804-812 | a CR ends the line at once |
| RootLines.LfAloneIsEmptyLine | main.go:804-812 | a leading LF is an empty line |
| RootLines.CrLfSplitsAtCr | main.go:785-787 | with the default list, CRLF is split at the CR and the LF is read as an empty line |
| RootLines.LinesUntrimmedJoin | main.go:817-847 | untrimmed lines join back to the whole input |
| Export.AssistantContentsExactly | main.go:1476-1481 | the assistant replies are exactly the contents of the assistant messages |
| Export.LastN | main.go:1441-1449 | the newest n replies, or all of them when n is not in 1..count-1 |
| Export.LastNEmpty | main.go:1451-1453 | the selection is empty exactly when there is no reply |
| Export.CollectNewestFirst | main.go:1441-1449 | the backward scan collects the newest n replies, newest first |
| Export.ReverseInPlace | main.go:1455-1458 | the swap loop reverses the array |
| Export.Chronological | main.go:1455-1458 | the collected replies in chronological order |
| Export.ReversedTwice | main.go:1455-1458 | reversal is its own inverse |
| RootExport.FilterInPlace | main.go:1460-1464 | the loop filters every element of the array |
| RootExport.ExportLastN | main.go:1435-1468 | the file written is the declarative last-n export |
| RootExport.ExportNth | main.go:1470-1498 | the file written is the declarative n-th export |
| RootExport.ParseTFlag | main.go:1500-1512 | filtering is on exactly when "-t" follows the command; the other words keep their order |
| RootExport.WithoutTFlagExactly | main.go:1504-1510 | the kept words are exactly the words other than "-t" |
| RootExport.NoRepliesNoExport | main.go:1451-1453 | without assistant replies both exports fail |
| RootExport.LastNSucceeds | main.go:1435-1468 | the last-n export succeeds exactly when the file reads and has a reply |
| RootExport.LastNContent | main.go:1441-1466 | unfiltered, it writes the newest replies in order, joined by the separator |
| RootExport.NthSucceeds | main.go:1487-1493 | the n-th export succeeds exactly for 1 <= n <= count, writing the n-th newest reply |
| RootExport.NthHeadsLastN | main.go:1487-1493 | the n-th newest reply is the first of the newest n |
| RootExport.LastIsFirstFromEnd | main.go:1731-1743 | /exportlast and /exportn 1 write the same file |
| RootExport.ExportCommand | main.go:1727-1757 | the export commands' argument handling is the declarative command result |
| RootInteractive.Lookup | main.go:1593-1594 | the parameter of the current model with that name, if any |
| RootInteractive.LookupOfName | main.go:1593-1594 | looking up a parameter's own name finds it exactly when the model has it |
| RootInteractive.Contains | main.go:1632-1641 | the options scan finds a value exactly when it is among the options |
| RootInteractive.ValidateParameter | main.go:1592-1651 | the checks run in the code's order and report the declarative error |
| RootInteractive.StreamAccepted | main.go:1596-1602 | stream accepts exactly what ParseBool accepts |
| RootInteractive.HistoryLimitAccepted | main.go:1603-1609 | history_limit accepts exactly the non-negative integers |
| RootInteractive.UnknownRejected | main.go:1610 | any other unknown name is rejected as unknown |
| RootInteractive.OptionsAccepted | main.go:1630-1642 | a string with options accepts exactly its options |
| RootInteractive.StringListAcceptsAll | main.go:1647-1648 | a string-array parameter accepts every value |
| RootInteractive.MaxTokensNeverAccepted | main.go:1627-1629 | where max_tokens has Min 1 and no Max, no value is accepted |
| RootInteractive.MaxTokensAccepted | main.go:1621-1629 | elsewhere exactly the integers within [1, Max] are accepted |
| RootInteractive.SetParameter | main.go:1805-1846 | the set/unset command changes cfg as the declarative command says |
| RootInteractive.SettingTouchesOwnKey | main.go:1805-1846 | only the command's own upper-cased key can change |
| RootInteractive.SetStoresOnlyValid | main.go:1837-1843 | a value is stored exactly when it validates; otherwise cfg is unchanged |
| RootInteractive.UnsetStoresDefault | main.go:1825-1834 | unset stores the parameter's default as text |
| RootInteractive.UnsetGlobalsValid | main.go:1819-1824 | unset stream gives "true", unset history_limit gives "40", and both validate |
| RootInteractive.GlobalKeys | main.go:1813-1824 | the global commands' keys are STREAM and HISTORY_LIMIT |
| RootInteractive.UnsetIntDefaultValid | main.go:1825-1834 | an in-range int default validates once stored as text |
| RootInteractive.UnsetNilSeedRejected | main.go:1829-1831 | unsetting deepseek-v3.1's seed stores "<nil>", which the seed's own check rejects |
| RootInteractive.NoBuiltinShadowsSetting | main.go:1666-1805 | no built-in command has the name of a parameter, stream or history_limit |
| RootInteractive.ModelsListExactly | main.go:37-55 | a name is in the list exactly when it names a row other than "others" |
| RootInteractive.ParseLine | main.go:1654-1663 | a command line has at least one word, the first being "/" followed by the command name; an all-white-space line is no command |
| RootInteractive.ParseLineWords | main.go:1654-1663 | no command exactly when the trimmed line has no words or its first word lacks "/"; otherwise the command's words are strings.Fields of the trimmed line |
| RootInteractive.RunBuiltin | main.go:1665-1803 | each built-in changes cfg and the store as the declarative step says |
| RootInteractive.RunSetting | main.go:1805-1848 | a non-built-in command is a setting or not a command |
| RootInteractive.HandleInteractiveInput | main.go:1653-1849 | one input line's outcome, cfg and stored file |
| RootInteractive.OnlyOwnKeyChanges | main.go:1653-1849 | a command changes at most MODEL and its own key |
| RootInteractive.SwitchModelAccepts | main.go:1766-1788 | /model switches to a known model name and refuses any other |
| RootInteractive.RandomModelDefined | main.go:1758-1762 | /randomodel picks a listed model with its own table row |
| RootInteractive.UnknownCommandIsPrompt | main.go:1848 | a word that is neither a built-in nor a setting is no command |
| RootInteractive.UnknownCommandChangesNothing | main.go:1805-1848 | and it changes neither cfg nor the file |
| RootInteractive.FileChangedOnlyByItsCommands | main.go:1665-1803 | only /clear, /persist-system and /persist-settings change the file |
| RootInteractive.ClearEmptiesMessages | main.go:1679-1691 | /clear empties the messages and keeps system and settings |
| SrcCli.SplitFlag | src/main.go:80-85 | an argument splits at its first "=", or is a bare key |
| SrcCli.SplitFlagAtFirst | src/main.go:80-85 | a key without "=" joined to any value splits back into the two |
| SrcCli.FlagNamedSpellings | src/main.go:87-242 | every spelling of a flag is recognised as that flag |
| SrcCli.FlagNamedExactly | src/main.go:87-242 | a key names a flag exactly when it is one of that flag's listed spellings, so an unrecognised key is no listed spelling |
| SrcCli.SpellingShape | src/main.go:87-242 | spellings start with "-", are not "--" and hold no "=" |
| SrcCli.Interpret | src/main.go:61-246 | one iteration consumes one or two arguments |
| SrcCli.ParseArgs | src/main.go:53-249 | the argument loop gives the declarative parse of the arguments |
| SrcCli.DoubleDashEndsFlags | src/main.go:65-75 | after "--" every argument is positional |
| SrcCli.InlineValue | src/main.go:80-99 | "--flag=value" sets the value and consumes one argument |
| SrcCli.ValueFlagTakesNext | src/main.go:53-58 | a flag without an inline value takes the next argument, or fails with a missing value |
| SrcCli.StreamNeedsInlineValue | src/main.go:219-228 | a bare "--stream" fails as an invalid stream value |
| SrcCli.UnknownOptionFails | src/main.go:243-246 | an unknown option fails |
| SrcCli.ProvidedTracksCfg | src/main.go:98-235 | over the rest of the loop, a changed key is marked and only settable keys are marked; a key no argument names as a flag keeps its value and its mark |
| SrcCli.ProvidedFromStart | src/main.go:98-235 | from the start of parsing, every key marked provided or changed from the defaults was named by a flag token among the arguments, and every changed key is marked |
| SrcCli.InterpretTracked | src/main.go:61-246 | each iteration keeps the marks in step with the changes, and touches no key but the one its flag names |
| SrcCli.InterpretMarksOwnKey | src/main.go:98-235 | one iteration sets and marks at most the key of the flag it read; `--`, positional words, help and errors touch none |
| SrcCli.KeyUntouched | src/main.go:61-246 | arguments with no flag token for a key leave that key's value and mark as they were |
| SrcCli.TokenAndPromptSetNoKey | src/main.go:177-218 | -k and --prompt set neither a configuration key nor a mark |
| SrcCli.DefaultsValid | src/config/defaults.go:8-19 | the default configuration passes validateNumericRanges |
| SrcCli.DefaultConfig | src/main.go:22-36 | the twelve default keys, HISTORY_DIR as filepath.Join of $HOME and ".cache/nvidia-chat", and a limit that parses as 40 |
| SrcCli.DefaultTextsPass | src/config/defaults.go:8-19 | the default texts pass every range, option and flag check |
| SrcCli.DefaultMaxTokensParses | src/config/defaults.go:14 | the default max_tokens parses as 4096 |
| SrcCli.StartCheckExactly | src/main.go:394-407 | start-up proceeds exactly when the file reads, the limit is positive and the count is below it |
| SrcCli.StartCheck | src/main.go:394-407 | proceeds only below the limit; a reached limit is positive and at most the count; an invalid limit reads as at most 0; a failed count is reported as such |
| SrcCli.DefaultLimitForty | src/main.go:394-407 | with the defaults, start-up refuses at 40 messages |
| SrcInteractive.ExportLastN | src/ui/interactive.go:18-45 | the scan-and-reverse loop gives the declarative last-n export |
| SrcInteractive.LastNExportFails | src/ui/interactive.go:18-36 | a read failure or a file without assistant messages fails |
| SrcInteractive.LastNExportWrites | src/ui/interactive.go:18-44 | otherwise the newest replies are written in order, joined by the separator |
| SrcInteractive.HandleInteractiveInput | src/ui/interactive.go:47-213 | one input line's outcome, cfg and stored file |
| SrcInteractive.Dispatch | src/ui/interactive.go:53-213 | the command switch |
| SrcInteractive.RunCommand | src/ui/interactive.go:55-208 | each non-setting command changes cfg and the store as the declarative step says |
| SrcInteractive.RunSetting | src/ui/interactive.go:120-146 | a setting command stores the value when the whole configuration stays valid |
| SrcInteractive.KeyFor | src/ui/interactive.go:125-133 | the cfg key of a setting command |
| SrcInteractive.RenamedSettingKeys | src/ui/interactive.go:128-133 | /reasoning sets REASONING_EFFORT and /limit sets HISTORY_LIMIT |
| SrcInteractive.UpperCasedSettingKey | src/ui/interactive.go:125-127 | other setting commands set their name upper-cased |
| SrcInteractive.KeyOfName | src/ui/interactive.go:125-127 | the key of "/name" is name upper-cased |
| SrcInteractive.SettingValidated | src/ui/interactive.go:120-146 | a value is stored exactly when the configuration with it passes the check; no other key changes |
| SrcInteractive.ValidStaysValid | src/ui/interactive.go:47-213 | every command keeps a valid configuration valid |
| SrcInteractive.AssignedKeepsValid | src/ui/interactive.go:134-144 | a validated setting keeps the configuration valid |
| SrcInteractive.RandomModelKeepsValid | src/ui/interactive.go:184-188 | changing MODEL keeps the configuration valid |
| SrcInteractive.LimitAcceptsAnything | src/ui/interactive.go:120-146 | /limit stores any value, since the check never reads HISTORY_LIMIT |
| SrcInteractive.ExportNNeedsPositiveCount | src/ui/interactive.go:167-183 | /exportn exports exactly when the count parses and is positive |
| SrcInteractive.ClearKeepsSystemAndSettings | src/ui/interactive.go:71-83 | /clear empties the messages and keeps system and settings |
| SrcInteractive.RandomModelFromList | src/ui/interactive.go:184-188 | /randomodel sets MODEL to a listed model and changes nothing else |
| SrcInteractive.BlankIsNoCommand | src/ui/interactive.go:48-52 | a blank line is no command |
| SrcInteractive.UnknownWordIsPrompt | src/ui/interactive.go:210-211 | an unknown first word is no command and changes nothing |
| SrcSettings.BuildSettings | src/config/settings.go:24-46 | stream is true exactly for "true", and model and stop are copied as they are |
| SrcSettings.PersistedFallbacks | src/config/settings.go:29-39 | numbers that do not parse are persisted as 1, 1, 0, 0, 4096 and the default history limit |
| SrcSettings.OverrideKey | src/config/settings.go:54-87 | one guarded assignment |
| SrcSettings.ApplyFileSettingsAsDefaults | src/config/settings.go:48-89 | a failed read leaves cfg alone; otherwise the ten guarded assignments in order |
| SrcSettings.AppliedAt | src/config/settings.go:54-87 | each key takes the file's text when not provided and not zero, and is kept otherwise |
| SrcSettings.ProvidedNeverChanged | src/config/settings.go:54-87 | a provided key is never overwritten |
| SrcSettings.StreamAlwaysApplied | src/config/settings.go:72-78 | STREAM is always taken from the file unless provided, false included |
| SrcSettings.ZeroValueKept | src/config/settings.go:54-87 | a zero value in the file overrides nothing |
| SrcSettings.PersistThenApplyText | src/config/settings.go:24-89 | non-empty model, reasoning effort and stop survive persisting then applying |
| SrcSettings.PersistThenApplyStream | src/config/settings.go:29-78 | the stream flag survives as "true" or "false" |
| SrcSettings.PersistThenApplyInt | src/config/settings.go:36-87 | non-zero max_tokens and history limit survive as the same integers |
| SrcSettings.KeyTextInjective | src/config/settings.go:54-87 | the ten keys are distinct |
| SrcSettings.KeysDistinct | src/config/settings.go:54-87 | the ten keys are pairwise distinct |
| SrcSettings.ValidExactly | src/config/settings.go:91-120 | the configuration passes exactly when every range, option and flag check passes |
| SrcSettings.ValidateNumericRanges | src/config/settings.go:91-120 | a reported error names a check that really fails, on the very text that check reads from cfg |
| SrcSettings.EarlierChecksPassed | src/config/settings.go:93-119 | a reported failure means every earlier check passed |
| SrcSettings.UncheckedKeyIgnored | src/config/settings.go:91-120 | a key the check does not read cannot change its verdict |
| SrcSettings.HistoryLimitNeverInspected | src/config/settings.go:91-120 | in particular HISTORY_LIMIT |
| SrcConversation.Store.ReadConversation | src/conversation/conversation.go:86-96 | reads the stored value |
| SrcConversation.Store.WriteConversation | src/conversation/conversation.go:98-108 | the path holds the written record afterwards |
| SrcConversation.Store.EnsureHistoryFileStructure | src/conversation/conversation.go:26-84 | a missing or malformed file is replaced by a new one, a malformed one backed up first |
| SrcConversation.Store.BackUp | src/conversation/conversation.go:60-63 | the file is moved to the backups and the path is left empty |
| SrcConversation.Store.AppendMessage | src/conversation/conversation.go:110-117 | fails exactly when the file does not read; otherwise appends |
| SrcConversation.Store.MessageCount | src/conversation/conversation.go:119-125 | the number of stored messages, or an error |
| SrcConversation.Store.PersistSystemToFile | src/conversation/conversation.go:127-134 | fails exactly when the file does not read; otherwise sets the system prompt |
| SrcConversation.Store.ClearMessages | src/ui/interactive.go:71-83 | fails exactly when the file does not read; otherwise clears the messages |
| SrcConversation.Store.PersistSettings | src/config/settings.go:24-46 | writes the persisted settings when the file reads |
| SrcConversation.Store.ApplySettings | src/config/settings.go:48-89 | applies the stored settings to cfg when the file reads |
| SrcConversation.EnsuredShaped | src/conversation/conversation.go:26-84 | afterwards the file has a messages array; running it again changes nothing |
| SrcConversation.EnsuredKeepsOnlyShaped | src/conversation/conversation.go:58-83 | a shaped file is kept as it is; any other becomes the new file, and a present one is backed up |
| SrcConversation.NewFileIsPersistedDefaults | src/conversation/conversation.go:33-49 | a new file has no system prompt and no messages, and the persisted settings without stop and limit |
| SrcConversation.AppendCounts | src/conversation/conversation.go:110-125 | appending raises the count by one and puts the message last |
| SrcConversation.ClearThenAppend | src/conversation/conversation.go:110-117 | clearing then appending leaves just that message |
| SrcConversation.SystemAndSettingsIndependent | src/conversation/conversation.go:127-134 | setting the system prompt and persisting settings commute and touch nothing else |
| SrcPayload.Encode | src/api/payload.go:20-33 | the keys are exactly the nine fixed ones, plus stop when set |
| SrcPayload.BuildPayload | src/api/payload.go:12-35 | the key set is the nine fixed keys plus stop exactly when STOP is non-empty; model and messages are passed through; stream iff STREAM is "true" |
| SrcPayload.StopSentIffSet | src/api/payload.go:31-33 | stop is sent exactly when STOP is non-empty, and then as that text |
| SrcPayload.UnparseableSentAsZero | src/api/payload.go:13-18 | unparseable numbers are sent as 0; stream is true exactly for "true" |
| SrcPayload.ValidatedPayload | src/api/payload.go:12-35 | a configuration that passes validateNumericRanges is sent with every value in range |
| GoStrconv.AtoiIgnoringError | src/api/payload.go:18 | Atoi with its error ignored: the value when Atoi succeeds, 0 for a syntax error, and the nearest int64 bound for a numeral beyond either end |
| GoStrconv.AtoiItoa | src/config/settings.go:69-71 | an int written with "%d" parses back to itself |
| GoStrconv.FormatBool | main.go:1820 | the text of a boolean parses back to it |
| GoText.TrimSpace | main.go:1654 | the slice of the text after its leading white space and before its trailing white space, neither starting nor ending with white space; empty exactly for blank text |
| GoText.FieldsEmptyIffBlank | main.go:1655-1658 | there are no words exactly when the text is blank |
| GoText.ToUpperInjective | main.go:1813 | upper-casing never maps two different lower-case parameter names to the same cfg key |
| GoText.FieldsAreRuns | main.go:1655 | the words are the maximal non-space runs of the text, in order: the text is the words interleaved with white-space gaps, non-empty between words |
| GoText.TrimPrefix | main.go:1663 | removes the prefix when present |
| GoText.CutAtFirst | src/main.go:80-85 | the parts before and after the first occurrence of a character |
| ConfigMap.Cfg.Put | main.go:1842 | the assignment sets that key and nothing else |

## Left out

- HTTP: request construction, `client.Do`, status handling, and
  `getAPIKeyFromEnv`. These are network and environment plumbing. The
  response body arrives as decoded lines or as an optional JSON value.
- JSON byte encoding and decoding. Stream chunks are decoded by a `decode`
  parameter. A non-stream body is an optional `JsonValue`. A stored file is
  the record it decodes to.
- File-system details: the temporary file and rename in
  `writeConversation`, `copyFile` (`/save`), `fileExists`, `MkdirAll`, and the
  timestamped backup names. A store holds one stored value, and backups are
  a list.
- `/persist-system` reads its source file through a `readFile` parameter.
- `filterThinkingBlock` is a regular expression. It is a `filter`
  parameter of the export operations.
- `rand.Intn` in `/randomodel` is a `pick` parameter.
- Printing, colours, `printHelp`, `getModelInfoString`, `FormatForHelp`,
  `/help`, `/history`, `/modelinfo`, and the banners and echoed stream text
  are left out. `/exit`, `/quit` and other `os.Exit` paths are an `Exit`
  outcome.
- float64 arithmetic is modelled as exact decimals. `%g` is exact only for
  decimals that a double represents as written.
- GoStrconv.ParseFloat: accepts plain and exponent decimal forms only. It
  does not model hexadecimal floats, "inf"/"nan", or rounding to the nearest
  double. It also differs from Go's `strconv.ParseFloat` on two input
  classes. Go accepts underscores between digits ("0_1" is 1), which the
  model rejects. Go fails with a range error when the exponent overflows
  ("1e400"), which the model parses as an exact decimal. So `/top_p 0_1` is
  an invalid float in the model but is stored by the program, and `1e400`
  is an out-of-range value in the model but an invalid float in the program.
- RootStore.Store.PersistSettings: requires that a decoded file's
  `Settings.Models` is not null. On such a file the assignment at
  main.go:343 writes into a nil map, and Go panics. That panic is not
  modelled. `ensureHistoryFileStructure` replaces such a file at start-up
  (main.go:242), so only a file edited during the session can reach it.
- RootInteractive.RunBuiltin: the same requirement on the stored file, for
  `/persist-settings` only, which calls persistSettingsToFile. The panic is
  not modelled. Every other command runs on such a file.
- RootInteractive.HandleInteractiveInput: the same requirement on the
  stored file, only for a line whose command is `/persist-settings`,
  passed on from RunBuiltin. The panic is not modelled.
- RootSettings.PersistSettingsToFile and RootStore.Store.PersistSettings: a
  file whose entry for the current model is JSON null is not represented,
  because the model types each entry as a map. In Go such an entry is
  found as a nil map (main.go:311-314), and the first parameter written
  into it (main.go:317-342) panics. When reading settings, Go takes that
  entry as empty rather than falling back to `default`
  (main.go:362-365). Neither behaviour is modelled.
- RootSettings.ApplyStoredParam: an int parameter stored as a number
  beyond the int64 range is written as the exact truncation `Itoa(Trunc(v))`.
  Go's `int(v)` (main.go:382) is implementation-defined for such values,
  so the model promises a text the program need not produce.
- SrcPayload.ValidatedPayload: "NaN" in any case parses in Go, and every
  comparison with NaN is false. So Go's validateNumericRanges
  (src/config/settings.go:93-107) passes a NaN value, and json.Marshal
  then fails in buildPayload. The model's ParseFloat rejects "nan", so the
  model reports an invalid float instead. "Every value in range" holds
  only for that reason. The same applies to the root program's
  validateParameter (main.go:1619) and validateNumericRanges.
- RootLines.Reader.ReadSingleLine: read errors other than the end of input
  are not modelled. The reader is a sequence of bytes, so every read
  either yields a byte or reports the end.
- SrcCli.DefaultConfig: `filepath.Join` is modelled only for a clean $HOME.
  An empty $HOME gives the relative ".cache/nvidia-chat", and a $HOME
  ending in "/" gets no second separator. The rest of Join's cleaning
  (repeated slashes, "." and ".." inside $HOME) is not modelled.
- `readSingleLine` creates a new `bufio.Reader` on every call, and that
  reader may read ahead. This I/O buffering is not modelled: each call
  consumes exactly the bytes of its line.
- The 1 MB line limit of the stream scanner is not modelled. A scanner
  error is a `scanFailed` parameter that is passed on.
- The main interactive loop, `processSinglePrompt` and the request
  `processMessage` sends. Only `processMessage`'s message assembly and
  limit check are modelled (`RootMessages.PrepareMessage`).
- The root program's `validateNumericRanges` (main.go:410-439) is the same
  text as the src copy's. It is modelled once, as
  `SrcSettings.ValidateNumericRanges`.
- `SrcInteractive.RunSetting`: the source validates a copy of `cfg` with
  the new value. The model validates `cfg[key := value]`, which is that
  copy's value.
- `Sse.LineItems`: a decoded chunk becomes its reasoning and content items
  only. The `inReasoning` flag lives in the accumulator, not in the items.
- The src copy's `--help` ends the parse with a `Help` result instead of
  printing and calling `os.Exit`. `--list` only records that the list was
  asked for, and printing the list is not modelled.
