# NLog App Center targets, modelled in Dafny

This project models the two NLog targets that forward log events to Microsoft App Center:

- `AppCenterCrashesTarget` reports errors with `Crashes.TrackError`, attaching log files from a directory.
- `AppCenterAnalyticsTarget` reports events with `Analytics.TrackEvent`.

Both targets start the App Center SDK in `InitializeTarget` and enable their own service there.

The SDK is the class `AppCenter.Sdk`. It holds the SDK's state:

- whether the SDK is configured;
- the set of enabled services;
- the set of operations that throw;
- the log of every call made to it, in order.

Each SDK operation used by the targets is a method of `Sdk` that appends to that log. The targets' behaviour is therefore stated as "the log grows by exactly these calls". The expected calls are given by specification functions:

- `Initialization.InitCalls`;
- `CrashesTarget.WriteCalls`;
- `AnalyticsTarget.WriteCalls`.

Lemmas then prove what the targets promise about those calls.

Modules, one per file:

- `Wrappers`: `Option`.
- `Text`: the .NET string operations the targets use:
  - `string.IsNullOrEmpty` and `string.IsNullOrWhiteSpace`;
  - `StartsWith` and `EndsWith` with `InvariantCultureIgnoreCase`;
  - `Split` with `RemoveEmptyEntries`.
- `Logging`: what NLog hands a target:
  - levels, events and exceptions;
  - the rendered layouts (`Rendering`).
- `AppCenter`: the services, the attachments, the call log and the `Sdk` class.
- `ServiceTypes`: the services `InitializeTarget` starts. These are the configured `ServiceTypes`, otherwise the services named in `ServiceTypesString`, otherwise the target's own service.
- `MimeTypes`: the `MimeTypeMapping` record, the extension table and `GetMimeTypeMapping`.
- `Attachments`: `GetErrorAttachmentWithFromLogFiles` and `GetErrorAttachmentWithFromLogFile`.
- `Properties`: `BuildProperties`. It uses a case-insensitive dictionary, modelled as a sequence of entries in insertion order.
- `Initialization`: `InitializeTarget`, which is the same in both targets apart from the service it falls back to and enables, and apart from the crash callbacks.
- `CrashesTarget`: `Write` and `TrackError` of the crashes target.
- `AnalyticsTarget`: `Write` of the analytics target.

`MimeTypeMapping` is an immutable record whose constructor only assigns its three get-only properties. It is the datatype `MimeTypes.MimeTypeMapping(fileExtension, mimeType, isText)`. Its fields are its constructor's arguments and never change, because a datatype value cannot change.

## Model

Source paths are relative to the repository root.

| member | source | states |
|---|---|---|
| Text.IsNullOrEmpty | NLog.Targets.AppCenter.Crashes/AppCenterCrashesTarget.cs:164 | `string.IsNullOrEmpty` (also used at lines 240, 246, 252, 282, 400 and 406): the string has no characters, a null string being modelled as the empty one |
| Text.EqualsIgnoreCase | NLog.Targets.AppCenter.Crashes/AppCenterCrashesTarget.cs:396 | `StringComparer.OrdinalIgnoreCase` equality: the two strings agree character by character once ASCII letters are upper-cased |
| Text.StartsWithIgnoreCase | NLog.Targets.AppCenter.Analytics/AppCenterAnalyticsTarget.cs:177 | `StartsWith(prefix, InvariantCultureIgnoreCase)`: the message is at least as long as the prefix and its head equals the prefix ignoring case |
| Text.EndsWithIgnoreCase | NLog.Targets.AppCenter.Crashes/AppCenterCrashesTarget.cs:173-178 | `EndsWith(suffix, InvariantCultureIgnoreCase)`: the token is at least as long as the suffix and its tail equals the suffix ignoring case |
| Text.IsNullOrWhiteSpace | NLog.Targets.AppCenter.Crashes/AppCenterCrashesTarget.cs:294 | `string.IsNullOrWhiteSpace`: every character is white space, so the empty string is blank |
| Text.Runs | NLog.Targets.AppCenter.Crashes/AppCenterCrashesTarget.cs:170 | splitting at every comma gives at least one piece, and no piece holds a comma |
| Text.Split | NLog.Targets.AppCenter.Crashes/AppCenterCrashesTarget.cs:170 | no token of `Split(s, ',')` with RemoveEmptyEntries is empty or holds a comma |
| Text.JoinRuns | NLog.Targets.AppCenter.Crashes/AppCenterCrashesTarget.cs:170 | splitting without options loses nothing: joining the pieces with the separator gives back the string |
| Text.SplitAtSeparator | NLog.Targets.AppCenter.Crashes/AppCenterCrashesTarget.cs:170 | the tokens of `a + "," + b` are the tokens of `a` followed by those of `b` |
| Text.SplitSingle | NLog.Targets.AppCenter.Crashes/AppCenterCrashesTarget.cs:170 | a non-empty string without a comma is one token, itself |
| Text.RemoveEmpty | NLog.Targets.AppCenter.Crashes/AppCenterCrashesTarget.cs:170 | RemoveEmptyEntries keeps only non-empty tokens of the input, never more of them |
| Text.StartsWithIgnoreCaseRespectsCase | NLog.Targets.AppCenter.Analytics/AppCenterAnalyticsTarget.cs:177 | StartsWith ignoring case gives the same answer for two prefixes that differ only in case |
| ServiceTypes.ServiceOfToken | NLog.Targets.AppCenter.Crashes/AppCenterCrashesTarget.cs:171-184 | a token ending with "Analytics" (ignoring case) names Analytics; otherwise one ending with "Crashes" names Crashes; otherwise none |
| ServiceTypes.ParseServiceTypes | NLog.Targets.AppCenter.Crashes/AppCenterCrashesTarget.cs:169-186 | the services of ServiceTypesString: split at commas without empty tokens, each token mapped by its suffix, unmatched tokens dropped |
| ServiceTypes.ServicesOf | NLog.Targets.AppCenter.Crashes/AppCenterCrashesTarget.cs:171-186 | mapping tokens by suffix and dropping the unmatched ones yields at most one service per token, each Analytics or Crashes |
| ServiceTypes.ServicesOfAppend | NLog.Targets.AppCenter.Crashes/AppCenterCrashesTarget.cs:171-186 | the mapping works token by token: the services of two token lists concatenated are the services of each, in order |
| ServiceTypes.ParsedServicesAreKnown | NLog.Targets.AppCenter.Crashes/AppCenterCrashesTarget.cs:169-186 | parsing ServiceTypesString gives at most one service per token, each Analytics or Crashes |
| ServiceTypes.ParseAtComma | NLog.Targets.AppCenter.Crashes/AppCenterCrashesTarget.cs:169-186 | the services named before and after a comma are parsed independently and kept in order |
| ServiceTypes.ParseToken | NLog.Targets.AppCenter.Crashes/AppCenterCrashesTarget.cs:171-185 | a single token gives the service its suffix names, or nothing |
| ServiceTypes.ParseNamedToken | NLog.Targets.AppCenter.Crashes/AppCenterCrashesTarget.cs:173-181 | a single token whose suffix names a service parses to that service alone |
| ServiceTypes.ParseUnnamedToken | NLog.Targets.AppCenter.Crashes/AppCenterCrashesTarget.cs:183-185 | a single token naming neither service is dropped |
| ServiceTypes.ParseEmpty | NLog.Targets.AppCenter.Crashes/AppCenterCrashesTarget.cs:169-170 | an empty ServiceTypesString names no service |
| ServiceTypes.ResolveServiceTypes | NLog.Targets.AppCenter.Crashes/AppCenterCrashesTarget.cs:166-193 | the services started are never empty: a non-empty configured ServiceTypes is used unchanged; otherwise the services parsed from ServiceTypesString when there are any; otherwise the fallback service alone |
| ServiceTypes.ResolvedServicesAreKnown | NLog.Targets.AppCenter.Analytics/AppCenterAnalyticsTarget.cs:98-124 | without configured types, every started service is Analytics, Crashes or the target's own fallback |
| ServiceTypes.ResolveBothServices | NLog.Targets.AppCenter.Crashes/AppCenterCrashesTarget.cs:169-186 | "Analytics, Crashes" starts Analytics then Crashes |
| ServiceTypes.ParseBareName | NLog.Targets.AppCenter.Crashes/AppCenterCrashesTarget.cs:173-176 | "Analytics" names Analytics |
| ServiceTypes.ParseSpacedName | NLog.Targets.AppCenter.Crashes/AppCenterCrashesTarget.cs:178-181 | " Crashes" (leading blank) still names Crashes, since only the suffix is compared |
| ServiceTypes.ResolveQualifiedName | NLog.Targets.AppCenter.Crashes/AppCenterCrashesTarget.cs:178-181 | the full type name "Microsoft.AppCenter.Crashes.Crashes" names Crashes |
| ServiceTypes.ResolveUnknownFallsBack | NLog.Targets.AppCenter.Crashes/AppCenterCrashesTarget.cs:190-193 | an unknown name or an empty string starts the fallback service alone |
| ServiceTypes.ParseTrailingBlankDropped | NLog.Targets.AppCenter.Crashes/AppCenterCrashesTarget.cs:178-185 | "Crashes " (trailing blank) names nothing, since tokens are not trimmed |
| MimeTypes.FirstMatch | NLog.Targets.AppCenter.Crashes/AppCenterCrashesTarget.cs:330-336 | the scan returns the first entry whose extension equals the file's exactly, or none when no entry does |
| MimeTypes.GetMimeTypeMapping | NLog.Targets.AppCenter.Crashes/AppCenterCrashesTarget.cs:328-339 | the mapping is a table entry for exactly the extensions the table lists (with that extension), else the octet-stream default |
| MimeTypes.TableExtensionsDistinct | NLog.Targets.AppCenter.Crashes/AppCenterCrashesTarget.cs:319-326 | no two table entries share an extension |
| MimeTypes.EveryRuleIsReachable | NLog.Targets.AppCenter.Crashes/AppCenterCrashesTarget.cs:319-336 | each table entry is the mapping chosen for its own extension |
| MimeTypes.TextExactlyForTxtAndLog | NLog.Targets.AppCenter.Crashes/AppCenterCrashesTarget.cs:321-322 | a file is read as text if and only if its extension is exactly ".txt" or ".log" |
| MimeTypes.KnownExtensions | NLog.Targets.AppCenter.Crashes/AppCenterCrashesTarget.cs:321-325 | the five listed extensions map to their MIME types and text flags |
| MimeTypes.UnlistedExtensionsAreBinary | NLog.Targets.AppCenter.Crashes/AppCenterCrashesTarget.cs:317 | ".LOG" (comparison is case-sensitive), "" and ".bin" get the binary octet-stream default |
| Attachments.DiagnosticText | NLog.Targets.AppCenter.Crashes/AppCenterCrashesTarget.cs:359-361 | the text attached for an unreadable file contains the file's full name and the exception |
| Attachments.AttachmentFor | NLog.Targets.AppCenter.Crashes/AppCenterCrashesTarget.cs:341-378 | every attachment carries the file's name; it is text exactly when reading failed or the mapping is text; text holds the decoded bytes; binary holds the bytes read and the mapped MIME type; a failure becomes a diagnostic text |
| Attachments.EffectivePattern | NLog.Targets.AppCenter.Crashes/AppCenterCrashesTarget.cs:293-297 | the search pattern is never blank: a blank pattern becomes exactly "*", any other pattern is kept |
| Attachments.ErrorAttachments | NLog.Targets.AppCenter.Crashes/AppCenterCrashesTarget.cs:311-314 | one attachment per enumerated file, in enumeration order, each that file's attachment |
| Attachments.SearchPattern | NLog.Targets.AppCenter.Crashes/AppCenterCrashesTarget.cs:281-297 | no search when the path is empty or the directory does not exist; otherwise the effective pattern |
| Attachments.FilesToAttach | NLog.Targets.AppCenter.Crashes/AppCenterCrashesTarget.cs:281-299 | the files EnumerateFiles returns for the effective pattern, or none when no search takes place |
| Attachments.GetErrorAttachmentsFromLogFiles | NLog.Targets.AppCenter.Crashes/AppCenterCrashesTarget.cs:279-315 | with an empty path or a missing directory nothing is enumerated, flushed or attached; otherwise the effective pattern is searched, LogManager.Flush runs exactly when files were found and the timeout is positive, and one attachment per file is produced in order |
| Attachments.AttachAll | NLog.Targets.AppCenter.Crashes/AppCenterCrashesTarget.cs:311-314 | the loop yields one attachment per file, in the files' order, each that file's attachment |
| Attachments.TextFilesAreDecoded | NLog.Targets.AppCenter.Crashes/AppCenterCrashesTarget.cs:345-350 | a readable .txt or .log file becomes a text attachment of its decoded bytes under its name |
| Attachments.ArchivesAreBinary | NLog.Targets.AppCenter.Crashes/AppCenterCrashesTarget.cs:352-355 | readable .zip, .gz and .rar files become binary attachments of their bytes with their fixed MIME types |
| Attachments.UnlistedFilesAreOctetStream | NLog.Targets.AppCenter.Crashes/AppCenterCrashesTarget.cs:338 | a readable file whose extension is not in the table becomes an application/octet-stream binary attachment |
| Properties.Lookup | NLog.Targets.AppCenter.Crashes/AppCenterCrashesTarget.cs:396 | reading the case-insensitive dictionary: the value of the entry whose key equals the key ignoring case, or nothing |
| Properties.Admitted | NLog.Targets.AppCenter.Crashes/AppCenterCrashesTarget.cs:399-409 | a context property is stored only when its name is non-empty and its value is non-empty or IncludeEmptyValue is set |
| Properties.ContextEntries | NLog.Targets.AppCenter.Crashes/AppCenterCrashesTarget.cs:397-413 | the dictionary after the loop: each admitted context property in turn written with the indexer |
| Properties.IndexOfKey | NLog.Targets.AppCenter.Crashes/AppCenterCrashesTarget.cs:397 | the dictionary slot for a key is the first entry whose key equals it ignoring case, or the end |
| Properties.IndexOfKeySameKeys | NLog.Targets.AppCenter.Crashes/AppCenterCrashesTarget.cs:397 | where a key is found depends only on the keys, not on the values |
| Properties.IndexOfKeyAppend | NLog.Targets.AppCenter.Crashes/AppCenterCrashesTarget.cs:397 | adding an entry at the end moves no existing key |
| Properties.IndexOfKeyIgnoresCase | NLog.Targets.AppCenter.Crashes/AppCenterCrashesTarget.cs:397 | two keys equal ignoring case find the same slot |
| Properties.ReplaceValueKeepsKeys | NLog.Targets.AppCenter.Crashes/AppCenterCrashesTarget.cs:412 | overwriting a value keeps every key where it was |
| Properties.AppendEntryIndices | NLog.Targets.AppCenter.Crashes/AppCenterCrashesTarget.cs:412 | after appending an entry, every key is found where it was, or at the new entry |
| Properties.Put | NLog.Targets.AppCenter.Crashes/AppCenterCrashesTarget.cs:412 | the indexer set makes the key find the new value, changes no other key's value, adds at most one entry and keeps keys distinct ignoring case; overwriting an existing key keeps every stored key's spelling and position |
| Properties.ContextEntriesLookup | NLog.Targets.AppCenter.Crashes/AppCenterCrashesTarget.cs:397-413 | last write wins: every key finds the value of the last admitted context property with that name, ignoring case, and keys never written find nothing |
| Properties.ContextEntriesShape | NLog.Targets.AppCenter.Crashes/AppCenterCrashesTarget.cs:397-413 | the dictionary has distinct keys, at most one entry per context property, and only names of admitted properties |
| Properties.PropertiesFor | NLog.Targets.AppCenter.Crashes/AppCenterCrashesTarget.cs:386-420 | outside include-all mode the dictionary has distinct keys and at most as many entries as context properties |
| Properties.BuildProperties | NLog.Targets.AppCenter.Crashes/AppCenterCrashesTarget.cs:386-420 | include-all mode gives all event properties; otherwise the loop skips unnamed properties and empty values unless IncludeEmptyValue is set, last write wins ignoring case, and the size is at most ContextProperties.Count (so no context properties give an empty map) |
| Properties.TwoPropertiesTwoEntries | Tests/NLog.Targets.AppCenter.Tests/AppCenterCrashesTargetTests.cs:54-82 | the properties exception.Type and exception.Message with values give exactly two entries holding those values |
| Logging.Describe | NLog.Targets.AppCenter.Crashes/AppCenterCrashesTarget.cs:361 | the `{ex}` in the diagnostic text: the exception's full type name, then ": " and the message unless the message is empty |
| Logging.WrapMessage | NLog.Targets.AppCenter.Crashes/AppCenterCrashesTarget.cs:267 | `new Exception(logEvent.Message)`: an exception of type System.Exception holding the event's message |
| Initialization.OwnService | NLog.Targets.AppCenter.Crashes/AppCenterCrashesTarget.cs:192 | the service a target falls back to and enables: Crashes for the crashes target (lines 192 and 228), Analytics for the analytics target (NLog.Targets.AppCenter.Analytics/AppCenterAnalyticsTarget.cs, lines 123 and 143) |
| Initialization.Starts | NLog.Targets.AppCenter.Crashes/AppCenterCrashesTarget.cs:161-164 | the SDK is started exactly when it is not configured and the rendered app secret is not empty |
| Initialization.StartFails | NLog.Targets.AppCenter.Crashes/AppCenterCrashesTarget.cs:212-223 | initialization stops at the start step exactly when Start is attempted and throws, the exception being rethrown; the rendering of an unset ServiceTypesString as null is not modelled |
| Initialization.AfterStartOutcome | NLog.Targets.AppCenter.Crashes/AppCenterCrashesTarget.cs:226-237 | after a successful start, initialization fails at the enable step exactly when IsEnabled throws, or when the service is disabled and SetEnabled throws |
| Initialization.Outcome | NLog.Targets.AppCenter.Crashes/AppCenterCrashesTarget.cs:220-237 | how InitializeTarget ends: StartFailed when Start threw, else EnableFailed when enabling threw, else Initialized |
| Initialization.StartCalls | NLog.Targets.AppCenter.Crashes/AppCenterCrashesTarget.cs:161-212 | the start step's calls: the crash callbacks (crashes target only), then Start with the secret and the services, when the SDK is not configured and the secret is non-empty |
| Initialization.EnableCalls | NLog.Targets.AppCenter.Crashes/AppCenterCrashesTarget.cs:226-237 | the enable step's calls: IsEnabled of the own service, then SetEnabled(true) when it answered false without throwing |
| Initialization.OptionalCalls | NLog.Targets.AppCenter.Crashes/AppCenterCrashesTarget.cs:239-255 | SetUserId, SetLogUrl and SetCountryCode, in that order, each only for a non-empty value |
| Initialization.InitCalls | NLog.Targets.AppCenter.Crashes/AppCenterCrashesTarget.cs:155-256 | the Configured read, the start step's calls, and, unless Start threw, the enable step's calls followed by the optional settings when enabling did not throw |
| Initialization.StartedServices | NLog.Targets.AppCenter.Crashes/AppCenterCrashesTarget.cs:166-193 | the services passed to Start are never empty: the configured ServiceTypes when given, else the services parsed from ServiceTypesString when there are any, else the target's own service alone |
| Initialization.InitializeTarget | NLog.Targets.AppCenter.Crashes/AppCenterCrashesTarget.cs:155-256 | the SDK sees exactly InitCalls for the resolved services; the SDK is configured only if Start succeeds; the service is enabled only when initialization completes; a failed Start or enable ends initialization |
| Initialization.ReadAndStart | NLog.Targets.AppCenter.Crashes/AppCenterCrashesTarget.cs:159-224 | Configured is read once, then the start step runs on its answer; it succeeds unless Start is attempted and throws |
| Initialization.FinishInitialization | NLog.Targets.AppCenter.Analytics/AppCenterAnalyticsTarget.cs:141-170 | after a failed start nothing more happens; otherwise the enable step runs, then the optional settings if enabling succeeded |
| Initialization.StartStep | NLog.Targets.AppCenter.Analytics/AppCenterAnalyticsTarget.cs:91-139 | Start, with the resolved services, is attempted only when the SDK is not configured and the secret is non-empty; it fails exactly when Start throws |
| Initialization.EnableStep | NLog.Targets.AppCenter.Analytics/AppCenterAnalyticsTarget.cs:141-152 | IsEnabled is asked; SetEnabled(true) follows only when it answered false; the step fails exactly when one of them throws, and only success enables the service |
| Initialization.ForwardOptionalSettings | NLog.Targets.AppCenter.Analytics/AppCenterAnalyticsTarget.cs:154-170 | user id, log URL and country code are forwarded, in that order, each only when non-empty |
| Initialization.InitCallsBySteps | NLog.Targets.AppCenter.Analytics/AppCenterAnalyticsTarget.cs:87-171 | the calls are the Configured read, then the start step's calls, then the enable step's unless start failed, then the optional settings' only when nothing failed |
| Initialization.InitCallsByKind | NLog.Targets.AppCenter.Analytics/AppCenterAnalyticsTarget.cs:87-171 | Configured is read exactly once and first; the startup, service-switch and setting calls are exactly those of their steps; initialization tracks nothing |
| Initialization.KindOfSteps | NLog.Targets.AppCenter.Analytics/AppCenterAnalyticsTarget.cs:87-171 | selecting each kind of call from the four steps' calls gives back that step's calls |
| Initialization.StartCallsMembers | NLog.Targets.AppCenter.Crashes/AppCenterCrashesTarget.cs:161-212 | Start(secret, services) is called if and only if the SDK is not configured and the secret is non-empty; the crash callbacks are registered if and only if Start is called by the crashes target; nothing else is called |
| Initialization.EnableCallsMembers | NLog.Targets.AppCenter.Crashes/AppCenterCrashesTarget.cs:226-237 | IsEnabled of the target's own service is always asked; SetEnabled(true) of it is called if and only if IsEnabled answered false; no service is disabled and no other is touched |
| Initialization.OptionalCallsMembers | NLog.Targets.AppCenter.Crashes/AppCenterCrashesTarget.cs:239-255 | each optional setting is forwarded unchanged if and only if it is non-empty |
| Initialization.FailureEndsInitialization | NLog.Targets.AppCenter.Crashes/AppCenterCrashesTarget.cs:220-237 | a failure is rethrown: the failing call is the last one made |
| Initialization.InitWithoutSecret | Tests/NLog.Targets.AppCenter.Tests/AppCenterAnalyticsTargetTests.cs:39-43 | without a secret, on an unconfigured SDK whose service is disabled, the calls are Configured, IsEnabled and SetEnabled(true) only |
| AppCenter.CallsOfKindAppend | NLog.Targets.AppCenter.Analytics/AppCenterAnalyticsTarget.cs:87-171 | selecting calls of one kind distributes over concatenation of call logs |
| CrashesTarget.WrapsMessage | NLog.Targets.AppCenter.Crashes/AppCenterCrashesTarget.cs:265 | an event without exception is wrapped when WrapExceptionFromLevel is set and the event's level is at least that level |
| CrashesTarget.WriteCalls | NLog.Targets.AppCenter.Crashes/AppCenterCrashesTarget.cs:259-277 | the SDK calls of Write: one TrackError of the exception to track with the properties and attachments, or none |
| CrashesTarget.ErrorToTrack | NLog.Targets.AppCenter.Crashes/AppCenterCrashesTarget.cs:259-270 | an event's own exception is reported as is; without one, a new Exception holding the message is reported if and only if WrapExceptionFromLevel is set and the level reaches it |
| CrashesTarget.Write | NLog.Targets.AppCenter.Crashes/AppCenterCrashesTarget.cs:259-270 | the SDK sees exactly WriteCalls: nothing, or one TrackError |
| CrashesTarget.TrackError | NLog.Targets.AppCenter.Crashes/AppCenterCrashesTarget.cs:272-277 | one TrackError call carrying the exception, the event's properties and its log-file attachments |
| CrashesTarget.WriteCallsShape | NLog.Targets.AppCenter.Crashes/AppCenterCrashesTarget.cs:259-277 | at most one TrackError per event, made if and only if the event has an exception or its level reaches the wrap level, carrying that exception (or the wrapped message), the properties and one attachment per file |
| CrashesTarget.WrapIsMonotone | NLog.Targets.AppCenter.Crashes/AppCenterCrashesTarget.cs:265 | raising an event's level never stops it from being reported |
| CrashesTarget.NoWrapLevelNoWrapping | NLog.Targets.AppCenter.Crashes/AppCenterCrashesTarget.cs:261-269 | with WrapExceptionFromLevel unset, exactly the events carrying an exception are reported |
| CrashesTarget.TrackErrorWithoutProperties | Tests/NLog.Targets.AppCenter.Tests/AppCenterCrashesTargetTests.cs:19-43 | logging an exception at Error gives Configured, IsEnabled, SetEnabled(true) and TrackError(exception) with no properties and no attachments |
| CrashesTarget.TrackErrorWithProperties | Tests/NLog.Targets.AppCenter.Tests/AppCenterCrashesTargetTests.cs:45-83 | with the two exception context properties, TrackError carries exactly the type name and message entries |
| AnalyticsTarget.ShouldTrack | NLog.Targets.AppCenter.Analytics/AppCenterAnalyticsTarget.cs:176-177 | an event is tracked when no prefix is set, or when its message starts with the prefix ignoring case |
| AnalyticsTarget.WriteCalls | NLog.Targets.AppCenter.Analytics/AppCenterAnalyticsTarget.cs:174-196 | the SDK calls of Write: one TrackEvent with the event name and properties when the filter passes, or none |
| AnalyticsTarget.EventName | NLog.Targets.AppCenter.Analytics/AppCenterAnalyticsTarget.cs:179-191 | the name is the rendered layout unless it is blank, else the exception's type name, else "AppCenterAnalyticsTarget", and is never blank when the type name is not |
| AnalyticsTarget.Write | NLog.Targets.AppCenter.Analytics/AppCenterAnalyticsTarget.cs:174-196 | the SDK sees exactly WriteCalls: nothing, or one TrackEvent |
| AnalyticsTarget.WriteCallsShape | NLog.Targets.AppCenter.Analytics/AppCenterAnalyticsTarget.cs:174-196 | one TrackEvent if and only if the prefix filter passes, with the event's properties and a non-blank name, and nothing else |
| AnalyticsTarget.PrefixIgnoresCase | NLog.Targets.AppCenter.Analytics/AppCenterAnalyticsTarget.cs:176-177 | prefixes that differ only in case admit the same events |
| AnalyticsTarget.PrefixedMessageIsTracked | NLog.Targets.AppCenter.Analytics/AppCenterAnalyticsTarget.cs:176-177 | a message starting with the prefix, in any case, is tracked |
| AnalyticsTarget.ShortMessageIsFiltered | NLog.Targets.AppCenter.Analytics/AppCenterAnalyticsTarget.cs:176-177 | under the ordinal case folding of this model, a message shorter than the prefix is not tracked |
| AnalyticsTarget.TrackEventWithoutProperties | Tests/NLog.Targets.AppCenter.Tests/AppCenterAnalyticsTargetTests.cs:26-45 | logging "Test message" at Info gives Configured, IsEnabled, SetEnabled(true) and TrackEvent("Test message") with no properties |
| AppCenter.Sdk.Configured | NLog.Targets.AppCenter.Crashes/AppCenterCrashesTarget.cs:161 | reads the configured flag and logs the read |
| AppCenter.Sdk.RegisterCallbacks | NLog.Targets.AppCenter.Crashes/AppCenterCrashesTarget.cs:195-209 | logs the registration of the three crash callbacks |
| AppCenter.Sdk.Start | NLog.Targets.AppCenter.Crashes/AppCenterCrashesTarget.cs:212 | logs the Start call; succeeds unless Start throws, and success configures the SDK |
| AppCenter.Sdk.IsEnabled | NLog.Targets.AppCenter.Crashes/AppCenterCrashesTarget.cs:228 | logs the call and answers whether the service is enabled |
| AppCenter.Sdk.SetEnabled | NLog.Targets.AppCenter.Crashes/AppCenterCrashesTarget.cs:230 | logs the call; unless it throws, the service's enabled flag becomes the value given |
| AppCenter.Sdk.Record | NLog.Targets.AppCenter.Crashes/AppCenterCrashesTarget.cs:242 | logs a SetUserId, SetLogUrl, SetCountryCode, TrackError or TrackEvent call with no other effect |

## Left out

- The App Center SDK is reduced to the state listed above and a log of calls. The wrappers `AppCenterCrashesWrapper` and `AppCenterAnalyticsWrapper`, their interfaces, and what the SDK does with a call are not part of this model. Of the SDK operations, only `Start`, `IsEnabledAsync` and `SetEnabledAsync` may throw in the model; which of them do is a fixed input (`faults`).
- `Crashes.ShouldProcessErrorReport`, `ShouldAwaitUserConfirmation` and `GetErrorAttachments` are global lambdas. They appear only as the single `RegisterCrashesCallbacks` call in the log. Their bodies are not modelled, including the synthetic Error event that `GetErrorAttachments` renders.
- File system: a directory is an existence flag plus a function from a search pattern to the files it enumerates. The operating system's glob matching and `SearchOption.AllDirectories` recursion are inside that function.
- `GetFileContent` stream copying: a file is read as a whole, yielding its bytes or an exception.
- `LogManager.Flush` is recorded only as whether it is called. Its timing and its effect on other targets are not modelled.
- UTF-8 decoding is a parameter (`Environment.utf8`). `Encoding.UTF8.GetString` replaces invalid bytes rather than throwing, so in the model only reading a file can fail.
- `Exception.ToString()` is modelled by `Logging.Describe` as the full type name, followed by ": " and the message when the message is not empty. The stack trace and inner exceptions are left out.
- Text.EqualsIgnoreCase: it folds ASCII letters only. `StringComparer.OrdinalIgnoreCase` also folds non-ASCII letters, with no culture involved, so the dictionary keys "É" and "é" are one entry in .NET but two in the model.
- Text.StartsWithIgnoreCase: it compares character by character with ASCII folding. The culture-sensitive `InvariantCultureIgnoreCase` comparison also folds non-ASCII letters, skips ignorable characters (such as U+0000 and the soft hyphen U+00AD) and treats canonically equivalent sequences as equal. None of that is modelled.
- Text.EndsWithIgnoreCase: the same gap as `Text.StartsWithIgnoreCase`, so a token such as "Crashes" followed by U+0000 names no service here, though .NET matches it.
- AnalyticsTarget.ShortMessageIsFiltered: it holds for this model's character-by-character comparison only. With ignorable characters in the prefix, .NET can accept a message shorter than the prefix.
- Attachments.GetErrorAttachmentsFromLogFiles: `FromPath` and `EnumerateFiles` cannot throw in the model. In the code an exception from them escapes `TrackError` and `Write`.
- AppCenter.Sdk.Record: `SetUserId`, `SetLogUrl`, `SetCountryCode`, `TrackError` and `TrackEvent` always succeed in the model. In the code an exception from them escapes `InitializeTarget` or `Write`.
- CrashesTarget.Write: it always completes in the model; the exceptions described for `GetErrorAttachmentsFromLogFiles` and `Sdk.Record` are not modelled.
- NLog layout rendering (`RenderLogEvent`), `ShouldIncludeProperties` and `GetAllProperties` belong to NLog. Their results are inputs (`Rendering`, `InitSettings`).
- Properties.BuildProperties: in include-all mode the model returns the event's properties as given. The `ToDictionary` call, which throws on duplicate keys, is not modelled.
- The `.ConfigureAwait(false).GetAwaiter().GetResult()` waits are plain sequential calls.
- `Constants.cs`: `Type.GetType` lookups are the enum tags `Analytics` and `Crashes`. The case where the lookup yields null because the assembly is absent is not modelled. `MaxPropertyCount` is unused by the code.
- Debug and error messages written to NLog's `InternalLogger` are not modelled.
- The builder extension methods, the sample app and the tests are not part of this model. The tests' expectations appear as the lemmas citing them.
- AnalyticsTarget.Write: it always completes in the model. An exception from `TrackEvent` is not modelled. Nor is an event whose message is null, which makes `StartsWith` throw when a prefix is set: messages are strings here.
- AnalyticsTarget.EventName: .NET type names are never blank, but `Exception.typeName` is an arbitrary string here. The non-blank guarantee is therefore stated under the condition that the type name is not blank.
- Initialization.StartFails: a null string is modelled as the empty string. `ServiceTypesString` has no default, and NLog renders an unset layout as null. So when an app secret is given and neither `ServiceTypes` nor `ServiceTypesString` is set, `Split` at line 170 of the crashes target (line 102 of the analytics target) throws a NullReferenceException. That exception is rethrown before the callbacks are registered and before `Start` is called. The model instead parses the empty string and starts the target's own service, so `StartFails` does not cover this failure. The same holds for `Initialization.StartedServices`, `Initialization.StartCalls` and `Initialization.InitializeTarget`.
- Initialization.InitCalls: it takes the started services as a parameter. `Initialization.InitializeTarget` ties that parameter to `Initialization.StartedServices`, and the lemmas about `InitCalls` hold for every list of services.
- Integers: the flush timeout is an unbounded integer of ticks; `TimeSpan` arithmetic is not needed.
