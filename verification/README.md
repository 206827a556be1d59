# DEFAI element SDK: security and lifecycle layer in Dafny

This project models the part of the DEFAI element SDK that decides what an
element may do, and proves properties of it:

- the **element validator**: manifest rules, code rules and name rules.
  Each maps its input to a `{valid, errors, warnings}` result.
- the **permission-checked API proxy**. Each of its ten methods is gated on
  one capability. Storage keys are prefixed with the element id, outbound
  events are wrapped as `{source, data}`, and inbound events pass a source
  filter.
- the **element base class**. It covers the mount, unmount, resize and
  settings lifecycle with its guards, shallow-merge state, and storage
  calls that check the context before the permission. It also covers
  inter-element events relayed through the context's API.
- the **bounded event history** of the element event emitter.
- the **sandbox host** and the **in-frame bridge**:
  - the host side covers the iframe's sandbox tokens and CSP, the
    "Sandbox not created" guards, the message handler map, and `destroy`;
  - the bridge covers the request ids and resolvers of the API stub that
    the sandbox writes into the frame.
- the pure parts of the **CLI `validate` command**: the manifest,
  `package.json`, entry-point and recommended-file checks, and the verdict.

Modules, one per file:

- `JsValues` (`js_values.dfy`): JavaScript values, truthiness, property
  reads and the `{source, data}` envelope.
- `Interfaces` (`interfaces.dfy`): permissions, manifest, findings, the API
  call surface and listeners.
- `Text` (`text.dfy`): character classes and the fixed patterns the
  validator scans for.
- `ElementValidator` (`element_validator.dfy`)
- `ElementApiProxy` (`element_api_proxy.dfy`)
- `DefaiElement` (`defai_element.dfy`)
- `EventHistory` (`event_history.dfy`)
- `ElementSandbox` (`element_sandbox.dfy`)
- `SandboxBridge` (`sandbox_bridge.dfy`)
- `ValidateCommand` (`validate_command.dfy`)

Request ids restart at 0 in every loaded document: each `loadElement`
writes a new document that sets `__apiId` back to 0
(sdk/src/sandbox/ElementSandbox.ts:80-81). `SandboxBridge.Fresh` models
that restart.

Two behaviours of the sandbox, as written, defeat its evident purpose.
The model records both and does not change them:

- The host's `connect-src *` for the network permission comes after the
  baseline `connect-src 'none'`. Content Security Policy Level 3 ignores a
  repeated directive, so the network permission never widens connections
  (`ElementSandbox.NetworkNeverWidensConnect`).
- The two halves of the bridge do not meet. The host passes handlers the
  message's `data`, which a stub's `api-call` message does not have. What
  `sendMessage` posts has no `id` or `args`, so it settles no pending call
  in the frame (`ElementSandbox.BridgeHalvesMismatch`).

Everything is immutable data and pure functions, except for three methods
that carry loops. Calls that throw are modelled as `Err(message)` results
with the source's message text.

## Model

| member | source | states |
|---|---|---|
| `JsValues.Envelope` | sdk/src/api/ElementAPIProxy.ts:93-96 | The outbound payload is an object whose `source` reads back as the sender's id and whose `data` reads back as the original data. |
| `Text.MatchesAtIsRegex` | sdk/lib/core/ElementValidator.js:164-166 | Scanning `word\s*next` with a greedy whitespace run finds exactly the matches of the regular expression: the word, any whitespace, then the character. |
| `Text.Test` | sdk/lib/core/ElementValidator.js:170-171 | `pattern.test(code)` is true exactly when the pattern matches at some index of the code. |
| `ElementValidator.ValidateManifest` | sdk/lib/core/ElementValidator.js:150-154 | A manifest result is valid exactly when its error list is empty. |
| `ElementValidator.ManifestPartition` | sdk/lib/core/ElementValidator.js:12-155 | Every error of the manifest rules carries an error code and every warning a warning code. High price, excessive permissions and the resource caps are never errors. |
| `ElementValidator.MissingMetadataRule` | sdk/lib/core/ElementValidator.js:16-21 | The missing-metadata error is reported exactly when the manifest has no metadata, and then exactly once. |
| `ElementValidator.MissingFieldIn` | sdk/lib/core/ElementValidator.js:24-33 | A missing-field finding is reported for a field exactly when the field is listed and absent from the metadata. |
| `ElementValidator.RequiredFieldRule` | sdk/lib/core/ElementValidator.js:24-33 | With metadata present, `metadata.<f>` is reported exactly when `f` is one of id, name, version, author, description and category and the key is absent (presence, not truthiness). Such a field is reported exactly once, so a manifest missing only `category` draws one missing-field error. |
| `ElementValidator.MissingFieldCount` | sdk/lib/core/ElementValidator.js:24-33 | Over distinct field names, an absent listed field is reported exactly once and any other field not at all. |
| `ElementValidator.IdRule` | sdk/lib/core/ElementValidator.js:35-41 | The id-format error is reported exactly when a non-empty id has a character outside `[a-z0-9-]`. |
| `ElementValidator.SemverIsShape` | sdk/lib/core/ElementValidator.js:43 | The version check accepts exactly the strings of the form digits `.` digits `.` digits. |
| `ElementValidator.VersionRule` | sdk/lib/core/ElementValidator.js:43-49 | The version-format error is reported exactly when a non-empty version is not three dot-separated digit runs. |
| `ElementValidator.SizeRule` | sdk/lib/core/ElementValidator.js:51-60 | With both sizes given, the size error is reported exactly when the minimum's width or height exceeds the maximum's. |
| `ElementValidator.NegativePriceRule` | sdk/lib/core/ElementValidator.js:62-69 | The price error is reported exactly when a price is given and is below 0. |
| `ElementValidator.HighPriceRule` | sdk/lib/core/ElementValidator.js:70-76 | A price above 10000 draws the high-price warning, and only then. No price draws both the negative-price error and this warning. |
| `ElementValidator.MissingPermissionsRule` | sdk/lib/core/ElementValidator.js:80-85 | The missing-permissions error is reported exactly when the manifest has no permissions. |
| `ElementValidator.CountTrueIsOccurrences` | sdk/lib/core/ElementValidator.js:88 | The counted flags are the occurrences of `true` among the permission values. |
| `ElementValidator.PermissionWarningsFire` | sdk/lib/core/ElementValidator.js:86-110 | Each permission warning is present exactly when its own rule fires. |
| `ElementValidator.ExcessivePermissionsRule` | sdk/lib/core/ElementValidator.js:88-94 | More than five granted flags draws the excessive-permissions warning, and only then. |
| `ElementValidator.MemoryLimitRule` | sdk/lib/core/ElementValidator.js:96-102 | A memory cap above 100 draws a warning, and only then. |
| `ElementValidator.CpuLimitRule` | sdk/lib/core/ElementValidator.js:103-109 | A CPU cap above 50 draws a warning, and only then. |
| `ElementValidator.InsecureIn` | sdk/lib/core/ElementValidator.js:113-122 | A dependency list reports a package as insecure exactly when it declares the package and the name is insecure. |
| `ElementValidator.VersionIn` | sdk/lib/core/ElementValidator.js:123-130 | A dependency list reports a package's version exactly when it declares the package with a non-string version. |
| `ElementValidator.InsecureNames` | sdk/lib/core/ElementValidator.js:115 | A name is insecure exactly when it contains `eval`, `child_process` or `fs`. |
| `ElementValidator.InsecureDependencyRule` | sdk/lib/core/ElementValidator.js:112-122 | The insecure-dependency error for a package is reported exactly when dependencies are given and declare that package with an insecure name. |
| `ElementValidator.DependencyVersionRule` | sdk/lib/core/ElementValidator.js:123-131 | The dependency-version error for a package is reported exactly when some declared entry of that package has a non-string version. |
| `ElementValidator.BuildRule` | sdk/lib/core/ElementValidator.js:134-149 | A present build section draws the entry error exactly when the entry is missing or empty, and the output error likewise. |
| `ElementValidator.NoMissingFields` | sdk/lib/core/ElementValidator.js:24-33 | No missing-field finding exactly when every listed field is present. |
| `ElementValidator.NoDependencyErrors` | sdk/lib/core/ElementValidator.js:112-132 | A dependency list draws no error exactly when every entry has a safe name and a string version. |
| `ElementValidator.NoMetadataErrors` | sdk/lib/core/ElementValidator.js:15-77 | The metadata section draws no error exactly when metadata is present and each metadata rule is satisfied. |
| `ElementValidator.ManifestValidity` | sdk/lib/core/ElementValidator.js:12-155 | A manifest is valid exactly when it satisfies every rule, as stated rule by rule in an independent predicate. |
| `ElementValidator.RuleFindings` | sdk/lib/core/ElementValidator.js:170-177 | A pattern list yields no more findings than it has patterns, each with the list's code and no field. |
| `ElementValidator.RuleFindingsCount` | sdk/lib/core/ElementValidator.js:170-177 | With distinct messages, a pattern's finding occurs exactly once when the pattern matches and not at all otherwise. |
| `ElementValidator.ValidateCode` | sdk/lib/core/ElementValidator.js:205-209 | A code result is valid exactly when its error list is empty. |
| `ElementValidator.RuleFindingsIn` | sdk/lib/core/ElementValidator.js:170-177 | A rule's message is reported exactly when that rule's pattern matches the code. |
| `ElementValidator.RuleFindingsOmit` | sdk/lib/core/ElementValidator.js:170-177 | A message that no rule of the list carries is never reported. |
| `ElementValidator.RuleFindingsFrom` | sdk/lib/core/ElementValidator.js:170-191 | Every reported code finding comes from a rule whose pattern matched. |
| `ElementValidator.DangerousRule` | sdk/lib/core/ElementValidator.js:163-177 | A dangerous pattern's error is present exactly when the pattern occurs in the code, and then exactly once. |
| `ElementValidator.SuspiciousRule` | sdk/lib/core/ElementValidator.js:179-191 | A suspicious pattern's warning is present exactly when the pattern occurs in the code, and then exactly once. It is never an error. |
| `ElementValidator.CodeSizeRule` | sdk/lib/core/ElementValidator.js:193-204 | Over 1000000 characters is an error. Over 500000 and up to 1000000 is only a warning. Never both. |
| `ElementValidator.CodeValidity` | sdk/lib/core/ElementValidator.js:159-210 | Code is valid exactly when no dangerous pattern matches and it is at most 1000000 characters. There are at most 6 errors and 4 warnings. |
| `ElementValidator.EvalIsRejected` | sdk/lib/core/ElementValidator.js:164 | `eval('2+2')` is rejected with exactly one error: the eval finding. |
| `ElementValidator.AllNameChars` | sdk/lib/core/ElementValidator.js:222 | The scan accepts exactly the strings whose every character is a letter, digit, whitespace or `-`. |
| `ElementValidator.ValidateName` | sdk/lib/core/ElementValidator.js:214-225 | A name is accepted exactly when it has 3 to 50 characters, starts with an ASCII letter, and has only letters, digits, whitespace and `-`. |
| `ElementApiProxy.Invoke` | sdk/src/api/ElementAPIProxy.ts:26-112 | A call is refused exactly when the capability the method needs is not granted, with that capability's message. Otherwise the same method is forwarded. The arguments are unchanged, except that storage keys become `elementId:key`, `emit` data is wrapped as `{source: elementId, data}`, and the `on` listener is wrapped in the proxy's source filter. |
| `ElementApiProxy.Perform` | sdk/src/api/ElementAPIProxy.ts:26-97 | A refused call adds nothing to the host API's call log. A forwarded call adds exactly the forwarded call at the end. |
| `ElementApiProxy.StorageReachesHost` | sdk/src/api/ElementAPIProxy.ts:47-63 | Without storage, `saveData` and `loadData` reach nothing. With storage, exactly one call with `elementId:key` (and the same value) arrives. |
| `ElementApiProxy.FirstColon` | sdk/src/api/ElementAPIProxy.ts:52 | The position of the first `:` in a string: no `:` before it, and a `:` at it when it is inside the string. |
| `ElementApiProxy.ColonAfterId` | sdk/src/api/ElementAPIProxy.ts:52 | In `id:key` with a colon-free id, the first colon sits right after the id. |
| `ElementApiProxy.StorageIsolation` | sdk/src/api/ElementAPIProxy.ts:51-52 | For colon-free ids, two prefixed keys are equal exactly when both the ids and the keys are equal. |
| `ElementApiProxy.ColonIdsCollide` | sdk/src/api/ElementAPIProxy.ts:52 | Without the colon-free condition, element `a:b` with key `c` and element `a` with key `b:c` share a storage key. |
| `ElementApiProxy.FormattedIdHasNoColon` | sdk/lib/core/ElementValidator.js:35 | An id that passes the manifest's id format contains no colon, so isolation applies to validated elements. |
| `ElementApiProxy.EmitThenReceive` | sdk/src/api/ElementAPIProxy.ts:86-112 | An emitted event is forwarded as `{source: elementId, data}`. A listener registered through a proxy receives exactly the data when it accepts `*` or the sender's id, and nothing otherwise. |
| `ElementApiProxy.FilterRejects` | sdk/src/api/ElementAPIProxy.ts:101-109 | A wrapped listener drops payloads from sources it does not accept and throws on a null or undefined payload. For an accepted source it hands `payload.data` to the listener it wraps. |
| `Interfaces.CanReceive` | sdk/src/api/ElementAPIProxy.ts:103-104 | A source is accepted exactly when some allow-list entry is `*` or equals the source as a string. |
| `Interfaces.Deliver` | sdk/src/api/ElementAPIProxy.ts:101-109 | A bare handler receives the payload. A filter throws on a null or undefined payload, drops an unaccepted source, and passes `payload.data` to the handler it wraps otherwise. Any invocation reaches the innermost handler. |
| `DefaiElement.New` | sdk/src/core/DefaiElement.ts:23-25 | A new element has empty state, no context, is not mounted, and satisfies the context-while-mounted invariant. |
| `DefaiElement.MountElement` | sdk/src/core/DefaiElement.ts:99-107 | Mounting a mounted element fails and changes nothing. Otherwise the context is stored, the element is mounted, `mount` is emitted before the hook runs, and a failing hook leaves the element mounted. |
| `DefaiElement.UnmountElement` | sdk/src/core/DefaiElement.ts:109-117 | Unmounting an unmounted element fails and changes nothing. Otherwise `unmount` is emitted and the hook runs. Mounted and context are cleared only when the hook completes. |
| `DefaiElement.ResizeElement` | sdk/src/core/DefaiElement.ts:119-125 | Fails when not mounted. When mounted, emits `resize`, runs the hook, and leaves mounted, context and state unchanged. |
| `DefaiElement.ChangeSettings` | sdk/src/core/DefaiElement.ts:127-133 | Fails when not mounted. When mounted, emits `settingsChange`, runs the hook, and leaves mounted, context and state unchanged. |
| `DefaiElement.SetState` | sdk/src/core/DefaiElement.ts:43-46 | The patch's keys take the patch's values and all other keys keep theirs. Exactly one `stateChange` carrying the complete new state is emitted. |
| `DefaiElement.GetState` | sdk/src/core/DefaiElement.ts:48-50 | The copy has the same keys and values as the state. |
| `DefaiElement.SetThenGet` | sdk/src/core/DefaiElement.ts:43-50 | Reading after `setState(patch)` sees the patch over the old state. |
| `DefaiElement.SaveData` | sdk/src/core/DefaiElement.ts:53-61 | No context means "not mounted", whatever the permissions. A context without storage is denied. Otherwise key and value go to the context's API unchanged. |
| `DefaiElement.LoadData` | sdk/src/core/DefaiElement.ts:63-71 | The same two checks in the same order. The key goes to the context's API unchanged. |
| `DefaiElement.EmitToOthers` | sdk/src/core/DefaiElement.ts:74-82 | Fails exactly when there is no context. Otherwise it emits a payload whose `source` is the element's id and whose `data` is the data. |
| `DefaiElement.OnFromOthers` | sdk/src/core/DefaiElement.ts:84-96 | Fails exactly when there is no context. Otherwise the registered listener passes `payload.data` on exactly when the element accepts `payload.source`. |
| `DefaiElement.SaveThroughProxy` | sdk/src/core/DefaiElement.ts:53-61 | Through the element's own proxy, a save reaches the host under `id:key`. A save the element refuses is refused by the proxy with the same message. |
| `DefaiElement.EmitToOthersRoundTrip` | sdk/src/core/DefaiElement.ts:74-96 | An event wrapped twice and filtered twice reaches the receiving handler as exactly the original data when the receiver accepts the sender, and not at all otherwise. |
| `DefaiElement.RunKeepsValid` | sdk/src/core/DefaiElement.ts:99-133 | Any run of lifecycle and state calls, whatever the hooks do, keeps context present exactly while mounted. |
| `DefaiElement.ContextWhileMounted` | sdk/src/core/DefaiElement.ts:24-25 | Every element reached from construction holds a context exactly while mounted. |
| `DefaiElement.MountUnmountRoundTrip` | sdk/src/core/DefaiElement.ts:99-117 | Mount then unmount with completing hooks gives back the unmounted element with its state. |
| `EventHistory.New` | sdk/src/utils/eventEmitter.ts:9-10 | A new emitter has no history and capacity 100. |
| `EventHistory.KeepLatest` | sdk/src/utils/eventEmitter.ts:28-31 | Trimming keeps the last `n` entries, or all when there are fewer, as a suffix of the input. |
| `EventHistory.Emit` | sdk/src/utils/eventEmitter.ts:19-35 | A string-named event leaves the history as the latest entries of the old history plus the new one, within capacity. The newest entry is last. Symbol events change nothing. |
| `EventHistory.Filter` | sdk/src/utils/eventEmitter.ts:42 | The filtered list is no longer than the history and holds only entries of that name. |
| `EventHistory.FilterMembers` | sdk/src/utils/eventEmitter.ts:42 | An entry is in the filtered list exactly when it is in the history under that name. |
| `EventHistory.FilterAppend` | sdk/src/utils/eventEmitter.ts:42 | Filtering preserves order: filtering a concatenation concatenates the filtered parts. |
| `EventHistory.GetHistory` | sdk/src/utils/eventEmitter.ts:40-45 | A non-empty name gives the entries of that name in history order, as the independently characterised filter. No name or an empty name gives the whole history. |
| `EventHistory.EmitExtendsNamedHistory` | sdk/src/utils/eventEmitter.ts:19-45 | While there is room, emitting an event adds its entry at the end of that event's filtered history. |
| `EventHistory.ClearHistory` | sdk/src/utils/eventEmitter.ts:50-52 | Clearing leaves no entries and keeps the capacity. |
| `EventHistory.SetMaxHistorySize` | sdk/src/utils/eventEmitter.ts:57-63 | The capacity becomes `max(0, size)`, and the most recent entries that fit survive in order. |
| `EventHistory.EmitAllBounded` | sdk/src/utils/eventEmitter.ts:28-31 | Any run of emits keeps the history within its unchanged capacity. |
| `ElementSandbox.New` | sdk/src/sandbox/ElementSandbox.ts:14-17 | A new sandbox keeps its element id and permissions, and has no frame, no handlers, no window listener and no frame created yet. |
| `ElementSandbox.Tokens` | sdk/src/sandbox/ElementSandbox.ts:22-30 | The tokens are `allow-scripts`, plus both clipboard tokens exactly when the clipboard permission is granted, and nothing else. |
| `ElementSandbox.Directives` | sdk/src/sandbox/ElementSandbox.ts:146-157 | The six baseline directives come first. `connect-src *` is a seventh exactly when network is granted. `connect-src 'none'` is always present. |
| `ElementSandbox.FirstNamed` | sdk/src/sandbox/ElementSandbox.ts:146-159 | The directive kept for a name is a directive of the policy with that name, and none is kept when no directive has it. |
| `ElementSandbox.NetworkNeverWidensConnect` | sdk/src/sandbox/ElementSandbox.ts:146-159 | With or without the network permission, the first `connect-src` directive, the one that takes effect, is `connect-src 'none'`. With network, `connect-src *` is still present. |
| `ElementSandbox.JoinSnoc` | sdk/src/sandbox/ElementSandbox.ts:159 | Joining one more part appends the separator and the part. |
| `ElementSandbox.Csp` | sdk/src/sandbox/ElementSandbox.ts:145-160 | The policy is the baseline policy, followed by `; connect-src *` exactly when network is granted. |
| `ElementSandbox.CreateAsWritten` | sdk/src/sandbox/ElementSandbox.ts:22-44 | A new frame gets the tokens and the policy, and has a content window exactly when the container is in a document. Every call adds one more window listener. |
| `ElementSandbox.Create` | sdk/src/sandbox/ElementSandbox.ts:22-44 | The corrected `createSandbox` of the Findings entry, not the code as written: the same frame, tokens and policy, with exactly one window listener however often it is called. |
| `ElementSandbox.LoadElement` | sdk/src/sandbox/ElementSandbox.ts:49-52 | Fails with "Sandbox not created" when there is no frame or the frame has no content window, and only then. Otherwise only the frame's document changes. |
| `ElementSandbox.TypedMessage` | sdk/src/sandbox/ElementSandbox.ts:113-116 | The posted object reads back its type and its data. |
| `ElementSandbox.SendMessage` | sdk/src/sandbox/ElementSandbox.ts:108-117 | Fails with "Sandbox not created" when there is no frame or the frame has no content window, and only then. Otherwise `{type, data}` is posted to the current frame. |
| `ElementSandbox.OnMessage` | sdk/src/sandbox/ElementSandbox.ts:122-124 | The last handler registered for a type replaces the earlier one. Other types are untouched. |
| `ElementSandbox.Destroy` | sdk/src/sandbox/ElementSandbox.ts:97-103 | No frame and no handlers remain. |
| `ElementSandbox.CreateThenLoad` | sdk/src/sandbox/ElementSandbox.ts:22-117 | After `createSandbox`, loading and sending succeed exactly when the container was in a document. A message sent after loading goes to the frame just created. |
| `ElementSandbox.DestroyIdempotent` | sdk/src/sandbox/ElementSandbox.ts:97-111 | Destroying twice equals destroying once. After destroy, loading and sending fail. |
| `ElementSandbox.ListenerReaction` | sdk/src/sandbox/ElementSandbox.ts:129-140 | A listener calls a handler only for a message from the current frame, and only the handler registered for the message's type. Such a message with a registered string type always calls that handler with its `data`. A null or undefined payload from the frame throws. An iframe without a content window makes the comparison `null === null`, so a source-less event then counts as coming from the frame. |
| `ElementSandbox.BridgeHalvesMismatch` | sdk/src/sandbox/ElementSandbox.ts:66-191 | A stub's `api-call` message from the frame reaches the `api-call` handler with `undefined`. The `{type, data}` message `sendMessage` posts has no `id` and no `args`. |
| `ElementSandbox.Dispatch` | sdk/src/sandbox/ElementSandbox.ts:129-140 | A message reaches each installed window listener, and each reacts the same way. |
| `ElementSandbox.Invocations` | sdk/src/sandbox/ElementSandbox.ts:129-140 | A message causes handler calls only when a listener invokes a handler, and at most one per listener. |
| `ElementSandbox.DispatchAtMostOnce` | sdk/src/sandbox/ElementSandbox.ts:129-140 | With one listener, a message runs at most one handler. It runs none when it comes from elsewhere or there is no frame, and none for a source-less event while the frame has a window. |
| `ElementSandbox.SingleListener` | sdk/src/sandbox/ElementSandbox.ts:41 | With the channel set up once, any run of create, destroy and onMessage keeps at most one listener. |
| `ElementSandbox.DoubleDispatchAsWritten` | sdk/src/sandbox/ElementSandbox.ts:41 | As written, create, destroy, create and one registration make one message run the handler twice. |
| `ElementSandbox.SingleDispatchCorrected` | sdk/src/sandbox/ElementSandbox.ts:129-140 | With the channel set up once, the same sequence runs the handler once. |
| `SandboxBridge.StubMatchesApi` | sdk/src/sandbox/ElementSandbox.ts:166-177 | The stub's ten names are distinct and are exactly the element API's method names. |
| `SandboxBridge.Fresh` | sdk/src/sandbox/ElementSandbox.ts:80-81 | A loaded document starts with id 0, no resolvers, and a well-formed bridge. |
| `SandboxBridge.RequestMessage` | sdk/src/sandbox/ElementSandbox.ts:186-191 | The posted request reads back type `api-call`, its id, its method name and its arguments, and has no `data`. |
| `SandboxBridge.Invoke` | sdk/src/sandbox/ElementSandbox.ts:182-193 | A stub call takes the current id, parks a resolver under it, posts a request with that id, and keeps the bridge well-formed. |
| `SandboxBridge.Receive` | sdk/src/sandbox/ElementSandbox.ts:66-78 | Messages not from the parent, of another type, or for an unknown id change nothing. A response for a pending id settles it with its first argument, removes it, and keeps the bridge well-formed. |
| `SandboxBridge.SettleOnce` | sdk/src/sandbox/ElementSandbox.ts:71-77 | A second answer for the same id changes nothing. Answering one call leaves every other pending call pending. |
| `SandboxBridge.InvokeAll` | sdk/src/sandbox/ElementSandbox.ts:184-185 | Successive calls get consecutive, strictly increasing ids, carry their names and arguments, and all stay pending. |
| `ValidateCommand.OfSeverityAppend` | cli/src/commands/validate.ts:34-35 | Splitting by severity distributes over concatenation. |
| `ValidateCommand.Partition` | cli/src/commands/validate.ts:34-35 | The errors and the warnings together are a rearrangement of all the issues. |
| `ValidateCommand.HasErrorIffErrors` | cli/src/commands/validate.ts:34-37 | The error list is non-empty exactly when some issue is an error. |
| `ValidateCommand.FieldErrorsMembers` | cli/src/commands/validate.ts:88-96 | A missing-field error for a field is reported exactly when the field is listed and its value is falsy. |
| `ValidateCommand.UnknownPermissionMembers` | cli/src/commands/validate.ts:100-108 | An unknown-permission warning for a key is reported exactly when the key is outside the allow-list. |
| `ValidateCommand.ManifestIssues` | cli/src/commands/validate.ts:73-117 | A missing or unreadable manifest gives one error. For a parsed object, the errors are exactly the falsy required fields and the warnings exactly the unknown permission keys. |
| `ValidateCommand.FieldErrorsCount` | cli/src/commands/validate.ts:88-96 | Over distinct field names, a listed falsy field is reported exactly once and any other field not at all. |
| `ValidateCommand.ManifestFieldCount` | cli/src/commands/validate.ts:88-96 | Among all of a parsed manifest object's issues, each falsy required field's error appears exactly once. |
| `ValidateCommand.ManifestFieldErrors` | cli/src/commands/validate.ts:88-96 | Among a parsed manifest object's errors, the error for `f` is present exactly when `f` is a falsy required field, and then exactly once. |
| `ValidateCommand.ManifestKeyWarnings` | cli/src/commands/validate.ts:99-109 | Among a parsed manifest object's warnings, the warning for `k` is present exactly when `k` is a permission key outside the allow-list. |
| `ValidateCommand.ManifestRules` | cli/src/commands/validate.ts:88-109 | The missing-field error for `f` is present exactly when `f` is one of id, name, version, description and category and is falsy (author is not required), and then exactly once among the errors. The unknown-key warning is present exactly when the key is outside the allow-list. |
| `ValidateCommand.PackageIssues` | cli/src/commands/validate.ts:119-147 | At most one error, and none exactly when the package parses and has a truthy `dependencies['@defai/element-sdk']`. |
| `ValidateCommand.EntryPointIssues` | cli/src/commands/validate.ts:149-166 | An error exactly when neither `src/index.tsx` nor `src/index.ts` exists. |
| `ValidateCommand.RecommendedFileIssues` | cli/src/commands/validate.ts:168-179 | Missing recommended files give only warnings, and none exactly when all exist. |
| `ValidateCommand.Execute` | cli/src/commands/validate.ts:15-71 | The issues are the manifest, package, entry-point and recommended-file findings, in that order. The command fails with "Validation failed" exactly when some issue is an error. Errors and warnings partition the issues. |
| `ValidateCommand.WarningsNeverFail` | cli/src/commands/validate.ts:63-65 | Unknown permission keys and a missing `tsconfig.json` alone never make the command fail. |

## Left out

- `ElementValidator` and `SandboxBridge.Receive` take inputs only in their declared TypeScript shape. A manifest's permissions are the twelve declared fields, so extra keys such as `ai` or `messaging` cannot count toward the five-flag limit, although the JavaScript counts every `true` value. The metadata text fields (id, name, version, author, description, category) are strings or absent. A response id is a natural number, whereas the frame's resolver lookup would also accept the string `"0"` for id 0.
- I/O and host mechanics are parameters or left out: the DOM, `postMessage`, `fs`, console output, the spinner, timers and `Date.now`. Message origin is a frame number, another window, or no source. File existence and JSON parse results are inputs.
- Promises and `async` are reduced to one atomic step. A hook's outcome is a `HookResult` parameter. A call handed to the context's API is returned as a `Call` value instead of being awaited.
- `onceWithTimeout`, `waitFor`, history timestamps and the listener side of `emit` are left out, because they depend on timers and on Node's emitter.
- JavaScript numbers are integers. `NaN`, fractions and infinities in sizes, prices, caps and `setMaxHistorySize` are not modelled.
- String length counts characters, not UTF-16 code units.
- `Object.keys` order for objects with integer-like keys is not modelled. The entries' order is taken as given.
- The unsubscribe function that `on` returns is not modelled, because it comes from the host API.
- `onFocus`, `onBlur`, `onError` and the `isMounted` and `currentContext` getters are not modelled. They hold no logic.
- In `SandboxBridge`, a response's `id` is a number. A message with no `id` finds no resolver, which is what becomes of every `sendMessage` post (see `ElementSandbox.BridgeHalvesMismatch`).
- In `SandboxBridge`, `args` is a list or absent. Non-array `args` values and a null message `data` in the frame's listener are not modelled.
- `SandboxBridge.Invoke` requires the name to be one of the stub's ten methods, because the stub has no other properties to call.
- `ElementSandbox.ListenerReaction` treats a non-string message `type` as matching no handler. The `Map` only holds string keys set by `onMessage`.
- In `ValidateCommand`, the `TypeError` text for reading a property of `null` follows the V8 wording. Its exact text depends on the engine.
- `ElementSandbox`: the CSP is set as an attribute and iframe styling is not modelled. Neither influences any rule.
- The `lib/*.js` and `*.d.ts` duplicates of the TypeScript sources are not modelled, except for the validator. The validator is modelled from `sdk/lib/core/ElementValidator.js`, the compiled build of the `sdk/src/core/ElementValidator` module.

## Findings

| source | as written | input that shows it | evidently intended | confidence | as-written member | corrected member |
|---|---|---|---|---|---|---|
| sdk/src/sandbox/ElementSandbox.ts:41 | `createSandbox` adds a window `message` listener on every call. `destroy` never removes it. Every listener compares the message source against the current iframe. | `createSandbox`, `destroy`, `createSandbox`, `onMessage(t, h)`, then one message of type `t` from the new frame: `h` runs twice. | One listener per sandbox, so each message from the frame runs its handler once. | not executed; medium | `ElementSandbox.DoubleDispatchAsWritten` | `ElementSandbox.SingleDispatchCorrected` |
