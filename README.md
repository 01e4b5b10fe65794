# Matsuri share-link import and asset extraction, in Dafny

This project models two pieces of Matsuri, an Android proxy client.

**`parseProxies`** (Formats.kt) turns pasted text into proxy profiles.

- It cuts the text into two token streams:
  - words: each line trimmed and split at single spaces;
  - lines: each line trimmed.
- Each token goes to `parseLink`.
  - A subscription link (`clash://install-config?`, `sn://subscription?`) aborts the whole call with `SubscriptionFoundException`. The model returns this as `Redirect(link)`.
  - Any other token goes to the one built-in decoder whose scheme test matches first in a fixed chain.
  - When no scheme matches, the token goes to every plugin protocol with a `links` entry that prefixes it.
  - A decoder that throws adds nothing.
- Both lists are default-initialised. The word list is returned when it is strictly longer; otherwise the line list is returned.

The decoders, the plugin registry and the profile type are parameters:

- a decoder maps a token to `Some(profile)`, or to `None` when it throws;
- a profile is any type `P`, with `initializeDefaultValues`, `displayName` and `equals` passed in `ProfileOps`.

**`extractAssetName`** (libcore/assets.go) decides whether to re-extract a bundled asset (the geoip and geosite databases, the browser forwarder script) from the APK. The model also covers:

- where the V2Ray file-seeker hook looks a file up;
- the early return on Nekoray devices.

File-system and APK observations are inputs: whether a file exists, what a read returned, whether a write succeeded.

The files are:

- `optional.dfy`: the `Option` type.
- `text.dfy`: Kotlin's `trim`, `isBlank`, `startsWith` and `split(c)`.
- `json.dfy`: the org.json values with `getStr` and `filterIsInstance`.
- `formats.dfy`: the parser.
- `formats_facts.dfy`: properties of the parser.
- `assets.dfy`: the asset code.

## Token handling in detail

- **Word tokens are not trimmed again.** Only the line is trimmed before `split(' ')`. So two spaces in a row give an empty token, and a tab inside a line stays inside a word.
- **The HTTP test is a full match of `(http|https)://.*`.** `.` does not match a Java line terminator. So a token holding `\r`, `\u0085`, `\u2028` or `\u2029` after the scheme is not dispatched to the HTTP decoder.
- **The SOCKS branch also accepts the bare `socks://` prefix.**
- **Decoder calls are recorded.** Each parsing method also returns the list of decoder calls it made, in order (`Formats.Call`). This makes visible which tokens reach a decoder: none at or after a subscription link, and no line token once the word stream has redirected.

## Model

| member | source | states |
|---|---|---|
| Text.TrimStart | app/src/main/java/io/nekohasekai/sagernet/ktx/Formats.kt:130-131 | `trim` drops exactly the leading whitespace: the rest is a suffix starting with a non-whitespace character or empty |
| Text.TrimEnd | app/src/main/java/io/nekohasekai/sagernet/ktx/Formats.kt:130-131 | `trim` drops exactly the trailing whitespace: the rest is a prefix ending with a non-whitespace character or empty |
| Text.TrimIsCore | app/src/main/java/io/nekohasekai/sagernet/ktx/Formats.kt:130-131 | a trimmed token is the slice between the first and last non-whitespace characters, and everything cut off is whitespace |
| Text.TrimIdempotent | app/src/main/java/io/nekohasekai/sagernet/ktx/Formats.kt:130-131 | trimming a trimmed token changes nothing |
| Text.BlankIffTrimsToEmpty | app/src/main/java/io/nekohasekai/sagernet/ktx/Formats.kt:93 | `isBlank` holds exactly when `trim` leaves the empty string |
| Text.Split | app/src/main/java/io/nekohasekai/sagernet/ktx/Formats.kt:130-131 | `split(c)` always yields at least one piece |
| Text.SplitPiecesFree | app/src/main/java/io/nekohasekai/sagernet/ktx/Formats.kt:130-131 | no piece of `split(c)` contains `c` |
| Text.JoinSplit | app/src/main/java/io/nekohasekai/sagernet/ktx/Formats.kt:130-131 | joining the pieces with `c` gives back the text, so no character is lost or reordered |
| Text.SplitJoin | app/src/main/java/io/nekohasekai/sagernet/ktx/Formats.kt:130-131 | splitting a join of delimiter-free pieces gives back the pieces, empty ones included |
| Text.SplitWithoutDelimiter | app/src/main/java/io/nekohasekai/sagernet/ktx/Formats.kt:130-131 | a text without the delimiter is a single piece |
| Text.SplitFirstPiece | app/src/main/java/io/nekohasekai/sagernet/ktx/Formats.kt:130 | the first piece is a prefix of the text, ended by the delimiter or by the end of the text |
| Text.FirstPieceKeepsPrefix | app/src/main/java/io/nekohasekai/sagernet/ktx/Formats.kt:130 | a delimiter-free prefix of a line is also a prefix of its first word |
| Json.GetStr | app/src/main/java/io/nekohasekai/sagernet/ktx/Formats.kt:90-100 | `getStr` returns a string exactly when the key is present, its value is a string and that string is not blank, and it returns that string unchanged |
| Json.OptJsonArray | app/src/main/java/io/nekohasekai/sagernet/ktx/Formats.kt:216 | `optJSONArray` yields the array under the key exactly when there is one |
| Json.FilterIsInstance | app/src/main/java/io/nekohasekai/sagernet/ktx/Formats.kt:54-60 | the loop returns the elements of type T in index order, and an element is returned exactly when it is in the array and is a T |
| Json.FilteredMembers | app/src/main/java/io/nekohasekai/sagernet/ktx/Formats.kt:54-60 | an element is kept exactly when it occurs in the array and is an instance of the type |
| Json.FilteredAppend | app/src/main/java/io/nekohasekai/sagernet/ktx/Formats.kt:54-60 | filtering distributes over concatenation, so the kept elements keep their order |
| Json.FilteredAll | app/src/main/java/io/nekohasekai/sagernet/ktx/Formats.kt:54-60 | an array made only of T is returned whole |
| Formats.FirstRecognisedIsFirst | app/src/main/java/io/nekohasekai/sagernet/ktx/Formats.kt:141-213 | walking a chain of scheme tests yields the first scheme whose test holds, or none when no test holds |
| Formats.BuiltinSchemeIsFirstMatch | app/src/main/java/io/nekohasekai/sagernet/ktx/Formats.kt:141-214 | the selected decoder's test holds and no earlier test in the chain holds; when no decoder is selected, no scheme test holds |
| Formats.ParseWithPlugin | app/src/main/java/io/nekohasekai/sagernet/ktx/Formats.kt:216-228 | the inner loop over one descriptor's `links` appends one decoder result per string entry prefixing the token, in entry order |
| Formats.ParsePlugins | app/src/main/java/io/nekohasekai/sagernet/ktx/Formats.kt:214-229 | the nested plugin loops append the results of all plugin calls, in registry order then entry order |
| Formats.PluginResultsAppend | app/src/main/java/io/nekohasekai/sagernet/ktx/Formats.kt:214-229 | the results of two batches of plugin calls are the first batch's followed by the second's |
| Formats.ParseLink | app/src/main/java/io/nekohasekai/sagernet/ktx/Formats.kt:136-231 | a subscription link redirects with no decoder call; any other token makes exactly the calls `LinkCalls` lists (one built-in decoder, or else every claiming plugin entry) and appends what they return |
| Formats.FirstSubscription | app/src/main/java/io/nekohasekai/sagernet/ktx/Formats.kt:137-138 | finds the first subscription link of a stream, and finds none exactly when the stream has none |
| Formats.ParseLinks | app/src/main/java/io/nekohasekai/sagernet/ktx/Formats.kt:233-238 | the loop stops at the first subscription link, so the decoders see exactly the tokens before it, in order; without one, each token's results are appended in token order |
| Formats.LineTokens | app/src/main/java/io/nekohasekai/sagernet/ktx/Formats.kt:131 | the line stream: each piece of `split('\n')`, trimmed |
| Formats.WordTokens | app/src/main/java/io/nekohasekai/sagernet/ktx/Formats.kt:130 | the word stream: each piece of `split('\n')`, trimmed, then cut at every space, flattened in order |
| Formats.LinkCalls | app/src/main/java/io/nekohasekai/sagernet/ktx/Formats.kt:141-229 | the decoder calls for a non-subscription token: the built-in decoder its scheme selects, or else one `parseShareLink` call per claiming plugin entry |
| Formats.StreamCalls | app/src/main/java/io/nekohasekai/sagernet/ktx/Formats.kt:233-238 | the decoder calls of a stream, token by token |
| Formats.Dispatched | app/src/main/java/io/nekohasekai/sagernet/ktx/Formats.kt:137-138 | the tokens that reach a decoder are a prefix of the stream, hold no subscription link, and stop just before the first one |
| Formats.ProxiesCalls | app/src/main/java/io/nekohasekai/sagernet/ktx/Formats.kt:233-238 | the decoder calls of the whole call: the word stream's, then the line stream's only when the word stream did not redirect |
| Formats.Map | app/src/main/java/io/nekohasekai/sagernet/ktx/Formats.kt:131 | the line stream has one entry per line, each the trimmed line |
| Formats.Initialized | app/src/main/java/io/nekohasekai/sagernet/ktx/Formats.kt:240 | `onEach { initializeDefaultValues() }` keeps the list's length |
| Formats.InitializeEach | app/src/main/java/io/nekohasekai/sagernet/ktx/Formats.kt:240 | the loop initialises every profile in place, in index order, and nothing else |
| Formats.ApplyDefaultValues | app/src/main/java/io/nekohasekai/sagernet/ktx/Formats.kt:253-256 | `applyDefaultValues` is the profile after `initializeDefaultValues`, returned as the same value |
| Formats.Choose | app/src/main/java/io/nekohasekai/sagernet/ktx/Formats.kt:239-250 | the selection after both streams: a word-stream redirect wins, then a line-stream one; otherwise the initialised word list when strictly longer, else the initialised line list |
| Formats.ParseProxiesSpec | app/src/main/java/io/nekohasekai/sagernet/ktx/Formats.kt:129-251 | `parseProxies` as a function: `Choose` over the parsed word and line streams of the text |
| Formats.FindBadLink | app/src/main/java/io/nekohasekai/sagernet/ktx/Formats.kt:240-248 | the `test@` walk flags a run exactly when some index-aligned pair is equal but displays differently |
| Formats.ParseStreams | app/src/main/java/io/nekohasekai/sagernet/ktx/Formats.kt:233-250 | both streams are parsed words first; a word-stream redirect returns at once with only the word stream's calls; otherwise the chosen list follows `Choose`, `isBadLink` is set only on equal sizes from the initialised lists, and the script pool is torn down exactly when nothing redirects |
| Formats.ParseProxies | app/src/main/java/io/nekohasekai/sagernet/ktx/Formats.kt:129-251 | the whole call follows `ParseProxiesSpec` on the text's two token streams, with the calls and flags `ParseStreams` states |
| FormatsFacts.FlatMapHasPiece | app/src/main/java/io/nekohasekai/sagernet/ktx/Formats.kt:130 | every piece `flatMap` gets for a line is in the flattened stream |
| FormatsFacts.FlatMapPieceFrom | app/src/main/java/io/nekohasekai/sagernet/ktx/Formats.kt:130 | every token of the flattened stream comes from some line |
| FormatsFacts.LineTokensHaveNoBreaks | app/src/main/java/io/nekohasekai/sagernet/ktx/Formats.kt:131 | no line token holds a line break |
| FormatsFacts.WordTokensHaveNoBreaks | app/src/main/java/io/nekohasekai/sagernet/ktx/Formats.kt:130 | no word token holds a line break or a space |
| FormatsFacts.EmptyTextTokens | app/src/main/java/io/nekohasekai/sagernet/ktx/Formats.kt:130-131 | the empty text gives one empty token in each stream |
| FormatsFacts.WordsAreLines | app/src/main/java/io/nekohasekai/sagernet/ktx/Formats.kt:130-131 | when no trimmed line holds a space, the word stream is the line stream |
| FormatsFacts.OneTokenPerLine | app/src/main/java/io/nekohasekai/sagernet/ktx/Formats.kt:129-250 | one token per line gives the same two streams, and the tie returns the line stream's initialised list |
| FormatsFacts.StreamResultsAppend | app/src/main/java/io/nekohasekai/sagernet/ktx/Formats.kt:233-238 | a stream's profiles are the profiles of its parts concatenated in token order |
| FormatsFacts.PluginResultsCount | app/src/main/java/io/nekohasekai/sagernet/ktx/Formats.kt:218-226 | each failed call adds nothing and each successful call adds one profile, so there are never more profiles than calls, exactly as many when all succeed, and none when all fail |
| FormatsFacts.LinkResultsCount | app/src/main/java/io/nekohasekai/sagernet/ktx/Formats.kt:141-229 | a token claimed by a scheme adds one profile on success and none on failure; otherwise it adds at most one per plugin call |
| FormatsFacts.BuiltinIgnoresPlugins | app/src/main/java/io/nekohasekai/sagernet/ktx/Formats.kt:141-214 | a token claimed by a built-in scheme never reaches the plugins: the registry does not change its result |
| FormatsFacts.EntryCallsMembers | app/src/main/java/io/nekohasekai/sagernet/ktx/Formats.kt:216-217 | a descriptor's calls for a token are its own, and it has some exactly when one of its entries claims the token |
| FormatsFacts.EntryCallsIgnoreNonStrings | app/src/main/java/io/nekohasekai/sagernet/ktx/Formats.kt:217 | dropping every non-string `links` entry changes no call |
| FormatsFacts.EntryCallsCount | app/src/main/java/io/nekohasekai/sagernet/ktx/Formats.kt:216-217 | a descriptor whose entries all prefix the token is called once per entry, duplicates included |
| FormatsFacts.InvocationsMembers | app/src/main/java/io/nekohasekai/sagernet/ktx/Formats.kt:215-217 | a descriptor is called for a token exactly when it is registered and one of its `links` entries is a string prefixing the token |
| FormatsFacts.InvocationsAppend | app/src/main/java/io/nekohasekai/sagernet/ktx/Formats.kt:215 | the calls follow registry order, so every plugin that claims a token gets its own calls |
| FormatsFacts.EmptyPrefixClaimsEverything | app/src/main/java/io/nekohasekai/sagernet/ktx/Formats.kt:217 | an empty-string entry claims every token that reaches the plugins |
| FormatsFacts.SubscriptionFirstWord | app/src/main/java/io/nekohasekai/sagernet/ktx/Formats.kt:130-137 | the first word of a subscription link is still a subscription link |
| FormatsFacts.LineSubscriptionIsWordSubscription | app/src/main/java/io/nekohasekai/sagernet/ktx/Formats.kt:130-137 | a subscription link in the line stream implies one in the word stream |
| FormatsFacts.ChooseRedirect | app/src/main/java/io/nekohasekai/sagernet/ktx/Formats.kt:233-238 | a redirect from the word stream wins, and the line stream is never the one that redirects |
| FormatsFacts.RedirectIffSubscriptionWord | app/src/main/java/io/nekohasekai/sagernet/ktx/Formats.kt:127-238 | `parseProxies` throws `SubscriptionFoundException` exactly when some word token is a subscription link, and carries the first such token |
| FormatsFacts.ChooseLonger | app/src/main/java/io/nekohasekai/sagernet/ktx/Formats.kt:239-250 | the longer stream's initialised list is chosen, the line stream's on a tie |
| FormatsFacts.SelectionKeepsLonger | app/src/main/java/io/nekohasekai/sagernet/ktx/Formats.kt:239-250 | without a redirect, the result is the initialised list of the strictly longer word stream, else of the line stream, and is never shorter than either |
| FormatsFacts.InitializedIdempotent | app/src/main/java/io/nekohasekai/sagernet/ktx/Formats.kt:240 | with an idempotent `initializeDefaultValues`, initialising a list twice equals initialising it once |
| FormatsFacts.ChooseInitialized | app/src/main/java/io/nekohasekai/sagernet/ktx/Formats.kt:240-250 | whichever list is chosen has already been initialised: with an idempotent `initializeDefaultValues`, initialising it again changes nothing |
| FormatsFacts.ResultIsInitialized | app/src/main/java/io/nekohasekai/sagernet/ktx/Formats.kt:240-250 | every returned profile has been initialised: with an idempotent `initializeDefaultValues`, initialising the result again changes nothing |
| FormatsFacts.SubscriptionBeforeUniversal | app/src/main/java/io/nekohasekai/sagernet/ktx/Formats.kt:137-141 | `sn://subscription?` would select the universal decoder, and the earlier subscription test redirects it instead |
| FormatsFacts.OutputsCount | app/src/main/java/io/nekohasekai/sagernet/ktx/Formats.kt:141-229 | a list of decoder calls yields at most one profile per call, exactly one per call when every call succeeds |
| FormatsFacts.ProfilesComeFromCalls | app/src/main/java/io/nekohasekai/sagernet/ktx/Formats.kt:136-238 | a stream's profiles are exactly the successes of its decoder calls, in call order, so never more profiles than calls |
| FormatsFacts.LinkCallsCarryToken | app/src/main/java/io/nekohasekai/sagernet/ktx/Formats.kt:141-229 | every call for a token is given that token: one built-in call when a scheme claims it, otherwise one plugin call per claiming entry |
| FormatsFacts.StreamCallsFrom | app/src/main/java/io/nekohasekai/sagernet/ktx/Formats.kt:233-238 | every call of a stream is given one of its tokens |
| FormatsFacts.DecodersStopAtSubscription | app/src/main/java/io/nekohasekai/sagernet/ktx/Formats.kt:137-138 | no decoder call goes to a subscription link or to a token after the first one |
| FormatsFacts.WordRedirectSkipsLines | app/src/main/java/io/nekohasekai/sagernet/ktx/Formats.kt:233-238 | after a word-stream redirect the line stream is never decoded and every call went to a word token before the subscription link; otherwise the word stream is decoded in full, then the line stream up to its first subscription link |
| FormatsFacts.ChooseRedirectCalls | app/src/main/java/io/nekohasekai/sagernet/ktx/Formats.kt:233-238 | when line-stream subscription links imply word-stream ones, a redirect carries the first word-stream subscription link and all calls went to word tokens before it |
| FormatsFacts.RedirectCallsPrecedeIt | app/src/main/java/io/nekohasekai/sagernet/ktx/Formats.kt:127-238 | when `parseProxies` throws `SubscriptionFoundException`, every decoder call went to a word token before the link it carries, and the line stream was never decoded |
| Assets.LayoutOf | libcore/assets.go:57-75 | the `switch name` and directory choice: each asset's version file, replaceability and directory |
| Assets.LayoutTable | libcore/assets.go:57-75 | geoip and geosite use their own version files and the external directory; `index.js` uses `core.version.txt` and the internal directory; unknown names keep the zero values |
| Assets.LayoutInvariants | libcore/assets.go:57-75 | an asset is in the internal directory exactly when it is not replaceable, and only the three listed names have a version file |
| Assets.ParseUint64 | libcore/assets.go:114-118 | `strconv.ParseUint(_, 10, 64)`: a nonempty run of decimal digits whose value is below 2^64, else an error |
| Assets.ToDecimal | libcore/assets.go:114-119 | a decimal spelling is a nonempty run of digits |
| Assets.ToDecimalValue | libcore/assets.go:114-119 | a number's spelling reads back as that number |
| Assets.ParseToDecimal | libcore/assets.go:114-119 | `ParseUint(_, 10, 64)` gives back every 64-bit value from its spelling |
| Assets.ParsedIsCanonical | libcore/assets.go:114-119 | a parsed version without a leading zero is the spelling of its value |
| Assets.Newer | libcore/assets.go:114-120 | the comparison once both versions are read: numeric when the bundled one parses (an unparsable local one losing), textual otherwise, `force` always winning |
| Assets.DoExtract | libcore/assets.go:94-125 | `doExtract`, or the error of the bundled-version load made in between |
| Assets.Decide | libcore/assets.go:94-136 | keep, extract recording the bundled version (loading it if not yet loaded), or return the load's error |
| Assets.NoVersionFileRule | libcore/assets.go:98-136 | without a version file, extraction happens exactly when the asset is missing or `force` is set |
| Assets.UnofficialSourceRule | libcore/assets.go:122-125 | a replaceable asset with a version file, under an unofficial source, is extracted exactly when `force` is set |
| Assets.OfficialComparisonRule | libcore/assets.go:102-121 | numeric comparison when both versions parse, text comparison when the bundled one does not, extraction when only the local one does not |
| Assets.UnreadableLocalVersionRule | libcore/assets.go:102-133 | an unreadable local version file forces extraction, which can then only fail on loading the bundled version |
| Assets.BundledFailureRule | libcore/assets.go:80-113 | a failed load of the bundled version returns its error, even with `force` |
| Assets.ForceRule | libcore/assets.go:98-133 | `force` extracts on every branch unless the bundled version fails to load, which is then the error |
| Assets.DecisionSources | libcore/assets.go:80-136 | an extraction records the bundled version, and an error only comes from loading it |
| Assets.NoDowngrade | libcore/assets.go:114-119 | a bundled version that is not numerically newer is never extracted without `force` |
| Assets.ExtractAssetName | libcore/assets.go:54-154 | one call of `extractAssetName`: the decision, then the copy, the decompression and the version-file write with their errors |
| Assets.ExtractionWritesBundledVersion | libcore/assets.go:127-153 | an extraction copies `<prefix><name>.xz` to `<dir><name>` and writes the bundled version to `<dir><version file>`; nothing is written without one; the call returns nil exactly when it keeps the asset or both writes succeed |
| Assets.SecondRunKeeps | libcore/assets.go:98-153 | after a successful extraction, a second unforced run with the same bundled version keeps the asset |
| Assets.ExtractV2RayAssets | libcore/assets.go:34-51 | `extractV2RayAssets`: nothing on Nekoray, else the three assets in order, unforced, under one source choice |
| Assets.ExtractV2RayAssetsRuns | libcore/assets.go:34-51 | nothing runs on a Nekoray device; otherwise geoip, geosite and `index.js` run once each, in that order, unforced |
| Assets.FileName | libcore/assets.go:180 | `filepath.Split`'s file part is the suffix after the last `/` and holds no `/` |
| Assets.SeekSpec | libcore/assets.go:179-206 | the seeker's lookup: `index.html` from the APK, any other file from the first candidate directory that has it, or the last path tried |
| Assets.FirstExisting | libcore/assets.go:198-203 | the loop's index is the first existing candidate, and there is none exactly when no candidate exists |
| Assets.NewFileSeeker | libcore/assets.go:179-206 | the seeker closure returns the lookup the specification function describes |
| Assets.SeekOrder | libcore/assets.go:183-205 | `index.html` always comes from the APK; other files come from the internal directory first, then the external one; not found only when neither has the file |
| Assets.SetupV2rayFileSystem | libcore/assets.go:174-211 | `setupV2rayFileSystem`: the hook installed over the two directories, or nothing on Nekoray |
| Assets.SetupInstallsUnlessNekoray | libcore/assets.go:174-179 | the hook is installed exactly when the device is not Nekoray, over the given directories |

## Left out

- Logging (`Logs.d`, `Logs.w`, `logrus`) is I/O and is not modelled. This includes the warning in `extractV2RayAssets` that names `geoip.dat` whatever asset failed.
- The decoders themselves (`parseUniversal`, `parseSOCKS`, …, `parseShareLink`) are not part of this model. Each is a parameter that succeeds with a profile or throws.
- `NekoPluginManager.getProtocols()` is a parameter. The source reads it again for every token that reaches the plugin branch; the model assumes one registry for every token of both streams, so a registry that changes during the call is not modelled. Plugin code run in the script interpreter is not part of this model, and `destroyAllJsi` is a flag on the result.
- Profiles are values. The in-place mutation by `initializeDefaultValues`, and any aliasing between the two lists, are not modelled.
- `equals` and `displayName` are parameters. Their consistency is not assumed.
- Coroutine suspension (`suspend`) is not modelled. The model is sequential.
- Formats.ParseProxies: the `isBadLink` flag is returned rather than left unused, so that its rule can be stated. The source computes it and discards it.
- Assets.ExtractAssetName: the copy, the xz decompression and the version-file write are I/O. Whether each succeeds is an input, and only the paths and the version written are recorded.
- Assets.ExtractAssetName: `os.RemoveAll(version)` on an unreadable version file is not modelled. It removes a bare relative name, not the file that was read.
- `loadAssetVersion` may run twice in one call. The model assumes both runs see the same bundled file.
- Assets.NewFileSeeker: `os.Open` of the chosen path is not modelled; only which path is opened is. The error of a missing file is the last path tried.
- `NewFileReader` delegates to `NewFileSeeker` and adds nothing.
- The other helpers of Formats.kt (`formatObject`, `toStringPretty`, the `forEach` extensions, `isJsonObjectValid`, `getBool`, `getIntNya`, `decodeBase64UrlSafe`) are outside this model.
