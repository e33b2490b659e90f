# Cognitive Canvas: search and authorization core

Cognitive Canvas is a browser app that searches a library of media items by typed or spoken
queries. A user signs in with a Google identity and grants Drive access. The user then picks a
Drive folder, whose files become the library. A query is turned into keywords by a
language-model extractor, or by local tokenizers when no key is configured or the model call
fails. The app keeps the library items whose title, description or tags contain a keyword.

This project models that core in Dafny:

- `types.dfy` (`Types`): `MediaType`, `LibraryItem` and JavaScript's optional strings (`||`, template interpolation).
- `text.dfy` (`Text`), `seqs.dfy` (`Seqs`): the string and list operations the code relies on.
  - `toLowerCase`, `includes`, `split`, `join` and `trim`.
  - Subsequences, `[...new Set(xs)]` and `slice`.
- `drive.dfy` (`DriveService`), from `services/googleDriveService.ts`:
  - the MIME-type classifier;
  - the listing request;
  - the mapping of listed files to library items;
  - the token callback of the authorization flow.
- `gemini.dfy` (`GeminiService`): `generateSearchQueries`. The model call is a parameter. The two local paths are modelled: the word tokenizer used without an API key and the split used after a failure.
- `search.dfy` (`Search`): the filter of `performSearch`, its fallback tokenizer, and the properties of a search.
- `app.dfy` (`App`): the `App` component as a class.
  - Its fields are the state slots plus the saved folder.
  - Each handler is a method, proved to produce the state given by a transition function on snapshots.
  - Lemmas over the transition functions state the consistency each handler keeps and the outcomes of the auth and folder flows.
- `speech.dfy` (`SpeechRecognition`): the `useSpeechRecognition` hook.
  - The result handler's loop is a method, proved against `FinalText`/`InterimText`.
  - The hook's flags are a class whose methods are the start/stop callbacks and the browser's error, end and result events.
- `mocklibrary.dfy` (`MockLibrary`): the demonstration library and search scenarios over it.

External SDKs become event parameters:

- Google API client loading: `InitOutcome`.
- JWT decoding: `DecodeOutcome`.
- The token response: `TokenResponse`.
- The picker: `PickerEvent`.
- The Drive listing: `ListingOutcome`.
- The language model: `ModelOutcome`, and whether an API key exists: `ExtractorConfig`.

The model follows the code; in particular:

- The fallback tokenizer of `performSearch` splits on single spaces, not on any white space.
- A failed model call does not fall back to the length-filtered tokenizer. `generateSearchQueries` itself returns the first three space-separated pieces, which may be empty or short.
- The callback of the speech hook receives every final segment of the result list, trimmed, not only the newest one.
- The end handler restarts recognition from a stale captured flag, not from the live listening state (see Findings).
- Three calls in the code cannot do what their surroundings intend (see Findings): the token request at App.tsx:74, the picker at App.tsx:110 and the end handler's flag at hooks/useSpeechRecognition.ts:69. The members whose rows begin "with the corrected call:" model the intended calls. Their twins model the code as written: App.AppComponent.HandleCredentialResponseAsWritten, App.AppComponent.HandleConnectFolderAsWritten and SpeechRecognition.Recognizer.OnEnd.
- There is no token re-request after an expired token, no debouncing and no search sequence numbers in the code, so none are modelled.

## Model

| member | source | states |
|---|---|---|
| Text.Lower | App.tsx:158 | `toLowerCase` keeps the length and lowers each ASCII letter at its position |
| Text.LowerOfLowerCase | App.tsx:156 | lower-casing text that is already lower case changes nothing |
| Text.ContainsIffOccurs | App.tsx:159 | `includes` holds exactly when the keyword occurs at some index of the text |
| Text.Split | App.tsx:154 | `split(' ')` never returns an empty list, and no piece contains the separator |
| Text.JoinSplit | services/geminiService.ts:51 | joining the pieces of a split with the separator gives the original string back |
| Text.JoinSplitAt | services/geminiService.ts:51 | a join is the join of the first k parts, the separator, and the join of the rest |
| Text.SplitJoin | App.tsx:154 | splitting the join of separator-free pieces gives the pieces back |
| Text.LeadingSpace | App.tsx:145 | the count of leading characters `trim()` drops: all white space, and the next character is not |
| Text.TrailingSpaceStart | App.tsx:145 | where the trailing white space `trim()` drops begins: everything after is white space, the character before is not |
| Text.TrimEmptyIffBlank | App.tsx:145 | `trim()` is empty exactly when every character is white space |
| Seqs.Dedupe | services/geminiService.ts:20 | `[...new Set(xs)]`: no duplicates, the same members as the input, a subsequence of it, in order of first occurrence |
| Seqs.TakeOfDedupe | services/geminiService.ts:20-21 | the first n distinct elements are distinct, from the input, in first-occurrence order, all of them when fewer than n, none only for an empty input, and each kept one occurs before every dropped one |
| Seqs.Take | services/geminiService.ts:21 | `slice(0, n)` is a prefix of at most n elements, all of them when the input is shorter |
| DriveService.GetMediaType | services/googleDriveService.ts:117-123 | image, video and audio exactly for their prefixes; document exactly when no media prefix and the type mentions document, pdf or text; otherwise other |
| DriveService.MediaPrefixWins | services/googleDriveService.ts:118-121 | a media prefix decides the kind whatever follows it, including text, pdf or document |
| DriveService.PlainTextIsDocument | services/googleDriveService.ts:121 | `text/plain` is a document |
| DriveService.PdfIsDocument | services/googleDriveService.ts:121 | `application/pdf` is a document |
| DriveService.GoogleDocIsDocument | services/googleDriveService.ts:121 | a Google Docs MIME type is a document |
| DriveService.UpperCasePdfIsOther | services/googleDriveService.ts:121 | the substring tests are case-sensitive: `application/PDF` is other |
| DriveService.ListQuery | services/googleDriveService.ts:131 | the query starts with the quote and is as long as the folder id plus the fixed text around it |
| DriveService.ListRequestFor | services/googleDriveService.ts:130-134 | page size 200, the fixed field list, and a query the folder id can be read back from |
| DriveService.ParseListQueryOfListQuery | services/googleDriveService.ts:131 | the folder id is recovered from the query built for it |
| DriveService.ListQueryOfParseListQuery | services/googleDriveService.ts:131 | every query of that shape is the one built for the id read from it |
| DriveService.MapFiles | services/googleDriveService.ts:136-146 | one item per file, same order; id and title from the file; kind from the MIME type; Drive source; no tags; description or ""; thumbnail else icon link as url |
| DriveService.MapFilesAppend | services/googleDriveService.ts:136 | mapping a split listing is the concatenation of the mapped parts |
| DriveService.OnTokenResponse | services/googleDriveService.ts:100-105 | an error response is reported, never with an empty message: the description when present, else the fixed text; the picker is shown exactly when there is no error |
| GeminiService.WordRuns | services/geminiService.ts:19 | `match(/\b(\w+)\b/g)`: non-empty runs of word characters taken from the text, none exactly when the text has no word character |
| GeminiService.WordRunsOfWord | services/geminiService.ts:19 | a single word is its own only match |
| GeminiService.WordRunsAtSeparator | services/geminiService.ts:19 | a non-word character splits the matches: the matches of the parts on either side, concatenated |
| GeminiService.LowerKeepsWordChars | services/geminiService.ts:19 | lower-casing neither adds nor removes word characters |
| GeminiService.NoKeyQueries | services/geminiService.ts:16-22 | the first 3 distinct words of the lower-cased text: distinct, non-empty, lower case, in order of first occurrence, each kept word occurring before every dropped one; all of them when fewer than 3; empty exactly when the text has no word character |
| GeminiService.ErrorQueries | services/geminiService.ts:48-52 | 1 to 3 lower-case space-free pieces that join back to a prefix of the lower-cased text ending at a space or at the end, so the pieces are whole; all of the text when fewer than 3 |
| GeminiService.ErrorQueriesLeadingSpace | services/geminiService.ts:51 | a text starting with a space yields an empty first keyword |
| GeminiService.GenerateSearchQueries | services/geminiService.ts:15-53 | without a key the tokenizer's words, after a failure the split pieces, for a response its `queries` unchanged or none when missing; a failure gives 1 to 3; without a key at most 3 distinct, none exactly when the text has no word character |
| Search.AnyContainedIff | App.tsx:159 | `some(includes)` holds exactly when one of the keywords is contained in the text |
| Search.FilterLibrary | App.tsx:157-160 | the kept items are a subsequence of the library: nothing added, order kept |
| Search.FilterLibraryKeeps | App.tsx:157-160 | an item is kept iff it is in the library and matches; each matching item is kept as often as it occurs there, others never |
| Search.LowerAll | App.tsx:156 | one lower-cased keyword per keyword, same order |
| Search.LongWords | App.tsx:154 | an order-preserving selection holding every word longer than 2 and nothing shorter |
| Search.LongWordsCounts | App.tsx:154 | every word longer than 2 is kept as often as it occurs, no other word is kept |
| Search.FallbackKeywords | App.tsx:153-155 | every space-split piece of the lower-cased query longer than 2, in order, each space-free and longer than 2 |
| Search.FallbackKeywordsCounts | App.tsx:154 | each piece longer than 2 is kept as often as the split holds it, nothing else |
| Search.SearchSteps | App.tsx:152-160 | pushing the fallback onto an empty keyword list, lower-casing and filtering give the search result |
| Search.BlankQueryShowsLibrary | App.tsx:145-147 | a blank query shows the whole library in order, whatever the extractor returns |
| Search.SearchIsSubsequence | App.tsx:145-160 | results are a subsequence of the library: nothing added, order kept |
| Search.SearchKeepsMatchingItems | App.tsx:156-160 | for a non-blank query an item is shown iff it is in the library and some lower-cased keyword occurs in its title, description and tags text |
| Search.ContentNotSearched | App.tsx:158 | changing an item's `content` never changes whether it matches |
| Search.ExtractedKeywordsUsed | App.tsx:152-156 | the fallback is used only when the extractor returned nothing |
| Search.NoKeywordsNoResults | App.tsx:153-160 | with no extracted keyword and no query word longer than 2, nothing is found |
| Search.EmptyKeywordKeepsAll | App.tsx:159 | an empty keyword keeps every library item |
| Search.KeywordCaseIgnored | App.tsx:156 | lower-casing the extracted keywords beforehand changes no result |
| Search.FailedModelWithLeadingSpaceShowsAll | App.tsx:152-160 | when the model call fails on a query starting with a space, every item is shown |
| App.AppComponent.constructor | App.tsx:30-39 | the first render: LOADING, no profile, folder, items or error; the saved folder as stored |
| App.AppComponent.Initialize | App.tsx:44-62 | after loading, LOGIN with the saved folder restored; after a failure, LOGIN with the provider's or the fixed message; consistency kept |
| App.AppComponent.HandleFolderChosen | App.tsx:116-130 | new state per `FolderChosen`; consistency kept |
| App.AppComponent.HandleTokenResponse | App.tsx:74-85 | with the corrected call: new state per `TokenResponded`; consistency kept |
| App.AppComponent.HandleCredentialResponse | App.tsx:64-91 | with the corrected call: new state per `CredentialResponded`: decode failure sets only the login error, else profile stored and token response handled |
| App.AppComponent.HandleCredentialResponseAsWritten | App.tsx:64-91 | as written: the profile is stored and the login error is always set, nothing else changes |
| App.AppComponent.HandleConnectFolder | App.tsx:109-114 | with the corrected call: a picked folder is chosen as in `handleFolderChosen`; a closed picker changes nothing |
| App.AppComponent.HandleConnectFolderAsWritten | App.tsx:109-114 | as written: nothing changes |
| App.AppComponent.HandleLogout | App.tsx:132-140 | new state per `LoggedOut`; consistency kept |
| App.AppComponent.PerformSearch | App.tsx:144-167 | resumed with the extractor's keywords: the results become the search of the library for the query, the fallback pushed when there were none, all of the library for a blank query; nothing else changes; consistency kept |
| App.InitializedConsistent | App.tsx:44-62 | initialization keeps the saved folder equal to the folder in use and results within the library |
| App.FolderChosenConsistent | App.tsx:116-130 | choosing a folder keeps the state consistent |
| App.CredentialRespondedConsistent | App.tsx:64-91 | with the corrected call: handling a sign-in keeps the state consistent |
| App.LoggedOutConsistent | App.tsx:132-140 | logging out leaves a consistent state from any state |
| App.SearchedConsistent | App.tsx:144-167 | a search keeps the results a subsequence of the library |
| App.FolderChosenOutcomes | App.tsx:116-130 | success: READY, library and results are the mapped files, folder selected and saved; failure: PICKER, fixed message, library and results kept, folder still saved |
| App.LogoutForgetsSession | App.tsx:132-140 | LOGIN with no profile, folder, saved folder, library or results; the error left as it was |
| App.LoginAfterLogoutOpensPicker | App.tsx:80-84 | with the corrected call: after logout a granted token opens the picker with an empty library |
| App.TokenErrorGoesToLogin | App.tsx:75-79 | with the corrected call: a token error goes to LOGIN with "Authorization error: " and the description, nothing else changed |
| App.TokenGrantResumesFolder | App.tsx:80-84 | with the corrected call: a grant lists the selected folder exactly as choosing it would, else opens the picker |
| App.FailedListingIsRetriedOnNextGrant | App.tsx:117-128 | with the corrected call: a failed listing keeps the folder selected, so the next grant lists it again |
| App.InitAndDecodeFailures | App.tsx:54-58 | an init failure reaches LOGIN with a non-empty message; a decode failure only sets the login error |
| App.ReturningUserReachesReady | App.tsx:50-53 | with the corrected handlers: a saved folder is listed right after sign-in, reaching READY with its files |
| App.NewUserReachesReady | App.tsx:83 | with the corrected handlers: without a saved folder sign-in opens the picker, and picking a folder reaches READY with its files |
| App.SignInStallsAsWritten | App.tsx:74 | as written a decodable sign-in stays in LOGIN with the login error; as intended it reaches the picker |
| App.PickerNeverOpensAsWritten | App.tsx:110 | as written connecting a folder leaves the picker screen and library unchanged; as intended a pick reaches READY with the folder's files |
| App.BlankSearchShowsLibrary | App.tsx:145-147 | a blank query shows the library and the outcome does not depend on what the extractor returns |
| App.ErrorIsNeverCleared | App.tsx:44-167 | no handler clears an error message once set |
| SpeechRecognition.BuildTranscript | hooks/useSpeechRecognition.ts:50-60 | the loop yields each final segment followed by ". " in order, and the interim segments concatenated |
| SpeechRecognition.FinalTextAppend | hooks/useSpeechRecognition.ts:53-56 | the final text of a concatenation is the concatenation of the final texts |
| SpeechRecognition.NoFinalNoFinalText | hooks/useSpeechRecognition.ts:53-60 | without a final result the final text is empty and the interim text is every segment |
| SpeechRecognition.FinalTextBlankIff | hooks/useSpeechRecognition.ts:63 | the final text is blank exactly when no result is final |
| SpeechRecognition.FinalTextEndsWithStop | hooks/useSpeechRecognition.ts:56 | with a final result the final text ends with ". " |
| SpeechRecognition.DeliveredTextEndsWithFullStop | hooks/useSpeechRecognition.ts:63-64 | the trimmed final text handed on is non-empty and ends with "." |
| SpeechRecognition.Recognizer.constructor | hooks/useSpeechRecognition.ts:33-47 | a recognizer exists only with the API; nothing is listening, running or delivered |
| SpeechRecognition.Recognizer.Remount | hooks/useSpeechRecognition.ts:82-86 | the old recognizer is stopped and the new one's handlers capture the current flag |
| SpeechRecognition.RemountRefreshesCapturedFlag | hooks/useSpeechRecognition.ts:33-86 | a remount keeps the hook's state, idles the recognizer even while listening, and the next end restarts exactly when the hook was listening at the remount |
| SpeechRecognition.Recognizer.StartListening | hooks/useSpeechRecognition.ts:88-93 | starts and sets listening only with a recognizer that is not listening |
| SpeechRecognition.Recognizer.StopListening | hooks/useSpeechRecognition.ts:95-100 | stops and clears listening only with a recognizer that is listening |
| SpeechRecognition.Recognizer.OnError | hooks/useSpeechRecognition.ts:75-78 | listening is cleared; the recognizer is not restarted |
| SpeechRecognition.Recognizer.OnEnd | hooks/useSpeechRecognition.ts:68-73 | the recognizer runs again exactly when the captured flag was true |
| SpeechRecognition.Recognizer.OnEndResuming | hooks/useSpeechRecognition.ts:68-73 | with the corrected call: the recognizer runs again exactly when the hook is listening |
| SpeechRecognition.Recognizer.OnResult | hooks/useSpeechRecognition.ts:49-66 | transcript becomes final plus interim text; the trimmed final text is delivered when not blank |
| SpeechRecognition.ResultDelivery | hooks/useSpeechRecognition.ts:61-65 | the callback is called once exactly when some result is final, with the trimmed final text ending in "."; otherwise the transcript is every segment |
| SpeechRecognition.FinalDelivered | hooks/useSpeechRecognition.ts:63-64 | with a final result, the trimmed final text is delivered once, non-empty and ending in "." |
| SpeechRecognition.NothingDelivered | hooks/useSpeechRecognition.ts:61-64 | without a final result nothing is delivered and the transcript is the interim text |
| SpeechRecognition.TrimKeepsFullStop | hooks/useSpeechRecognition.ts:63-64 | trimming a text ending in ". " leaves a non-empty text ending in "." |
| SpeechRecognition.StartStopIdempotent | hooks/useSpeechRecognition.ts:88-100 | starting twice is starting once, stopping twice is stopping once, and start then stop leaves nothing listening or running |
| SpeechRecognition.UnsupportedNeverListens | hooks/useSpeechRecognition.ts:38-42 | without the API start and stop change nothing |
| SpeechRecognition.ErrorThenStart | hooks/useSpeechRecognition.ts:75-93 | after an error the hook is not listening and can be started again |
| SpeechRecognition.CapturedFlagIsStale | hooks/useSpeechRecognition.ts:68-86 | no event changes the flag the end handler captured |
| SpeechRecognition.EndNeverRestartsAfterMount | hooks/useSpeechRecognition.ts:68-73 | after the first effect, whatever the events, an end never restarts recognition |
| SpeechRecognition.ListeningNotResumedAsWritten | hooks/useSpeechRecognition.ts:68-73 | start, then a browser end: the hook says it is listening but nothing runs |
| SpeechRecognition.ListeningResumed | hooks/useSpeechRecognition.ts:70 | with the live flag the recognizer runs after an end exactly when the hook is listening |
| MockLibrary.MatchesOne | App.tsx:159 | matching a single keyword is containing it |
| MockLibrary.LetterMissingFromItem | App.tsx:158-159 | an item lacking a letter in both cases matches no keyword holding it |
| MockLibrary.FirstTagMatches | App.tsx:158 | an item whose first tag is the lower-case keyword matches it |
| MockLibrary.TitleStartMatches | App.tsx:158 | an item whose title starts with the keyword, ignoring case, matches it |
| MockLibrary.SingleWordKeywords | services/geminiService.ts:19-21 | a lower-case word longer than 2 is its own keyword list without a key and in the fallback |
| MockLibrary.SingleWordNoKeyQueries | services/geminiService.ts:19-21 | without a key a lower-case word is its own only keyword |
| MockLibrary.SingleWordFallback | App.tsx:154 | the fallback keeps a lower-case word longer than 2 as its only keyword |
| MockLibrary.SingleWordErrorQueries | services/geminiService.ts:51 | after a failed model call a lower-case space-free text is its own keyword list |
| MockLibrary.WorkFindsWorkItems | data/mockLibrary.ts:4-64 | "work" finds the project presentation and the brainstorming session, in order |
| MockLibrary.AppleKeywords | App.tsx:152-156 | "apple" yields the single keyword "apple" without a key, after a failed model call and through the fallback |
| MockLibrary.AppleFindsOnlyApplePicking | data/mockLibrary.ts:5-12 | over the apple-picking photo and the banana tree, "apple" finds only the photo on all three keyword paths |
| MockLibrary.BlankQueryShowsMockLibrary | data/mockLibrary.ts:4-64 | a blank query shows the whole demonstration library |

## Left out

- `initGapiClient` (services/googleDriveService.ts:20-56): script polling with timers. Only its outcome, `InitOutcome`, is modelled.
- The Google Identity, OAuth, gapi and Picker SDK calls: foreign code. Their results are events.
  - The calls covered this way are `renderButton`, `prompt`, `disableAutoSelect`, `requestAccessToken`, `gapi.load` and the picker UI.
  - `showPicker`'s check for a missing access token is among them.
- `jwtDecode`: a foreign library. Decoding is an event that yields a profile or fails.
- The Gemini request and its JSON parsing (services/geminiService.ts:25-45): a network service. The parsed `queries` field, or a failure, is a parameter.
- `localStorage` JSON serialisation: the saved folder is one optional slot. A malformed saved value is not modelled.
- Async interleaving of searches, the `isSearching` flag, the `query` and `selectedResult` state, and the catch of `performSearch`.
  - These are event-loop concurrency and display state.
  - The modelled extractor never throws.
- App.AppComponent.PerformSearch: the extractor call is awaited, so the method takes its result as a parameter. `Search` and `MockLibrary` tie that parameter to `GenerateSearchQueries`.
- Search.LongWords: the length test counts characters (Unicode scalar values), while JavaScript's `word.length` counts UTF-16 code units. A word with characters outside the Basic Multilingual Plane can be longer in JavaScript, e.g. "a😀" has length 3 there and 2 here, so the model drops it while the code keeps it.
- `toLowerCase` and `\w` beyond ASCII: the model lowers only ASCII letters and treats only ASCII letters, digits and `_` as word characters.
- The React components and the JSX of App.tsx: presentation only.
- The mock items do not set `source` (types.ts:11). The model gives them the local source. Their `url` is optional in the model because the Drive mapping can leave it undefined.
- SpeechRecognition.Recognizer.StartListening: a browser that throws on `start()` while its recognizer is already capturing is not modelled.
- SpeechRecognition.Recognizer.Remount: the handlers of the old recognizer may still fire after a remount; the model drops them.
- MockLibrary.AppleFindsOnlyApplePicking: states the "apple" search over the two items of the scenario, not over all seven.

## Findings

| source | as written | input that shows it | evidently intended | confidence | as-written member | corrected member |
|---|---|---|---|---|---|---|
| App.tsx:74 | `driveService.initTokenClient` is not exported by the Drive service, so the call throws and the handler's catch reports "Failed to process login" | any credential that decodes, in LOGIN without a folder | request a token; on a grant list the saved folder or open the picker | not executed; high (the module exports no such name) | App.SignInStallsAsWritten | App.AppComponent.HandleCredentialResponse |
| App.tsx:110 | `driveService.showPicker` is module-private (services/googleDriveService.ts:63), so the call throws and nothing changes | clicking connect on the picker screen | open the picker and choose the picked folder | not executed; high (the module exports no such name) | App.PickerNeverOpensAsWritten | App.AppComponent.HandleConnectFolder |
| hooks/useSpeechRecognition.ts:68-73 | the end handler reads the `isListening` captured when the effect ran (false at mount) | mount, start listening, then the browser ends the session | restart while the hook is listening, as the comment at line 70 says | not executed; medium | SpeechRecognition.ListeningNotResumedAsWritten | SpeechRecognition.ListeningResumed |
