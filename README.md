# EasyConvert Hub, modelled in Dafny

This project models the core of the EasyConvert Hub web application, a catalogue of small online
tools with an account and wallet system. The model covers:

- the mock account and wallet backend (a user table and a session kept in browser storage);
- the authentication context wrapping that backend;
- the VIP upgrade and top-up pages;
- the ad gate `PremiumGuard` and its five-second `AdModal`;
- the `TOOLS` catalogue and its guarded routes;
- the home page's search, category filter, popular list and grouped view;
- the language context's `t` lookup;
- the PDF merge, word counter, QR code, password generator, speech-to-text and video converter
  pages;
- the bookmark reminder popup.

Each source file has its own module. Code that updates state becomes a `class` whose methods give
the complete new state in their `ensures`. Pure computations become functions, proved against
lemmas. Three modules hold the shared pieces:

- `Wrappers` has `Option` and `Result`.
- `JsText` has the JavaScript string semantics the pages rely on: `\s`, `trim`, ASCII
  `toLowerCase`/`toUpperCase`, `includes`, `padStart` and decimal rendering.
- `Lists` holds `filter`, `findIndex` and subsequences.

Several things that are not pure logic enter the model as parameters:

- The current time is an integer millisecond count `now`.
- `Math.random` draws are reals in [0, 1).
- Confirmation dialogs are booleans.
- Browser storage is an in-memory `map` or `seq`.
- A foreign library's answer (PDF merge, QR rendering, speech service) is a `Result` or `Option`.
- Whether the browser grants the microphone is a boolean `micGranted`.
- Timers are explicit methods, one per firing.

## Model

| member | source | states |
|---|---|---|
| MockBackend.IndexOfCredentials | services/mockBackend.ts:19 | finds the first user matching both email and password, and finds none exactly when no stored user matches both |
| MockBackend.IndexOfEmail | services/mockBackend.ts:32 | finds the first user with the email, and finds none exactly when no stored user has it |
| MockBackend.IndexOfId | services/mockBackend.ts:70 | returns the first index with the id; finds none exactly when no user has it |
| MockBackend.NewUser | services/mockBackend.ts:36-44 | a new record has the given email, name and password, balance 0, no VIP expiry, and an id starting "user_" |
| MockBackend.Credited | services/mockBackend.ts:74-78 | a deposit sets the balance to the old balance (0 when not a number) plus the amount, with no sign check; nothing else in the record changes |
| MockBackend.NewExpiry | services/mockBackend.ts:102-106 | the new period starts at max(current expiry, now), where a missing expiry counts as now |
| MockBackend.Purchased | services/mockBackend.ts:98-108 | a purchase takes exactly `price` off the balance, sets the extended expiry, and changes nothing else |
| MockBackend.SessionAfterWrite | services/mockBackend.ts:82-85 | the session snapshot is overwritten only when its id is `userId`; any other session is kept |
| MockBackend.ProfileOf | services/mockBackend.ts:58-65 | no session gives null; otherwise the result is the live stored record with the session's id (not the snapshot), present exactly when such a record exists |
| MockBackend.VipStacksOnActivePlan | services/mockBackend.ts:103-106 | on an active plan the days are added to the old expiry (10 days left + 30 days = 40 days) |
| MockBackend.VipRestartsWhenLapsed | services/mockBackend.ts:103-106 | with no plan or a lapsed plan, the period restarts from now |
| MockBackend.BuyVipWallet | services/mockBackend.ts:93-110 | a failed purchase writes nothing; a successful one changes only the buyer's record, lowers its balance by exactly `price`, leaves it non-negative, and sets the new expiry |
| MockBackend.TopUpWallet | services/mockBackend.ts:69-79 | a deposit fails exactly for an unknown id and then writes nothing; otherwise only the target's balance changes, by `amount` |
| MockBackend.TopUpSeenByProfile | services/mockBackend.ts:67-88 | after the logged-in user's deposit, the next profile fetch returns the credited record with its new balance |
| MockBackend.BuyVipSeenByProfile | services/mockBackend.ts:90-118 | after the logged-in user's purchase, the next profile fetch returns the charged record |
| MockBackend.TopUpEffect | services/mockBackend.ts:67-88 | the deposit specification the backend method is held to: an unknown id fails with user-not-found and writes nothing; otherwise only that record is credited, the credited record is returned, and a session for that id is refreshed |
| MockBackend.BuyVipEffect | services/mockBackend.ts:90-118 | the purchase specification: an unknown id fails with user-not-found and a balance below the price fails with insufficient-balance, both writing nothing; otherwise only that record is charged and extended, returned, and a session for that id is refreshed |
| MockBackend.Backend.constructor | services/mockBackend.ts:8 | the backend starts from whatever table and session storage held |
| MockBackend.Backend.Login | services/mockBackend.ts:15-26 | succeeds exactly when a stored user matches email and password; the user returned is the first match in the table, as `find` gives it, and the session then becomes that user; on failure the session is unchanged and the error is the invalid-credentials one |
| MockBackend.Backend.Register | services/mockBackend.ts:28-52 | a taken email fails with nothing written; otherwise exactly one new user is appended and becomes the session; emails stay unique |
| MockBackend.Backend.Logout | services/mockBackend.ts:54-56 | the session is removed, so the next profile fetch returns null |
| MockBackend.Backend.GetProfile | services/mockBackend.ts:58-65 | returns the live record behind the session (see ProfileOf) without writing |
| MockBackend.Backend.TopUp | services/mockBackend.ts:67-88 | performs exactly the deposit effect on table, session and result; emails stay unique |
| MockBackend.Backend.BuyVip | services/mockBackend.ts:90-118 | performs exactly the purchase effect: refused with no write on an unknown id or when the balance is below the price |
| AuthContext.AfterRefresh | context/AuthContext.tsx:21-28 | after a refresh, loading is over and `isAuthenticated` says whether a user is held; a fetch that throws leaves no user |
| AuthContext.SignedIn | context/AuthContext.tsx:34-42 | a successful login or register holds the returned record, authenticated, not loading |
| AuthContext.AuthProvider.constructor | context/AuthContext.tsx:14-19 | the initial state is no user, not authenticated, loading |
| AuthContext.AuthProvider.RefreshProfile | context/AuthContext.tsx:21-28 | the state becomes the live profile behind the session, consistent and not loading |
| AuthContext.AuthProvider.Login | context/AuthContext.tsx:34-37 | succeeds exactly when the credentials match a stored user; the signed-in record is then the first stored user with that email and password, and it becomes the session; the table is never written; on failure the error is invalid credentials and the state and session are unchanged |
| AuthContext.AuthProvider.Register | context/AuthContext.tsx:39-42 | fails, with email-in-use, exactly for a taken email and then changes nothing; on success the signed-in record is exactly the new user built from the email, password, name and time, appended to the table, and it becomes the session |
| AuthContext.AuthProvider.Logout | context/AuthContext.tsx:44-47 | leaves no user, not authenticated, and no stored session |
| VipUpgrade.PlanTable | pages/VipUpgrade.tsx:8-31 | the plans are 30 days for 20000, 90 days for 50000 and 365 days for 150000; only the yearly plan is popular; ids are distinct |
| VipUpgrade.Guard | pages/VipUpgrade.tsx:38-48 | with no user the page goes to login; a snapshot balance below the price offers only the top-up page; a declined confirmation stops; the purchase proceeds exactly for a confirmed user who is not short of funds |
| VipUpgrade.ProceedOnlyWhenAllowed | pages/VipUpgrade.tsx:39-48 | a purchase is attempted only for a logged-in user who confirmed and whose numeric balance covers the price |
| VipUpgrade.VipUpgradePage.constructor | pages/VipUpgrade.tsx:36 | nothing is processing at first |
| VipUpgrade.VipUpgradePage.BuyEnabled | pages/VipUpgrade.tsx:109 | every buy button is disabled while a plan is processing; HandleBuy holds the plan id during the call and leaves them enabled after |
| VipUpgrade.VipUpgradePage.HandleBuy | pages/VipUpgrade.tsx:38-61 | outside `Proceed`, no backend call is made and nothing changes. On `Proceed`, `apiBuyVip` gets the plan's own duration and price and a success is followed by a profile refresh; `processing` is set to the plan id, then to null on both paths |
| TopUp.PackagesPositive | pages/TopUp.tsx:7 | the only amounts are 50000, 100000, 200000 and 500000, all positive |
| TopUp.TopUpPage.constructor | pages/TopUp.tsx:12-15 | no amount, method MOMO, not processing, no success |
| TopUp.TopUpPage.SelectAmount | pages/TopUp.tsx:90-93 | the selected amount is always one of the packages |
| TopUp.TopUpPage.SelectMethod | pages/TopUp.tsx:62-82 | the method is one of MOMO, BANK or CARD |
| TopUp.TopUpPage.PayEnabled | pages/TopUp.tsx:115 | the pay button is enabled only with an amount and no payment pending; after a payment attempt it is enabled again |
| TopUp.TopUpPage.HandlePayment | pages/TopUp.tsx:17-31 | with no user or no amount, no call is made and nothing changes. Otherwise `apiTopUp` gets a package amount, `success` is set only after the deposit and the refresh both succeed, and `isProcessing` is false on both paths, leaving the pay button enabled |
| Catalogue.Find | App.tsx:270 | the result is an entry with the id, and none exactly when no entry has it |
| Catalogue.FindTool | App.tsx:269-311 | the guarded routes' lookup into TOOLS |
| Catalogue.IdsDistinct | App.tsx:28-197 | 17 tools with pairwise distinct ids |
| Catalogue.FindDistinct | App.tsx:270 | with distinct ids, looking up entry i's id returns entry i |
| Catalogue.FindToolOf | App.tsx:28-197 | looking a tool up by its own id returns that entry |
| Catalogue.RouteResolves | App.tsx:269-311 | each guarded route's `find(...)!` finds a premium tool whose own path is the route's path |
| Catalogue.GuardedRoutesResolve | App.tsx:269-311 | every guarded route resolves that way |
| Catalogue.PremiumToolsGuarded | App.tsx:269-311 | every premium tool is looked up by some guarded route at its own path |
| Catalogue.ComingSoonPath | App.tsx:58-95 | every coming-soon tool links to /coming-soon |
| Catalogue.PopularSet | App.tsx:30-107 | exactly img-convert, bg-remove, pdf-word and ocr are popular |
| Home.FilteredTools | pages/Home.tsx:25-33 | a tool is kept exactly when the lowercased search is in its lowercased name or description and the category is ALL or the tool's own (the corrected search; see Findings) |
| Home.FilteredIsSubsequence | pages/Home.tsx:25-33 | the filter keeps the catalogue's order |
| Home.EmptySearchKeepsAll | pages/Home.tsx:30-31 | an empty search with the ALL tab keeps every tool |
| Home.PopularTools | pages/Home.tsx:35 | exactly the popular tools |
| Home.PopularIsSubsequence | pages/Home.tsx:35 | the popular list is in catalogue order |
| Home.Displayed | pages/Home.tsx:115 | the grid is a subsequence of the catalogue: off the default view it holds exactly the matching tools; on the default view ('ALL', no search) exactly the popular ones |
| Home.ShowGroups | pages/Home.tsx:129 | the default view, on which the grid shows popular tools and the grouped view is drawn |
| Home.DefaultViewListsEveryTool | pages/Home.tsx:115-150 | on the default view every catalogue tool is listed under its category's heading, and in the grid exactly when popular; off it the grid is the filtered list |
| Home.NoResults | pages/Home.tsx:120 | the empty-result block shows exactly when no tool matches |
| Home.Groups | pages/Home.tsx:131-133 | each group is a listed category holding exactly that category's tools and none is empty; every category with tools gets its group; from a list without repeats, no heading repeats |
| Home.GroupsInOrder | pages/Home.tsx:131-148 | the headings appear in the order of the category list |
| Home.CategoryGroups | pages/Home.tsx:131-148 | over `Object.values(ToolCategory)`, the headings follow the enum's order, none twice, each over exactly its category's tools |
| Home.GroupsPartition | pages/Home.tsx:131-148 | over all categories, each group lists exactly its category's tools and every tool appears in its own category's group |
| Home.CatalogueSkipsEmptyCategories | pages/Home.tsx:131-133 | on the shipped catalogue the TEXT and DEV headings are skipped |
| Home.AsWrittenFiltered | pages/Home.tsx:22-33 | the search as written: it compares against the translation of the shared key `tool.undefined.name`/`.desc` |
| Home.AsWrittenIgnoresTool | pages/Home.tsx:22-23 | as written, two tools of the same category always match alike, whatever the dictionary |
| Home.AsWrittenNoWordMatch | pages/Home.tsx:22-30 | with no entry for the shared keys, no tool matches "word" as written |
| Home.AsWrittenWordFindsNothing | pages/Home.tsx:25-33 | as written, the search "word" lists nothing, for any tool list |
| Home.SearchFindsPdfWord | pages/Home.tsx:25-33 | searching the tools' own names, "word" finds 'PDF sang Word Pro' |
| Home.AsWrittenMissesPdfWord | pages/Home.tsx:22-33 | the counterexample: "word" lists nothing as written but lists pdf-word when searching the tools' own names |
| Language.T | context/LanguageContext.tsx:28-32 | the dictionary entry when present and non-empty, otherwise the key itself; empty only for the empty key |
| Language.TNonEmpty | context/LanguageContext.tsx:31 | a non-empty key never translates to "" |
| Language.FallbackNeverUsed | context/LanguageContext.tsx:31 | so `t(key) \|\| fallback` with a non-empty key never reaches the fall-back |
| Language.ParseSaved | context/LanguageContext.tsx:17-20 | a saved value is adopted exactly when it is "vi" or "en" |
| Language.ParseSavedCode | context/LanguageContext.tsx:23-26 | what is persisted reads back as the same language |
| Language.LanguageProvider.constructor | context/LanguageContext.tsx:14 | the language starts as 'vi' |
| Language.LanguageProvider.LoadSaved | context/LanguageContext.tsx:16-21 | a stored "vi"/"en" is adopted; anything else keeps the current language |
| Language.LanguageProvider.SetLanguage | context/LanguageContext.tsx:23-26 | the state and the persisted value change together; no other stored key moves |
| Language.LanguageProvider.Translate | context/LanguageContext.tsx:28-32 | `t` in the current language is non-empty for a non-empty key |
| AdModal.TickKeepsWellformed | components/AdModal.tsx:21-29 | a tick keeps timeLeft in 0..5, sets canSkip exactly at zero, and strictly lowers timeLeft |
| AdModal.TickOf | components/AdModal.tsx:21-29 | one interval callback: down by one above one second, otherwise zero with completing allowed and the interval cleared (its properties are TickKeepsWellformed and CountdownRun) |
| AdModal.CountdownRun | components/AdModal.tsx:11-30 | opened fresh, after n < 5 seconds the ad shows 5 - n left and cannot be completed; from the 5th tick on, timeLeft is 0, completing is allowed and the interval is gone |
| AdModal.RunFrom | components/AdModal.tsx:21-29 | the same run from any starting value 1..5 |
| AdModal.AdModal.constructor | components/AdModal.tsx:11-12 | the countdown starts at 5 with canSkip false |
| AdModal.AdModal.SetOpen | components/AdModal.tsx:14-33 | closing resets to (5, false) with no interval; opening starts the countdown; setting the same isOpen again changes nothing |
| AdModal.AdModal.Tick | components/AdModal.tsx:21-29 | above one second it counts down; at one second or less it lands on 0, sets canSkip and clears the interval |
| AdModal.AdModal.CompleteEnabled | components/AdModal.tsx:78-80 | complete is enabled exactly at zero, which happens only while open with the interval cleared |
| PremiumGuard.Render | components/PremiumGuard.tsx:17-21 | the content shows exactly when unlocked or the tool is free; otherwise the lock screen, with the modal following showAd |
| PremiumGuard.RenderCases | components/PremiumGuard.tsx:18-21 | a free tool always renders its content; a premium tool renders it exactly when unlocked |
| PremiumGuard.LockScreenNameIgnoresTool | components/PremiumGuard.tsx:29 | the lock screen's tool name is the same text for every tool, and is the tool's own name only when that equals the shared key's translation |
| PremiumGuard.PremiumGuard.constructor | components/PremiumGuard.tsx:13-14 | the gate starts locked with the ad hidden |
| PremiumGuard.PremiumGuard.View | components/PremiumGuard.tsx:17-37 | the gate shows the tool exactly when unlocked or free; otherwise the lock screen, with the modal open as showAd says |
| PremiumGuard.PremiumGuard.WatchAd | components/PremiumGuard.tsx:58-59 | the watch button opens the ad and unlocks nothing; an ad not yet open starts its countdown afresh, an ad already open keeps its clock |
| PremiumGuard.PremiumGuard.CloseAd | components/PremiumGuard.tsx:33-35 | cancel hides the ad and unlocks nothing; the ad's countdown is reset |
| PremiumGuard.PremiumGuard.AdTick | components/PremiumGuard.tsx:33-37 | the ad's interval ticks inside the open gate |
| PremiumGuard.PremiumGuard.CompleteAd | components/PremiumGuard.tsx:23-26 | completing, reachable only once the countdown allows it, hides the ad and unlocks, the ad's countdown is reset, and the content shows |
| PdfMerge.PdfOnly | pages/PdfMerge.tsx:16 | keeps exactly the application/pdf files of a selection, in order and each as often as it was selected; the selection survives whole exactly when every file is a PDF |
| PdfMerge.RemoveAt | pages/PdfMerge.tsx:27 | deletes exactly position `index`; an index outside the list changes nothing |
| PdfMerge.RemoveAtShape | pages/PdfMerge.tsx:27 | one file fewer, with the others in their relative order |
| PdfMerge.Swap | pages/PdfMerge.tsx:38 | exchanges two positions and leaves every other one |
| PdfMerge.SwapPermutes | pages/PdfMerge.tsx:35-38 | the swap is a permutation |
| PdfMerge.Moved | pages/PdfMerge.tsx:31-39 | the list after a move is a permutation of the original, and the same list for an edge move |
| PdfMerge.UpThenDown | pages/PdfMerge.tsx:31-39 | moving a file up and then back down restores the list |
| PdfMerge.PdfMergePage.constructor | pages/PdfMerge.tsx:8-10 | starts empty and idle, with no merged result |
| PdfMerge.PdfMergePage.FilesChange | pages/PdfMerge.tsx:13-24 | the selection's PDFs are appended after the listed files; the merged result is cleared and the status is idle; the alert fires exactly when some selected file is not a PDF; every listed file stays a PDF |
| PdfMerge.PdfMergePage.RemoveFile | pages/PdfMerge.tsx:26-29 | removes that position and clears the merged result |
| PdfMerge.PdfMergePage.MoveFile | pages/PdfMerge.tsx:31-41 | an edge move leaves everything, including the merged result; otherwise the two files are swapped in a copied array and the merged result is cleared |
| PdfMerge.PdfMergePage.MergeEnabled | pages/PdfMerge.tsx:167 | the merge button is enabled only with at least two files and no merge running; a merge started from it is never refused, and a finished merge leaves it enabled |
| PdfMerge.PdfMergePage.HandleMerge | pages/PdfMerge.tsx:43-60 | refused with nothing changed exactly when fewer than 2 files are listed, so never from an enabled button. Otherwise a success stores the URL and the success message, a failure stores the error's message, and the button is enabled again |
| WordCounter.Split | pages/WordCounter.tsx:16-20 | `split` on one-or-more separators: at least one piece, and no piece contains a separator |
| WordCounter.SplitCount | pages/WordCounter.tsx:16-20 | splitting makes one more piece than there are maximal runs of separators |
| WordCounter.TrimKeepsWords | pages/WordCounter.tsx:16 | trimming does not change the number of runs of non-whitespace |
| WordCounter.ReadTime | pages/WordCounter.tsx:21 | the least n with 200·n ≥ words |
| WordCounter.Analyze | pages/WordCounter.tsx:15-24 | blank text gives 0 words, paragraphs, sentences and read time; chars is the JavaScript length in UTF-16 code units, at least the number of characters; charsNoSpace ≤ chars |
| WordCounter.WordsAreRuns | pages/WordCounter.tsx:16 | words is the number of maximal runs of non-whitespace characters |
| WordCounter.SentencesAndParagraphs | pages/WordCounter.tsx:19-20 | for non-blank text, sentences counts runs of '.', '!', '?', and paragraphs is one more than the runs of line breaks in the untrimmed text |
| WordCounter.FilterSplitsLength | pages/WordCounter.tsx:17-18 | a class and its complement split the UTF-16 length of the text between them |
| WordCounter.CharsNoSpaceCounts | pages/WordCounter.tsx:17-18 | charsNoSpace is chars minus one per whitespace character; it is 0 for whitespace-only text and equals chars for text without whitespace |
| WordCounter.EmojiCountsTwo | pages/WordCounter.tsx:17-18 | an emoji outside the Basic Multilingual Plane counts 2 in both chars and charsNoSpace |
| JsText.Utf16Length | pages/WordCounter.tsx:17 | JavaScript `length`: between one and two units per character, and one per character exactly when every character is in the Basic Multilingual Plane |
| QrCode.WifiPayload | pages/QRCodeGenerator.tsx:31-36 | the WIFI payload is `WIFI:T:enc;S:ssid;P:password;;`, without the password field for nopass |
| QrCode.Payload | pages/QRCodeGenerator.tsx:29-37 | the text for the active tab: the input on LINK and TEXT, the WIFI payload on WIFI (see LinkAndTextVerbatim and WifiNeverBlank) |
| QrCode.LinkAndTextVerbatim | pages/QRCodeGenerator.tsx:29-30 | the LINK and TEXT tabs encode the input as typed |
| QrCode.NopassIgnoresPassword | pages/QRCodeGenerator.tsx:34-36 | with nopass, the password does not affect the payload |
| QrCode.WifiNeverBlank | pages/QRCodeGenerator.tsx:33-39 | the WIFI payload is never blank, so the WIFI tab always reaches the library |
| QrCode.WifiPayloadAmbiguous | pages/QRCodeGenerator.tsx:33 | without escaping, two different networks give the same payload |
| QrCode.WifiFieldsRoundTrip | pages/QRCodeGenerator.tsx:33-35 | when no field holds ';', cutting the payload at ';' gives back the encryption, the SSID and the password |
| QrCode.QrGenerator.constructor | pages/QRCodeGenerator.tsx:8-21 | LINK tab, input https://easyconvert.hub, WPA network, no image, no error |
| QrCode.QrGenerator.SelectTab | pages/QRCodeGenerator.tsx:93-105 | LINK sets the input to "https://", TEXT empties it, WIFI keeps it |
| QrCode.QrGenerator.SetInput | pages/QRCodeGenerator.tsx:120 | the input field's change handler |
| QrCode.QrGenerator.SetWifi | pages/QRCodeGenerator.tsx:134-155 | the network fields' change handlers |
| QrCode.QrGenerator.GenerateQR | pages/QRCodeGenerator.tsx:24-55 | the error is cleared first. A blank payload leaves the image. Otherwise the image becomes the library's URL, or the error becomes the fixed message when the library threw |
| PasswordGenerator.Pool | pages/PasswordGenerator.tsx:16-25 | the enabled classes concatenated, upper, lower, digits, symbols (see PoolContents and PoolSize) |
| PasswordGenerator.PoolContents | pages/PasswordGenerator.tsx:16-25 | a character is in the pool exactly when an enabled class holds it; the pool is empty exactly when no class is on |
| PasswordGenerator.PoolSize | pages/PasswordGenerator.tsx:16-25 | the pool has 26 + 26 + 10 + 29 characters for the enabled classes, 91 with all on |
| PasswordGenerator.PickIndex | pages/PasswordGenerator.tsx:31 | `floor(r·n)` for r in [0, 1) is a valid position in the pool |
| PasswordGenerator.DrawPassword | pages/PasswordGenerator.tsx:29-32 | the loop yields exactly `length` characters, each at the position its draw selects, and so each from the pool |
| PasswordGenerator.PasswordGeneratorPage.constructor | pages/PasswordGenerator.tsx:5-13 | length 16, every class on, no password, not copied |
| PasswordGenerator.PasswordGeneratorPage.SetLength | pages/PasswordGenerator.tsx:81-82 | the slider keeps the length in 6..50 |
| PasswordGenerator.PasswordGeneratorPage.Toggle | pages/PasswordGenerator.tsx:88-91 | each toggle flips exactly one option |
| PasswordGenerator.PasswordGeneratorPage.Generate | pages/PasswordGenerator.tsx:15-35 | with no class on, nothing changes; otherwise `length` characters drawn from the pool, and copied is reset |
| PasswordGenerator.PasswordGeneratorPage.Copy | pages/PasswordGenerator.tsx:42-44 | marks the password as copied |
| PasswordGenerator.PasswordGeneratorPage.CopyTimerFires | pages/PasswordGenerator.tsx:45 | two seconds later the mark is cleared |
| SpeechToText.ParseTwoDigits | pages/SpeechToText.tsx:92 | a padded number is a digit string of the same value, two characters below 100 and never cut |
| SpeechToText.FormatTime | pages/SpeechToText.tsx:89-93 | the display has at least five characters with the colon third from the end (fields read back in FormatTimeFields) |
| SpeechToText.FormatTimeFields | pages/SpeechToText.tsx:89-93 | the seconds field is s mod 60 (0..59) and the minutes field is s div 60, so minutes·60 + seconds = s. The text is 5 characters exactly when s < 6000 |
| SpeechToText.SpeechToTextPage.constructor | pages/SpeechToText.tsx:7-20 | no file, no transcript, idle, not recording |
| SpeechToText.SpeechToTextPage.FileChange | pages/SpeechToText.tsx:23-42 | a file over 20 MB is rejected with nothing changed. Any other file becomes the file to transcribe, and the transcript is cleared and the status is idle; its new URL runs the effect cleanup, which clears the recording interval, so a file chosen mid-recording freezes the clock while recording goes on |
| SpeechToText.SpeechToTextPage.StartRecording | pages/SpeechToText.tsx:44-79 | without the microphone nothing changes, recorder and interval included; with it, recording and its interval start at 0 s and drop the file and the transcript |
| SpeechToText.SpeechToTextPage.RecordingTick | pages/SpeechToText.tsx:71-73 | each second adds exactly one |
| SpeechToText.SpeechToTextPage.StopRecording | pages/SpeechToText.tsx:81-87 | recording and its interval stop |
| SpeechToText.SpeechToTextPage.RecorderStopped | pages/SpeechToText.tsx:55-60 | the recording becomes recording.webm of type audio/webm, and its new URL runs the same effect cleanup |
| SpeechToText.SpeechToTextPage.TranscribeEnabled | pages/SpeechToText.tsx:265 | transcribe is enabled exactly with a file, not processing, and not recording; the corrected HandleTranscribe leaves it enabled when not recording |
| SpeechToText.SpeechToTextPage.HandleTranscribe | pages/SpeechToText.tsx:95-119 | with no file, nothing happens. Otherwise a success stores the transcript, and on every path the status leaves processing, so the button is enabled again when not recording (the corrected handling; see Findings) |
| SpeechToText.TranscribedAsWritten | pages/SpeechToText.tsx:100-115 | the status as written: a failure stays processing; a success agrees with the intended handling |
| SpeechToText.AsWrittenFailureDisablesButton | pages/SpeechToText.tsx:265 | after a failure as written, the transcribe button is disabled |
| SpeechToText.AsWrittenFailureSticks | pages/SpeechToText.tsx:100-118 | as written, a failure leaves the status processing, where the intended handling gives error; on success the two agree |
| SpeechToText.Transcribed | pages/SpeechToText.tsx:116-118 | the intended final status is never processing; a failure gives error with the message or 'Có lỗi xảy ra.' |
| VideoConverter.Round | pages/VideoConverter.tsx:73 | `Math.round`: the nearest integer, halves up |
| VideoConverter.RoundMonotone | pages/VideoConverter.tsx:73 | rounding is monotone and keeps 0..100 in 0..100 |
| VideoConverter.Band | pages/VideoConverter.tsx:76-80 | below 30 uploading, below 60 converting to the upper-cased format, below 90 optimising, otherwise creating the link |
| VideoConverter.BeforeFirstDot | pages/VideoConverter.tsx:92 | the prefix before the first '.', and all of the name when there is none |
| VideoConverter.DownloadName | pages/VideoConverter.tsx:92 | the name the original file is saved under (its shape is DownloadNameShape) |
| VideoConverter.DownloadNameShape | pages/VideoConverter.tsx:92 | the download name is "converted_" + the name before its first '.' + "." + format |
| VideoConverter.VideoConverterPage.constructor | pages/VideoConverter.tsx:19-27 | mp4, 720, not muted, idle, progress 0 |
| VideoConverter.VideoConverterPage.FileChange | pages/VideoConverter.tsx:38-53 | a file over 100 MB is rejected with nothing changed; an accepted file resets the status to idle and progress to 0 |
| VideoConverter.VideoConverterPage.SetFormat | pages/VideoConverter.tsx:171 | picks one of the four formats |
| VideoConverter.VideoConverterPage.SetResolution | pages/VideoConverter.tsx:186-191 | the resolution select exists only for mp4 and avi and sets one of 1080, 720 and 480 |
| VideoConverter.VideoConverterPage.HandleConvert | pages/VideoConverter.tsx:55-66 | without a file nothing happens; otherwise processing starts at 0 with the start message and captures the format |
| VideoConverter.VideoConverterPage.Tick | pages/VideoConverter.tsx:66-84 | a value past 100 is clamped, the loop stops and the status is success; otherwise the display is the rounded value and the message follows its band; the display never goes down or past 100 |
| VideoConverter.VideoConverterPage.DownloadTarget | pages/VideoConverter.tsx:87-96 | a download exists exactly with a file, named as DownloadNameShape says |
| BookmarkPopup.Popup.constructor | components/BookmarkPopup.tsx:5-13 | starts hidden; the timer is set exactly when the stored flag is missing or empty |
| BookmarkPopup.Popup.TimerFires | components/BookmarkPopup.tsx:10 | the timer shows the popup |
| BookmarkPopup.Popup.Unmount | components/BookmarkPopup.tsx:11 | unmounting clears the pending timer |
| BookmarkPopup.Popup.Dismiss | components/BookmarkPopup.tsx:15-18 | hides the popup and stores 'true' under hasSeenBookmarkPopup, with no other key changed |
| BookmarkPopup.RemountAfterDismiss | components/BookmarkPopup.tsx:7-18 | after a dismissal, a later mount over the same storage never schedules or shows the popup |

## Left out

- Browser storage and JSON are an in-memory `seq`/`map`. A record that fails to parse is not
  modelled, so `refreshProfile`'s `catch` branch is the `Threw` case of `AuthContext.AfterRefresh`
  only.
- `mockDelay` and the timers are not modelled as scheduling: each interval or timeout firing is a
  method of its own, and each backend call is one atomic step. Interleavings and double
  submissions are left out.
- Dates are integer milliseconds, with `now` a parameter. One day is 86 400 000 ms; `setDate`'s
  daylight-saving shifts and the ISO string format are not modelled.
- The user record keeps the backend's `vipExpiry`; the `vipUntil` field of the type declaration
  is never written by the code and is not modelled.
- Foreign libraries and APIs are not modelled: pdf-lib, the QR library, the Gemini service,
  MediaRecorder, FileReader and the clipboard. Their answers are parameters.
- `alert`, `confirm`, navigation, rendering and styling are not modelled. Confirm results are
  booleans, and the QR colour and margin settings are left out.
- JavaScript `number` amounts, balances, prices and durations are modelled as `int`, so
  fractional, NaN and infinite values are not captured. No reachable path produces one: the
  top-up packages and plan prices are integer constants.
- Lower- and upper-casing is ASCII only; Unicode case mapping is not modelled.
- The translation dictionaries are abstract maps; their contents are not part of this model.
- VideoConverter.VideoConverterPage.FileChange: requires that no conversion is running. While one
  runs the file input is hidden (VideoConverter.tsx:112). It comes back only through the
  "Chọn video khác" button (VideoConverter.tsx:149), which is not modelled and clears the file. A
  file chosen then resets the status to idle, but the old interval keeps going: it goes on writing
  `progress` and messages under the idle status, and finally sets success. That interleaving is
  not modelled.
- VideoConverter.VideoConverterPage.HandleConvert: requires that no conversion is running, for the
  same reason; the convert button is shown only in the idle state.
- PdfMerge.PdfMergePage.HandleMerge: the intermediate 'processing' state is overwritten within the
  same step, so the disabled button during a merge is not observable in the model.
- SpeechToText.SpeechToTextPage.HandleTranscribe: models the corrected status handling (see
  Findings); the intermediate 'processing' state is not observable.
- The preview and cancel buttons that clear the selected file on the speech and video pages
  are not modelled.
- Pages whose substance is a foreign call or pure UI are not part of this model: the background
  remover, OCR, AI writer, summariser, text-to-speech, PDF-to-Excel, image converter, PDF tool,
  coming-soon, profile and auth pages, and the tool card. The same goes for the percentage
  calculator, whose substance is floating-point formatting.
- The pay-per-use price, transaction logs and a VIP bypass of the ad gate do not exist in the
  code and are not modelled.

## Findings

| source | as written | input that shows it | evidently intended | confidence | as-written member | corrected member |
|---|---|---|---|---|---|---|
| pages/Home.tsx:22-23 | the search text is the translation of 'tool.' + tool.translationKey + '.name', or else tool.name, but no tool has a `translationKey`, so every tool is searched under the shared key `tool.undefined.name`/`.desc`; `t` returns the non-empty key itself, so the fall-back to tool.name never fires | the search "word" with a dictionary lacking the `tool.undefined.*` keys lists nothing, though 'PDF sang Word Pro' contains "word" | search each tool's own (translated) name and description | not executed | Home.AsWrittenMissesPdfWord | Home.FilteredTools |
| pages/SpeechToText.tsx:100-118 | the `try`/`catch` only covers registering the reader's callbacks; an error thrown in `onerror`, or by the speech service inside the async `onload`, is never caught | a file read that fails (or a service error) leaves the status 'processing', so the transcribe button stays disabled until another file is chosen | the `catch` branch's error state with the error's message or 'Có lỗi xảy ra.' | not executed | SpeechToText.AsWrittenFailureDisablesButton | SpeechToText.Transcribed |
