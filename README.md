# DeenGPT client core in Dafny

DeenGPT is a single-page web client for Muslim users. It has an AI chat
backed by Google's Gemini models, a prayer-times widget with a countdown to
the next prayer, a hadith browser, a Quran reader with recitation audio, a
Zakat calculator, a wallpaper studio and a mock sign-in form. Most of the
client is fetch calls and rendering. This project models the deterministic
logic inside it and proves what that logic promises:

- the prayer schedule and its "next prayer" mark, the countdown text and the
  progress bar (`PrayerTimes`);
- the hadith drill-down, its grade list and its search filter
  (`HadithReader`);
- the decisions the Gemini service makes: the error message chosen for a
  failure, the model and tools chosen for a chat, the request history, the
  image inside a reply (`GeminiService`);
- the Zakat rule (`Zakat`);
- the wallpaper gallery, the verse prompt and the verse merge
  (`WallpaperStudio`);
- the Quran reader's edition merge, its Bismillah rule and its playback
  state (`QuranReader`);
- the application shell's screens, sign-in state and tool launches (`App`);
- the chat transcript (`ChatInterface`);
- the mock user the sign-in form builds (`AuthForm`).

Shared types from `types.ts` live in `Types`. String helpers with the
JavaScript meaning of `split`, `indexOf`, `trim`, `padStart` and
`toLowerCase`, and a replacement of the first occurrence of a text, live in
`Text`. `Wrappers` holds `Option`, and `Seqs` holds
the subsequence relation.

Components that hold React state become classes. Their fields are the
state, and their methods are the handlers. A network reply, a clock reading
or "today's midnight" is passed to a handler as a parameter. Instants are
integers in milliseconds, and a day is 86 400 000 ms. Percentages and
amounts of money are `real`.

Where the code and its description disagree, the model follows the code:

- When Fajr is the next prayer, the previous reference instant stays at now
  minus 24 hours. It is not yesterday's Isha.
- The one-second tick does not reduce the hours mod 24, while `updateTimer`
  does.
- The dashboard is drawn whether or not anyone is signed in.
- Every chat's back button leads to the dashboard, even for a chat opened
  from a hub.
- The typed name is used even in sign-in mode. The field is hidden there but
  keeps what was typed in sign-up mode.
- A status of 503 never yields the 503 text. The test for 500 and above
  comes first, so the 503 text is reachable only through the message.
- `ChatInterface`'s `catch` never fires, because the service turns every
  error into a reply text. A failure therefore appends the friendly text as
  the model's message.

## Model

| member | source | states |
|---|---|---|
| PrayerTimes.Toggled | components/PrayerTimes.tsx:38-43 | the named reminder flips, a missing key counting as off; every other key keeps its value; the keys grow by the name only |
| PrayerTimes.ToggleTwiceRestores | components/PrayerTimes.tsx:38-43 | toggling the same reminder twice leaves every reminder as it was |
| PrayerTimes.PrayerTimesView.ToggleReminder | components/PrayerTimes.tsx:38-43 | the reminder map becomes the toggled map |
| PrayerTimes.HourTextOfClockHour | components/PrayerTimes.tsx:48-49 | hours 0 and 12 read "12", 13-23 read h-12, 1-11 read h unpadded; AM before noon, PM from noon |
| PrayerTimes.To12HourOfClock | components/PrayerTimes.tsx:45-51 | for every hour below 24, the 12-hour text is hour text, the minutes verbatim, then AM or PM, per the four hour ranges |
| PrayerTimes.To12HourAfterMidnight | components/PrayerTimes.tsx:45-51 | "00:30" reads "12:30 AM" |
| PrayerTimes.To12HourAfternoon | components/PrayerTimes.tsx:45-51 | "13:05" reads "1:05 PM", with no zero padding |
| PrayerTimes.ParseClockOfDigits | components/PrayerTimes.tsx:101 | a digits-colon-digits timing parses to its hour and minute values |
| PrayerTimes.ScannedStep | components/PrayerTimes.tsx:99-135 | one step of the scan keeps the scan invariant: at most one prayer marked, the first one strictly after now, and the previous reference set from the prayer before it |
| PrayerTimes.ScanPrayer | components/PrayerTimes.tsx:99-135 | one prayer of the scan: it fails exactly when the timing does not parse; else the entry is marked exactly when nothing is marked yet and it lies strictly after now, and the found flag, next prayer and previous instant are updated as the code does |
| PrayerTimes.BuildSchedule | components/PrayerTimes.tsx:92-151 | the loop with its mutable flags and the wrap-around fix-up yields exactly the specification schedule |
| PrayerTimes.ScheduleOfFails | components/PrayerTimes.tsx:101-104 | one timing that does not parse leaves no schedule |
| PrayerTimes.ScheduleListsFivePrayers | components/PrayerTimes.tsx:99-135 | a schedule exists exactly when all five timings parse; it lists Fajr to Isha in order with their times and 12-hour texts |
| PrayerTimes.ScheduleHasOneNext | components/PrayerTimes.tsx:106-146 | exactly one entry is marked next, and it is the schedule's next prayer |
| PrayerTimes.ScheduleNextIsFirstAhead | components/PrayerTimes.tsx:95-126 | when some prayer is strictly after now, the first such prayer is next, the only one marked, every instant is today's, and the previous reference is the prayer before it, or now minus a day for Fajr |
| PrayerTimes.ScheduleWrapsToTomorrowsFajr | components/PrayerTimes.tsx:138-151 | when no prayer is after now, Fajr is next and moved forward exactly one day, the previous reference is today's Isha, and the other four entries are unchanged and unmarked |
| PrayerTimes.ScheduleBracketsNow | components/PrayerTimes.tsx:95-151 | for a now within today, the previous reference is at or before now and the next prayer strictly after it |
| PrayerTimes.CountdownReadsBack | components/PrayerTimes.tsx:219-225 | the countdown is 8 characters of three padded fields, with hours below 24 and minutes and seconds below 60, that add up to the difference mod a day less its milliseconds |
| PrayerTimes.ClockTextReadsBack | components/PrayerTimes.tsx:223-224 | three fields below 100, each padded to two digits, read back as the same three numbers |
| PrayerTimes.Clamp | components/PrayerTimes.tsx:230 | the progress is clamped into 0..100 and passed through unchanged inside it |
| PrayerTimes.Percent | components/PrayerTimes.tsx:228-230 | the progress of a next prayer still ahead lies in 0..100 |
| PrayerTimes.TimerOf | components/PrayerTimes.tsx:212-231 | progress is always in 0..100; when the next prayer is not ahead, the reading is "00:00:00" at 100 |
| PrayerTimes.ProgressIsElapsedShare | components/PrayerTimes.tsx:228-231 | between the previous reference and the next prayer, progress is the elapsed share times 100, below 100, and 0 at the start |
| PrayerTimes.ProgressMonotone | components/PrayerTimes.tsx:228-231 | progress never decreases as now advances, and it is 100 once the next prayer is reached |
| PrayerTimes.PrayerTimesView.UpdateTimer | components/PrayerTimes.tsx:202-232 | sets the day position, the countdown and the progress of the timer reading |
| PrayerTimes.TickAgreesWithTimerWithinADay | components/PrayerTimes.tsx:245-254 | less than a day ahead, the tick text equals the timer's countdown; at zero difference it reads "00:00:00" |
| PrayerTimes.TickHoursNotWrapped | components/PrayerTimes.tsx:245-254 | the tick reads "Now" exactly when the difference is negative; otherwise its hours field is the whole hours, not reduced mod 24 |
| PrayerTimes.TickBeyondADay | components/PrayerTimes.tsx:249-253 | 25 hours ahead, the tick reads "25:00:00" |
| PrayerTimes.TimerBeyondADay | components/PrayerTimes.tsx:219-224 | 25 hours ahead, the timer reads "01:00:00" |
| PrayerTimes.PrayerTimesView.Tick | components/PrayerTimes.tsx:234-257 | without a next prayer nothing changes; otherwise only the day position and the tick text change, never the progress |
| PrayerTimes.DayPosition | components/PrayerTimes.tsx:208-209 | the now marker lies in 0..100, below 100 |
| PrayerTimes.PrayerDotMatchesNowMarker | components/PrayerTimes.tsx:284-288 | a prayer's dot sits where the now marker sits at that prayer's instant |
| PrayerTimes.LocationLabelOfTimezone | components/PrayerTimes.tsx:86-90 | without a manual name, the label is the segment after the first '/' with its first '_' made a space, or the whole timezone when that segment is empty |
| PrayerTimes.LocationLabelWithoutSlash | components/PrayerTimes.tsx:86-90 | a timezone without '/' is its own label, also when the manual name is empty |
| PrayerTimes.LocationLabelExample | components/PrayerTimes.tsx:89 | "Asia/Ho_Chi_Minh" is labelled "Ho Chi_Minh": only the first underscore is replaced |
| PrayerTimes.PrayerTimesView.constructor | components/PrayerTimes.tsx:19-31 | the widget starts loading, "Locating...", with no reminders, no next prayer and zero progress |
| PrayerTimes.PrayerTimesView.ShowMeta | components/PrayerTimes.tsx:83-90 | the Hijri date is day, month and year joined by spaces; the location label follows the manual name or the timezone rule |
| PrayerTimes.PrayerTimesView.ShowSchedule | components/PrayerTimes.tsx:153-160 | the widget shows the schedule, remembers its next prayer and starts the timer from the previous reference |
| PrayerTimes.PrayerTimesView.ReportFailure | components/PrayerTimes.tsx:166-171 | the error text is set; the label becomes "Default Location" only when it was empty or still "Locating..." |
| PrayerTimes.PrayerTimesView.ApplyTimings | components/PrayerTimes.tsx:78-175 | a built schedule updates date, label, schedule and timer; otherwise only the failure is reported; loading ends either way |
| PrayerTimes.PrayerTimesView.FetchPrayerTimes | components/PrayerTimes.tsx:65-176 | a whole fetch applies the schedule built from the reply, or reports the failure |
| HadithReader.CleanSections | components/HadithReader.tsx:63-66 | the sections are an order-keeping subsequence of the entries that holds exactly the entries with an id other than "0" and a non-empty title, each kept entry as often as it occurs |
| HadithReader.CleanSectionsIdempotent | components/HadithReader.tsx:63-66 | cleaning a cleaned list changes nothing |
| HadithReader.GradeNamesMembers | components/HadithReader.tsx:121 | a string is among one hadith's grade names exactly when some grade entry carries it |
| HadithReader.GradeSetMembers | components/HadithReader.tsx:119-122 | a string is in the grade set exactly when some grade entry of some loaded hadith carries it |
| HadithReader.StrictlySortedDistinct | components/HadithReader.tsx:123 | a strictly sorted list has no duplicates |
| HadithReader.Insert | components/HadithReader.tsx:123 | inserting a new string keeps the list strictly sorted and adds exactly that string |
| HadithReader.SortedList | components/HadithReader.tsx:123 | a set becomes a strictly sorted list of exactly its members |
| HadithReader.AvailableGrades | components/HadithReader.tsx:118-124 | the grade list is strictly sorted and holds exactly the grades that occur in the loaded hadiths |
| HadithReader.Filtered | components/HadithReader.tsx:127-137 | the visible hadiths are an order-keeping subsequence that holds exactly the hadiths matching the search and the grade, each matching hadith as often as it occurs in the list |
| HadithReader.UnfilteredIsIdentity | components/HadithReader.tsx:127-137 | an empty search with grade "All" shows every hadith in order |
| HadithReader.UngradedHiddenByGrade | components/HadithReader.tsx:130-133 | a hadith without grades never matches a specific grade |
| HadithReader.FilteredGradeIsAvailable | components/HadithReader.tsx:118-137 | a specific grade that shows any hadith is among the available grades |
| HadithReader.HadithReaderView.constructor | components/HadithReader.tsx:43-52 | nothing is selected or loaded; search is empty and the grade is "All" |
| HadithReader.HadithReaderView.CollectionClick | components/HadithReader.tsx:92-97 | the collection is selected, the section and hadiths are cleared and the section request starts; search and grade are kept |
| HadithReader.HadithReaderView.SectionsArrived | components/HadithReader.tsx:54-74 | an object reply sets the cleaned sections; a non-object leaves them; a failure sets the error; loading ends |
| HadithReader.HadithReaderView.SectionClick | components/HadithReader.tsx:99-106 | without a selected collection nothing changes; otherwise the section is set, search reset to "" and grade to "All", and the hadith request starts |
| HadithReader.HadithReaderView.HadithsArrived | components/HadithReader.tsx:76-90 | a reply with hadiths sets them; one without leaves them; a failure sets the error; loading ends |
| HadithReader.HadithReaderView.ResetSelection | components/HadithReader.tsx:108-115 | collection, section, sections, hadiths, search and grade are all reset |
| HadithReader.HadithReaderView.BackToSections | components/HadithReader.tsx:154 | the breadcrumb back to the collection clears the section and the hadiths |
| HadithReader.HadithReaderView.BackToCollections | components/HadithReader.tsx:208 | the section list's back button clears only the selected collection; the sections and everything else stay |
| HadithReader.HadithReaderView.BackFromHadiths | components/HadithReader.tsx:235 | the hadith list's back button clears only the selected section; the hadiths, the search and the grade stay |
| GeminiService.FriendlyMessage | services/geminiService.ts:11-41 | the ordered chain of tests on status and message always ends in one of nine fixed texts |
| GeminiService.UnavailableOnlyThroughMessage | services/geminiService.ts:15-35 | the 503 text comes only from a message naming 503 or SERVICE_UNAVAILABLE, with no status of 500 or more and none of the earlier statuses |
| GeminiService.Status503GivesServerText | services/geminiService.ts:30-34 | a status of 503 never yields the 503 text or the generic one |
| GeminiService.SelectModel | services/geminiService.ts:67-79 | a positive thinking budget picks the pro model with that budget and no tools; else search picks flash with one search tool; else the named model or flash; never tools and a budget together |
| GeminiService.HistoryContents | services/geminiService.ts:88-91 | the history keeps length, order and role, with the text as the one part of each message |
| GeminiService.HistoryRoundTrip | services/geminiService.ts:88-91 | reading a role and text back from the mapped history gives the original history |
| GeminiService.SystemInstructionOf | services/geminiService.ts:84 | a non-empty configured instruction is used, else the default |
| GeminiService.ReplyText | services/geminiService.ts:98-104 | the reply is never empty: the model's text when non-empty, the fixed apology when empty, and the friendly text the chain picks for the error when the call threw |
| GeminiService.ApologyOnlyFromReply | services/geminiService.ts:98-104 | the apology is none of the error texts, so a reply reading as the apology came from a model answer, not from a thrown error |
| GeminiService.SendMessage | services/geminiService.ts:58-105 | the request carries the mapped history, the new message text, the instruction, the pro model when thinking, else flash when searching, else the named model or flash; the search tool exactly when search is chosen; the configured budget exactly when thinking is chosen; the reply is the reply text |
| GeminiService.FirstInline | services/geminiService.ts:130-134 | the index found holds inline data and every part before it holds none; no index means no part holds any |
| GeminiService.FirstInlineIs | services/geminiService.ts:130-134 | the first part with inline data is the one found |
| GeminiService.FirstInlineNone | services/geminiService.ts:130-134 | no part with inline data means nothing is found |
| GeminiService.ExtractImage | services/geminiService.ts:129-136 | the result is the first inline part of the first candidate behind the PNG data-URL prefix, or none; generateImage uses the same loop at 164-171 |
| GeminiService.VideoPrompt | services/geminiService.ts:185 | the video prompt is never empty: the user's prompt when that is non-empty, else "Animate this image." |
| GeminiService.Base64PayloadOfDataUrl | services/geminiService.ts:50 | the payload after the first comma of a data URL is kept |
| Zakat.NetWorth | components/ZakatCalculator.tsx:19-20 | net worth is the total less liabilities, floored at 0 |
| Zakat.ZakatDue | components/ZakatCalculator.tsx:22-28 | below the 5000 threshold nothing is due; from it, 2.5% of net worth; always between 0 and net worth |
| Zakat.ZakatDueMonotone | components/ZakatCalculator.tsx:19-28 | more net worth never means less Zakat |
| Zakat.ZakatDueJumpsAtThreshold | components/ZakatCalculator.tsx:22-26 | just below the threshold nothing is due; at it, 125 |
| Zakat.DebtsCancelZakat | components/ZakatCalculator.tsx:19-28 | liabilities covering all assets mean nothing is due |
| Zakat.ParseAmount | components/ZakatCalculator.tsx:32 | a parsed amount is never negative |
| Zakat.ParseAmountOfNonNumber | components/ZakatCalculator.tsx:32 | text starting with neither a digit nor a point and a digit is stored as 0 |
| Zakat.ParseAmountOfNat | components/ZakatCalculator.tsx:32 | a written whole number parses to its value |
| Zakat.ParseAmountOfDecimal | components/ZakatCalculator.tsx:32 | digits, a point and digits parse to the whole part plus the fraction |
| Zakat.WithFieldChangesOnlyIt | components/ZakatCalculator.tsx:33 | an edit sets the named field and keeps every other |
| Zakat.ZakatForm.constructor | components/ZakatCalculator.tsx:9-16 | all four amounts start at 0 with no result |
| Zakat.ZakatForm.InputChange | components/ZakatCalculator.tsx:31-35 | the named field takes the parsed amount and the result is cleared |
| Zakat.ZakatForm.Calculate | components/ZakatCalculator.tsx:18-29 | the result is the Zakat due on net worth |
| WallpaperStudio.Gallery | components/WallpaperStudio.tsx:49-63 | the gallery is the six samples in order followed by the generated entries, 108 in all |
| WallpaperStudio.GeneratedIdReadsBack | components/WallpaperStudio.tsx:51 | generated entry i has the id "gen-" followed by the digits of i |
| WallpaperStudio.GeneratedIdsDistinct | components/WallpaperStudio.tsx:51 | different generated entries have different ids |
| WallpaperStudio.SampleIdsDistinct | components/WallpaperStudio.tsx:22-29 | the sample ids are distinct and start with 's' |
| WallpaperStudio.GalleryIdsDistinct | components/WallpaperStudio.tsx:22-63 | all 108 gallery ids are distinct |
| WallpaperStudio.PromptWithVerse | components/WallpaperStudio.tsx:104-107 | the old prompt is a prefix of the new one, which adds a blank line only after a non-blank prompt, then the verse lead and the verse |
| WallpaperStudio.PromptEndsWithVerse | components/WallpaperStudio.tsx:104-107 | the new prompt ends with the verse text, with exactly the separator and the lead between old prompt and verse |
| WallpaperStudio.MergeTranslations | components/WallpaperStudio.tsx:88-91 | the merge succeeds exactly when the English list is long enough; it has the Arabic length and each ayah gets the English text at its index |
| WallpaperStudio.MergeKeepsArabic | components/WallpaperStudio.tsx:88-91 | a merged ayah keeps the Arabic text and numbers and shows the English translation |
| WallpaperStudio.AyahsFrom | components/WallpaperStudio.tsx:85-92 | ayahs come only from a reply with code 200 and exactly two editions; such a reply yields them exactly when the English list is long enough, one per Arabic ayah with the English text at its index as translation |
| WallpaperStudio.WallpaperStudioView.constructor | components/WallpaperStudio.tsx:33-45 | empty prompt, no image, no error, selector closed, no surah, no ayahs |
| WallpaperStudio.WallpaperStudioView.SurahSelect | components/WallpaperStudio.tsx:78-99 | the surah is selected and verse loading ends; ayahs change only when the reply yields them |
| WallpaperStudio.WallpaperStudioView.VerseSelect | components/WallpaperStudio.tsx:101-111 | without a selected surah nothing changes; otherwise the prompt gains the verse, the selector closes, the surah and the ayahs are cleared |
| WallpaperStudio.WallpaperStudioView.ShowOutcome | components/WallpaperStudio.tsx:130-137 | an image is shown with no error; no image or a failure shows its error text with no image |
| WallpaperStudio.WallpaperStudioView.Generate | components/WallpaperStudio.tsx:113-141 | a blank prompt changes nothing; otherwise the outcome is shown and loading ends |
| QuranReader.OpenedWithBismillahCount | components/QuranReader.tsx:212 | among the surahs numbered 1 to k, all but the first and the ninth open with the Bismillah |
| QuranReader.BismillahOpensAllButTwo | components/QuranReader.tsx:212 | 112 of the 114 surahs open with the Bismillah, and surahs 1 and 9 do not |
| QuranReader.MergeEditions | components/QuranReader.tsx:81-87 | the merge succeeds exactly when translation and audio lists are long enough; it has the Arabic length with the index-aligned fields of the three editions |
| QuranReader.ContentOf | components/QuranReader.tsx:71-97 | a failed request gives the fetch error; a code other than 200 or an edition count other than 3 gives the content error; three editions give the index-aligned verses when translation and audio are long enough, else the fetch error |
| QuranReader.QuranReaderView.constructor | components/QuranReader.tsx:26-35 | the reader starts loading the list, with nothing selected, playing or held |
| QuranReader.QuranReaderView.SurahListArrived | components/QuranReader.tsx:39-49 | code 200 sets the list; another code or a failure sets its error text; loading ends |
| QuranReader.QuranReaderView.ReleaseAudio | components/QuranReader.tsx:65-68 | a held audio element is paused and dropped |
| QuranReader.QuranReaderView.SurahClick | components/QuranReader.tsx:59-103 | the surah is selected; verses, audio and the playing mark are cleared before the reply, which then sets the verses or the error |
| QuranReader.QuranReaderView.TogglePlay | components/QuranReader.tsx:105-123 | the playing verse pauses and is unmarked; any other verse pauses the old element and plays a new one on its URL, and is marked |
| QuranReader.QuranReaderView.AudioEnded | components/QuranReader.tsx:118 | the end of the recitation unmarks the playing verse |
| QuranReader.QuranReaderView.Unmount | components/QuranReader.tsx:51-56 | leaving the reader pauses and drops the audio element |
| App.LifestyleLaunch | App.tsx:35-74 | exactly the offered lifestyle tools are handled: "zakat" opens the Zakat screen, every other one a searching, non-thinking chat whose id is the tool id |
| App.LearningLaunch | App.tsx:76-118 | exactly the five learning tools are handled: the two readers are screens, the three chats carry the ids history, hadith and linguistics |
| App.Screen | App.tsx:238-406 | a signed-in user sees the current screen; without one only the landing page, the dashboard and the sign-in overlay are drawn |
| App.BackTarget | App.tsx:238-406 | only the landing page and the dashboard have no back button; the sign-in overlay alone leads to the landing page; every other screen leads to the dashboard or a hub |
| App.BackReturnsToLifestyleHub | App.tsx:402-405 | a screen opened from the Lifestyle Hub leads back to it |
| App.BackReturnsToLearningHub | App.tsx:372-391 | a screen opened from the Learning Hub leads back to it |
| App.FeatureBackToDashboard | App.tsx:149-228 | every dashboard card opens a screen whose back button leads to the dashboard |
| App.FeatureChatsModelAsSelected | App.tsx:157-226 | the dashboard's chats think, and the model they name is the one the service picks |
| App.QaWelcomeGreetsUser | App.tsx:157-164 | the Q&A chat's welcome greets the user by name |
| App.AppState.constructor | App.tsx:16-18 | the shell starts on the landing page with nobody signed in and no chat |
| App.AppState.Login | App.tsx:20-23 | the user is set and the dashboard shown |
| App.AppState.SignOut | App.tsx:25-28 | the user is cleared and the landing page shown |
| App.AppState.LaunchChat | App.tsx:30-33 | the configuration is stored and the chat shown |
| App.AppState.LifestyleToolLaunch | App.tsx:35-74 | an unknown tool changes nothing; a known one ends on its launch; signed-in state is kept |
| App.AppState.LearningToolLaunch | App.tsx:76-118 | an unknown tool changes nothing; a known one ends on its launch; signed-in state is kept |
| App.AppState.FeatureClick | App.tsx:319-331 | a dashboard card ends on its launch |
| App.AppState.OpenAuth | App.tsx:306-309 | on the landing page every card opens the sign-in overlay |
| App.AppState.LogoClick | App.tsx:246 | the logo leads to the dashboard when signed in, else to the landing page |
| App.AppState.Back | App.tsx:334-406 | a back button leads to that screen's back target, keeping the signed-in state |
| ChatInterface.WelcomeText | components/ChatInterface.tsx:20-22 | the first placeholder is replaced by the name with the text around it kept; a text without one is kept; an absent or empty text gives the default greeting; the name appears whenever asked for |
| ChatInterface.SendAllowed | components/ChatInterface.tsx:43 | sending is allowed exactly when the input is not blank and no reply is pending |
| ChatInterface.TurnsOf | components/ChatInterface.tsx:57 | the history keeps length, order, role and text of every message |
| ChatInterface.MessageIdsDistinct | components/ChatInterface.tsx:46-62 | the reply's id differs from the id of the message it answers |
| ChatInterface.AppendAlternating | components/ChatInterface.tsx:52-67 | a message from the other side keeps the transcript alternating |
| ChatInterface.ChatView.constructor | components/ChatInterface.tsx:13-15 | the chat starts empty, with no input and nothing pending |
| ChatInterface.ChatView.Welcome | components/ChatInterface.tsx:18-32 | the transcript becomes the one welcome message with id "welcome" |
| ChatInterface.ChatView.Send | components/ChatInterface.tsx:42-57 | a refused send changes nothing; otherwise the untrimmed input is appended as the user's message, the input cleared, the reply awaited, and the earlier transcript is the history |
| ChatInterface.ChatView.ReplyArrived | components/ChatInterface.tsx:59-72 | the reply is appended after the user's message and loading ends |
| ChatInterface.ChatView.HandleSend | components/ChatInterface.tsx:42-73 | a refused send changes nothing; otherwise exactly the user's message and then the reply text are appended, loading ends, and the request carries the earlier transcript and asks exactly the untrimmed input |
| AuthForm.MockUser | components/AuthForm.tsx:24-28 | the id is "123" and the email verbatim; the name is the typed one, or the email before its first '@', or the whole email without one |
| AuthForm.LocalPartIsName | components/AuthForm.tsx:26 | without a name, local@domain signs in as local |
| AuthForm.AuthFormView.constructor | components/AuthForm.tsx:11-15 | the form starts in sign-in mode, not loading, with empty fields and nothing submitted |
| AuthForm.AuthFormView.ToggleMode | components/AuthForm.tsx:110 | the mode link flips between sign-in and sign-up |
| AuthForm.AuthFormView.Submit | components/AuthForm.tsx:17-22 | submitting sets loading and captures the name and email the delayed completion will use |
| AuthForm.AuthFormView.Complete | components/AuthForm.tsx:22-28 | the end of the delay clears loading and hands over the mock user of the name and email captured at submit, whatever was typed since |

## Left out

- Network I/O: the prayer-timings, geocoding and qibla requests, alquran.cloud, the hadith CDN and every Gemini SDK call. Their replies are parameters of the handlers.
- Clocks and timers: `new Date()`, `setInterval` and `setTimeout`. Each handler takes the instants it reads as parameters, so the 1500 ms sign-in delay is only the split between Submit and Complete.
- The `Date` and timezone library: `setHours`, daylight-saving gaps and locale formatting. Today's midnight is a parameter, and a day is always 86 400 000 ms.
- Floating point: percentages and money are exact `real`. NaN and Infinity do not arise, because the progress is only computed while the next prayer is ahead.
- PrayerTimes.ParseClock: a timing that is not digits, a colon and digits is treated as a failed fetch. The code would build an invalid date instead.
- Zakat.ParseAmount: `parseFloat` is reduced to unsigned decimals. A sign, leading white space or the word `Infinity` parses as 0, so negative amounts are not modelled. An exponent is ignored, so "1e3" is stored as 1 where the browser stores 1000.
- Text.ReplaceFirst: the replacement is inserted verbatim. The `$&`, `$$`, `` $` `` and `$'` patterns that JavaScript's `replace` interprets in a replacement string are not modelled.
- ChatInterface.WelcomeText: a user name holding one of those `$` patterns is modelled as inserted verbatim, while the browser would expand it.
- Text.ToLower: JavaScript's Unicode lower-casing is reduced to ASCII.
- HadithReader.SortedList: the UTF-16 code-unit order of `sort` is modelled as the lexicographic order on characters.
- HadithReader.CleanSections: the entries are taken in the order `Object.entries` gives. Its integer-key-first ordering is not modelled.
- WallpaperStudio's surah-list effect (components/WallpaperStudio.tsx:65-76) only stores a fetched list.
- The `window.aistudio` key check in `handleGenerate` (components/WallpaperStudio.tsx:117-122) is a browser API call.
- The gallery's tabs, the image lightbox, the download link and the size picker are rendering.
- The `generateVideo` polling loop and download are remote waiting, not logic. Only its prompt default is modelled.
- The `toString()` fallback of an error's text is not modelled. An error is given by its message and status.
- QuranReader.Audio: the `play()` rejection (only logged) and the `onended` closure are not modelled. AudioEnded is a separate handler.
- PrayerTimes's manual location search, geolocation, `fetchQibla` and the location-editing UI are I/O and rendering.
- Rendering, CSS and animation are not modelled.
- The `icon` field of the dashboard cards is not modelled.
- The static lists of LifestyleHub.tsx and DuaCollection.tsx, other than the tool ids, are not modelled.
- The default system instruction lives in constants.ts, which is not part of this model, so it is a parameter.
- LearningHub.tsx is not part of this model. Its tool ids are the ones `handleLearningToolLaunch` in App.tsx switches on.
- The thin API wrappers LectureSummarizer.tsx, VideoGenerator.tsx and ImageEditor.tsx are not modelled.
- ChatInterface.ChatView.HandleSend: the two halves of the awaited send are run one after the other. Interleavings with other events while the reply is pending are not modelled.
- ChatInterface's `catch` (components/ChatInterface.tsx:68-70) is not modelled, because the service never throws.
- AuthForm.AuthFormView: the password is stored but never used. The browser's `required` check on the fields is not modelled.
