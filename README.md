# seed-stage-sphere: the pitch pipeline, modelled in Dafny

seed-stage-sphere matches startup founders with investors. A founder uploads a pitch deck. An edge
function (`analyze-pitch`) asks a language model to score it. The row in `pitch_analyses` moves from
`processing` to `completed`. Investors then browse the scored pitches on an analytics page and record
their decision in `investment_decisions`. This project models that path and proves what each step
promises:

- `common.dfy` (`Common`): `Option`, `Result` and `Array.prototype.filter`.
- `js.dfy` (`Js`): the JavaScript built-ins the core relies on. These are `String.prototype.trim`
  with its whitespace set, the decimal rendering of a status number, and `indexOf` / `lastIndexOf`.
- `records.dfy` (`Records`): the row shapes of `pitch_analyses` and `investment_decisions`, the
  `app_role` enumeration, and the backend (storage paths plus the two tables) as a class.
- `analyze_pitch.dfy` (`AnalyzePitch`): the edge function, written as pure functions.
  - The request, the API key, the gateway's outcome and `JSON.parse` are parameters.
  - The status mapping, the catch-all 500 and the fallback analysis are modelled.
  - The two regular expressions that extract the JSON candidate are modelled literally: leftmost
    match, lazy body, optional newlines, then `jsonMatch[1] || jsonMatch[0]`.
- `pitch_upload.dfy` (`PitchUpload`): the upload dialog.
  - The form schema, the file check and the storage path are pure functions.
  - The whole submission is a specification function `Submit` over oracle outcomes, one per backend
    call.
  - `PitchUploadForm` is a class whose methods update the dialog's state and the backend as
    `Submit` says.
- `analytics.dfy` (`Analytics`): the analytics page.
  - The score bands, the recommendation badge, the three summary figures and the newest-first
    list of completed analyses are pure functions.
  - `AnalyticsPage` is a class holding the access check and the fetch.
- `pitch_review.dfy` (`PitchReview`): the review dialog.
  - The decision payload and the upsert keyed on (analysis, investor) are pure functions; the upsert
    works on a map.
  - The dialog's own colour and badge rules are compared with the analytics page's.
  - `ReviewModal` is a class with the save handler.

## Model

| member | source | states |
|---|---|---|
| Common.Filter | src/pages/Analytics.tsx:204 | `filter` keeps only elements satisfying the predicate, keeps every one that does, and never grows the list |
| Common.FilterMultiset | src/pages/Analytics.tsx:93 | filtering keeps each satisfying element exactly as often as it occurs and drops every other element |
| Common.FilterConcat | src/pages/Analytics.tsx:204 | filtering a concatenation is the concatenation of the filtered parts |
| Js.TrimStart | supabase/functions/analyze-pitch/index.ts:103 | the result is a suffix with no leading whitespace, and everything dropped is whitespace |
| Js.TrimEnd | supabase/functions/analyze-pitch/index.ts:103 | the result is a prefix with no trailing whitespace, and everything dropped is whitespace |
| Js.Trim | supabase/functions/analyze-pitch/index.ts:103 | `trim` leaves no whitespace at either end and never lengthens its input |
| Js.TrimIsSlice | supabase/functions/analyze-pitch/index.ts:103 | what `trim` keeps is one contiguous slice of the input, with only whitespace outside it |
| Js.TrimUnchanged | src/components/PitchUpload.tsx:129-135 | text with no whitespace at either end is its own trim |
| Js.TrimEndDropsWhitespaceSuffix | src/components/PitchUpload.tsx:129-135 | trailing whitespace after a non-whitespace last character is exactly what is removed |
| Js.TrimEndUnique | src/components/PitchUpload.tsx:129-135 | `trimEnd` keeps the one prefix that ends visibly (or is empty) with only whitespace after it |
| Js.TrimEndIgnoresWhitespaceSuffix | src/components/PitchUpload.tsx:129-135 | appending whitespace to a text does not change its `trimEnd` |
| Js.TrimIdempotent | supabase/functions/analyze-pitch/index.ts:103 | trimming twice is trimming once |
| Js.DigitChar | supabase/functions/analyze-pitch/index.ts:89 | each digit value below 10 gets the decimal digit character of that value |
| Js.NatToString | supabase/functions/analyze-pitch/index.ts:89 | a status renders as a non-empty string of digits with no leading zero |
| Js.DecimalRoundTrip | supabase/functions/analyze-pitch/index.ts:89 | reading back the rendered status gives the status |
| Js.NatToStringInjective | supabase/functions/analyze-pitch/index.ts:89 | distinct statuses render differently |
| Js.IndexOf | supabase/functions/analyze-pitch/index.ts:101 | `indexOf` is absent exactly when the character is absent, and otherwise names its first occurrence |
| Js.IndexOfFirst | supabase/functions/analyze-pitch/index.ts:101 | an occurrence with none before it is the one `indexOf` reports |
| Js.IndexOfAtMost | supabase/functions/analyze-pitch/index.ts:101 | every occurrence bounds the reported first position from above |
| Js.LastIndexOf | supabase/functions/analyze-pitch/index.ts:101 | `lastIndexOf` is absent exactly when the character is absent, and otherwise names its last occurrence |
| Js.LastIndexOfAtLeast | supabase/functions/analyze-pitch/index.ts:101 | every occurrence bounds the reported last position from below |
| Records.Backend.constructor | src/integrations/supabase/types.ts:17-27 | an empty backend has no stored files, no analyses and no decisions |
| AnalyzePitch.LookupAbsent | supabase/functions/analyze-pitch/index.ts:103 | a key no member carries is not found in a parsed object |
| AnalyzePitch.LookupLastOccurrence | supabase/functions/analyze-pitch/index.ts:103 | a repeated key reads as its last occurrence, as `JSON.parse` keeps it |
| AnalyzePitch.Message | supabase/functions/analyze-pitch/index.ts:139 | an Error is reported with its own message; the generic "Unknown error occurred" appears only for a non-Error value or an Error saying exactly that |
| AnalyzePitch.Failure | supabase/functions/analyze-pitch/index.ts:134-144 | any thrown value gives a 500 with a JSON content type and a body holding only an error message: an Error's own message, "Unknown error occurred" for any other value |
| AnalyzePitch.Fallback | supabase/functions/analyze-pitch/index.ts:107-121 | the fallback analysis is an object of thirteen members, never mistaken for an error body |
| AnalyzePitch.FirstClose | supabase/functions/analyze-pitch/index.ts:100 | the lazy body stops at the first position where the closing newline-and-backticks can match |
| AnalyzePitch.FenceWithBody | supabase/functions/analyze-pitch/index.ts:100 | after the opening, a match exists exactly when a closing follows; the greedy `\n?` takes a newline before the closing |
| AnalyzePitch.FenceAt | supabase/functions/analyze-pitch/index.ts:100 | a match found at a start position is well formed and has the shortest body |
| AnalyzePitch.FirstFenceFrom | supabase/functions/analyze-pitch/index.ts:100 | `match` reports the leftmost start position at which the pattern matches |
| AnalyzePitch.FirstFence | supabase/functions/analyze-pitch/index.ts:100 | the fence match opens with "```json" and closes with "```" |
| AnalyzePitch.BraceSpan | supabase/functions/analyze-pitch/index.ts:101 | a brace match starts at a `{` and ends just after a `}` |
| AnalyzePitch.Candidate | supabase/functions/analyze-pitch/index.ts:100-102 | the candidate is never longer than the reply |
| AnalyzePitch.ParseReply | supabase/functions/analyze-pitch/index.ts:98-122 | the analysis returned is what the parser made of the trimmed candidate, or the fallback exactly when the parser fails |
| AnalyzePitch.GatewayResponse | supabase/functions/analyze-pitch/index.ts:71-132 | once the gateway is called the answer is 200, 402, 429 or 500 with a JSON body; it is 200 exactly when the gateway answered 2xx with a readable envelope, and any other status carries only an error message |
| AnalyzePitch.Handle | supabase/functions/analyze-pitch/index.ts:9-146 | every request is answered with 200, 402, 429 or 500; the gateway is called only after the body was read, and 402 and 429 come only from a gateway call |
| AnalyzePitch.PreflightIff | supabase/functions/analyze-pitch/index.ts:10-12 | exactly an OPTIONS request gets an empty body, without the body being read or the gateway called |
| AnalyzePitch.GatewayCalledIff | supabase/functions/analyze-pitch/index.ts:14-20 | the body of every other request is read; the gateway is called exactly when the body reads and a key is configured |
| AnalyzePitch.MissingKeyIs500 | supabase/functions/analyze-pitch/index.ts:17-20 | a missing or empty key gives a 500 with the configuration message and no gateway call |
| AnalyzePitch.RateLimitedIff | supabase/functions/analyze-pitch/index.ts:71-78 | status 429 is returned exactly for an upstream 429, and then carries only the rate-limit message |
| AnalyzePitch.PaymentRequiredIff | supabase/functions/analyze-pitch/index.ts:79-85 | status 402 is returned exactly for an upstream 402, and then carries only the payment message |
| AnalyzePitch.ErrorResponsesCarryOnlyMessage | supabase/functions/analyze-pitch/index.ts:71-89 | the function answers only 200, 402, 429 or 500, and every non-200 body holds only an `error` string |
| AnalyzePitch.GatewayErrorReportsStatus | supabase/functions/analyze-pitch/index.ts:87-89 | any other non-2xx status s becomes a 500 with "AI gateway error: s" |
| AnalyzePitch.GatewayErrorMessageDeterminesStatus | supabase/functions/analyze-pitch/index.ts:89 | that message names the upstream status unambiguously |
| AnalyzePitch.BrokenTransportIs500 | supabase/functions/analyze-pitch/index.ts:92-93 | a failed fetch or an envelope without `choices[0].message` gives a 500, never the fallback |
| AnalyzePitch.ParsedReplyReturnedUnchanged | supabase/functions/analyze-pitch/index.ts:103 | a parsed candidate is returned as it is with status 200, unchecked |
| AnalyzePitch.UnparsableReplyGivesFallback | supabase/functions/analyze-pitch/index.ts:104-121 | an unparsable candidate, or content that is not a string, gives exactly the fallback with status 200 |
| AnalyzePitch.LookupDistinct | supabase/functions/analyze-pitch/index.ts:107-121 | in an object with distinct keys each key reads back its own value |
| AnalyzePitch.FallbackKeysDistinct | supabase/functions/analyze-pitch/index.ts:107-121 | the fallback's thirteen keys are pairwise distinct |
| AnalyzePitch.FallbackMarketTeamProduct | supabase/functions/analyze-pitch/index.ts:108-110 | the fallback scores market 65, team 70 and product 68 |
| AnalyzePitch.FallbackFinancialCompetitiveOverall | supabase/functions/analyze-pitch/index.ts:111-113 | the fallback scores financial health 60, competitive advantage 72 and overall 67 |
| AnalyzePitch.FallbackRecommendationAndStrengths | supabase/functions/analyze-pitch/index.ts:114-120 | the fallback recommends "Hold" and lists three strengths |
| AnalyzePitch.FallbackConcernsAndRisks | supabase/functions/analyze-pitch/index.ts:115-119 | the fallback lists three concerns and three risk factors |
| AnalyzePitch.OutOfRangeScorePassesThrough | supabase/functions/analyze-pitch/index.ts:126-132 | a parsed score of 150 reaches the caller unchanged; nothing bounds the scores |
| AnalyzePitch.FenceAtWhenClosed | supabase/functions/analyze-pitch/index.ts:100 | an opening followed anywhere by "```" matches at that opening |
| AnalyzePitch.FenceMatchesIff | supabase/functions/analyze-pitch/index.ts:100 | the fence pattern matches exactly when "```json" occurs with "```" after it |
| AnalyzePitch.FenceIsFirstAndShortest | supabase/functions/analyze-pitch/index.ts:100 | the chosen fence is at the first "```json", and no closing lies inside its body |
| AnalyzePitch.FenceNewlinesOutsideBody | supabase/functions/analyze-pitch/index.ts:100 | the optional newlines after the opening and before the closing are never part of the body |
| AnalyzePitch.CloseAfterOpeningNewline | supabase/functions/analyze-pitch/index.ts:100 | taking the opening's newline never loses a closing that follows it |
| AnalyzePitch.EmptyFenceBodySelectsWholeMatch | supabase/functions/analyze-pitch/index.ts:102 | an empty body is falsy, so the whole fenced match, backticks included, is the candidate |
| AnalyzePitch.FenceBodyCandidate | supabase/functions/analyze-pitch/index.ts:100-102 | a fence with a non-empty body makes exactly that body (`jsonMatch[1]`) the candidate |
| AnalyzePitch.BraceMatchesIff | supabase/functions/analyze-pitch/index.ts:101 | the brace pattern matches exactly when some `{` has a `}` after it |
| AnalyzePitch.BraceCandidate | supabase/functions/analyze-pitch/index.ts:101-102 | without a fence the candidate runs from the first `{` to the last `}` |
| AnalyzePitch.NoMatchKeepsWholeText | supabase/functions/analyze-pitch/index.ts:102 | with neither pattern matching the candidate is the whole reply |
| AnalyzePitch.CandidateIsSubstring | supabase/functions/analyze-pitch/index.ts:100-102 | whichever pattern matches, the candidate is a substring of the reply |
| AnalyzePitch.FencedCandidate | supabase/functions/analyze-pitch/index.ts:100-102 | a fenced backtick-free text with its newlines yields exactly that text |
| AnalyzePitch.BareCandidate | supabase/functions/analyze-pitch/index.ts:101-102 | a bare object text is its own candidate |
| AnalyzePitch.FencedAndBareAgree | supabase/functions/analyze-pitch/index.ts:100-103 | fencing an object text does not change the handler's result |
| PitchUpload.FieldErrors | src/components/PitchUpload.tsx:18-23 | no errors exactly when the form is valid; each error is reported exactly when its bound is broken |
| PitchUpload.FormValid | src/components/PitchUpload.tsx:18-23 | a form that passes the schema has every field filled in |
| PitchUpload.RequiredErrors | src/components/PitchUpload.tsx:21-22 | a required field reports its error exactly when empty |
| PitchUpload.LengthErrors | src/components/PitchUpload.tsx:19-20 | a bounded field reports too-short or too-long exactly when outside its bounds, never both |
| PitchUpload.CheckFile | src/components/PitchUpload.tsx:53-64 | a file is accepted exactly when its type is PDF, DOCX or text and its size is at most 10 MiB; the type is checked first |
| PitchUpload.SizeLimitInclusive | src/components/PitchUpload.tsx:60 | exactly 10 MiB is accepted, one byte more is too large, and any other type is refused whatever its size |
| PitchUpload.StoragePath | src/components/PitchUpload.tsx:86 | the object lies in the user's folder, inside it the startup's folder, and its name ends with the file's own name |
| PitchUpload.SplitOnce | src/components/PitchUpload.tsx:86 | splitting at the first separator gives a separator-free prefix that rebuilds the text |
| PitchUpload.SplitAtFirst | src/components/PitchUpload.tsx:86 | a separator-free prefix is exactly what the split recovers |
| PitchUpload.StoragePathRoundTrip | src/components/PitchUpload.tsx:86 | when neither the user id nor the startup id contains '/', the path `user/startup/millis-name` splits back into its four parts |
| PitchUpload.StoragePathInjective | src/components/PitchUpload.tsx:86 | when no id contains '/', distinct uploads get distinct paths |
| PitchUpload.PitchContent | src/components/PitchUpload.tsx:129-135 | the text sent is the request lines with only their trailing whitespace removed: trimming takes the template's framing newline and indentation, and whatever whitespace the document ends in (a blank document leaves the text ending in the "Pitch Document:" heading) |
| PitchUpload.TemplateTrim | src/components/PitchUpload.tsx:129-135 | trimming a text that opens visibly, framed by a newline and indentation, removes the framing and the text's own trailing whitespace |
| PitchUpload.PitchContentKeepsDocument | src/components/PitchUpload.tsx:129-135 | when the document ends in a visible character, the text sent is exactly the startup lines followed by the whole document |
| PitchUpload.InvokeData | src/components/PitchUpload.tsx:137-148 | `invoke` gives data exactly for a delivered 2xx answer, and that data is the answer's body |
| PitchUpload.Texts | src/components/PitchUpload.tsx:161-166 | a list column is read only when every item is a string, and then item by item |
| PitchUpload.ReportOf | src/components/PitchUpload.tsx:150-168 | a null answer cannot be recorded; any other answer gives the thirteen columns read from its fields |
| PitchUpload.FallbackReport | src/components/PitchUpload.tsx:155-167 | recording the fallback answer stores overall 67 and "Hold" |
| PitchUpload.Submit | src/components/PitchUpload.tsx:86-171 | a submission never removes a stored object or a row; it succeeds only after an upload to a new path, an insert with a new id, an answer that can be recorded and a successful update, and then the file is in storage at the path and its row is completed and holds the report read from that answer |
| PitchUpload.Analyze | src/components/PitchUpload.tsx:125-171 | after the insert, storage is left alone; the submission succeeds exactly when the answer can be recorded and the update succeeds, and then the only change to the table is the row set to `completed` with the thirteen fields read from the answer; otherwise the table is unchanged |
| PitchUpload.RowLifecycle | src/components/PitchUpload.tsx:108-169 | once the upload to a new path and the insert with a new id succeed, the row is completed exactly when the submission succeeds, and is then the inserted row with status `completed` and the report read from the answer; otherwise it stays as inserted; either way it keeps the form's title and the file's path |
| PitchUpload.CompletedOnlyWhenEveryStepSucceeds | src/components/PitchUpload.tsx:87-171 | a submission succeeds exactly when the upload (to a path not yet taken), the startup query, the insert (with an id not yet taken), the invocation with a 2xx non-null answer and the update all succeed |
| PitchUpload.SubmitTouchesOnlyItsOwnRow | src/components/PitchUpload.tsx:86-169 | a successful upload stores exactly its path, which stays in storage even when the insert or a later step fails; a failed upload stores nothing; every row that was there before is left as it was, and the only new row is the one the insert returned |
| PitchUpload.SubmitKeepsScoresOnlyWhenCompleted | src/components/PitchUpload.tsx:108-169 | no submission leaves scores on a row that is not completed |
| PitchUpload.FunctionErrorLeavesRowProcessing | src/components/PitchUpload.tsx:145-148 | an error status from the function leaves the row `processing` |
| PitchUpload.UnparsableReplyCompletesWithFallback | src/components/PitchUpload.tsx:150-171 | an unparsable model reply still completes the row with overall 67 and "Hold" |
| PitchUpload.FallbackAnswerRecorded | src/components/PitchUpload.tsx:150-168 | the fallback answer, once delivered, records overall 67 and "Hold" |
| PitchUpload.PitchUploadForm.constructor | src/components/PitchUpload.tsx:32-46 | the dialog starts closed and idle, with no file, no preview and an empty form |
| PitchUpload.PitchUploadForm.HandleFileSelect | src/components/PitchUpload.tsx:48-77 | a wrong type changes nothing; a too-large file only clears the input; an accepted file is selected, with a preview only for PDF |
| PitchUpload.PitchUploadForm.Cancel | src/components/PitchUpload.tsx:349-354 | cancelling closes the dialog and clears the form, the file and the preview |
| PitchUpload.PitchUploadForm.OnSubmit | src/components/PitchUpload.tsx:79-186 | with no file or no user nothing changes; otherwise the backend changes as `Submit` says, both flags end false, and the dialog is cleared only on success |
| PitchUpload.PitchUploadForm.AnalyzeAndRecord | src/components/PitchUpload.tsx:125-178 | after the insert, the row is completed and the dialog cleared exactly when the answer can be recorded |
| PitchUpload.PitchUploadForm.SubmitForm | src/components/PitchUpload.tsx:38-39 | invalid values report their errors and change nothing; valid values without a file or a user change nothing; otherwise the backend changes as `Submit` says for the form's values, decisions are untouched, both busy flags end down, and on success alone the dialog is closed and cleared |
| Analytics.InsertNewest | src/pages/Analytics.tsx:94 | insertion adds exactly the one row |
| Analytics.InsertNewestKeepsOrder | src/pages/Analytics.tsx:94 | inserting into a newest-first list keeps it newest first |
| Analytics.PrependNewest | src/pages/Analytics.tsx:94 | a row at least as new as all others can lead the list |
| Analytics.SortNewestFirst | src/pages/Analytics.tsx:94 | the sorted list is newest first and a permutation of its input |
| Analytics.CompletedNewestFirst | src/pages/Analytics.tsx:93-94 | the listed rows are newest first and are the completed rows, each as often as in the table |
| Analytics.CompletedNewestFirstIsCompletedRowsSorted | src/pages/Analytics.tsx:93-94 | the list holds exactly the completed rows, each as often as in the table, newest first |
| Analytics.FirstIsNewest | src/pages/Analytics.tsx:99-101 | the row selected after loading is completed and no completed row is newer |
| Analytics.HighPotentialCount | src/pages/Analytics.tsx:204 | the count is at most the list length, equal to it exactly when all score at least 70, and 0 exactly when none does |
| Analytics.CountBounds | src/pages/Analytics.tsx:204 | the filtered length equals the list length exactly when all qualify, and is 0 exactly when none does |
| Analytics.HighPotentialCountSplits | src/pages/Analytics.tsx:204 | the count adds up over a split, one analysis contributing 1 exactly when it scores at least 70 (null as 0) |
| Analytics.AverageScore | src/pages/Analytics.tsx:220 | the average is the integer nearest the mean of the overall scores, rounding halves up |
| Analytics.TotalScore | src/pages/Analytics.tsx:220 | the sum of the overall scores, a missing score counting as 0, is non-negative when every score is; `TotalScoreSplits` and `TotalScoreFromFront` show it is the front-first `reduce` from 0 |
| Analytics.TotalScoreSplits | src/pages/Analytics.tsx:220 | the total of the overall scores adds up over any split of the list |
| Analytics.TotalScoreFromFront | src/pages/Analytics.tsx:220 | the total is `reduce` from 0 at the front: the first analysis's score (0 when missing) plus the total of the rest |
| Analytics.TotalScoreBounds | src/pages/Analytics.tsx:220 | scores within `lo..hi` give a total within `lo*n..hi*n` |
| Analytics.RoundedMeanBounds | src/pages/Analytics.tsx:220 | rounding a mean of values within `lo..hi` stays within `lo..hi` |
| Analytics.AverageWithinScoreRange | src/pages/Analytics.tsx:220 | an average of scores within `lo..hi` lies within `lo..hi` |
| Analytics.Domains | src/pages/Analytics.tsx:234 | every listed analysis's domain (or its absence) is among the distinct domains, which are at most as many as the list |
| Analytics.DomainsAreListed | src/pages/Analytics.tsx:234 | every counted domain belongs to some listed analysis |
| Analytics.IndustryCount | src/pages/Analytics.tsx:234 | the industries figure is between 1 and the list length for a non-empty list |
| Analytics.IndustryCountGrows | src/pages/Analytics.tsx:234 | another analysis raises the count by one exactly when its domain is new |
| Analytics.ScoreColor | src/pages/Analytics.tsx:110-115 | muted exactly for a missing or zero score |
| Analytics.ScoreColorBands | src/pages/Analytics.tsx:112-114 | among non-zero scores the colour never worsens as the score grows; the bands meet at 50 and 75 |
| Analytics.ScoreLabel | src/pages/Analytics.tsx:268 | a score cell shows a number only when it is the score itself |
| Analytics.ProgressValue | src/pages/Analytics.tsx:323 | the bar shows the score when there is one |
| Analytics.NotAvailableIsMuted | src/pages/Analytics.tsx:319-323 | "N/A" is shown exactly when the colour is muted, and then the bar is empty |
| Analytics.RecommendationBadgeAsWritten | src/pages/Analytics.tsx:117-128 | as written, there is no badge exactly for a missing or empty recommendation, and every badge shows the recommendation's own text |
| Analytics.PrototypeKeyMissesHoldStyle | src/pages/Analytics.tsx:127 | as written, "constructor" finds an inherited member with no variant or class instead of the "Hold" style |
| Analytics.RecommendationBadge | src/pages/Analytics.tsx:117-128 | there is no badge exactly for a missing or empty recommendation, and a badge always shows the recommendation's text |
| Analytics.RecommendationBadgeStyles | src/pages/Analytics.tsx:120-127 | the four labels get their own styles, and any other label takes the "Hold" style |
| Analytics.AsWrittenAgreesOffPrototype | src/pages/Analytics.tsx:127 | the written and the intended lookup agree except on the inherited names, where they differ |
| Analytics.AnalyticsPage.constructor | src/pages/Analytics.tsx:48-50 | the page starts loading, with nothing listed or selected |
| Analytics.AnalyticsPage.FetchAnalyses | src/pages/Analytics.tsx:79-108 | on success the completed rows are listed newest first and the first is selected; on error the list is kept; loading always ends |
| Analytics.AnalyticsPage.CheckAccess | src/pages/Analytics.tsx:53-74 | without a user the page goes to `/login`, for a non-investor to `/dashboard/startup`, and neither fetches; an investor's visit fetches, listing the completed rows newest first and selecting the first when there is one, or keeps the list and selection when the query fails |
| Analytics.AnalyticsPage.Select | src/pages/Analytics.tsx:252 | clicking a listed analysis selects it and changes nothing else |
| PitchReview.StatusRoundTrip | src/components/PitchReviewModal.tsx:194-196 | the three choices store as "pending", "accepted" and "rejected", one to one |
| PitchReview.BuildPayload | src/components/PitchReviewModal.tsx:40-49 | the payload always holds the key, the status and the feedback; the amount is present exactly when typed |
| PitchReview.Upsert | src/components/PitchReviewModal.tsx:51-55 | after a write the pair has exactly one decision with the payload's status and feedback, and the payload's amount or else the amount it had before (none for a new pair); every other pair is untouched and no other pair appears |
| PitchReview.SecondWriteWins | src/components/PitchReviewModal.tsx:51-55 | saving twice for a pair leaves one decision with the second write's fields |
| PitchReview.UpsertIdempotent | src/components/PitchReviewModal.tsx:51-55 | saving the same decision again changes nothing |
| PitchReview.UpsertsOnDistinctPairsCommute | src/components/PitchReviewModal.tsx:51-55 | writes for different pairs do not interfere |
| PitchReview.ReviewScoreColor | src/components/PitchReviewModal.tsx:69-73 | green exactly from 75, red exactly below 50, never muted |
| PitchReview.ReviewDisplayColor | src/components/PitchReviewModal.tsx:101 | a missing score is passed as 0 and shows red |
| PitchReview.ReviewColorVersusAnalytics | src/components/PitchReviewModal.tsx:101-102 | the dialog and the analytics page agree on non-zero scores; a missing or zero score is red here and muted there |
| PitchReview.ReviewBadgeClass | src/components/PitchReviewModal.tsx:105-111 | a badge appears exactly for a non-empty recommendation, and only the three known labels get a class |
| PitchReview.BadgeClassVersusAnalytics | src/components/PitchReviewModal.tsx:106-111 | the dialog's class matches the analytics page's for every label except "Pass" |
| PitchReview.ReviewModal.constructor | src/components/PitchReviewModal.tsx:27-30 | the decision starts as pending, with empty inputs and nothing being saved |
| PitchReview.ReviewModal.HandleSubmit | src/components/PitchReviewModal.tsx:32-66 | no analysis: nothing; no user: "Not authenticated" and no write; an upsert error: its message and no write; success: the upsert, the callback and a closed dialog; saving always ends |

## Left out

- Network, storage, the database and the function invocation are oracle parameters. Row-level
  security, PostgREST internals and the Deno `serve` wrapper are not modelled.
- The CORS header values, the prompt text, the model name, the temperature 0.7 and the console
  logging are not modelled. They carry no decision.
- `JSON.parse` is an arbitrary partial function. JSON numbers are integers, so fractional scores are
  not modelled.
- AnalyzePitch.GatewayResponse: reading the text of a non-2xx answer other than 429 and 402
  (`response.text()`) is taken to succeed, since the text is only logged. If that read throws, the
  catch-all answers 500 with the thrown error's message instead of "AI gateway error: " and the
  status; the model does not cover that case. The body read of the request is reduced to readable
  or not.
- React rendering, toasts, the dialog's open state driven by the trigger, routing and styling are
  not modelled. Only the state the handlers write is modelled.
- Zod's lengths are taken as lengths of the Dafny string. The UTF-16 code-unit counting of non-BMP
  characters is not modelled. Zod's messages become an enumeration of field errors.
- `URL.createObjectURL` is an oracle value, a parameter of `HandleFileSelect`.
- PitchUpload.Submit: the function's answer is an oracle outcome. `PitchContent` states what is sent
  (the startup's lines and the file's text from `File.text()`), but the submission does not tie the
  answer to that content.
- Storage and the database reject an upload to a taken path and an insert with a taken id; the
  model treats both as the failed step. Object names generated at the same millisecond by other
  clients are not modelled beyond that.
- `Date.now()` is a parameter `millis` of the submission.
- PitchUpload.ReportOf: the update sends each field whatever its JSON type. Postgres' coercion or
  rejection of a mistyped value is not modelled: such a field is stored as null.
- `uploaded_at` is an integer timestamp. The order Postgres gives rows with equal timestamps is not
  specified; the model keeps their table order.
- Analytics.AverageScore: scores are integers, so `Math.round` of the exact quotient is modelled as
  round-half-up on integers. Float division is not modelled.
- PitchReview.Upsert: `parseFloat` of the granted amount is not modelled. The amount is kept as the
  typed text, and only its presence or absence is modelled.
- The `onUploadComplete` and `onDecisionMade` callbacks are the methods' boolean results.
- The page lists the completed rows of the whole table. The row-level policies that restrict what an
  investor may read are not part of this model.
- Startup pages, the investor dashboard, login, settings, navigation and footer are not part of
  this model.

## Intended behaviour versus code

- The returned analysis is meant to hold every field, with scores between 0 and 100. The code
  checks neither; `AnalyzePitch.OutOfRangeScorePassesThrough` shows a score of 150
  passing through. The model follows the code.
- Transport failures are meant to reach the caller as a generic message. The code reports
  the thrown error's own message, and "Unknown error occurred" only for a non-Error value. The model
  follows the code.
- An envelope without `choices[0].message` throws outside the parse guard and gives a 500. A
  `content` that is present but not a string throws inside it and gives the fallback. The model keeps
  both paths.

## Findings

| source | as written | input that shows it | evidently intended | confidence | as-written member | corrected member |
|---|---|---|---|---|---|---|
| src/pages/Analytics.tsx:127 | `config[recommendation] \|\| config["Hold"]` looks the label up on an object literal, so names inherited from `Object.prototype` are found | recommendation "constructor" (or "toString", "valueOf", ...) gives a truthy inherited function with no `variant` or `className`, not the "Hold" style | every label other than the four table entries takes the "Hold" style | not executed | Analytics.PrototypeKeyMissesHoldStyle | Analytics.RecommendationBadgeStyles |
