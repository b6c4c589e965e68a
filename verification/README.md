# CircularRepair — a Dafny model of the repair platform's rules

CircularRepair is a web application for getting household objects repaired
instead of thrown away. A customer submits an item, with photos and an
optional AI pre-diagnosis. Repairers send quotes for it. The customer
accepts one. The repairer then moves the repair through diagnostic,
in_repair, quality_check and ready_delivery, logging each step and adding
photos. Finally the customer rates the repair, which completes it and
credits the repairer with eco points. There is also a marketplace of
refurbished goods and role-dependent navigation.

This project models the deterministic rules inside that application and
proves what they promise:

- Upload validation, file naming and URL-to-path extraction (`Storage`).
- The prompt, the image cap and the answer normalisation of the AI
  diagnosis service (`AiService`).
- The item, quote and repair writes each page performs on the database.
  The database is modelled as the class `Database.Db`: one map per table,
  keyed by row id, plus the eco-point ledger as a list.
- The list editors (expertise and service types, selected photos), the
  notification queue, the media gallery and carousel, the tracking map,
  the search filters, the submission wizard, the router, the auth dialog's
  error mapping, and the navigation menus.

Each source file of the core is one module. Pure lookups and derivations
are functions with lemmas. Components whose handlers update state are
classes: their fields are the component's state, and their methods are the
handlers, with `modifies` clauses covering the component and the database.

Some things outside the program become parameters:

- the clock, generated ids and random suffixes;
- the success of a remote call (`insertOk`, `transferOk`, `signOutOk`);
- the outcome of an authentication call;
- `parseFloat`, `JSON.parse`, the image download and the model call.

Shared helpers:

- `Basics`: Option and Result.
- `Text`: JavaScript `trim`, ASCII `toLowerCase`, `includes`,
  `split(sep).pop()` and decimal rendering.
- `Lists`: order-preserving filtering, subsequences, `indexOf`, removal by
  index.
- `Records`: the row types of `src/lib/supabase.ts`.
- `Progress`: the done/current/pending step classification used by the
  tracking timeline and by the wizard's indicator.

Where the code and its description disagree, the model follows the code:

- The simulated diagnosis timer moves the wizard to step 3 from whichever
  step it is on when it fires, not only from step 2 (`SubmitItem.SubmitWizard.FinishDiagnosis`).
- The cost range on the item page is hidden when either bound is 0, because
  0 is falsy (`ItemDetail.CostRangeShown`).
- The normalised maximum cost can fall below the normalised minimum when
  the raw minimum is negative (`AiService.CostMaxBelowMinWhenRawMinNegative`).
- The Track button asks for the page 'repair-tracking', which the
  application shell has no branch for, so nothing renders below the bar
  (`App.RepairTrackingRendersNothing`).
- Nothing forces a repair through its statuses in order: any active status
  may be chosen at any time (`RepairManagement.RepairManagement.ChooseStatus`).

## Model

| member | source | states |
|---|---|---|
| Storage.MaxFileSize | src/lib/storage.ts:8-12 | the size limit is 5 MiB for avatars, 10 MiB for images and 50 MiB for videos |
| Storage.ValidateFile | src/lib/storage.ts:97-127 | valid exactly when size ≤ limit (strict `>` rejects) and the MIME type is in the kind's list; valid iff no error; an oversized file reports the size error whatever its type; otherwise a disallowed type reports the type error |
| Storage.SizeErrorNamesLimit | src/lib/storage.ts:106-111 | the size error names the limit in whole megabytes: 5MB, 10MB, 50MB |
| Storage.Extension | src/lib/storage.ts:88 | the extension is the text after the last '.', so it contains no '.' |
| Storage.ExtensionWithoutDot | src/lib/storage.ts:88 | a name without '.' is its own extension |
| Storage.GenerateFileName | src/lib/storage.ts:85-92 | a generated name starts with the prefix part and the timestamp, and keeps the original extension |
| Storage.GeneratedNameShape | src/lib/storage.ts:85-92 | a generated name keeps the original extension; it starts with `prefix-`, or with `timestamp-` when the prefix is empty |
| Storage.UploadMultiple | src/lib/storage.ts:132-154 | the batch succeeds iff every file validates, yielding one path per file in order, each `folder/` + generated name; otherwise it fails with the error of the first invalid file |
| Storage.UploadPath | src/lib/storage.ts:146-147 | a stored path lies in the folder and keeps the file's extension |
| Storage.UploadPathShape | src/lib/storage.ts:146-147 | every stored path starts with `folder/folder-` |
| Storage.ExtractFilePathFromUrl | src/lib/storage.ts:159-169 | a URL under the bucket URL gives the remainder after it; any other URL gives its last '/'-free suffix (possibly empty) |
| Storage.PublicUrl | src/lib/storage.ts:46-51 | the public URL starts with the bucket URL and the path follows it |
| Storage.ExtractRoundTrip | src/lib/storage.ts:159-169 | the path is recovered from the public URL built for it |
| AiService.ExtractJson | src/services/aiService.ts:144-149 | a found span starts with '{' and ends with '}' |
| AiService.ExtractJsonSomeIff | src/services/aiService.ts:144-147 | a span is found iff some '{' precedes some '}' |
| AiService.ExtractJsonGreedy | src/services/aiService.ts:144-149 | the span is greedy: no '{' before it and no '}' after it |
| AiService.OrDefault | src/services/aiService.ts:155-161 | `v \|\| d`: a missing or zero number gives the default, any other value is kept |
| AiService.ParseDifficulty | src/services/aiService.ts:157-159 | easy/medium/hard are kept; anything else becomes medium |
| AiService.Normalize | src/services/aiService.ts:153-162 | minimum cost = max(0, raw minimum or 50) ≥ 0; maximum ≥ raw minimum and ≥ raw maximum, so ≥ minimum when the raw minimum is not negative; confidence clamped into [0,1] (above 1 gives 1, below 0 gives 0), 0.5 when missing or zero; a missing list gets its default, a present (even empty) list is kept |
| AiService.CostMaxBelowMinWhenRawMinNegative | src/services/aiService.ts:155-156 | with raw costs -10 and -5 the minimum is 0 and the maximum -5 |
| AiService.ParseAIResponse | src/services/aiService.ts:141-176 | no span, or an unparsable span, gives the fixed fallback; otherwise the normalised parse; either way cost minimum ≥ 0 and confidence in [0,1] |
| AiService.NoBracesGiveFallback | src/services/aiService.ts:163-174 | an answer with no '{' before a '}' gives the fallback: 50–150, medium, confidence 0.3 |
| AiService.ImageParts | src/services/aiService.ts:100-119 | at most one JPEG part per URL, failed downloads skipped |
| AiService.ImagePartsAllFetched | src/services/aiService.ts:100-119 | when every download succeeds there is exactly one part per URL, carrying that URL's data, in order |
| AiService.PrepareImageParts | src/services/aiService.ts:100-119 | the loop yields the parts of the first 4 URLs (`MAX_IMAGES`, src/config/gemini.ts:10); at most 4 and at most the number of URLs |
| AiService.BrandLabel | src/services/aiService.ts:61 | a missing or empty brand reads 'Non spécifiée', otherwise the brand |
| AiService.BuildDiagnosisPrompt | src/services/aiService.ts:54-98 | the prompt opens with the introduction, contains the product lines and ends with the task list |
| AiService.PromptIncludesLines | src/services/aiService.ts:54-98 | whatever the product lines contain, the prompt contains |
| AiService.PromptNamesProduct | src/services/aiService.ts:59 | the prompt contains the product's name line |
| AiService.PromptNamesBrand | src/services/aiService.ts:61 | the prompt contains the brand line with its default |
| AiService.PromptCountsImages | src/services/aiService.ts:64 | with images, the prompt contains their count |
| AiService.RequestParts | src/services/aiService.ts:37-42 | the prompt first, then at most 4 parts, each a JPEG inline image |
| AiService.DiagnoseProduct | src/services/aiService.ts:28-52 | the request is the prompt followed by at most 4 image parts; a failed model call gives the fixed error; an answer gives `ParseAIResponse` of it |
| Records.ParseRepairStatus | src/lib/supabase.ts:52 | a parsed repair status names the string it was read from |
| Records.RepairStatusRoundTrip | src/lib/supabase.ts:52 | every repair status survives the trip to its string and back |
| Progress.Classify | src/components/RepairTracking/RepairTrackingPage.tsx:237-239 | a step is done iff its index < current, current iff =, pending iff > |
| Progress.Timeline | src/components/RepairTracking/RepairTrackingPage.tsx:237-239 | one classified state per step |
| Progress.TimelineShape | src/components/RepairTracking/RepairTrackingPage.tsx:237-239 | with the current index in range the row reads done…done, current, pending…pending |
| Progress.TimelineOutOfRange | src/components/RepairTracking/RepairTrackingPage.tsx:201 | index -1 leaves every step pending |
| RepairTracking.StatusInfoOf | src/components/RepairTracking/RepairTrackingPage.tsx:130-165 | an unknown status falls back to the diagnostic entry, and so does `diagnostic`; every other known status gets an entry that is not the diagnostic one |
| RepairTracking.StatusStepsAreTheStatuses | src/components/RepairTracking/RepairTrackingPage.tsx:167-173 | the steps are diagnostic, in_repair, quality_check, ready_delivery, completed, in that order |
| RepairTracking.CurrentStepIndex | src/components/RepairTracking/RepairTrackingPage.tsx:201 | the index is -1 exactly for a status missing from the steps |
| RepairTracking.StepStates | src/components/RepairTracking/RepairTrackingPage.tsx:235-239 | a step is done before the status's index in the step list, current at it, pending after it; an unknown status leaves every step pending |
| RepairTracking.KnownStatusTimeline | src/components/RepairTracking/RepairTrackingPage.tsx:201-239 | a known status's own step is current, earlier steps done, later ones pending |
| RepairTracking.UnknownStatusTimeline | src/components/RepairTracking/RepairTrackingPage.tsx:164-239 | an unknown status leaves all five steps pending and shows the diagnostic entry |
| RepairTracking.Stars | src/components/RepairTracking/RepairTrackingPage.tsx:438-443 | five stars, star i filled iff i ≤ rating |
| RepairTracking.RatePromptVisible | src/components/RepairTracking/RepairTrackingPage.tsx:387 | the rating prompt shows iff the status string is ready_delivery and the rating is missing or 0 |
| RepairTracking.RatingReason | src/components/RepairTracking/RepairTrackingPage.tsx:117 | the transaction reason starts with the fixed text and names the rating out of 5 |
| RepairTracking.PointsForRating | src/components/RepairTracking/RepairTrackingPage.tsx:111 | 10 × rating, hence 10 to 50 in steps of 10 for 1 to 5 stars |
| RepairTracking.ReviewText | src/components/RepairTracking/RepairTrackingPage.tsx:98 | null iff the review is blank, otherwise the trimmed text, without leading or trailing space |
| RepairTracking.Rated | src/components/RepairTracking/RepairTrackingPage.tsx:94-102 | the repair is completed, rated, reviewed and stamped; nothing else about it changes |
| RepairTracking.RepairTrackingView.ChooseStar | src/components/RepairTracking/RepairTrackingPage.tsx:438 | clicking star k sets the rating to k |
| RepairTracking.RepairTrackingView.HandleRatingSubmit | src/components/RepairTracking/RepairTrackingPage.tsx:90-128 | a no-op without a repair or with rating 0; otherwise the repair is rated and completed, its item completed, one eco transaction of 10 × rating for the repairer appended, the modal closed and one success notice queued |
| RepairTracking.SubmittedRatingEffects | src/components/RepairTracking/RepairTrackingPage.tsx:111-119 | a 1–5 star submission credits 10–50 points and the rate prompt no longer shows |
| RepairManagement.StatusBadgeOf | src/components/RepairerDashboard/RepairerRepairManagement.tsx:58-83 | any status outside the four active ones, completed included, shows the diagnostic badge; the other three active ones show a badge that is not the diagnostic one |
| RepairManagement.ActiveStatusNamesAreNotDone | src/components/RepairerDashboard/RepairerRepairManagement.tsx:175-180 | the four selectable statuses are all statuses but completed |
| RepairManagement.ActiveRepairs | src/components/RepairerDashboard/RepairerRepairManagement.tsx:45-46 | exactly this repairer's non-completed repairs, in order, each with its multiplicity in the rows |
| RepairManagement.RecentPhotos | src/components/RepairerDashboard/RepairerRepairManagement.tsx:279 | the last min(3, n) photos, a suffix of the list |
| RepairManagement.WithStatusUpdate | src/components/RepairerDashboard/RepairerRepairManagement.tsx:92-109 | the status becomes the entry's; the log is the selected copy's log plus the entry at the end; id, item_id, quote_id, repairer_id, completion_photos, rating, review, started_at and completed_at are kept |
| RepairManagement.WithPhotos | src/components/RepairerDashboard/RepairerRepairManagement.tsx:144-154 | the photo list is the selected copy's list followed by the new URLs; id, item_id, quote_id, repairer_id, status, tracking_updates, rating, review, started_at and completed_at are kept |
| RepairManagement.Batch | src/components/RepairerDashboard/RepairerRepairManagement.tsx:137-142 | one upload per selected file, in order |
| RepairManagement.PublicUrls | src/components/RepairerDashboard/RepairerRepairManagement.tsx:144 | one public URL per stored path, in order |
| RepairManagement.RepairManagement.OpenUpdate | src/components/RepairerDashboard/RepairerRepairManagement.tsx:253-254 | selects the repair and opens the update form |
| RepairManagement.RepairManagement.OpenPhotos | src/components/RepairerDashboard/RepairerRepairManagement.tsx:263-264 | selects the repair and opens the photo form |
| RepairManagement.RepairManagement.ChooseStatus | src/components/RepairerDashboard/RepairerRepairManagement.tsx:314-325 | any active status may be chosen whatever the repair's current status; the placeholder clears the choice and disables the update; the selection, the message, the files and both modals are kept |
| RepairManagement.RepairManagement.CanSubmitUpdate | src/components/RepairerDashboard/RepairerRepairManagement.tsx:350 | the update is enabled iff a status is chosen and the trimmed message is non-empty |
| RepairManagement.RepairManagement.SetMessage | src/components/RepairerDashboard/RepairerRepairManagement.tsx:334 | the message input takes the text; the selection, the status, the files and both modals are kept |
| RepairManagement.RepairManagement.HandleStatusUpdate | src/components/RepairerDashboard/RepairerRepairManagement.tsx:85-128 | a no-op without a selection, a status or a non-blank message; otherwise one entry (time, status, trimmed message, repairer) is appended to the repair's log and its status set; only ready_delivery completes the item; inputs reset; quotes, transactions, profiles and the photo form are untouched in every case |
| RepairManagement.RepairManagement.SelectFiles | src/components/RepairerDashboard/RepairerRepairManagement.tsx:166-169 | choosing files replaces the selection; the selected repair, the status, the message and both modals are kept |
| RepairManagement.RepairManagement.RemovePhoto | src/components/RepairerDashboard/RepairerRepairManagement.tsx:171-173 | exactly the i-th file goes (as a multiset), the rest stay in order; the selected repair, the status, the message and both modals are kept |
| RepairManagement.RepairManagement.HandlePhotoUpload | src/components/RepairerDashboard/RepairerRepairManagement.tsx:130-164 | a no-op without a selection or files, or when the batch is rejected or the transfer fails; otherwise the new URLs follow the existing photos and the selection clears; only the repairs table changes, and the status form is untouched |
| ProfilePage.RoleLabel | src/components/Profile/ProfilePage.tsx:222-230 | the four roles get their labels; any other role is shown unchanged |
| ProfilePage.RoleColor | src/components/Profile/ProfilePage.tsx:232-240 | gray exactly for a string that is not one of the four roles |
| ProfilePage.EveryRoleIsMapped | src/components/Profile/ProfilePage.tsx:222-240 | every role has its own label and a non-gray colour |
| ProfilePage.AddEntry | src/components/Profile/ProfilePage.tsx:168-176 | the trimmed input is appended iff it is non-blank and absent; otherwise the list is unchanged |
| ProfilePage.AddEntryKeepsNoDuplicates | src/components/Profile/ProfilePage.tsx:169 | a duplicate-free list stays duplicate-free |
| ProfilePage.AddEntryKeepsNoBlank | src/components/Profile/ProfilePage.tsx:169 | adding never introduces a blank entry |
| ProfilePage.RemoveEntry | src/components/Profile/ProfilePage.tsx:178-183 | every entry equal to v goes, every other entry stays, in order and as often as it occurred |
| ProfilePage.RemoveEntryKeepsNoDuplicates | src/components/Profile/ProfilePage.tsx:178-183 | removal keeps a list duplicate-free |
| ProfilePage.AddThenRemoveEntry | src/components/Profile/ProfilePage.tsx:168-183 | adding an absent entry and removing it gives the list back |
| ProfilePage.WithForm | src/components/Profile/ProfilePage.tsx:130-139 | the saved row carries the form's columns under the user's id; verification, rating, job count and creation time are kept |
| ProfilePage.RepairerProfileEditor.AddExpertise | src/components/Profile/ProfilePage.tsx:168-176 | the expertise list follows `AddEntry`; the input clears only when an entry was added; other fields unchanged |
| ProfilePage.RepairerProfileEditor.RemoveExpertise | src/components/Profile/ProfilePage.tsx:178-183 | the expertise list follows `RemoveEntry`; other fields unchanged |
| ProfilePage.RepairerProfileEditor.AddServiceType | src/components/Profile/ProfilePage.tsx:185-193 | the same add rule on service types |
| ProfilePage.RepairerProfileEditor.RemoveServiceType | src/components/Profile/ProfilePage.tsx:195-200 | the same remove rule on service types |
| ProfilePage.RepairerProfileEditor.Load | src/components/Profile/ProfilePage.tsx:66-91 | the user's row, if any, and the form filled from it (missing text as '') |
| ProfilePage.RepairerProfileEditor.HandleSaveRepairerProfile | src/components/Profile/ProfilePage.tsx:123-166 | without a user nothing; with a loaded profile the row is updated from the form; without one a row is inserted; after a save the profile reloads from the saved row (the form then equals what was saved), the error clears and the editor closes; when the request fails (`saveOk` false) or the insert finds the id taken, no row changes, the save error is shown, nothing reloads and the editor, the loaded profile and the form are kept; the other tables are untouched |
| Notifications.WithoutId | src/contexts/NotificationContext.tsx:39-41 | no notification with the id remains; every other one stays, in order and as often as it occurred |
| Notifications.RemoveAbsentId | src/contexts/NotificationContext.tsx:39-41 | removing an absent id changes nothing |
| Notifications.AddThenRemove | src/contexts/NotificationContext.tsx:33-41 | adding under a fresh id then removing it restores the queue |
| Notifications.NotificationCenter.AddNotification | src/contexts/NotificationContext.tsx:33-37 | exactly one notification with the given fields joins the end; the rest unchanged |
| Notifications.NotificationCenter.RemoveNotification | src/contexts/NotificationContext.tsx:39-41 | the queue becomes `WithoutId` of itself |
| Notifications.NotificationCenter.Success | src/contexts/NotificationContext.tsx:43-45 | adds one success notification |
| Notifications.NotificationCenter.Error | src/contexts/NotificationContext.tsx:47-49 | adds one error notification |
| Notifications.NotificationCenter.Info | src/contexts/NotificationContext.tsx:51-53 | adds one info notification |
| Notifications.NotificationCenter.Warning | src/contexts/NotificationContext.tsx:55-57 | adds one warning notification |
| ItemDetail.AllMedia | src/components/ItemDetail/ItemDetailPage.tsx:80-90 | all images (typed image) then all videos (typed video); the length is the sum; no item gives none |
| ItemDetail.MissingListsGiveNoMedia | src/components/ItemDetail/ItemDetailPage.tsx:80-90 | missing lists count as empty |
| ItemDetail.Thumbnails | src/components/ItemDetail/ItemDetailPage.tsx:246 | at most four thumbnails, thumbnail k being media k+1 |
| ItemDetail.OverflowBadge | src/components/ItemDetail/ItemDetailPage.tsx:271-274 | the "+n" badge appears iff there are more than five media |
| ItemDetail.GalleryAccountsForAll | src/components/ItemDetail/ItemDetailPage.tsx:246-274 | main media + thumbnails + badge count = number of media |
| ItemDetail.ChooserOrQuotes | src/components/ItemDetail/ItemDetailPage.tsx:315-342 | exactly one of the solution chooser and the quotes shows |
| ItemDetail.CostRangeShown | src/components/ItemDetail/ItemDetailPage.tsx:418 | the range shows iff both bounds are present and non-zero |
| ItemDetail.ZeroMinimumHidesRange | src/components/ItemDetail/ItemDetailPage.tsx:418 | a zero minimum hides the range |
| ItemDetail.AcceptButtonVisible | src/components/ItemDetail/ItemDetailPage.tsx:391-407 | the accept button and the accepted badge never show together; a rejected quote shows neither |
| ItemDetail.Accept | src/components/ItemDetail/ItemDetailPage.tsx:97-104 | the quote becomes accepted (badge, no button); id, item_id, repairer_id, price, estimated_duration, message and created_at are kept |
| ItemDetail.WithSolution | src/components/ItemDetail/ItemDetailPage.tsx:143-148 | the solution type is set, which hides the chooser and shows the quotes; all fourteen other item fields (id, user_id, name, category, brand, problem_description, images, videos, ai_diagnosis, both cost bounds, status, created_at, updated_at) are kept |
| ItemDetail.ItemDetailView.OpenMediaModal | src/components/ItemDetail/ItemDetailPage.tsx:92-95 | sets the index and opens the viewer |
| ItemDetail.ItemDetailView.CloseMediaModal | src/components/ItemDetail/ItemDetailPage.tsx:480 | closes the viewer, index kept |
| ItemDetail.ItemDetailView.SelectMedia | src/components/ItemDetail/ItemDetailPage.tsx:526-548 | a dot or thumbnail selects its own media; the index stays in range and the viewer state is kept |
| ItemDetail.ItemDetailView.Prev | src/components/ItemDetail/ItemDetailPage.tsx:490 | the index becomes max(0, i-1) and stays in range |
| ItemDetail.ItemDetailView.Next | src/components/ItemDetail/ItemDetailPage.tsx:497 | the index becomes min(len-1, i+1) and stays in range |
| ItemDetail.ItemDetailView.AcceptQuote | src/components/ItemDetail/ItemDetailPage.tsx:97-109 | that quote is accepted, the item in progress, every other quote and table untouched |
| ItemDetail.ItemDetailView.SelectSolution | src/components/ItemDetail/ItemDetailPage.tsx:143-154 | the item's solution type is set, its status kept, the choice flag cleared |
| MyRepairs.FirstMedia | src/components/MyRepairs/MyRepairsPage.tsx:250-260 | the first image, else the first video, else none |
| MyRepairs.FirstMediaIsFirstOfAll | src/components/MyRepairs/MyRepairsPage.tsx:250-260 | the card's media is the first of the detail page's merged list |
| MyRepairs.MediaCount | src/components/MyRepairs/MyRepairsPage.tsx:263-267 | images plus videos, equal to the merged list's length, missing lists 0 |
| MyRepairs.StatusColor | src/components/MyRepairs/MyRepairsPage.tsx:269-284 | cancelled and unknown statuses share the gray; the four live statuses do not |
| MyRepairs.ItemStatusNamesAreTheStatuses | src/lib/supabase.ts:30 | every item status is among the coloured names |
| MyRepairs.VisibleItems | src/components/MyRepairs/MyRepairsPage.tsx:58-89 | exactly the user's items, of the filter's status unless it is 'all', in order, each with its multiplicity in the rows |
| MyRepairs.AllFilterKeepsEveryStatus | src/components/MyRepairs/MyRepairsPage.tsx:69-71 | 'all' keeps every item of the user |
| MyRepairs.TrackingMap | src/components/MyRepairs/MyRepairsPage.tsx:48-51 | its keys are exactly the returned item ids |
| MyRepairs.LastRowWins | src/components/MyRepairs/MyRepairsPage.tsx:48-51 | each item id maps to the id of the last row for that item |
| MyRepairs.ShowTrackButton | src/components/MyRepairs/MyRepairsPage.tsx:474 | Track shows iff the item has a non-empty tracked repair id and its status string is in_progress or quoted |
| MyRepairs.TrackButtonNeedsActiveItem | src/components/MyRepairs/MyRepairsPage.tsx:474 | submitted, completed and cancelled items never show Track |
| MyRepairs.TrackRequest | src/components/MyRepairs/MyRepairsPage.tsx:476 | Track asks for 'repair-tracking' with the tracked repair's id |
| MyRepairs.DetailsRequest | src/components/MyRepairs/MyRepairsPage.tsx:466 | details ask for 'item-detail' with the item's id |
| MyRepairs.TestRepairEntry | src/components/MyRepairs/MyRepairsPage.tsx:209-224 | completed iff the item is completed, else diagnostic; one log entry of that status; completed_at set iff completed |
| MyRepairs.TestRepairEntries | src/components/MyRepairs/MyRepairsPage.tsx:209-224 | one entry per inserted item, in order |
| MyRepairs.MyRepairsView.SetFilter | src/components/MyRepairs/MyRepairsPage.tsx:344 | the filter takes the value |
| MyRepairs.MyRepairsView.LoadItems | src/components/MyRepairs/MyRepairsPage.tsx:58-89 | the list becomes `VisibleItems` of the rows |
| MyRepairs.MyRepairsView.LoadRepairTracking | src/components/MyRepairs/MyRepairsPage.tsx:39-56 | the loop builds exactly `TrackingMap` of the rows |
| Marketplace.LoadedItems | src/components/Marketplace/MarketplacePage.tsx:24-32 | exactly the unsold items, of the category unless 'all', in order, each with its multiplicity in the rows |
| Marketplace.AllCategoriesKeepUnsold | src/components/Marketplace/MarketplacePage.tsx:30-32 | 'all' keeps every unsold item |
| Marketplace.FilteredItems | src/components/Marketplace/MarketplacePage.tsx:67-70 | exactly the items whose lower-cased title or description contains the lower-cased query, in order, each with its multiplicity |
| Marketplace.EmptyQueryKeepsAll | src/components/Marketplace/MarketplacePage.tsx:67-70 | an empty query keeps every item |
| Marketplace.SearchIgnoresQueryCase | src/components/Marketplace/MarketplacePage.tsx:67-70 | a query and its lower-case form match the same items |
| Marketplace.TitleFindsItem | src/components/Marketplace/MarketplacePage.tsx:67-70 | an item's own title, in any case, finds it |
| Marketplace.ConditionColor | src/components/Marketplace/MarketplacePage.tsx:52-65 | fair and unknown conditions share the gray; new, like_new, good do not |
| Marketplace.ListItemButtonRoles | src/components/Marketplace/MarketplacePage.tsx:83 | the button shows iff the role is repairer or refurbisher |
| RepairerDashboard.AvailableItems | src/components/RepairerDashboard/RepairerDashboard.tsx:37-53 | exactly the submitted items, in order, each with its multiplicity in the rows |
| RepairerDashboard.NewQuote | src/components/RepairerDashboard/RepairerDashboard.tsx:59-66 | a pending quote for the item by the current user with the form's price, duration and message |
| RepairerDashboard.QuoteDesk.LoadAvailableItems | src/components/RepairerDashboard/RepairerDashboard.tsx:37-53 | the list becomes `AvailableItems` of the rows |
| RepairerDashboard.QuoteDesk.ViewDetails | src/components/RepairerDashboard/RepairerDashboard.tsx:165-166 | selects the item, form closed |
| RepairerDashboard.QuoteDesk.OpenQuote | src/components/RepairerDashboard/RepairerDashboard.tsx:175-176 | selects the item, form open |
| RepairerDashboard.QuoteDesk.CloseDetails | src/components/RepairerDashboard/RepairerDashboard.tsx:201 | clears the selection |
| RepairerDashboard.QuoteDesk.SetPrice | src/components/RepairerDashboard/RepairerDashboard.tsx:282 | only the price input changes |
| RepairerDashboard.QuoteDesk.SetDuration | src/components/RepairerDashboard/RepairerDashboard.tsx:296 | only the duration input changes |
| RepairerDashboard.QuoteDesk.SetMessage | src/components/RepairerDashboard/RepairerDashboard.tsx:309 | only the message input changes |
| RepairerDashboard.QuoteDesk.CanSubmit | src/components/RepairerDashboard/RepairerDashboard.tsx:329 | the empty form never enables Submit |
| RepairerDashboard.QuoteDesk.Cancel | src/components/RepairerDashboard/RepairerDashboard.tsx:319-322 | closes and empties the form, which disables submit; the selection stays |
| RepairerDashboard.QuoteDesk.SubmitQuote | src/components/RepairerDashboard/RepairerDashboard.tsx:55-82 | a no-op without a user or selection, or when the insert fails; otherwise the pending quote is inserted, the item becomes quoted (no longer available), the form closes, the selection clears, the form empties |
| SubmitItem.WithField | src/components/Submit/SubmitItemPage.tsx:34-38 | only the named field changes |
| SubmitItem.NewItem | src/components/Submit/SubmitItemPage.tsx:66-76 | status submitted, the form's fields, cost bounds from the diagnosis or absent without one |
| SubmitItem.Awarded | src/components/Submit/SubmitItemPage.tsx:87-90 | the profile gains exactly ten points; id, email, full_name, avatar_url, role and created_at are kept |
| SubmitItem.Indicator | src/components/Submit/SubmitItemPage.tsx:125-133 | step s is done iff s < step, current iff s = step, pending iff s > step |
| SubmitItem.SubmitWizard.InputChange | src/components/Submit/SubmitItemPage.tsx:34-38 | only the named form field changes; the step stays in 1..3 |
| SubmitItem.SubmitWizard.CanContinue | src/components/Submit/SubmitItemPage.tsx:210 | the untouched initial form never enables Continue |
| SubmitItem.SubmitWizard.Continue | src/components/Submit/SubmitItemPage.tsx:209-210 | step 1 goes to 2 only with a name and a description |
| SubmitItem.SubmitWizard.Back | src/components/Submit/SubmitItemPage.tsx:275 | one step back (3 to 2, 2 to 1) |
| SubmitItem.SubmitWizard.Skip | src/components/Submit/SubmitItemPage.tsx:281 | step 2 goes to 3 |
| SubmitItem.SubmitWizard.StartDiagnosis | src/components/Submit/SubmitItemPage.tsx:40-41 | on step 2 with no diagnosis running, one starts |
| SubmitItem.SubmitWizard.FinishDiagnosis | src/components/Submit/SubmitItemPage.tsx:42-58 | the diagnosis is set and the wizard is on step 3 |
| SubmitItem.SubmitWizard.HandleSubmit | src/components/Submit/SubmitItemPage.tsx:61-96 | without a user or with a failed insert nothing changes; otherwise the item is inserted, a +10 transaction refers to it, the profile gains 10, and 'my-repairs' is requested |
| Navbar.NavItems | src/components/Layout/Navbar.tsx:24-34 | signed out exactly [home]; signed in home, submit, my-repairs, marketplace, then the dashboard last iff repairer or refurbisher |
| Navbar.DashboardEntryIff | src/components/Layout/Navbar.tsx:30-32 | the dashboard is offered iff signed in as repairer or refurbisher |
| Navbar.NavItemsDistinct | src/components/Layout/Navbar.tsx:24-34 | no page appears twice, so at most one entry is highlighted |
| Navbar.AtMostOneHighlighted | src/components/Layout/Navbar.tsx:55-60 | for any current page, two highlighted entries are the same entry |
| Navbar.EcoPointsShown | src/components/Layout/Navbar.tsx:74 | the profile's points, 0 without a profile |
| Navbar.DisplayName | src/components/Layout/Navbar.tsx:85 | the non-empty full name, else 'Utilisateur'; never empty |
| Navbar.NavbarState.ToggleMobileMenu | src/components/Layout/Navbar.tsx:106 | the menu flips |
| Navbar.NavbarState.ChooseMobileEntry | src/components/Layout/Navbar.tsx:122-124 | navigates to the entry and closes the menu |
| Navbar.NavbarState.SignOut | src/components/Layout/Navbar.tsx:15-22 | home is requested iff signing out succeeds |
| BottomNav.NavItems | src/components/Layout/BottomNav.tsx:12-25 | signed out exactly home and profile; signed in home, submit, my-repairs, the dashboard iff repairer or refurbisher, profile last |
| BottomNav.NavItemsDistinct | src/components/Layout/BottomNav.tsx:12-25 | no page appears twice, so at most one item is active |
| BottomNav.AtMostOneActive | src/components/Layout/BottomNav.tsx:30-32 | for any current page, two active items are the same item |
| BottomNav.DashboardAgreesWithNavbar | src/components/Layout/BottomNav.tsx:17-19 | the bottom bar offers the dashboard exactly when the top bar does |
| AuthModal.Translate | src/components/Auth/AuthModal.tsx:51-61 | the translation of the first known fragment the message contains, or the message itself |
| AuthModal.ErrorMessage | src/components/Auth/AuthModal.tsx:48-62 | generic for a missing or empty message; first matching fragment's text; an unmatched message unchanged; never empty |
| AuthModal.FirstMatchWins | src/components/Auth/AuthModal.tsx:51-58 | a message naming bad credentials and a bad email reports the credentials |
| AuthModal.RegisteredAnywhere | src/components/Auth/AuthModal.tsx:53 | 'User already registered' anywhere in the message is recognised |
| AuthModal.Flip | src/components/Auth/AuthModal.tsx:177 | the other mode |
| AuthModal.AuthForm.HandleSubmit | src/components/Auth/AuthModal.tsx:23-69 | the call matches the mode; success empties the inputs, role 'user', no error, close; failure keeps the inputs and shows the mapped error |
| AuthModal.AuthForm.Toggle | src/components/Auth/AuthModal.tsx:176-179 | the mode flips and the error clears; inputs kept |
| AuthModal.ToggleTwice | src/components/Auth/AuthModal.tsx:176-179 | toggling twice returns to the starting mode |
| App.Rendered | src/App.tsx:26-61 | only the loading screen while loading; otherwise exactly the page's own body: home, submit, my-repairs, repairer-dashboard, marketplace and profile each render their body, item-detail renders the selected item's detail iff the selected id is non-empty, and a page without a branch renders nothing |
| App.ItemDetailShowsSelection | src/App.tsx:53 | the detail page shows the selected item |
| App.RepairTrackingRendersNothing | src/App.tsx:45-61 | 'repair-tracking' renders no body |
| App.AppState.HandleNavigate | src/App.tsx:19-24 | the page always changes; the selected id only with a non-empty id |
| App.AppState.OpenAuthModal | src/App.tsx:40 | opens the dialog, page and selection kept |
| App.AppState.CloseAuthModal | src/App.tsx:63 | closes the dialog, page and selection kept |
| Database.UpdateRow | src/components/ItemDetail/ItemDetailPage.tsx:99 | an update by id rewrites that row only, adds and removes none, and changes nothing for an absent id |

## Left out

- Supabase itself (queries, inserts, updates, storage transfers, `createClient`): tables are maps in `Database.Db`, and a remote outcome is a boolean parameter. Reloads after writes (except the repairer profile's reload after a save), the `order(...)` of queries and loading/uploading flags are not modelled; lists keep the order of the rows given.
- RepairManagement.RepairManagement.CanSubmitUpdate: leaves out the button's `uploading` condition, since upload progress is not modelled.
- The contents of a query that joins other tables (repairs with items and quotes, items with profiles): only the filtered rows are modelled.
- `uploadMultipleFiles` runs all uploads concurrently, so valid files of a rejected batch may still be stored; the model only states the batch's result.
- Session and profile loading of the auth context, including its de-duplication of overlapping loads (concurrency).
- The Gemini network path (`generateContent`, image download, `testConnection`, `JSON.parse`) and the configuration and test screens: each is a parameter or absent.
- Clock readings, `Math.random`, generated row ids and notification ids: parameters.
- Floating point: prices, costs and confidence are reals; `parseFloat` is a parameter; a rating is a whole number of stars, so `Math.floor(rating * 10)` is `10 * rating`.
- Unicode case folding: lower-casing covers ASCII letters only.
- Timers and animation: notification auto-dismiss and the diagnosis delay; only the diagnosis's effect is modelled.
- Presentation: class strings beyond the colour tables, icons, and static page content.
- The failure branch of the rating submission (src/components/RepairTracking/RepairTrackingPage.tsx:124-127): there the caught error shadows the notifier, so nothing is notified.
- The profile point award reads then writes; it is modelled as one +10 update, not as a race.
- Lookups in JavaScript object tables by keys such as `constructor` or `toString`, which reach the object's prototype.
- The third argument of the navigation callback (the repair id sent by the Track button), which the shell's `handleNavigate` ignores.
- The data of the test items created by the My Repairs page; only the repair entries built for them are modelled.
- Storage.UploadMultiple: does not model the partial storage of valid files when a batch is rejected, because the uploads are concurrent effects of the storage service.
- RepairTracking.PointsForRating: states `10 * rating` for whole-star ratings only, because fractional ratings cannot be entered.
