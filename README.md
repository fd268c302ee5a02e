# exchange-ndr-handler, modelled in Dafny

`exchange-ndr-handler` is a set of small scripts that work on an Exchange
mailbox through EWS. The main one, `process-ndr-messages`, reads the
non-delivery reports (NDRs) in the Inbox. For each one it pulls the
RFC 3463 status code out of the body, finds the original message in Sent
Items, notifies a webhook and, on a permanent failure (class 5), adds the
bounced recipients to a "Blocked Recipients" contact group. It then files
the report in an "NDR Processed" folder. The other scripts share its shape:

- they page through a folder with `ItemView(size, offset)` cursors;
- then they act on what comes back:
  - `clean-account` purges old mail in batches of a hundred;
  - `purge-old-items` moves old mail to Deleted Items;
  - `find-duplicates` and `find-duplicates-per-day` group sent mail by content;
  - `count-sent-mail` counts sent mail per day;
  - `inbox-notification` tags new mail and posts one notification;
  - `scan-ndrs` prints the reports addressed to watched recipients.

The model replaces the Exchange server with a store of folders, contact
groups and a log of the mutating calls it received (`Mailbox.Store`). It
replaces the HTTP client with a transport that is either reachable or not
and logs what it was sent (`Http.Transport`). A search is a window on the
folder's items that satisfy a filter (`Paging.FindPage`):

- `Items` is the slice at the offset;
- `MoreAvailable` says whether results lie beyond the view;
- `NextPageOffset` is the end of the slice.

Every loop is specified only in terms of what the store returns.

The model has one module per file:

- **Wrappers**: `Option` and `Result`.
- **Text**: the character classes, case-insensitive comparison, HTML escaping, code-unit string order and decimal rendering.
- **Paging**: the search window and the traces of offset-advancing loops.
- **Mailbox**: the store.
- **Http**: the transport.
- **EwsConnect** and **BlockedRecipient**: the contact-group lookups.
- **NdrCode**: status-code extraction.
- **NdrProcessor**: `process-ndr-messages`.
- **EmailScan**: the `emailsInFolder` generator shared by the two duplicate finders.
- The remaining modules, one per script.

Where the design description of the repository and its code disagree, the
model follows the code:

- On a hard bounce the recipients are blocked after the webhook is called and before its result is looked at, whatever that result.
- The addresses blocked are the report's own `To` recipients.

## Model

| member | source | states |
|---|---|---|
| Text.Escape | process-ndr-messages.ts:110 | escaping never shortens a message id |
| Text.EscapeChangesIff | process-ndr-messages.ts:110 | the escaped id equals the id exactly when it holds none of `& < > " '`, and is longer otherwise |
| Text.StrLessIrreflexive | count-sent-mail.ts:40-42 | the order used to sort day keys is irreflexive |
| Text.StrLessTransitive | count-sent-mail.ts:40-42 | that order is transitive |
| Text.StrLessTotal | count-sent-mail.ts:40-42 | any two distinct keys are ordered one way or the other |
| Text.NatToString | inbox-notification.ts:44 | the count in the notification text is a non-empty run of decimal digits |
| Text.NatToStringValue | inbox-notification.ts:44 | reading the rendered count back from left to right gives the count; zero renders as "0" and no other count has a leading zero |
| Paging.FindPage | purge-old-items.ts:27-28 | a view holds at most `size` items, the slice of the results at the offset; `MoreAvailable` holds exactly when results lie beyond the view; `NextPageOffset` is the end of the slice |
| Paging.FixedPageStep | count-sent-mail.ts:34-37 | over results that do not change, the items before the offset plus the page are the items before the next offset; while more is available the offset strictly advances, and otherwise everything was read |
| Paging.TraceStep | purge-old-items.ts:40-43 | each request extends the trace of offsets and pages; a page without `MoreAvailable` closes it; while results do not grow, the distance to the end strictly shrinks, so the loop ends |
| Paging.PagesComplete | count-sent-mail.ts:19-38 | the pages of a scan from an offset yield exactly the results from that offset on; every page but the last is full, and the last is non-empty when anything was left |
| Paging.TraceOverFixedResults | count-sent-mail.ts:17-38 | a finished trace over results that do not change is exactly the sequence of pages from offset 0 |
| Mailbox.Matching | find-duplicates.ts:40-47 | a search returns, in folder order, exactly the items of the folder that satisfy every condition of the filter |
| Mailbox.MatchingAppend | find-duplicates.ts:40-47 | a search over two runs of items is the search over the first then over the second |
| Mailbox.TagAllMatching | inbox-notification.ts:117-122 | adding a category to an item never makes more items match a search |
| Mailbox.RelocatedShrinks | purge-old-items.ts:36 | moving or deleting items out of a folder never adds results to a search of that folder |
| Mailbox.RelocatedKeepsOthers | purge-old-items.ts:36 | a move leaves every folder other than its source and destination unchanged |
| Mailbox.MovesMembers | process-ndr-messages.ts:379 | the moves extracted from a call log are exactly its move calls |
| Mailbox.GroupsNamed | ews-connect.ts:74-83 | the hits of a contact-group search are exactly the groups whose display name equals the name, ignoring case |
| Mailbox.FoldersNamed | inbox-notification.ts:86-89 | a folder search by display name finds exactly the folders of that name, restricted to top level for a shallow search |
| Mailbox.Store.FindItems | purge-old-items.ts:27-28 | FindItems answers with the view of the folder's current search results at the offset |
| Mailbox.Store.LoadPropertiesForItems | find-duplicates.ts:59-66 | the overall result is Success exactly when every item's properties load, and Error otherwise |
| Mailbox.Store.Move | purge-old-items.ts:36 | the item leaves its folder, is appended to the destination and one move is logged; nothing else changes |
| Mailbox.Store.DeleteItems | clean-account.ts:69 | one response per id, Success exactly when the id was in the folder; the items go to Deleted Items, or disappear on a hard delete; one call is logged |
| Mailbox.Store.AddCategory | inbox-notification.ts:140-142 | the item gains the category and one update is logged |
| Mailbox.Store.FindFolders | inbox-notification.ts:79-95 | the first `size` folders of that name, and the total count of them |
| Mailbox.Store.ListFolders | clean-account.ts:96-101 | the first `size` folders of the deep listing, in order |
| Mailbox.Store.SaveFolder | process-ndr-messages.ts:282-287 | a new top-level folder with that name and a fresh id, empty, appended to the list; one save is logged |
| Mailbox.Store.FindGroups | ews-connect.ts:84-88 | the first `size` contact groups with that name |
| Mailbox.Store.SaveGroup | ews-connect.ts:95-100 | a new empty group with that name is appended and one save is logged |
| Mailbox.Store.UpdateGroup | process-ndr-messages.ts:197-199 | the group's members are replaced and one update is logged; nothing else changes |
| Http.Transport.PostJson | inbox-notification.ts:49-54 | a post succeeds exactly when the endpoint is reachable, and every post is logged with its URL and payload |
| EwsConnect.GetConfigFromEnvironmentVariable | ews-connect.ts:11-23 | a configuration exists exactly when the variable is set, non-empty and parses, and it is then the parsed value |
| EwsConnect.CollectionToArray | ews-connect.ts:103-110 | the array has `Count` elements, element i being item i |
| EwsConnect.FindOrCreateEffect | ews-connect.ts:69-101 | several matches give no group and change nothing; one match gives that group unchanged; no match creates, saves and returns a group with the name |
| EwsConnect.ViewOfTwoDecides | ews-connect.ts:84-94 | a view of two hits is enough to tell none, one and several apart, and shows the single hit |
| EwsConnect.FindOrCreateContactGroup | ews-connect.ts:69-101 | the store's groups and call log change exactly as the find-or-create decision says, and nothing else changes |
| BlockedRecipient.FindContactGroup | getBlockedRecipient.ts:11-40 | a group is returned exactly when one group has the name, and it is that group; nothing is ever created |
| BlockedRecipient.MemberAddresses | getBlockedRecipient.ts:55-61 | an address is in the set exactly when some member has it |
| BlockedRecipient.GetBlockedRecipients | getBlockedRecipient.ts:51-62 | the empty set without a single "Blocked Recipients" group, and otherwise exactly its members' addresses |
| NdrCode.ResponseAt | process-ndr-messages.ts:127 | the first pattern matches at a position with the capture it returns, and with no other |
| NdrCode.ExtractRemoteResponse | process-ndr-messages.ts:127-129 | the capture of the leftmost case-insensitive match of `Remote Server returned '…'`, and nothing exactly when there is no match |
| NdrCode.CodeAt | process-ndr-messages.ts:131 | the second pattern matches at a position with the code it returns, and with no other |
| NdrCode.FirstCode | process-ndr-messages.ts:131 | the code of the leftmost match from a position on, and nothing when no position matches |
| NdrCode.ExtractNdrErrorCode | process-ndr-messages.ts:126-137 | a returned code has the shape `[45].d.d{1,3}` and is the leftmost code in the leftmost response; nothing exactly when there is no response or no code in it |
| NdrCode.LeftmostResponseUnique | process-ndr-messages.ts:127 | the leftmost response is unique |
| NdrCode.LeftmostCodeUnique | process-ndr-messages.ts:131 | the leftmost code is unique |
| NdrCode.CodeShapeSeverity | process-ndr-messages.ts:23-25 | a code of that shape starts with `4.` or `5.`, and is a hard bounce exactly when it starts with `5` |
| NdrCode.ExtractedCodeSeverity | process-ndr-messages.ts:23-25 | every extracted code is of class 4 or 5, and is a hard bounce exactly when it is of class 5 |
| NdrCode.ExampleHardBounce | process-ndr-messages.ts:126-137 | `Remote Server returned '550 5.1.1 unknown user'` yields `5.1.1` |
| NdrProcessor.TryGetValue | process-ndr-messages.ts:92-98 | a property yields a value exactly when the item has it under the schema's tag and type |
| NdrProcessor.FilterNotEmpty | process-ndr-messages.ts:19-21 | `filter(notEmpty)` keeps exactly the present values |
| NdrProcessor.ExtendedPropertiesExact | process-ndr-messages.ts:91-101 | the projection is exactly the schema entries the item has, in schema order, each with its declared name and type; a missing one is dropped |
| NdrProcessor.FindByNameFirst | process-ndr-messages.ts:230-232 | the search by name finds the first value with that name, and nothing exactly when none has it |
| NdrProcessor.OriginalMessageIdOfItem | process-ndr-messages.ts:36-45 | reading the original message id from the projection gives the item's stored non-empty string id |
| NdrProcessor.Fetched | process-ndr-messages.ts:103-122 | the original is found exactly when the escaped id has a single hit in Sent Items, and it is that hit |
| NdrProcessor.FetchItemByMessageId | process-ndr-messages.ts:103-122 | the lookup returns what `Fetched` decides for the current Sent Items |
| NdrProcessor.InvokeWebhook | process-ndr-messages.ts:139-164 | a dry run succeeds without posting; otherwise exactly one notice is posted, and the call succeeds exactly when the post does |
| NdrProcessor.NewMembersExact | process-ndr-messages.ts:181-196 | the members added are exactly the recipients with a non-empty address absent from the group before the loop |
| NdrProcessor.BlockEffectCalls | process-ndr-messages.ts:166-201 | blocking issues at most one update, as its last call and never in a dry run; its other calls only create the group; it moves nothing |
| NdrProcessor.BlockEffectMembers | process-ndr-messages.ts:166-201 | only the block-list group changes; its old members stay first; each added member is new and non-empty; a dry run adds nothing, otherwise every eligible recipient is added |
| NdrProcessor.MergeMembers | process-ndr-messages.ts:180-196 | the merged list is the old list plus the new members, or the old list in a dry run; `changed` holds exactly when something was added outside a dry run |
| NdrProcessor.BlockRecipients | process-ndr-messages.ts:166-201 | the groups and the call log change exactly as the block effect says; folders are untouched |
| NdrProcessor.PlanProcessedIff | process-ndr-messages.ts:207-263 | a report is processed exactly when it is an NDR with a code and either has no usable original id, or its original is the single hit and the webhook succeeds (a dry run always succeeds) |
| NdrProcessor.PlanBlocksHardBounces | process-ndr-messages.ts:243-251 | recipients are blocked exactly for a hard bounce whose original was found; the report's `To` recipients are blocked; the webhook result plays no part |
| NdrProcessor.PlanNotices | process-ndr-messages.ts:236-242 | a notice for the original id and code is posted exactly when the original was found outside a dry run, and then processing succeeds exactly when it went through |
| NdrProcessor.ProcessOneNdrItem | process-ndr-messages.ts:207-263 | the outcome, the posts, the block-list changes and the call log are exactly those of the decision tree, and nothing is moved |
| NdrProcessor.FindOrCreateFolder | process-ndr-messages.ts:265-288 | several top-level folders of the name give nothing and change nothing; one gives it; none creates and returns a new folder |
| NdrProcessor.MovesForIff | process-ndr-messages.ts:374-381 | an item is moved to the processed folder exactly when its outcome is processed and it is not a dry run |
| NdrProcessor.HandleNdr | process-ndr-messages.ts:207-263 | the report gets the outcome of its plan; the webhook receives exactly the plan's notice and the block list changes exactly as the plan's blocked recipients say; nothing is moved |
| NdrProcessor.MoveProcessed | process-ndr-messages.ts:374-381 | the report leaves the Inbox for the processed folder and the call log records the move; the contact groups stay as they were |
| NdrProcessor.HandleItem | process-ndr-messages.ts:367-382 | one report gets its expected outcome, is moved exactly when it was processed outside a dry run, and its plan's notice is posted and its plan's recipients blocked |
| NdrProcessor.HandlePage | process-ndr-messages.ts:367-382 | the items of a page get their expected outcomes in order and the moves follow them; the folders are those the moves leave; the posts are the old ones followed by each item's notice in page order; the groups are the fold of each item's block effect; the Inbox search never grows |
| NdrProcessor.EffectsCompose | process-ndr-messages.ts:362-388 | the folders, posts and groups after two runs of reports, one after the other, are those after the run of both |
| NdrProcessor.DryRunEffects | process-ndr-messages.ts:374-381 | in a dry run the scan's folders are unchanged and no notice is posted, whatever the outcomes |
| NdrProcessor.ScanInbox | process-ndr-messages.ts:362-388 | views of ten from offset 0, continuing at `NextPageOffset` while `MoreAvailable`; every report received is handled once; the moves match the outcomes; the folders, posts and groups are the folds of the per-report moves, notices and block effects over the reports received |
| NdrProcessor.ProcessNdrMessages | process-ndr-messages.ts:320-389 | no configuration exits with 4 and touches nothing; an ambiguous processed folder exits with 2 and touches nothing; otherwise the Inbox scan is filed into the found or created folder, and the folders, posts and groups are the scan's folds starting from the folders after that folder was made |
| CleanAccount.ResultSymbol | clean-account.ts:11-15 | Success, Warning and Error are shown as `.`, `W` and `E`, each symbol for exactly one result |
| CleanAccount.SymbolsIndex | clean-account.ts:72 | the progress line has one symbol per response, in order |
| CleanAccount.SymbolsInjective | clean-account.ts:72 | the progress line determines the responses |
| CleanAccount.DeleteBatch | clean-account.ts:69 | one DeleteItems call per batch with one response per id; the batch's items leave the folder for Deleted Items, or for nowhere on a hard delete; the folder's search never grows |
| CleanAccount.BufferPage | clean-account.ts:66-74 | pushing a page's ids keeps the invariant: full batches of a hundred then a buffer of under a hundred give back every id, one response per flushed id, counted and shown |
| CleanAccount.ScanAndBuffer | clean-account.ts:24-46 | views of 500 from offset 0, the offset growing by the page length while `MoreAvailable`; every id received is pushed, in page order |
| CleanAccount.FinishWithFlush | clean-account.ts:75-81 | when ids are left, one last call takes them and the progress line is closed |
| CleanAccount.FinishWithoutFlush | clean-account.ts:75-81 | with an empty buffer no call follows, and the line is closed only if something was purged |
| CleanAccount.PurgeItems | clean-account.ts:55-83 | the ids received are cut into batches of a hundred, the last possibly shorter, in order; each batch is one DeleteItems call whose items leave the folder; the count is the number of responses |
| CleanAccount.BatchesKeepOthers | clean-account.ts:69 | purging a folder changes no folder but it and Deleted Items |
| CleanAccount.BatchesEmptyFolder | clean-account.ts:69 | after a purge that is hard or not of Deleted Items, the folder holds only items it held before, none of them one a batch sent |
| CleanAccount.NamedFoldersExact | clean-account.ts:102 | the identifiers are exactly the listed folders whose display name is one of the names |
| CleanAccount.IdentifiersFromNames | clean-account.ts:95-103 | the named folders among the first thousand of the deep listing, in listing order |
| CleanAccount.PurgeRunOf | clean-account.ts:55-83 | one purge run records its folder, cutoff and mode, batches its ids by a hundred and counts them all; the folders afterwards are those its batches' deletes leave |
| CleanAccount.MoveOldItems | clean-account.ts:113-125 | one soft purge per target folder, in order, with the same cutoff; the folders afterwards are those the runs' deletes leave, in order |
| CleanAccount.RunsKeepOthers | clean-account.ts:113-125 | runs on other folders leave a folder other than Deleted Items as it was |
| CleanAccount.CleanAccountMain | clean-account.ts:105-129 | an unparseable date exits with 1 and touches nothing; otherwise Inbox, Sent Items, Calendar and the named folders are purged in that order, then Deleted Items is hard-purged with the cutoff three months earlier; the folders afterwards are those all these deletes leave, in order |
| CleanAccount.CleanKeepsOthers | clean-account.ts:105-129 | the clean-up leaves every folder that is neither a target nor Deleted Items as it was |
| CleanAccount.CleanEmptiesTrash | clean-account.ts:127-128 | after the final hard delete, Deleted Items holds none of the items that delete sent |
| PurgeOldItems.MovesOfIndex | purge-old-items.ts:33-37 | move k sends item k to Deleted Items |
| PurgeOldItems.MovePage | purge-old-items.ts:33-37 | every item of a page is moved to Deleted Items and counted once; no other folder changes |
| PurgeOldItems.PurgeItems | purge-old-items.ts:19-46 | views of a thousand from offset 0, continuing at `NextPageOffset` while `MoreAvailable`; every item received satisfies the filter, is moved once and counted once |
| PurgeOldItems.PurgeFolder | purge-old-items.ts:19-46 | one finished run over a folder, its moves in the call log, and no other folder touched |
| PurgeOldItems.RunMovesOnlyOld | purge-old-items.ts:58-61 | every item a run moved was created before the cutoff |
| PurgeOldItems.ProcessItems | purge-old-items.ts:48-70 | an unparseable date returns -1 and touches nothing; otherwise Inbox, Sent Items and Calendar are purged in that order, each from its contents before the script |
| CountSentMail.DayKeys | count-sent-mail.ts:27-32 | one day key per item, in order |
| CountSentMail.CountSentMail | count-sent-mail.ts:7-46 | the keys collected are those of every sent item after the cutoff, and the pairs are their sorted counts |
| CountSentMail.DatesAfterCutoff | count-sent-mail.ts:12-15 | every key collected is the day of a sent item created after the cutoff |
| CountSentMail.FirstSeenMembers | count-sent-mail.ts:39-40 | the days listed are exactly the days that occur, each once |
| CountSentMail.CountsAddUp | count-sent-mail.ts:39 | the per-day counts add up to the number of keys |
| CountSentMail.InsertSorted | count-sent-mail.ts:40-42 | inserting a new day keeps the pairs increasing, adds the pair and its count |
| CountSentMail.SortPairsSorted | count-sent-mail.ts:40-42 | sorting yields increasing keys and a permutation of the pairs |
| CountSentMail.SortedCountsCorrect | count-sent-mail.ts:39-45 | the output is strictly increasing by day, lists exactly the days that occur, gives each its count, and the counts sum to the total |
| EmailScan.LoadPage | find-duplicates.ts:59-66 | a page's load fails exactly when some item on it cannot be loaded |
| EmailScan.RecordOf | find-duplicates.ts:101-114 | the identifier of an e-mail is its body hash, subject and `To` line, and the record keeps its sent time and message id |
| EmailScan.WithKeyMembers | find-duplicates.ts:107-114 | the records of an identifier are exactly the records with that identifier |
| EmailScan.GroupCollects | find-duplicates.ts:101-114 | the collection lists each identifier once, holds for each exactly its records in push order, and its sizes sum to the number pushed |
| EmailScan.DuplicateGroupsExact | find-duplicates.ts:118 | the duplicate list is exactly the arrays holding more than one record |
| EmailScan.Cap | find-duplicates.ts:115 | the count consumed is the number available, or the cap when that is smaller |
| EmailScan.ConsumePage | find-duplicates.ts:95-115 | the page's records are pushed in order until the cap is reached, and the loop stops exactly at the cap |
| EmailScan.ReadPage | find-duplicates.ts:51-74 | one view: a failed load throws before anything is pushed; otherwise the page is consumed and the offset grows by its length |
| EmailScan.CollectEmails | find-duplicates.ts:32-75 | the scan throws at the first view whose load fails; otherwise the collection holds the first e-mails up to the cap, grouped by identifier |
| EmailScan.LoadedBeforeEarlier | find-duplicates.ts:51-74 | the views are requested one after another from offset 0, so every view before the last one requested has loaded |
| EmailScan.FailureUnique | find-duplicates.ts:59-66 | a scan can throw at one view only, the first whose load fails |
| EmailScan.CompleteScanLoads | find-duplicates.ts:51-74 | when the last view loads and reaches the end of the results, no view of the scan fails to load |
| EmailScan.CollectedAll | find-duplicates.ts:32-75 | without a cap the collection holds every matching e-mail |
| FindDuplicates.ReportOf | find-duplicates.ts:117-122 | the report counts the identifiers and lists exactly the arrays of more than one record |
| FindDuplicates.ReportExact | find-duplicates.ts:95-118 | no more identifiers than e-mails, none exactly when there are no e-mails, and the list holds exactly the e-mails of each identifier sent more than once |
| FindDuplicates.FindDuplicatesMain | find-duplicates.ts:78-123 | every view before the last one requested loaded; the script throws exactly when that last view fails to load, which happens before 10000 e-mails were consumed; otherwise the last view is the one holding the last e-mail consumed, and the report covers the first 10000 e-mails sent on 6 April 2022 (all of them when fewer) |
| FindDuplicates.ReportedDuplicates | find-duplicates.ts:95-118 | the report covers at most 10000 e-mails and lists exactly the contents sent more than once among them |
| FindDuplicatesPerDay.WindowsDisjoint | find-duplicates-per-day.ts:89-90 | no e-mail lies in the windows of two different days |
| FindDuplicatesPerDay.MidnightInNoWindow | find-duplicates-per-day.ts:89-90 | both bounds are strict, so an e-mail sent exactly at midnight is in no day's window |
| FindDuplicatesPerDay.DaysScanned | find-duplicates-per-day.ts:87-135 | the loop scans day 100 up to the current day, and day 100 alone when the current day is earlier |
| FindDuplicatesPerDay.LineMeaning | find-duplicates-per-day.ts:125-126 | a day's line has no more duplicated identifiers than identifiers, and no more identifiers than e-mails; zero identifiers exactly on a day without e-mail |
| FindDuplicatesPerDay.ScanDay | find-duplicates-per-day.ts:89-126 | a day starts from a fresh collection; it fails exactly when some view of the day's scan fails to load, and then at the first such view; otherwise its line is that of all its e-mails |
| FindDuplicatesPerDay.DayFailsOnce | find-duplicates-per-day.ts:89-126 | the scan of a day fails at one view only |
| FindDuplicatesPerDay.LogDay | find-duplicates-per-day.ts:88-135 | one turn of the do-while loop: when the day's scan fails nothing is logged and the failure is at a view of that day; otherwise exactly one line is added; every logged line stays that of its day and none of the logged days fails |
| FindDuplicatesPerDay.FindDuplicatesPerDayMain | find-duplicates-per-day.ts:77-136 | one line per day from day 100 on, each that day's; the script fails exactly at the first day whose scan has a view that fails to load, after the lines of the earlier days, none of which fails; it ends without failure only after the current day |
| InboxNotification.Notice | inbox-notification.ts:39-47 | the message is the custom one when truthy, else "You have new support mail"; the text is the custom one when truthy, else the default sentence |
| InboxNotification.DefaultTextNumber | inbox-notification.ts:44-46 | the default sentence says "message" with an "s" exactly when there is more than one |
| InboxNotification.InvokeWebhook | inbox-notification.ts:29-55 | exactly one notice is posted, and the call reports failure exactly when the post fails |
| InboxNotification.GetFolderIdFromName | inbox-notification.ts:74-102 | the first folder of the given name, or Inbox when no name is given or none is found |
| InboxNotification.FolderIsNamedOrInbox | inbox-notification.ts:74-102 | the folder used is Inbox or a folder with the configured name |
| InboxNotification.TaggedIsNoLongerNew | inbox-notification.ts:117-122 | a message just tagged no longer matches the search for new messages |
| InboxNotification.TagPage | inbox-notification.ts:138-144 | every message of a page is tagged, updated and counted once, in order; the folder afterwards is its former contents with those messages tagged, every other folder is unchanged, and the search for new messages never grows |
| InboxNotification.TagNewMessages | inbox-notification.ts:129-150 | views of 100 from offset 0, continuing at `NextPageOffset` while `MoreAvailable`; every message received was new, is tagged, updated and counted once; the folder afterwards is its former contents with exactly the received messages tagged, and every other folder is unchanged |
| InboxNotification.TagOne | inbox-notification.ts:138-143 | one message of the folder gets the tag and one update is logged; the other folders are unchanged |
| InboxNotification.TagEachMeaning | inbox-notification.ts:138-143 | tagging a run of messages keeps the folder's messages and their order, adds only copies of the tag, and adds one exactly to the messages listed |
| InboxNotification.TaggedAreNoLongerNew | inbox-notification.ts:117-122 | after tagging, no message the scan received matches the search for new messages |
| InboxNotification.TaggedOnlyNew | inbox-notification.ts:117-122 | each update targets a message that lacked the tag |
| InboxNotification.ProcessInbox | inbox-notification.ts:104-160 | no configuration exits with 4 and touches nothing; otherwise the messages received as new are tagged in the chosen folder and nowhere else, and one notice with their number is posted exactly when there was at least one |
| ScanNdrs.PrintedExact | scan-ndrs.ts:80-88 | a printout is exactly the creation time and text of a scanned notice addressed to a watched recipient |
| ScanNdrs.NothingPrinted | scan-ndrs.ts:9-11 | with the empty watch list nothing is printed |
| ScanNdrs.PageCount | scan-ndrs.ts:42-57 | a scan needs one view of 500 per 500 results, and at least one |
| ScanNdrs.ScanFolder | scan-ndrs.ts:38-58 | the printouts are those of every result of the folder, with a one-second pause after every view, the last included |
| ScanNdrs.ScanFolders | scan-ndrs.ts:38-58 | folders are scanned in the order given, each from offset 0 |
| ScanNdrs.ScanNdrsMain | scan-ndrs.ts:61-90 | without an "NDR Processed" folder it fails before any search; otherwise the last such folder and then Deleted Items are scanned |

## Left out

- The EWS library and session (`withEwsConnection`, credentials, the exit with code 4 when no session opens) are replaced by the store. Bind is the snapshot of the item found; a failing Bind is not modelled.
- HTTP posts are an abstract success or failure of a reachable endpoint. Network errors other than failure, and the axios details, are not modelled.
- Http.Transport.PostJson: whether the endpoint answers is fixed for the whole run (`reachable`), so a run in which one post fails and a later post succeeds (or the reverse) is not represented; every contract built on it (`NdrProcessor.PlanFor`, `InboxNotification.ProcessInbox`) assumes the same answer for every post of a run.
- The mailjet payload of `process-ndr-messages` is opaque (`NdrNotice`): `createMailjetEvent` is an empty stub, and mailjet-event.ts is not part of this model.
- get-blocked-recipients.ts only prints the group members and is not part of this model.
- Console output, `writeProgress`, `writeError` and logging are not modelled. They include the every-50 progress log of `find-duplicates` and the printing of `count-sent-mail` and `scan-ndrs`. The progress symbols of `clean-account`, the printouts of `scan-ndrs` and the counts are returned instead.
- Dates are milliseconds since the epoch. `Date.parse`, `DateTime.Now`, `Format("yy-MM-DD")` and `AddMonths` are inputs: an optional cutoff, the `format` and `addMonths` functions, and the current day.
- Md5 hashing of bodies is a function parameter.
- The floating-point ratio `filteredLength / unfilteredLength` of `find-duplicates-per-day` is not modelled. On a day without e-mail it is NaN.
- `sleep` is modelled as the list of pauses it makes.
- `identifiersFromNames`, used by scan-ndrs.ts, is not defined in ews-connect.ts. Its result is a parameter of `ScanNdrs.ScanNdrsMain`.
- Environment variables, `JSON.parse` and zod validation come in as an optional configuration or a parse function.
- Server-side string comparisons and the `i` flag of the regular expressions are modelled as ASCII case-insensitive equality. These cover item class, display name, message id and categories.
- `localeCompare` on the day keys is modelled as code-unit order (`StrLess`). The keys have the fixed `yy-MM-DD` digit shape, on which the two orders agree.
- The mailbox link of `inbox-notification` is a parameter.
- CleanAccount.CleanAccountMain: each run records its ids and batches but does not tie them to the pages scanned. `CleanAccount.PurgeItems` states that link for a single folder.
- NdrProcessor.ScanInbox, PurgeOldItems.PurgeItems, InboxNotification.TagNewMessages: no claim that every matching item is visited. These loops move or tag items while the offset advances, so a server can skip items; only what they do with the pages they receive is stated.
- NdrProcessor.ScanInbox, NdrProcessor.HandlePage, NdrProcessor.ProcessNdrMessages: the expected outcomes, posts and groups are stated only when the processed folder is not Sent Items. Otherwise the moves change the folder in which later originals are searched; the folders and the moves are still stated in that case.
- `LoadPropertiesForItems` in `process-ndr-messages` is called, but its result is ignored, as in the source. Property values come from the item.
