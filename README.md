# AI-Instagram-Assistant core, modelled in Dafny

This project models the parts of the assistant that run without the
outside world: the per-user bookkeeping the webhook and the batch worker
keep in Redis, the slot search with its advisory holds, the message
chunker, and the input validators. Each part is a Dafny module, with its
properties proved about the model.

**The Redis bookkeeping.** The store is `KeyValue` (pure functions over a
map from key to value and expiry) together with `RedisStore.Store` (a
class whose methods are single atomic Redis commands). The clock is an
integer number of milliseconds. `Coordination` covers:
- the processing lock (`processing_lock:`);
- the debounce flag (`scheduled:`);
- the message queue (`message_queue:`);
- the human-override mute (`mute:`);
- the image counter (`images_pending:`) and the analyses list (`image_analysis:`);
- the conversation history (`chat:`);
- the webhook's reaction and image branches;
- `process_user_messages`.

Each operation is a pure function of the store. A method on `Store` is
proved to perform exactly that function, and lemmas state what the
function guarantees.

**Processing a batch.** `Batch` covers ordering the queue, combining the
texts with the image analyses, and trimming the history. `Sorting` is
Python's stable sort with a key. `Intents` covers the intent ranking, the
DD/MM/YYYY date conversion, and the phone-number scan of the history.

**The calendar.** `Durations` covers duration rounding and defaulting.
`Slots` covers `check_availability`'s hourly grid with its overlap and
hold filters, the hold writes, and `create_booking`'s hold release.
`CalendarText` covers `format_duration_display`,
`format_available_slots_message`, and the description rewrite of
`reschedule_booking`.

**Messages and validation.** `Messaging` covers `_split_message` and
`send_long_message`. `Validation` covers the validators.

**Supporting modules.**
- `Text`: Python's `strip`, `split`/`join`, `rfind` and `str(int)` on strings.
- `Dates`: proleptic Gregorian dates, `weekday()`, and the `strftime`/`strptime` formats the code uses.
- `Events`: the webhook and queue values.
- `Wrappers`: `Option` and `Result`.

Python exceptions the code raises and handles become the `None` or
`Err` of an `Option` or a `Result`. Calls into services the code cannot
see are parameters of the model:
- the assistant's reply;
- each image's analysis outcome;
- the calendar listing and insert;
- `re.findall`;
- the random jitter.

## Model

| member | source | states |
|---|---|---|
| Validation.ValidatePhoneNumber | validation.py:16-56 | empty input is rejected; an accepted number is exactly ten ASCII digits with a 69, 68 or 2 prefix, and is the input with separators removed and the Greek country code dropped |
| Validation.CleanPhone | validation.py:33 | the cleaned number holds no whitespace, '-', '(' or ')' |
| Validation.CleanPhoneAppend | validation.py:33 | the separator removal works character by character (it distributes over concatenation) |
| Validation.PhonePlain | validation.py:43-56 | a bare ten-digit number with a Greek prefix validates to itself |
| Validation.PhoneSeparatorsIgnored | validation.py:33 | inserting spaces, dashes or parentheses anywhere does not change the outcome |
| Validation.PhoneCountryCode | validation.py:36-37 | "+30", separated from the number or not, is dropped, so "+30 6912345678" gives "6912345678" |
| Validation.PhoneNormalised | validation.py:16-56 | validation is idempotent: an accepted number validates to itself |
| Validation.ValidateDate | validation.py:59-86 | accepted exactly when the text parses as %Y-%m-%d to a date not before today, which is returned; otherwise an error |
| Validation.ValidateDateRoundTrip | validation.py:59-86 | a rendered date validates back to the same date exactly when it is not in the past |
| Validation.ValidateTime | validation.py:89-118 | an accepted time parses as %H:%M and has 11 <= hour < 20; otherwise an error |
| Validation.ValidateTimeRoundTrip | validation.py:89-118 | a rendered time validates back to (hour, minute) exactly within business hours |
| Validation.ValidateDuration | validation.py:121-159 | both absent gives 1.0; an explicit duration is accepted iff in (0, 10] and returned unchanged; a price is accepted iff in (0, 5000], giving price/100 hours rounded up to 5 minutes |
| Validation.ValidateDurationAgrees | validation.py:121-159 | on every accepted input the validator yields the duration the calendar code uses (calendar_functions.py:156-162) |
| Validation.CheckStrippedName | validation.py:175-190 | a stripped name is accepted iff it has 2 to 100 characters and matches the name pattern, and is returned unchanged |
| Validation.ValidateCustomerName | validation.py:162-190 | empty input is rejected; accepted iff the stripped name has 2 to 100 characters and matches the pattern; the result is the stripped name |
| Validation.CustomerNameAccepted | validation.py:175-190 | because a stripped name never ends in a newline, acceptance is exactly "2 to 100 characters, all from the class" |
| Validation.CustomerNameNormalised | validation.py:162-190 | an accepted name validates again to itself |
| Validation.AcceptedNameStripped | validation.py:175-190 | an accepted name is its own strip, so revalidating it only repeats the length and pattern checks |
| Validation.ValidateEventIdAsWritten | validation.py:193-216 | the validator as written: accepted iff non-empty, at most 1024 characters and matching `^[a-zA-Z0-9_]+$` with `$` allowing a final newline |
| Validation.EventIdNewlineAccepted | validation.py:210 | as written, "abc\n" is accepted and returned with its newline |
| Validation.ValidateEventId | validation.py:193-216 | accepted iff 1 to 1024 characters, all from [A-Za-z0-9_]; returned unchanged |
| Validation.EventIdVersionsAgree | validation.py:193-216 | the two versions agree on every id that does not end in a newline |
| Validation.KeepAllowed | validation.py:241-245 | the filter never lengthens the text and keeps only allowed characters |
| Validation.KeepAllowedSubsequence | validation.py:241-245 | the filter only deletes characters: the result is a subsequence of its input |
| Validation.KeepAllowedMembers | validation.py:241-245 | a character survives the filter iff it occurs in the input and is allowed |
| Validation.SanitizeTextInput | validation.py:219-245 | empty input gives ""; an error iff the stripped text is longer than max_length; otherwise the allowed characters of the stripped text |
| Validation.SanitizeKeepsAllowed | validation.py:219-245 | the result is a subsequence of the stripped input, no longer than max_length, holding exactly the allowed characters of it |
| Durations.Ceil | calendar_functions.py:129 | math.ceil: the least integer not below x |
| Durations.RoundedMinutes | calendar_functions.py:126-129 | the rounded minutes are a multiple of 5, at least the duration, and less than 5 minutes above it |
| Durations.RoundDuration | calendar_functions.py:115-132 | the result in hours is the rounded minutes divided by 60 |
| Durations.RoundDurationLeast | calendar_functions.py:115-132 | the rounding is the least multiple of 5 minutes not below the duration |
| Durations.RoundDurationFixed | calendar_functions.py:115-132 | a duration already on the 5-minute grid is unchanged |
| Durations.RoundDurationIdempotent | calendar_functions.py:115-132 | rounding twice is rounding once |
| Durations.BookingDuration | calendar_functions.py:156-162 | a given duration is used as is; neither gives 1 hour; a price alone gives a duration on the 5-minute grid, at least price/100 hours and less than 5 minutes above it |
| Dates.NextDay | calendar_functions.py:197 | the day after a valid date is a valid, later date |
| Dates.NextDayIsNext | calendar_functions.py:283 | no valid date lies strictly between a date and the next day, so the day loop visits every date |
| Dates.AddDays | calendar_functions.py:283 | adding days keeps a valid date and moves forward |
| Dates.DaysBeforeYearClosed | calendar_functions.py:196 | the year-by-year day count equals CPython's closed form for toordinal |
| Dates.OrdinalNextDay | calendar_functions.py:283 | the next day has the next ordinal |
| Dates.OrdinalAddDays | calendar_functions.py:283 | adding n days adds n to the ordinal |
| Dates.OrdinalMonotone | calendar_functions.py:194 | ordinals order dates chronologically |
| Dates.OrdinalInjective | calendar_functions.py:194 | a valid date is determined by its ordinal |
| Dates.Weekday | calendar_functions.py:196 | weekday() is a number from 0 (Monday) to 6 (Sunday) |
| Dates.WeekdayNextDay | calendar_functions.py:196-197 | the day after a date falls on the next weekday |
| Dates.FormatDate | calendar_functions.py:275 | '%Y-%m-%d' of a year below 10000 has ten characters |
| Dates.FormatHM | calendar_functions.py:276 | '%H:%M' of a time of day has five characters |
| Dates.ParseTime | calendar_functions.py:223 | a parsed '%H:%M' time has hour < 24 and minute < 60 |
| Dates.ParseDate | calendar_functions.py:542 | a parsed '%Y-%m-%d' date is a valid date with a year below 10000 |
| Dates.ParseFormatTime | calendar_functions.py:276 | reading back a rendered time gives the same hour and minute |
| Dates.ParseFormatDate | calendar_functions.py:542 | reading back a rendered date gives the same date |
| Dates.ParseTimeShape | calendar_functions.py:223 | only text of the shape H:M parses as a time |
| Dates.ParseDateTime | calendar_functions.py:330 | a parsed "%Y-%m-%d %H:%M" is a valid date with a year below 10000, an hour below 24 and a minute below 60 |
| Dates.ParseDateTimeJoined | calendar_functions.py:330 | a date and a time joined by any non-empty run of whitespace parse as that date and time |
| Dates.ParseDateTimeLenient | calendar_functions.py:330 | a time with an extra leading space does not parse alone, yet the joined string still parses: the format's space matches a run of whitespace |
| Dates.LeadingSpaceNoTime | calendar_functions.py:330 | a text starting with whitespace never parses as %H:%M |
| Text.TrimLeft | src/services/messaging_service.py:158-159 | lstrip returns a suffix of its input that does not start with whitespace |
| Text.TrimRight | src/services/messaging_service.py:158-159 | rstrip returns a prefix of its input that does not end with whitespace |
| Text.StripEnds | src/services/messaging_service.py:158-159 | a stripped string neither starts nor ends with whitespace |
| Text.StripIdempotent | src/services/messaging_service.py:158-159 | stripping twice is stripping once |
| Text.StripKeepsNonSpace | src/services/messaging_service.py:158-159 | strip removes whitespace only |
| Text.RFind | src/services/messaging_service.py:150-153 | rfind(c, 0, end) is -1 or an index below end holding c, with no c after it before end |
| Text.Split | app.py:863 | split gives at least one piece, and no piece holds the separator |
| Text.JoinSplit | calendar_functions.py:482-502 | joining the pieces of a split gives back the text |
| Text.SplitJoin | app.py:863 | splitting a join of separator-free pieces gives back the pieces |
| Text.NatToStringValue | calendar_functions.py:573 | str(n) reads back as n |
| Text.ZFill2 | app.py:864 | zfill(2) leaves a text of two or more characters alone and pads a shorter one to two |
| Events.ImageCount | app.py:239 | the number of image attachments is at most the number of attachments, and zero iff none is an image |
| KeyValue.Get | app.py:1181 | GET returns a value iff the key is live (present and not expired), and that value is the stored one |
| KeyValue.SetEx | app.py:1189 | SETEX makes the key live with the new value and leaves every other key as it was |
| KeyValue.SetNx | app.py:1351 | SET NX EX writes iff the key is not live, then as SETEX; otherwise nothing changes |
| KeyValue.Del | app.py:1356 | DEL removes the key and leaves every other key as it was |
| KeyValue.Expire | app.py:1372 | EXPIRE re-arms a live key's expiry without changing its value, does nothing to a key that is not live, and leaves every other key as it was |
| KeyValue.Decr | app.py:253 | DECR lowers the counter by one (a missing key reads as 0) and touches no other key |
| KeyValue.LPush | app.py:1371 | LPUSH puts the entry at the head of the list and touches no other key |
| KeyValue.RPush | app.py:250 | RPUSH puts the line at the tail of the list and touches no other key |
| KeyValue.GetAfterSetEx | app.py:1189 | after SETEX the key reads as the new value until its time to live runs out; other keys read as before |
| KeyValue.GetAfterDel | app.py:1356 | after DEL the key reads as absent; other keys read as before |
| KeyValue.LiveMonotone | app.py:1351 | as time passes, a key can only stop being live |
| RedisStore.Store.constructor | app.py:35 | a store starts from the given map and clock |
| RedisStore.Store.Advance | app.py:1193 | time passing changes no key |
| RedisStore.Store.Get | app.py:1181 | GET on the store reads as KeyValue.Get |
| RedisStore.Store.SetEx | app.py:1189 | SETEX on the store performs KeyValue.SetEx at the current instant |
| RedisStore.Store.SetNx | app.py:1351 | SET NX EX on the store performs KeyValue.SetNx and reports whether it wrote |
| RedisStore.Store.Del | app.py:1356 | DEL on the store performs KeyValue.Del |
| RedisStore.Store.Expire | app.py:1372 | EXPIRE on the store performs KeyValue.Expire |
| RedisStore.Store.Decr | app.py:253 | DECR on the store performs KeyValue.Decr |
| RedisStore.Store.LPush | app.py:1371 | LPUSH on the store performs KeyValue.LPush |
| RedisStore.Store.RPush | app.py:250 | RPUSH on the store performs KeyValue.RPush |
| Messaging.SplitPoint | src/services/messaging_service.py:150-156 | the split point is at most max_length, and below it only at a newline or a space |
| Messaging.SplitPointChoice | src/services/messaging_service.py:150-156 | the split point is the last newline before max_length, else the last space before it, else max_length itself |
| Messaging.RestShrinks | src/services/messaging_service.py:148-159 | each turn leaves strictly less text, so the loop ends when max_length >= 1 |
| Messaging.SplitMessage | src/services/messaging_service.py:135-164 | the loop returns the chunks of Chunks(text, max_length) |
| Messaging.LoopStep | src/services/messaging_service.py:148-159 | one turn keeps "chunks so far + chunks of the rest" equal to the chunks of the input, and shortens the rest |
| Messaging.ChunksStep | src/services/messaging_service.py:148-159 | the first chunk is the stripped text before the split point; the rest is the chunks of the stripped remainder |
| Messaging.ChunksFit | src/services/messaging_service.py:161-162 | a remainder that fits is the last chunk if it is non-empty |
| Messaging.ChunksEmpty | src/services/messaging_service.py:146-164 | splitting "" gives no chunk |
| Messaging.ChunksShort | src/services/messaging_service.py:148-162 | a non-empty text that fits comes back as one chunk, identical to the input |
| Messaging.Chunks | src/services/messaging_service.py:135-164 | no chunk is longer than max_length |
| Messaging.ChunksKeepContent | src/services/messaging_service.py:158-159 | the chunks together keep every non-whitespace character of the text, in order |
| Messaging.ChunksTrimmed | src/services/messaging_service.py:158-162 | when the text had to be split, no chunk starts or ends with whitespace |
| Messaging.ChunksStripped | src/services/messaging_service.py:158-162 | when the text had to be split, every chunk is its own strip |
| Messaging.Outgoing | src/services/messaging_service.py:109-133 | every message sent is at most 800 characters, and together they keep the text's non-whitespace content |
| Messaging.MessagingService.constructor | src/services/messaging_service.py:20 | a new service has sent nothing |
| Messaging.MessagingService.SendMessage | src/services/messaging_service.py:35-96 | one send appends exactly one message to the outbox and returns its response |
| Messaging.MessagingService.SendEach | src/services/messaging_service.py:128-133 | one send per piece, in order; the responses match the pieces one for one and are appended to the outbox |
| Messaging.MessagingService.SendLongMessage | src/services/messaging_service.py:98-133 | one send when the text fits, else one per chunk, in order; the responses come back in sending order |
| Sorting.Insert | app.py:1270 | inserting adds exactly the one element |
| Sorting.InsertOrdered | app.py:1270 | inserting into an ordered sequence keeps it ordered |
| Sorting.SortBy | app.py:665-671 | the sort is a permutation of its input, of the same length |
| Sorting.SortBySorted | app.py:665-671 | the sort is ordered by key and a permutation of its input |
| Sorting.WithRankInsert | app.py:665-671 | inserting adds the element at the front of its rank's elements and leaves the other ranks alone |
| Sorting.SortByStable | app.py:665-671 | the sort is stable: elements with equal keys keep their relative order |
| Intents.Priority | app.py:656-668 | priorities run from 1 to 999, and 999 exactly for an unknown label |
| Intents.PrimaryIntent | app.py:664-674 | with no intents the primary is {"primary": "other"}; otherwise it is one of them and ranks no lower than any by (priority, -confidence) |
| Intents.HeadRanksFirst | app.py:664-674 | the head of the ranking is one of the intents and ranks no lower than any of them |
| Intents.PrimaryIsFirstBest | app.py:664-674 | the primary intent is one of the intents, ranks no lower than any of them by (priority, -confidence), and is the first listed among those of its rank |
| Intents.Others | app.py:677 | the filter keeps exactly the entries whose label differs, and nothing else |
| Intents.OtherIntents | app.py:677 | every other intent is one of the intents and has a "primary" different from the chosen one's |
| Intents.OtherIntentsExclude | app.py:677 | the other intents are exactly the intents whose "primary" differs from the chosen one's |
| Intents.ConvertThreeParts | app.py:862-864 | a D/M/Y text converts to Y-MM-DD piece by piece |
| Intents.ConvertDayMonthYear | app.py:861-868 | a date written D/M/YYYY or DD/MM/YYYY converts to its ISO form, which strptime reads back as the same date |
| Intents.ZFillNat | app.py:864 | zfill(2) of str(n) is n on two digits |
| Intents.ConvertDate | app.py:861-868 | a value without '/' passes through unchanged; a converted value holds no '/', so converting again changes nothing |
| Intents.RemoveAll | app.py:490 | str.replace with "" never lengthens the text |
| Intents.Candidate | app.py:488-492 | a candidate the scan accepts is ten ASCII digits |
| Intents.PhoneInPatterns | app.py:486-492 | a number found by the patterns is ten ASCII digits |
| Intents.PhoneIn | app.py:484-492 | an entry with empty content yields nothing; otherwise a number found is ten digits |
| Intents.ExtractPhone | app.py:469-494 | the result is None or exactly ten ASCII digits |
| Intents.ExtractPhoneLatest | app.py:483 | newer history hides older: a number in the later entries is the answer, and earlier entries are searched only when the later ones hold none |
| Batch.SortQueue | app.py:1270 | the sorted batch is a permutation of the queue, ordered by timestamp |
| Batch.SortQueueSpec | app.py:1270 | the sorted batch is a permutation of the queue, ordered by timestamp, and equal timestamps keep their queue order |
| Batch.InsertLatest | app.py:1270 | a message later than every queued one sorts last |
| Batch.SortRestoresArrival | app.py:1270 | with distinct timestamps, sorting the head-pushed queue gives it back in arrival order (the queue reversed) |
| Batch.RenderAppend | app.py:1277-1287 | the text built for two runs of pieces is the first's followed by the second's |
| Batch.TextPieces | app.py:1278-1280 | a message contributes at most one text piece and no analysis |
| Batch.AsWrittenRepeatsFirstAnalysis | app.py:1281-1286 | as written, two messages with one image each both take image_analysis[0]; with a running index they take [0] and [1] |
| Batch.ImagePieces | app.py:1283-1287 | one message's images succeed iff there are enough analyses from the running index on |
| Batch.MessagePieces | app.py:1277-1287 | one message succeeds iff it carries "message" and enough analyses remain for its images |
| Batch.ImagePiecesSeen | app.py:1283-1287 | the images of one message take the next analyses, in order |
| Batch.MessagePiecesContent | app.py:1277-1287 | one message contributes its text, then exactly the next analyses for its images |
| Batch.Seens | app.py:1283-1287 | an analysis is among the ones used iff some piece shows it |
| Batch.Saids | app.py:1278-1280 | a text is among the ones said iff some piece says it |
| Batch.Pieces | app.py:1276-1288 | combining succeeds iff every queued message carries "message" and there are at least as many analyses as images in the batch |
| Batch.Combine | app.py:1273-1288 | the combined message exists iff every queued message carries "message" and the analyses cover the batch's images; it is its own strip |
| Batch.PiecesAsWritten | app.py:1276-1288 | as written, combining succeeds iff every message carries "message" and each image's position within its own message is below the number of analyses |
| Batch.ImagePiecesAsWritten | app.py:1281-1287 | as written, a message's images succeed iff each image's position within the message is below the number of analyses |
| Batch.MessagePiecesAsWritten | app.py:1277-1287 | as written, one message succeeds iff it carries "message" and its images fit as above |
| Batch.AsWrittenFailsOnPosition | app.py:1281-1286 | a video then an image with one analysis: as written the image takes image_analysis[1] and the batch fails; with the running index it succeeds |
| Batch.AsWrittenReusesAnalyses | app.py:1281-1286 | two messages of three images each with three analyses: as written both reuse [0..2] and a reply is sent; with the running index there are too few analyses |
| Batch.PiecesSeen | app.py:1276-1288 | with the running index, the k-th image of the batch is described by image_analysis[k]: the analyses used are exactly the first ImagesIn of them, in order |
| Batch.PiecesSaid | app.py:1277-1280 | the combined message holds every message text, in batch order |
| Batch.ImagePiecesStep | app.py:1283-1287 | one more attachment adds its analysis when it is an image, or fails when the analyses run out |
| Batch.AppendImages | app.py:1282-1287 | the attachment loop appends exactly the rendering of the message's image pieces to both texts, or fails as ImagePieces does |
| Batch.AppendMessage | app.py:1278-1287 | one message's turn appends exactly its pieces' rendering to both texts, or fails as MessagePieces does |
| Batch.CombineMessages | app.py:1273-1288 | the loop computes the combined message (stripped) and the text notes of Combine, or fails where it raises |
| Batch.PiecesFail | app.py:1277-1287 | once a prefix of the batch fails, the whole batch does |
| Batch.KeepLast | app.py:595 | context[-n:] for n > 0 keeps the newest min(n, length) entries in order, never more than n, ending with the newest; context[-0:] keeps everything |
| Coordination.Acquire | app.py:1346-1351 | the lock is taken iff it was absent or expired, and then reads as held; a failed attempt changes nothing |
| Coordination.AcquireSpec | app.py:1346-1351 | acquiring succeeds iff the lock is absent or expired; it then stays held for 30 seconds; a failed attempt changes nothing |
| Coordination.LockExcludes | app.py:1346-1351 | a second acquisition fails iff it comes within 30 seconds of the first |
| Coordination.Release | app.py:1353-1356 | after a release the lock can be taken at any instant, and every other key reads as before |
| Coordination.ReleaseFrees | app.py:1353-1356 | after a release, whoever holds the lock, the next acquisition succeeds |
| Coordination.Mute | app.py:1401-1403 | from the moment it is set, the user is muted exactly until two hours later |
| Coordination.MuteLasts | app.py:1401-1407 | a mute lasts exactly two hours from when it is set |
| Coordination.Schedule | app.py:1177-1195 | nothing is armed iff the flag is live, and then nothing changes; an armed timer fires 21 to 30 seconds out, with the flag live now and when it fires |
| Coordination.ScheduleSpec | app.py:1177-1195 | with the flag set, scheduling changes nothing; otherwise a timer is armed 21 to 30 seconds out, and the flag stays set until it fires, so no second timer can be armed in between |
| Coordination.Enqueue | app.py:1358-1375 | a muted user's message changes nothing and arms nothing; otherwise the scheduled flag is live afterwards, and any timer armed fires 21 to 30 seconds out |
| Coordination.EnqueueSpec | app.py:1358-1375 | a muted user's message is dropped; otherwise exactly one entry stamped with the current instant is added at the head of the queue, the queue lives ten minutes, and processing is scheduled; no key but the queue and the scheduled flag changes |
| Coordination.SaveContext | app.py:589-596 | the stored history is non-empty, at most MAX_HISTORY_LENGTH entries, and ends with the new entry |
| Coordination.SaveContextSpec | app.py:589-596 | the stored history holds at most MAX_HISTORY_LENGTH entries, ends with the new entry, and is the newest entries of (old history + [entry]); no other key changes |
| Coordination.SuccessLines | app.py:243-257 | no more lines are recorded than there are images |
| Coordination.RecordOne | app.py:249-253 | one successful analysis adds its line to the list and lowers the counter by one, and touches nothing else |
| Coordination.RecordAnalyses | app.py:243-257 | the successful lines are appended to the analyses in order, and the counter drops by their number |
| Coordination.RecordAnalysesSpec | app.py:243-257 | the successful lines are appended in order, the counter drops once per success (never for a failure), and no other key changes |
| Coordination.ImageIntake | app.py:231-257 | the counter grows by the images not analysed successfully, and the analyses list gains the successful lines |
| Coordination.ImageIntakeSpec | app.py:231-257 | after the image branch the counter is the old count plus the images not analysed successfully, and the list has gained the successful lines; no other key changes |
| Coordination.HeartHandsOver | app.py:220-228 | a heart from the reaction bot mutes the recipient for two hours, empties its queue, clears its scheduled flag and arms no timer; during the mute the recipient's messages are dropped |
| Coordination.OthersIgnored | app.py:220-268 | an event from a non-admin sender changes nothing and is answered INVALID_PAYLOAD |
| Coordination.Webhook | app.py:212-268 | the answer is INVALID_PAYLOAD iff the sender is not an admin; any timer armed fires 21 to 30 seconds out |
| Coordination.WebhookQueues | app.py:229-259 | an admin's event other than the bot's heart adds its images to the counter, which drops once per successful analysis; the successful lines join the analyses list; the event is queued at the head unless the sender is muted, when the queue stays and no timer is armed; no other key changes |
| Coordination.ProcessNeedsLock | app.py:1238-1240 | without the lock a run changes nothing |
| Coordination.ProcessReleasesLock | app.py:1238-1344 | a run that takes the lock releases it on every path: mute, pending images, empty queue, failure and reply |
| Coordination.LockedView | app.py:1351 | taking the lock touches no other key |
| Coordination.UnflaggedView | app.py:1249 | a batch starts from the store with the lock taken and the flag cleared, every other key as it was |
| Coordination.ProcessMuted | app.py:1243-1245 | a muted user's run only takes and releases the lock |
| Coordination.ProcessDefers | app.py:1249-1261 | while images are pending, a run clears the scheduled flag and retries in 3 seconds, leaving the queue, the analyses and the history alone |
| Coordination.AnswerFrame | app.py:1292-1340 | answering touches only the history, the analyses, image_pending: and the queue |
| Coordination.BatchedFrame | app.py:1247-1340 | a batch touches only the scheduled flag, the history, the analyses, image_pending: and the queue |
| Coordination.Batched | app.py:1247-1340 | the scheduled flag is cleared on every path; the outcome is a retry, nothing to do, a failure or a reply, and a reply sends Outgoing(reply) and leaves the queue and the analyses empty |
| Coordination.Process | app.py:1235-1344 | the run is Busy iff the lock was live, and then changes nothing; otherwise the lock is released on every path |
| Coordination.ProcessKeepsPendingCounter | app.py:1337 | a run never changes images_pending:, because it deletes image_pending:, a different key |
| Coordination.ProcessFailureKeepsQueue | app.py:1276-1344 | a batch that cannot be combined ends the run with the queue kept and nothing said |
| Coordination.SaveContextLast | app.py:594-596 | after a save the new entry is last |
| Coordination.SaveContextFollows | app.py:594-596 | a save keeps the previous last entry just before the new one |
| Coordination.HistoryAfterDel | app.py:1337-1340 | deleting another key leaves the history as it was |
| Coordination.AnswerHistory | app.py:1292-1333 | answering ends the history with the user's combined turn followed by the reply |
| Coordination.AnswerClears | app.py:1340 | answering empties the queue and the analyses |
| Coordination.BatchedAnswers | app.py:1263-1340 | with no pending image and a batch that combines, the reply is sent as Outgoing(reply), the history ends with the combined batch as the user's turn and then the reply, and the queue and analyses are cleared |
| Coordination.ProcessReplies | app.py:1298-1333 | such a run sends the reply in pieces of at most 800 characters that together keep its non-whitespace text, and releases the lock |
| Coordination.ProcessRepliesState | app.py:1292-1344 | after such a run the history ends with the combined batch as the user's turn and then the reply, and the queue and the analyses are empty |
| Coordination.ProcessRunsBatch | app.py:1238-1344 | with the lock taken and no mute, a run is the batch followed by the lock release |
| Coordination.DelView | app.py:1249 | deleting a key other than the history, queue, analyses or counter leaves what a batch reads as it was |
| Coordination.ReleaseView | app.py:1353-1356 | releasing the lock leaves the history, the queue and the analyses as they were |
| Coordination.AcquireProcessingLock | app.py:1346-1351 | the store method performs Acquire |
| Coordination.ReleaseProcessingLock | app.py:1353-1356 | the store method performs Release |
| Coordination.MuteUser | app.py:1401-1403 | the store method performs Mute |
| Coordination.IsUserMuted | app.py:1405-1407 | the answer is IsMuted of the store |
| Coordination.ScheduleProcessing | app.py:1177-1195 | the store method performs Schedule and returns the timer's delay |
| Coordination.QueueUserMessage | app.py:1358-1375 | the store method performs Enqueue |
| Coordination.GetQueuedMessages | app.py:1385-1391 | the answer is the queue as stored, newest first |
| Coordination.ClearMessageQueue | app.py:1393-1396 | the store method deletes message_queue: and nothing else |
| Coordination.SaveConvoContext | app.py:589-596 | the store method performs SaveContext |
| Coordination.RecordImageAnalyses | app.py:243-257 | the attachment loop performs RecordAnalyses |
| Coordination.TakeImages | app.py:231-257 | the image branch performs ImageIntake |
| Coordination.HandleWebhook | app.py:212-268 | the store method performs Webhook |
| Coordination.RunBatch | app.py:1247-1340 | the try block performs Batched |
| Coordination.ProcessUserMessages | app.py:1235-1344 | the store method performs Process |
| Slots.HoldKeyWithinDay | calendar_functions.py:110-112 | within a day the key is "hold:" + YYYY-MM-DD + "T" + HH:MM |
| Slots.HoldKeyInjective | calendar_functions.py:110-112 | two slot starts share a hold key only when they are the same start |
| Slots.HoldKeyNextDay | calendar_functions.py:110-112 | a start 24 hours into a day has the next day's key |
| Slots.HoldKey | calendar_functions.py:110-112 | every hold key starts with "hold:" |
| Slots.FirstStart | calendar_functions.py:221-251 | the first start is 11:00 except on the first day with a parsable preference: before 11 gives 11:00, 20:00 or later skips the day, otherwise the preferred hour and minute |
| Slots.DayEvents | calendar_functions.py:200-213 | the day's events are exactly the timed events starting on that day |
| Slots.Overlaps | calendar_functions.py:262 | an overlapping event is timed and ends after the slot starts; a timed event running at the slot's start overlaps a slot of positive length |
| Slots.OverlapCount | calendar_functions.py:258-263 | the count is zero iff no event overlaps the slot |
| Slots.LastStart | calendar_functions.py:255 | the last start whose appointment still ends by 20:00 |
| Slots.HeldByOther | calendar_functions.py:268-271 | only a present holder can block, and the asking user's own hold never does |
| Slots.Offered | calendar_functions.py:266-278 | without a store, a start on a day with fewer than two events is always offered |
| Slots.SlotsFrom | calendar_functions.py:255-281 | every slot of the inner loop is on its day, not before the first start, and fits before closing |
| Slots.DaySlots | calendar_functions.py:194-283 | a Sunday has no slots; every slot of a day is on that day, at or after 11:00, and fits before closing |
| Slots.AvailableFrom | calendar_functions.py:194-283 | every slot found lies on a valid date between the current day and the end date |
| Slots.FirstSuggested | calendar_functions.py:286 | the suggestions are the first min(3, n) available slots |
| Slots.Suggested | calendar_functions.py:286-296 | every suggested slot has a valid date and starts at or after 11:00 |
| Slots.GridStep | calendar_functions.py:281 | starts step by exactly one hour from the first start |
| Slots.SlotsFromMembers | calendar_functions.py:255-281 | the inner loop offers exactly the grid starts that fit before closing, overlap fewer than two events and are not held by another user |
| Slots.DaySlotsMembers | calendar_functions.py:194-283 | a day offers nothing on a Sunday, and otherwise exactly the grid starts from its first start that fit and pass the filters |
| Slots.AvailableFromMembers | calendar_functions.py:194-283 | from any day on, the search offers exactly the candidates dated that day or later |
| Slots.SearchFindsCandidates | calendar_functions.py:194-283 | the search offers exactly the candidates between the requested dates: it misses none and invents none |
| Slots.AvailableValid | calendar_functions.py:194-283 | every slot the search offers has a valid date and starts at or after 11:00 |
| Slots.SlotsFromChronological | calendar_functions.py:255-281 | the inner loop offers its starts in increasing order |
| Slots.AvailableFromChronological | calendar_functions.py:194-283 | the day loop offers its slots in chronological order |
| Slots.SuggestedChronological | calendar_functions.py:286 | the suggestions are at most three, in chronological order |
| Slots.LaterDaysIgnorePreference | calendar_functions.py:221 | from the second day on the search does not depend on the preferred time |
| Slots.PreferenceOnlyFirstDay | calendar_functions.py:221-251 | the search is the first day's slots with the preference, then the rest of the days without it |
| Slots.WriteHoldsEffect | calendar_functions.py:288-294 | after the hold writes, each suggested slot's key reads as the user for 30 minutes and no other key changes |
| Slots.WriteHolds | calendar_functions.py:288-294 | each suggested slot's key reads as the user at the instant of writing, and every other key is unchanged |
| Slots.CollectDayEvents | calendar_functions.py:201-213 | the loop collects DayEvents |
| Slots.CountOverlapping | calendar_functions.py:259-263 | the loop counts OverlapCount |
| Slots.CheckSlot | calendar_functions.py:258-278 | a start is kept iff it is Offered: fewer than two overlaps and not held by another user |
| Slots.SearchDay | calendar_functions.py:255-281 | the inner loop finds SlotsFrom |
| Slots.SearchDate | calendar_functions.py:195-253 | one pass of the day loop finds DaySlots |
| Slots.SearchDays | calendar_functions.py:194-283 | the day loop finds AvailableFrom |
| Slots.PlaceHolds | calendar_functions.py:288-294 | the hold writes perform WriteHolds |
| Slots.CheckAvailability | calendar_functions.py:134-300 | a start or end date that does not parse as %Y-%m-%d raises (None); a failed listing gives []; otherwise the Suggested slots from start to end (end defaults to start), with holds written for exactly those when a store and a non-empty user id are given, and no other change |
| Slots.CreateBooking | calendar_functions.py:328-375 | a booking succeeds iff "date time" parses as %Y-%m-%d %H:%M and the insert goes through; the booked slot is that date and time, and only then is its hold deleted |
| Slots.BookingFreesOnlyItsHold | calendar_functions.py:362-369 | booking frees the booked start's hold and keeps every other start's hold |
| CalendarText.Trunc | calendar_functions.py:568 | int() truncates toward zero |
| CalendarText.ReadIntToString | calendar_functions.py:573-583 | a rendered integer reads back as itself |
| CalendarText.PhraseWords | calendar_functions.py:572-583 | a phrase has at least one word, and no word holds a space |
| CalendarText.MinutesText | calendar_functions.py:568-583 | every phrase reads back as the number of minutes it was made from |
| CalendarText.DurationDisplay | calendar_functions.py:558-583 | the displayed duration reads back as the duration's whole minutes, truncated toward zero |
| CalendarText.MinutesTextInjective | calendar_functions.py:568-583 | different numbers of minutes are shown differently |
| CalendarText.MinutesTextOneLine | calendar_functions.py:568-583 | a duration phrase is a single line |
| CalendarText.GroupDates | calendar_functions.py:532-537 | the groups list each date once |
| CalendarText.TimesOn | calendar_functions.py:532-537 | a date's times are empty iff no slot falls on it |
| CalendarText.GroupDatesMembers | calendar_functions.py:532-537 | a date is a group iff some slot falls on it |
| CalendarText.GroupDatesPrefix | calendar_functions.py:532-537 | groups appear in the order of their first slot |
| CalendarText.GroupsCoverSlots | calendar_functions.py:532-537 | every slot lands in exactly one group |
| CalendarText.Shown | calendar_functions.py:551 | a line lists the first at most three times |
| CalendarText.Hidden | calendar_functions.py:552-553 | "και άλλες N" counts exactly the times left out, and appears iff there are more than three |
| CalendarText.DayLinesDefined | calendar_functions.py:540-554 | the lines are produced iff every date parses, one per date in order |
| CalendarText.EverySlotMentioned | calendar_functions.py:540-554 | every slot is either listed or counted in its date's "και άλλες N" |
| CalendarText.SlotsMessageDefined | calendar_functions.py:516-556 | the message is produced iff every slot's date parses |
| CalendarText.SlotsMessage | calendar_functions.py:516-556 | no slots give the apology; a non-empty list gives a message starting with the title rather than the apology |
| CalendarText.GroupByDate | calendar_functions.py:532-537 | the grouping loop builds the dict from each date to its times, with keys in first-appearance order |
| CalendarText.WriteBlocks | calendar_functions.py:540-554 | the formatting loop writes Blocks: one block per date, in order, stopping where a date does not parse |
| CalendarText.FormatAvailableSlotsMessage | calendar_functions.py:516-556 | the method computes SlotsMessage: the apology for no slots, otherwise the titled, stripped blocks |
| CalendarText.LabelsExclusive | calendar_functions.py:488-491 | no line is both a price line and a duration line |
| CalendarText.PriceLine | calendar_functions.py:488 | the new price line starts with the price label |
| CalendarText.DurationLine | calendar_functions.py:491 | the new duration line starts with the duration label |
| CalendarText.RewriteEach | calendar_functions.py:487-495 | each line is rewritten on its own |
| CalendarText.RewriteMarks | calendar_functions.py:487-500 | afterwards there is a price line and a duration line, and every such line is the new one |
| CalendarText.RewriteKeepsOtherLines | calendar_functions.py:487-500 | every other line of the description is kept, in order |
| CalendarText.RewriteFixed | calendar_functions.py:487-500 | a description already carrying the new lines is left alone |
| CalendarText.UpdatedDescriptionIdempotent | calendar_functions.py:480-502 | rescheduling twice with the same price and duration writes what rescheduling once wrote |
| CalendarText.UpdatedDescription | calendar_functions.py:480-502 | a description is produced iff the event had one; without a price it is unchanged; with a single-line price, read line by line it holds a price line and a duration line, and every price line is the new one |
| CalendarText.RewrittenReadsBack | calendar_functions.py:487-502 | the rewritten lines hold no line break, so the written description splits back into them |
| CalendarText.RewriteLines | calendar_functions.py:483-500 | the loop computes RewrittenLines |
| CalendarText.RescheduleDescription | calendar_functions.py:480-502 | the description update computes UpdatedDescription: rewritten only when a price is given and the event has a description |

## Left out

- Floating point: durations and prices are exact rationals (`real`). So binary rounding in `duration_hours * 60` and `price / 100` is not modelled.
- Queue timestamps: the `QueuedMessage` timestamp is an integer count of milliseconds, while the source stamps entries with the float `time.time()`. Two messages stamped in the same millisecond tie in the model and keep their queue order (newest first) after the stable sort, where the float clock would usually order them by arrival.
- Environment settings take their defaults: `MAX_HISTORY_LENGTH` 20, `GRACE_WINDOW_SECONDS`, the admin sender ids and the reaction bot id. The admin set and the bot id are parameters of the webhook.
- `threading.Timer` is not run. The armed timer is returned as its delay, and firing it is a separate call of `ProcessUserMessages`. Real interleavings of workers are not modelled; each Redis command is one atomic step.
- `random.randint(1, 10)` is the `jitter` parameter.
- The assistant's reply, the image analyses, the Graph API send and the Google Calendar listing and insert are parameters:
  - `get_assistant_reply` and `get_image_analysis_reply` are not part of this model, except that `get_assistant_reply` deletes the analyses list, which is modelled.
  - Its other side effects (the tool-call loop, bookings) are left out.
- Batch.Pieces: when combining succeeds follows the running index of the app.py:1281-1286 row under Findings (the k-th image of the batch takes `image_analysis[k]`), not the code as written. As written, a batch fails iff a message lacks "message" or some image's position within its own message is not below the number of analyses (Batch.PiecesAsWritten); Batch.AsWrittenFailsOnPosition and Batch.AsWrittenReusesAnalyses give inputs on which the two disagree in each direction.
- Batch.Combine: when combining succeeds follows the running index of the app.py:1281-1286 row under Findings (the k-th image of the batch takes `image_analysis[k]`), not the code as written. As written, a batch fails iff a message lacks "message" or some image's position within its own message is not below the number of analyses (Batch.PiecesAsWritten); Batch.AsWrittenFailsOnPosition and Batch.AsWrittenReusesAnalyses give inputs on which the two disagree in each direction.
- Batch.AppendImages: which analyses the attachment loop appends follows the running index of the app.py:1281-1286 row under Findings (the k-th image of the batch takes `image_analysis[k]`), not the code as written. As written, a batch fails iff a message lacks "message" or some image's position within its own message is not below the number of analyses (Batch.PiecesAsWritten); Batch.AsWrittenFailsOnPosition and Batch.AsWrittenReusesAnalyses give inputs on which the two disagree in each direction.
- Batch.AppendMessage: which analyses one message's turn appends follows the running index of the app.py:1281-1286 row under Findings (the k-th image of the batch takes `image_analysis[k]`), not the code as written. As written, a batch fails iff a message lacks "message" or some image's position within its own message is not below the number of analyses (Batch.PiecesAsWritten); Batch.AsWrittenFailsOnPosition and Batch.AsWrittenReusesAnalyses give inputs on which the two disagree in each direction.
- Batch.CombineMessages: the combining loop follows the running index of the app.py:1281-1286 row under Findings (the k-th image of the batch takes `image_analysis[k]`), not the code as written. As written, a batch fails iff a message lacks "message" or some image's position within its own message is not below the number of analyses (Batch.PiecesAsWritten); Batch.AsWrittenFailsOnPosition and Batch.AsWrittenReusesAnalyses give inputs on which the two disagree in each direction.
- Coordination.Batched: when a batch replies or fails follows the running index of the app.py:1281-1286 row under Findings (the k-th image of the batch takes `image_analysis[k]`), not the code as written. As written, a batch fails iff a message lacks "message" or some image's position within its own message is not below the number of analyses (Batch.PiecesAsWritten); Batch.AsWrittenFailsOnPosition and Batch.AsWrittenReusesAnalyses give inputs on which the two disagree in each direction.
- Coordination.Process: when a run replies or fails follows the running index of the app.py:1281-1286 row under Findings (the k-th image of the batch takes `image_analysis[k]`), not the code as written. As written, a batch fails iff a message lacks "message" or some image's position within its own message is not below the number of analyses (Batch.PiecesAsWritten); Batch.AsWrittenFailsOnPosition and Batch.AsWrittenReusesAnalyses give inputs on which the two disagree in each direction.
- Coordination.BatchedAnswers: its precondition for a reply follows the running index of the app.py:1281-1286 row under Findings (the k-th image of the batch takes `image_analysis[k]`), not the code as written. As written, a batch fails iff a message lacks "message" or some image's position within its own message is not below the number of analyses (Batch.PiecesAsWritten); Batch.AsWrittenFailsOnPosition and Batch.AsWrittenReusesAnalyses give inputs on which the two disagree in each direction.
- Coordination.ProcessRepliesState: its precondition for a reply follows the running index of the app.py:1281-1286 row under Findings (the k-th image of the batch takes `image_analysis[k]`), not the code as written. As written, a batch fails iff a message lacks "message" or some image's position within its own message is not below the number of analyses (Batch.PiecesAsWritten); Batch.AsWrittenFailsOnPosition and Batch.AsWrittenReusesAnalyses give inputs on which the two disagree in each direction.
- Coordination.ProcessReplies: its precondition for a reply follows the running index of the app.py:1281-1286 row under Findings (the k-th image of the batch takes `image_analysis[k]`), not the code as written. As written, a batch fails iff a message lacks "message" or some image's position within its own message is not below the number of analyses (Batch.PiecesAsWritten); Batch.AsWrittenFailsOnPosition and Batch.AsWrittenReusesAnalyses give inputs on which the two disagree in each direction.
- Coordination.ProcessFailureKeepsQueue: its precondition for a failure follows the running index of the app.py:1281-1286 row under Findings (the k-th image of the batch takes `image_analysis[k]`), not the code as written. As written, a batch fails iff a message lacks "message" or some image's position within its own message is not below the number of analyses (Batch.PiecesAsWritten); Batch.AsWrittenFailsOnPosition and Batch.AsWrittenReusesAnalyses give inputs on which the two disagree in each direction.
- Coordination.RunBatch: the try block it performs follows the running index of the app.py:1281-1286 row under Findings (the k-th image of the batch takes `image_analysis[k]`), not the code as written. As written, a batch fails iff a message lacks "message" or some image's position within its own message is not below the number of analyses (Batch.PiecesAsWritten); Batch.AsWrittenFailsOnPosition and Batch.AsWrittenReusesAnalyses give inputs on which the two disagree in each direction.
- Coordination.ProcessUserMessages: the run it performs follows the running index of the app.py:1281-1286 row under Findings (the k-th image of the batch takes `image_analysis[k]`), not the code as written. As written, a batch fails iff a message lacks "message" or some image's position within its own message is not below the number of analyses (Batch.PiecesAsWritten); Batch.AsWrittenFailsOnPosition and Batch.AsWrittenReusesAnalyses give inputs on which the two disagree in each direction.
- Coordination.Batched: an exception raised by `get_assistant_reply` or by a send is not modelled. The reply is always produced and sent.
- Stored values are typed (text, count, queue, analyses, history) rather than JSON strings. So Redis type errors and JSON decoding errors are not modelled.
- The Redis reconnect paths and the exception handlers that only log (`get_convo_context`, `save_convo_context`, `queue_user_message`) are not modelled.
- Flask routes, the GET verification handshake, the JSON-decode and connection-error answers of `webhook`, logging and file I/O (`download_image`, `os.remove`) are left out. The webhook receives an already parsed messaging event, so the INVALID_PAYLOAD answers for a payload missing `entry`, `messaging` or `sender.id` (app.py:260-268) are not modelled. An image's outcome is either full success or failure before the RPUSH. So an `os.remove` failure after RPUSH and EXPIRE (app.py:250-253) is not modelled: it keeps the pushed line but skips the DECR.
- Intents.ExtractPhone: the `\b` semantics of the five patterns are not modelled. `re.findall` for each pattern is the `findall` parameter, and only the cleaning and the ten-digit check are modelled.
- Validation.SanitizeTextInput: Python's Unicode `\w` is the `isWord` parameter. Elsewhere `isdigit` and `\d` are taken as ASCII digits.
- Time zones and daylight saving: calendar times are local minutes from midnight, with events as (start, end) pairs.
- Dates.FormatDate: years after 9999, which Python's `date` rejects, are admitted and written in full.
- Only the description rewrite of `reschedule_booking` is modelled. Its event fetch, time update and calendar update are API calls.
- Sorting.SortBy: `list.sort` and `sorted` are modelled as a value-level stable insertion sort, with the sorted list returned rather than the list changed in place.
- Slots.CheckAvailability: only string dates are modelled. A `datetime` passed as `start_date` or `end_date`, which the code accepts without parsing, is not.
- Messaging.Chunks: defined for max_length >= 1 only. With max_length 0 the source loop cuts an empty chunk and keeps a stripped non-empty text as it was, so it never ends; its only caller passes 800.
- Slots.CreateBooking: the calendar insert and any exception it raises are the `inserted` flag. The event body and description are not modelled.
- `find_booking_by_phone`, `cancel_booking`, `authenticate_google` and the OpenAI, Pinecone and embedding code are not part of this model.

## Findings

| source | as written | input that shows it | evidently intended | confidence | as-written member | corrected member |
|---|---|---|---|---|---|---|
| validation.py:210 | `re.match(r'^[a-zA-Z0-9_]+$', event_id)`: `$` also matches before a final newline | "abc\n" is accepted and returned with its newline | only [A-Za-z0-9_] characters are accepted (`\Z`, or `re.fullmatch`) | not executed | Validation.ValidateEventIdAsWritten, Validation.EventIdNewlineAccepted | Validation.ValidateEventId, Validation.EventIdVersionsAgree |
| app.py:1281-1286 | each image takes `image_analysis[i]`, with `i` the attachment position within its own message | two queued messages with one image each: both take `image_analysis[0]`, and the second analysis is never used | the k-th image of the batch takes `image_analysis[k]` (a running index across messages) | not executed | Batch.PiecesAsWritten, Batch.AsWrittenRepeatsFirstAnalysis, Batch.AsWrittenFailsOnPosition, Batch.AsWrittenReusesAnalyses | Batch.Pieces, Batch.PiecesSeen |
