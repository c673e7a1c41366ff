# A model of the uniquers Telegram bot core

The bot answers questions about a user's library of documents and video transcripts.
It retrieves matching passages from Supabase, fills a prompt template, asks a chat model
and renders the answer with up to three source buttons. Around that pipeline sit the
booking and help commands, scheduled motivational notifications, an audit logger for model
calls, the configuration loaded from the environment, the ElevenLabs text-to-speech request
preparation, and two small lookups: video descriptions and transcript segments.

This project restates that core in Dafny and proves what it promises. It has one module per
source file:

| module | file | form |
|---|---|---|
| `SupabaseClient` | `bot/supabase_client/client.py` | functions; the result-building loops as methods |
| `RagPipeline` | `bot/services/rag_pipeline.py` | functions; the collection loop as a method |
| `RagEngineOld` | `rag_engine_old/rag.py` | functions |
| `Handlers` | `bot/handlers/handlers.py` | a method whose source loop appends source lines and buttons |
| `TextSegments` | `bot/utils/text_segments.py` | the class `SegmentManager` with a `segments` field |
| `VideoManager` | `bot/utils/video_manager.py` | functions; the default-merging loop as a method |
| `Notifications` | `bot/services/notification_service.py` | the batch loop as a method, specified by functions |
| `LlmLogger` | `bot/services/llm_logger.py` | functions |
| `Commands` | `bot/commands/commands.py` | functions (each handler computes one reply) |
| `Config` | `bot/config.py` | functions; `validate` as a method with its loop |
| `ElevenLabs` | `bot/services/elevenlabs.py` | functions; validation and request preparation as methods |

`Common` holds the Python string and number semantics the modules share: `join`, `strip`,
`replace`, `split` with a limit, `int()` and `str()` of integers. `Values` models JSON-like
Python values: lists, dictionaries (`Row`), truthiness, `dict.get` and `str()`.

Everything outside the process becomes a parameter:
- a database reply is a `Query` (`Rows(rows)`, or `Unavailable` when the call raised);
- a model or embedding call is a function to an `Option` (`None` means the call raised);
- `random.choice` is a pick index;
- `datetime.now()` and `time.time()` are plain numbers or strings;
- the outcome of a Telegram send or a database insert is a boolean function;
- the environment is a `map<string, string>`;
- Python's per-character lowercasing is a function `lower: char -> char`.

Where a Python statement can raise and the source catches it, the model has an explicit
error case: `Result`, `Option` or a `Failed` outcome.

## Model

| member | source | states |
|---|---|---|
| `Common.SplitMax` | bot/commands/commands.py:105 | `str.split(c, maxsplit)`: at most `maxsplit + 1` pieces, joining them with `c` gives back the string, no piece but a full last one holds `c` |
| `Common.StripIsInfix` | bot/services/rag_pipeline.py:81 | `strip()` removes only characters of the strip set, and only from the two ends |
| `Common.ConcatContainsEach` | bot/utils/text_segments.py:56-62 | appending the blocks one after another drops none: every block occurs in the result |
| `Common.JoinContainsAll` | bot/services/rag_pipeline.py:69 | every joined part occurs in the joined string |
| `Common.ParseIntOfIntToString` | bot/config.py:8 | `int(str(i)) == i` for every integer |
| `Common.IndexOfFirst` | bot/utils/video_manager.py:18 | the first occurrence of a character is found at the end of a prefix free of it |
| `Values.Get` | bot/supabase_client/client.py:50 | `dict.get(key, default)`: the stored value when the key is present, the default otherwise |
| `SupabaseClient.FirstTruthy` | bot/supabase_client/client.py:52-56 | a chain of `or`: the first truthy candidate, the fallback when none is truthy |
| `SupabaseClient.DocTitle` | bot/supabase_client/client.py:52-56 | the document title is `filename`, `file_name`, `source` or `title` from the metadata, in that order, else `Document <id>` |
| `SupabaseClient.MapDocument` | bot/supabase_client/client.py:48-65 | a document row becomes an entry with exactly the six keys, type `document`, confidence 0.8, and `id`, content and metadata copied from the row; a metadata value that is not a dict raises (`None`) |
| `SupabaseClient.DocEntries` | bot/supabase_client/client.py:48-65 | the entries are the documents mapped in order, stopping at the first document that raises |
| `SupabaseClient.MapVideo` | bot/supabase_client/client.py:75 | a video row keeps all its fields, except that `type` becomes `video` and `similarity` 0.8 |
| `SupabaseClient.DocumentRows` | bot/supabase_client/client.py:44 | the documents query returns at most `limit` rows and fails exactly when the table call fails |
| `SupabaseClient.RowsOf` | bot/supabase_client/client.py:73 | the video filter keeps exactly the rows owned by the user |
| `SupabaseClient.VideoRows` | bot/supabase_client/client.py:73 | the videos query returns the user's own rows, in table order, up to `limit` |
| `SupabaseClient.VideoPart` | bot/supabase_client/client.py:72-77 | an unavailable video table contributes nothing; otherwise each of the user's returned rows contributes one entry, the row marked as a video with confidence 0.8, in order |
| `SupabaseClient.CollectDocuments` | bot/supabase_client/client.py:48-65 | the loop builds exactly the mapped document entries |
| `SupabaseClient.SearchContent` | bot/supabase_client/client.py:36-83 | the method returns exactly the specified search results |
| `SupabaseClient.DocumentPartShape` | bot/supabase_client/client.py:41-70 | the document part holds at most `limit` entries, all documents with confidence 0.8 |
| `SupabaseClient.VideoPartShape` | bot/supabase_client/client.py:72-77 | every video entry is marked as a video with confidence 0.8 |
| `SupabaseClient.DocumentsFirst` | bot/supabase_client/client.py:75-79 | truncating documents followed by videos keeps every document before every video |
| `SupabaseClient.SearchResultsShape` | bot/supabase_client/client.py:36-83 | the results hold at most `limit` entries with confidence 0.8, documents before videos, only documents when the video table fails, and exactly the video part when the document table fails |
| `SupabaseClient.UserVideoFound` | bot/supabase_client/client.py:72-83 | when the document table fails and the user has at most `limit` videos, each of the user's videos appears in the results as a video entry |
| `SupabaseClient.FirstWithTelegramId` | bot/supabase_client/client.py:12-14 | the first user row with the Telegram id, or `None` exactly when no row has it |
| `SupabaseClient.GetUserByTelegramId` | bot/supabase_client/client.py:10-18 | the first matching user, and `None` when the query fails |
| `SupabaseClient.WithoutNone` | bot/supabase_client/client.py:99 | the record keeps exactly the keys whose value is not `None`, with their values |
| `SupabaseClient.NewUserRecord` | bot/supabase_client/client.py:94-99 | a new user record holds the Telegram id, plus the username exactly when one is given |
| `SupabaseClient.CreateUser` | bot/supabase_client/client.py:86-107 | an existing user is returned with no insert; otherwise the record of non-None fields is inserted and the first inserted row, if any, is returned |
| `RagPipeline.Prepend` | bot/services/rag_pipeline.py:72 | prefixing a formatted piece fails exactly when the rest fails |
| `RagPipeline.FormatLiteral` | bot/services/rag_pipeline.py:72 | template text without braces passes through `format` unchanged, ahead of the rest |
| `RagPipeline.FormatContextField` | bot/services/rag_pipeline.py:72 | the `{context}` field is replaced by the context |
| `RagPipeline.FormatQuestionField` | bot/services/rag_pipeline.py:72 | the `{question}` field is replaced by the question |
| `RagPipeline.FormatBraceFree` | bot/services/rag_pipeline.py:72 | a template without fields formats to itself |
| `RagPipeline.FormatQuestionTail` | bot/services/rag_pipeline.py:72 | a question field followed by literal text formats to the question and that text |
| `RagPipeline.FormatMiddle` | bot/services/rag_pipeline.py:72 | literal text, the question field, literal text: the field alone is substituted |
| `RagPipeline.FormatContextTail` | bot/services/rag_pipeline.py:72 | context field, text, question field, text: both fields are substituted in place |
| `RagPipeline.FormatFillsBothFields` | bot/services/rag_pipeline.py:72 | a template with one context field and then one question field formats to the literal parts with the context and the question in their places |
| `RagPipeline.Texts` | bot/services/rag_pipeline.py:62 | the context parts are the results' `content_text` strings, one per result, in order |
| `RagPipeline.Context` | bot/services/rag_pipeline.py:69 | the context is empty without results, is the one text for one result, and contains every result's text |
| `RagPipeline.SourceOf` | bot/services/rag_pipeline.py:63-67 | a source has exactly `type`, `title` and `file_id`, copied from the result or `None` |
| `RagPipeline.Answer` | bot/services/rag_pipeline.py:58-89 | succeeds exactly when the prompt formats and the model replies; then it reports every result as used and available, one source per result, and an answer stripped of surrounding whitespace |
| `RagPipeline.AnswerIsTrimmedReply` | bot/services/rag_pipeline.py:80-81 | the answer is a slice of the model's reply with only whitespace cut off before and after it |
| `RagPipeline.PromptCarriesEveryPassage` | bot/services/rag_pipeline.py:69-72 | with a `{context}` field in the template, the prompt contains every retrieved passage |
| `RagPipeline.NothingRetrieved` | bot/services/rag_pipeline.py:58-89 | with no search results the model is still asked, and the answer has no sources and a zero context count |
| `RagPipeline.CollectContext` | bot/services/rag_pipeline.py:58-67 | the loop collects one context part and one source per result, and fails exactly when a result has no `content_text` |
| `RagPipeline.SearchAndAnswer` | bot/services/rag_pipeline.py:32-89 | a failed embedding fails the request; otherwise the result is the answer over the searched content |
| `RagPipeline.AnswerFrom` | bot/services/rag_pipeline.py:69-89 | from the collected parts and sources the method computes exactly the specified answer |
| `RagEngineOld.Resources` | rag_engine_old/rag.py:10-14 | the resource set holds exactly the truthy `video_name` values, and is undefined exactly when a name cannot be hashed |
| `RagEngineOld.ResourcesStep` | rag_engine_old/rag.py:10-14 | each document adds its video name to the set, or nothing |
| `RagEngineOld.ResourcesAtMostOnePerDocument` | rag_engine_old/rag.py:10-14 | there are no more resources than documents |
| `RagEngineOld.Pages` | rag_engine_old/rag.py:9 | the page contents of the documents, in order |
| `RagEngineOld.FormatDocs` | rag_engine_old/rag.py:7-15 | the formatted content contains every page, is the page itself for one document, and comes with the resource set; it fails exactly when a name cannot be hashed, naming the type of the first such name |
| `RagEngineOld.FirstUnhashableType` | rag_engine_old/rag.py:10-14 | the type named by the error is that of the first document whose truthy video name is a dict or a list |
| `RagEngineOld.RagQuery` | rag_engine_old/rag.py:30-56 | the reply is the model's answer followed by the booking invitation, together with the question; it fails exactly when retrieval or formatting fails |
| `Handlers.Emoji` | bot/handlers/handlers.py:72 | the document icon exactly for `document` sources, the video icon for every other type |
| `Handlers.Shown` | bot/handlers/handlers.py:71 | at most the first three sources are shown |
| `Handlers.Lines` | bot/handlers/handlers.py:71-77 | one text line per shown source |
| `Handlers.Buttons` | bot/handlers/handlers.py:71-85 | one keyboard row per shown source |
| `Handlers.Rendered` | bot/handlers/handlers.py:53-95 | an error becomes the error text with no keyboard; an answer without sources is sent as it is; otherwise a keyboard exists exactly when every shown source renders, and the text is the answer, the sources header and one numbered line per shown source; a shown source that cannot be rendered gives the generic error text with no keyboard |
| `Handlers.LineAndButtonAgree` | bot/handlers/handlers.py:76-84 | the i-th button's label and the i-th source line name the same icon and title |
| `Handlers.AppendSources` | bot/handlers/handlers.py:71-87 | the loop appends exactly the source lines and buttons, and fails exactly when a shown source has no type or title |
| `Handlers.RenderAnswer` | bot/handlers/handlers.py:53-95 | the method computes exactly the specified rendering |
| `Handlers.HandleUserQuestion` | bot/handlers/handlers.py:21-95 | an empty message gets the request for text; otherwise the processing message and typing action are sent, and the processing message becomes the not-found text, a generic error, or the rendered answer |
| `Handlers.PipelineAnswerRendering` | bot/handlers/handlers.py:53-95 | a pipeline answer with sources always gets a keyboard, and every button points at the bare `/document/` path |
| `Handlers.PipelineSourcesHaveNoId` | bot/services/rag_pipeline.py:63-67 | the pipeline's sources never carry an `id` |
| `TextSegments.Search` | bot/utils/text_segments.py:32-49 | there are never more hits than segments |
| `TextSegments.SearchPicksHits` | bot/utils/text_segments.py:40-47 | each hit shows the fields of a matching segment |
| `TextSegments.PickedIncreasing` | bot/utils/text_segments.py:40 | the hits keep segment order and repeat no segment |
| `TextSegments.PickedCovers` | bot/utils/text_segments.py:41 | no matching segment is missed |
| `TextSegments.SearchMembership` | bot/utils/text_segments.py:32-49 | a hit appears exactly when some segment's lowercased text contains the lowercased query |
| `TextSegments.EmptyQueryMatchesAll` | bot/utils/text_segments.py:38-41 | the empty query returns every segment, in order |
| `TextSegments.Formatted` | bot/utils/text_segments.py:51-64 | the no-match text exactly when there are no hits; otherwise the header followed by one numbered block per hit, in order |
| `TextSegments.FormattedShowsEveryHit` | bot/utils/text_segments.py:56-64 | the formatted text contains the numbered block of every hit |
| `TextSegments.BlockShowsHit` | bot/utils/text_segments.py:57-63 | block i is numbered i and shows hit i's speaker, time, video and text |
| `TextSegments.SegmentManager.constructor` | bot/utils/text_segments.py:16-17 | a new manager has no segments |
| `TextSegments.SegmentManager.LoadSegments` | bot/utils/text_segments.py:19-30 | a readable file replaces the segments and reports success; otherwise the segments are unchanged and it reports failure |
| `TextSegments.SegmentManager.SearchSegments` | bot/utils/text_segments.py:32-49 | the loop returns exactly the specified hits |
| `TextSegments.SegmentManager.FormatSearchResult` | bot/utils/text_segments.py:51-64 | the loop builds exactly the specified listing |
| `VideoManager.Stem` | bot/utils/video_manager.py:18 | the file name up to its first dot, or the whole name without a dot |
| `VideoManager.GetVideoName` | bot/utils/video_manager.py:7-27 | the described truthy field when the entry has one, the file name otherwise |
| `VideoManager.Fill` | bot/utils/video_manager.py:57-59 | every default fills a missing or falsy field; truthy fields and fields without a default are kept |
| `VideoManager.VideoInfo` | bot/utils/video_manager.py:29-65 | a record is returned exactly when the file loaded and the stem's entry exists, is truthy and is an object; the record is that entry with the missing or empty fields filled from the defaults |
| `VideoManager.VideoInfoComplete` | bot/utils/video_manager.py:49-61 | a returned record has all three fields with truthy descriptions, the entry's truthy fields, and the stem as name unless the entry names itself |
| `VideoManager.GetVideoInfo` | bot/utils/video_manager.py:29-65 | the method returns exactly the specified record |
| `Notifications.Choice` | bot/services/notification_service.py:44-46 | `random.choice` returns a member of the list |
| `Notifications.ChoiceCovers` | bot/services/notification_service.py:44-46 | every member of the list can be chosen |
| `Notifications.MotivationalMessage` | bot/services/notification_service.py:41-46 | the message comes from the list for that hour |
| `Notifications.EveningExactly` | bot/services/notification_service.py:43 | the evening list is used exactly for hours 18 to 23, the general list exactly for all other hours |
| `Notifications.EveryMessageCanBeDrawn` | bot/services/notification_service.py:41-46 | every message of the hour's list can be drawn |
| `Notifications.PersonalMessage` | bot/services/notification_service.py:90-100 | the greeting is added exactly for a truthy username other than `Unknown`, and the message always ends with the motivational text |
| `Notifications.HourKey` | bot/services/notification_service.py:66 | the hour key ends in `:00` |
| `Notifications.HourKeyDigits` | bot/services/notification_service.py:66 | for an hour of a day, the key is two digits with the hour's value followed by `:00` |
| `Notifications.Reached` | bot/services/notification_service.py:88-89 | the loop reaches the users up to the first one without a Telegram id |
| `Notifications.Sends` | bot/services/notification_service.py:88-103 | one send per reached user |
| `Notifications.DeliveredCount` | bot/services/notification_service.py:105-110 | no more deliveries than sends |
| `Notifications.SendScheduledNotifications` | bot/services/notification_service.py:62-132 | the loop returns exactly the specified batch result and performs exactly the specified sends |
| `Notifications.CompletedCounts` | bot/services/notification_service.py:115-122 | a completed batch has notified plus failed equal to the total, which is the number of users, with the hour key and weekday |
| `Notifications.OneSendPerUser` | bot/services/notification_service.py:88-103 | when every user has an id, each user gets exactly one message, sent to their id and ending in a message of the hour's list |
| `Notifications.EmptyBatch` | bot/services/notification_service.py:76-82 | no users means the no-users result and no sends |
| `Notifications.MissingIdStops` | bot/services/notification_service.py:88-132 | a user without a Telegram id fails the batch after the users before it were sent to |
| `LlmLogger.OrEmpty` | bot/services/llm_logger.py:236-238 | missing metadata is logged as an empty dict, present metadata unchanged |
| `LlmLogger.LogRequest` | bot/services/llm_logger.py:202-255 | one record carries all arguments, with metadata defaulted, and the result is the client's outcome for that record |
| `LlmLogger.LogChat` | bot/services/llm_logger.py:27-88 | a chat record carries both texts and all token counts |
| `LlmLogger.LogEmbedding` | bot/services/llm_logger.py:90-145 | an embedding record has input text, no output text, and only the total token count |
| `LlmLogger.LogTranscription` | bot/services/llm_logger.py:147-200 | a transcription record has output text, no input text and no token counts |
| `LlmLogger.MetadataDefaults` | bot/services/llm_logger.py:236-238 | the logged metadata is empty exactly when none or an empty dict was given |
| `LlmLogger.RecordShapeByKind` | bot/services/llm_logger.py:127-145 | for embedding and transcription records, the request type determines which text is present |
| `Commands.BookingKeyboard` | bot/commands/commands.py:72-83 | seven rows, one date button for each of the next seven days in order |
| `Commands.HandlersDisjoint` | bot/commands/commands.py:85-105 | no callback is routed to both the date handler and the slot handler |
| `Commands.DateRoundTrip` | bot/commands/commands.py:79-88 | the date handler recovers the date from a date button's callback data |
| `Commands.DateSelection` | bot/commands/commands.py:85-99 | one slot button per time slot for the chosen date, under the date text |
| `Commands.ParseSlot` | bot/commands/commands.py:105 | unpacking into three values succeeds exactly when the split gives three pieces |
| `Commands.SlotRoundTrip` | bot/commands/commands.py:92-105 | a slot button's data parses back into its date and slot when the date has no underscore |
| `Commands.SplitFirst` | bot/commands/commands.py:105 | a split with a limit cuts at the first separator |
| `Commands.ThreePiecesIffTwoUnderscores` | bot/commands/commands.py:105 | the unpacking succeeds exactly when the data holds at least two underscores |
| `Commands.SlotReply` | bot/commands/commands.py:101-120 | data that does not unpack gets the booking error text; a found user gets the confirmation for the unpacked date and time; a user who is not found gets the not-found text |
| `Commands.SlotConfirmed` | bot/commands/commands.py:101-114 | a known user choosing a slot gets the confirmation for that date and time |
| `Commands.FewUnderscoresFail` | bot/commands/commands.py:105-120 | data with fewer than two underscores always gets the booking error |
| `Commands.VideosReply` | bot/commands/commands.py:45-67 | one web-app button opening the videos page of the web app |
| `Commands.HelpCommand` | bot/commands/commands.py:131-135 | `/help` sends the prompt and enters the help state, forwarding nothing |
| `Commands.AdminText` | bot/commands/commands.py:141-150 | the text forwarded to the admin ends with the user's message |
| `Commands.HelpMessage` | bot/commands/commands.py:137-154 | the user gets the acknowledgement and the state is cleared; the question reaches the admin exactly when an admin id is configured |
| `Commands.HelpDialogue` | bot/commands/commands.py:131-154 | `/help` followed by a message forwards that message to a configured admin and ends with no state |
| `Config.IntSetting` | bot/config.py:8-16 | `int()` of a setting succeeds exactly when the text parses, and otherwise raises the invalid-literal error |
| `Config.Load` | bot/config.py:7-17 | loading fails exactly when the admin id or the rate limit does not parse, with the admin id's error first; otherwise it holds both parsed numbers and reads every other setting from the environment |
| `Config.AdminIdFromEnvironment` | bot/config.py:8 | an admin id set to the decimal text of a number, with no rate limit set, loads as that number |
| `Config.AdminIdDefaultParses` | bot/config.py:8 | the default admin id `'0'` parses to 0 |
| `Config.RateLimitDefaultParses` | bot/config.py:16 | the default rate limit `'50'` parses to 50 |
| `Config.UnsetDefaults` | bot/config.py:8-16 | with the variables unset, the admin id is 0, the rate limit 50 and debug off |
| `Config.DebugIffTrue` | bot/config.py:15 | debug is on exactly when `DEBUG` lowercases to `true` |
| `Config.Required` | bot/config.py:62-67 | four required settings |
| `Config.Missing` | bot/config.py:69-72 | the missing list names exactly the required settings that are falsy, and is empty exactly when all are set |
| `Config.MissingAppend` | bot/config.py:69-72 | the missing list of a concatenation is the concatenation of the missing lists |
| `Config.Validation` | bot/config.py:60-77 | validation fails exactly when a required setting is unset, naming the missing ones in order |
| `Config.Validate` | bot/config.py:60-77 | the loop returns exactly the specified validation result |
| `Config.OnlyTokenMissing` | bot/config.py:74-75 | with only the bot token unset, the error names just `TELEGRAM_BOT_TOKEN` |
| `ElevenLabs.ApiKey` | bot/services/elevenlabs.py:27 | the key is the given one when it is non-empty, the environment's `ELEVENLABS_API_KEY` otherwise |
| `ElevenLabs.NewService` | bot/services/elevenlabs.py:26-43 | the service is refused with the missing-key error exactly when the key is absent, empty or the placeholder; otherwise it keeps the key and takes voice, model and audio format from the environment or their defaults |
| `ElevenLabs.PresetsInRange` | bot/services/elevenlabs.py:46-54 | every preset's stability, similarity and style lie in [0, 1] |
| `ElevenLabs.LookupPreset` | bot/services/elevenlabs.py:58-61 | a preset is found exactly when its name is listed |
| `ElevenLabs.WithoutDescription` | bot/services/elevenlabs.py:62 | exactly the settings other than `description` remain, and settings without a description pass through unchanged |
| `ElevenLabs.WithoutDescriptionAppend` | bot/services/elevenlabs.py:62 | the filter keeps order: filtering two lists joined is joining the two filtered lists |
| `ElevenLabs.PresetWithoutDescription` | bot/services/elevenlabs.py:62 | a preset without its description has exactly its four settings |
| `ElevenLabs.ApplyQualityPreset` | bot/services/elevenlabs.py:56-62 | a preset is found by its lowercased name and returned without its description; an unknown name gets the error listing the available presets |
| `ElevenLabs.PresetCaseInsensitive` | bot/services/elevenlabs.py:58-61 | names that lowercase alike select the same preset |
| `ElevenLabs.LookupInRange` | bot/services/elevenlabs.py:46-54 | a listed preset has all its values in range |
| `ElevenLabs.PresetKeys` | bot/services/elevenlabs.py:56-62 | an applied preset has the three range settings in [0, 1] and speaker boost on |
| `ElevenLabs.SettingProblem` | bot/services/elevenlabs.py:69-76 | a setting is refused exactly when speaker boost is not a boolean or a range setting is not a number in [0, 1] |
| `ElevenLabs.FirstProblem` | bot/services/elevenlabs.py:68-76 | the validation loop reports a problem exactly when some setting has one |
| `ElevenLabs.ValidateVoiceSettings` | bot/services/elevenlabs.py:64-76 | the loop returns exactly the specified validation outcome |
| `ElevenLabs.PresetShapeIsValid` | bot/services/elevenlabs.py:64-76 | settings shaped like a preset pass validation |
| `ElevenLabs.PresetsAreValid` | bot/services/elevenlabs.py:94-99 | every applied preset passes validation |
| `ElevenLabs.ReplaceForbidden` | bot/services/elevenlabs.py:79 | each forbidden character becomes `_`, every other character is kept |
| `ElevenLabs.StripKeepsAbsence` | bot/services/elevenlabs.py:79 | stripping adds no character |
| `ElevenLabs.SanitizedIsClean` | bot/services/elevenlabs.py:78-80 | a sanitized name has no forbidden character, is not empty, and has no space or dot at either end |
| `ElevenLabs.CleanIsFixed` | bot/services/elevenlabs.py:78-80 | a clean name is left as it is |
| `ElevenLabs.SanitizeIdempotent` | bot/services/elevenlabs.py:78-80 | sanitizing twice gives the same name, whatever the clock reads |
| `ElevenLabs.WithExtension` | bot/services/elevenlabs.py:104-105 | the name ends with the audio extension, added only when missing |
| `ElevenLabs.ChosenSettings` | bot/services/elevenlabs.py:94-97 | a non-empty preset name wins, then the given settings, then the defaults |
| `ElevenLabs.ChooseSettings` | bot/services/elevenlabs.py:94-97 | the method returns exactly the specified settings |
| `ElevenLabs.ChooseOutputName` | bot/services/elevenlabs.py:101-105 | the method returns exactly the specified output name |
| `ElevenLabs.PrepareSpeech` | bot/services/elevenlabs.py:82-105 | the method returns exactly the specified request or error |
| `ElevenLabs.ExtensionKeepsAbsence` | bot/services/elevenlabs.py:104-105 | adding a clean extension to a clean name keeps it free of forbidden characters |
| `ElevenLabs.OutputNameIsSafe` | bot/services/elevenlabs.py:101-105 | the output name always ends with the audio extension, and has no forbidden character when the format has none |
| `ElevenLabs.PreparedRequestIsSound` | bot/services/elevenlabs.py:82-105 | an accepted request has text of 1 to 5000 characters that is not blank, settings that pass validation, and the safe output name |

## Left out

- Network and file I/O are left out: the Telegram, Supabase, OpenAI and ElevenLabs calls, and reading the JSON files. Each becomes a parameter (see above).
- The ElevenLabs HTTP request and the writing of the audio file (`bot/services/elevenlabs.py:107-143`) are left out because they are I/O. So are `get_account_info`, `estimate_cost` and the command-line `main` (145-296), which are not part of the bot.
- `get_embeddings` and the query embedding are left out: the embedding is computed and then unused by `search_content`. Only its failure matters, and `RagPipeline.SearchAndAnswer` models that failure.
- `save_query_to_history` is left out because it is disabled in the source and has no body.
- Logging, `print` and the `asyncio.sleep` between notifications are left out: they do not change any result.
- Telegram's Markdown and HTML parse modes, and the plain-text fallback after a Markdown failure (`bot/handlers/handlers.py:90-95`), are left out. The model states the text and keyboard that are sent, not how Telegram renders them.
- `handle_regular_message`, `clear_memory` and `handle_audio` (`bot/handlers/handlers.py:106-203`) are left out. The first is registered after `handle_user_question`, which takes every text message. The other two depend on transcription, which is not part of this model.
- Router registration and dispatch order (`bot/main.py`), the notification scheduler and the transcription service are not part of this model.
- `cmd_start`, `/about` and `/subscribe` are left out: they send static texts from `bot/messages_en.py`, which is not part of this model.
- `create_or_update_user` is left out because it has no callers in the bot. `create_user` is modelled.
- `test_notification` is left out: it is a single send of a fixed text.
- `send_notification_to_user` is modelled by the `delivered` parameter of `Notifications.SendScheduledNotifications`, i.e. the outcome of the n-th send.
- `get_users_for_notification` is a parameter: its result, or the exception it raised.
- `random.choice` is modelled as a pick index, and `datetime.now()` as the hour and weekday passed in.
- `LLMRequestTimer` is left out: it only measures time.
- `LlmLogger.LogRequest`: the database client's `log_llm_request` is the `accept` parameter. The client class in `bot/supabase_client/client.py` defines no such method, so with that client every call raises and every log attempt returns False.
- `Notifications.EveningExactly` compares the lists chosen for an hour. That the two message lists share no message is not proved.
- `Values.Show`: `str()` of floats, lists and dictionaries is a placeholder. No contract depends on how they print.
- `Common.Lower`: Unicode lowercasing is the abstract `lower` parameter. Characters that lowercase to several characters are not modelled.
- `Common.ParseInt`: `int()` accepts ASCII digits, surrounding whitespace and a sign. Underscores between digits and non-ASCII digits are not modelled.
- Python sets compare `1`, `True` and `1.0` as equal. The resource set of `RagEngineOld.Resources` keeps them apart. Dict and list names, which cannot be hashed, are reported as a failure.
- `TextSegments`: segment fields are strings. `TextSegment(**segment)` (`bot/utils/text_segments.py:24-26`) does not check field types, so a segment whose `text` is, say, a number loads, and `search_segments` then raises at line 41. `TextSegments.SegmentManager.LoadSegments` receives typed segments, so that failure is not modelled.
- `RagPipeline.FormatPrompt` models `str.format` with named fields and doubled braces. Positional fields, attribute and index lookups, conversions and format specifications are reported as a failure.
- `bot/config.py` defines no `SEARCH_LIMIT`, `EMBEDDING_MODEL` or `GPT_MODEL`, yet `bot/services/rag_pipeline.py:13`, `:17` and `:48` read them. As written, constructing `RAGPipeline` raises inside the `try` of `handle_user_question` (`bot/handlers/handlers.py:37-101`), so every non-empty question ends in the generic error. `Handlers.HandleUserQuestion` and `RagPipeline.SearchAndAnswer` take the search limit and the model calls as parameters, as if these settings existed.
- `Config.InvalidLiteral` quotes the value in single quotes. Python's `repr` switches to double quotes for a value that contains `'` and escapes control characters; those messages are not modelled.
- `VideoManager`: a descriptions file that cannot be read, or whose `videos` is not an object, is one `Unreadable` case, since both paths of the source return the same fallback.
- `Handlers.PipelineAnswerRendering`: every source button URL is the bare `/document/` path, because pipeline sources have no `id`. This is what the source does, and the model states it.
