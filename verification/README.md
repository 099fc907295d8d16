# gpt-pyrobbot core in Dafny

This project models the bookkeeping core of gpt-pyrobbot, a chatbot with a terminal, voice
and web (streamlit) front end built on the OpenAI chat API. It also models the web page
of gpt_buddy_bot, the project's earlier incarnation. It covers:

- **Chat session** (`chat.dfy`, module `ChatSession`). How a prompt becomes a message,
  and which context handler a `context_model` picks. How the base directive is built.
  The translation cache shared by every chat. The initial greeting and the lazily
  loaded metadata. The reply stream: every chunk is yielded, and exactly the prompt
  and one assistant message reach the history.
- **Voice chat** (`voice_chat.dfy`, module `VoiceChatModel`). How
  `VoiceChat.answer_question` cuts the streamed reply into sentences for
  text-to-speech and ends every finished answer with a `None` sentinel. How
  `handle_question_listening` queues transcribed questions and exit requests. The
  audio block size. An interrupted answer does not end quietly. `answer_question`
  raises `StopIteration` inside a generator, and since PEP 479 (Python 3.7) the
  consumer gets a `RuntimeError` instead.
- **Live assistant** (`live_assistant.dfy`, module `LiveAssistant`). The sample-rate
  and frame-duration validation of `LiveAssistant.__post_init__`. The bounded
  voice-activity window of `listen`, with its speech-likelihood rule.
- **Token usage ledger** (`tokens.dfy`, module `TokenUsage`). Per-token prices.
  `INSERT OR REPLACE` keyed by timestamp. `GROUP BY model` and the totals over it.
  The accumulated-usage and current-chat rows.
- **Web pages** (`app_pages.dfy`, module `AppPages`; `session_state.dfy`, module
  `SessionState`; `page_queue.dfy`, module `PageQueue`). Page titles and their
  fallbacks. The page's configs, chat object and history in the session state. What
  a prompt does to the page: one user and one assistant message, a one-off
  auto-title, and the page's leftover prompts filtered out of the app's shared queues.
  `filter_page_info_from_queue` is defined twice, with the same body, in
  `pyrobbot/app/app_utils.py` and `pyrobbot/app/app_page_templates.py`. The pages call
  the second copy, and the model cites that one.
- **gpt_buddy_bot page** (`buddy_pages.dfy`, module `BuddyPages`). The same page as it
  was in the earlier app. Its defaults differ, configs come from an options file, the
  chat object keeps its own id, and the auto-title prompt lists every message's content.

**Representation.**
- Pure logic is written as functions, with lemmas about them.
- Objects whose fields change are classes whose methods are proved to apply those
  functions: `Chat`, `TranslationCache`, `VoiceChat`, `TokenUsageDatabase`,
  `SharedQueue`, `Session`, `MultipageApp`, both `ChatBotPage`s.
- Queues are sequences of the items put on them.
- Whatever comes from outside is a parameter: the language model's replies, the
  recogniser, voice-activity verdicts, clock ticks, files and the interrupt flags.

Two observations from the proofs:
- In `AppPage.__init__`, `strip('#')` only removes a `#` at either end of
  "Chat #n", so it removes nothing (`AppPages.RecoveredTitleKeepsHash`).
- In gpt_buddy_bot, `ChatBotPage.__init__` overwrites the page-title fallback
  unconditionally, so a `page_title` argument is never shown
  (`BuddyPages.ChatBotPage.constructor`).

## Model

| member | source | states |
|---|---|---|
| Text.TrimStartSpec | pyrobbot/chat.py:57 | Stripping the front removes exactly a leading run of the given characters, and what is left does not start with one. |
| Text.TrimEndSpec | pyrobbot/chat.py:57 | Stripping the back removes exactly a trailing run of the given characters, and what is left does not end with one. |
| Text.StripCharsSpec | pyrobbot/chat.py:57 | `strip(chars)` returns a slice of its input from which only characters of `chars` were cut, at the two ends, and whose own ends are not in `chars`. |
| Text.StripOfUnique | pyrobbot/chat.py:57 | Only one string is such a slice, so that description determines the result of `strip`. |
| Text.StripCharsIdempotent | pyrobbot/chat.py:57 | `str.strip(chars)` applied twice is the same as once. |
| Text.StripCharsKeeps | pyrobbot/app/app_page_templates.py:65 | A string whose first and last characters are not stripped is left unchanged by `strip`. |
| Text.StripCharsAppendEnd | pyrobbot/voice_chat.py:187-189 | If the stripped suffix is non-empty, the last character of the stripped concatenation is the last character of the stripped suffix. |
| Text.ConcatAppend | pyrobbot/chat.py:215-219 | `"".join` distributes over concatenation of the chunk lists. |
| Text.IntToString | pyrobbot/app/app_page_templates.py:64 | The rendering of an integer is non-empty and ends in a digit: the digits of a non-negative number, or "-" followed by the digits of its absolute value. |
| Text.NatToStringValue | pyrobbot/app/app_page_templates.py:64 | The decimal digits written for `n` denote `n`. |
| Text.IntToStringInjective | pyrobbot/app/app_page_templates.py:64 | Different integers are written differently. |
| ChatSession.PromptMessage | pyrobbot/chat.py:354-356 | The prompt message has no name. Its content is the strip of the prompt, and its role the strip of the lower-cased role, in the sense of `IsStripOf`. The role has no upper-case letter. |
| ChatSession.PromptMessageIdempotent | pyrobbot/chat.py:354-356 | Normalising an already normalised message gives the same message. |
| ChatSession.ContextHandler | pyrobbot/chat.py:105-114 | "full-history" selects the full-history handler and "text-embedding-ada-002" the embedding handler, each iff that is the `context_model`. Any other value gives `NotImplementedError("Unknown context model: …")`. |
| ChatSession.FormatInstruction | pyrobbot/chat.py:57 | Each formatted instruction ends in ".". The text before that "." is the instruction with only spaces and dots cut from its two ends, and it neither starts nor ends with a space or a dot. |
| ChatSession.FormatInstructionIdempotent | pyrobbot/chat.py:57 | Formatting an already formatted instruction changes nothing. |
| ChatSession.FormatInstructions | pyrobbot/chat.py:56-58 | Every instruction is formatted, in order, and none is dropped. |
| ChatSession.CleanPieces | pyrobbot/chat.py:50-71 | The directive keeps only stripped, non-empty pieces, and never more pieces than it was given. |
| ChatSession.CleanPiecesExact | pyrobbot/chat.py:50-71 | Cleaning keeps one entry per piece that is not blank once stripped: that piece stripped, in the pieces' order, and nothing else. |
| ChatSession.CleanedFromUnique | pyrobbot/chat.py:50-71 | That description fits only the result of cleaning. |
| ChatSession.CleanPiecesIdempotent | pyrobbot/chat.py:50-71 | Cleaning cleaned pieces changes nothing. |
| ChatSession.CleanPiecesHead | pyrobbot/chat.py:50-71 | A first piece with no surrounding whitespace survives cleaning, and stays first. |
| ChatSession.BaseDirective | pyrobbot/chat.py:47-73 | The directive is a system message named after the chat's system name. Its content is the space-join of the directive's non-blank pieces, stripped, in order. |
| ChatSession.BaseDirectiveContent | pyrobbot/chat.py:50-73 | The directive's content starts with "Your name is <assistant>. Your model is <model>." and has no surrounding whitespace. |
| ChatSession.Conversation | pyrobbot/chat.py:213-216 | The API is sent the base directive, then exactly the handler's context, then the prompt message. |
| ChatSession.JoinTrimmed | pyrobbot/chat.py:50 | A space-join of stripped non-empty pieces starts with the first piece and has no surrounding whitespace. |
| ChatSession.CacheHit | pyrobbot/chat.py:361-363 | A translation is served from the cache iff one is stored for that text and language and it is non-empty. |
| ChatSession.CacheStore | pyrobbot/chat.py:378 | Storing a translation sets exactly that text and language, and keeps every other entry. |
| ChatSession.TranslationHitIgnoresModel | pyrobbot/chat.py:361-363 | On a hit, the model's reply is irrelevant and the cache is unchanged. |
| ChatSession.TranslationThenCached | pyrobbot/chat.py:371-380 | On a miss, the reply stripped of spaces and quotes is returned and stored. A non-empty stored translation is served from then on; an empty one is asked for again. |
| ChatSession.TranslationCache.constructor | pyrobbot/chat.py:28 | The class-level cache starts empty. |
| ChatSession.SavedMetadata | pyrobbot/chat.py:148-155 | The saved metadata is the loaded metadata with "chat_id" set to the chat's id, and every other key kept. |
| ChatSession.ReplyContentIsYieldedText | pyrobbot/chat.py:206-300 | The history content is the concatenation of every yielded chunk, except that a "nothing found" apology is yielded but not stored. |
| ChatSession.StreamReply | pyrobbot/chat.py:213-291 | The yielded chunks are the API chunks, then, when the check runs, " " and the web summary or the apology. The accumulated text is the stored reply content. |
| ChatSession.Chat.constructor | pyrobbot/chat.py:31-45 | A new chat has its id and configs, with no greeting, no metadata and an empty history. |
| ChatSession.Chat.Translate | pyrobbot/chat.py:358-380 | Returns the cached or the new translation and updates the shared cache. The model is asked, with the translation prompt, iff the cache misses. |
| ChatSession.Chat.SetInitialGreeting | pyrobbot/chat.py:182-184 | The stored greeting is the stripped value. |
| ChatSession.Chat.InitialGreeting | pyrobbot/chat.py:165-181 | A blank or missing greeting becomes the default. The greeting is translated iff one was passed or the language is not "en"; otherwise it is returned as is and the model is not asked. When translating, the model is asked iff the cache misses, and then with the translation prompt for that greeting and language. The result is stored. |
| ChatSession.Chat.Metadata | pyrobbot/chat.py:131-142 | Metadata is loaded once, from the file or as `{}` when the file is missing or unreadable, and kept from then on. |
| ChatSession.Chat.SetMetadata | pyrobbot/chat.py:144-146 | The metadata setter replaces the metadata. |
| ChatSession.Chat.SaveCache | pyrobbot/chat.py:148-155 | Writes the (loaded) metadata with "chat_id" set to the chat's id, and keeps it. |
| ChatSession.Chat.YieldResponseFromMsg | pyrobbot/chat.py:206-300 | An unknown context model raises before anything is sent. Otherwise the conversation is sent, every chunk is yielded, and with `add_to_history` exactly the prompt and one assistant message are appended. The shared translation cache is unchanged unless the web-search check runs. |
| ChatSession.Chat.RespondPrompt | pyrobbot/chat.py:354-356 | The normalised prompt message is answered. It fails iff the context handler fails, and then sends nothing, yields nothing and returns that error. Otherwise it yields the reply chunks. The history grows by that message and the reply, or not at all. The translation cache is unchanged on an error or when the check is skipped. |
| LiveAssistant.ValidationError | pyrobbot/text_to_speech.py:70-79 | No error iff both the sample rate and the frame duration are allowed. A bad sample rate is reported first, with its allowed values. |
| LiveAssistant.PostInitValidate | pyrobbot/text_to_speech.py:74-79 | The validation loop raises exactly the error `ValidationError` names. |
| LiveAssistant.TruncDiv | pyrobbot/text_to_speech.py:163 | `int(a / b)` truncates toward zero: the remainder `a - q * b` has the sign of `a` and is smaller than `b` in size. |
| LiveAssistant.TruncDivUnique | pyrobbot/text_to_speech.py:163 | Exactly one integer has that property, so it determines the block size. |
| LiveAssistant.BlockSizeExact | pyrobbot/text_to_speech.py:163 | For every allowed rate and duration the block size is exact: `block * 1000 == rate * duration`. |
| LiveAssistant.PushVerdict | pyrobbot/text_to_speech.py:180-184 | Appending to a bounded deque grows it by one, up to `maxlen`. |
| LiveAssistant.PushVerdictSuffix | pyrobbot/text_to_speech.py:180-184 | The deque after an append is the newest items of the old contents followed by the new one, in order. |
| LiveAssistant.Recent | pyrobbot/text_to_speech.py:180-184 | The newest `maxlen` verdicts: all of them if there are no more than `maxlen`, else exactly `maxlen`. |
| LiveAssistant.PushRecent | pyrobbot/text_to_speech.py:180-200 | Appending to a deque holding the newest verdicts gives the newest verdicts of the longer sequence. |
| LiveAssistant.CountTrue | pyrobbot/text_to_speech.py:208 | `sum` of the verdicts counts at most one per verdict. |
| LiveAssistant.SpeechLikelihood | pyrobbot/text_to_speech.py:206-210 | The likelihood is between 0 and 1. It is 0 iff no verdict is speech, including the empty window, and 1 iff the window is non-empty and all speech. |
| LiveAssistant.Verdicts | pyrobbot/text_to_speech.py:194-200 | One verdict per block taken. |
| LiveAssistant.ListenRun | pyrobbot/text_to_speech.py:189-216 | The window never exceeds its capacity, and a run that is still listening has taken every block. |
| LiveAssistant.ListenWindowIsRecentVerdicts | pyrobbot/text_to_speech.py:180-200 | The window is exactly the most recent `maxlen` verdicts of the blocks taken. |
| LiveAssistant.VerdictsAppend | pyrobbot/text_to_speech.py:200 | One more block adds its verdict at the end. |
| LiveAssistant.ListenStepKeepsRecent | pyrobbot/text_to_speech.py:190-215 | If the window holds the newest verdicts, one loop iteration leaves it holding the newest verdicts including the new block's. |
| LiveAssistant.ListenStopsAtFailedCheck | pyrobbot/text_to_speech.py:203-215 | Listening stops only at an inactivity check whose likelihood is below the threshold, and later blocks are never taken. |
| LiveAssistant.ListenWithoutChecks | pyrobbot/text_to_speech.py:203-215 | Without an inactivity check, every block is taken and no speech is reported. |
| LiveAssistant.CountTrueNone | pyrobbot/text_to_speech.py:208 | A window without speech counts zero. |
| LiveAssistant.ListenSilenceNotDetected | pyrobbot/text_to_speech.py:206-219 | With a positive threshold, silence is never detected as speech. |
| LiveAssistant.Listen | pyrobbot/text_to_speech.py:151-226 | A negative deque capacity fails as `deque` does. Otherwise the loop takes exactly the blocks of `ListenRun` and returns "" unless speech was detected, else the recogniser's text. |
| LiveAssistant.StoppedRunIsFinal | pyrobbot/text_to_speech.py:189 | Once listening stops, later blocks change nothing. |
| VoiceChatModel.TextContents | pyrobbot/voice_chat.py:181-182 | Only the "text" chunks' contents are kept. |
| VoiceChatModel.TextChunks | pyrobbot/voice_chat.py:181 | The kept chunks are all "text" chunks. |
| VoiceChatModel.Somes | pyrobbot/voice_chat.py:193 | Every sentence becomes one non-`None` queue item, in order. |
| VoiceChatModel.ConcatPushSentence | pyrobbot/voice_chat.py:183-194 | Flushing a sentence moves the accumulated text onto the queue unchanged. |
| VoiceChatModel.SplitStepKeepsText | pyrobbot/voice_chat.py:181-194 | One chunk adds exactly its text, if any, to the queued and pending text. |
| VoiceChatModel.SplitKeepsText | pyrobbot/voice_chat.py:181-194 | The queued sentences followed by the pending one are exactly the concatenated "text" contents. |
| VoiceChatModel.SpokenSomes | pyrobbot/voice_chat.py:193 | What is spoken from the queued sentences is their concatenation. |
| VoiceChatModel.SpokenAppend | pyrobbot/voice_chat.py:193-200 | What is spoken from two batches of queue items is the concatenation. |
| VoiceChatModel.TtsSpeaksAllText | pyrobbot/voice_chat.py:181-200 | When spoken, the TTS queue says exactly the reply's text chunks, and no code. |
| VoiceChatModel.TtsEndsWithSentinel | pyrobbot/voice_chat.py:196-200 | A finished answer queues only sentences, then exactly one `None`, last. |
| VoiceChatModel.TextOnlyQueuesSentinel | pyrobbot/voice_chat.py:181-200 | With `reply_only_as_text`, the only item queued is `None`. |
| VoiceChatModel.SplitIgnoresCode | pyrobbot/voice_chat.py:181 | Code chunks do not affect the sentence split. |
| VoiceChatModel.FlushedIsSpokenSentence | pyrobbot/voice_chat.py:184-194 | A flushed sentence ends, once stripped, in "?", "!" or "."; and on "." the character before it is not a digit. |
| VoiceChatModel.SplitSentencesEnd | pyrobbot/voice_chat.py:184-194 | Every sentence flushed before the end of the stream ends a sentence in that sense. |
| VoiceChatModel.StopIndex | pyrobbot/voice_chat.py:175-179 | The reply is cut at the first chunk that finds a flag set, or not at all. |
| VoiceChatModel.QueuedQuestionsSound | pyrobbot/voice_chat.py:396-405 | Every question queued is a non-empty transcript that is not an exit request. |
| VoiceChatModel.NoExitNoSentinel | pyrobbot/voice_chat.py:386-405 | When every recording has audio and none asks to exit, no `None` is queued. |
| VoiceChatModel.QuestionItemsCases | pyrobbot/voice_chat.py:386-405 | A recording queues `None` iff it has no audio or asks to exit. It queues nothing iff it is too short, or an empty transcript that does not ask to exit. Items are queued in recording order. |
| VoiceChatModel.VoiceChat.constructor | pyrobbot/voice_chat.py:59 | The block size is `int(sample_rate * frame_duration / 1000)`. |
| VoiceChatModel.AnswerStep | pyrobbot/voice_chat.py:181-194 | One chunk queues the accumulated sentence iff it is a "text" chunk that ends a sentence and the reply is spoken. The pending sentence then restarts empty, grows by the chunk's text, or stays as it was for a code chunk. |
| VoiceChatModel.VoiceChat.FeedChunk | pyrobbot/voice_chat.py:181-194 | One loop iteration keeps the TTS queue equal to the sentences flushed so far, and the local sentence equal to the pending text. |
| VoiceChatModel.VoiceChat.AnswerQuestion | pyrobbot/voice_chat.py:168-200 | The chunks are yielded unchanged up to the interrupt. A finished answer queues its sentences, the non-empty remainder and `None`. An interrupted one queues only the sentences flushed so far, and ends in `RuntimeError("generator raised StopIteration")`. |
| VoiceChatModel.VoiceChat.HandleQuestionListening | pyrobbot/voice_chat.py:378-405 | The questions queue grows by exactly the items of the recordings, in order. |
| TokenUsage.PerToken | chat_gpt/tokens.py:21-24 | Each per-token price is the per-thousand price divided by 1000. |
| TokenUsage.BuildTokenPrice | chat_gpt/tokens.py:18-24 | `token_price` has exactly the listed models, each at its per-token price. |
| TokenUsage.WithoutTimestamp | chat_gpt/tokens.py:37-61 | Removing a timestamp keeps exactly the rows with other timestamps. |
| TokenUsage.WithoutTimestampDistinct | chat_gpt/tokens.py:37 | Removing rows keeps timestamps unique. |
| TokenUsage.AppendDistinct | chat_gpt/tokens.py:37-61 | A row with a timestamp no row has can be appended without breaking the key. |
| TokenUsage.WithoutTimestampPresent | chat_gpt/tokens.py:37-61 | Under the primary key, replacing an existing timestamp removes exactly one row. |
| TokenUsage.WithoutTimestampAbsent | chat_gpt/tokens.py:61 | A new timestamp removes nothing. |
| TokenUsage.UpsertKeepsKey | chat_gpt/tokens.py:37-79 | After `INSERT OR REPLACE`, timestamps are still unique and the new row is the only one with its timestamp. Every other row stays. The table grows by one row iff the timestamp was new. |
| TokenUsage.PlanInsert | chat_gpt/tokens.py:51-79 | The `None` model inserts nothing, and a model without a price is a `KeyError`. Otherwise the row holds the token counts and their costs at the per-token prices. |
| TokenUsage.MinTimestamp | chat_gpt/tokens.py:92 | `MIN(timestamp)` is one of the rows' timestamps and no larger than any. |
| TokenUsage.RowsOf | chat_gpt/tokens.py:98 | A group holds only its model's rows. |
| TokenUsage.FindModel | chat_gpt/tokens.py:106-116 | Finds a model's group, or reports that there is none. |
| TokenUsage.AggregateAppend | chat_gpt/tokens.py:90-98 | One more row of a model adds into its group's sums and minimum. |
| TokenUsage.AggregateSingle | chat_gpt/tokens.py:90-98 | A group of one row holds that row's values. |
| TokenUsage.SumsByModelDistinct | chat_gpt/tokens.py:84-118 | No model appears twice among the groups. |
| TokenUsage.SumsByModelCovers | chat_gpt/tokens.py:84-118 | Every model in the table has a group. |
| TokenUsage.SumsByModelAggregates | chat_gpt/tokens.py:84-118 | Each group holds the earliest timestamp and the token and cost sums of exactly its model's rows. |
| TokenUsage.RowsOfAbsent | chat_gpt/tokens.py:98 | A model without rows has an empty group. |
| TokenUsage.TotalOfGroupsUpdate | chat_gpt/tokens.py:120-125 | Replacing one group changes the total by the difference. |
| TokenUsage.TotalOfGroupsIsTableTotal | chat_gpt/tokens.py:120-125 | The totals over the groups are the token and cost totals of the whole table. |
| TokenUsage.UsageRowOf | chat_gpt/tokens.py:134-154 | An accumulated-usage row carries the group's sums, and each total is input plus output. |
| TokenUsage.UsageRows | chat_gpt/tokens.py:127-155 | Each accumulated-usage row's totals are input plus output. |
| TokenUsage.UsageRowsFromGroups | chat_gpt/tokens.py:127-155 | Each row comes from a group with that model and carries its sums. The `None` model gets no row. |
| TokenUsage.UsageRowsCoverGroups | chat_gpt/tokens.py:127-155 | Every group with a named model gets its row, and there are exactly as many rows as such groups. |
| TokenUsage.ChatUsageRowOf | chat_gpt/tokens.py:168-177 | Each current-chat cost is tokens times the per-token price, and each total is input plus output. |
| TokenUsage.ChatUsageRowsFails | chat_gpt/tokens.py:162-178 | The current-chat table fails iff a named model has no price, with the `KeyError` of the first such model. |
| TokenUsage.FailureIsFinal | chat_gpt/tokens.py:164-178 | Once the loop meets an unpriced model, the result is that failure. |
| TokenUsage.TokenUsageDatabase.constructor | chat_gpt/tokens.py:18-48 | The ledger opens over the stored rows with the per-token price table. |
| TokenUsage.TokenUsageDatabase.InsertData | chat_gpt/tokens.py:51-82 | Follows `PlanInsert`: an inserted row is upserted under the unique key, and otherwise the table is unchanged. |
| TokenUsage.TokenUsageDatabase.RetrieveSumsByModel | chat_gpt/tokens.py:84-118 | One group per model in the table, none twice, each with its rows' minimum timestamp and sums. |
| TokenUsage.TokenUsageDatabase.RetrieveSums | chat_gpt/tokens.py:120-125 | The summed totals are the whole table's token and cost totals. |
| TokenUsage.TokenUsageDatabase.UsageBalanceRows | chat_gpt/tokens.py:127-155 | One row per named model's group, with totals equal to input plus output. |
| TokenUsage.TokenUsageDatabase.CurrentChatUsageRows | chat_gpt/tokens.py:162-178 | The loop builds `ChatUsageRows`: the rows, or the first `KeyError`. |
| PageQueue.SharedQueue.constructor | pyrobbot/app/app_page_templates.py:603-604 | A new queue holds the given entries. |
| PageQueue.SharedQueue.Put | pyrobbot/app/app_page_templates.py:608-610 | `put` appends at the back. |
| PageQueue.SharedQueue.PopLeft | pyrobbot/app/app_page_templates.py:606 | `popleft` takes the front entry. |
| PageQueue.FromPage | pyrobbot/app/app_page_templates.py:607-608 | Only the page's entries are kept. |
| PageQueue.FromOtherPages | pyrobbot/app/app_page_templates.py:609-610 | Only the other pages' entries are kept. |
| PageQueue.FilterPageInfoFromQueue | pyrobbot/app/app_page_templates.py:585-613 | Returns the page's entries in order, and leaves the shared queue with the other pages' entries in order. |
| PageQueue.FilterIsPartition | pyrobbot/app/app_page_templates.py:603-611 | Nothing is lost or duplicated: the two results together are a permutation of the queue. |
| PageQueue.PartitionStep | pyrobbot/app/app_page_templates.py:603-611 | One more entry keeps the two results a permutation of the queue. |
| PageQueue.FilterKeepsMembers | pyrobbot/app/app_page_templates.py:605-610 | Every entry ends up on the side its page id selects. |
| PageQueue.FilterWithoutPageEntries | pyrobbot/app/app_page_templates.py:603-611 | A page with no entries gets nothing, and the shared queue is unchanged. |
| PageQueue.FilterAppend | pyrobbot/app/app_page_templates.py:603-611 | Filtering two queues one after the other equals filtering their concatenation. |
| PageQueue.FilterAgainFindsNothing | pyrobbot/app/app_page_templates.py:542-551 | Filtering again finds nothing more for the page. |
| SessionState.Session.constructor | pyrobbot/app/app_page_templates.py:77-82 | The session starts with its named entries and no page dictionaries. |
| SessionState.TextOr | pyrobbot/app/app_page_templates.py:84-102 | A getter returns the stored title if there is one, else the fallback. |
| SessionState.WithHistory | pyrobbot/app/app_page_templates.py:254-259 | The history getter creates "messages" only when absent, and keeps every other key. |
| SessionState.HistoryGetterStable | pyrobbot/app/app_page_templates.py:254-259 | Reading the history again changes nothing and returns the same history. |
| SessionState.AppendHistory | pyrobbot/app/app_page_templates.py:417-424 | Appending to the history adds exactly that entry at the end, and keeps every other key. |
| SessionState.Contents | gpt_buddy_bot/app/app_page_templates.py:146-148 | The contents are listed message by message, in order. |
| AppPages.ChatNumberTitle | pyrobbot/app/app_page_templates.py:64 | "Chat #n" starts with "Chat #" and ends in a digit. For a non-negative `n`, the rest is digits that denote `n`. |
| AppPages.ChatNumberTitleInjective | pyrobbot/app/app_page_templates.py:64 | Different page numbers get different titles. |
| AppPages.RecoveredTitleKeepsHash | pyrobbot/app/app_page_templates.py:64-66 | `strip('#')` leaves "Chat #n" unchanged. |
| AppPages.FallbackTitles | pyrobbot/app/app_page_templates.py:64-73 | A recovered chat falls back to "Chat #n (Recovered)" on the page and "Chat #n" in the sidebar. Other pages fall back to "Chat #n", with the sidebar showing the given title when there is one. |
| AppPages.NewPageTitles | pyrobbot/app/app_page_templates.py:62-102 | A new page shows its given titles, else the fallbacks, and a recovered chat stores no page title. |
| AppPages.StoreChatKeepsId | pyrobbot/app/app_page_templates.py:238-252 | Replacing the chat keeps the page's chat id, and reading back gives the stored chat, whose configs become the page's. |
| AppPages.StoreConfigsRenewsChat | pyrobbot/app/app_page_templates.py:223-236 | After new configs are set, the next chat is a fresh one built from them. |
| AppPages.GetChatFails | pyrobbot/app/app_page_templates.py:216-236 | Getting the chat raises `KeyError` iff the page has neither a chat nor configs and the app has no configs. |
| AppPages.PromptAppendsPair | pyrobbot/app/app_page_templates.py:407-516 | A prompt appends exactly the user message and then the assistant message, whose content is the whole streamed reply. An empty prompt changes nothing. |
| AppPages.TitledPageKeepsTitles | pyrobbot/app/app_page_templates.py:525-538 | A page that has a title keeps both titles. |
| AppPages.AutoTitleSetsBoth | pyrobbot/app/app_page_templates.py:525-538 | An untitled page is titled iff its history grows past 3 messages, and then the page and sidebar titles are both the summary. |
| AppPages.AutoTitleOnSecondExchange | pyrobbot/app/app_page_templates.py:525-538 | A fresh page is titled by its second exchange, not its first. |
| AppPages.ChatBotPage.constructor | pyrobbot/app/app_page_templates.py:48-75 | The page number is one more than the count of pages created. The fallbacks follow `FallbackTitles`. The page state holds the initial titles and then the passed chat (through the setter) or the default chat (through the getter). |
| AppPages.ChatBotPage.SetTitle | pyrobbot/app/app_page_templates.py:99-102 | The title reads back as set, and the sidebar title is unchanged. |
| AppPages.ChatBotPage.SetSidebarTitle | pyrobbot/app/app_page_templates.py:89-92 | The sidebar title reads back as set, and the title is unchanged. |
| AppPages.ChatBotPage.ChatConfigs | pyrobbot/app/app_page_templates.py:216-221 | The page's configs, copied from the app on first access, or a `KeyError` with the state unchanged. |
| AppPages.ChatBotPage.SetChatConfigs | pyrobbot/app/app_page_templates.py:223-227 | Stores the configs and drops the cached chat. |
| AppPages.ChatBotPage.ChatObj | pyrobbot/app/app_page_templates.py:229-236 | The page's chat, made from the page's configs on first access, or a `KeyError` with the state unchanged. |
| AppPages.ChatBotPage.SetChatObj | pyrobbot/app/app_page_templates.py:238-252 | Stores the new chat under the current chat's id when one exists, and its configs as the page's. |
| AppPages.ChatBotPage.ChatHistory | pyrobbot/app/app_page_templates.py:254-259 | Returns the page's history, creating an empty one on first access. |
| AppPages.ChatBotPage.RenderPrompt | pyrobbot/app/app_page_templates.py:407-551 | The reply chunks are accumulated into the assistant message, and the page state follows `PromptState`. With a prompt, both prompt queues keep exactly the other pages' entries; without one, nothing changes. |
| BuddyPages.SummaryPromptOfFourMessages | gpt_buddy_bot/app/app_page_templates.py:145-148 | The first title is asked for with the four contents in order, separated by "\n\x1f", after the preamble. |
| BuddyPages.ConfigsFileReadOnce | gpt_buddy_bot/app/app_page_templates.py:67-74 | The options file is read only while the page has no configs; afterwards the page's own configs are used. |
| BuddyPages.StoredChatIsRead | gpt_buddy_bot/app/app_page_templates.py:76-86 | A chat that is set is the chat read back, with its own id, and its configs become the page's. |
| BuddyPages.NewChatUsesPageConfigs | gpt_buddy_bot/app/app_page_templates.py:76-81 | A page without a chat makes one from its configs, and keeps it. |
| BuddyPages.PromptAppendsPair | gpt_buddy_bot/app/app_page_templates.py:115-150 | A prompt appends exactly the user message and then the assistant message, and a titled page keeps its titles. |
| BuddyPages.AutoTitleOnSecondExchange | gpt_buddy_bot/app/app_page_templates.py:142-150 | A fresh page is titled by its second exchange with the chat's summary of the four messages, and the sidebar shows the same title. |
| BuddyPages.ChatBotPage.constructor | gpt_buddy_bot/app/app_page_templates.py:60-65 | The title is always the app banner, whatever page title was passed. The sidebar title is the given one or "Chat n". The page state is created only when no page title was passed. |
| BuddyPages.ChatBotPage.SetTitle | gpt_buddy_bot/app/app_page_templates.py:48-52 | The title reads back as set, and the sidebar title is unchanged. |
| BuddyPages.ChatBotPage.SetSidebarTitle | gpt_buddy_bot/app/app_page_templates.py:38-41 | The sidebar title reads back as set, and the title is unchanged. |
| BuddyPages.ChatBotPage.ChatConfigs | gpt_buddy_bot/app/app_page_templates.py:67-74 | The page's configs, loaded from the options file on first access. |
| BuddyPages.ChatBotPage.ChatObj | gpt_buddy_bot/app/app_page_templates.py:76-81 | The page's chat, made on first access. |
| BuddyPages.ChatBotPage.SetChatObj | gpt_buddy_bot/app/app_page_templates.py:83-86 | Stores the chat and its configs. |
| BuddyPages.ChatBotPage.ChatHistory | gpt_buddy_bot/app/app_page_templates.py:88-93 | Returns the page's history, creating an empty one on first access. |
| BuddyPages.ChatBotPage.Render | gpt_buddy_bot/app/app_page_templates.py:101-150 | The page's chat is made if needed, and the prompt is answered with its user and assistant names. |
| BuddyPages.ChatBotPage.HandlePrompt | gpt_buddy_bot/app/app_page_templates.py:115-150 | The page state follows `PromptState`. The sidebar title is read back from the new title. |

## Left out

- The language model, web search, text-to-speech and speech-to-text engines, the
  voice-activity detector, the microphone and the clock are not modelled. Their
  outputs are parameters: reply chunks, the summary, recogniser text, per-block
  verdicts, and a per-block flag saying that the inactivity check is due.
- Threads, `threading.Event` flags and inter-thread queues are not modelled. An
  interrupt is the index of the chunk at which the flag is first seen. The exit flag
  bounds the list of recordings that `handle_question_listening` handles.
- Files and databases are plain values: the metadata JSON, the pickled options file,
  and the SQLite table, which is a sequence of rows. Configs export, `clear_cache`,
  `load_history` and `__del__` are left out.
- Floating point is exact `real` arithmetic. Timestamps are reals with no ISO
  formatting.
- `str.strip()` uses a fixed set of whitespace characters. `lower()` and `isdigit()`
  are ASCII only.
- `_get_lower_alphanumeric` is the `normalize` parameter of the exit check.
- Recording duration is reduced to a flag saying whether the recording lasts the
  0.05 s minimum.
- `_assistant_still_replying` waiting and the logged `PortAudioError` and other
  exceptions are not modelled.
- LiveAssistant.Listen: a `KeyboardInterrupt` that ends recording early is not
  modelled.
- The `ImportError` for a missing `sounddevice` is not modelled.
- The duration-bounded `VoiceChat.listen` in pyrobbot/voice_chat.py is not part of
  this model; `LiveAssistant.listen` is.
- VoiceChatModel.VoiceChat.AnswerQuestion: the `start` loop and the web thread that
  consume the generator are not modelled. Neither handles the `RuntimeError` that an
  interrupted answer raises: the `start` loop catches only `KeyboardInterrupt` and
  `EOFError`, and the web thread ends before it queues its `None`.
- The clearing of `current_answer_audios_queue` at the start of `answer_question`,
  and `handle_update_audio_history`, are not modelled.
- `Chat.start`, `report_token_usage`, `api_connection_error_msg` and the internals
  of the web-search check are not modelled. The check's outcome is a parameter.
- ChatSession.Chat.YieldResponseFromMsg, ChatSession.Chat.RespondPrompt: when the
  web-search check runs, its `_translate` calls (of "yes", of the summary
  instructions and of the apology) may store translations in the shared cache. The
  model lets the cache change then, without saying how.
- The context handler's retrieval and storage are not modelled. Its context is a
  parameter, and its history is a field of `Chat`.
- `get_n_tokens`, `print_usage_costs` and the pandas formatting are not modelled:
  column grouping, the totals row and the "First Registered Use" string.
- TokenUsage.SumsByModel lists groups in first-appearance order, an order SQLite's
  `GROUP BY` does not promise.
- In the pyrobbot page, chat-object metadata updates and `save_cache` on auto-title
  and in the `chat_obj` setter are not modelled. Neither are `openai_client`,
  `model_validate`, avatars, widget rendering, audio playback, continuous
  speech-to-text input and `reply_ongoing`.
- History entries carry role, name and content only; the timestamp and audio-path
  fields are not modelled.
- Chat objects on a page are values (id and configs). The id assignment on the new
  chat object is the stored copy's id, so aliasing between a page's chat object and
  other references is not modelled.
- The session's named entries and the pages' dictionaries are two maps, where
  streamlit keeps one dict.
- `AppPage` is folded into `ChatBotPage`, its only page class.
- AppPages.ChatBotPage.constructor: requires the app's "chat_configs" when no chat
  object is passed. In that case the source's `chat_obj` getter raises `KeyError`
  from inside `__init__`, after the titles were stored. A constructor cannot return
  that error, so it is modelled on its own by `GetChat` and `GetChatFails`.
- AppPages.ChatBotPage.RenderPrompt: the history rendering that runs before every
  prompt is not modelled. It reads `chat_history`, which adds an empty "messages"
  entry to a page that has none, even for an empty prompt, and `chat_obj`. The
  getters `ChatHistory` and `ChatObj` model those reads.
- `MultipageChatbotApp` is not part of this model. The app is reduced to its state
  and its two prompt queues, taken to be distinct objects.
- The gpt_buddy_bot page's `st.title` and `st.markdown` display calls, and
  `render_chat_history`, are not modelled.
