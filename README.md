# Chat core of a Discord companion bot, modelled in Dafny

The bot keeps, per conversation, a bounded window of chat messages, renders a
system prompt from a persona builder, and post-processes what the language
model sends back. This project models those three pieces and proves what
they promise:

- `context.dfy` (module `Context`): `ChatContext`, the conversation window.
  It is a class whose `slots` field lists the entries of the source's ordered
  map (message id to slot) in insertion order, with distinct keys. The
  methods insert or replace slots, and `get_context` drains the oldest slots
  once the window reaches `max_stm`. `get_regen_context` and
  `freewill_context` build on it.
- `prompt.dfy` (module `Prompt`): `SystemPromptBuilder` as a datatype with
  one function per builder method. This covers the FIFO-bounded long-term
  memory and its panics, and the elapsed-time phrasing and placeholder
  substitution of `build`. Rendering (`SystemPrompt::new`) is a method that
  pushes the sections one by one. It is proved equal to the function
  `Render`, which fixes the order of the sections and omits absent ones.
- `agent.dfy` (module `Agent`): the text handling of the completion agent.
  It covers the reply clean-up (three regex replacements, modelled as the
  scans they perform), the lookup of a tool by name, the restoring of
  recalled memories into a `UserPrompt`, and the transcript handed to the
  summariser.
- `text.dfy` (module `Text`) and `wrappers.dfy` (module `Wrappers`): the
  string operations the code calls (`str::replace`, `join`,
  `trim_end_matches`, integer formatting), plus `Option` and `Result`. Two
  more scans, a first-occurrence search and a leading-run trim, are how the
  model expresses the matching of the regexes at
  `src/chat/client/agent.rs:234-247`; the code itself does not call them.

`UserPrompt` is a small class standing in for the prompt struct of a file
that is not part of this model: the optional text of the user's message and
the list of memories recalled for it, which starts empty.

Parameters stand in for:

- the clock: `now` in whole seconds, and `time`, the already formatted
  current time;
- the duration formatter used by `freewill_context`;
- the fresh id that the slot crate gives an id-less message;
- `str::to_lowercase`;
- the tools;
- the memory search;
- the JSON field extraction of the summariser.

## Model

| member | source | states |
|---|---|---|
| Context.ChatContext.constructor | src/chat/context/context.rs:18-23 | a new context has no slots and keeps a copy of the builder |
| Context.Insert | src/chat/context/context.rs:25-32 | `IndexMap::insert`: a new key appends the slot at the end; an existing key keeps the count and every position and replaces only its own slot; keys stay distinct and the key is present afterwards |
| Context.ChatContext.AddMessage | src/chat/context/context.rs:25-32 | the slots become `Insert` of the old ones; with an unused id the slot is appended and `Latest()` is that slot, with a used id the count is unchanged; the builder is untouched |
| Context.ChatContext.AddUserMessage | src/chat/context/context.rs:34-43 | inserts a role-"user" message with the default send time under the given id |
| Context.ChatContext.Latest | src/chat/context/context.rs:45-47 | the last slot in insertion order, `None` exactly when the window is empty |
| Context.RPosition | src/chat/context/context.rs:48-54 | `rposition`: the last index satisfying the predicate, no later index satisfies it, and `None` only when no index does |
| Context.ChatContext.LatestWithRole | src/chat/context/context.rs:48-54 | `None` iff no slot's selected message has the role; otherwise a slot with that role after which no slot has it |
| Context.IndexOf | src/chat/context/context.rs:56-58 | the position of the key, the first one holding it, and `None` iff the key is absent |
| Context.ChatContext.Find | src/chat/context/context.rs:56-58 | `None` iff the key is absent; otherwise a slot of the window carrying that key |
| Context.ChatContext.Get | src/chat/context/context.rs:59-61 | the slot at the position, `None` iff the position is past the end |
| Context.ChatContext.FindFull | src/chat/context/context.rs:68-70 | position, key and slot of the key; `None` iff absent; `Get` at that position agrees with `Find` |
| Context.ContextOf | src/chat/context/context.rs:101-140 | the returned context has one entry more than the window: the system message first (role "system"), then each slot's selected message in order |
| Context.DrainCount | src/chat/context/context.rs:114-115 | the count drained never exceeds the window (the subtraction cannot underflow); a full window keeps `max_stm*4/5` slots, one below capacity drains nothing |
| Context.Kept | src/chat/context/context.rs:114-123 | the slots left after the drain are a suffix of the old ones, `max_stm*4/5` of them when full, all of them otherwise |
| Context.DrainedOf | src/chat/context/context.rs:114-126 | something is drained exactly when a non-empty window is full; what is drained is the selected messages of the oldest slots in order, and these followed by the kept ones are all the old messages |
| Context.DrainLeavesRoom | src/chat/context/context.rs:114-115 | after a drain (with `max_stm >= 1`) the window is below capacity, so an immediate second call drains nothing |
| Context.DrainExample | src/chat/context/context.rs:114-123 | 60 slots with `max_stm` 50: 20 drained, 40 kept, 61 messages returned |
| Context.ChatContext.GetContext | src/chat/context/context.rs:78-143 | the context is `ContextOf` the old window with the prompt built from the last message's time (or now, when empty), gathered before the drain; the window becomes `Kept`, drained is `DrainedOf`, the builder is untouched |
| Context.RemoveLastWithRole | src/chat/context/context.rs:158-160 | with no message of the role the context is unchanged; otherwise exactly the message at the last position holding the role is removed |
| Context.RemoveKeepsFirst | src/chat/context/context.rs:158-160 | a first message of another role stays first |
| Context.RemoveDropsOneIffPresent | src/chat/context/context.rs:158-160 | the context loses one message iff some message has the role |
| Context.RegenKeepsSystemFirst | src/chat/context/context.rs:146-163 | after regeneration the system message is still first, and one message is gone iff some slot's selected message is the assistant's |
| Context.ChatContext.GetRegenContext | src/chat/context/context.rs:146-163 | the context of `get_context` with its last assistant message removed; the window and drained list exactly as in `get_context` |
| Context.ChatContext.TimeSinceLast | src/chat/context/context.rs:188-194 | an error with the empty-context message iff the window is empty; otherwise now minus the latest slot's send time |
| Context.FreewillMessageNamesElapsed | src/chat/context/context.rs:171-178 | the freewill message is a role-"user" message with the default send time whose text opens with `*it's been around ` followed by the elapsed time |
| Context.ChatContext.FreewillContext | src/chat/context/context.rs:165-186 | fails with the empty-context message iff the window is empty after the drain (the drain still happens); otherwise exactly one id-less role-"user" slot is appended, and the same message ends the returned context, after the `get_context` context |
| Prompt.NewBuilder | src/chat/prompt.rs:12-20 | the names, about text and limits as given, every optional section absent |
| Prompt.WithTone | src/chat/prompt.rs:305-308 | tone becomes present with the new text, every other field unchanged |
| Prompt.WithAge | src/chat/prompt.rs:310-313 | age overwritten, nothing else changes |
| Prompt.WithHistory | src/chat/prompt.rs:349-352 | history overwritten, nothing else changes |
| Prompt.WithUserAbout | src/chat/prompt.rs:441-444 | the user's about text overwritten, nothing else changes |
| Prompt.WithTimezone | src/chat/prompt.rs:446-449 | time zone overwritten, nothing else changes |
| Prompt.WithLanguage | src/chat/prompt.rs:451-454 | language overwritten, nothing else changes |
| Prompt.AppendOne | src/chat/prompt.rs:315-322 | the list is present afterwards and is the old elements (none if absent) plus the new one |
| Prompt.AppendMany | src/chat/prompt.rs:323-330 | the list is present afterwards and is the old elements followed by the new ones |
| Prompt.AppendManyIsRepeatedAppendOne | src/chat/prompt.rs:315-330 | a bulk add equals adding the elements one by one, except that adding nothing to an absent list makes it present and empty |
| Prompt.AddLike | src/chat/prompt.rs:315-322 | likes become the old likes plus the new one, nothing else changes |
| Prompt.AddLikes | src/chat/prompt.rs:323-330 | likes become the old likes followed by the new ones, nothing else changes |
| Prompt.AddDislike | src/chat/prompt.rs:332-339 | as `AddLike` for dislikes |
| Prompt.AddDislikes | src/chat/prompt.rs:340-347 | as `AddLikes` for dislikes |
| Prompt.AddConversationalGoal | src/chat/prompt.rs:354-361 | as `AddLike` for conversation goals |
| Prompt.AddConversationalGoals | src/chat/prompt.rs:362-369 | as `AddLikes` for conversation goals |
| Prompt.AddConversationalExample | src/chat/prompt.rs:371-378 | as `AddLike` for conversational examples |
| Prompt.AddConversationalExamples | src/chat/prompt.rs:379-386 | as `AddLikes` for conversational examples |
| Prompt.AddContext | src/chat/prompt.rs:388-395 | as `AddLike` for context |
| Prompt.AddContexts | src/chat/prompt.rs:396-403 | as `AddLikes` for context |
| Prompt.Newest | src/chat/prompt.rs:405-439 | the newest `n` elements: exactly `min(len, n)` of them, a suffix of the list |
| Prompt.AddLongTermMemory | src/chat/prompt.rs:405-419 | panics iff the list is present and empty and `max_ltm` is 0; an absent list becomes `[m]`; otherwise the oldest element is dropped iff the length plus one exceeds `max_ltm`, and `m` is appended last; only the memory field changes |
| Prompt.AddLongTermMemories | src/chat/prompt.rs:420-439 | panics iff the list is present, within the bound, and there are more new memories than `max_ltm`; an over-full list leaves the builder unchanged; an absent list becomes the new memories, unbounded |
| Prompt.LongTermMemoryKeepsNewest | src/chat/prompt.rs:405-419 | within the bound (and `max_ltm >= 1`), adding one memory keeps exactly the newest `max_ltm` of the old list plus the new one |
| Prompt.LongTermMemoryIgnoresBoundWhenAbsent | src/chat/prompt.rs:415-417 | on an absent list the bound is not consulted: with `max_ltm` 0 the list has length 1 |
| Prompt.LongTermMemoryOverfullStaysOverfull | src/chat/prompt.rs:408-414 | a list already over the bound keeps its length: one in, one out |
| Prompt.LongTermMemoriesKeepNewest | src/chat/prompt.rs:420-439 | within the bound, a bulk add keeps exactly the newest `max_ltm` of old plus new (so `[a,b]` plus `[c,d]` with bound 3 is `[b,c,d]`) |
| Prompt.SingleAndBulkLongTermMemoryAgree | src/chat/prompt.rs:405-439 | within the bound, the bulk adder on one memory equals the single adder |
| Prompt.RepeatedLongTermMemoryStaysBounded | src/chat/prompt.rs:405-419 | adding memories one at a time to a list within the bound never panics and never passes the bound |
| Prompt.ElapsedParts | src/chat/prompt.rs:470-497 | the arm is seconds iff 0..59, minutes iff 60..3599, hours iff 3600..86399, days otherwise (negatives included); the count is the seconds divided by the unit, truncated toward zero |
| Prompt.PhraseOf | src/chat/prompt.rs:472-497 | the text `format!` builds from a count and a unit reads as that count in decimal, a space, the unit word, and an "s" only when the count is above one |
| Prompt.PhraseElapsed | src/chat/prompt.rs:472-497 | the phrase for a number of seconds is the count and unit of `ElapsedParts`: it reads back as that truncated count followed by the unit, plural only above one |
| Prompt.PhraseElapsedExamples | src/chat/prompt.rs:472-480 | 0 is "0 second", 1 is "1 second" |
| Prompt.PhraseElapsedTruncates | src/chat/prompt.rs:481-488 | 119 is "1 minute": the count is truncated and a count of one is singular |
| Prompt.PhraseElapsedPlural | src/chat/prompt.rs:473-480 | 45 is "45 seconds": the "s" appears only above one |
| Prompt.PhraseElapsedLongExamples | src/chat/prompt.rs:489-496 | 5400 is "1 hour", 90000 is "1 day", -30 is "0 day" |
| Prompt.PastMessagePhrasedInDays | src/chat/prompt.rs:470-497 | as the difference is last message minus now, any message at least one second in the past lands in the day arm with a count of at most zero, and within a day reads "0 day" |
| Prompt.Substitute | src/chat/prompt.rs:499-505 | a text holding none of `{user}`, `{bot}`, `{time}`, `{time_since}` is left unchanged by the four replacements |
| Prompt.SubstituteFillsTimeSince | src/chat/prompt.rs:499-505 | in a text whose only placeholder is one `{time_since}`, that placeholder is replaced by the elapsed phrase and everything around it is kept |
| Prompt.SubstituteEach | src/chat/prompt.rs:517-529 | a list is rewritten element by element, keeping its length and order |
| Prompt.Rewrite | src/chat/prompt.rs:499-636 | the names, `about`, the limits and the time zone are never rewritten; every section keeps its presence, and long-term memory its length |
| Prompt.RewriteWithoutPlaceholders | src/chat/prompt.rs:499-636 | a builder whose sections hold no placeholder is rewritten to itself |
| Prompt.Build | src/chat/prompt.rs:456-639 | the stored builder is the rewrite with the phrase for last message minus now, and the text is its rendering |
| Prompt.NumberedBlocksAt | src/chat/prompt.rs:150-159 | the k-th block of an examples, context or memory section carries number `k+1` and the k-th element, so numbering follows list order |
| Prompt.Render | src/chat/prompt.rs:22-212 | the rendering opens with the header naming the bot and the user (and the recall note when recalling), and always holds the About section with the bot's about text |
| Prompt.OpensWith | src/chat/prompt.rs:22-212 | the prompt's parts concatenated in order start with the first part (the header) and contain the third (the About section) |
| Prompt.NewSystemPrompt | src/chat/prompt.rs:22-230 | pushing the sections one by one yields exactly `Render`, and the prompt keeps the builder it was given, so `into_builder` returns it |
| Prompt.PushText | src/chat/prompt.rs:71-79 | appends the titled section iff the text is present |
| Prompt.PushBullets | src/chat/prompt.rs:91-103 | appends the bulleted section iff the list is present, even when empty |
| Prompt.Rebuild | src/chat/prompt.rs:240-242 | renders again from the stored builder and keeps it |
| Prompt.RenderFreshBuilder | src/chat/prompt.rs:28-69 | a builder with no optional section renders as the header followed by the About section only |
| Prompt.RenderSkipsEmptyMemory | src/chat/prompt.rs:183-202 | an empty long-term memory list renders exactly like an absent one |
| Prompt.RenderKeepsEmptyLikesHeader | src/chat/prompt.rs:91-103 | an empty likes list still adds its section header, unlike an absent one |
| Prompt.RecallingOnlyAddsRecallNote | src/chat/prompt.rs:28-49 | the `recalling` flag inserts the recall note right after the system notes and changes nothing else |
| Prompt.RenderIsHeaderThenSections | src/chat/prompt.rs:22-212 | the rendering is the header followed by the sections, which do not depend on `recalling` |
| Agent.StripThink | src/chat/client/agent.rs:233-241 | the clean-up never lengthens the text |
| Agent.StripThinkRemovesBlock | src/chat/client/agent.rs:233-241 | text before a `<think>` is kept; the block up to its first `</think>` goes, with all the newlines right after it; the scan continues after it |
| Agent.StripThinkAtBlock | src/chat/client/agent.rs:234-241 | a leading think block and the newlines after it are removed |
| Agent.StripThinkWithoutOpen | src/chat/client/agent.rs:234-241 | a text without `<think>` is returned unchanged |
| Agent.StripThinkWithoutClose | src/chat/client/agent.rs:234-241 | a text with no `</think>` is returned unchanged, whatever `<think>` it holds |
| Agent.StripThinkKeepsLoneOpen | src/chat/client/agent.rs:234-241 | a `<think>` with no `</think>` after it is kept |
| Agent.CollapseSpacesBeforeBreak | src/chat/client/agent.rs:243-245 | the replacement of a run of spaces before a blank line never lengthens the text |
| Agent.CollapseBeforeBreakWithout | src/chat/client/agent.rs:243-245 | a text with no space before a blank line is returned unchanged |
| Agent.CollapseBeforeBreakKeepsPrefix | src/chat/client/agent.rs:243-245 | a prefix holding no space-then-blank-line and not ending in a space is kept, and the scan goes on after it |
| Agent.CollapseBeforeBreakRemovesRun | src/chat/client/agent.rs:243-245 | a whole run of spaces directly before a blank line is removed, the blank line kept, and the rest processed after it |
| Agent.CollapseBeforeBreakCanLeaveBreak | src/chat/client/agent.rs:243-245 | one left-to-right pass can leave a space before a blank line: `" \n \n\n"` becomes `" \n\n\n"` |
| Agent.CollapseSpaces | src/chat/client/agent.rs:246-247 | the result has no two consecutive spaces, is no longer than the input, and starts with a space iff the input does |
| Agent.CollapseSpacesAppend | src/chat/client/agent.rs:246-247 | after a prefix not ending in a space, the rest is collapsed on its own: the collapse of `a + t` is the collapse of `a` followed by that of `t` |
| Agent.CollapseLeadingRun | src/chat/client/agent.rs:246-247 | a text opening with a run of one or more spaces, followed by a non-space, opens with exactly one space, and the rest is collapsed on its own |
| Agent.CollapseSpacesRun | src/chat/client/agent.rs:246-247 | a run of one or more spaces between a text not ending in a space and one not starting with a space becomes exactly one space |
| Agent.CollapseSpacesWithout | src/chat/client/agent.rs:246-247 | a text with no double space is returned unchanged |
| Agent.CollapseSpacesIdempotent | src/chat/client/agent.rs:246-247 | collapsing twice is collapsing once |
| Agent.CleanReply | src/chat/client/agent.rs:227-247 | the optional lower-casing followed by the three replacements in order; the reply has no two consecutive spaces |
| Agent.CleanReplyKeepsCleanText | src/chat/client/agent.rs:233-247 | a reply with no `<think>`, no space before a blank line and no double space comes through unchanged |
| Agent.CallTool | src/chat/client/agent.rs:288-294 | the not-found error iff the name is not registered, and its message is `tool not found: ` followed by the name; otherwise the tool's own answer or its error |
| Agent.CallToolAfterRegister | src/chat/client/agent.rs:288-294 | a registered tool is reached by its name, and other names are unaffected |
| Agent.Recalled | src/chat/client/agent.rs:319-325 | one restored memory per found memory, in the order found |
| Agent.Restore | src/chat/client/agent.rs:320-324 | a memory without `<user>` or `<assistant>` is recalled word for word |
| Agent.RestoreTranscriptLine | src/chat/client/agent.rs:320-324 | a transcript line `<user>: text` or `<assistant>: text` is restored to the speaker's name followed by the same text |
| Agent.RagRecall | src/chat/client/agent.rs:296-333 | without text: `Ok`, nothing changes; a failed search is the error and changes nothing; otherwise the restored memories are appended in order; the text is never changed |
| Agent.Line | src/chat/client/agent.rs:412-434 | a message yields a line iff it has content, and every line ends with the separator |
| Agent.LinesAppend | src/chat/client/agent.rs:410-435 | the lines of two runs of messages are the lines of each, in order |
| Agent.LinesOfNext | src/chat/client/agent.rs:412-434 | a message without content adds nothing; one with content adds exactly `name: text` and the separator |
| Agent.Joined | src/chat/client/agent.rs:435-437 | the joined lines never end with the separator |
| Agent.JoinedStripsSeparators | src/chat/client/agent.rs:435-437 | what the trim removed is a whole number of separators |
| Agent.JoinedOfOneMessage | src/chat/client/agent.rs:412-437 | a lone message with content is its line without the separator |
| Agent.Transcript | src/chat/client/agent.rs:409-441 | for any list of turns, when the names are plain (non-empty, not starting with a space, no newline or colon, the assistant's name neither containing the user's nor occurring in `<user>`) and no shown text holds either name, the transcript is the joined lines with the speakers written as `<user>` and `<assistant>` |
| Agent.ReplaceJoined | src/chat/client/agent.rs:435-439 | replacing a plain name that occurs in no shown text renames exactly the speakers that were that name and changes nothing else |
| Agent.TranscriptTags | src/chat/client/agent.rs:409-441 | the two replacements in order turn the user's and the assistant's names into their tags |
| Text.FindFirst | src/chat/client/agent.rs:234 | the first occurrence of a pattern, `None` iff there is none |
| Text.TrimStartMatches | src/chat/client/agent.rs:234 | the suffix left after a leading run of one character, which it does not start with |
| Text.ReplaceAbsent | src/chat/prompt.rs:501-504 | `str::replace` leaves a string without the pattern unchanged |
| Text.TrimEndMatches | src/chat/client/agent.rs:437 | the result is a prefix of the input that no longer ends with the pattern |
| Text.TrimEndMatchesStripsCopies | src/chat/client/agent.rs:437 | what is stripped is a whole number of copies of the pattern |
| Text.NatToString | src/chat/prompt.rs:479 | decimal digits, at least one, with no leading zero |
| Text.ParseNatToString | src/chat/prompt.rs:479 | decimal formatting is lossless: parsing it gives the number back |
| Text.IntToStringReadsBack | src/chat/prompt.rs:479 | formatting any integer, negative ones with a leading `-`, reads back as that integer |
| Text.TruncDiv | src/chat/prompt.rs:494-495 | division truncating toward zero, as chrono's `num_days`: the floor quotient for a non-negative dividend, and for a non-positive one the least `q` with `a <= q * b` |

## Left out

- I/O and the network are not modelled: the model call and the request it sends, embeddings, the memory store, `tool_definitions`, the summariser's model call, Discord handlers, `main`, logging and `println!`.
- Concurrency is not modelled. The bot keeps a context per user behind async locks; the model treats one context at a time.
- The slot type comes from an external crate that is not part of this model. A slot is its key and its selected message. Branch navigation and `find_mut`, `get_mut`, `find_full_mut`, which hand out mutable references for that navigation, are not modelled.
- `ChatMessage` and `MessageRole` come from a file that is not part of this model.
  - A message's `..Default::default()` send time is the constant `DefaultSentAt`.
  - The summariser reads a message only through its role (user or assistant) and its optional content.
- Context.ChatContext.FreewillContext: the source reads the clock twice (in `build` and in `time_since_last`); the model uses one `now`. Durations are whole seconds.
- Context.ChatContext.FreewillContext: the duration formatter `utils::time_to_string` is not part of this model and is a parameter.
- Prompt.Build: sub-second differences are dropped. chrono's `num_seconds` truncates them toward zero, and the model's clock counts whole seconds only.
- Prompt.Build: the time zone and `chrono`'s `%Y-%m-%d %H:%M:%S %z` formatting are not modelled. The formatted time is the parameter `time`, and the time zone is kept by name only.
- Context.ChatContext.GetContext: on an empty window the prompt is built with the last message time equal to now, so the elapsed phrase is "0 second".
- `ChatContext::add_long_term_memories` (src/chat/context/context.rs:196-198) is not modelled. As written it calls the builder's by-value method on the builder field behind `&mut self`, a move out of a borrow, so the call cannot take effect on the stored builder.
- Agent.CleanReply: `str::to_lowercase` (Unicode case mapping) is the parameter `lowercase`. The trace logging of each thought is left out.
- Agent.RagRecall: the embedding and the store search (its user id and its limit of 5) are the parameter `search`, whose failure stands for either error.
- Agent.Transcript: the JSON extraction of `content` or `system_note` is the parameter `extract`.
- ToolResult and its JSON encoding are not modelled.
- The long system-prompt and freewill texts are written out in full. Only the summariser's fixed instructions are left out, because the model never renders them.
