# Aura Wellness: a Dafny model of its decision logic

Aura Wellness is a React front end for stress and well-being tracking. It has a chat assistant, a
real-time microphone stress estimator, dashboard charts, a task list, guided breathing and
mindfulness sessions, a nearby-care finder, an emotion check-in wheel and a set of authentication
forms. Most of the code is presentation. This project models the parts that decide something:

- the per-frame stress formula, the smoothing, the final mean and the handle life cycle of the
  estimator;
- the chat turn: its guard, the choice of the one log mutation, the place-search path, the replies
  and the error path, plus voice recording and the read-aloud player;
- TaskList: updates of one task by id, and the three orderings;
- the chart aggregations: group by day, average or merge, sort by time, keep the last seven;
- emotion counting and the tooltip thresholds on the dashboard;
- the line cleaner, list-item classifier and numbering of the place finder, its query builder and
  its location status;
- breathing-instruction extraction, the step timer and mindfulness paragraphs;
- the emotion wheel's step machine, key lookup and inversion, and history order;
- the ordered checks of the sign-up, login, admin-login and password-reset forms, and the view
  switch of the authentication page;
- the append-only chat history.

Each source file has one Dafny module of the same name. Three shared modules support them:

- `Text`: JavaScript `trim`, `split` and character removal, written out over `seq<char>`.
- `Sorting`: a stable sort by an integer key, standing in for `Array.prototype.sort`, which is
  stable, and `slice(-n)`.
- `Grouping`: the insertion order of a JavaScript object's keys, and the members of each group.

State that the source changes step by step (hooks' refs, component state, loops that fill a
dictionary) is modelled by classes and methods with loop invariants. Each method is proved against a
specification function, and the properties the code promises are proved about that function.

The collaborators are parameters of the operations that use them:

- The assistant, speech synthesis, transcription, place search and intervention generator are
  modelled as the outcome of one call: a value, or a failure.
- The browser's microphone, geolocation, audio contexts, timers and animation frames are modelled
  as numbered handles and events.
- The localisation function `t` is a parameter `string -> string`.
- Locale date formatting (`toLocaleDateString`) is a parameter `dateKey: int -> string`.

Numbers are `real`.

## Model

| member | source | states |
|---|---|---|
| RealtimeStress.SumBytes | hooks/useRealtimeStress.ts:67 | the sum of the frequency bins is at most 255 per bin |
| RealtimeStress.AverageVolume | hooks/useRealtimeStress.ts:67 | the mean volume lies in [0, 255] and times the bin count (128, half of `fftSize` 256) gives the bin sum |
| RealtimeStress.StressReading | hooks/useRealtimeStress.ts:72-81 | a reading lies in [0, 100]; it is at least 35 when the average exceeds 8; it is `avg*100/45` for averages in [0, 8]; it is exactly the larger of 35 and `avg*100/45` for averages strictly between 8 and 45; it is 100 from 45 upward and 0 at silence; it is never below the plain clamped proportion |
| RealtimeStress.StressReadingMonotone | hooks/useRealtimeStress.ts:72-81 | a louder frame never gives a lower reading |
| RealtimeStress.StressReadingExamples | hooks/useRealtimeStress.ts:72-81 | worked values: 0 reads 0, 4 reads 80/9, 9 is raised to 35, 22.5 reads 50 |
| RealtimeStress.Smooth | hooks/useRealtimeStress.ts:86 | the new level lies between the previous level and the reading, and each frame closes 15% of the gap to the reading |
| RealtimeStress.SmoothAllInRange | hooks/useRealtimeStress.ts:86 | a displayed level in [0, 100] stays in [0, 100] however many in-range readings are smoothed in |
| RealtimeStress.SumInRange | hooks/useRealtimeStress.ts:98 | the sum of in-range readings lies in [0, 100·n] |
| RealtimeStress.Mean | hooks/useRealtimeStress.ts:96-102 | the final level is 0 without readings, otherwise their sum divided by their number, and in [0, 100] when the readings are |
| RealtimeStress.CleanupReleases | hooks/useRealtimeStress.ts:19-36 | `cleanup` releases exactly the handles held, each once, in the order timer, frame, the stream's tracks, context: as many releases as handles held, none of a handle not held, nothing when none is held |
| RealtimeStress.StressMonitor.constructor | hooks/useRealtimeStress.ts:9-17 | status idle, level 0, no handle held |
| RealtimeStress.StressMonitor.Cleanup | hooks/useRealtimeStress.ts:19-36 | every held handle is released and its ref nulled; status, level and readings are unchanged |
| RealtimeStress.StressMonitor.StartMonitoring | hooks/useRealtimeStress.ts:38-112 | tears down the previous session and zeroes the level first; a refused microphone or a later failure ends in `permission_denied` with every handle released; a success holds exactly the new stream, context, frame and timer, with status `analyzing` and no readings |
| RealtimeStress.StressMonitor.OnFrame | hooks/useRealtimeStress.ts:62-88 | with a frame scheduled, the frame's reading is appended, smoothed into the level, and the next frame is scheduled; a cancelled frame changes nothing |
| RealtimeStress.StressMonitor.OnTimeout | hooks/useRealtimeStress.ts:93-105 | everything is released, the level becomes the mean of the window's readings and the status `complete` |
| RealtimeStress.StressMonitor.StopMonitoring | hooks/useRealtimeStress.ts:114-118 | everything is released, status idle, level 0 |
| RealtimeStress.StressMonitor.Dispose | hooks/useRealtimeStress.ts:120-122 | the unmount teardown releases every held handle |
| RealtimeStress.CleanupTwice | hooks/useRealtimeStress.ts:19-36 | a second `cleanup` right after a first releases nothing more |
| RealtimeStress.RunSession | hooks/useRealtimeStress.ts:38-105 | start, any number of frames, then the timeout: status `complete`, level the mean of the frames' readings, exactly four releases, none lost: the timer, the last frame requested, the stream's tracks and the context, in that order |
| RealtimeStress.Readings | hooks/useRealtimeStress.ts:72-83 | one reading per frame, each in [0, 100] |
| RealtimeStress.ReadingsAppend | hooks/useRealtimeStress.ts:83 | a new frame appends its own reading to those before it |
| ChatHistory.DigitChar | hooks/useChatHistory.ts:9 | a digit below ten renders as a decimal digit character |
| ChatHistory.Decimal | hooks/useChatHistory.ts:9 | the numeral of a number is non-empty and all digits |
| ChatHistory.DecimalInjective | hooks/useChatHistory.ts:9 | different instants have different numerals |
| ChatHistory.InitialMessages | hooks/useChatHistory.ts:5-21 | two messages, both from the model, stamped now and now+1000, with different ids |
| ChatHistory.InitialIdsFresh | hooks/useChatHistory.ts:9-15 | greetings generated at different instants share no id |
| ChatHistory.AddMessage | hooks/useChatHistory.ts:28-30 | the message is appended at the end and every earlier message stays where it was |
| ChatHistory.AddMessagesAppendOnly | hooks/useChatHistory.ts:28-30 | any run of appends keeps the old history as a prefix, followed by the new messages in order |
| ChatHistory.ClearHistory | hooks/useChatHistory.ts:32-35 | the history, whatever it held, is replaced by exactly two messages from the model, the two greetings, stamped now and one second later, with different ids |
| ChatHistory.ClearedIdsFresh | hooks/useChatHistory.ts:32-35 | clearing a history seeded at another instant gives messages none of whose ids the old history held |
| ChatInterface.ChooseDispatch | components/ChatInterface.tsx:111-120 | each mutator is chosen exactly when its command comes with a truthy field (0, "" and a missing field are falsy); a place search exactly for FIND_PLACES with a truthy query; at most one is chosen |
| ChatInterface.AppendedMessagesConcat | components/ChatInterface.tsx:95-165 | the messages appended by two runs of effects are those of the first, then those of the second |
| ChatInterface.SearchMessages | components/ChatInterface.tsx:120-145 | a place search appends exactly one message (the search's text and grounding, or the error reply when it throws) and mutates nothing |
| ChatInterface.TurnOrder | components/ChatInterface.tsx:88-101 | the user's message is appended and the input cleared before the assistant is called, and the turn ends with loading off |
| ChatInterface.AppendedMessagesNone | components/ChatInterface.tsx:95-165 | effects that append nothing add no message |
| ChatInterface.TurnMessages | components/ChatInterface.tsx:85-169 | a turn appends the user's message, then the messages of the reply |
| ChatInterface.TurnRepliesOnce | components/ChatInterface.tsx:111-165 | exactly one reply per turn unless the assistant resolves to null; the one mutation chosen precedes it |
| ChatInterface.CommentaryReplyText | components/ChatInterface.tsx:148-155 | outside a place search the reply is the commentary, or the fixed fallback when the commentary is empty; it is flagged as an analysis iff the command is ANALYZE_BURNOUT |
| ChatInterface.PlacesReplyOnSearch | components/ChatInterface.tsx:120-145 | FIND_PLACES sends the query verbatim, with the position when one was obtained, and replies with the search's text and grounding; no commentary reply follows |
| ChatInterface.ErrorReplyOnFailure | components/ChatInterface.tsx:157-165 | a thrown assistant call, or a thrown place search, appends exactly the generic error reply |
| ChatInterface.Chat.constructor | components/ChatInterface.tsx:27-37 | empty input, not loading, not recording, the given history, no recorder, no chunks, no effects |
| ChatInterface.Chat.Emit | components/ChatInterface.tsx:85-169 | one observable step: the effect is logged and the message, input or loading flag it sets is updated |
| ChatInterface.Chat.Begin | components/ChatInterface.tsx:88-101 | the user message is appended, the input cleared and loading set, then the assistant is called with the history |
| ChatInterface.Chat.SearchNearby | components/ChatInterface.tsx:120-145 | the effects and messages are exactly those of the place-search specification |
| ChatInterface.Chat.Respond | components/ChatInterface.tsx:111-165 | the effects and messages are exactly those of the reply specification |
| ChatInterface.Chat.HandleSend | components/ChatInterface.tsx:85-169 | a blank input or a turn in progress changes nothing; otherwise one full turn, ending with the input cleared and loading off |
| ChatInterface.Chat.Turn | components/ChatInterface.tsx:88-168 | a turn that passed the guard: its effects and messages are those of the turn specification, and loading is off on every exit |
| ChatInterface.Chat.StartRecording | components/ChatInterface.tsx:205-238 | a refused microphone, or a recorder that cannot be built, only raises an alert; a recorder that cannot be started is still held with the chunks emptied, but only an alert follows and recording stays off; a granted one holds a new recorder, empties the chunks and starts recording |
| ChatInterface.FailedStartLeavesStreamOpen | components/ChatInterface.tsx:205-238 | after a recorder fails to start, stopping does nothing: the only effect is the alert, and the stream's tracks are never stopped |
| ChatInterface.Chat.OnDataAvailable | components/ChatInterface.tsx:212-216 | only non-empty chunks are kept |
| ChatInterface.Chat.StopRecording | components/ChatInterface.tsx:240-245 | with a recorder and a recording in progress the recorder is stopped; otherwise no effect; either way recording is off afterwards |
| ChatInterface.Chat.OnStop | components/ChatInterface.tsx:218-230 | the stream's tracks are stopped straight away, without waiting for the transcription, and the chunks are handed on |
| ChatInterface.Chat.OnAudioRead | components/ChatInterface.tsx:222-228 | the transcription becomes the input and loading ends; a failing transcription leaves loading on; no message is appended |
| ChatInterface.SpeechPlayer.constructor | components/ChatInterface.tsx:32-35 | nothing playing, no context |
| ChatInterface.SpeechPlayer.ToggleAsWritten | components/ChatInterface.tsx:171-203 | as written: toggling the playing message stops it and empties the slot; toggling another awaits `close()` on the slot's context (rejected when that context is already closed), then marks the message and plays it when audio comes back, or clears the mark without emptying the slot; the event log records each close, the speech request and the playback in that order |
| ChatInterface.SpeechPlayer.Toggle | components/ChatInterface.tsx:171-203 | corrected: the slot is emptied after closing, so no toggle is rejected and another message plays exactly when audio comes back; the event log records each close, the speech request and the playback in that order |
| ChatInterface.SpeechPlayer.OnEnded | components/ChatInterface.tsx:194-198 | natural end clears the mark, closes the context and empties the slot |
| ChatInterface.StaleSlotAsWritten | components/ChatInterface.tsx:180-202 | play, a toggle without audio, then a third toggle: the third is rejected |
| ChatInterface.StaleSlotCorrected | components/ChatInterface.tsx:180-202 | the same three toggles with the corrected player: the third plays |
| TaskList.ToggleComplete | components/dashboard/TaskList.tsx:132-134 | same length; exactly those tasks with the id have `completed` flipped; every other task and field is unchanged |
| TaskList.ToggleTwice | components/dashboard/TaskList.tsx:132-134 | toggling twice restores the list |
| TaskList.ToggleChangesOneTask | components/dashboard/TaskList.tsx:132-134 | with unique ids, as the board keeps them, a toggle changes at most one task |
| TaskList.ChangePriority | components/dashboard/TaskList.tsx:136-138 | only the priority of the matching tasks changes |
| TaskList.EditText | components/dashboard/TaskList.tsx:140-142 | only the text of the matching tasks changes, to exactly the text given |
| TaskList.UpdatesLastWins | components/dashboard/TaskList.tsx:136-142 | a second priority or text change overrides the first; an unknown id changes nothing |
| TaskList.Filter | components/dashboard/TaskList.tsx:148-149 | the filter keeps only tasks of the requested completion |
| TaskList.FilterAppend | components/dashboard/TaskList.tsx:148-149 | filtering distributes over concatenation |
| TaskList.FilterUniform | components/dashboard/TaskList.tsx:148-150 | a list of one completion filters to itself and to nothing |
| TaskList.FilterPartition | components/dashboard/TaskList.tsx:148-150 | the two filters together hold every task exactly as often as the list does |
| TaskList.CompareAgreesWithKey | components/dashboard/TaskList.tsx:153-164 | the comparator's sign is the sign of a key difference (completion first, then priority rank, reversed for lowToHigh), so sorting by that key is sorting by the comparator |
| TaskList.DefaultOrdering | components/dashboard/TaskList.tsx:147-151 | a permutation with every incomplete task before every completed one, each group in its original order |
| TaskList.SortedByOrderKey | components/dashboard/TaskList.tsx:153-162 | sorted by a priority ordering's key means incomplete first, then High ≤ Medium ≤ Low (or the reverse) |
| TaskList.PriorityOrdering | components/dashboard/TaskList.tsx:153-164 | highToLow and lowToHigh are permutations, incomplete first, ordered by priority within equal completion, and tasks comparing equal keep their order |
| TaskList.OrderingsArePermutations | components/dashboard/TaskList.tsx:144-165 | every ordering shows each task exactly as often as the list holds it |
| TaskList.Board.constructor | components/dashboard/TaskList.tsx:129-130 | the initial tasks and the default ordering |
| TaskList.Board.HandleToggleComplete | components/dashboard/TaskList.tsx:132-134 | the board's tasks become the toggled list; the ordering choice is unchanged |
| TaskList.Board.HandlePriorityChange | components/dashboard/TaskList.tsx:136-138 | the board's tasks take the new priority; the ordering choice is unchanged |
| TaskList.Board.HandleTaskEdit | components/dashboard/TaskList.tsx:140-142 | the board's tasks take the new text; the ordering choice is unchanged |
| TaskList.Board.SetSortBy | components/dashboard/TaskList.tsx:177 | only the ordering choice changes |
| TaskList.Item.constructor | components/dashboard/TaskList.tsx:27-28 | not editing, edit text is this task's text |
| TaskList.Item.BeginEdit | components/dashboard/TaskList.tsx:101-104 | edit mode with this task's current text |
| TaskList.Item.TypeText | components/dashboard/TaskList.tsx:68 | the edit text becomes what was typed |
| TaskList.Item.Save | components/dashboard/TaskList.tsx:30-35 | a blank edit text sends nothing and stays in edit mode; otherwise exactly one edit with the untrimmed text is sent and edit mode ends |
| TaskList.Item.Cancel | components/dashboard/TaskList.tsx:37-40 | the edit text goes back to this task's text and edit mode ends |
| StressLevelsChart.Fold | components/dashboard/StressLevelsChart.tsx:33-37 | one step of the `reduce` adds the log's day to the keys and no other day |
| StressLevelsChart.FoldOrder | components/dashboard/StressLevelsChart.tsx:33-35 | the days in the accumulator stay in first-seen order |
| StressLevelsChart.FoldGroup | components/dashboard/StressLevelsChart.tsx:33-37 | after a step each day holds the sum, count and first timestamp of its logs so far |
| StressLevelsChart.FoldStep | components/dashboard/StressLevelsChart.tsx:29-39 | one step keeps the accumulator equal to the groups of the logs seen |
| StressLevelsChart.Accumulate | components/dashboard/StressLevelsChart.tsx:29-39 | the loop builds exactly the per-day groups of the logs, days in first-seen order |
| StressLevelsChart.DailyPoints | components/dashboard/StressLevelsChart.tsx:41-46 | one point per day, named by the day, in first-seen order |
| StressLevelsChart.DailyPointAt | components/dashboard/StressLevelsChart.tsx:41-46 | the i-th point is the point of the i-th day over that day's (non-empty) logs |
| StressLevelsChart.ComputeData | components/dashboard/StressLevelsChart.tsx:28-49 | the memo's result is the daily points sorted by time, the last seven kept |
| StressLevelsChart.EveryLogCountedOnce | components/dashboard/StressLevelsChart.tsx:29-39 | every log is in its own day's group, and the groups' sizes add up to the number of logs |
| StressLevelsChart.SumLevelsBounds | components/dashboard/StressLevelsChart.tsx:36 | a day's sum lies between n·min and n·max of its levels |
| StressLevelsChart.AverageWithinRange | components/dashboard/StressLevelsChart.tsx:44 | a day's level lies between the least and the greatest level of its logs |
| StressLevelsChart.PointsAreDailyMeans | components/dashboard/StressLevelsChart.tsx:33-45 | each point is the mean over at least one log of its day, stamped with the first of them |
| StressLevelsChart.DayMembersHaveDay | components/dashboard/StressLevelsChart.tsx:31-33 | the logs grouped under a day all have that day |
| SleepActivityChart.SleepDays | components/dashboard/SleepActivityChart.tsx:36-38 | each sleep log tagged with its day |
| SleepActivityChart.StepDays | components/dashboard/SleepActivityChart.tsx:46-48 | each step log tagged with its day |
| SleepActivityChart.Create | components/dashboard/SleepActivityChart.tsx:39-41 | creating a day's entry adds exactly that day to the dictionary's keys |
| SleepActivityChart.PutSleep | components/dashboard/SleepActivityChart.tsx:42 | storing a sleep log adds its day to the keys and no other day |
| SleepActivityChart.AddSteps | components/dashboard/SleepActivityChart.tsx:52 | adding a step log adds its day to the keys and no other day |
| SleepActivityChart.SleepEntries | components/dashboard/SleepActivityChart.tsx:36-43 | folding one more sleep log keeps the entries equal to those specified by the logs seen |
| SleepActivityChart.StepEntries | components/dashboard/SleepActivityChart.tsx:46-53 | folding one more step log keeps the entries equal to those specified by the logs seen |
| SleepActivityChart.SleepStep | components/dashboard/SleepActivityChart.tsx:36-43 | one sleep iteration preserves the loop invariant, days in creation order |
| SleepActivityChart.StepStep | components/dashboard/SleepActivityChart.tsx:46-53 | one step iteration preserves the loop invariant, days in creation order |
| SleepActivityChart.BuildDays | components/dashboard/SleepActivityChart.tsx:33-53 | the two loops build exactly the merged per-day entries, sleep logs first |
| SleepActivityChart.DayHasLogs | components/dashboard/SleepActivityChart.tsx:39-41 | an entry exists only for a day with a log |
| SleepActivityChart.DailyEntries | components/dashboard/SleepActivityChart.tsx:55 | one entry per day, in creation order |
| SleepActivityChart.ComputeData | components/dashboard/SleepActivityChart.tsx:32-58 | the memo's result is the daily entries sorted by time, the last seven kept |
| SleepActivityChart.EntryValues | components/dashboard/SleepActivityChart.tsx:36-53 | a day's sleep is its last sleep log's hours (0 without one); its steps are the sum of its step logs (0 without one); its timestamp is its first sleep log's, or its first step log's when it has no sleep log |
| SleepActivityChart.LaterSleepOverwrites | components/dashboard/SleepActivityChart.tsx:42 | a later sleep log of a day decides that day's sleep |
| SleepActivityChart.StepsAccumulate | components/dashboard/SleepActivityChart.tsx:52 | a step log adds to its own day and leaves every other day as it was |
| SleepActivityChart.OneEntryPerDay | components/dashboard/SleepActivityChart.tsx:33-55 | no two entries are the same day |
| SleepActivityChart.EveryDayHasEntry | components/dashboard/SleepActivityChart.tsx:36-53 | every day with a sleep or step log has an entry |
| Sorting.WithKeyAppend | components/dashboard/TaskList.tsx:153 | the elements of one key in a concatenation are those of the first part, then those of the second |
| Sorting.SortBy | components/dashboard/TaskList.tsx:153 | the sort is a permutation and is ordered by the key |
| Sorting.SortByStable | components/dashboard/StressLevelsChart.tsx:47 | the sort is stable: the elements of each key keep their relative order |
| Sorting.TakeLast | components/dashboard/StressLevelsChart.tsx:48 | `slice(-n)`: the whole list when it is no longer than n, otherwise its last n elements |
| Sorting.TakeLastSorted | components/dashboard/SleepActivityChart.tsx:56-57 | keeping the tail of a sorted list keeps it sorted |
| Sorting.LatestSorted | components/dashboard/StressLevelsChart.tsx:47-48 | sort then `slice(-7)` gives at most seven elements, sorted, and they are the latest ones |
| Grouping.FirstAppearance | components/dashboard/StressLevelsChart.tsx:41 | the keys of an object in insertion order have no repeats |
| Grouping.FirstAppearanceSame | components/dashboard/StressLevelsChart.tsx:41 | a key is listed exactly when it was ever inserted |
| Grouping.GroupsPartition | components/dashboard/StressLevelsChart.tsx:29-39 | the groups' sizes add up to the number of items |
| Text.Trim | components/tools/FindNearby.tsx:20 | `trim`: a contiguous piece of the text with only white space before and after it, and none at either of its ends |
| Text.TrimStartBlankPrefix | components/tools/FindNearby.tsx:23 | white space in front of text that does not start with white space is exactly what the start trim drops |
| Text.TrimEmptyIffBlank | components/tools/FindNearby.tsx:83 | the trimmed text is empty exactly when the text is blank |
| Text.Split | components/tools/FindNearby.tsx:18 | `split('\n')`: one piece more than there are separators, none holding one |
| Text.JoinSplit | components/tools/FindNearby.tsx:18 | joining the pieces of a split with the separator gives back the text |
| Text.RemoveChars | components/Interventions.tsx:18 | `replace(/[*#]/g, '')`: no removed character remains and every other character is kept |
| Dashboard.Increment | components/Dashboard.tsx:163 | counting one entry of an emotion adds that emotion to the keys and no other |
| Dashboard.CountStep | components/Dashboard.tsx:162-165 | one step of the `reduce` keeps each count equal to the number of entries of its emotion |
| Dashboard.EmotionFrequency | components/Dashboard.tsx:162-165 | the loop counts the entries of each emotion, emotions in insertion order |
| Dashboard.EmotionChartData | components/Dashboard.tsx:167-170 | one slice per emotion, in insertion order, valued by its number of entries |
| Dashboard.ComputeEmotionChart | components/Dashboard.tsx:162-170 | the slices built from the counted dictionary are the slices specified |
| Dashboard.TotalIsTotalSize | components/Dashboard.tsx:167-170 | the slices' values add up to the sizes of their groups |
| Dashboard.SlicesSumToJournal | components/Dashboard.tsx:162-170 | every entry is counted exactly once: the values add up to the number of entries |
| Dashboard.OneSlicePerEmotion | components/Dashboard.tsx:167-170 | every emotion of the journal has a slice, no emotion has two, each value is at least 1 |
| Dashboard.PieShownIffEntries | components/Dashboard.tsx:207 | the pie is drawn exactly when the journal has an entry |
| Dashboard.SliceColorAsWritten | components/Dashboard.tsx:172-179 | as written: a name in the colour table gets its colour, any other the fallback '#8884d8' |
| Dashboard.WheelKeysMissTheTable | components/Dashboard.tsx:227 | as written, every emotion stored by the wheel is drawn in the fallback colour |
| Dashboard.SliceColor | components/Dashboard.tsx:227 | corrected: looked up by stored key; an unknown name gets the fallback |
| Dashboard.WheelKeysGetTheirColors | components/Dashboard.tsx:172-179 | corrected: each of the six stored keys gets its own colour from the table, never the fallback, and no two share one |
| Dashboard.SliceColorsAsWritten | components/Dashboard.tsx:226-228 | as written: one fill per slice; a slice of an emotion stored by the wheel gets the fallback, a name in the table its colour |
| Dashboard.SliceColors | components/Dashboard.tsx:227 | corrected: one fill per slice, looked up by stored key; a wheel emotion never gets the fallback, two different wheel emotions never share a fill, an unknown name gets the fallback |
| Dashboard.DistinctWheelKeysDistinctColors | components/Dashboard.tsx:172-179 | corrected: two different stored keys get two different colours |
| Dashboard.LegendColorsAsWritten | components/Dashboard.tsx:234-239 | as written: a legend swatch has a colour exactly when the name is in the table, so a wheel emotion's swatch has none |
| Dashboard.StatusOf | components/Dashboard.tsx:20 | High iff above 70, Moderate iff in (40, 70], Low iff at most 40 |
| Dashboard.StatusColor | components/Dashboard.tsx:21 | red, amber and emerald exactly for High, Moderate and Low |
| Dashboard.ForecastTooltip | components/Dashboard.tsx:17-31 | a tooltip exactly when active with a non-empty payload, showing the first value, its status and colour |
| FindNearby.LeadingDigits | components/tools/FindNearby.tsx:23 | the length of the run of digits at the start |
| FindNearby.RemoveBold | components/tools/FindNearby.tsx:23 | `replace(/\*\*/g, '')`: no "**" remains, and a first character that does not start one is kept |
| FindNearby.RemoveBoldOfNoBold | components/tools/FindNearby.tsx:23 | text with no "**" is unchanged, so removing twice is removing once |
| FindNearby.RemoveBoldKeepsOthers | components/tools/FindNearby.tsx:23 | every character other than '*' is kept, in order |
| FindNearby.RemoveBoldDropsPairs | components/tools/FindNearby.tsx:23 | the characters removed come in pairs |
| FindNearby.RemoveBoldStarRun | components/tools/FindNearby.tsx:23 | a run of n asterisks leaves n mod 2 of them |
| FindNearby.RemoveBoldSplit | components/tools/FindNearby.tsx:23 | the removal works piece by piece across a cut not preceded by '*', so pairs are matched left to right within runs |
| FindNearby.StripBullet | components/tools/FindNearby.tsx:23 | text without a leading bullet is unchanged; otherwise exactly the bullet and the white space after it are removed |
| FindNearby.StripNumber | components/tools/FindNearby.tsx:23 | text without a leading number is unchanged; otherwise exactly the digits, their dot and the white space after it are removed |
| FindNearby.NoBoldSlice | components/tools/FindNearby.tsx:23 | a slice of text without "**" has none |
| FindNearby.NoBoldTrim | components/tools/FindNearby.tsx:23 | trimming text without "**" leaves it tidy |
| FindNearby.Clean | components/tools/FindNearby.tsx:23 | the cleaned line has no "**" and no white space at either end |
| FindNearby.CleanPlainLine | components/tools/FindNearby.tsx:23 | a trimmed line with no asterisk and no list marker is kept as it is |
| FindNearby.CleanBulletedLine | components/tools/FindNearby.tsx:23 | a line of a bullet, white space and trimmed star-free text not starting with a number cleans to that text |
| FindNearby.CleanNumberedLine | components/tools/FindNearby.tsx:23 | a line of digits, a dot, white space and trimmed star-free text cleans to that text |
| FindNearby.ListItemStartsWithMarker | components/tools/FindNearby.tsx:19-20 | corrected: a list item starts with '*', '-' or a digit |
| FindNearby.AnchoredWithinAsWritten | components/tools/FindNearby.tsx:20 | every line the anchored test accepts is also accepted as written |
| FindNearby.RemoveBoldWithoutStars | components/tools/FindNearby.tsx:23 | text without asterisks is unchanged by the bold removal |
| FindNearby.DecimalMakesListItem | components/tools/FindNearby.tsx:20-23 | as written, a plain line with a digit followed by a dot anywhere is a list item, kept whole; the anchored test makes it a paragraph |
| FindNearby.RatedStarsIsListItem | components/tools/FindNearby.tsx:20 | "Rated 4.5 stars" is a list item as written and not anchored |
| FindNearby.FormatLines | components/tools/FindNearby.tsx:18 | one slot per line |
| FindNearby.FormatNearbyResults | components/tools/FindNearby.tsx:16-45 | the slots are those specified for the '\n'-separated lines, one per line: one more than the number of newlines |
| FindNearby.FormatEachLine | components/tools/FindNearby.tsx:17-44 | the loop with its `listCounter` gives exactly the specified slots |
| FindNearby.SlotOfLine | components/tools/FindNearby.tsx:23-43 | a line is skipped iff its cleaned text is empty; otherwise it is a list item numbered after the items above it, or a paragraph, carrying the cleaned text |
| FindNearby.ShownTextsShare | components/tools/FindNearby.tsx:23-43 | any property of a cleaned line holds of the text it shows |
| FindNearby.ShownTextIsClean | components/tools/FindNearby.tsx:23-43 | no shown text is empty, holds "**" or starts or ends with white space |
| FindNearby.OneTo | components/tools/FindNearby.tsx:17-28 | the sequence 1, 2, …, n |
| FindNearby.ItemsNumberedConsecutively | components/tools/FindNearby.tsx:17-32 | list items are numbered 1, 2, 3, … in line order; skipped lines do not advance the counter |
| FindNearby.FinalQuery | components/tools/FindNearby.tsx:89-92 | with a location the query is followed by " within 5km", otherwise it is unchanged; the query text is always kept |
| FindNearby.Search.constructor | components/tools/FindNearby.tsx:49-53 | empty query, not loading, no result, no location, status idle |
| FindNearby.Search.DetectLocation | components/tools/FindNearby.tsx:59-80 | without a geolocation API the status is error and no position is requested; otherwise exactly one request and status locating |
| FindNearby.Search.OnPosition | components/tools/FindNearby.tsx:67-73 | the position is stored and the status is found |
| FindNearby.Search.OnPositionError | components/tools/FindNearby.tsx:74-77 | the status is error and the location unchanged |
| FindNearby.Search.HandleSearch | components/tools/FindNearby.tsx:82-97 | a blank query does nothing; otherwise exactly one search with the final query and location; a result ends loading; a throw leaves the results cleared and loading on |
| FindNearby.Search.SearchCategory | components/tools/FindNearby.tsx:99-103 | a category button sets the query box and searches its fixed query at the current location; the results and the loading flag follow the search outcome; the location, its status and the position requests are unchanged |
| Interventions.CleanLineHasNoMarks | components/Interventions.tsx:18 | a cleaned line holds no '*' or '#' |
| Interventions.CleanLines | components/Interventions.tsx:17-18 | each line is cleaned in place |
| Interventions.Instructions | components/Interventions.tsx:19 | only texts that are non-empty and start with a digit are kept |
| Interventions.InstructionsKept | components/Interventions.tsx:19 | a text is kept iff it is one of the texts and qualifies |
| Interventions.InstructionsAreCleanedLines | components/Interventions.tsx:17-19 | an instruction is exactly a cleaned line starting with a digit, and holds no '*' or '#' |
| Interventions.BreathLabel | components/Interventions.tsx:72 | even steps show breathe-in, odd steps breathe-out |
| Interventions.LabelsAlternate | components/Interventions.tsx:72 | the label alternates from step to step |
| Interventions.ViewOf | components/Interventions.tsx:33-92 | a guided view iff there are instructions; the fallback card shows the cleaned content; the panel shows the current instruction, "Starting..." past the end, or the completion message |
| Interventions.BreathingExercise.constructor | components/Interventions.tsx:11-19 | step 0, not complete, instructions parsed from the content |
| Interventions.BreathingExercise.RunEffect | components/Interventions.tsx:21-31 | no instructions: nothing; before the end a fired tick advances the step by exactly one; at the end the exercise completes; the step never passes the number of instructions |
| Interventions.BreathingExercise.CompleteFallback | components/Interventions.tsx:44 | the fallback card's button completes the exercise |
| Interventions.RunningShowsInstruction | components/Interventions.tsx:85-88 | while running, the panel shows the current instruction, which starts with a digit; "Starting..." appears only at the step past the last |
| Interventions.Paragraphs | components/Interventions.tsx:110-119 | one slot per line, a paragraph exactly when the cleaned line is non-empty |
| Interventions.ParagraphsAreClean | components/Interventions.tsx:112-117 | a paragraph is its line's cleaned text, never blank, with no '*' or '#' |
| Interventions.InstructionsAreDigitParagraphs | components/Interventions.tsx:17-19 | the breathing instructions are exactly the mindfulness paragraphs that start with a digit |
| Interventions.InterventionsPage.constructor | components/Interventions.tsx:97-99 | no session, empty content, not loading |
| Interventions.InterventionsPage.FetchContent | components/Interventions.tsx:102-108 | the session opens and one request is made; an answer replaces the content and ends loading; a failure leaves it loading |
| Interventions.InterventionsPage.Close | components/Interventions.tsx:151 | back to the menu, content kept |
| Interventions.InterventionsPage.Screen | components/Interventions.tsx:145-189 | the menu iff no session; a mindfulness screen shows the formatted paragraphs of the content |
| EmotionWheel.SecondaryNames | components/tools/EmotionWheel.tsx:27-32 | an emotion has exactly as many localised secondary names as its row lists |
| EmotionWheel.Rows | components/tools/EmotionWheel.tsx:26-33 | the six rows of the table in source order, with distinct keys |
| EmotionWheel.Table | components/tools/EmotionWheel.tsx:26-33 | an object literal: every row's name is a property of the table |
| EmotionWheel.TableValue | components/tools/EmotionWheel.tsx:26-33 | each name holds the emotion of a row with that name |
| EmotionWheel.TableKeysDistinct | components/tools/EmotionWheel.tsx:26-33 | rows with distinct keys give a table with distinct keys |
| EmotionWheel.EmotionDataKeysDistinct | components/tools/EmotionWheel.tsx:26-33 | no two names of the emotion table share a key, whatever the translations |
| EmotionWheel.InvertKeys | components/tools/EmotionWheel.tsx:36-42 | the result is the exact inverse of the name-to-key table |
| EmotionWheel.SecondaryOptions | components/tools/EmotionWheel.tsx:93 | the chosen emotion's list, or nothing for an unknown name |
| EmotionWheel.DisplayOfStoredKey | components/tools/EmotionWheel.tsx:173 | an entry logged under a name of the table is shown under that name; a key the table does not know is shown raw |
| EmotionWheel.HistoryNewestFirst | components/tools/EmotionWheel.tsx:157 | the history holds exactly the journal's entries, newest first |
| EmotionWheel.HistoryKeepsTies | components/tools/EmotionWheel.tsx:157 | entries with equal timestamps keep their journal order |
| EmotionWheel.Wheel.constructor | components/tools/EmotionWheel.tsx:16-21 | log view, primary step, nothing chosen, intensity 5, no notes |
| EmotionWheel.Wheel.SelectPrimary | components/tools/EmotionWheel.tsx:44-47 | stores the primary emotion and moves to the secondary step |
| EmotionWheel.Wheel.SelectSecondary | components/tools/EmotionWheel.tsx:49-52 | stores the secondary emotion and moves to the intensity step |
| EmotionWheel.Wheel.SetIntensity | components/tools/EmotionWheel.tsx:113 | only the intensity changes |
| EmotionWheel.Wheel.SetNotes | components/tools/EmotionWheel.tsx:128 | only the notes change |
| EmotionWheel.Wheel.Continue | components/tools/EmotionWheel.tsx:117 | moves to the notes step |
| EmotionWheel.Wheel.LogEmotion | components/tools/EmotionWheel.tsx:54-59 | exactly one entry is logged, under the table key or the name itself, and the step is complete |
| EmotionWheel.Wheel.Reset | components/tools/EmotionWheel.tsx:61-68 | primary step, nothing chosen, intensity 5, no notes, log view; the journal stays |
| EmotionWheel.Wheel.SetViewMode | components/tools/EmotionWheel.tsx:240-246 | only the view mode changes |
| EmotionWheel.Wheel.Back | components/tools/EmotionWheel.tsx:235 | leaves the tool on the primary step, keeping every field, otherwise starts over |
| EmotionWheel.CheckIn | components/tools/EmotionWheel.tsx:44-68 | a full check-in logs exactly one entry under the name's key, ends on the complete step, and starting over returns to the first step |
| SignUp.HandleSubmit | components/auth/SignUp.tsx:19-39 | exactly one outcome per submit: all-fields iff a field is empty; password-match iff all are filled and the passwords differ; password-length iff those pass and the password is shorter than 8; sign-up iff every check passes |
| SignUp.ErrorAfterSubmit | components/auth/SignUp.tsx:21-34 | the error is cleared first and ends as the translated key of the rejection, or empty on success |
| SignUp.ShortPasswordRejected | components/auth/SignUp.tsx:31-34 | matching passwords shorter than 8 are rejected for length |
| SignUp.EmptyFieldReportedFirst | components/auth/SignUp.tsx:23-30 | an empty field is reported even when the passwords also differ |
| Login.HandleSubmit | components/auth/Login.tsx:28-37 | success iff email and password are both non-empty; success clears the error, failure sets the login error |
| Login.HandleGoogleLogin | components/auth/Login.tsx:39-43 | always succeeds and leaves the error as it was |
| AdminLogin.HandleLogin | components/auth/AdminLogin.tsx:15-23 | success iff the email is exactly 'admin@aura.com' and the password exactly 'admin123'; success keeps the previous error; failure sets 'Invalid admin credentials.' |
| AdminLogin.ComparisonIsExact | components/auth/AdminLogin.tsx:18 | a trailing space, a capital letter or an upper-case password fail |
| AdminLogin.StaleErrorAfterSuccess | components/auth/AdminLogin.tsx:18-21 | after a failed attempt, a successful one leaves the old error in place |
| ForgotPassword.ForgotPasswordForm.constructor | components/auth/ForgotPassword.tsx:11-13 | empty email, not submitted, no error |
| ForgotPassword.ForgotPasswordForm.SetEmail | components/auth/ForgotPassword.tsx:11 | only the email changes; once submitted, the confirmation shows the new email |
| ForgotPassword.ForgotPasswordForm.Submit | components/auth/ForgotPassword.tsx:16-25 | a non-empty email is accepted and clears the error; an empty one sets the error and leaves `submitted` as it was; nothing resets `submitted` |
| ForgotPassword.ForgotPasswordForm.View | components/auth/ForgotPassword.tsx:27-45 | the confirmation view exactly when submitted |
| ForgotPassword.AnyTextAccepted | components/auth/ForgotPassword.tsx:18 | there is no format check: any non-empty text is accepted |
| AuthPage.RenderView | components/AuthPage.tsx:19-30 | signup and forgot render their forms; every other view, including an unknown one, renders the login form |
| AuthPage.Target | components/AuthPage.tsx:22-26 | every action names a view to switch to, except login success, which names none |
| AuthPage.FromLogin | components/AuthPage.tsx:22 | from the login form the view stays or becomes signup or forgot; login success keeps it |
| AuthPage.BackToLogin | components/AuthPage.tsx:24-26 | every action of the signup and forgot forms returns to login |
| AuthPage.OnlyKnownViews | components/AuthPage.tsx:16-30 | from a known view, any run of actions stays among login, signup and forgot |
| AuthPage.Page.constructor | components/AuthPage.tsx:16 | the initial view is login |
| AuthPage.Page.Perform | components/AuthPage.tsx:19-30 | an action offered by the current form moves the view as specified; login success is reported once |

## Left out

- The language of the browser and of the service module is not part of this model. That covers
  Web Audio analysis (FFT, `getByteFrequencyData`), `MediaRecorder`, `FileReader`, base64 data URLs,
  geolocation, `setTimeout`/`requestAnimationFrame` and the Gemini service calls. Each is an
  outcome parameter or a numbered handle.
- Asynchrony: every `await` is a sequential step. Interleavings, such as a second `handleSend`
  while a place search awaits the position, are not modelled.
- Floating point: levels, averages and hours are `real`. NaN, rounding and `toFixed` are not
  modelled.
- JavaScript's `Object.keys` lists integer-like keys first, in numeric order. The model lists every
  key in insertion order. That is exact for the localised day names and emotion names used here,
  but not for keys that look like array indices.
- `String.prototype.trim` is modelled with the ASCII white-space characters and the common Unicode
  spaces in `Text.IsSpace`. String lengths count characters, not UTF-16 code units.
- EmotionWheel.InvertKeys visits the names in an arbitrary order. The source visits them in the
  table's insertion order; because the keys are distinct the result is the same.
- Emojis, colours and class names of the emotion cards, and every other piece of styling and JSX,
  are not modelled. `CustomTooltip` in the chart files only formats, so it is not modelled either.
- ChatInterface.ErrorReply: the error reply's text is the key `chat_error_generic` itself; its translation by
  `t` (components/ChatInterface.tsx:162) is not modelled, so ChatInterface.ErrorReplyOnFailure states the key
  and not the translated text.
- Dashboard: the legend (components/Dashboard.tsx:236) indexes the colour table with no fallback,
  so a wheel emotion's swatch gets no colour. It is modelled as written only; no corrected legend
  is given, the corrected lookup being shown for the slice fills.
- Dashboard's `CognitiveTwin` fetch and rendering, the chat's summarise, refresh (behind
  `window.confirm`) and settings controls, and the emotion wheel's delete (behind
  `window.confirm`) are not modelled. Each only forwards to a service or a store outside this model.
- The stores behind `addStressLog`, `addEmotionJournalEntry` and the other mutators (local storage)
  are not modelled. The model records the calls made to them.
- `console.log`, `console.error` and `alert` are not modelled, except that the chat's refused
  microphone is recorded as an alert effect.
- FindNearby: the Enter key calls `handleSearch` without the button's `isLoading` check
  (components/tools/FindNearby.tsx:133). The model's `HandleSearch` is that unguarded handler. The
  button's enabling rule is `Search.CanSearch`.
- FindNearby.FormatNearbyResults takes the list-item test as a parameter, so one definition serves
  both the test as written and the anchored one (see Findings).
- Interventions: React remounting `BreathingExercise` with new content (which restarts it at step
  0) is modelled only through its constructor.
- The chart files' "latest seven" property is stated once, generically, as `Sorting.LatestSorted`,
  and it applies to both `ChartData` functions.
- ChatInterface.Chat.OnAudioRead: the transcription request's arguments (the base64 audio and its
  MIME type) are not modelled. Only its outcome is a parameter.

## Findings

| source | as written | input that shows it | evidently intended | confidence | as-written member | corrected member |
|---|---|---|---|---|---|---|
| components/ChatInterface.tsx:180-202 | Switching to another message closes the open audio context but leaves it in `audioContextRef`. When synthesis then returns no audio, the ref still holds that closed context. | Play message 1, toggle message 2 (no audio returned), toggle message 3: the handler awaits `close()` on the already-closed context, which rejects, so message 3 (and every later one) never plays | Null the ref after closing, so the next toggle finds an empty slot | medium, not executed | ChatInterface.SpeechPlayer.ToggleAsWritten, ChatInterface.StaleSlotAsWritten | ChatInterface.SpeechPlayer.Toggle, ChatInterface.StaleSlotCorrected |
| components/Dashboard.tsx:172-179,227 | The colour table is keyed 'Joy', 'Sadness', …, but the emotion wheel stores the lower-case keys 'joy', 'sadness', … | Any journal entry logged through the wheel, e.g. primary emotion 'joy': its slice gets the fallback '#8884d8' | Look the colour up by the stored key, so each emotion gets its own colour | high, not executed | Dashboard.SliceColorAsWritten, Dashboard.WheelKeysMissTheTable, Dashboard.SliceColorsAsWritten | Dashboard.SliceColor, Dashboard.WheelKeysGetTheirColors, Dashboard.SliceColors |
| components/tools/FindNearby.tsx:19-20 | The regular expression `^[\*-]\|\d+\.` anchors only its first branch, so "digits then a dot" matches anywhere in the line | "Rated 4.5 stars": numbered as a list item and shown with a counter badge | A list item is a line that starts with '*', '-' or "N." (as the comment above the test says) | medium, not executed | FindNearby.IsListItemAsWritten, FindNearby.DecimalMakesListItem, FindNearby.RatedStarsIsListItem | FindNearby.IsListItem, FindNearby.ListItemStartsWithMarker, FindNearby.AnchoredWithinAsWritten |
