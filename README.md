# Digital-Mind in Dafny

Digital-Mind is a React web app about digital well-being: breathing and
relaxation exercises, a focus-mode app and website blocker, a memory card
game, a gamified "SuperBetter" quest ledger, a conversation-practice game,
a rule-based support chat, colour therapy, a resource library, daily
screen-time statistics and a time-of-day greeting. Under the JSX, each of
these components holds a small state machine or a pure decision function.
This project models those pieces and proves what the components promise
about them.

Conventions used throughout:

- **One module per source file.** Shared helpers live in `Strings` (the
  JavaScript `trim`, `includes`, `toString` and `padStart` on decimal
  numerals), `Seqs` (`filter(x => x !== v)` and the absence of repeats) and
  `Wrappers` (`Option`).
- **Stateful components.** A component whose `useState` fields change is a
  `class` holding those fields. Each handler is a `method` whose `ensures`
  ties the new state to a pure step function on a `State` datatype
  (`Model() == TickState(old(Model()))`). The lemmas are proved about
  those step functions: invariants, countdowns, completion, idempotence
  and "nothing else changes".
- **Timers are steps.** One run of an interval or timeout callback is one
  explicit step (`Tick`, `ResolvePair`, `DeliverReply`).
- **Toasts are counters.** A completion toast is recorded as a
  `completions` counter.
- **Randomness is a parameter.**
  - The Fisher–Yates choices are a sequence `choices` with
    `0 <= choices[i] <= i`.
  - The scenario pick takes `random` in `[0, 1)`.
  - The random palette takes an arbitrary ordering of the eight colours.
- **The clock is a parameter.** The greeting takes the hour as input.
- **Round-trip partners.** Each text formatter has a parser written as its
  partner, and a round-trip lemma proves that the parser reads the text
  back as the number it shows.

## Model

| member | source | states |
|---|---|---|
| Breathing.PhaseTable | src/components/games/BreathingGame.tsx:13-18 | the phases form the cycle inhale(4) → hold(7) → exhale(8) → pause(2) → inhale; every duration is positive, one lap is 21 s, four steps return to the start |
| Breathing.TickState | src/components/games/BreathingGame.tsx:20-40 | while active with time left, time goes down by exactly one and phase and cycles stay; at zero, moves to the next phase at its full duration; cycles rise by one only when leaving pause; inactive, nothing changes |
| Breathing.ToggleState | src/components/games/BreathingGame.tsx:42-48 | flips `isActive`; switching on restarts at inhale with 4 s and keeps cycles; switching off only clears `isActive` |
| Breathing.ResetState | src/components/games/BreathingGame.tsx:50-55 | reset yields inactive, inhale, 4 s, zero cycles |
| Breathing.InitialInv | src/components/games/BreathingGame.tsx:8-11 | the initial state satisfies `0 <= timeLeft <= duration(phase)` |
| Breathing.InvPreserved | src/components/games/BreathingGame.tsx:23-55 | tick, transition, toggle and reset keep `0 <= timeLeft <= duration(phase)` |
| Breathing.RunInv | src/components/games/BreathingGame.tsx:20-40 | any number of interval steps keeps the invariant |
| Breathing.RunInactive | src/components/games/BreathingGame.tsx:23-27 | while inactive, any number of ticks changes nothing |
| Breathing.RunCyclesMonotone | src/components/games/BreathingGame.tsx:31-33 | the cycle count never decreases and the steps never change `isActive` |
| Breathing.CountDown | src/components/games/BreathingGame.tsx:23-26 | from `timeLeft = t`, t ticks reach zero in the same phase with the same cycles |
| Breathing.PhaseLap | src/components/games/BreathingGame.tsx:27-37 | a full phase takes its duration in ticks plus one transition step, which lands in the next phase at full time |
| Breathing.FirstCycle | src/components/games/BreathingGame.tsx:31-33 | from a fresh start, 24 steps complete no cycle; 21 ticks plus 4 transitions give `cycles == 1` at inhale with 4 s |
| Breathing.CircleScaleBounds | src/components/games/BreathingGame.tsx:57-73 | the circle scale stays in [0.5, 1]; inhale goes from 0.5 to 1, a tick never shrinks it while inhaling nor grows it while exhaling |
| Breathing.BreathingGame.constructor | src/components/games/BreathingGame.tsx:8-11 | the fields start inactive, inhale, 4, 0 |
| Breathing.BreathingGame.Tick | src/components/games/BreathingGame.tsx:20-40 | the fields become `TickState` of the old fields, invariant kept |
| Breathing.BreathingGame.Toggle | src/components/games/BreathingGame.tsx:42-48 | the fields become `ToggleState` of the old fields, invariant kept |
| Breathing.BreathingGame.Reset | src/components/games/BreathingGame.tsx:50-55 | the fields become the reset state |
| Relaxation.TickState | src/pages/Relaxation.tsx:24-39 | while playing with time left, the timer drops by exactly one; at zero, playing stops and one completion is counted; paused, nothing changes |
| Relaxation.StartState | src/pages/Relaxation.tsx:41-46 | sets timer and total to the duration, starts playing, records the exercise; the invariant holds iff the duration is not negative |
| Relaxation.ToggleState | src/pages/Relaxation.tsx:48-50 | flips only `isPlaying` |
| Relaxation.ResetState | src/pages/Relaxation.tsx:52-55 | sets the timer back to the total and pauses; nothing else changes |
| Relaxation.InitialInv | src/pages/Relaxation.tsx:17-20 | the initial state satisfies `0 <= timer <= totalTime` |
| Relaxation.InvPreserved | src/pages/Relaxation.tsx:24-55 | tick, toggle and reset keep `0 <= timer <= totalTime` |
| Relaxation.RunPaused | src/pages/Relaxation.tsx:26-30 | while paused, any number of steps changes nothing |
| Relaxation.CountDown | src/pages/Relaxation.tsx:26-29 | while playing, `timer` steps bring the timer to zero and change nothing else |
| Relaxation.SessionCompletesOnce | src/pages/Relaxation.tsx:30-37 | after start with duration d, d steps signal nothing, the next step signals completion once, and later steps signal nothing more |
| Strings.SplitSixty | src/pages/Relaxation.tsx:57-61 | `Math.floor(n / 60)` and `n % 60` of a count that is not negative: `q * 60 + r == n` and `r < 60`; the Blocker clock and the DailyStats hours split the same way |
| Relaxation.FormatTimeRoundTrip | src/pages/Relaxation.tsx:57-61 | the `m:ss` text reads back as the number of seconds; the seconds part is always two digits |
| Relaxation.ExerciseDurations | src/pages/Relaxation.tsx:63-88 | every exercise lasts a positive whole number of minutes: 5, 10 and 15 |
| Relaxation.RelaxationPage.constructor | src/pages/Relaxation.tsx:17-20 | fields start at no exercise, timer 0, total 300, paused |
| Relaxation.RelaxationPage.Tick | src/pages/Relaxation.tsx:24-39 | fields become `TickState` of the old ones; the invariant is kept |
| Relaxation.RelaxationPage.StartExercise | src/pages/Relaxation.tsx:41-46 | fields become `StartState`; valid iff the duration is not negative |
| Relaxation.RelaxationPage.TogglePlayPause | src/pages/Relaxation.tsx:48-50 | fields become `ToggleState`; the invariant is kept |
| Relaxation.RelaxationPage.ResetTimer | src/pages/Relaxation.tsx:52-55 | fields become `ResetState`; the invariant is kept |
| Blocker.TickSession | src/pages/Blocker.tsx:34-53 | while blocking with time left: at most 1 second becomes 0, blocking stops and one completion is signalled; otherwise the time drops by one; if not blocking or no time is left, nothing changes |
| Blocker.StartSession | src/pages/Blocker.tsx:55-63 | blocking starts with `sessionDuration * 60` seconds, whatever the duration |
| Blocker.StopSession | src/pages/Blocker.tsx:65-73 | blocking stops with no time left and no completion signalled |
| Blocker.RunSessionIdle | src/pages/Blocker.tsx:36-51 | a session that is not blocking, or has no time left, never changes |
| Blocker.CountDown | src/pages/Blocker.tsx:36-50 | k ticks after `t` seconds leave `t - k` while k < t, and end the session with one completion at k = t |
| Blocker.SessionCompletesOnce | src/pages/Blocker.tsx:36-50 | a session of d > 0 minutes is still blocking after `d*60 - 1` ticks, and after `d*60` or more ticks has ended with exactly one completion |
| Blocker.StopIsSilent | src/pages/Blocker.tsx:65-73 | after stop, further ticks change nothing and never signal completion |
| Blocker.ZeroMinuteSessionNeverEnds | src/pages/Blocker.tsx:55-57 | as written: starting with a duration of 0 minutes blocks forever, since no tick ever fires |
| Blocker.StartSessionChecked | src/pages/Blocker.tsx:138-146 | corrected start: accepts exactly the durations 5 to 180 minutes that the input advertises |
| Blocker.CheckedSessionCompletes | src/pages/Blocker.tsx:55-63 | every session accepted by the checked start completes exactly once |
| Blocker.ToggleApp | src/pages/Blocker.tsx:75-81 | flips `blocked` only at the given index; length and every other entry are unchanged |
| Blocker.ToggleTwice | src/pages/Blocker.tsx:75-81 | toggling the same index twice is the identity |
| Blocker.BlockedAppsCount | src/pages/Blocker.tsx:105 | the number of blocked apps, never more than the list length |
| Blocker.ReplaceApp | src/pages/Blocker.tsx:105-106 | replacing one app changes the count and the total by that app's contribution only |
| Blocker.ToggleStats | src/pages/Blocker.tsx:105-106 | a toggle changes the blocked count by exactly ±1 and never changes the total time |
| Blocker.InitialStats | src/pages/Blocker.tsx:19-26 | the initial list has 3 blocked apps and 292 minutes in total |
| Blocker.AddWebsite | src/pages/Blocker.tsx:83-93 | appends the trimmed name and clears the input iff it is non-blank and not yet listed, otherwise changes nothing; never introduces a duplicate |
| Blocker.RemoveAfterAdd | src/pages/Blocker.tsx:83-97 | removing a site just added gives the previous list back |
| Strings.IntToString | src/pages/Blocker.tsx:102 | an integer's text starts with a minus sign exactly when it is negative, and is otherwise the plain numeral |
| Blocker.Rem60 | src/pages/Blocker.tsx:101 | JavaScript's truncating `seconds % 60`: strictly between -60 and 60, with the sign of `seconds`, and `seconds` minus it a multiple of 60 |
| Blocker.FormatTimeNatural | src/pages/Blocker.tsx:99-103 | a time that is not negative shows as its whole minutes and remaining seconds, each padded to two characters |
| Blocker.NegativeTimeShown | src/pages/Blocker.tsx:99-103 | a negative time shows with a leading minus sign and does not read back as a clock |
| Blocker.NegativeExamples | src/pages/Blocker.tsx:99-103 | -60 seconds show as "-1:00" and -61 seconds as "-2:-1" |
| Blocker.FormatTimeRoundTrip | src/pages/Blocker.tsx:99-103 | a time that is not negative shows as `mm:ss` text that reads back as the number of seconds and is at least five characters |
| Blocker.SplitClockRoundTrip | src/pages/Blocker.tsx:99-103 | the minutes and seconds split of a count, shown padded, reads back as that count |
| Blocker.ClockTextRoundTrip | src/pages/Blocker.tsx:99-103 | minutes and seconds below 60, each padded to two digits, read back as `mins * 60 + secs` |
| Blocker.BlockerPage.constructor | src/pages/Blocker.tsx:16-32 | fields start at not blocking, 25 minutes, the six apps, the three sites and an empty input |
| Blocker.BlockerPage.Tick | src/pages/Blocker.tsx:34-53 | the session becomes `TickSession` of the old one; the rest is unchanged |
| Blocker.BlockerPage.SetSessionDuration | src/pages/Blocker.tsx:142 | stores the whole number typed in, unvalidated (fractions are left out, see below) |
| Blocker.BlockerPage.StartBlockingSession | src/pages/Blocker.tsx:55-63 | the session becomes `StartSession` with the stored duration |
| Blocker.BlockerPage.StopBlockingSession | src/pages/Blocker.tsx:65-73 | the session becomes `StopSession` of the old one |
| Blocker.BlockerPage.ToggleAppBlock | src/pages/Blocker.tsx:75-81 | the app list becomes `ToggleApp` of the old one |
| Blocker.BlockerPage.SetNewWebsite | src/pages/Blocker.tsx:227 | stores the typed text |
| Blocker.BlockerPage.AddCustomWebsite | src/pages/Blocker.tsx:83-93 | list and input become the result of `AddWebsite`; the list keeps no duplicates |
| Blocker.BlockerPage.RemoveWebsite | src/pages/Blocker.tsx:95-97 | the list becomes the old list without every copy of the site; no duplicates |
| Seqs.Without | src/pages/Blocker.tsx:96 | `filter(x => x !== v)`: no copy of v is left and the result is no longer than the input |
| Seqs.WithoutCount | src/pages/Blocker.tsx:96 | every other element keeps its number of occurrences |
| Seqs.WithoutConcat | src/pages/Blocker.tsx:96 | the filter keeps the order: it distributes over concatenation |
| Seqs.WithoutSingle | src/pages/Blocker.tsx:96 | a single element is kept iff it differs from v |
| Seqs.WithoutDistinct | src/pages/Blocker.tsx:96 | filtering a list without repeats never creates one |
| Seqs.WithoutAbsent | src/components/games/ColorTherapyGame.tsx:31 | filtering out an absent value changes nothing |
| Strings.Trim | src/pages/Blocker.tsx:84 | the result is a contiguous part of the input with no whitespace at either end and only whitespace around it; it is empty iff the input is blank |
| Strings.NatToString | src/pages/Relaxation.tsx:60 | decimal digits with no leading zero whose value is the number |
| Strings.PadStart | src/pages/Blocker.tsx:102 | pads on the left with the fill character to the width, keeping the text as suffix |
| Memory.Deck | src/components/games/MemoryGame.tsx:24-29 | sixteen cards, card k having id k and the k-th emoji of the doubled list, face down and unmatched |
| Memory.DeckShape | src/components/games/MemoryGame.tsx:21-29 | the deck has 16 cards, ids 0 to 15, all face down and unmatched, each of the 8 emojis exactly twice |
| Memory.Swap | src/components/games/MemoryGame.tsx:34 | exchanges positions i and j and leaves every other position unchanged |
| Memory.Shuffle | src/components/games/MemoryGame.tsx:32-35 | the in-place loop over the array leaves exactly `FisherYates` of the old contents |
| Memory.FisherYatesMultiset | src/components/games/MemoryGame.tsx:32-35 | for any choices `0 <= j <= i`, the shuffle is a permutation of its input |
| Memory.FisherYatesDistinctIds | src/components/games/MemoryGame.tsx:32-35 | the shuffle keeps card ids distinct |
| Memory.ValuesFisherYates | src/components/games/MemoryGame.tsx:32-35 | shuffling cards and then reading their faces is shuffling the faces |
| Memory.DealtShape | src/components/games/MemoryGame.tsx:23-41 | a dealt deck is a permutation of the deck: 16 cards, distinct ids 0 to 15, face down, each emoji on exactly two cards |
| Memory.NewGameInv | src/components/games/MemoryGame.tsx:37-41 | a new game satisfies the game invariant, with zero counters, nothing pending, not complete and every card face down |
| Memory.FlipById | src/components/games/MemoryGame.tsx:82-84 | exactly the cards whose id is the clicked one turn face up; ids, faces and matched flags are unchanged |
| Memory.MatchIds | src/components/games/MemoryGame.tsx:54-58 | exactly the cards whose id is one of the pair become matched; ids, faces and face-up flags are unchanged |
| Memory.UnflipIds | src/components/games/MemoryGame.tsx:67-71 | exactly the cards whose id is one of the pair turn face down; ids, faces and matched flags are unchanged |
| Memory.ClickInv | src/components/games/MemoryGame.tsx:78-86 | as written: a click with two pending, or on a position already face up or matched, changes nothing; any other click appends the id to pending and turns face up exactly the cards with that id; it keeps the invariant, faces, matched flags, counters and completion, and pending stays at most 2 |
| Memory.ResolveInv | src/components/games/MemoryGame.tsx:48-76 | as written: two pending ids add one move and clear pending; equal faces at those positions add one match and mark exactly the cards with those ids matched; otherwise no match, and exactly those cards turn face down; fewer than two pending change nothing |
| Memory.CountMatched | src/components/games/MemoryGame.tsx:54-58 | the number of matched cards is at most the deck size |
| Memory.DoubleClickFalseMatch | src/components/games/MemoryGame.tsx:78-86 | as written: two clicks on the same card pend it twice, and the resolution counts a match with an odd number of matched cards |
| Memory.SwappedDeal | src/components/games/MemoryGame.tsx:32-35 | a concrete shuffle puts card 1 at position 0, so position and id differ |
| Memory.PositionOf | src/components/games/MemoryGame.tsx:80 | corrected lookup: finds the position of the card with a given id, or None when no card has it |
| Memory.NewGameByIdInv | src/components/games/MemoryGame.tsx:37-41 | a new game satisfies the by-id invariant |
| Memory.ClickByIdInv | src/components/games/MemoryGame.tsx:78-86 | corrected click keeps twice as many matched cards as matches, and pending distinct, face up and unmatched |
| Memory.ResolveByIdInv | src/components/games/MemoryGame.tsx:48-76 | corrected resolution keeps the by-id invariant |
| Memory.CompleteIffAllMatched | src/components/games/MemoryGame.tsx:62-64 | with the correction, matches never exceed 8, and the game is complete iff every card is matched |
| Memory.MemoryGame.constructor | src/components/games/MemoryGame.tsx:44-46 | the component mounts with `NewGame(choices)` |
| Memory.MemoryGame.InitializeGame | src/components/games/MemoryGame.tsx:23-42 | builds the deck in an array, shuffles it in place, and leaves the fields as `NewGame(choices)` |
| Memory.MemoryGame.HandleCardClick | src/components/games/MemoryGame.tsx:78-86 | fields become `Click` of the old ones, as written |
| Memory.MemoryGame.ResolvePair | src/components/games/MemoryGame.tsx:48-76 | fields become `Resolve` of the old ones, as written |
| SuperBetter.FindQuest | src/components/games/SuperBetterGame.tsx:63 | finds a quest with that id from the list, or None exactly when there is none |
| SuperBetter.MarkQuest | src/components/games/SuperBetterGame.tsx:59-62 | only quests with that id become completed; length, order and all other fields unchanged |
| SuperBetter.QuestReward | src/components/games/SuperBetterGame.tsx:63-66 | the quest's points if it exists and was not completed, otherwise 0 |
| SuperBetter.CompleteQuestState | src/components/games/SuperBetterGame.tsx:59-67 | quests marked, points raised by the reward, bad guys, power-ups, level and allies unchanged |
| SuperBetter.CompleteQuestTwice | src/components/games/SuperBetterGame.tsx:63-66 | a second completion pays nothing and changes nothing |
| SuperBetter.MarkBadGuy | src/components/games/SuperBetterGame.tsx:70-72 | only bad guys with that id become defeated; everything else unchanged |
| SuperBetter.DefeatBadGuyState | src/components/games/SuperBetterGame.tsx:69-74 | marks the bad guy and adds 30 points unconditionally |
| SuperBetter.DefeatTwicePaysTwice | src/components/games/SuperBetterGame.tsx:69-74 | defeating the same bad guy twice pays 60, with the same list as once |
| SuperBetter.FindPowerUp | src/components/games/SuperBetterGame.tsx:80 | finds a power-up with that id, or None exactly when there is none |
| SuperBetter.MarkPowerUp | src/components/games/SuperBetterGame.tsx:77-79 | only power-ups with that id become used |
| SuperBetter.PowerUpReward | src/components/games/SuperBetterGame.tsx:80-83 | the power-up's points on its first use, otherwise 0 |
| SuperBetter.UsePowerUpState | src/components/games/SuperBetterGame.tsx:76-84 | power-ups marked, points raised by the reward, all else unchanged |
| SuperBetter.UsePowerUpTwice | src/components/games/SuperBetterGame.tsx:80-83 | a second use pays nothing and changes nothing |
| SuperBetter.InitialPositive | src/components/games/SuperBetterGame.tsx:35-57 | the initial ledger has 150 points, level 2, 3 allies and only positive point values |
| SuperBetter.ApplyMonotone | src/components/games/SuperBetterGame.tsx:59-84 | one handler never lowers the points and never changes level or allies |
| SuperBetter.PointsNeverDecrease | src/components/games/SuperBetterGame.tsx:59-84 | over any sequence of handlers, points never decrease and level and allies never change |
| SuperBetter.DifficultyColors | src/components/games/SuperBetterGame.tsx:86-93 | each difficulty has its own non-default colour; unknown strings get the grey default |
| SuperBetter.CategoryIcons | src/components/games/SuperBetterGame.tsx:95-103 | each category has its own icon; unknown strings get the target icon |
| SuperBetter.SuperBetterGame.constructor | src/components/games/SuperBetterGame.tsx:35-57 | fields start at the initial ledger |
| SuperBetter.SuperBetterGame.CompleteQuest | src/components/games/SuperBetterGame.tsx:59-67 | fields become `CompleteQuestState`; points do not decrease |
| SuperBetter.SuperBetterGame.DefeatBadGuy | src/components/games/SuperBetterGame.tsx:69-74 | fields become `DefeatBadGuyState` |
| SuperBetter.SuperBetterGame.UsePowerUp | src/components/games/SuperBetterGame.tsx:76-84 | fields become `UsePowerUpState`; points do not decrease |
| Conversation.Available | src/components/games/ConversationCraftGame.tsx:79 | exactly the scenarios of that level |
| Conversation.ScenarioLevels | src/components/games/ConversationCraftGame.tsx:44-75 | Básico and Intermedio have one scenario each; Avanzado and Experto have none |
| Conversation.RandomIndex | src/components/games/ConversationCraftGame.tsx:81 | `Math.floor(random * n)` is a valid index for any random in [0, 1) |
| Conversation.StartScenarioState | src/components/games/ConversationCraftGame.tsx:77-85 | uses the given level or the current one; with scenarios of that level, sets one of them and hides feedback; without, changes nothing |
| Conversation.StartWithoutScenarios | src/components/games/ConversationCraftGame.tsx:80 | for Avanzado and Experto, starting changes nothing |
| Conversation.ScoreTable | src/components/games/ConversationCraftGame.tsx:96-129 | the four scores per response type; totals 65, 63, 29 and 71, evasive lowest and creative highest |
| Conversation.FindResponse | src/components/games/ConversationCraftGame.tsx:90 | the response with that id, or None exactly when there is none |
| Conversation.HandleResponseState | src/components/games/ConversationCraftGame.tsx:87-134 | no scenario or an unknown id changes nothing; otherwise stores that type's feedback, shows it and adds its total to the score |
| Conversation.AnswerAlwaysPays | src/components/games/ConversationCraftGame.tsx:87-134 | an accepted answer adds at least 29 points, and answering again while feedback shows adds at least 29 more |
| Conversation.ScenarioResponses | src/components/games/ConversationCraftGame.tsx:44-75 | in every scenario ids A to D are found and any other id is not |
| Conversation.CloseScenarioState | src/components/games/ConversationCraftGame.tsx:351 | clears the scenario and nothing else |
| Conversation.SetLevelState | src/components/games/ConversationCraftGame.tsx:212 | sets the level and nothing else |
| Conversation.FixedCounters | src/components/games/ConversationCraftGame.tsx:37-39 | over any sequence of handlers, streak and unlocked skills never change and the score never decreases |
| Conversation.Lookups | src/components/games/ConversationCraftGame.tsx:136-154 | every level and type has its own non-default colour and icon; unknown strings get the default |
| Conversation.ConversationCraftGame.constructor | src/components/games/ConversationCraftGame.tsx:36-42 | fields start at Básico, 420, 7, 8, no scenario, no feedback |
| Conversation.ConversationCraftGame.StartScenario | src/components/games/ConversationCraftGame.tsx:77-85 | fields become `StartScenarioState` |
| Conversation.ConversationCraftGame.HandleResponse | src/components/games/ConversationCraftGame.tsx:87-134 | fields become `HandleResponseState` |
| Conversation.ConversationCraftGame.CloseScenario | src/components/games/ConversationCraftGame.tsx:351 | fields become `CloseScenarioState` |
| Conversation.ConversationCraftGame.SetCurrentLevel | src/components/games/ConversationCraftGame.tsx:212 | fields become `SetLevelState` |
| Chat.Lower | src/pages/Chat.tsx:60 | lowercases character by character, keeping the length |
| Chat.LowerIdempotent | src/pages/Chat.tsx:60 | lowercasing twice is lowercasing once |
| Chat.RepliesDistinct | src/pages/Chat.tsx:62-72 | the five replies are pairwise different |
| Chat.RuleChain | src/pages/Chat.tsx:59-73 | the reply is one of five; anxiety wins over stress over sleep over social media; default iff no keyword occurs in the lowercased text |
| Chat.CaseInsensitive | src/pages/Chat.tsx:60 | the reply to a message equals the reply to its lowercased form |
| Chat.AnxietyBeforeSleep | src/pages/Chat.tsx:62-67 | "ANSIEDAD y no puedo dormir" gets the anxiety reply |
| Chat.StressCapitalAccent | src/pages/Chat.tsx:64 | "ESTRÉS" gets the stress reply |
| Chat.InitialInv | src/pages/Chat.tsx:20-27 | the history starts with exactly one bot greeting and satisfies the invariant |
| Chat.SendState | src/pages/Chat.tsx:32-45 | blank input changes nothing; otherwise appends one user message with the untrimmed text, clears the input, sets typing and schedules that text |
| Chat.DeliverState | src/pages/Chat.tsx:47-56 | appends the bot reply computed from the scheduled text and clears typing |
| Chat.SetInputState | src/pages/Chat.tsx:266 | sets the input and nothing else |
| Chat.InvPreserved | src/pages/Chat.tsx:32-57 | every handler keeps the greeting first, user messages non-blank and one pending reply per unanswered user message |
| Chat.SendThenReply | src/pages/Chat.tsx:32-57 | send then deliver appends exactly the user message and its reply to the unchanged earlier history |
| Chat.ChatPage.constructor | src/pages/Chat.tsx:20-29 | fields start at the greeting, empty input, not typing |
| Chat.ChatPage.SetInputMessage | src/pages/Chat.tsx:266 | fields become `SetInputState` |
| Chat.ChatPage.SendMessage | src/pages/Chat.tsx:32-46 | fields become `SendState` |
| Chat.ChatPage.DeliverReply | src/pages/Chat.tsx:47-56 | fields become `DeliverState` |
| ColorTherapy.Palette | src/components/games/ColorTherapyGame.tsx:11-20 | the eight colour codes in palette order |
| ColorTherapy.PaletteShape | src/components/games/ColorTherapyGame.tsx:11-20 | the palette lists eight distinct codes |
| ColorTherapy.ColorClick | src/components/games/ColorTherapyGame.tsx:29-35 | a selected colour is removed with every copy, others keeping their counts; any other colour is appended at the end |
| ColorTherapy.ClickKeepsDistinct | src/components/games/ColorTherapyGame.tsx:29-35 | a click never creates a duplicate |
| ColorTherapy.ClickTwice | src/components/games/ColorTherapyGame.tsx:29-35 | two clicks restore an unselected colour's selection; a selected one keeps the same colours but moves to the end |
| ColorTherapy.Recommendation | src/components/games/ColorTherapyGame.tsx:37-40 | the list of the first mood with that name, or empty when none matches |
| ColorTherapy.Recommendations | src/components/games/ColorTherapyGame.tsx:22-40 | each mood gets its own three colours, all from the palette; the initial empty mood and any other name get none |
| ColorTherapy.RandomPalette | src/components/games/ColorTherapyGame.tsx:42-46 | three distinct palette colours |
| ColorTherapy.ColorTherapyGame.constructor | src/components/games/ColorTherapyGame.tsx:8-9 | nothing selected, no mood |
| ColorTherapy.ColorTherapyGame.HandleColorClick | src/components/games/ColorTherapyGame.tsx:29-35 | the selection becomes `ColorClick`, still without repeats |
| ColorTherapy.ColorTherapyGame.SetCurrentMood | src/components/games/ColorTherapyGame.tsx:65 | sets the mood and nothing else |
| ColorTherapy.ColorTherapyGame.GenerateRandomPalette | src/components/games/ColorTherapyGame.tsx:42-46 | the selection becomes the three-colour random palette |
| Resources.OfCategoryMembers | src/pages/Resources.tsx:114 | the filter keeps exactly the resources of that category |
| Resources.OfCategoryAppend | src/pages/Resources.tsx:114 | the filter keeps the list order |
| Resources.FilteredResources | src/pages/Resources.tsx:112-114 | the full list for `'all'`, the category filter otherwise, never more than 6 |
| Resources.FeaturedMembers | src/pages/Resources.tsx:116 | the featured selection keeps exactly the featured resources |
| Resources.FeaturedIds | src/pages/Resources.tsx:116 | the featured resources are ids 1, 2 and 6 in that order |
| Resources.TabContents | src/pages/Resources.tsx:112-114 | each tab's ids in order: all 1–6, anxiety 1, sleep 2, digital 3 and 6, social 4, time 5; an unknown id gives nothing |
| Resources.CategoriesKnown | src/pages/Resources.tsx:13-20 | every resource belongs to one of the five tabs other than `'all'` |
| DailyStats.FormatTimeRoundTrip | src/components/DailyStats.tsx:12-16 | the `Xh Ym` text reads back as the number of minutes |
| DailyStats.GoalText | src/components/DailyStats.tsx:40 | the goal of 480 minutes displays as "8h 0m" |
| DailyStats.UsageText | src/components/DailyStats.tsx:19 | the usage line displays a text that reads back as 180 minutes plus the session time, with at least 3 hours |
| DailyStats.ProgressBounds | src/components/DailyStats.tsx:18-20 | the bar is between 37.5 and 100, full iff usage reaches 480, and never shrinks as time passes |
| Welcome.GreetingBands | src/components/WelcomeHero.tsx:19-29 | 5–11 morning with the sun, 12–17 afternoon with the cloud, every other hour night with the moon; each hour gets exactly one |
| Welcome.Boundaries | src/components/WelcomeHero.tsx:19-29 | hours 5, 12 and 18 open the later band |

## Left out

- Rendering, styling, icons as components, and the Progress and SVG bars:
  - the SVG stroke offset in the relaxation page was left out;
  - the SuperBetter `totalPoints / 300` bar was left out;
  - the conversation feedback bars were left out.
  These are presentational floating point. `getCircleScale` and the
  DailyStats percentage are kept, over reals.
- Timers and effect scheduling. `setInterval`, `setTimeout` and React's
  batching are replaced by explicit steps. Three consequences follow:
  - The memory game's resolution effect can re-run while its 1000 ms
    timeout is pending, raising `moves` again. This is scheduling, not
    logic, and is not modelled.
  - Chat ids and timestamps (`Date.now()`, `new Date()`) are left out.
  - In the chat, several replies may be pending at once; they are
    delivered in order.
- Toasts are recorded only as completion counters, or not at all:
  - the add-website toast is not modelled;
  - the start and stop toasts are not modelled;
  - the appointment toast in the chat is not modelled;
  - the other chat toasts are not modelled.
- Chat.Lower: `toLowerCase` is modelled for ASCII letters and the Spanish
  capitals Á É Í Ó Ú Ñ Ü only. Full Unicode case mapping is not modelled.
- Relaxation volume slider: this is audio UI with no logic.
- ColorTherapy.RandomPalette: `sort(() => 0.5 - Math.random())` is
  modelled as an arbitrary ordering of the eight colours. The non-uniform
  distribution of that comparator is not modelled.
- Conversation.RandomIndex: `Math.random()` is abstracted to any real in
  [0, 1).
- Descriptive texts are kept verbatim only where a rule reads them.
  - Scenario dialogue, bad-guy and power-up descriptions are kept.
  - Resource texts are kept in full.
  - Testimonials, topic-button labels and other page copy are left out.
- Relaxation.RelaxationPage.StartExercise: negative durations are accepted
  as the source accepts them. The invariant then does not hold, and the
  method's contract says so.
- Index, App, Monitor, QuickActions and ZenDrawing are not part of this
  model. They hold routing, static chart data, toasts and canvas drawing.
- Integers are unbounded. JavaScript numbers are floating point. Counters,
  ids, scores and indexes here only ever hold whole numbers. The one place
  where a fraction or a negative number can be typed in is the Blocker
  duration; the next two lines say what the model keeps of it.
- Blocker.BlockerPage.SetSessionDuration: takes a whole number of minutes.
  `Number(e.target.value)` can also give a fraction. For example, 2.5
  minutes start a 150-second session, and 0.01 minutes a 0.6-second one.
  The `min`/`max` attributes do not stop this. Negative durations and 0
  (an emptied field) are modelled; fractional durations, and the
  fractional `timeRemaining` they lead to, are not.
- Blocker.FormatTime: modelled over integers, negative ones included. A
  fractional time would show its fraction in the seconds field (0.6
  seconds as `00:0.6`); that is not modelled.
- Blocker's progress bar `timeRemaining / (sessionDuration * 60)` is
  presentational and left out; it is not a number when the duration is 0.

## Findings

| source | as written | input that shows it | evidently intended | confidence | as-written member | corrected member |
|---|---|---|---|---|---|---|
| src/components/games/MemoryGame.tsx:53 | the click gate (line 80) and the face comparison (line 53) index `cards` by position `cardId`, but the flip (82-84) and the match (54-58) select the card whose `id` is `cardId`; after the shuffle position and id differ | a deal that puts card 1 at position 0 (`Memory.SwappedDeal`); clicking the face-down card with id 0 twice: position 0 is still face down, so both clicks pass the gate and pending becomes [0, 0], which resolves as a match of one card | look cards up by id in the gate and the comparison, so that a card cannot pair with itself and twice `matches` equals the number of matched cards | not executed | Memory.DoubleClickFalseMatch | Memory.CompleteIffAllMatched |
| src/pages/Blocker.tsx:55-57 | `startBlockingSession` uses `sessionDuration` without checking it; `min="5"` and `max="180"` live only on the input element, which lets a typed 0 through | duration 0: the session starts blocking with 0 seconds, the tick effect never fires, and blocking never ends | accept only durations of 5 to 180 minutes, so every session completes | not executed | Blocker.ZeroMinuteSessionNeverEnds | Blocker.CheckedSessionCompletes |
