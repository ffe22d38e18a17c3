# Pomodoro timer with a dual-deck music player: a verified model

The app is a Pomodoro timer with music on the side. A timer engine alternates
work and break sessions for a set number of cycles. Its countdown comes from a
wall-clock anchor, not from counting ticks. Two YouTube decks follow the timer:
the work deck and the break deck.

- The deck that is playing fades out over the last five seconds of a session.
- When the session changes, the outgoing deck stops and the incoming deck fades in over one second, in 20 steps.
- Pausing pauses both decks, and resetting or completing the run stops both. Resuming plays only the active deck.

Around these two parts there are:

- an end-of-session alarm that sounds once per session;
- the parser that pulls a video id out of a pasted YouTube URL;
- the `mm:ss` countdown display;
- the lookup of a built-in background track.

The model has one Dafny module per source file:

| module | file | models |
|---|---|---|
| `Timer` | `timer.dfy` | `src/hooks/useTimer.ts`, as the class `TimerEngine` |
| `DeckController` | `deck_controller.dfy` | `src/hooks/useDualDeckController.ts`, as the class `DualDeck` |
| `Playback` | `playback.dfy` | the player hook, as an abstract `Player` class |
| `Alarm` | `alarm.dfy` | `src/hooks/useAlarm.ts`, as the class `AlarmTrigger` |
| `YouTube` | `youtube.dfy` | `src/lib/youtube.ts` |
| `TimerDisplay` | `timer_display.dfy` | the formatting in `src/components/TimerDisplay.tsx` |
| `LibraryTracks` | `library_tracks.dfy` | `src/lib/libraryTracks.ts` |
| `Wrappers` | `wrappers.dfy` | the shared `Option` type |

How the model treats time and React:

- **Time.** Time is integer milliseconds. Every operation that reads the clock takes `now` as a parameter.
- **Intervals and timeouts.** These are fields, such as the boolean `ticking` and the fade-in's `fadeActive`. Their callbacks are methods the caller invokes (`Tick`, `FadeInStep`, `FirePendingPlay`). Ghost counters of live intervals let the model prove that at most one tick interval and at most one fade-in run at any time.
- **Effects.** Each React effect is a method. An effect with a dependency list stores the dependencies it last ran with and runs only when they differ.
- **Renders.** `Render` runs a hook's effects on the state as it was when the render began. The timer-driven effects run in declaration order. The URL effects are grouped by deck: the work deck's hydrate, pre-create and load effects, then the break deck's. The outcome is that of declaration order, because the two groups touch disjoint state.

## Model

| member | source | states |
|---|---|---|
| `Timer.ClampSetting` | src/hooks/useTimer.ts:177-187 | the stored setting always lies in [1, hi]; NaN, 0, −∞ and anything below 1 give 1; +∞ and anything from hi up give hi; a value in range keeps its integer part |
| `Timer.CeilSeconds` | src/hooks/useTimer.ts:110 | the result is the least whole number of seconds covering the milliseconds left: 1000·(r−1) < ms ≤ 1000·r |
| `Timer.NextPhase` | src/hooks/useTimer.ts:67-98 | the run ends exactly when a break of the last cycle (or a later one) ends; otherwise the session always switches, a break keeps its work session's cycle, and work after a break starts the next cycle |
| `Timer.RunSchedule` | src/hooks/useTimer.ts:67-98 | after n phase ends from a fresh start (n < 2·cycles), the phase is work when n is even and break when n is odd, in cycle n/2+1 |
| `Timer.RunCompletes` | src/hooks/useTimer.ts:79-88 | a run is over after exactly 2·cycles phase ends and not before: the last cycle's break is played, and completion is decided when a break ends |
| `Timer.ShownSecondsPositive` | src/hooks/useTimer.ts:106-111 | while any time is left the countdown shows at least one second |
| `Timer.ShownSecondsMonotone` | src/hooks/useTimer.ts:103-110 | as the clock moves forward, the shown countdown never goes up |
| `Timer.PauseResumeNoDrift` | src/hooks/useTimer.ts:131-146 | freezing the time left at pause and re-anchoring it at resume shows what an uninterrupted countdown shifted by the pause would show |
| `Timer.TimerEngine.constructor` | src/hooks/useTimer.ts:32-51 | on mount the timer is idle in cycle 1's work session; it shows the stored work duration and no interval runs |
| `Timer.TimerEngine.RunSyncEffect` | src/hooks/useTimer.ts:161-170 | when a dependency changed while idle and not complete, the display and the anchor take the current session's full duration; otherwise neither changes |
| `Timer.TimerEngine.StopInterval` | src/hooks/useTimer.ts:60-65 | afterwards no interval is alive |
| `Timer.TimerEngine.StartInterval` | src/hooks/useTimer.ts:114-117 | afterwards exactly one interval is alive, whatever there was before |
| `Timer.TimerEngine.TransitionToNextSession` | src/hooks/useTimer.ts:67-98 | the timer moves to the phase `NextPhase` names, shows its full duration and is anchored at now; after the last break it becomes idle and complete, shows 0 and stops the interval, and the anchor is left in place |
| `Timer.TimerEngine.Tick` | src/hooks/useTimer.ts:100-112 | with no anchor, nothing changes; while time is left, it shows the whole seconds covering (anchor time left − elapsed since the anchor), at least one, and keeps the anchor; once none is left, the transition happens |
| `Timer.TimerEngine.Start` | src/hooks/useTimer.ts:119-129 | from any state, the timer is running in cycle 1's work session and not complete; remaining and the anchor both equal work×60 s; the anchor is at now; exactly one interval runs |
| `Timer.TimerEngine.Pause` | src/hooks/useTimer.ts:131-140 | with no anchor, nothing changes; otherwise max(0, time left) is frozen and shown in whole seconds, the anchor is cleared, the timer is paused and no interval runs |
| `Timer.TimerEngine.Resume` | src/hooks/useTimer.ts:142-146 | the timer is re-anchored at now with the frozen time and is running with exactly one interval; the display is unchanged |
| `Timer.TimerEngine.Reset` | src/hooks/useTimer.ts:148-158 | from any state, the timer is idle and not complete in cycle 1's work session showing work×60 s; the anchor is cleared and the interval stopped |
| `Timer.TimerEngine.SetWorkDuration` | src/hooks/useTimer.ts:177-179 | the work duration becomes the clamp into [1, 120]; while idle and not complete, the display and the anchor follow it at once |
| `Timer.TimerEngine.SetBreakDuration` | src/hooks/useTimer.ts:181-183 | the break duration becomes the clamp into [1, 60]; nothing else changes |
| `Timer.TimerEngine.SetTotalCycles` | src/hooks/useTimer.ts:185-187 | the cycle count becomes the clamp into [1, 20]; nothing else changes |
| `Timer.TimerEngine.Unmount` | src/hooks/useTimer.ts:173-175 | no interval is left alive |
| `Timer.TicksDoNotDrift` | src/hooks/useTimer.ts:100-112 | within a session, a timer ticked at mid and then at now shows what one ticked only at now shows |
| `Timer.PauseResumeKeepsTime` | src/hooks/useTimer.ts:131-146 | pause, then resume, then tick on a real timer shows the uninterrupted countdown shifted by the pause |
| `Playback.ClampVolume` | src/hooks/useYouTubePlayer.ts:100 | the volume lies in [0, 100]; a volume in range is kept; below 0 gives 0 and above 100 gives 100 |
| `Playback.Player.constructor` | src/hooks/useYouTubePlayer.ts:26-27 | a deck starts with no player (a null reference) that is not ready |
| `Playback.Player.CreatePlayer` | src/hooks/useYouTubePlayer.ts:32-79 | any old player is replaced by a new, not yet ready one with the video cued at its start |
| `Playback.Player.OnReady` | src/hooks/useYouTubePlayer.ts:60-62 | an existing player becomes ready |
| `Playback.Player.LoadVideo` | src/hooks/useYouTubePlayer.ts:81-85 | an existing player cues the new video at its start; without a player nothing changes |
| `Playback.Player.Play` | src/hooks/useYouTubePlayer.ts:87-89 | an existing player plays; without a player nothing changes |
| `Playback.Player.Pause` | src/hooks/useYouTubePlayer.ts:91-93 | an existing player pauses; without a player nothing changes |
| `Playback.Player.Stop` | src/hooks/useYouTubePlayer.ts:95-97 | an existing player stops; without a player nothing changes |
| `Playback.Player.SetVolume` | src/hooks/useYouTubePlayer.ts:99-101 | an existing player takes the clamped volume; without a player nothing changes |
| `Playback.Player.SeekToStart` | src/hooks/useYouTubePlayer.ts:103-105 | an existing player's playhead is at the start |
| `Playback.Player.Destroy` | src/hooks/useYouTubePlayer.ts:107-117 | no player exists and none is ready |
| `DeckController.ErrorMessage` | src/hooks/useDualDeckController.ts:13-27 | codes 2, 5 and 100 each have their own message, 101 and 150 share the "cannot be embedded" message, and exactly the other codes get the generic message (each as an if-and-only-if) |
| `DeckController.RoundPercent` | src/hooks/useDualDeckController.ts:191 | `Math.round` of the percentage num/den·100: r − ½ ≤ 100·num/den < r + ½, so halves round up |
| `DeckController.FadeOutTarget` | src/hooks/useDualDeckController.ts:190-195 | no volume change exactly when nothing remains; full volume above 5 s; 20·r (100, 80, 60, 40, 20) for 0 < r ≤ 5 under the source's rounding and clamp; always within [0, 100] |
| `DeckController.FadeInVolume` | src/hooks/useDualDeckController.ts:218-219 | step k sets 5·k for 0 ≤ k ≤ 20 under the source's rounding, and 100 from step 20 on |
| `DeckController.FadeOutMonotone` | src/hooks/useDualDeckController.ts:190-195 | the fade-out never raises the volume as the session runs down |
| `DeckController.FadeInRamp` | src/hooks/useDualDeckController.ts:215-223 | the fade-in ramp never goes down and is at full volume exactly from step 20 |
| `DeckController.ValidateUrl` | src/hooks/useDualDeckController.ts:101-116 | a blank URL clears both the id and the error; an id is valid and comes with no error; the error is raised exactly when the URL is not blank and yields no id; a bare id is kept; any other non-blank URL gets exactly the id `ExtractVideoId` finds |
| `DeckController.ApplyHydration` | src/hooks/useDualDeckController.ts:62-67 | re-deriving keeps a deck's id valid and its error the one message |
| `DeckController.HydrateAsWritten` | src/hooks/useDualDeckController.ts:62-67 | the empty URL is skipped and any other URL is re-derived; a non-empty blank URL yields no id and raises the error |
| `DeckController.AfterHydration` | src/hooks/useDualDeckController.ts:62-74 | a deck's id and error after its hydration effect looked at a URL: unchanged when the URL was already seen, re-derived otherwise; a well-formed deck stays well-formed |
| `DeckController.HydrateCorrected` | src/hooks/useDualDeckController.ts:62-67 | a blank URL is skipped; otherwise the id is the extracted one and the error is raised exactly when there is none |
| `DeckController.HydrationAgreesWithSetter` | src/hooks/useDualDeckController.ts:101-116 | re-deriving, as corrected, from the URL just set leaves the id and error as the setter left them |
| `DeckController.HydrationAsWrittenFlagsBlankUrl` | src/hooks/useDualDeckController.ts:62-67 | as written, the URL "   " is left with the error "Invalid YouTube URL", although the setter cleared it |
| `DeckController.DualDeck.constructor` | src/hooks/useDualDeckController.ts:52-59 | the state once the stored URLs have been read: each id is the one extracted from its stored URL, there are no errors, no players and no fade, and the last session seen is the timer's; with both URLs empty it is the first render, before storage is read, and both ids are null |
| `DeckController.DualDeck.SetWorkUrl` | src/hooks/useDualDeckController.ts:101-116 | the raw URL is stored, and the work deck's id and error are what `ValidateUrl` gives |
| `DeckController.DualDeck.SetBreakUrl` | src/hooks/useDualDeckController.ts:118-133 | the raw URL is stored, and the break deck's id and error are what `ValidateUrl` gives |
| `DeckController.DualDeck.ReportPlayerError` | src/hooks/useDualDeckController.ts:77-84 | either deck's error overwrites the single latched message with that code's message |
| `DeckController.DualDeck.ClearPlayerError` | src/hooks/useDualDeckController.ts:270 | no player error is latched |
| `DeckController.DualDeck.ClearFadeIn` | src/hooks/useDualDeckController.ts:93-98 | no fade-in runs |
| `DeckController.DualDeck.InitializePlayers` | src/hooks/useDualDeckController.ts:151-171 | without the API, nothing changes; otherwise the players count as initialized, and the work deck gets one delayed play when it has a video; a deck with a video and a ready player keeps that player untouched; a deck with a video and no ready player gets a new one for it, not ready, unstarted, at its start, at full volume; a deck without a video is untouched |
| `DeckController.DualDeck.FirePendingPlay` | src/hooks/useDualDeckController.ts:160-163 | a scheduled delayed play sets the work deck to full volume and plays it |
| `DeckController.DualDeck.FadeInStep` | src/hooks/useDualDeckController.ts:216-223 | the step advances by one; the incoming deck gets `FadeInVolume(step)`; the fade clears itself after step 20; the other deck is untouched |
| `DeckController.DualDeck.HydrateEffect` | src/hooks/useDualDeckController.ts:62-74 | it runs only when the deck's URL changed; it then applies the corrected re-derivation to that deck only |
| `DeckController.DualDeck.DeckEffects` | src/hooks/useDualDeckController.ts:62-182 | one deck's hydration, pre-create and load outcomes as in `UrlEffects`, including its player's existence, readiness and video as `AfterLoad` gives them and its play state and volume as `AfterUrlEffects` gives them; the other deck's id, error, seen URL, seen id and player are untouched |
| `DeckController.DualDeck.SetSlot` | src/hooks/useDualDeckController.ts:65-66 | one deck's id and error are set; the other deck's are unchanged |
| `DeckController.DualDeck.PreCreateEffect` | src/hooks/useDualDeckController.ts:136-148 | with the API ready and the players not initialized, a deck with a video and no ready player gets a new player for it: not ready, unstarted, at its start, at full volume; otherwise the deck is untouched |
| `DeckController.DualDeck.LoadEffect` | src/hooks/useDualDeckController.ts:174-182 | when the deck's id changed and its player is ready, the new video is cued at its start; otherwise the deck is untouched; the player's existence, readiness and volume never change |
| `DeckController.DualDeck.FadeOutEffect` | src/hooks/useDualDeckController.ts:185-196 | it acts only while running, and only on the active deck's existing player, which takes `FadeOutTarget` of the remaining seconds; in every other case neither deck changes, and the other deck never does |
| `DeckController.DualDeck.TransitionEffect` | src/hooks/useDualDeckController.ts:199-224 | it fires only while running and when the session differs from the last handled one, which it records; the outgoing deck stops; the incoming deck is at volume 0, at its start and playing; exactly one fade-in runs, from step 0 on the incoming deck; only the players' volume, play state and playhead can change |
| `DeckController.DualDeck.SwitchDecks` | src/hooks/useDualDeckController.ts:204-212 | the outgoing deck is stopped; the incoming deck is silent, at its start and playing; only volume, play state and playhead change |
| `DeckController.DualDeck.StartFadeIn` | src/hooks/useDualDeckController.ts:214-223 | any earlier fade is cleared and exactly one fade runs, from step 0 on the given deck |
| `DeckController.DualDeck.PauseResumeEffect` | src/hooks/useDualDeckController.ts:227-237 | it records the status; on a change to paused, the fade is cleared and both decks are paused; on a change to running with the players initialized, the active deck plays, the other deck is untouched and the fade is kept; otherwise nothing changes |
| `DeckController.DualDeck.IdleEffect` | src/hooks/useDualDeckController.ts:240-249 | on a change while idle, the fade is cleared and both decks are stopped; a completed run also un-initializes the players |
| `DeckController.DualDeck.Render` | src/hooks/useDualDeckController.ts:61-249 | each deck whose URL changed is re-derived (`AfterHydration`); each deck's id as the render began is recorded as the load effect's dependency; each player's existence, readiness and video are `AfterLoad` of the render's start: with the API ready and the players not initialized, a deck with a video and no ready player has a new, not ready player for it, a ready deck whose id changed has it cued, and any other player keeps them; and `TimerEffectsDone` holds from the render's start, with each deck as the URL effects left it (`AfterUrlEffects`): the URL, status and idle dependencies are recorded, so a second render of the same view repeats none of the hydration, pause/resume and idle effects; on a session change while running, a fade-in starts on the incoming deck, which plays silent from its start, and the outgoing deck is stopped; in the same running session the fade is kept, the other deck keeps its play state and volume, and the active deck takes `FadeOutTarget` and plays on a change to running once initialized; a change to paused pauses both and clears the fade; a change to idle stops both and un-initializes on completion; a render that sees no change leaves the fade, both decks' play state and volume, and the players' initialization as they were |
| `DeckController.DualDeck.UrlEffects` | src/hooks/useDualDeckController.ts:61-182 | for both decks: the URL is recorded and, if it changed, the id and error are re-derived; with the API ready and the players not initialized, a deck with a video and no ready player gets a new player; a ready deck whose id changed cues it; any other player is untouched; a created player stays created; each deck's id is recorded as the load effect's dependency; each deck's player existence, readiness and video are then `AfterLoad`, and its play state and volume `AfterUrlEffects`, of the state the render began with |
| `DeckController.DualDeck.TimerEffects` | src/hooks/useDualDeckController.ts:184-249 | `TimerEffectsDone` from the state before to the state after, as listed for `Render`; a player's existence, readiness and video (`Setup`) are kept, and only the players' volume, play state and playhead can change |
| `DeckController.DualDeck.SessionEffects` | src/hooks/useDualDeckController.ts:184-224 | the fade-out and transition effects together: while running, a session change is recorded, stops the outgoing deck, starts the incoming one silent from its start and starts the fade-in; otherwise the fade and the other deck are untouched, the active deck keeps its play state and playhead, and only while running does it take `FadeOutTarget` |
| `DeckController.DualDeck.StatusEffects` | src/hooks/useDualDeckController.ts:226-249 | the pause/resume and idle effects together: both dependency lists are recorded; on resume only the active deck plays; a change to paused pauses both decks, a change to idle stops both and un-initializes on completion; with no change, the fade and both decks are untouched |
| `DeckController.DualDeck.Unmount` | src/hooks/useDualDeckController.ts:252-258 | no fade runs and both players are destroyed |
| `DeckController.FadeInCompletes` | src/hooks/useDualDeckController.ts:215-223 | twenty fade-in ticks bring the incoming deck from silence to full volume through 5·k, and the interval then has cleared itself |
| `DeckController.SessionChangeFadesIn` | src/hooks/useDualDeckController.ts:199-224 | a render that sees a session change while running, followed by the fade-in's twenty ticks, leaves the incoming deck playing at full volume with no fade left running, and the outgoing deck stopped |
| `DeckController.ResumePlaysActiveDeckOnly` | src/hooks/useDualDeckController.ts:227-237 | a render that sees the timer resume in the same session, with the players initialized and no new video to cue, plays the active deck and leaves the other deck's play state and volume as they were |
| `DeckController.RenderCreatesMissingPlayer` | src/hooks/useDualDeckController.ts:136-148 | a render with the API loaded and the players not initialized gives a work deck that has a video and no ready player a new player for that video, not yet ready, and records the video as the load effect's dependency |
| `Alarm.AlarmTrigger.constructor` | src/hooks/useAlarm.ts:20-26 | the alarm is enabled unless a stored setting says otherwise, and it has not played |
| `Alarm.AlarmTrigger.SetAlarmEnabled` | src/hooks/useAlarm.ts:20-23 | the setting takes the given value |
| `Alarm.AlarmTrigger.Render` | src/hooks/useAlarm.ts:36-53 | it fires exactly when the trigger's dependencies changed, it is enabled and running, it has not played this session and 0 < remaining ≤ 3; firing sets the flag; only a change of session clears the flag; a disabled alarm never fires |
| `Alarm.AtMostOncePerSession` | src/hooks/useAlarm.ts:42-53 | two renders within one session never both fire |
| `YouTube.Trim` | src/lib/youtube.ts:4 | the result is the input without its leading and trailing JavaScript whitespace; it is empty exactly when the input is blank |
| `YouTube.TrimKeeps` | src/lib/youtube.ts:4 | a string with non-blank ends is its own trim |
| `YouTube.FirstSegment` | src/lib/youtube.ts:21 | the result is the prefix before the first '/', or the whole string when there is none |
| `YouTube.IsVideoId` | src/lib/youtube.ts:1 | a video id has exactly 11 characters, none of them a slash or whitespace |
| `YouTube.MatchAt` | src/lib/youtube.ts:27 | a match at i starts with '/': either `/embed/` or `/shorts/` followed by 11 id characters, which are the captured id; and whenever either form is present at i, there is a match |
| `YouTube.FirstMatchFrom` | src/lib/youtube.ts:27 | the result is the leftmost position from i where `/embed/` or `/shorts/` is followed by 11 id characters, or none when no position matches |
| `YouTube.EmbedOrShortsId` | src/lib/youtube.ts:26-29 | any id found is a valid video id |
| `YouTube.FromUrl` | src/lib/youtube.ts:13-29 | any id taken from a parsed URL is a valid video id |
| `YouTube.ExtractVideoId` | src/lib/youtube.ts:3-35 | every result is a valid 11-character id; blank input gives none; a trimmed bare id is returned unchanged |
| `YouTube.TrimVideoId` | src/lib/youtube.ts:8 | a video id has no surrounding whitespace to trim |
| `YouTube.ExtractIdempotent` | src/lib/youtube.ts:8 | extracting from an extracted id gives the id back, whatever the URL parser |
| `YouTube.WatchLink` | src/lib/youtube.ts:14-17 | on a youtube.com host with a `v` parameter, the result is `v` when it is a valid id and none otherwise, and the path is not looked at |
| `YouTube.ShortLink` | src/lib/youtube.ts:20-23 | on the host youtu.be, the result is the first path segment when it is a valid id, else none |
| `YouTube.EmbedOrShortsLink` | src/lib/youtube.ts:26-29 | on another youtube.com URL, the result is the id after the leftmost `/embed/` or `/shorts/` match, and none when nothing matches |
| `YouTube.NotAUrl` | src/lib/youtube.ts:30-34 | input that is neither a bare id nor a URL gives none |
| `YouTube.ForeignHost` | src/lib/youtube.ts:26-34 | a URL on any other host gives none |
| `YouTube.BareIdExample` | src/lib/youtube.ts:4-8 | "dQw4w9WgXcQ" gives itself, and "" gives none |
| `YouTube.ShortLinkExample` | src/lib/youtube.ts:20-23 | https://youtu.be/dQw4w9WgXcQ gives dQw4w9WgXcQ |
| `YouTube.WatchLinkExample` | src/lib/youtube.ts:14-17 | a watch link with `v=dQw4w9WgXcQ` and a time parameter gives dQw4w9WgXcQ |
| `YouTube.NotAUrlExample` | src/lib/youtube.ts:30-34 | "not a url" gives none |
| `TimerDisplay.NatToString` | src/components/TimerDisplay.tsx:21 | the result is one or more decimal digits with no leading zero; one digit exactly below 10, at most two below 100 |
| `TimerDisplay.NumberToString` | src/components/TimerDisplay.tsx:20 | `String(n)`: at least one character, starting with '-' exactly for a negative number, and only digits otherwise |
| `TimerDisplay.PadStart2` | src/components/TimerDisplay.tsx:21 | leading zeros are added up to length two, and nothing is ever truncated: the input is a suffix of the result |
| `TimerDisplay.JsRemainder60` | src/components/TimerDisplay.tsx:20 | the remainder has the dividend's sign and lies within 60 of zero, and t differs from it by whole minutes |
| `TimerDisplay.FormatTime` | src/components/TimerDisplay.tsx:18-22 | for t ≥ 0 the text has at least 5 characters with ':' third from the end; below 6000 s it is exactly 5 characters |
| `TimerDisplay.Field` | src/components/TimerDisplay.tsx:21 | each field has at least two characters, and exactly two for values 0 to 99 |
| `TimerDisplay.PaddedFieldValue` | src/components/TimerDisplay.tsx:19-21 | the field of a non-negative value is all digits and reads back as that value |
| `TimerDisplay.FormatTimeRoundTrip` | src/components/TimerDisplay.tsx:18-22 | for t ≥ 0, the text reads back as "minutes:seconds" with seconds below 60, and 60·minutes + seconds = t |
| `TimerDisplay.FormatTimeShape` | src/components/TimerDisplay.tsx:18-22 | for 0 ≤ t < 6000 the text has length 5, with ':' at index 2 and digits elsewhere |
| `TimerDisplay.TimeText` | src/components/TimerDisplay.tsx:30 | a completed run shows "00:00" (the format of 0) whatever the count; otherwise the formatted count is shown |
| `TimerDisplay.SessionLabel` | src/components/TimerDisplay.tsx:31 | the label is "Complete" exactly when the run is complete |
| `LibraryTracks.FindById` | src/lib/libraryTracks.ts:23 | the result is the first index whose track has the id, or none when no track has it |
| `LibraryTracks.GetTrackById` | src/lib/libraryTracks.ts:22-24 | a track found has the id and is in the list; the result is undefined exactly when no listed track has the id |
| `LibraryTracks.GetTrackByIdFirst` | src/lib/libraryTracks.ts:23 | the track found is the first one in list order with the id |
| `LibraryTracks.DefaultTrackExists` | src/lib/libraryTracks.ts:20 | the default id "rain" finds the first track |
| `LibraryTracks.CommentedOutTracksAbsent` | src/lib/libraryTracks.ts:12-17 | the commented-out ids "forest" and "ocean" find nothing |

## Left out

- **I/O.** Reading and writing `localStorage` is not modelled: the stored settings, URLs and alarm flag are constructor parameters. In the source, `useLocalStorage` returns its default on the first render and reads storage in an effect, so stored values reach the hooks one render later. The constructors stand for the state after that read. The deck controller's constructor, called with empty URLs, is also its first render. Loading the YouTube IFrame API script is not modelled either: its readiness is the `ytApiReady` parameter.
- **The clock and timers.** `Date.now()`, `setInterval` and `setTimeout` are not modelled. The clock is the `now` parameter. Tick, fade-in step and delayed-play callbacks are method calls. Their periods (250 ms ticks, 50 ms fade steps, 100 ms delay) are constants that nothing depends on.
- `Timer.TimerEngine.Tick`: a transition inside a tick re-anchors at the same `now` the tick read. The source calls `Date.now()` a second time, a few microseconds later.
- **Floating point.** The source keeps the anchor's remaining time in fractional seconds. The model keeps it in whole milliseconds. They agree up to the binary rounding of fractional seconds. After a pause, that rounding can make a tick that lands exactly on a whole second show one second more, or delay the end of a session by one tick.
- `Timer.ClampSetting`: a non-number argument to the setters is not modelled. Only `JsNumber` values are: finite reals, NaN and the infinities.
- `DeckController.FadeInVolume`, `DeckController.FadeOutTarget`: these use exact rational rounding. The source's `Math.round` of a float agrees for the integer remaining seconds and steps it receives.
- `DeckController.DualDeck.HydrateEffect`: the class runs the corrected hydration (`HydrateCorrected`), which skips every blank URL. As written, the effect skips only the empty URL. So after `SetWorkUrl("   ")` and a render, the source shows "Invalid YouTube URL" on that deck, and the class shows no error. The as-written effect is `HydrateAsWritten`. See Findings.
- **React batching.** State updates made in one event handler are applied at once, and a method runs its hook's effect afterwards. Re-renders triggered by state set inside effects are later `Render` calls made by the caller.
- `YouTube.Contains`: this is `String.prototype.includes`, defined by its meaning (some position holds the substring) and given no contract of its own.
- `YouTube.Slice1`: this is `String.prototype.slice(1)`, given by its definition; it is a helper of `FromUrl` and states nothing beyond it.
- `DeckController.DualDeck.Render`: it does not state that a deck's playhead stays where the URL effects left it when the render sees no session change. It states the playhead only for the incoming deck on a session change.
- **Player internals.** The players are abstract.
  - Not modelled: the media clock, the looping on `ENDED`, and the float volume conversion of the audio-element backend.
  - A new player's volume is taken as 100.
  - A player's commands act once it exists, ready or not.
  - `createPlayer` is only ever called with the API loaded, so its early return when `window.YT` is missing is not modelled.
- `Playback.ClampVolume`: this applies to both player backends. The library-track backend (`src/hooks/useLibraryPlayer.ts`) and its audio-source switching are not part of this model.
- **The label lookup.** The display's session label (`TimerDisplay.SessionLabel`) is keyed by the three-valued session type of `src/types/timer.ts`. The timer and deck controller use a two-valued work/break session, and its `"break"` value has no entry in the display's table. The model keeps the two types apart and does not connect them.
- **The three-phase page.** `src/app/page.tsx` reads a three-phase, three-deck, library-source interface: long breaks, a short-break URL, an audio source per deck. Neither hook provides it, so it is not modelled. This also covers `DeckPanel`'s different duration limits.
- **Presentation components.** These are not modelled: pages, buttons, panels, the theme, the vinyl animation and the footer.
- **Behaviour of the code.** The model follows the code in these points:
  - completion is decided when a break ends, so the last cycle's break is played;
  - completing a run stops the interval and leaves the anchor in place;
  - `resume` and `start` do not check the current status.

## Findings

| source | as written | input that shows it | evidently intended | confidence | as-written member | corrected member |
|---|---|---|---|---|---|---|
| src/hooks/useDualDeckController.ts:62-74 | The hydration effect skips only the empty URL (`!workUrl`). So after `setWorkUrl` stores a blank URL and clears the error, the effect runs on the changed URL, extracts no id and sets "Invalid YouTube URL". | `setWorkUrl("   ")` (three spaces) | Blank input shows no error, as `setWorkUrl` itself decides with `!url.trim()`. | medium (not executed) | `DeckController.HydrationAsWrittenFlagsBlankUrl` | `DeckController.HydrationAgreesWithSetter` |

The class `DeckController.DualDeck` runs the corrected hydration (`HydrateCorrected`), as noted under Left out. The as-written version (`HydrateAsWritten`) is kept beside it, together with the counterexample.
