/**
 * The dual-deck music controller (src/hooks/useDualDeckController.ts): a work
 * deck and a break deck, each a YouTube player, that follow the timer. The
 * active deck fades out over a session's last five seconds; when the session
 * changes the outgoing deck stops and the incoming one restarts with a
 * one-second, 20-step fade-in; pausing pauses both decks, resuming plays
 * the active deck only, and resetting or completing the run stops both.
 *
 * Each React effect is a method. An effect with a dependency list stores the
 * dependencies it last ran with and runs again only when they differ. The
 * effects whose lists name a player object run on every render, because the
 * player hook returns a fresh object each render. `Render` runs the effects
 * in declaration order, and they all read the state as it was when the
 * render started; state they set is seen by the next render.
 */
module DeckController {
  import opened Wrappers
  import opened Timer
  import opened YouTube
  import opened Playback

  const FADE_DURATION: int := 5
  const FADE_IN_STEPS: int := 20
  const FADE_IN_INTERVAL_MS: int := 50

  const INVALID_URL := "Invalid YouTube URL"

  const MSG_INVALID_PARAMETER := "Invalid video URL parameter."
  const MSG_NOT_PLAYABLE := "This video cannot be played. Please try another."
  const MSG_NOT_FOUND := "Video not found. It may be private or deleted."
  const MSG_NOT_EMBEDDABLE := "This video cannot be embedded. Please try a different URL."
  const MSG_UNKNOWN := "An unknown playback error occurred."

  /**
   * `getYouTubeErrorMessage`: each documented player error code has its own
   * message (101 and 150 share one, both meaning "not embeddable"), and
   * every other code gets the generic message.
   */
  function ErrorMessage(code: int): (r: string)
    ensures r == MSG_INVALID_PARAMETER <==> code == 2
    ensures r == MSG_NOT_PLAYABLE <==> code == 5
    ensures r == MSG_NOT_FOUND <==> code == 100
    ensures r == MSG_NOT_EMBEDDABLE <==> code == 101 || code == 150
    ensures r == MSG_UNKNOWN <==> code !in {2, 5, 100, 101, 150}
  {
    match code
    case 2 => MSG_INVALID_PARAMETER
    case 5 => MSG_NOT_PLAYABLE
    case 100 => MSG_NOT_FOUND
    case 101 => MSG_NOT_EMBEDDABLE
    case 150 => MSG_NOT_EMBEDDABLE
    case _ => MSG_UNKNOWN
  }

  /** `Math.round((num / den) * 100)` for a positive `den`: the nearest whole percentage, halves rounding up. */
  function RoundPercent(num: int, den: int): (r: int)
    requires den > 0
    ensures den * (2 * r - 1) <= 200 * num < den * (2 * r + 1)
  {
    var r := (200 * num + den) / (2 * den);
    assert 2 * den * r <= 200 * num + den < 2 * den * r + 2 * den;
    r
  }

  /**
   * The volume the fade-out effect gives the active deck while running, or
   * nothing: full volume while more than five seconds remain, then 20 points
   * per remaining second (100, 80, 60, 40, 20), and no change once none
   * remains.
   */
  function FadeOutTarget(remaining: int): (r: Option<int>)
    ensures r.None? <==> remaining <= 0
    ensures remaining > FADE_DURATION ==> r == Some(100)
    ensures 0 < remaining <= FADE_DURATION ==> r == Some(20 * remaining)
    ensures r.Some? ==> 0 <= r.value <= 100
  {
    if remaining <= FADE_DURATION && remaining > 0 then
      Some(ClampVolume(RoundPercent(remaining, FADE_DURATION)))
    else if remaining > FADE_DURATION then Some(100)
    else None
  }

  /** The volume set at fade-in step `step`: 5 points per step, reaching full volume at the 20th. */
  function FadeInVolume(step: int): (r: int)
    ensures 0 <= step <= FADE_IN_STEPS ==> r == 5 * step
    ensures step >= FADE_IN_STEPS ==> r == 100
  {
    Min(100, RoundPercent(step, FADE_IN_STEPS))
  }

  /** The fade-out never raises the volume as the session runs down. */
  lemma FadeOutMonotone(r1: int, r2: int)
    requires 0 < r1 <= r2
    ensures FadeOutTarget(r1).Some? && FadeOutTarget(r2).Some?
    ensures FadeOutTarget(r1).value <= FadeOutTarget(r2).value
  {
  }

  /** The fade-in ramp never goes down, and is at full volume exactly from step 20 on. */
  lemma FadeInRamp(k1: int, k2: int)
    requires 0 <= k1 <= k2
    ensures FadeInVolume(k1) <= FadeInVolume(k2)
    ensures FadeInVolume(k1) == 100 <==> k1 >= FADE_IN_STEPS
  {
  }

  /** A deck's video id and URL error, as the URL setters and the hydration effects leave them. */
  datatype UrlCheck = UrlCheck(id: Option<string>, error: Option<string>)

  /** An id, if any, is a valid video id; an error, if any, is the invalid-URL message. */
  predicate WellFormed(c: UrlCheck) {
    (c.id.Some? ==> IsVideoId(c.id.value)) && (c.error.Some? ==> c.error.value == INVALID_URL)
  }

  /**
   * The checks of `setWorkUrl`/`setBreakUrl`. A blank URL clears both the id
   * and the error; otherwise the URL yields a valid video id and no error,
   * or no id and the "Invalid YouTube URL" error.
   */
  function ValidateUrl(url: string, parse: string -> Option<ParsedUrl>): (r: UrlCheck)
    ensures r.id.Some? ==> IsVideoId(r.id.value) && r.error.None?
    ensures r.error.Some? <==> !AllWhitespace(url) && r.id.None?
    ensures r.error.Some? ==> r.error.value == INVALID_URL
    ensures AllWhitespace(url) ==> r == UrlCheck(None, None)
    ensures IsVideoId(Trim(url)) ==> r == UrlCheck(Some(Trim(url)), None)
    ensures !AllWhitespace(url) ==> r.id == ExtractVideoId(url, parse)
  {
    if Trim(url) == "" then UrlCheck(None, None)
    else match ExtractVideoId(url, parse)
      case Some(id) => UrlCheck(Some(id), None)
      case None => UrlCheck(None, Some(INVALID_URL))
  }

  /**
   * What a hydration effect (re-deriving a deck's id when its URL changes)
   * does: nothing, or set the id and, when there is none, raise the error.
   */
  datatype Hydration = Skip | Rederive(id: Option<string>, raiseError: bool)

  function ApplyHydration(h: Hydration, c: UrlCheck): (r: UrlCheck)
    ensures WellFormed(c) && (h.Rederive? && h.id.Some? ==> IsVideoId(h.id.value)) ==> WellFormed(r)
  {
    match h
    case Skip => c
    case Rederive(id, raise) => UrlCheck(id, if raise then Some(INVALID_URL) else c.error)
  }

  /**
   * The hydration effect as written: it skips only the empty URL, so a URL
   * of blanks reaches the extraction, yields no id, and raises the error.
   */
  function HydrateAsWritten(url: string, parse: string -> Option<ParsedUrl>): (h: Hydration)
    ensures url == "" ==> h == Skip
    ensures url != "" ==> h == Rederive(ExtractVideoId(url, parse), ExtractVideoId(url, parse).None?)
    ensures AllWhitespace(url) && url != "" ==> h == Rederive(None, true)
  {
    if url == "" then Skip
    else
      var id := ExtractVideoId(url, parse);
      Rederive(id, id.None?)
  }

  /** The hydration effect as the URL setters evidently intend it: a blank URL is skipped, like the empty one. */
  function HydrateCorrected(url: string, parse: string -> Option<ParsedUrl>): (h: Hydration)
    ensures AllWhitespace(url) ==> h == Skip
    ensures h.Rederive? ==> h.id == ExtractVideoId(url, parse) && (h.raiseError <==> h.id.None?)
    ensures h.Rederive? && h.id.Some? ==> IsVideoId(h.id.value)
  {
    if Trim(url) == "" then Skip
    else
      var id := ExtractVideoId(url, parse);
      Rederive(id, id.None?)
  }

  /**
   * A deck's id and error after its hydration effect has looked at the URL
   * `url`, having last seen `seen` and holding `before`: re-derived from the
   * URL when it changed, as they were otherwise.
   */
  function AfterHydration(url: string, seen: Option<string>, before: UrlCheck,
                          parse: string -> Option<ParsedUrl>): (r: UrlCheck)
    ensures WellFormed(before) ==> WellFormed(r)
  {
    if seen == Some(url) then before else ApplyHydration(HydrateCorrected(url, parse), before)
  }

  /**
   * The corrected hydration agrees with the URL setters: re-deriving from the
   * URL just set leaves the id and the error exactly as the setter left them.
   */
  lemma HydrationAgreesWithSetter(url: string, parse: string -> Option<ParsedUrl>)
    ensures ApplyHydration(HydrateCorrected(url, parse), ValidateUrl(url, parse)) == ValidateUrl(url, parse)
  {
  }

  /**
   * As written, a URL of three spaces shows "Invalid YouTube URL" once the
   * hydration effect has run, though the setter deliberately cleared the
   * error for blank input.
   */
  lemma HydrationAsWrittenFlagsBlankUrl(parse: string -> Option<ParsedUrl>)
    ensures ValidateUrl("   ", parse).error.None?
    ensures ApplyHydration(HydrateAsWritten("   ", parse), ValidateUrl("   ", parse)).error == Some(INVALID_URL)
  {
    assert AllWhitespace("   ");
  }

  /** The controller's session and fade bookkeeping, as the timer-driven effects see it. */
  datatype Bookkeeping = Bookkeeping(
    prevSession: Session, fadeActive: bool, fadeStep: int, fadeDeck: Session,
    seenStatus: Option<Status>, seenIdleDeps: Option<(Status, bool)>, playersInitialized: bool)

  /** What the timer-driven effects change on a deck: its play state and volume. */
  datatype DeckSnapshot = DeckSnapshot(state: PlayState, volume: int)

  /**
   * What the pre-create and load effects decide about a deck and the
   * timer-driven effects keep: whether it has a player, whether that player
   * is ready, and its video.
   */
  datatype DeckSetup = DeckSetup(created: bool, ready: bool, videoId: string)

  /** Of two snapshots, the one for deck `s`. */
  function Pick(s: Session, work: DeckSnapshot, brk: DeckSnapshot): DeckSnapshot {
    if s == Work then work else brk
  }

  function Other(s: Session): Session {
    if s == Work then Break else Work
  }

  class DualDeck {
    /** The URL parser (`new URL`), which the model does not look inside. */
    const parse: string -> Option<ParsedUrl>
    const workPlayer: Player
    const breakPlayer: Player

    var workUrl: string
    var breakUrl: string
    var workVideoId: Option<string>
    var breakVideoId: Option<string>
    var workUrlError: Option<string>
    var breakUrlError: Option<string>
    /** The single latched player error, whichever deck reported it. */
    var playerError: Option<string>
    var playersInitialized: bool
    /** Delayed "play the work deck" callbacks scheduled by `InitializePlayers` and not yet fired. */
    var pendingPlays: nat
    /** The session the transition effect last handled. */
    var prevSession: Session
    // the fade-in interval: whether it runs, its step counter, the deck it ramps up
    var fadeActive: bool
    var fadeStep: int
    var fadeDeck: Session
    ghost var liveFades: nat
    // the dependencies each change-detected effect last ran with
    var seenWorkUrl: Option<string>
    var seenBreakUrl: Option<string>
    var seenWorkVideoId: Option<Option<string>>
    var seenBreakVideoId: Option<Option<string>>
    var seenStatus: Option<Status>
    var seenIdleDeps: Option<(Status, bool)>

    function Deck(s: Session): Player {
      if s == Work then workPlayer else breakPlayer
    }

    function Slot(s: Session): UrlCheck
      reads this
    {
      if s == Work then UrlCheck(workVideoId, workUrlError) else UrlCheck(breakVideoId, breakUrlError)
    }

    function Url(s: Session): string
      reads this
    {
      if s == Work then workUrl else breakUrl
    }

    function SeenUrl(s: Session): Option<string>
      reads this
    {
      if s == Work then seenWorkUrl else seenBreakUrl
    }

    function SeenVideoId(s: Session): Option<Option<string>>
      reads this
    {
      if s == Work then seenWorkVideoId else seenBreakVideoId
    }

    function Snap(s: Session): DeckSnapshot
      reads workPlayer, breakPlayer
    {
      DeckSnapshot(Deck(s).state, Deck(s).volume)
    }

    function Setup(s: Session): DeckSetup
      reads workPlayer, breakPlayer
    {
      DeckSetup(Deck(s).created, Deck(s).ready, Deck(s).videoId)
    }

    /** The fade-in interval and the intervals alive agree: at most one fade runs. */
    ghost predicate FadesCounted()
      reads this
    {
      liveFades == (if fadeActive then 1 else 0)
    }

    /**
     * The controller's invariant: two distinct players, at most one fade-in
     * running and, while it runs, a step counter short of the last step;
     * each deck's stored video id is a valid id and its URL error the one
     * message.
     */
    ghost predicate Valid()
      reads this, workPlayer, breakPlayer
    {
      && workPlayer != breakPlayer && workPlayer.Valid() && breakPlayer.Valid()
      && FadesCounted()
      && (fadeActive ==> 0 <= fadeStep < FADE_IN_STEPS)
      && WellFormed(Slot(Work)) && WellFormed(Slot(Break))
    }

    /**
     * Mount, taken once the URLs have been read back from storage, with the
     * timer's session at mount. On the very first render storage has not
     * been read yet: that render is this constructor with both URLs empty.
     */
    constructor (storedWorkUrl: string, storedBreakUrl: string, urlParser: string -> Option<ParsedUrl>, session: Session)
      ensures Valid() && fresh(workPlayer) && fresh(breakPlayer)
      ensures workUrl == storedWorkUrl && breakUrl == storedBreakUrl
      ensures workVideoId == ExtractVideoId(storedWorkUrl, urlParser)
      ensures breakVideoId == ExtractVideoId(storedBreakUrl, urlParser)
      ensures workUrlError.None? && breakUrlError.None? && playerError.None?
      ensures !playersInitialized && !fadeActive && prevSession == session
      ensures !workPlayer.created && !breakPlayer.created
    {
      parse := urlParser;
      workPlayer := new Player();
      breakPlayer := new Player();
      workUrl, breakUrl := storedWorkUrl, storedBreakUrl;
      workVideoId := ExtractVideoId(storedWorkUrl, urlParser);
      breakVideoId := ExtractVideoId(storedBreakUrl, urlParser);
      workUrlError, breakUrlError, playerError := None, None, None;
      playersInitialized := false;
      pendingPlays := 0;
      prevSession := session;
      fadeActive, fadeStep, fadeDeck := false, 0, session;
      liveFades := 0;
      seenWorkUrl, seenBreakUrl := None, None;
      seenWorkVideoId, seenBreakVideoId := None, None;
      seenStatus, seenIdleDeps := None, None;
    }

    /** `setWorkUrl`: store the raw URL, then the id and error `ValidateUrl` gives. */
    method SetWorkUrl(url: string)
      requires Valid()
      modifies this`workUrl, this`workVideoId, this`workUrlError
      ensures Valid()
      ensures workUrl == url && Slot(Work) == ValidateUrl(url, parse)
    {
      workUrl := url;
      var check := ValidateUrl(url, parse);
      workVideoId := check.id;
      workUrlError := check.error;
    }

    /** `setBreakUrl`: store the raw URL, then the id and error `ValidateUrl` gives. */
    method SetBreakUrl(url: string)
      requires Valid()
      modifies this`breakUrl, this`breakVideoId, this`breakUrlError
      ensures Valid()
      ensures breakUrl == url && Slot(Break) == ValidateUrl(url, parse)
    {
      breakUrl := url;
      var check := ValidateUrl(url, parse);
      breakVideoId := check.id;
      breakUrlError := check.error;
    }

    /** A player's error callback: either deck's error overwrites the one latched message. */
    method ReportPlayerError(code: int)
      modifies this`playerError
      ensures playerError == Some(ErrorMessage(code))
    {
      playerError := Some(ErrorMessage(code));
    }

    /** `clearPlayerError`. */
    method ClearPlayerError()
      modifies this`playerError
      ensures playerError.None?
    {
      playerError := None;
    }

    /** `clearFadeIn`: stop the fade-in interval if one runs. */
    method ClearFadeIn()
      requires FadesCounted()
      modifies this`fadeActive, this`liveFades
      ensures FadesCounted() && !fadeActive && liveFades == 0
    {
      if fadeActive {
        fadeActive := false;
        liveFades := liveFades - 1;
      }
    }

    /**
     * `initializePlayers` (the Start button): nothing unless the API is
     * ready. Otherwise, with a work video, create the work player unless it
     * is ready and schedule the delayed full-volume play; with a break video
     * and no ready break player, create it; and the players count as
     * initialized.
     */
    method InitializePlayers(ytApiReady: bool)
      requires Valid()
      modifies this`playersInitialized, this`pendingPlays, workPlayer, breakPlayer
      ensures Valid()
      ensures !ytApiReady ==>
        playersInitialized == old(playersInitialized) && pendingPlays == old(pendingPlays)
        && unchanged(workPlayer, breakPlayer)
      ensures ytApiReady ==> playersInitialized
      ensures ytApiReady && workVideoId.Some? ==>
        pendingPlays == old(pendingPlays) + 1 && workPlayer.created
        && (!old(workPlayer.ready) ==> workPlayer.videoId == workVideoId.value)
      ensures ytApiReady && workVideoId.None? ==> pendingPlays == old(pendingPlays) && unchanged(workPlayer)
      ensures ytApiReady && breakVideoId.Some? ==> breakPlayer.created
      ensures ytApiReady && breakVideoId.Some? && !old(breakPlayer.ready) ==> breakPlayer.videoId == breakVideoId.value
      ensures ytApiReady && (breakVideoId.None? || old(breakPlayer.ready)) ==> unchanged(breakPlayer)
      ensures ytApiReady && workVideoId.Some? && old(workPlayer.ready) ==> unchanged(workPlayer)
      ensures ytApiReady && workVideoId.Some? && !old(workPlayer.ready) ==>
        && !workPlayer.ready && workPlayer.state == Unstarted && workPlayer.atStart && workPlayer.volume == 100
      ensures ytApiReady && breakVideoId.Some? && !old(breakPlayer.ready) ==>
        && !breakPlayer.ready && breakPlayer.state == Unstarted && breakPlayer.atStart && breakPlayer.volume == 100
    {
      if !ytApiReady {
        return;
      }
      if workVideoId.Some? {
        if !workPlayer.ready {
          workPlayer.CreatePlayer(workVideoId.value);
        }
        pendingPlays := pendingPlays + 1;
      }
      if breakVideoId.Some? && !breakPlayer.ready {
        breakPlayer.CreatePlayer(breakVideoId.value);
      }
      playersInitialized := true;
    }

    /** The delayed callback `InitializePlayers` scheduled: the work deck at full volume, playing. */
    method FirePendingPlay()
      requires Valid()
      modifies this`pendingPlays, workPlayer`volume, workPlayer`state
      ensures Valid()
      ensures old(pendingPlays) == 0 ==> pendingPlays == 0 && unchanged(workPlayer)
      ensures old(pendingPlays) > 0 ==> pendingPlays == old(pendingPlays) - 1
      ensures old(pendingPlays) > 0 && old(workPlayer.created) ==> workPlayer.volume == 100 && workPlayer.state == Playing
    {
      if pendingPlays > 0 {
        pendingPlays := pendingPlays - 1;
        workPlayer.SetVolume(100);
        workPlayer.Play();
      }
    }

    /**
     * One tick of the fade-in interval: the step counter advances and the
     * incoming deck gets that step's volume; after the 20th step the
     * interval clears itself. Nothing happens when no fade runs.
     */
    method FadeInStep()
      requires Valid()
      modifies this`fadeStep, this`fadeActive, this`liveFades, workPlayer`volume, breakPlayer`volume
      ensures Valid()
      ensures !old(fadeActive) ==> fadeStep == old(fadeStep) && !fadeActive && unchanged(workPlayer, breakPlayer)
      ensures old(fadeActive) ==>
        && fadeStep == old(fadeStep) + 1
        && (fadeActive <==> fadeStep < FADE_IN_STEPS)
        && (old(Deck(fadeDeck).created) ==> Deck(fadeDeck).volume == FadeInVolume(fadeStep))
        && unchanged(Deck(Other(fadeDeck)))
    {
      if !fadeActive {
        return;
      }
      fadeStep := fadeStep + 1;
      Deck(fadeDeck).SetVolume(FadeInVolume(fadeStep));
      if fadeStep >= FADE_IN_STEPS {
        ClearFadeIn();
      }
    }

    /**
     * A hydration effect (deps: the deck's URL): when the URL changed since
     * it last ran, re-derive the deck's id from it, raising the URL error
     * when there is none; blank URLs are skipped.
     */
    method HydrateEffect(which: Session, url: string)
      requires Valid()
      modifies this`workVideoId, this`workUrlError, this`seenWorkUrl,
        this`breakVideoId, this`breakUrlError, this`seenBreakUrl
      ensures Valid()
      ensures SeenUrl(which) == Some(url)
      ensures old(SeenUrl(which)) != Some(url) ==>
        Slot(which) == ApplyHydration(HydrateCorrected(url, parse), old(Slot(which)))
      ensures old(SeenUrl(which)) == Some(url) ==> Slot(which) == old(Slot(which))
      ensures Slot(Other(which)) == old(Slot(Other(which))) && SeenUrl(Other(which)) == old(SeenUrl(Other(which)))
    {
      if SeenUrl(which) == Some(url) {
        return;
      }
      if which == Work {
        seenWorkUrl := Some(url);
      } else {
        seenBreakUrl := Some(url);
      }
      SetSlot(which, ApplyHydration(HydrateCorrected(url, parse), Slot(which)));
    }

    /** Store a deck's video id and URL error. */
    method SetSlot(which: Session, c: UrlCheck)
      modifies this`workVideoId, this`workUrlError, this`breakVideoId, this`breakUrlError
      ensures Slot(which) == c && Slot(Other(which)) == old(Slot(Other(which)))
    {
      if which == Work {
        workVideoId, workUrlError := c.id, c.error;
      } else {
        breakVideoId, breakUrlError := c.id, c.error;
      }
    }

    /**
     * A pre-create effect (runs every render): with the API ready and the
     * players not yet initialized, a deck that has a video and no ready
     * player gets a player for that video.
     */
    method PreCreateEffect(which: Session, ytApiReady: bool, initialized: bool, id: Option<string>, ready: bool)
      requires Valid()
      modifies Deck(which)
      ensures Valid()
      ensures ytApiReady && !initialized && id.Some? && !ready ==>
        && Deck(which).created && !Deck(which).ready && Deck(which).videoId == id.value
        && Deck(which).atStart && Deck(which).state == Unstarted && Deck(which).volume == 100
      ensures !(ytApiReady && !initialized && id.Some? && !ready) ==> unchanged(Deck(which))
    {
      if !ytApiReady || initialized {
        return;
      }
      if id.Some? && !ready {
        Deck(which).CreatePlayer(id.value);
      }
    }

    /** A load effect (deps: the deck's video id): when the id changed, a ready player cues the new video. */
    method LoadEffect(which: Session, id: Option<string>, ready: bool)
      requires Valid()
      modifies this`seenWorkVideoId, this`seenBreakVideoId, Deck(which)
      ensures Valid()
      ensures SeenVideoId(which) == Some(id) && SeenVideoId(Other(which)) == old(SeenVideoId(Other(which)))
      ensures Deck(which).created == old(Deck(which).created) && Deck(which).ready == old(Deck(which).ready)
      ensures Deck(which).volume == old(Deck(which).volume)
      ensures old(SeenVideoId(which)) != Some(id) && ready && id.Some? && old(Deck(which).created) ==>
        Deck(which).videoId == id.value && Deck(which).state == Cued && Deck(which).atStart
      ensures !(old(SeenVideoId(which)) != Some(id) && ready && id.Some?) ==> unchanged(Deck(which))
    {
      if SeenVideoId(which) == Some(id) {
        return;
      }
      if which == Work {
        seenWorkVideoId := Some(id);
      } else {
        seenBreakVideoId := Some(id);
      }
      if ready && id.Some? {
        Deck(which).LoadVideo(id.value);
      }
    }

    /**
     * The fade-out effect (runs every render): only while running, and only
     * on the active deck, whose volume becomes `FadeOutTarget` of the
     * remaining seconds when there is one.
     */
    method FadeOutEffect(v: View)
      requires Valid()
      modifies workPlayer`volume, breakPlayer`volume
      ensures Valid()
      ensures v.status != Running || FadeOutTarget(v.remaining).None? || !old(Deck(v.session).created) ==>
        unchanged(workPlayer, breakPlayer)
      ensures unchanged(Deck(Other(v.session)))
      ensures v.status == Running && FadeOutTarget(v.remaining).Some? && old(Deck(v.session).created) ==>
        Deck(v.session).volume == FadeOutTarget(v.remaining).value
    {
      if v.status != Running {
        return;
      }
      var target := FadeOutTarget(v.remaining);
      if target.Some? {
        Deck(v.session).SetVolume(target.value);
      }
    }

    /**
     * The transition effect (runs every render): only while running and only
     * when the session differs from the one last handled, which it records.
     * The outgoing deck stops; the incoming deck is silenced, rewound and
     * played; any fade-in is cleared and a new one starts on it.
     */
    method TransitionEffect(v: View)
      requires Valid()
      modifies this`prevSession, this`fadeActive, this`fadeStep, this`fadeDeck, this`liveFades,
        workPlayer`state, workPlayer`volume, workPlayer`atStart,
        breakPlayer`state, breakPlayer`volume, breakPlayer`atStart
      ensures Valid()
      ensures !(v.status == Running && v.session != old(prevSession)) ==>
        && prevSession == old(prevSession) && fadeActive == old(fadeActive)
        && fadeStep == old(fadeStep) && fadeDeck == old(fadeDeck)
        && unchanged(workPlayer, breakPlayer)
      ensures v.status == Running && v.session != old(prevSession) ==>
        && prevSession == v.session
        && fadeActive && fadeStep == 0 && fadeDeck == v.session && liveFades == 1
        && (old(Deck(Other(v.session)).created) ==> Deck(Other(v.session)).state == Stopped)
        && (old(Deck(v.session).created) ==>
              Deck(v.session).volume == 0 && Deck(v.session).atStart && Deck(v.session).state == Playing)
    {
      if v.status != Running || v.session == prevSession {
        return;
      }
      prevSession := v.session;
      SwitchDecks(v.session);
      StartFadeIn(v.session);
    }

    /** Stop the outgoing deck; silence, rewind and play the incoming one. */
    method SwitchDecks(incoming: Session)
      requires workPlayer != breakPlayer && workPlayer.Valid() && breakPlayer.Valid()
      modifies workPlayer`state, workPlayer`volume, workPlayer`atStart,
        breakPlayer`state, breakPlayer`volume, breakPlayer`atStart
      ensures workPlayer.Valid() && breakPlayer.Valid()
      ensures old(Deck(Other(incoming)).created) ==> Deck(Other(incoming)).state == Stopped
      ensures old(Deck(incoming).created) ==>
        Deck(incoming).volume == 0 && Deck(incoming).atStart && Deck(incoming).state == Playing
    {
      if incoming == Work {
        breakPlayer.Stop();
        workPlayer.SetVolume(0);
        workPlayer.SeekToStart();
        workPlayer.Play();
      } else {
        workPlayer.Stop();
        breakPlayer.SetVolume(0);
        breakPlayer.SeekToStart();
        breakPlayer.Play();
      }
    }

    /** Clear any fade-in, then start a new one on `deck` from step 0: exactly one runs afterwards. */
    method StartFadeIn(deck: Session)
      requires FadesCounted()
      modifies this`fadeActive, this`fadeStep, this`fadeDeck, this`liveFades
      ensures FadesCounted() && fadeActive && fadeStep == 0 && fadeDeck == deck && liveFades == 1
    {
      ClearFadeIn();
      fadeStep := 0;
      fadeDeck := deck;
      fadeActive := true;
      liveFades := liveFades + 1;
    }

    /**
     * The pause/resume effect (deps: status): on a change to paused, clear
     * the fade and pause both decks; on a change to running with the players
     * initialized, play the active deck only.
     */
    method PauseResumeEffect(v: View, initialized: bool)
      requires Valid()
      modifies this`seenStatus, this`fadeActive, this`liveFades, workPlayer`state, breakPlayer`state
      ensures Valid()
      ensures seenStatus == Some(v.status)
      ensures old(seenStatus) != Some(v.status) && v.status == Status.Paused ==>
        && !fadeActive
        && (old(workPlayer.created) ==> workPlayer.state == PlayState.Paused)
        && (old(breakPlayer.created) ==> breakPlayer.state == PlayState.Paused)
      ensures old(seenStatus) != Some(v.status) && v.status == Running && initialized ==>
        && fadeActive == old(fadeActive)
        && Deck(v.session).state == (if old(Deck(v.session).created) then Playing else old(Deck(v.session).state))
        && unchanged(Deck(Other(v.session)))
      ensures !(old(seenStatus) != Some(v.status) && (v.status == Status.Paused || (v.status == Running && initialized))) ==>
        fadeActive == old(fadeActive) && unchanged(workPlayer, breakPlayer)
    {
      if seenStatus == Some(v.status) {
        return;
      }
      seenStatus := Some(v.status);
      if v.status == Status.Paused {
        ClearFadeIn();
        workPlayer.Pause();
        breakPlayer.Pause();
      } else if v.status == Running && initialized {
        Deck(v.session).Play();
      }
    }

    /**
     * The idle effect (deps: status, completion): on a change while idle,
     * clear the fade and stop both decks; a completed run also un-initializes
     * the players, so the next Start creates them again.
     */
    method IdleEffect(v: View)
      requires Valid()
      modifies this`seenIdleDeps, this`fadeActive, this`liveFades, this`playersInitialized,
        workPlayer`state, breakPlayer`state
      ensures Valid()
      ensures seenIdleDeps == Some((v.status, v.isComplete))
      ensures old(seenIdleDeps) != Some((v.status, v.isComplete)) && v.status == Idle ==>
        && !fadeActive
        && (old(workPlayer.created) ==> workPlayer.state == Stopped)
        && (old(breakPlayer.created) ==> breakPlayer.state == Stopped)
        && playersInitialized == (old(playersInitialized) && !v.isComplete)
      ensures !(old(seenIdleDeps) != Some((v.status, v.isComplete)) && v.status == Idle) ==>
        && fadeActive == old(fadeActive) && playersInitialized == old(playersInitialized)
        && unchanged(workPlayer, breakPlayer)
    {
      if seenIdleDeps == Some((v.status, v.isComplete)) {
        return;
      }
      seenIdleDeps := Some((v.status, v.isComplete));
      if v.status == Idle {
        ClearFadeIn();
        workPlayer.Stop();
        breakPlayer.Stop();
        if v.isComplete {
          playersInitialized := false;
        }
      }
    }

    /**
     * One render of the controller, seeing the timer as `v`: the effects run
     * in declaration order on the state as it stood when the render began.
     * A deck whose URL changed is re-derived; a player, once created, stays.
     * A fade-in starts only on a session change seen while running, and a
     * render that sees no such change never restarts one. On that change the
     * outgoing deck is stopped and the incoming one plays from its start,
     * silent; without it the running deck takes the fade-out volume. A change
     * to paused pauses both decks, and a change to idle stops both.
     */
    method Render(v: View, ytApiReady: bool)
      requires Valid()
      modifies this`workVideoId, this`workUrlError, this`seenWorkUrl,
        this`breakVideoId, this`breakUrlError, this`seenBreakUrl,
        this`seenWorkVideoId, this`seenBreakVideoId,
        this`prevSession, this`fadeActive, this`fadeStep, this`fadeDeck, this`liveFades,
        this`seenStatus, this`seenIdleDeps, this`playersInitialized, workPlayer, breakPlayer
      ensures Valid()
      ensures seenWorkUrl == Some(workUrl) && seenBreakUrl == Some(breakUrl)
      ensures UrlCheck(workVideoId, workUrlError)
        == AfterHydration(workUrl, old(seenWorkUrl), old(UrlCheck(workVideoId, workUrlError)), parse)
      ensures UrlCheck(breakVideoId, breakUrlError)
        == AfterHydration(breakUrl, old(seenBreakUrl), old(UrlCheck(breakVideoId, breakUrlError)), parse)
      ensures old(workPlayer.created) ==> workPlayer.created
      ensures old(breakPlayer.created) ==> breakPlayer.created
      ensures seenWorkVideoId == Some(old(workVideoId)) && seenBreakVideoId == Some(old(breakVideoId))
      ensures Setup(Work) == old(AfterLoad(Work, ytApiReady)) && Setup(Break) == old(AfterLoad(Break, ytApiReady))
      ensures TimerEffectsDone(v, old(playersInitialized),
        old(Bookkeeping(prevSession, fadeActive, fadeStep, fadeDeck, seenStatus, seenIdleDeps, playersInitialized)),
        old(AfterUrlEffects(Work, ytApiReady)), old(AfterUrlEffects(Break, ytApiReady)))
    {
      var initialized := playersInitialized;
      ghost var b := Bookkeeping(prevSession, fadeActive, fadeStep, fadeDeck, seenStatus, seenIdleDeps, playersInitialized);
      ghost var work, brk := AfterUrlEffects(Work, ytApiReady), AfterUrlEffects(Break, ytApiReady);
      ghost var workSetup, brkSetup := AfterLoad(Work, ytApiReady), AfterLoad(Break, ytApiReady);
      UrlEffects(ytApiReady);
      assert Bookkeeping(prevSession, fadeActive, fadeStep, fadeDeck, seenStatus, seenIdleDeps, playersInitialized) == b;
      assert Snap(Work) == work && Snap(Break) == brk;
      assert Setup(Work) == workSetup && Setup(Break) == brkSetup;
      TimerEffects(v, initialized);
    }

    /**
     * The pre-create and load effects' outcome for deck `which`, on its id
     * and readiness as they stood before: with the API ready and the players
     * not yet initialized, a deck with a video and no ready player has a new
     * player for it; a ready deck whose id changed has cued the new video;
     * any other deck's player is untouched; a created player stays created.
     */
    twostate predicate Prepared(which: Session, ytApiReady: bool)
      reads this, workPlayer, breakPlayer
    {
      var id, ready := old(Slot(which).id), old(Deck(which).ready);
      var create := ytApiReady && !playersInitialized && id.Some? && !ready;
      var load := old(SeenVideoId(which)) != Some(id) && ready && id.Some?;
      && SeenVideoId(which) == Some(id)
      && (old(Deck(which).created) ==> Deck(which).created)
      && (create ==>
            && Deck(which).created && !Deck(which).ready && Deck(which).atStart
            && Deck(which).videoId == id.value && Deck(which).state == Unstarted)
      && (load ==> Deck(which).videoId == id.value && Deck(which).state == Cued && Deck(which).atStart)
      && (!create && !load ==> unchanged(Deck(which)))
      && Snap(which) == old(AfterUrlEffects(which, ytApiReady))
      && Setup(which) == old(AfterLoad(which, ytApiReady))
    }

    /**
     * Deck `which`'s play state and volume once a render's URL effects have
     * run from the current state: a new player is unstarted at full volume,
     * a cued one keeps its volume, and any other is as it was.
     */
    ghost function AfterUrlEffects(which: Session, ytApiReady: bool): DeckSnapshot
      reads this, workPlayer, breakPlayer
    {
      var id, ready := Slot(which).id, Deck(which).ready;
      if ytApiReady && !playersInitialized && id.Some? && !ready then DeckSnapshot(Unstarted, 100)
      else if SeenVideoId(which) != Some(id) && ready && id.Some? then DeckSnapshot(Cued, Deck(which).volume)
      else Snap(which)
    }

    /**
     * Deck `which`'s player once a render's URL effects have run from the
     * current state: a new player for the deck's video, not yet ready; a
     * ready player that has cued the deck's new video; or the player as it is.
     */
    ghost function AfterLoad(which: Session, ytApiReady: bool): DeckSetup
      reads this, workPlayer, breakPlayer
    {
      var id, ready := Slot(which).id, Deck(which).ready;
      if ytApiReady && !playersInitialized && id.Some? && !ready then DeckSetup(true, false, id.value)
      else if SeenVideoId(which) != Some(id) && ready && id.Some? then DeckSetup(true, true, id.value)
      else Setup(which)
    }

    /**
     * The hydration, pre-create and load effects of one render, for both
     * decks. The two decks' effects touch disjoint state and read the state
     * as it was when the render began, so each deck's three effects run
     * together here.
     */
    method UrlEffects(ytApiReady: bool)
      requires Valid()
      modifies this`workVideoId, this`workUrlError, this`seenWorkUrl,
        this`breakVideoId, this`breakUrlError, this`seenBreakUrl,
        this`seenWorkVideoId, this`seenBreakVideoId, workPlayer, breakPlayer
      ensures Valid()
      ensures seenWorkUrl == Some(workUrl) && seenBreakUrl == Some(breakUrl)
      ensures UrlCheck(workVideoId, workUrlError)
        == AfterHydration(workUrl, old(seenWorkUrl), old(UrlCheck(workVideoId, workUrlError)), parse)
      ensures UrlCheck(breakVideoId, breakUrlError)
        == AfterHydration(breakUrl, old(seenBreakUrl), old(UrlCheck(breakVideoId, breakUrlError)), parse)
      ensures Prepared(Work, ytApiReady) && Prepared(Break, ytApiReady)
      ensures Snap(Work) == old(AfterUrlEffects(Work, ytApiReady)) && Snap(Break) == old(AfterUrlEffects(Break, ytApiReady))
      ensures Setup(Work) == old(AfterLoad(Work, ytApiReady)) && Setup(Break) == old(AfterLoad(Break, ytApiReady))
      ensures seenWorkVideoId == Some(old(workVideoId)) && seenBreakVideoId == Some(old(breakVideoId))
    {
      DeckEffects(Work, ytApiReady);
      DeckEffects(Break, ytApiReady);
    }

    /** One deck's hydration, pre-create and load effects; the other deck is not touched. */
    method DeckEffects(which: Session, ytApiReady: bool)
      requires Valid()
      modifies this`workVideoId, this`workUrlError, this`seenWorkUrl,
        this`breakVideoId, this`breakUrlError, this`seenBreakUrl,
        this`seenWorkVideoId, this`seenBreakVideoId, Deck(which)
      ensures Valid()
      ensures SeenUrl(which) == Some(Url(which))
      ensures Slot(which) == AfterHydration(Url(which), old(SeenUrl(which)), old(Slot(which)), parse)
      ensures Prepared(which, ytApiReady)
      ensures Slot(Other(which)) == old(Slot(Other(which))) && SeenUrl(Other(which)) == old(SeenUrl(Other(which)))
      ensures SeenVideoId(Other(which)) == old(SeenVideoId(Other(which)))
    {
      var url, id, ready := Url(which), Slot(which).id, Deck(which).ready;
      ghost var after, setup := AfterUrlEffects(which, ytApiReady), AfterLoad(which, ytApiReady);
      HydrateEffect(which, url);
      PreCreateEffect(which, ytApiReady, playersInitialized, id, ready);
      LoadEffect(which, id, ready);
      assert Snap(which) == after;
      assert Setup(which) == setup;
    }

    /**
     * The timer-driven effects' outcome, from the old state to now, for a
     * render seeing the timer as `v` with the players' initialization as the
     * render found it. The last handled session follows the timer while it
     * runs. On a session change while running, a fade-in starts on the
     * incoming deck, which plays from its start, silent, while the outgoing
     * deck is stopped; without one, no fade-in is restarted and the running
     * deck takes the fade-out volume. A change to running plays the active
     * deck once the players are initialized; a change to paused clears the
     * fade and pauses both decks; a change to idle clears it and stops both,
     * and a completed run un-initializes the players.
     */
    ghost predicate TimerEffectsDone(v: View, initialized: bool, b: Bookkeeping, work: DeckSnapshot, brk: DeckSnapshot)
      reads this, workPlayer, breakPlayer
    {
      var active, other := v.session, Other(v.session);
      var statusChanged := b.seenStatus != Some(v.status);
      var idleChanged := b.seenIdleDeps != Some((v.status, v.isComplete));
      && seenStatus == Some(v.status) && seenIdleDeps == Some((v.status, v.isComplete))
      && prevSession == (if v.status == Running then v.session else b.prevSession)
      && (!(v.status == Idle && idleChanged) ==> playersInitialized == b.playersInitialized)
      && (v.status == Running && v.session != b.prevSession ==>
            && fadeActive && fadeStep == 0 && fadeDeck == v.session
            && (Deck(other).created ==> Deck(other).state == Stopped)
            && (Deck(active).created ==>
                  Deck(active).volume == 0 && Deck(active).atStart && Deck(active).state == Playing))
      && (v.status == Running && v.session == b.prevSession ==>
            && fadeActive == b.fadeActive && fadeStep == b.fadeStep && fadeDeck == b.fadeDeck
            && Snap(other) == Pick(other, work, brk)
            && Deck(active).volume ==
                 (if FadeOutTarget(v.remaining).Some? && Deck(active).created
                  then FadeOutTarget(v.remaining).value else Pick(active, work, brk).volume)
            && Deck(active).state ==
                 (if statusChanged && initialized && Deck(active).created
                  then Playing else Pick(active, work, brk).state))
      && (v.status != Running ==>
            && fadeStep == b.fadeStep && fadeDeck == b.fadeDeck
            && workPlayer.volume == work.volume && breakPlayer.volume == brk.volume)
      && (v.status == Status.Paused && statusChanged ==>
            && !fadeActive
            && (workPlayer.created ==> workPlayer.state == PlayState.Paused)
            && (breakPlayer.created ==> breakPlayer.state == PlayState.Paused))
      && (v.status == Idle && idleChanged ==>
            && !fadeActive
            && (workPlayer.created ==> workPlayer.state == Stopped)
            && (breakPlayer.created ==> breakPlayer.state == Stopped)
            && playersInitialized == (b.playersInitialized && !v.isComplete))
      && ((v.status == Status.Paused && !statusChanged) || (v.status == Idle && !idleChanged) ==>
            fadeActive == b.fadeActive && Snap(Work) == work && Snap(Break) == brk)
    }

    /**
     * The fade-out, transition, pause/resume and idle effects of one render;
     * they touch only the players' volume, play state and playhead.
     */
    method TimerEffects(v: View, initialized: bool)
      requires Valid()
      modifies this`prevSession, this`fadeActive, this`fadeStep, this`fadeDeck, this`liveFades,
        this`seenStatus, this`seenIdleDeps, this`playersInitialized,
        workPlayer`state, workPlayer`volume, workPlayer`atStart,
        breakPlayer`state, breakPlayer`volume, breakPlayer`atStart
      ensures Valid()
      ensures TimerEffectsDone(v, initialized,
        old(Bookkeeping(prevSession, fadeActive, fadeStep, fadeDeck, seenStatus, seenIdleDeps, playersInitialized)),
        old(Snap(Work)), old(Snap(Break)))
      ensures workPlayer.created == old(workPlayer.created) && breakPlayer.created == old(breakPlayer.created)
      ensures Setup(Work) == old(Setup(Work)) && Setup(Break) == old(Setup(Break))
    {
      SessionEffects(v);
      StatusEffects(v, initialized);
    }

    /**
     * The fade-out and transition effects: while running, a session change
     * starts the switch and the fade-in; otherwise the running deck takes
     * the fade-out volume and the fade is left as it was.
     */
    method SessionEffects(v: View)
      requires Valid()
      modifies this`prevSession, this`fadeActive, this`fadeStep, this`fadeDeck, this`liveFades,
        workPlayer`state, workPlayer`volume, workPlayer`atStart,
        breakPlayer`state, breakPlayer`volume, breakPlayer`atStart
      ensures Valid()
      ensures prevSession == (if v.status == Running then v.session else old(prevSession))
      ensures v.status == Running && v.session != old(prevSession) ==>
        && fadeActive && fadeStep == 0 && fadeDeck == v.session
        && (Deck(Other(v.session)).created ==> Deck(Other(v.session)).state == Stopped)
        && (Deck(v.session).created ==>
              Deck(v.session).volume == 0 && Deck(v.session).atStart && Deck(v.session).state == Playing)
      ensures !(v.status == Running && v.session != old(prevSession)) ==>
        && fadeActive == old(fadeActive) && fadeStep == old(fadeStep) && fadeDeck == old(fadeDeck)
        && unchanged(Deck(Other(v.session)))
        && Deck(v.session).state == old(Deck(v.session).state)
        && Deck(v.session).volume ==
             (if v.status == Running && FadeOutTarget(v.remaining).Some? && Deck(v.session).created
              then FadeOutTarget(v.remaining).value else old(Deck(v.session).volume))
    {
      FadeOutEffect(v);
      TransitionEffect(v);
    }

    /**
     * The pause/resume and idle effects: each records the dependencies it
     * saw, and acts only on a change of them.
     */
    method StatusEffects(v: View, initialized: bool)
      requires Valid()
      modifies this`fadeActive, this`liveFades, this`seenStatus, this`seenIdleDeps, this`playersInitialized,
        workPlayer`state, breakPlayer`state
      ensures Valid()
      ensures seenStatus == Some(v.status) && seenIdleDeps == Some((v.status, v.isComplete))
      ensures !(v.status == Idle && old(seenIdleDeps) != Some((Idle, v.isComplete))) ==>
        playersInitialized == old(playersInitialized)
      ensures v.status == Running ==>
        && fadeActive == old(fadeActive) && unchanged(Deck(Other(v.session)))
        && Deck(v.session).state ==
             (if old(seenStatus) != Some(Running) && initialized && Deck(v.session).created
              then Playing else old(Deck(v.session).state))
      ensures v.status == Status.Paused && old(seenStatus) != Some(Status.Paused) ==>
        && !fadeActive
        && (workPlayer.created ==> workPlayer.state == PlayState.Paused)
        && (breakPlayer.created ==> breakPlayer.state == PlayState.Paused)
      ensures v.status == Idle && old(seenIdleDeps) != Some((Idle, v.isComplete)) ==>
        && !fadeActive
        && (workPlayer.created ==> workPlayer.state == Stopped)
        && (breakPlayer.created ==> breakPlayer.state == Stopped)
        && playersInitialized == (old(playersInitialized) && !v.isComplete)
      ensures ((v.status == Status.Paused && old(seenStatus) == Some(Status.Paused))
               || (v.status == Idle && old(seenIdleDeps) == Some((Idle, v.isComplete)))) ==>
        fadeActive == old(fadeActive) && unchanged(workPlayer, breakPlayer)
    {
      PauseResumeEffect(v, initialized);
      IdleEffect(v);
    }

    /** Unmount: clear the fade and destroy both players. */
    method Unmount()
      requires Valid()
      modifies this`fadeActive, this`liveFades, workPlayer, breakPlayer
      ensures Valid()
      ensures !fadeActive && liveFades == 0
      ensures !workPlayer.created && !breakPlayer.created
    {
      ClearFadeIn();
      workPlayer.Destroy();
      breakPlayer.Destroy();
    }
  }

  /**
   * A fade-in left to run: twenty ticks of the interval bring the incoming
   * deck from silence up through 5, 10, ... to full volume, after which the
   * interval has cleared itself.
   */
  method FadeInCompletes(d: DualDeck)
    requires d.Valid() && d.fadeActive && d.fadeStep == 0 && d.Deck(d.fadeDeck).created
    modifies d`fadeStep, d`fadeActive, d`liveFades, d.workPlayer`volume, d.breakPlayer`volume
    ensures d.Valid() && !d.fadeActive && d.liveFades == 0
    ensures d.Deck(d.fadeDeck).volume == 100
  {
    var k := 0;
    while k < FADE_IN_STEPS
      invariant 0 <= k <= FADE_IN_STEPS
      invariant d.Valid() && d.fadeStep == k && d.Deck(d.fadeDeck).created
      invariant d.fadeActive <==> k < FADE_IN_STEPS
      invariant k > 0 ==> d.Deck(d.fadeDeck).volume == 5 * k
    {
      d.FadeInStep();
      k := k + 1;
    }
  }

  /**
   * A session change seen by a render while running, then the fade-in left
   * to run: the incoming deck, if it has a player, ends up playing at full
   * volume with the fade-in cleared, and the outgoing deck is stopped.
   */
  method SessionChangeFadesIn(d: DualDeck, v: View, ytApiReady: bool)
    requires d.Valid() && v.status == Running && v.session != d.prevSession
    requires d.Deck(v.session).created
    modifies d, d.workPlayer, d.breakPlayer
    ensures d.Valid() && !d.fadeActive && d.prevSession == v.session
    ensures d.Deck(v.session).volume == 100 && d.Deck(v.session).state == Playing
    ensures d.Deck(Other(v.session)).created ==> d.Deck(Other(v.session)).state == Stopped
  {
    d.Render(v, ytApiReady);
    FadeInCompletes(d);
  }

  /**
   * A render that sees the timer resume in the session it was paused in,
   * with the players initialized and no new video to cue: the active deck
   * plays, and the other deck keeps its play state and volume.
   */
  method ResumePlaysActiveDeckOnly(d: DualDeck, v: View, ytApiReady: bool)
    requires d.Valid() && v.status == Running && d.seenStatus == Some(Status.Paused) && v.session == d.prevSession
    requires d.playersInitialized && d.Deck(v.session).created
    requires d.seenWorkVideoId == Some(d.workVideoId) && d.seenBreakVideoId == Some(d.breakVideoId)
    modifies d, d.workPlayer, d.breakPlayer
    ensures d.Deck(v.session).state == Playing
    ensures d.Deck(Other(v.session)).state == old(d.Deck(Other(v.session)).state)
    ensures d.Deck(Other(v.session)).volume == old(d.Deck(Other(v.session)).volume)
  {
    d.Render(v, ytApiReady);
  }

  /**
   * A render with the API loaded, before the players are initialized, of a
   * work deck that has a video and no ready player: the work deck has a new
   * player for that video, not yet ready, and the video is recorded as the
   * load effect's dependency.
   */
  method RenderCreatesMissingPlayer(d: DualDeck, v: View, id: string)
    requires d.Valid() && !d.playersInitialized && d.workVideoId == Some(id) && !d.workPlayer.ready
    modifies d, d.workPlayer, d.breakPlayer
    ensures d.workPlayer.created && !d.workPlayer.ready && d.workPlayer.videoId == id
    ensures d.seenWorkVideoId == Some(Some(id))
  {
    d.Render(v, true);
  }
}
