/**
 * An abstract media player standing for one deck's YouTube player
 * (src/hooks/useYouTubePlayer.ts). The IFrame API itself is not modelled:
 * the player keeps its volume, its play state and whether its playhead is at
 * the start, and every command is ignored while no player has been created,
 * as the source's optional calls on a null player reference are.
 *
 * There is no media clock: playback does not move the playhead, so
 * `atStart` only changes through creation, cueing and seeking.
 */
module Playback {
  datatype PlayState = Unstarted | Cued | Playing | Paused | Stopped

  /** `Math.max(0, Math.min(100, volume))`, the volume clamp both player backends apply. */
  function ClampVolume(v: int): (r: int)
    ensures 0 <= r <= 100
    ensures 0 <= v <= 100 ==> r == v
    ensures v < 0 ==> r == 0
    ensures v > 100 ==> r == 100
  {
    if v < 0 then 0 else if v > 100 then 100 else v
  }

  class Player {
    /** A player object exists (the source's player reference is not null). */
    var created: bool
    /** The player has reported that it is ready (`isReady`). */
    var ready: bool
    var videoId: string
    var volume: int
    var state: PlayState
    var atStart: bool

    ghost predicate Valid()
      reads this
    {
      (ready ==> created) && 0 <= volume <= 100
    }

    /** No player object yet. */
    constructor ()
      ensures Valid() && !created && !ready
    {
      created, ready := false, false;
      videoId := "";
      volume := 100;
      state := Unstarted;
      atStart := true;
    }

    /**
     * `createPlayer`: any existing player is destroyed and a new one, not yet
     * ready, is created with the video cued at its start. The new player's
     * volume is taken to be full.
     */
    method CreatePlayer(id: string)
      requires Valid()
      modifies this
      ensures Valid()
      ensures created && !ready && videoId == id && state == Unstarted && atStart && volume == 100
    {
      if created {
        created := false;
        ready := false;
      }
      created := true;
      videoId := id;
      volume := 100;
      state := Unstarted;
      atStart := true;
    }

    /** The player's ready event: an existing player becomes ready. */
    method OnReady()
      requires Valid()
      modifies this`ready
      ensures Valid()
      ensures ready == old(created)
      ensures !old(created) ==> ready == old(ready)
    {
      if created {
        ready := true;
      }
    }

    /** `loadVideo`: cue another video at its start; ignored without a player. */
    method LoadVideo(id: string)
      requires Valid()
      modifies this
      ensures Valid()
      ensures old(created) ==> videoId == id && state == Cued && atStart
      ensures !old(created) ==> videoId == old(videoId) && state == old(state) && atStart == old(atStart)
      ensures created == old(created) && ready == old(ready) && volume == old(volume)
    {
      if created {
        videoId := id;
        state := Cued;
        atStart := true;
      }
    }

    /** `play`, `pause` and `stop`: change the play state; ignored without a player. */
    method Play()
      requires Valid()
      modifies this`state
      ensures Valid()
      ensures state == if old(created) then Playing else old(state)
    {
      if created {
        state := Playing;
      }
    }

    method Pause()
      requires Valid()
      modifies this`state
      ensures Valid()
      ensures state == if old(created) then Paused else old(state)
    {
      if created {
        state := Paused;
      }
    }

    method Stop()
      requires Valid()
      modifies this`state
      ensures Valid()
      ensures state == if old(created) then Stopped else old(state)
    {
      if created {
        state := Stopped;
      }
    }

    /** `setVolume`: the clamped volume, always within [0, 100]; ignored without a player. */
    method SetVolume(v: int)
      requires Valid()
      modifies this`volume
      ensures Valid()
      ensures volume == if old(created) then ClampVolume(v) else old(volume)
      ensures old(created) && 0 <= v <= 100 ==> volume == v
    {
      if created {
        volume := ClampVolume(v);
      }
    }

    /** `seekToStart`: the playhead goes back to the start; ignored without a player. */
    method SeekToStart()
      requires Valid()
      modifies this`atStart
      ensures Valid()
      ensures atStart == (old(created) || old(atStart))
    {
      if created {
        atStart := true;
      }
    }

    /** `destroy`: the player is gone and no longer ready. */
    method Destroy()
      requires Valid()
      modifies this`created, this`ready
      ensures Valid()
      ensures !created && !ready
    {
      if created {
        created := false;
        ready := false;
      }
    }
  }
}
