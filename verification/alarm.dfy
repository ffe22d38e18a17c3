/**
 * The end-of-session alarm (src/hooks/useAlarm.ts): a chime that sounds once
 * per session when three seconds or fewer remain. A "has played" flag keeps
 * it to one chime; a change of session clears the flag. Playing the audio is
 * the `fired` result of a render.
 *
 * The two effects are methods with explicit change detection, run in
 * declaration order by `Render`: the reset effect (deps: the session) before
 * the trigger effect (deps: remaining seconds, status, enabled).
 */
module Alarm {
  import opened Wrappers
  import opened Timer

  const ALARM_TRIGGER_SECONDS: int := 3

  /** The trigger's condition: enabled, running, not yet played, and 0 < remaining <= 3. */
  predicate ShouldFire(enabled: bool, status: Status, hasPlayed: bool, remaining: int) {
    enabled && status == Running && !hasPlayed && 0 < remaining <= ALARM_TRIGGER_SECONDS
  }

  class AlarmTrigger {
    var alarmEnabled: bool
    var hasPlayed: bool
    var seenSession: Option<Session>
    var seenTriggerDeps: Option<(int, Status, bool)>

    /** Mount, with the stored setting if there is one; the alarm is on by default. */
    constructor (stored: Option<bool>)
      ensures alarmEnabled == (stored.None? || stored.value)
      ensures !hasPlayed && seenSession.None? && seenTriggerDeps.None?
    {
      alarmEnabled := if stored.Some? then stored.value else true;
      hasPlayed := false;
      seenSession := None;
      seenTriggerDeps := None;
    }

    /** `setAlarmEnabled`. */
    method SetAlarmEnabled(enabled: bool)
      modifies this`alarmEnabled
      ensures alarmEnabled == enabled
    {
      alarmEnabled := enabled;
    }

    /**
     * One render seeing the timer as `v`. The flag is cleared when the
     * session changed and only then; the alarm fires exactly when the
     * trigger's dependencies changed and `ShouldFire` holds with the flag as
     * the reset left it, and firing sets the flag. So once it has played, it
     * stays silent until the session changes, and a disabled alarm never
     * fires and never sets the flag.
     */
    method Render(v: View) returns (fired: bool)
      modifies this`hasPlayed, this`seenSession, this`seenTriggerDeps
      ensures seenSession == Some(v.session)
      ensures seenTriggerDeps == Some((v.remaining, v.status, alarmEnabled))
      ensures var played := old(hasPlayed) && old(seenSession) == Some(v.session);
        && (fired <==> old(seenTriggerDeps) != Some((v.remaining, v.status, alarmEnabled))
                       && ShouldFire(alarmEnabled, v.status, played, v.remaining))
        && hasPlayed == (played || fired)
      ensures fired ==> alarmEnabled && v.status == Running && 0 < v.remaining <= ALARM_TRIGGER_SECONDS
      ensures old(hasPlayed) && old(seenSession) == Some(v.session) ==> !fired && hasPlayed
      ensures !alarmEnabled ==> !fired
    {
      if seenSession != Some(v.session) {
        seenSession := Some(v.session);
        hasPlayed := false;
      }
      fired := false;
      var deps := (v.remaining, v.status, alarmEnabled);
      if seenTriggerDeps != Some(deps) {
        seenTriggerDeps := Some(deps);
        if !alarmEnabled || v.status != Running || hasPlayed {
          return;
        }
        if v.remaining <= ALARM_TRIGGER_SECONDS && v.remaining > 0 {
          hasPlayed := true;
          fired := true;
        }
      }
    }
  }

  /**
   * However many renders a session goes through (here two, with any views of
   * the same session), the alarm sounds at most once.
   */
  method AtMostOncePerSession(a: AlarmTrigger, v1: View, v2: View) returns (first: bool, second: bool)
    requires v1.session == v2.session
    modifies a
    ensures !(first && second)
  {
    first := a.Render(v1);
    second := a.Render(v2);
  }
}
