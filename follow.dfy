/**
 * The follow-the-user state machine (src/core/followmanage.ts): a module-level
 * mode, switched by idempotent enable/disable calls, a toggle, and a hook that
 * cancels following when the user takes over. Each real transition writes one
 * line to the console, modelled here as `log`.
 */
module FollowManager {

  datatype FollowMode = Idle | FollowUser

  const ENABLED_MESSAGE: string := "[FollowManager] FOLLOW_USER enabled"
  const DISABLED_MESSAGE: string := "[FollowManager] Follow disabled"
  const CANCELLED_MESSAGE: string := "[FollowManager] Cancelled due to user interaction"

  /** The other follow mode. */
  function Flipped(m: FollowMode): (r: FollowMode)
    ensures r != m
  {
    if m == FollowUser then Idle else FollowUser
  }

  /** Flipping twice gives back the mode one started from. */
  lemma FlippedTwice(m: FollowMode)
    ensures Flipped(Flipped(m)) == m
  {
  }

  class Follow {
    var mode: FollowMode
    var log: seq<string>

    /** The module starts out idle, having logged nothing. */
    constructor ()
      ensures mode == Idle && log == []
    {
      mode := Idle;
      log := [];
    }

    /** `getFollowMode`. */
    function GetFollowMode(): (m: FollowMode)
      reads this
      ensures m == mode
    {
      mode
    }

    /** `isFollowing`: holds exactly in FOLLOW_USER. */
    function IsFollowing(): (b: bool)
      reads this
      ensures b <==> GetFollowMode() == FollowUser
      ensures !b <==> GetFollowMode() == Idle
    {
      mode == FollowUser
    }

    /** `enableFollow`: ends in FOLLOW_USER; a call that finds it there already does nothing. */
    method EnableFollow()
      modifies this
      ensures mode == FollowUser
      ensures IsFollowing() && GetFollowMode() == FollowUser
      ensures old(mode) == FollowUser ==> log == old(log)
      ensures old(mode) == Idle ==> log == old(log) + [ENABLED_MESSAGE]
    {
      if mode == FollowUser {
        return;
      }
      mode := FollowUser;
      log := log + [ENABLED_MESSAGE];
    }

    /** `disableFollow`: ends in IDLE; a call that finds it there already does nothing. */
    method DisableFollow()
      modifies this
      ensures mode == Idle
      ensures !IsFollowing() && GetFollowMode() == Idle
      ensures old(mode) == Idle ==> log == old(log)
      ensures old(mode) == FollowUser ==> log == old(log) + [DISABLED_MESSAGE]
    {
      if mode == Idle {
        return;
      }
      mode := Idle;
      log := log + [DISABLED_MESSAGE];
    }

    /** `toggleFollow`: always a real transition, to the other mode. */
    method ToggleFollow()
      modifies this
      ensures mode == Flipped(old(mode))
      ensures IsFollowing() == !old(IsFollowing())
      ensures log == old(log) + [if old(mode) == FollowUser then DISABLED_MESSAGE else ENABLED_MESSAGE]
    {
      if mode == FollowUser {
        DisableFollow();
      } else {
        EnableFollow();
      }
    }

    /** `cancelFollowOnUserInteraction`: ends in IDLE; when already idle it does nothing. */
    method CancelFollowOnUserInteraction()
      modifies this
      ensures mode == Idle
      ensures !IsFollowing() && GetFollowMode() == Idle
      ensures old(mode) == Idle ==> log == old(log)
      ensures old(mode) == FollowUser ==> log == old(log) + [CANCELLED_MESSAGE]
    {
      if mode == FollowUser {
        mode := Idle;
        log := log + [CANCELLED_MESSAGE];
      }
    }
  }

  /** Toggling twice restores the mode, after logging both transitions. */
  method ToggleTwice(f: Follow)
    modifies f
    ensures f.mode == old(f.mode)
    ensures f.IsFollowing() == old(f.IsFollowing())
    ensures |f.log| == |old(f.log)| + 2
  {
    f.ToggleFollow();
    f.ToggleFollow();
    FlippedTwice(old(f.mode));
  }
}
