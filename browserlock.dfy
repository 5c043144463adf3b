/**
 * The browser zoom lock (src/core/browserlock.ts). Locking turns off the
 * page's native touch gestures and scrolling and attaches a wheel listener
 * that cancels ctrl+wheel (browser zoom); unlocking undoes all three. The DOM
 * is modelled as the two inline style values and the number of times the
 * listener is attached.
 */
module BrowserLock {

  class ZoomLock {
    var isLocked: bool
    var touchAction: string   // document.body.style.touchAction
    var overflow: string      // document.documentElement.style.overflow
    var wheelListeners: nat   // attachments of preventCtrlZoom to the window's "wheel" event

    /** The listener is attached exactly while locked, and only once. */
    ghost predicate Valid()
      reads this
    {
      && wheelListeners == (if isLocked then 1 else 0)
      && (isLocked ==> touchAction == "none" && overflow == "hidden")
    }

    /** The page starts unlocked, with whatever inline styles it has. */
    constructor (touchAction: string, overflow: string)
      ensures Valid()
      ensures !isLocked && wheelListeners == 0
      ensures this.touchAction == touchAction && this.overflow == overflow
    {
      isLocked := false;
      this.touchAction, this.overflow := touchAction, overflow;
      wheelListeners := 0;
    }

    /**
     * `setBrowserZoomLock(lock)`: afterwards the lock is in the requested
     * state. A call that asks for the state already in force changes nothing,
     * so the listener is never attached twice.
     */
    method SetBrowserZoomLock(lock: bool)
      requires Valid()
      modifies this
      ensures Valid()
      ensures isLocked == lock
      ensures lock == old(isLocked) ==>
                touchAction == old(touchAction) && overflow == old(overflow)
                && wheelListeners == old(wheelListeners)
      ensures lock && !old(isLocked) ==> touchAction == "none" && overflow == "hidden"
      ensures !lock && old(isLocked) ==> touchAction == "" && overflow == ""
    {
      if lock == isLocked {
        return;
      }
      if lock {
        touchAction := "none";
        overflow := "hidden";
        wheelListeners := wheelListeners + 1;
      } else {
        touchAction := "";
        overflow := "";
        wheelListeners := wheelListeners - 1;
      }
      isLocked := lock;
    }

    /**
     * Whether a wheel event has its default action (browser zoom) cancelled:
     * `preventCtrlZoom` runs only while attached, and cancels only ctrl+wheel.
     */
    function WheelDefaultPrevented(ctrlKey: bool): (prevented: bool)
      reads this
      requires Valid()
      ensures prevented <==> isLocked && ctrlKey
    {
      wheelListeners > 0 && ctrlKey
    }
  }
}
