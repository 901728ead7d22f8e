/** One toast on screen. A toast that is not a loading toast and has a positive duration
    closes itself when its timer runs out; any other toast except a loading one can be closed
    with its button. Closing first marks the toast as exiting, and only when the 300 ms exit
    timer fires is `onClose` called, which removes the notification. Timers are events. */
module Toast {
  import opened Common
  import opened NotificationContext

  const DefaultDuration := 3000

  /** The duration a toast runs with: a missing one defaults to 3000. */
  function EffectiveDuration(duration: Option<int>): (d: int)
    ensures duration.None? ==> d == 3000
    ensures duration.Some? ==> d == duration.value
  {
    duration.GetOr(DefaultDuration)
  }

  /** The auto-dismiss timer is set for every kind but loading, when the duration is
      positive. */
  predicate AutoDismisses(kind: Kind, duration: int)
    ensures AutoDismisses(kind, duration) ==> HasCloseButton(kind)
  {
    kind != Loading && duration > 0
  }

  /** Loading toasts have no close button. */
  predicate HasCloseButton(kind: Kind)
    ensures HasCloseButton(kind) <==> IconFor(kind).Glyph?
  {
    kind != Loading
  }

  datatype Icon = Glyph(symbol: string) | Spinner

  function IconFor(kind: Kind): (icon: Icon)
    ensures icon == Spinner <==> kind == Loading
  {
    match kind
    case Success => Glyph("✅")
    case Error => Glyph("❌")
    case Loading => Spinner
    case Info => Glyph("ℹ️")
  }

  /** Every kind has its own icon. */
  lemma IconsDistinct(a: Kind, b: Kind)
    ensures a != b ==> IconFor(a) != IconFor(b)
  {
  }

  /** What the notification center's toasts do: success, error and info toasts close
      themselves (after 3000, 5000 and 3000 ms), loading toasts never do and have no close
      button, so only their dismiss function removes them. */
  lemma ShownKindsAndTimers()
    ensures AutoDismisses(Success, EffectiveDuration(Some(SuccessDuration)))
    ensures AutoDismisses(Error, EffectiveDuration(Some(ErrorDuration)))
    ensures AutoDismisses(Info, EffectiveDuration(Some(InfoDuration)))
    ensures !AutoDismisses(Loading, EffectiveDuration(None)) && !HasCloseButton(Loading)
    ensures EffectiveDuration(Some(ErrorDuration)) > EffectiveDuration(Some(SuccessDuration))
  {
  }

  class ToastView {
    const kind: Kind
    const duration: int
    var isExiting: bool
    /** Exit timers started by `handleClose` that have not fired yet. */
    var pendingExits: nat
    /** How many times `onClose` has run. */
    var closeCalls: nat
    /** Whether the auto-dismiss timer has already fired. */
    var autoFired: bool

    /** Closing is always exit-first: nothing is removed or scheduled for removal while the
        toast still shows as present, and a loading toast never starts exiting by itself. */
    ghost predicate Valid()
      reads this
      ensures Valid() && kind == Loading ==> pendingExits == 0 && closeCalls == 0 && !autoFired
    {
      ((pendingExits > 0 || closeCalls > 0) ==> isExiting)
      && (kind == Loading ==> !isExiting)
      && (autoFired ==> AutoDismisses(kind, duration))
    }

    constructor(kind: Kind, duration: Option<int>)
      ensures this.kind == kind && this.duration == EffectiveDuration(duration)
      ensures !isExiting && pendingExits == 0 && closeCalls == 0 && !autoFired
      ensures Valid()
    {
      this.kind := kind;
      this.duration := EffectiveDuration(duration);
      isExiting := false;
      pendingExits := 0;
      closeCalls := 0;
      autoFired := false;
    }

    /** `handleClose`: start exiting and set the 300 ms timer for `onClose`. */
    method HandleClose()
      requires Valid() && kind != Loading
      modifies this
      ensures Valid()
      ensures isExiting && pendingExits == old(pendingExits) + 1
      ensures closeCalls == old(closeCalls) && autoFired == old(autoFired)
    {
      isExiting := true;
      pendingExits := pendingExits + 1;
    }

    /** The close button, present on every toast but a loading one. */
    method ClickClose()
      requires Valid() && HasCloseButton(kind)
      modifies this
      ensures Valid() && isExiting && pendingExits == old(pendingExits) + 1
      ensures closeCalls == old(closeCalls)
    {
      HandleClose();
    }

    /** The auto-dismiss timer fires once, and only on a toast that set it. */
    method AutoDismissFires()
      requires Valid() && AutoDismisses(kind, duration) && !autoFired
      modifies this
      ensures Valid() && autoFired && isExiting && pendingExits == old(pendingExits) + 1
      ensures closeCalls == old(closeCalls)
    {
      autoFired := true;
      HandleClose();
    }

    /** An exit timer fires and runs `onClose`; by then the toast was already exiting. */
    method ExitTimerFires()
      requires Valid() && pendingExits > 0
      modifies this
      ensures Valid() && old(isExiting) && isExiting
      ensures pendingExits == old(pendingExits) - 1 && closeCalls == old(closeCalls) + 1
    {
      pendingExits := pendingExits - 1;
      closeCalls := closeCalls + 1;
    }
  }
}
