/** The alert-sound service: one shared audio context, created lazily and
    latched once created, resumed on the first user gesture, and used to play
    a short tone only while it is running. */
module AudioAlertService {
  import opened Types

  /** The state of the shared audio context. */
  datatype ContextState = Suspended | Running | Closed

  /** The module's variables and the document listeners it registers. */
  class AlertSound {
    const hasWindow: bool
    var context: Option<ContextState>
    var isInitialized: bool
    var clickListener: bool
    var touchListener: bool
    var tones: nat

    /** A context is created exactly when the latch is set, and the gesture
        listeners come and go together and only once a context exists. */
    predicate Valid()
      reads this
    {
      && (isInitialized <==> context.Some?)
      && clickListener == touchListener
      && (clickListener ==> isInitialized)
    }

    /** Loading the module: both variables start empty, then it initialises
        itself once. */
    constructor (hasWindow: bool, constructorThrows: bool, initialState: ContextState)
      ensures this.hasWindow == hasWindow && Valid() && tones == 0
      ensures isInitialized <==> hasWindow && !constructorThrows
      ensures isInitialized ==> context == Some(initialState) && clickListener && touchListener
    {
      this.hasWindow := hasWindow;
      context := None;
      isInitialized := false;
      clickListener := false;
      touchListener := false;
      tones := 0;
      new;
      InitializeAudio(constructorThrows, initialState);
    }

    /** `initializeAudio`: nothing once initialised or without a window; a
        throwing constructor is caught and leaves the latch down, so a later
        call tries again; otherwise the context is kept, the resume listeners
        are registered and the latch is set. */
    method InitializeAudio(constructorThrows: bool, initialState: ContextState)
      requires Valid()
      modifies this`context, this`isInitialized, this`clickListener, this`touchListener
      ensures Valid()
      ensures old(isInitialized) || !hasWindow || constructorThrows ==>
                context == old(context) && isInitialized == old(isInitialized) &&
                clickListener == old(clickListener) && touchListener == old(touchListener)
      ensures !old(isInitialized) && hasWindow && !constructorThrows ==>
                context == Some(initialState) && isInitialized && clickListener && touchListener
    {
      if isInitialized || !hasWindow {
        return;
      }
      if constructorThrows {
        return;
      }
      context := Some(initialState);
      clickListener := true;
      touchListener := true;
      isInitialized := true;
    }

    /** The first click or touch: a suspended context is asked to resume
        (`resumes` is whether that succeeds), and both listeners are removed. */
    method OnGesture(resumes: bool)
      requires Valid() && clickListener
      modifies this`context, this`clickListener, this`touchListener
      ensures Valid() && !clickListener && !touchListener
      ensures context == if old(context) == Some(Suspended) && resumes then Some(Running) else old(context)
    {
      if context == Some(Suspended) && resumes {
        context := Some(Running);
      }
      clickListener := false;
      touchListener := false;
    }

    /** `playAlertSound`: initialise first if needed, then play one tone only
        when a context exists and is running. */
    method PlayAlertSound(constructorThrows: bool, initialState: ContextState) returns (played: bool)
      requires Valid()
      modifies this`context, this`isInitialized, this`clickListener, this`touchListener, this`tones
      ensures Valid()
      ensures played <==> context == Some(Running)
      ensures tones == old(tones) + (if played then 1 else 0)
      ensures old(isInitialized) ==>
                context == old(context) && clickListener == old(clickListener) && isInitialized
      ensures !old(isInitialized) ==> (isInitialized <==> hasWindow && !constructorThrows)
      ensures !old(isInitialized) && isInitialized ==> context == Some(initialState) && clickListener
    {
      if !isInitialized {
        InitializeAudio(constructorThrows, initialState);
      }
      if context.None? || context.value != Running {
        return false;
      }
      tones := tones + 1;
      played := true;
    }
  }

  /** A browser that starts the context suspended plays nothing until the
      first gesture resumes it, and plays afterwards. */
  method GestureUnlockScenario() returns (before: bool, after: bool)
    ensures !before && after
  {
    var s := new AlertSound(true, false, Suspended);
    before := s.PlayAlertSound(false, Suspended);
    s.OnGesture(true);
    after := s.PlayAlertSound(false, Suspended);
  }

  /** A constructor that throws at load leaves the latch down; the first
      alert then initialises again, and with a running context plays. */
  method RetryAfterThrowScenario() returns (latchedAtLoad: bool, played: bool)
    ensures !latchedAtLoad && played
  {
    var s := new AlertSound(true, true, Running);
    latchedAtLoad := s.isInitialized;
    played := s.PlayAlertSound(false, Running);
  }
}
