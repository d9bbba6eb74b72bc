/** The per-stream connection controller (`useHlsPlayer`): a five-state machine
    over `StreamStatus` with one cancellable retry timer and capped exponential
    backoff. */
module HlsPlayer {
  import opened Types

  const InitialRetryDelay: real := 1000.0
  const BackoffFactor: real := 1.5
  const MaxRetryDelay: real := 30000.0

  /** `Math.pow(b, n)` for a whole exponent. */
  function Pow(b: real, n: nat): real
  {
    if n == 0 then 1.0 else b * Pow(b, n - 1)
  }

  /** The wait before retry number `attempt + 1`:
      `min(InitialRetryDelay * BackoffFactor^attempt, MaxRetryDelay)`. */
  function RetryDelay(attempt: nat): real
  {
    var grown := InitialRetryDelay * Pow(BackoffFactor, attempt);
    if grown < MaxRetryDelay then grown else MaxRetryDelay
  }

  lemma {:induction false} PowGrows(n: nat)
    ensures Pow(BackoffFactor, n) >= 1.0
    ensures Pow(BackoffFactor, n + 1) >= Pow(BackoffFactor, n)
  {
    if n > 0 {
      PowGrows(n - 1);
    }
  }

  /** The delay starts at one second and never leaves [1 s, 30 s]. */
  lemma RetryDelayBounds(attempt: nat)
    ensures RetryDelay(0) == InitialRetryDelay
    ensures InitialRetryDelay <= RetryDelay(attempt) <= MaxRetryDelay
  {
    PowGrows(attempt);
  }

  /** A later attempt never waits less than an earlier one. */
  lemma {:induction false} RetryDelayMonotone(m: nat, n: nat)
    requires m <= n
    ensures RetryDelay(m) <= RetryDelay(n)
  {
    if m < n {
      PowGrows(n - 1);
      RetryDelayMonotone(m, n - 1);
    }
  }

  /** The delays for attempts 0 to 8 are 1000, 1500, 2250, 3375, 5062.5,
      7593.75, 11390.625, 17085.9375 and 25628.90625 ms, each larger than the
      one before; from attempt 9 on the delay is the 30 s cap. */
  lemma RetryDelaySchedule(attempt: nat)
    ensures RetryDelay(0) == 1000.0 && RetryDelay(1) == 1500.0 && RetryDelay(2) == 2250.0
    ensures RetryDelay(3) == 3375.0 && RetryDelay(4) == 5062.5 && RetryDelay(5) == 7593.75
    ensures RetryDelay(6) == 11390.625 && RetryDelay(7) == 17085.9375
    ensures RetryDelay(8) == 25628.90625
    ensures attempt < 9 ==> RetryDelay(attempt) < RetryDelay(attempt + 1)
    ensures attempt >= 9 ==> RetryDelay(attempt) == MaxRetryDelay
  {
    assert Pow(BackoffFactor, 1) == 1.5;
    assert Pow(BackoffFactor, 2) == 2.25;
    assert Pow(BackoffFactor, 3) == 3.375;
    assert Pow(BackoffFactor, 4) == 5.0625;
    assert Pow(BackoffFactor, 5) == 7.59375;
    assert Pow(BackoffFactor, 6) == 11.390625;
    assert Pow(BackoffFactor, 7) == 17.0859375;
    assert Pow(BackoffFactor, 8) == 25.62890625;
    assert Pow(BackoffFactor, 9) == 38.443359375;
    if attempt >= 9 {
      PowAtLeast(9, attempt);
    }
  }

  lemma {:induction false} PowAtLeast(m: nat, n: nat)
    requires m <= n
    ensures Pow(BackoffFactor, m) <= Pow(BackoffFactor, n)
  {
    if m < n {
      PowGrows(n - 1);
      PowAtLeast(m, n - 1);
    }
  }

  /** How the media element is driven: by HLS.js, by the browser's own HLS
      support, or by neither. */
  datatype Engine = HlsJs | NativeHls | Unsupported

  /** The `details` field of an HLS.js error event. */
  datatype ErrorDetails =
    | ManifestLoadError | ManifestParsingError | LevelLoadError | InternalException
    | OtherDetails(name: string)

  /** An HLS.js error forces a full refresh when it is fatal or one of the four
      critical categories. */
  predicate ForcesRefresh(fatal: bool, details: ErrorDetails)
  {
    fatal || details in [ManifestLoadError, ManifestParsingError, LevelLoadError, InternalException]
  }

  /** The status the component shows: the last one written, Idle before any. */
  function LastWrite(writes: seq<StreamStatus>): StreamStatus
  {
    if writes == [] then Idle else writes[|writes| - 1]
  }

  /** One `useHlsPlayer` instance. `status` is the committed status that the
      handlers' guards read; `writes` records every `setStatus` in order.
      Timers are identified by the number `setTimeout` returned; `pending`
      maps each armed, not yet fired or cancelled timer to its delay and
      `timerRef` is `retryTimerRef`. `listening` says whether the media-element
      listeners are attached and `hlsActive` whether an HLS.js instance is. */
  class ConnectionController {
    var src: string
    const hasMedia: bool
    const engine: Engine
    var globalRefreshKey: int
    var status: StreamStatus
    var writes: seq<StreamStatus>
    var attempt: nat
    var timerRef: Option<nat>
    var pending: map<nat, real>
    var nextTimerId: nat
    var refreshCount: nat
    var listening: bool
    var hlsActive: bool

    /** The controller's invariant: at most the timer in `timerRef` is pending,
        with the backoff delay of the current attempt, and only while listeners
        are attached and the status is Connecting or Idle; Error is never the
        status a handler leaves behind. */
    ghost predicate Valid()
      reads this
    {
      && Consistent()
      && ((src == "" || !hasMedia) ==> !listening)
    }

    /** Everything in `Valid` but the tie between the source and the listeners,
        which a change of source breaks until the effect re-runs. */
    ghost predicate Consistent()
      reads this
    {
      && status == LastWrite(writes)
      && status != StreamStatus.Error
      && (forall t :: t in pending ==> timerRef == Some(t) && pending[t] == RetryDelay(attempt))
      && (pending != map[] ==> listening && (status == Connecting || status == Idle))
      && (timerRef.Some? ==> timerRef.value < nextTimerId)
      && (hlsActive ==> listening && engine == HlsJs)
    }

    /** Mounting: the hook starts Idle and its effect runs once. */
    constructor (src: string, hasMedia: bool, engine: Engine, globalRefreshKey: int)
      ensures Valid()
      ensures this.src == src && this.hasMedia == hasMedia && this.engine == engine
      ensures this.globalRefreshKey == globalRefreshKey
      ensures attempt == 0 && refreshCount == 0 && pending == map[] && timerRef == None
      ensures (src == "" || !hasMedia) ==> writes == [Idle] && !listening
      ensures src != "" && hasMedia ==>
                listening && hlsActive == (engine == HlsJs) &&
                writes == (if engine == Unsupported then [] else [Connecting])
    {
      this.src := src;
      this.hasMedia := hasMedia;
      this.engine := engine;
      this.globalRefreshKey := globalRefreshKey;
      status := Idle;
      writes := [];
      attempt := 0;
      timerRef := None;
      pending := map[];
      nextTimerId := 1;
      refreshCount := 0;
      listening := false;
      hlsActive := false;
      new;
      Setup();
    }

    /** `setStatus(s)`. */
    method Write(s: StreamStatus)
      modifies this`status, this`writes
      ensures writes == old(writes) + [s] && status == s
    {
      writes := writes + [s];
      status := s;
    }

    /** `clearRetryTimer`: cancel the timer `timerRef` names, if any. */
    method ClearRetryTimer()
      modifies this`timerRef, this`pending
      ensures timerRef == None
      ensures pending == if old(timerRef).Some? then old(pending) - {old(timerRef).value} else old(pending)
    {
      if timerRef.Some? {
        pending := pending - {timerRef.value};
        timerRef := None;
      }
    }

    /** `scheduleRetry`: cancel the pending timer, show Connecting unless the
        committed status already is, and arm one timer with the backoff delay
        of the current attempt. `committed` is the status the handler started
        from (`statusRef.current`). */
    method ScheduleRetry(committed: StreamStatus)
      requires forall t :: t in pending ==> timerRef == Some(t)
      requires timerRef.Some? ==> timerRef.value < nextTimerId
      requires committed == Connecting ==> status == Connecting
      modifies this`timerRef, this`pending, this`nextTimerId, this`status, this`writes
      ensures pending == map[old(nextTimerId) := RetryDelay(attempt)]
      ensures timerRef == Some(old(nextTimerId)) && nextTimerId == old(nextTimerId) + 1
      ensures writes == old(writes) + (if committed == Connecting then [] else [Connecting])
      ensures status == Connecting
    {
      ClearRetryTimer();
      var retryDelay := RetryDelay(attempt);
      if committed != Connecting {
        Write(Connecting);
      }
      timerRef := Some(nextTimerId);
      pending := map[nextTimerId := retryDelay];
      nextTimerId := nextTimerId + 1;
    }

    /** The effect body: Idle without a source or media element; otherwise
        attach HLS.js or the native player (showing Connecting) and add the
        media-element listeners. */
    method Setup()
      requires !listening && !hlsActive && status == LastWrite(writes)
      modifies this`status, this`writes, this`listening, this`hlsActive
      ensures status == LastWrite(writes)
      ensures (src == "" || !hasMedia) ==> writes == old(writes) + [Idle] && !listening && !hlsActive
      ensures src != "" && hasMedia ==>
                && listening && hlsActive == (engine == HlsJs)
                && writes == old(writes) + (if engine == Unsupported then [] else [Connecting])
    {
      if src == "" || !hasMedia {
        Write(Idle);
        return;
      }
      if engine == HlsJs {
        Write(Connecting);
        hlsActive := true;
      } else if engine == NativeHls {
        Write(Connecting);
      }
      listening := true;
    }

    /** The effect's cleanup, present when the effect got past its guard:
        cancel the timer, destroy HLS.js and remove the listeners. */
    method Cleanup()
      requires forall t :: t in pending ==> timerRef == Some(t)
      requires !listening ==> pending == map[] && !hlsActive
      modifies this`timerRef, this`pending, this`hlsActive, this`listening
      ensures pending == map[] && !hlsActive && !listening
      ensures old(listening) ==> timerRef == None
      ensures !old(listening) ==> timerRef == old(timerRef)
    {
      if listening {
        ClearRetryTimer();
        hlsActive := false;
        listening := false;
      }
    }

    /** The effect re-runs: the previous run's cleanup, then the body. */
    method Reinitialize()
      requires Consistent()
      modifies this`timerRef, this`pending, this`hlsActive, this`listening, this`status, this`writes
      ensures Valid()
      ensures pending == map[]
      ensures (src == "" || !hasMedia) ==> writes == old(writes) + [Idle] && !listening
      ensures src != "" && hasMedia ==>
                && listening && hlsActive == (engine == HlsJs)
                && writes == old(writes) + (if engine == Unsupported then [] else [Connecting])
    {
      Cleanup();
      Setup();
    }

    /** `playing`: the stream is Connected; cancel the timer and reset the
        attempt counter. */
    method OnPlaying()
      requires Valid()
      modifies this`status, this`writes, this`timerRef, this`pending, this`attempt
      ensures Valid()
      ensures old(listening) ==>
                status == Connected && writes == old(writes) + [Connected] &&
                attempt == 0 && pending == map[] && timerRef == None
      ensures !old(listening) ==> unchanged(this)
    {
      if listening {
        Write(Connected);
        ClearRetryTimer();
        attempt := 0;
      }
    }

    /** `waiting`: buffering while Connected shows Stalled; no retry. */
    method OnWaiting()
      requires Valid()
      modifies this`status, this`writes
      ensures Valid()
      ensures writes == old(writes) + (if old(listening) && old(status) == Connected then [Stalled] else [])
    {
      if listening && status == Connected {
        Write(Stalled);
      }
    }

    /** `error` on the media element: unless already Error or Connecting,
        show Error and schedule a retry. */
    method OnError()
      requires Valid()
      modifies this`timerRef, this`pending, this`nextTimerId, this`status, this`writes
      ensures Valid()
      ensures var fires := old(listening) && old(status) != StreamStatus.Error && old(status) != Connecting;
              && (fires ==> writes == old(writes) + [StreamStatus.Error, Connecting] &&
                            pending == map[old(nextTimerId) := RetryDelay(attempt)] &&
                            timerRef == Some(old(nextTimerId)))
              && (!fires ==> unchanged(this))
    {
      if listening && status != StreamStatus.Error && status != Connecting {
        var committed := status;
        Write(StreamStatus.Error);
        ScheduleRetry(committed);
      }
    }

    /** `stalled`: data stopped arriving while Connected; show Stalled and
        schedule a retry. */
    method OnStalled()
      requires Valid()
      modifies this`timerRef, this`pending, this`nextTimerId, this`status, this`writes
      ensures Valid()
      ensures var fires := old(listening) && old(status) == Connected;
              && (fires ==> writes == old(writes) + [Stalled, Connecting] &&
                            pending == map[old(nextTimerId) := RetryDelay(attempt)] &&
                            timerRef == Some(old(nextTimerId)))
              && (!fires ==> unchanged(this))
    {
      if listening && status == Connected {
        var committed := status;
        Write(Stalled);
        ScheduleRetry(committed);
      }
    }

    /** `canplay`: try to play; a rejected `play()` (autoplay blocked) shows
        Idle, not Error. */
    method OnCanPlay(playRejected: bool)
      requires Valid()
      modifies this`status, this`writes
      ensures Valid()
      ensures writes == old(writes) + (if old(listening) && playRejected then [Idle] else [])
    {
      if listening && playRejected {
        Write(Idle);
      }
    }

    /** An HLS.js `ERROR` event: fatal or critical errors schedule a retry;
        this path never writes Error. */
    method OnHlsError(fatal: bool, details: ErrorDetails)
      requires Valid()
      modifies this`timerRef, this`pending, this`nextTimerId, this`status, this`writes
      ensures Valid()
      ensures var fires := old(hlsActive) && ForcesRefresh(fatal, details);
              && (fires ==> status == Connecting &&
                            writes == old(writes) + (if old(status) == Connecting then [] else [Connecting]) &&
                            pending == map[old(nextTimerId) := RetryDelay(attempt)] &&
                            timerRef == Some(old(nextTimerId)))
              && (!fires ==> unchanged(this))
    {
      if hlsActive && ForcesRefresh(fatal, details) {
        ScheduleRetry(status);
      }
    }

    /** The timer `t` comes due. A timer that was cancelled does nothing; the
        armed one counts one more attempt and bumps `refreshCount`, which
        re-runs the effect. */
    method FireTimer(t: nat)
      requires Valid()
      modifies this
      ensures Valid()
      ensures old(t in pending) ==>
                && attempt == old(attempt) + 1 && refreshCount == old(refreshCount) + 1
                && pending == map[] && src == old(src) && globalRefreshKey == old(globalRefreshKey)
                && ((src == "" || !hasMedia) ==> writes == old(writes) + [Idle] && !listening)
                && (src != "" && hasMedia ==>
                      listening && writes == old(writes) + (if engine == Unsupported then [] else [Connecting]))
      ensures old(t !in pending) ==> unchanged(this)
    {
      if t in pending {
        pending := pending - {t};
        attempt := attempt + 1;
        refreshCount := refreshCount + 1;
        Reinitialize();
      }
    }

    /** `refreshStream`: the operator's manual refresh cancels the timer,
        resets the attempt counter and re-runs the effect. */
    method RefreshStream()
      requires Valid()
      modifies this
      ensures Valid()
      ensures attempt == 0 && refreshCount == old(refreshCount) + 1 && pending == map[]
      ensures src == old(src) && globalRefreshKey == old(globalRefreshKey)
      ensures (src == "" || !hasMedia) ==> writes == old(writes) + [Idle] && !listening
      ensures src != "" && hasMedia ==>
                listening && writes == old(writes) + (if engine == Unsupported then [] else [Connecting])
    {
      ClearRetryTimer();
      attempt := 0;
      refreshCount := refreshCount + 1;
      Reinitialize();
    }

    /** A new `globalRefreshKey` re-runs the effect, which cancels the timer;
        the attempt counter is left as it is. */
    method SetGlobalRefreshKey(key: int)
      requires Valid()
      modifies this
      ensures Valid()
      ensures globalRefreshKey == key && attempt == old(attempt) && src == old(src)
      ensures refreshCount == old(refreshCount)
      ensures key != old(globalRefreshKey) ==>
                && pending == map[]
                && ((src == "" || !hasMedia) ==> writes == old(writes) + [Idle] && !listening)
                && (src != "" && hasMedia ==>
                      listening && writes == old(writes) + (if engine == Unsupported then [] else [Connecting]))
      ensures key == old(globalRefreshKey) ==> unchanged(this)
    {
      if key != globalRefreshKey {
        globalRefreshKey := key;
        Reinitialize();
      }
    }

    /** A new `src` re-runs the effect; an empty one detaches and shows Idle
        with no listeners and no timer. */
    method SetSource(newSrc: string)
      requires Valid()
      modifies this
      ensures Valid()
      ensures src == newSrc && attempt == old(attempt) && refreshCount == old(refreshCount)
      ensures globalRefreshKey == old(globalRefreshKey)
      ensures newSrc != old(src) ==>
                && pending == map[]
                && ((newSrc == "" || !hasMedia) ==> writes == old(writes) + [Idle] && !listening)
                && (newSrc != "" && hasMedia ==>
                      listening && writes == old(writes) + (if engine == Unsupported then [] else [Connecting]))
      ensures newSrc == old(src) ==> unchanged(this)
    {
      if newSrc != src {
        src := newSrc;
        Reinitialize();
      }
    }

    /** Unmounting runs the cleanup: nothing is pending or listening after. */
    method Unmount()
      requires Valid()
      modifies this`timerRef, this`pending, this`hlsActive, this`listening
      ensures Valid()
      ensures pending == map[] && !listening && !hlsActive
    {
      Cleanup();
    }
  }

  /** At most one retry timer is pending at any time. */
  lemma AtMostOnePendingTimer(c: ConnectionController)
    requires c.Valid()
    ensures |c.pending.Keys| <= 1
  {
    if c.pending != map[] {
      var t := c.timerRef.value;
      assert c.pending.Keys <= {t};
      SubsetOfSingleton(c.pending.Keys, t);
    }
  }

  lemma SubsetOfSingleton(s: set<nat>, t: nat)
    requires s <= {t}
    ensures |s| <= 1
  {
    if s != {} {
      assert s == {t};
    }
  }
}
