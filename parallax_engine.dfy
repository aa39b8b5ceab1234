/**
 * The parallax engine: pointer and device-orientation samples set a target
 * position in [-1, 1] on each axis, every animation frame moves the current
 * position part of the way towards the target, and callers read the current
 * position scaled to a pixel range. The module holds the value-level pieces
 * (clamping, the per-frame smoothing step and its convergence, the input
 * normalisation), the rate limiter that sits in front of both input handlers,
 * and the engine object with its lifecycle.
 *
 * The host environment is explicit: device capabilities and the platform's
 * orientation API are constructor inputs, the clock is a `now` parameter,
 * listener and animation-frame registrations are boolean fields, and the
 * asynchronous permission request is answered by a separate completion
 * method that receives the platform's outcome.
 */
module Parallax {
  import opened Wrappers
  import opened ParallaxMath
  import opened Throttling

  /** What the device reports about itself; an input here. */
  datatype Capabilities = Capabilities(prefersReducedMotion: bool, isLowEndDevice: bool, isMobile: bool)

  /** Which orientation API the platform offers: none, events without a
      permission prompt, or events behind `requestPermission()`. */
  datatype OrientationApi = NoOrientationEvents | OrientationEvents | PermissionGatedOrientationEvents

  datatype PermissionState = Prompt | Granted | Denied

  /** How the platform's permission request settles: a state, or a rejection. */
  datatype PermissionOutcome = Resolved(state: PermissionState) | Rejected

  /** How the promise of `requestGyroscopePermission` settles: fulfilled with
      a boolean, or rejected because the method itself threw. */
  datatype RequestResult = Fulfilled(granted: bool) | ThrewReferenceError

  /** The constructor's options; `None` is a key left out of the object. */
  datatype EngineConfig = EngineConfig(damping: Option<real>, range: Option<real>,
                                       useGyroscope: Option<bool>, throttleMs: Option<int>)

  /** The options `updateConfig` looks at. */
  datatype ConfigUpdate = ConfigUpdate(damping: Option<real>, range: Option<real>)

  const DefaultDamping: real := 0.08
  const DefaultRange: real := 30.0
  const DefaultThrottleMs: int := 16
  const LowPowerDamping: real := 0.15

  datatype PointerSample = PointerSample(clientX: real, clientY: real)
  datatype Viewport = Viewport(innerWidth: real, innerHeight: real)

  /** A device-orientation event; `None` is a null angle. */
  datatype OrientationSample = OrientationSample(beta: Option<real>, gamma: Option<real>)

  datatype Offset = Offset(x: real, y: real)

  /** Every mutable part of an engine, its two rate limiters included. */
  datatype EngineState = EngineState(
    damping: real, range: real,
    targetX: real, targetY: real, currentX: real, currentY: real,
    frameRequested: bool, isActive: bool, isDestroyed: bool,
    gyroscopePermission: PermissionState,
    mouseListener: bool, orientationListener: bool, permissionRequestPending: bool,
    mouseLastTime: int, mousePending: Option<Scheduled<PointerSample>>,
    orientationLastTime: int, orientationPending: Option<Scheduled<OrientationSample>>)

  /** `ParallaxEngine`. Listener and animation-frame registrations are the
      boolean fields `mouseListener`, `orientationListener` and
      `frameRequested`; `permissionRequestPending` is the awaited permission
      request of the gyroscope setup. */
  class ParallaxEngine {
    var damping: real
    var range: real
    const useGyroscope: bool
    const throttleMs: int

    var targetX: real
    var targetY: real
    var currentX: real
    var currentY: real

    var frameRequested: bool
    var isActive: bool
    var isDestroyed: bool
    var gyroscopePermission: PermissionState

    const capabilities: Capabilities
    const orientationApi: OrientationApi

    var mouseListener: bool
    var orientationListener: bool
    var permissionRequestPending: bool

    const mouseThrottle: Throttle<PointerSample>
    const orientationThrottle: Throttle<OrientationSample>

    ghost function State(): EngineState
      reads this, mouseThrottle, orientationThrottle
    {
      EngineState(damping, range, targetX, targetY, currentX, currentY,
                  frameRequested, isActive, isDestroyed, gyroscopePermission,
                  mouseListener, orientationListener, permissionRequestPending,
                  mouseThrottle.lastTime, mouseThrottle.pending,
                  orientationThrottle.lastTime, orientationThrottle.pending)
    }

    /** The lifecycle invariant: the animation loop runs exactly while the
        engine is active. */
    ghost predicate Valid()
      reads this, mouseThrottle, orientationThrottle
    {
      Consistent() && (isActive ==> frameRequested)
    }

    /** The rest of the lifecycle invariant, which also holds in the middle of
        `init` and of a frame: a requested frame belongs to an active engine;
        an inactive engine holds the origin; the pointer listener, and any
        trailing pointer call, exist only on an active desktop engine; reduced
        motion keeps the engine inactive; a destroyed engine is inactive; a
        setup permission request is only outstanding once the engine has been
        started. */
    ghost predicate Consistent()
      reads this, mouseThrottle, orientationThrottle
    {
      && mouseThrottle as object != orientationThrottle as object
      && mouseThrottle.Valid() && orientationThrottle.Valid()
      && mouseThrottle.wait == throttleMs && orientationThrottle.wait == throttleMs
      && (frameRequested ==> isActive)
      && (!isActive ==> targetX == 0.0 && targetY == 0.0 && currentX == 0.0 && currentY == 0.0)
      && (mouseListener ==> isActive && !capabilities.isMobile)
      && (mouseThrottle.pending.Some? ==> mouseListener)
      && (capabilities.prefersReducedMotion ==> !isActive)
      && (isDestroyed ==> !isActive)
      && (permissionRequestPending ==> orientationApi == PermissionGatedOrientationEvents && (isActive || isDestroyed))
    }

    /** What `destroy` promises on top of `Valid()`: a destroyed engine has no
        orientation listener and no trailing orientation call left. */
    ghost predicate Released()
      reads this, orientationThrottle
    {
      isDestroyed ==> !orientationListener && orientationThrottle.pending == None
    }

    constructor (config: EngineConfig, capabilities: Capabilities, orientationApi: OrientationApi)
      ensures Valid() && Released()
      ensures damping == config.damping.GetOr(DefaultDamping)
      ensures range == config.range.GetOr(DefaultRange)
      ensures useGyroscope == config.useGyroscope.GetOr(true)
      ensures throttleMs == config.throttleMs.GetOr(DefaultThrottleMs)
      ensures this.capabilities == capabilities && this.orientationApi == orientationApi
      ensures targetX == 0.0 && targetY == 0.0 && currentX == 0.0 && currentY == 0.0
      ensures !frameRequested && !isActive && !isDestroyed && gyroscopePermission == Prompt
      ensures !mouseListener && !orientationListener && !permissionRequestPending
      ensures mouseThrottle.lastTime == 0 && mouseThrottle.pending == None
      ensures orientationThrottle.lastTime == 0 && orientationThrottle.pending == None
      ensures fresh(mouseThrottle) && fresh(orientationThrottle)
    {
      damping := config.damping.GetOr(DefaultDamping);
      range := config.range.GetOr(DefaultRange);
      useGyroscope := config.useGyroscope.GetOr(true);
      var wait := config.throttleMs.GetOr(DefaultThrottleMs);
      throttleMs := wait;
      targetX, targetY, currentX, currentY := 0.0, 0.0, 0.0, 0.0;
      frameRequested, isActive, isDestroyed := false, false, false;
      gyroscopePermission := Prompt;
      this.capabilities := capabilities;
      this.orientationApi := orientationApi;
      mouseListener, orientationListener, permissionRequestPending := false, false, false;
      mouseThrottle := new Throttle(wait);
      orientationThrottle := new Throttle(wait);
    }

    /** `isRunning()`: on an engine that keeps its invariant this is just
        `isActive`, and a running engine is neither destroyed nor under
        reduced motion, and has its next frame requested. */
    function IsRunning(): (running: bool)
      requires Valid()
      reads this, mouseThrottle, orientationThrottle
      ensures running <==> isActive
      ensures running ==> !isDestroyed && !capabilities.prefersReducedMotion && frameRequested
    {
      isActive && !isDestroyed
    }

    /** `getOffset(direction)`: each requested axis ("x", "y" or "both") is the
        current position scaled by `range` and clamped to it; the other axis,
        and both for any other direction, are 0. */
    function GetOffset(direction: string := "both"): (r: Offset)
      reads this
      ensures direction == "x" || direction == "both" ==> r.x == AxisOffset(currentX, range)
      ensures direction == "y" || direction == "both" ==> r.y == AxisOffset(currentY, range)
      ensures direction != "x" && direction != "both" ==> r.x == 0.0
      ensures direction != "y" && direction != "both" ==> r.y == 0.0
    {
      var x := if direction == "x" || direction == "both" then Clamp(currentX * range, -range, range) else 0.0;
      var y := if direction == "y" || direction == "both" then Clamp(currentY * range, -range, range) else 0.0;
      Offset(x, y)
    }

    /** `_update`: one animation frame. While active each axis takes one
        smoothing step towards its target and the next frame is requested;
        while inactive nothing happens. */
    method Update()
      requires Consistent()
      modifies this
      ensures Valid() && (old(Released()) ==> Released())
      ensures !old(isActive) ==> State() == old(State())
      ensures old(isActive) ==> State() == old(State()).(
        currentX := LerpStep(old(currentX), targetX, damping),
        currentY := LerpStep(old(currentY), targetY, damping),
        frameRequested := true)
    {
      if !isActive {
        return;
      }
      currentX := LerpStep(currentX, targetX, damping);
      currentY := LerpStep(currentY, targetY, damping);
      frameRequested := true;
    }

    /** The browser runs the requested animation frame. */
    method AnimationFrame()
      requires Valid() && frameRequested
      modifies this
      ensures Valid() && (old(Released()) ==> Released())
      ensures State() == old(State()).(
        currentX := LerpStep(old(currentX), targetX, damping),
        currentY := LerpStep(old(currentY), targetY, damping))
    {
      frameRequested := false;
      Update();
    }

    /** `_initGyroscope` up to its `await`: without orientation events nothing
        happens; without a permission API the listener is attached and the
        permission is granted at once; otherwise the request is left
        outstanding for `CompleteInitGyroscope`. */
    method InitGyroscope()
      requires Consistent() && isActive
      modifies this
      ensures Consistent() && (old(Released()) ==> Released())
      ensures orientationApi == NoOrientationEvents ==> State() == old(State())
      ensures orientationApi == OrientationEvents ==>
        State() == old(State()).(orientationListener := true, gyroscopePermission := Granted)
      ensures orientationApi == PermissionGatedOrientationEvents ==>
        State() == old(State()).(permissionRequestPending := true)
    {
      match orientationApi
      case NoOrientationEvents =>
      case OrientationEvents =>
        orientationListener := true;
        gyroscopePermission := Granted;
      case PermissionGatedOrientationEvents =>
        permissionRequestPending := true;
    }

    /** `init()`: a no-op on a destroyed or already active engine, and under
        reduced motion. Otherwise it switches a low-end device to the faster
        damping, activates the engine, attaches the pointer listener on a
        desktop, starts the gyroscope setup on a mobile device that wants it,
        and runs the first frame (which, from the origin, moves nothing). */
    method Init()
      requires Valid()
      modifies this
      ensures Valid() && (old(Released()) ==> Released())
      ensures IsRunning() <==> !old(isDestroyed) && !capabilities.prefersReducedMotion
      ensures old(isDestroyed) || old(isActive) || capabilities.prefersReducedMotion ==> State() == old(State())
      ensures !old(isDestroyed) && !old(isActive) && !capabilities.prefersReducedMotion ==>
        var gyro := capabilities.isMobile && useGyroscope;
        && damping == (if capabilities.isLowEndDevice then LowPowerDamping else old(damping))
        && State() == old(State()).(
             damping := damping,
             isActive := true,
             frameRequested := true,
             mouseListener := !capabilities.isMobile,
             orientationListener := old(orientationListener) || (gyro && orientationApi == OrientationEvents),
             gyroscopePermission := if gyro && orientationApi == OrientationEvents then Granted else old(gyroscopePermission),
             permissionRequestPending := old(permissionRequestPending) || (gyro && orientationApi == PermissionGatedOrientationEvents))
    {
      if isDestroyed || isActive {
        return;
      }
      if capabilities.prefersReducedMotion {
        return;
      }
      if capabilities.isLowEndDevice {
        damping := LowPowerDamping;
      }
      isActive := true;
      if !capabilities.isMobile {
        mouseListener := true;
      }
      if capabilities.isMobile && useGyroscope {
        InitGyroscope();
      }
      Update();
    }

    /** The continuation of `_initGyroscope` after the platform answers, as
        written: it records the answer (a rejection as `Denied`) and attaches
        the orientation listener on a grant, whether or not the engine has
        been destroyed in the meantime. */
    method CompleteInitGyroscope(outcome: PermissionOutcome)
      requires Valid() && permissionRequestPending
      modifies this
      ensures Valid()
      ensures outcome.Resolved? ==> State() == old(State()).(
        permissionRequestPending := false,
        gyroscopePermission := outcome.state,
        orientationListener := old(orientationListener) || outcome.state == Granted)
      ensures outcome.Rejected? ==> State() == old(State()).(
        permissionRequestPending := false, gyroscopePermission := Denied)
    {
      permissionRequestPending := false;
      match outcome
      case Resolved(permission) =>
        gyroscopePermission := permission;
        if permission == Granted {
          orientationListener := true;
        }
      case Rejected =>
        gyroscopePermission := Denied;
    }

    /** The continuation as evidently intended: an answer that arrives after
        `destroy` is dropped, so a destroyed engine stays released. */
    method CompleteInitGyroscopeChecked(outcome: PermissionOutcome)
      requires Valid() && permissionRequestPending
      modifies this
      ensures Valid() && (old(Released()) ==> Released())
      ensures isDestroyed ==> State() == old(State()).(permissionRequestPending := false)
      ensures !isDestroyed && outcome.Resolved? ==> State() == old(State()).(
        permissionRequestPending := false,
        gyroscopePermission := outcome.state,
        orientationListener := old(orientationListener) || outcome.state == Granted)
      ensures !isDestroyed && outcome.Rejected? ==> State() == old(State()).(
        permissionRequestPending := false, gyroscopePermission := Denied)
    {
      permissionRequestPending := false;
      if isDestroyed {
        return;
      }
      match outcome
      case Resolved(permission) =>
        gyroscopePermission := permission;
        if permission == Granted {
          orientationListener := true;
        }
      case Rejected =>
        gyroscopePermission := Denied;
    }

    /** `requestGyroscopePermission()`, as written, with the platform's answer
        as a parameter. Its first test reads `DeviceOrientationEvent` without
        the `typeof` guard of `_initGyroscope`, so on a platform without
        orientation events it throws and nothing changes. Otherwise only a
        permission-gated platform is asked; a resolved answer is recorded and
        a grant attaches the orientation listener and yields true; a rejection
        changes nothing and yields false. */
    method RequestGyroscopePermission(outcome: PermissionOutcome) returns (result: RequestResult)
      requires Valid()
      modifies this
      ensures Valid()
      ensures orientationApi == NoOrientationEvents <==> result == ThrewReferenceError
      ensures result == Fulfilled(true) <==> orientationApi == PermissionGatedOrientationEvents && outcome == Resolved(Granted)
      ensures orientationApi == PermissionGatedOrientationEvents && outcome.Resolved? ==>
        State() == old(State()).(
          gyroscopePermission := outcome.state,
          orientationListener := old(orientationListener) || outcome.state == Granted)
      ensures orientationApi != PermissionGatedOrientationEvents || outcome.Rejected? ==> State() == old(State())
    {
      match orientationApi
      case NoOrientationEvents =>
        result := ThrewReferenceError;
      case OrientationEvents =>
        result := Fulfilled(false);
      case PermissionGatedOrientationEvents =>
        result := Fulfilled(false);
        match outcome
        case Resolved(permission) =>
          gyroscopePermission := permission;
          if permission == Granted {
            orientationListener := true;
            result := Fulfilled(true);
          }
        case Rejected =>
    }

    /** `requestGyroscopePermission()` as evidently intended: once the platform
        test has passed, a destroyed engine attaches nothing and the answer is
        false. */
    method RequestGyroscopePermissionChecked(outcome: PermissionOutcome) returns (result: RequestResult)
      requires Valid()
      modifies this
      ensures Valid() && (old(Released()) ==> Released())
      ensures orientationApi == NoOrientationEvents <==> result == ThrewReferenceError
      ensures result == Fulfilled(true) <==>
        !isDestroyed && orientationApi == PermissionGatedOrientationEvents && outcome == Resolved(Granted)
      ensures !isDestroyed && orientationApi == PermissionGatedOrientationEvents && outcome.Resolved? ==>
        State() == old(State()).(
          gyroscopePermission := outcome.state,
          orientationListener := old(orientationListener) || outcome.state == Granted)
      ensures isDestroyed || orientationApi != PermissionGatedOrientationEvents || outcome.Rejected? ==> State() == old(State())
    {
      if isDestroyed && orientationApi != NoOrientationEvents {
        result := Fulfilled(false);
        return;
      }
      result := RequestGyroscopePermission(outcome);
    }

    /** `destroy()`: the first call stops the engine for good, cancels the
        animation frame, detaches both listeners, drops both trailing calls
        and returns to the origin; later calls change nothing. */
    method Destroy()
      requires Valid()
      modifies this, mouseThrottle, orientationThrottle
      ensures Valid() && (old(Released()) ==> Released())
      ensures isDestroyed && !IsRunning()
      ensures old(isDestroyed) ==> State() == old(State())
      ensures !old(isDestroyed) ==> Released() && State() == old(State()).(
        isDestroyed := true, isActive := false, frameRequested := false,
        mouseListener := false, orientationListener := false,
        mousePending := None, orientationPending := None,
        targetX := 0.0, targetY := 0.0, currentX := 0.0, currentY := 0.0)
    {
      if isDestroyed {
        return;
      }
      Stop();
      RemoveInputs();
    }

    /** The flag changes and the return to the origin of `destroy`. */
    method Stop()
      modifies this`isDestroyed, this`isActive, this`frameRequested
      modifies this`targetX, this`targetY, this`currentX, this`currentY
      ensures isDestroyed && !isActive && !frameRequested
      ensures targetX == 0.0 && targetY == 0.0 && currentX == 0.0 && currentY == 0.0
    {
      isDestroyed, isActive, frameRequested := true, false, false;
      targetX, targetY, currentX, currentY := 0.0, 0.0, 0.0, 0.0;
    }

    /** The listener removals and throttle cancellations of `destroy`. */
    method RemoveInputs()
      requires mouseThrottle as object != orientationThrottle as object
      requires mouseThrottle.Valid() && orientationThrottle.Valid()
      modifies this`mouseListener, this`orientationListener, mouseThrottle, orientationThrottle
      ensures mouseThrottle.Valid() && orientationThrottle.Valid()
      ensures !mouseListener && !orientationListener
      ensures mouseThrottle.pending == None && mouseThrottle.lastTime == old(mouseThrottle.lastTime)
      ensures orientationThrottle.pending == None && orientationThrottle.lastTime == old(orientationThrottle.lastTime)
    {
      mouseListener, orientationListener := false, false;
      mouseThrottle.Cancel();
      orientationThrottle.Cancel();
    }

    /** `_handleMouseMove`: while active, the pointer position within the
        viewport becomes the target, each axis rescaled to [-1, 1]. */
    method HandleMouseMove(e: PointerSample, view: Viewport)
      requires Valid() && view.innerWidth > 0.0 && view.innerHeight > 0.0
      modifies this
      ensures Valid() && (old(Released()) ==> Released())
      ensures !isActive ==> State() == old(State())
      ensures isActive ==> State() == old(State()).(
        targetX := NormalizePointer(e.clientX, view.innerWidth),
        targetY := NormalizePointer(e.clientY, view.innerHeight))
    {
      if !isActive {
        return;
      }
      targetX := NormalizePointer(e.clientX, view.innerWidth);
      targetY := NormalizePointer(e.clientY, view.innerHeight);
    }

    /** `_handleDeviceOrientation`: while active and with both angles present,
        the left-right tilt sets the horizontal target and the front-back tilt,
        less its resting angle, the vertical one, each clamped to [-1, 1]. */
    method HandleDeviceOrientation(e: OrientationSample)
      requires Valid()
      modifies this
      ensures Valid() && (old(Released()) ==> Released())
      ensures !isActive || e.beta.None? || e.gamma.None? ==> State() == old(State())
      ensures isActive && e.beta.Some? && e.gamma.Some? ==> State() == old(State()).(
        targetX := TiltAxis(e.gamma.value, 0.0),
        targetY := TiltAxis(e.beta.value, BetaBaseline))
    {
      if !isActive {
        return;
      }
      if e.beta.None? || e.gamma.None? {
        return;
      }
      targetX := TiltAxis(e.gamma.value, 0.0);
      targetY := TiltAxis(e.beta.value, BetaBaseline);
    }

    /** A `mousemove` event reaches the throttled pointer handler at `now`. */
    method DispatchMouseMove(now: int, e: PointerSample, view: Viewport)
      requires Valid() && mouseListener && view.innerWidth > 0.0 && view.innerHeight > 0.0
      modifies this, mouseThrottle
      ensures Valid() && (old(Released()) ==> Released())
      ensures var remaining := throttleMs - (now - old(mouseThrottle.lastTime));
        && (remaining <= 0 ==> State() == old(State()).(
              targetX := NormalizePointer(e.clientX, view.innerWidth),
              targetY := NormalizePointer(e.clientY, view.innerHeight),
              mouseLastTime := now, mousePending := None))
        && (remaining > 0 ==> State() == old(State()).(
              mousePending := if old(mouseThrottle.pending).None? then Some(Scheduled(e, remaining))
                              else old(mouseThrottle.pending)))
    {
      var invoked := mouseThrottle.Call(now, e);
      if invoked.Some? {
        HandleMouseMove(invoked.value, view);
      }
    }

    /** The trailing pointer call's timer runs out at `now`; the handler reads
        the viewport as it is then. */
    method MouseTimerFires(now: int, view: Viewport)
      requires Valid() && mouseThrottle.pending.Some? && view.innerWidth > 0.0 && view.innerHeight > 0.0
      modifies this, mouseThrottle
      ensures Valid() && (old(Released()) ==> Released())
      ensures var e := old(mouseThrottle.pending).value.args;
        State() == old(State()).(
          targetX := NormalizePointer(e.clientX, view.innerWidth),
          targetY := NormalizePointer(e.clientY, view.innerHeight),
          mouseLastTime := now, mousePending := None)
    {
      var e := mouseThrottle.Fire(now);
      HandleMouseMove(e, view);
    }

    /** A `deviceorientation` event reaches the throttled tilt handler at `now`. */
    method DispatchDeviceOrientation(now: int, e: OrientationSample)
      requires Valid() && orientationListener
      modifies this, orientationThrottle
      ensures Valid() && (old(Released()) ==> Released())
      ensures var remaining := throttleMs - (now - old(orientationThrottle.lastTime));
        var moved := isActive && e.beta.Some? && e.gamma.Some?;
        && (remaining <= 0 && moved ==> State() == old(State()).(
              targetX := TiltAxis(e.gamma.value, 0.0),
              targetY := TiltAxis(e.beta.value, BetaBaseline),
              orientationLastTime := now, orientationPending := None))
        && (remaining <= 0 && !moved ==> State() == old(State()).(
              orientationLastTime := now, orientationPending := None))
        && (remaining > 0 ==> State() == old(State()).(
              orientationPending := if old(orientationThrottle.pending).None? then Some(Scheduled(e, remaining))
                                    else old(orientationThrottle.pending)))
    {
      var invoked := orientationThrottle.Call(now, e);
      if invoked.Some? {
        HandleDeviceOrientation(invoked.value);
      }
    }

    /** The trailing tilt call's timer runs out at `now`. */
    method OrientationTimerFires(now: int)
      requires Valid() && orientationThrottle.pending.Some?
      modifies this, orientationThrottle
      ensures Valid() && (old(Released()) ==> Released())
      ensures var e := old(orientationThrottle.pending).value.args;
        var moved := isActive && e.beta.Some? && e.gamma.Some?;
        && (moved ==> State() == old(State()).(
              targetX := TiltAxis(e.gamma.value, 0.0),
              targetY := TiltAxis(e.beta.value, BetaBaseline),
              orientationLastTime := now, orientationPending := None))
        && (!moved ==> State() == old(State()).(orientationLastTime := now, orientationPending := None))
    {
      var e := orientationThrottle.Fire(now);
      HandleDeviceOrientation(e);
    }

    /** `updateConfig(config)`: overwrites the settings that are given and
        nothing else. */
    method UpdateConfig(config: ConfigUpdate)
      requires Valid()
      modifies this
      ensures Valid() && (old(Released()) ==> Released())
      ensures State() == old(State()).(
        damping := config.damping.GetOr(old(damping)),
        range := config.range.GetOr(old(range)))
    {
      if config.damping.Some? {
        damping := config.damping.value;
      }
      if config.range.Some? {
        range := config.range.value;
      }
    }
  }

  // ---------------------------------------------------------------------
  // A permission grant that arrives after `destroy`

  /** The configuration with every setting left at its default. */
  const Defaults := EngineConfig(None, None, None, None)

  /** A phone without reduced motion whose orientation events sit behind a
      permission prompt. */
  const GatedPhone := Capabilities(false, false, true)

  /** As written: the engine is started, the setup's permission prompt is
      still open when the engine is destroyed, and the user then grants it.
      The destroyed engine ends up with an orientation listener that nothing
      will remove. */
  method LateSetupGrantLeaksListener() returns (e: ParallaxEngine)
    ensures e.isDestroyed && e.orientationListener && !e.Released()
  {
    e := new ParallaxEngine(Defaults, GatedPhone, PermissionGatedOrientationEvents);
    e.Init();
    e.Destroy();
    e.CompleteInitGyroscope(Resolved(Granted));
  }

  /** As intended: the same sequence with the answer dropped leaves the
      destroyed engine without a listener. */
  method LateSetupGrantDropped() returns (e: ParallaxEngine)
    ensures e.isDestroyed && !e.orientationListener && e.Released()
  {
    e := new ParallaxEngine(Defaults, GatedPhone, PermissionGatedOrientationEvents);
    e.Init();
    e.Destroy();
    e.CompleteInitGyroscopeChecked(Resolved(Granted));
  }

  /** As written: a permission request answered after `destroy` attaches the
      orientation listener to the destroyed engine and reports success. */
  method LateRequestGrantLeaksListener() returns (e: ParallaxEngine, result: RequestResult)
    ensures result == Fulfilled(true) && e.isDestroyed && e.orientationListener && !e.Released()
  {
    e := new ParallaxEngine(Defaults, GatedPhone, PermissionGatedOrientationEvents);
    e.Destroy();
    result := e.RequestGyroscopePermission(Resolved(Granted));
  }

  /** As intended: the same request on a destroyed engine attaches nothing
      and reports failure. */
  method LateRequestGrantRefused() returns (e: ParallaxEngine, result: RequestResult)
    ensures result == Fulfilled(false) && e.isDestroyed && !e.orientationListener && e.Released()
  {
    e := new ParallaxEngine(Defaults, GatedPhone, PermissionGatedOrientationEvents);
    e.Destroy();
    result := e.RequestGyroscopePermissionChecked(Resolved(Granted));
  }
}
