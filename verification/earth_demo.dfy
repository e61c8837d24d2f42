/** The input handling of the Earth demo (Demo.cs): keyboard toggles with
    edge detection, the cloud-strength and camera-distance clamps, and the
    idle-cursor timer. */
module EarthDemo {
  import opened XnaMath
  import opened XnaInput

  /** The camera speeds of the demo's Camera struct. */
  const DollyingSpeed: real := 0.10
  const RotationSpeed: real := 0.50
  const MouseWheelSpeed: real := 0.50
  const TrackingSpeed: real := 0.01

  /** The cloud-strength step and its bounds. */
  const CloudStep: real := 0.05
  const MaxCloudStrength: real := 2.0

  /** TimeSpan.FromSeconds(2.0), in ticks of 100 ns. */
  const CursorIdleLimit: int := 20_000_000

  /** A key is down now and was up in the previous snapshot. */
  predicate KeyJustPressed(prev: KeyboardState, current: KeyboardState, key: Key): (r: bool)
    ensures r <==> key in current - prev
  {
    key in current && key !in prev
  }

  /** A key held over two frames is not pressed again in the second. */
  lemma HeldKeyDoesNotRepeat(held: KeyboardState, current: KeyboardState, key: Key)
    requires key in held
    ensures !KeyJustPressed(held, current, key)
    ensures KeyJustPressed(held - {key}, current, key) <==> key in current
  {
  }

  /** Add: one step up, but never above 2. */
  function RaisedCloudStrength(s: real): (r: real)
    ensures r <= MaxCloudStrength
    ensures s + CloudStep <= MaxCloudStrength ==> r == s + CloudStep
    ensures s + CloudStep > MaxCloudStrength ==> r == MaxCloudStrength
  {
    if s + CloudStep > MaxCloudStrength then MaxCloudStrength else s + CloudStep
  }

  /** Subtract: one step down, but never below 0. */
  function LoweredCloudStrength(s: real): (r: real)
    ensures 0.0 <= r
    ensures 0.0 <= s - CloudStep ==> r == s - CloudStep
    ensures s - CloudStep < 0.0 ==> r == 0.0
  {
    if s - CloudStep < 0.0 then 0.0 else s - CloudStep
  }

  /** The cloud strength after one keyboard frame: Add is handled before
      Subtract. */
  function CloudStrengthAfter(prev: KeyboardState, current: KeyboardState, s: real): real {
    var raised := if KeyJustPressed(prev, current, Add) then RaisedCloudStrength(s) else s;
    if KeyJustPressed(prev, current, Subtract) then LoweredCloudStrength(raised) else raised
  }

  /** The strength stays within [0, 2], and a frame that presses exactly one
      of the two keys moves it towards that key's bound. */
  lemma CloudStrengthBounded(prev: KeyboardState, current: KeyboardState, s: real)
    requires 0.0 <= s <= MaxCloudStrength
    ensures 0.0 <= CloudStrengthAfter(prev, current, s) <= MaxCloudStrength
    ensures KeyJustPressed(prev, current, Add) && !KeyJustPressed(prev, current, Subtract) ==>
              s <= CloudStrengthAfter(prev, current, s)
    ensures KeyJustPressed(prev, current, Subtract) && !KeyJustPressed(prev, current, Add) ==>
              CloudStrengthAfter(prev, current, s) <= s
    ensures !KeyJustPressed(prev, current, Add) && !KeyJustPressed(prev, current, Subtract) ==>
              CloudStrengthAfter(prev, current, s) == s
  {
  }

  /** The camera distance after the dolly drag and the wheel, before the clamp. */
  function OffsetBeforeClamp(offset: real, prev: MouseState, current: MouseState): (r: real)
    ensures current.scrollWheelValue == prev.scrollWheelValue && !current.middleButton ==> r == offset
  {
    var dollied := if current.middleButton then offset + (current.y - prev.y) as real * DollyingSpeed else offset;
    if current.scrollWheelValue > prev.scrollWheelValue then dollied - MouseWheelSpeed
    else if current.scrollWheelValue < prev.scrollWheelValue then dollied + MouseWheelSpeed
    else dollied
  }

  /** Wheel up brings the camera 0.5 closer and wheel down takes it 0.5
      away; a middle-button drag moves it a tenth of the vertical motion. */
  lemma WheelAndDolly(offset: real, prev: MouseState, current: MouseState)
    ensures !current.middleButton && current.scrollWheelValue > prev.scrollWheelValue ==>
              OffsetBeforeClamp(offset, prev, current) == offset - 0.5
    ensures !current.middleButton && current.scrollWheelValue < prev.scrollWheelValue ==>
              OffsetBeforeClamp(offset, prev, current) == offset + 0.5
    ensures current.middleButton && current.scrollWheelValue == prev.scrollWheelValue ==>
              OffsetBeforeClamp(offset, prev, current) - offset == (current.y - prev.y) as real / 10.0
  {
  }

  /** The camera distance is clamped to [1.3 R, 4 R] for an Earth of radius R. */
  function ClampOffset(offset: real, radius: real): real {
    if offset <= radius + radius * 0.3 then radius + radius * 0.3
    else if offset > radius * 4.0 then radius * 4.0
    else offset
  }

  /** The clamp lands in [1.3 R, 4 R] and keeps every distance already
      strictly above 1.3 R and at most 4 R. */
  lemma ClampOffsetRange(offset: real, radius: real)
    requires 0.0 <= radius
    ensures 1.3 * radius <= ClampOffset(offset, radius) <= 4.0 * radius
    ensures 1.3 * radius < offset <= 4.0 * radius ==> ClampOffset(offset, radius) == offset
    ensures offset <= 1.3 * radius ==> ClampOffset(offset, radius) == 1.3 * radius
    ensures 4.0 * radius < offset ==> ClampOffset(offset, radius) == 4.0 * radius
  {
  }

  /** The rotation a frame asks for: a right-button drag, unless the middle
      button is down. The vertical motion turns about X, the horizontal
      about Y. */
  function MouseRotation(prev: MouseState, current: MouseState): (r: Vec2)
    ensures current.middleButton || !current.rightButton ==> r == Vec2(0.0, 0.0)
  {
    if !current.middleButton && current.rightButton then
      Vec2((current.y - prev.y) as real * RotationSpeed, (current.x - prev.x) as real * RotationSpeed)
    else Vec2(0.0, 0.0)
  }

  /** The idle timer and the cursor's visibility. */
  datatype Cursor = Cursor(idleTime: int, visible: bool)

  /** A frame without pointer motion adds to the idle time and hides the
      cursor past two seconds; any motion shows it and restarts the timer. */
  function CursorAfter(c: Cursor, prev: MouseState, current: MouseState, elapsed: int): Cursor {
    if current.x - prev.x == 0 && current.y - prev.y == 0 then
      var idle := c.idleTime + elapsed;
      Cursor(idle, if idle > CursorIdleLimit then false else c.visible)
    else Cursor(0, true)
  }

  /** The cursor is visible whenever the pointer moved, and hidden only after
      more than two seconds without motion. */
  lemma CursorVisibility(c: Cursor, prev: MouseState, current: MouseState, elapsed: int)
    requires c.visible || c.idleTime > CursorIdleLimit
    requires 0 <= elapsed
    ensures var n := CursorAfter(c, prev, current, elapsed);
            (n.visible || n.idleTime > CursorIdleLimit) &&
            ((current.x != prev.x || current.y != prev.y) ==> n == Cursor(0, true))
  {
  }

  class Demo {
    /** earth.bounds.Radius, once the model is loaded. */
    var earthRadius: real

    var displayWidth: int
    var displayHeight: int
    var windowWidth: int
    var windowHeight: int
    var isFullScreen: bool
    var preferredBackBufferWidth: int
    var preferredBackBufferHeight: int

    var currentKeyboardState: KeyboardState
    var prevKeyboardState: KeyboardState
    var currentMouseState: MouseState
    var prevMouseState: MouseState

    var exitRequested: bool
    var displayHelp: bool
    var hideClouds: bool
    var cloudStrength: real

    var offset: real
    var rotation: Vec2
    var translate: Vec2

    var mouseIdleElapsedTime: int
    var isMouseVisible: bool

    /** The bounds the demo keeps: the cloud strength within [0, 2] and the
        camera distance within [1.3 R, 4 R]. */
    ghost predicate Valid()
      reads this
    {
      0.0 <= cloudStrength <= MaxCloudStrength &&
      0.0 <= earthRadius && 1.3 * earthRadius <= offset <= 4.0 * earthRadius
    }

    function CursorState(): Cursor
      reads this
    {
      Cursor(mouseIdleElapsedTime, isMouseVisible)
    }

    /** `Demo()`: the cursor starts visible; everything else has its
        default value. */
    constructor ()
      ensures Valid()
      ensures isMouseVisible && mouseIdleElapsedTime == 0
      ensures !exitRequested && !displayHelp && !hideClouds && !isFullScreen
      ensures currentKeyboardState == {} && prevKeyboardState == {}
    {
      earthRadius := 0.0;
      displayWidth, displayHeight := 0, 0;
      windowWidth, windowHeight := 0, 0;
      isFullScreen := false;
      preferredBackBufferWidth, preferredBackBufferHeight := 0, 0;
      currentKeyboardState, prevKeyboardState := {}, {};
      currentMouseState := MouseState(0, 0, false, false, false, 0);
      prevMouseState := MouseState(0, 0, false, false, false, 0);
      exitRequested, displayHelp, hideClouds := false, false, false;
      cloudStrength := 0.0;
      offset := 0.0;
      rotation, translate := Vec2(0.0, 0.0), Vec2(0.0, 0.0);
      mouseIdleElapsedTime := 0;
      isMouseVisible := true;
    }

    /** A window of half the desktop in each direction, and the first
        keyboard snapshot. */
    method Initialize(desktopWidth: int, desktopHeight: int, keyboard: KeyboardState)
      requires 0 <= desktopWidth && 0 <= desktopHeight
      modifies this`displayWidth, this`displayHeight, this`windowWidth, this`windowHeight,
               this`preferredBackBufferWidth, this`preferredBackBufferHeight, this`currentKeyboardState
      ensures displayWidth == desktopWidth && displayHeight == desktopHeight
      ensures 2 * windowWidth <= desktopWidth < 2 * windowWidth + 2
      ensures 2 * windowHeight <= desktopHeight < 2 * windowHeight + 2
      ensures preferredBackBufferWidth == windowWidth && preferredBackBufferHeight == windowHeight
      ensures currentKeyboardState == keyboard
    {
      displayWidth, displayHeight := desktopWidth, desktopHeight;
      windowWidth := desktopWidth / 2;
      windowHeight := desktopHeight / 2;
      preferredBackBufferWidth := windowWidth;
      preferredBackBufferHeight := windowHeight;
      currentKeyboardState := keyboard;
    }

    /** The input-related part of LoadContent: the cloud strength starts at
        1.15 and the camera three Earth radii away. */
    method LoadContent(radius: real)
      requires 0.0 <= radius
      modifies this`earthRadius, this`cloudStrength, this`offset
      ensures Valid()
      ensures earthRadius == radius && cloudStrength == 1.15 && offset == 3.0 * radius
    {
      earthRadius := radius;
      cloudStrength := 1.15;
      offset := radius * 3.0;
    }

    /** Game.Exit: the game loop ends after this frame. */
    method Exit()
      modifies this`exitRequested
      ensures exitRequested
    {
      exitRequested := true;
    }

    /** Flips full-screen mode and asks for the desktop size in full screen
        and the window size otherwise. */
    method ToggleFullScreen()
      modifies this`isFullScreen, this`preferredBackBufferWidth, this`preferredBackBufferHeight
      ensures isFullScreen == !old(isFullScreen)
      ensures isFullScreen ==> preferredBackBufferWidth == displayWidth && preferredBackBufferHeight == displayHeight
      ensures !isFullScreen ==> preferredBackBufferWidth == windowWidth && preferredBackBufferHeight == windowHeight
    {
      var newWidth := 0;
      var newHeight := 0;
      isFullScreen := !isFullScreen;
      if isFullScreen {
        newWidth := displayWidth;
        newHeight := displayHeight;
      } else {
        newWidth := windowWidth;
        newHeight := windowHeight;
      }
      preferredBackBufferWidth := newWidth;
      preferredBackBufferHeight := newHeight;
    }

    /** Shifts the keyboard snapshots and reacts to the keys pressed in this
        frame: Escape exits, H and Space toggle, Alt+Enter switches full
        screen, Add and Subtract step the cloud strength. */
    method ProcessKeyboard(keyboard: KeyboardState)
      requires Valid()
      modifies this`prevKeyboardState, this`currentKeyboardState, this`exitRequested,
               this`displayHelp, this`hideClouds, this`cloudStrength,
               this`isFullScreen, this`preferredBackBufferWidth, this`preferredBackBufferHeight
      ensures Valid()
      ensures prevKeyboardState == old(currentKeyboardState) && currentKeyboardState == keyboard
      ensures exitRequested == (old(exitRequested) || KeyJustPressed(prevKeyboardState, keyboard, Escape))
      ensures displayHelp == (old(displayHelp) != KeyJustPressed(prevKeyboardState, keyboard, H))
      ensures hideClouds == (old(hideClouds) != KeyJustPressed(prevKeyboardState, keyboard, Space))
      ensures isFullScreen == (old(isFullScreen) !=
                (KeyJustPressed(prevKeyboardState, keyboard, Enter) && (LeftAlt in keyboard || RightAlt in keyboard)))
      ensures cloudStrength == CloudStrengthAfter(prevKeyboardState, keyboard, old(cloudStrength))
      ensures if isFullScreen == old(isFullScreen) then
                preferredBackBufferWidth == old(preferredBackBufferWidth) &&
                preferredBackBufferHeight == old(preferredBackBufferHeight)
              else if isFullScreen then
                preferredBackBufferWidth == displayWidth && preferredBackBufferHeight == displayHeight
              else
                preferredBackBufferWidth == windowWidth && preferredBackBufferHeight == windowHeight
    {
      prevKeyboardState := currentKeyboardState;
      currentKeyboardState := keyboard;

      RespondToKeys();
      AdjustCloudStrength();
    }

    /** The Escape, H, Alt+Enter and Space keys of ProcessKeyboard. */
    method RespondToKeys()
      modifies this`exitRequested, this`displayHelp, this`hideClouds,
               this`isFullScreen, this`preferredBackBufferWidth, this`preferredBackBufferHeight
      ensures exitRequested == (old(exitRequested) || KeyJustPressed(prevKeyboardState, currentKeyboardState, Escape))
      ensures displayHelp == (old(displayHelp) != KeyJustPressed(prevKeyboardState, currentKeyboardState, H))
      ensures hideClouds == (old(hideClouds) != KeyJustPressed(prevKeyboardState, currentKeyboardState, Space))
      ensures isFullScreen == (old(isFullScreen) !=
                (KeyJustPressed(prevKeyboardState, currentKeyboardState, Enter) &&
                 (LeftAlt in currentKeyboardState || RightAlt in currentKeyboardState)))
      ensures if isFullScreen == old(isFullScreen) then
                preferredBackBufferWidth == old(preferredBackBufferWidth) &&
                preferredBackBufferHeight == old(preferredBackBufferHeight)
              else if isFullScreen then
                preferredBackBufferWidth == displayWidth && preferredBackBufferHeight == displayHeight
              else
                preferredBackBufferWidth == windowWidth && preferredBackBufferHeight == windowHeight
    {
      if KeyJustPressed(prevKeyboardState, currentKeyboardState, Escape) {
        Exit();
      }

      if KeyJustPressed(prevKeyboardState, currentKeyboardState, H) {
        displayHelp := !displayHelp;
      }

      if LeftAlt in currentKeyboardState || RightAlt in currentKeyboardState {
        if KeyJustPressed(prevKeyboardState, currentKeyboardState, Enter) {
          ToggleFullScreen();
        }
      }

      if KeyJustPressed(prevKeyboardState, currentKeyboardState, Space) {
        hideClouds := !hideClouds;
      }

    }

    /** The Add and Subtract keys of ProcessKeyboard. */
    method AdjustCloudStrength()
      requires 0.0 <= cloudStrength <= MaxCloudStrength
      modifies this`cloudStrength
      ensures 0.0 <= cloudStrength <= MaxCloudStrength
      ensures cloudStrength == CloudStrengthAfter(prevKeyboardState, currentKeyboardState, old(cloudStrength))
    {
      if KeyJustPressed(prevKeyboardState, currentKeyboardState, Add) {
        cloudStrength := cloudStrength + CloudStep;
        if cloudStrength > MaxCloudStrength {
          cloudStrength := MaxCloudStrength;
        }
      }

      if KeyJustPressed(prevKeyboardState, currentKeyboardState, Subtract) {
        cloudStrength := cloudStrength - CloudStep;
        if cloudStrength < 0.0 {
          cloudStrength := 0.0;
        }
      }
    }

    /** Shifts the mouse snapshots, turns drags and the wheel into camera
        motion, clamps the camera distance and runs the idle-cursor timer. */
    method ProcessMouse(mouse: MouseState, elapsed: int)
      requires Valid()
      modifies this`prevMouseState, this`currentMouseState, this`translate, this`rotation,
               this`offset, this`mouseIdleElapsedTime, this`isMouseVisible
      ensures Valid()
      ensures prevMouseState == old(currentMouseState) && currentMouseState == mouse
      ensures translate == Vec2(0.0, 0.0)
      ensures rotation == MouseRotation(prevMouseState, mouse)
      ensures offset == ClampOffset(OffsetBeforeClamp(old(offset), prevMouseState, mouse), earthRadius)
      ensures CursorState() == CursorAfter(old(CursorState()), prevMouseState, mouse, elapsed)
    {
      prevMouseState := currentMouseState;
      currentMouseState := mouse;

      translate := Vec2(0.0, 0.0);
      rotation := Vec2(0.0, 0.0);
      MoveCamera();
      ClampCameraOffset();
      TrackIdleCursor(elapsed);
    }

    /** The dolly and rotate drags and the wheel of ProcessMouse. */
    method MoveCamera()
      modifies this`rotation, this`offset
      ensures rotation == (if currentMouseState.middleButton || !currentMouseState.rightButton then old(rotation)
                           else MouseRotation(prevMouseState, currentMouseState))
      ensures offset == OffsetBeforeClamp(old(offset), prevMouseState, currentMouseState)
    {
      var dx := 0.0;
      var dy := 0.0;
      var dz := 0.0;

      if currentMouseState.middleButton {
        dz := (currentMouseState.y - prevMouseState.y) as real;
        dz := dz * DollyingSpeed;
        offset := offset + dz;
      } else if currentMouseState.rightButton {
        dx := (currentMouseState.x - prevMouseState.x) as real;
        dx := dx * RotationSpeed;
        dy := (currentMouseState.y - prevMouseState.y) as real;
        dy := dy * RotationSpeed;
        rotation := Vec2(dy, dx);
      }

      if currentMouseState.scrollWheelValue > prevMouseState.scrollWheelValue {
        offset := offset - MouseWheelSpeed;
      } else if currentMouseState.scrollWheelValue < prevMouseState.scrollWheelValue {
        offset := offset + MouseWheelSpeed;
      }
    }

    /** The camera-distance clamp of ProcessMouse. */
    method ClampCameraOffset()
      requires 0.0 <= earthRadius
      modifies this`offset
      ensures offset == ClampOffset(old(offset), earthRadius)
      ensures 1.3 * earthRadius <= offset <= 4.0 * earthRadius
    {
      ClampOffsetRange(offset, earthRadius);
      if offset <= earthRadius + earthRadius * 0.3 {
        offset := earthRadius + earthRadius * 0.3;
      } else if offset > earthRadius * 4.0 {
        offset := earthRadius * 4.0;
      }
    }

    /** The idle-cursor timer of ProcessMouse. */
    method TrackIdleCursor(elapsed: int)
      modifies this`mouseIdleElapsedTime, this`isMouseVisible
      ensures CursorState() == CursorAfter(old(CursorState()), prevMouseState, currentMouseState, elapsed)
    {
      var deltaX := currentMouseState.x - prevMouseState.x;
      var deltaY := currentMouseState.y - prevMouseState.y;
      var idle := deltaX == 0 && deltaY == 0;

      if idle {
        mouseIdleElapsedTime := mouseIdleElapsedTime + elapsed;
        if mouseIdleElapsedTime > CursorIdleLimit {
          isMouseVisible := false;
        }
      } else {
        isMouseVisible := true;
        mouseIdleElapsedTime := 0;
      }
    }

    /** One frame of input: nothing happens while the window is inactive;
        otherwise the keyboard and then the mouse are processed. */
    method Update(isActive: bool, keyboard: KeyboardState, mouse: MouseState, elapsed: int)
      requires Valid()
      modifies this`prevKeyboardState, this`currentKeyboardState, this`exitRequested,
               this`displayHelp, this`hideClouds, this`cloudStrength,
               this`isFullScreen, this`preferredBackBufferWidth, this`preferredBackBufferHeight,
               this`prevMouseState, this`currentMouseState, this`translate, this`rotation,
               this`offset, this`mouseIdleElapsedTime, this`isMouseVisible
      ensures Valid()
      ensures earthRadius == old(earthRadius)
      ensures displayWidth == old(displayWidth) && displayHeight == old(displayHeight)
      ensures windowWidth == old(windowWidth) && windowHeight == old(windowHeight)
      ensures !isActive ==> unchanged(this)
      ensures isActive ==> prevKeyboardState == old(currentKeyboardState) && currentKeyboardState == keyboard
      ensures isActive ==> exitRequested == (old(exitRequested) || KeyJustPressed(prevKeyboardState, keyboard, Escape))
      ensures isActive ==> displayHelp == (old(displayHelp) != KeyJustPressed(prevKeyboardState, keyboard, H))
      ensures isActive ==> hideClouds == (old(hideClouds) != KeyJustPressed(prevKeyboardState, keyboard, Space))
      ensures isActive ==>
                isFullScreen == (old(isFullScreen) !=
                  (KeyJustPressed(prevKeyboardState, keyboard, Enter) && (LeftAlt in keyboard || RightAlt in keyboard)))
      ensures isActive ==>
                if isFullScreen == old(isFullScreen) then
                  preferredBackBufferWidth == old(preferredBackBufferWidth) &&
                  preferredBackBufferHeight == old(preferredBackBufferHeight)
                else if isFullScreen then
                  preferredBackBufferWidth == displayWidth && preferredBackBufferHeight == displayHeight
                else
                  preferredBackBufferWidth == windowWidth && preferredBackBufferHeight == windowHeight
      ensures isActive ==> cloudStrength == CloudStrengthAfter(prevKeyboardState, keyboard, old(cloudStrength))
      ensures isActive ==> prevMouseState == old(currentMouseState) && currentMouseState == mouse
      ensures isActive ==> translate == Vec2(0.0, 0.0) && rotation == MouseRotation(prevMouseState, mouse)
      ensures isActive ==> offset == ClampOffset(OffsetBeforeClamp(old(offset), prevMouseState, mouse), earthRadius)
      ensures isActive ==> CursorState() == CursorAfter(old(CursorState()), prevMouseState, mouse, elapsed)
    {
      if !isActive {
        return;
      }
      ProcessKeyboard(keyboard);
      ProcessMouse(mouse, elapsed);
    }
  }
}
