/**
 * SocietyWatchFace.Engine: the watch-face engine whose fields the host's
 * lifecycle callbacks update in place. The Android collaborators are reduced
 * to what the engine observes of them: the handler's queue is the list of
 * pending wake delays, invalidate() is a redraw-requested flag, the receiver
 * registration is the list of register/unregister calls made on the host,
 * a bitmap is its dimensions, and clock readings arrive as parameters.
 */
module WatchFace {
  import opened DisplayMode
  import opened Bitmaps
  import opened ClockHands
  import opened TickScheduler
  import JavaArith

  datatype Option<T> = None | Some(value: T)

  /** A call the engine makes on the host for its time-zone broadcast receiver. */
  datatype ReceiverCall = Register | Unregister

  /**
   * The receiver is registered first and then unregistered and registered in
   * turn: never registered twice, never unregistered while not registered.
   */
  predicate Alternating(calls: seq<ReceiverCall>)
  {
    forall i :: 0 <= i < |calls| ==> calls[i] == if i % 2 == 0 then Register else Unregister
  }

  /** A position on the canvas, in pixels. */
  datatype Point = Point(x: real, y: real)

  /**
   * Where drawBitmap puts a hand's top-left corner: the hand's bottom centre
   * sits on the pivot, so the rotation about the pivot swings it around the dial.
   */
  function HandCorner(pivot: Point, hand: Bitmap): (corner: Point)
    ensures corner.x + hand.width as real / 2.0 == pivot.x
    ensures corner.y + hand.height as real == pivot.y
  {
    Point(pivot.x - hand.width as real / 2.0, pivot.y - hand.height as real)
  }

  /**
   * Where drawBitmap puts the face's top-left corner: its centre, halving the
   * size with Java's integer division, sits on the pivot moved by the offsets.
   */
  function FaceCorner(pivot: Point, xOffset: real, yOffset: real, face: Bitmap): (corner: Point)
    ensures corner.x + JavaArith.Div(face.width, 2) as real == pivot.x + xOffset
    ensures corner.y + JavaArith.Div(face.height, 2) as real == pivot.y + yOffset
  {
    Point(pivot.x - JavaArith.Div(face.width, 2) as real + xOffset,
          pivot.y - JavaArith.Div(face.height, 2) as real + yOffset)
  }

  /**
   * What one onDraw puts on the canvas, in drawing order: the surface cleared
   * to black, the background variant, the peek-card mask in ambient mode, the
   * minute hand and then the hour hand, each under its canvas rotation, and
   * the face on top.
   */
  datatype Frame = Frame(
    clearWidth: int, clearHeight: int,
    background: Bitmap,
    peekCardMasked: bool,
    minuteRotation: real, minuteHand: Bitmap, minuteHandCorner: Point,
    hourRotation: real, hourHand: Bitmap, hourHandCorner: Point,
    face: Bitmap, faceCorner: Point)

  class Engine {
    // What the host reports through isVisible() and isInAmbientMode().
    var hostVisible: bool
    var hostAmbient: bool
    // Delays of the MSG_UPDATE_TIME messages pending in mUpdateTimeHandler.
    var pendingWakes: seq<int>
    // Set by invalidate(): a redraw has been requested and not yet drawn.
    var redrawRequested: bool

    var ambient: bool
    var lowBitAmbient: bool
    // Whether mHandPaint draws anti-aliased.
    var handAntiAlias: bool
    var registeredTimeZoneReceiver: bool
    var receiverCalls: seq<ReceiverCall>

    // The clock reading held in mTime.
    var hour: int
    var minute: int
    var minDeg: real
    var hrDeg: real

    var width: int
    var height: int
    var centerX: real
    var centerY: real
    var scale: real
    var scaledXOffset: real
    var scaledYOffset: real

    // One variant per display mode for each visual element.
    var background: array<Bitmap>
    var face: array<Bitmap>
    var hourHand: array<Bitmap>
    var minuteHand: array<Bitmap>

    /**
     * The engine's invariant: four separate variant arrays of three entries,
     * receiver calls that alternate and agree with the registered flag, and
     * the scheduler's one-wake-exactly-when-running promise.
     */
    ghost predicate Valid()
      reads this
    {
      background.Length == VariantCount && face.Length == VariantCount &&
      hourHand.Length == VariantCount && minuteHand.Length == VariantCount &&
      background != face && background != hourHand && background != minuteHand &&
      face != hourHand && face != minuteHand && hourHand != minuteHand &&
      ReceiverConsistent() &&
      Consistent(Tick())
    }

    /** The registered flag agrees with the alternating calls made on the host. */
    predicate ReceiverConsistent()
      reads this
    {
      Alternating(receiverCalls) && registeredTimeZoneReceiver == (|receiverCalls| % 2 == 1)
    }

    /** The part of the state that decides the periodic tick. */
    function Tick(): TickState
      reads this
    {
      TickState(hostVisible, hostAmbient, pendingWakes)
    }

    /**
     * A new engine (field initialisers, onCreate and init): the four variant
     * arrays as loaded, hands anti-aliased, receiver not registered, nothing
     * queued, and the surface size not yet known.
     */
    constructor (backgroundVariants: seq<Bitmap>, faceVariants: seq<Bitmap>,
                 hourHandVariants: seq<Bitmap>, minuteHandVariants: seq<Bitmap>)
      requires |backgroundVariants| == |faceVariants| == VariantCount
      requires |hourHandVariants| == |minuteHandVariants| == VariantCount
      ensures Valid()
      ensures fresh(background) && fresh(face) && fresh(hourHand) && fresh(minuteHand)
      ensures background[..] == backgroundVariants && face[..] == faceVariants
      ensures hourHand[..] == hourHandVariants && minuteHand[..] == minuteHandVariants
      ensures Tick() == Initial && !redrawRequested
      ensures !ambient && !lowBitAmbient && handAntiAlias
      ensures !registeredTimeZoneReceiver && receiverCalls == []
      ensures width == -1 && height == -1
    {
      hostVisible, hostAmbient := false, false;
      pendingWakes := [];
      redrawRequested := false;
      ambient, lowBitAmbient := false, false;
      handAntiAlias := true;
      registeredTimeZoneReceiver := false;
      receiverCalls := [];
      hour, minute := 0, 0;
      minDeg, hrDeg := 0.0, 0.0;
      width, height := -1, -1;
      centerX, centerY, scale := 0.0, 0.0, 0.0;
      scaledXOffset, scaledYOffset := 0.0, 0.0;
      background := new Bitmap[VariantCount](i requires 0 <= i < VariantCount => backgroundVariants[i]);
      face := new Bitmap[VariantCount](i requires 0 <= i < VariantCount => faceVariants[i]);
      hourHand := new Bitmap[VariantCount](i requires 0 <= i < VariantCount => hourHandVariants[i]);
      minuteHand := new Bitmap[VariantCount](i requires 0 <= i < VariantCount => minuteHandVariants[i]);
    }

    /** scaleBitmaps: every entry of the array replaced by its scaled version, in place. */
    method ScaleBitmaps(bitmaps: array<Bitmap>, factor: real)
      modifies bitmaps
      ensures bitmaps[..] == ScaledVariants(old(bitmaps[..]), factor)
    {
      for i := 0 to bitmaps.Length
        invariant forall k :: 0 <= k < i ==> bitmaps[k] == ScaleBitmap(old(bitmaps[k]), factor)
        invariant forall k :: i <= k < bitmaps.Length ==> bitmaps[k] == old(bitmaps[k])
      {
        bitmaps[i] := ScaleBitmap(bitmaps[i], factor);
      }
    }

    /** The four scaleBitmaps calls of onSurfaceChanged, one per visual element. */
    method ScaleAllVariants(factor: real)
      requires Valid()
      modifies background, face, hourHand, minuteHand
      ensures background[..] == ScaledVariants(old(background[..]), factor)
      ensures face[..] == ScaledVariants(old(face[..]), factor)
      ensures hourHand[..] == ScaledVariants(old(hourHand[..]), factor)
      ensures minuteHand[..] == ScaledVariants(old(minuteHand[..]), factor)
      ensures factor == 1.0 ==>
                background[..] == old(background[..]) && face[..] == old(face[..]) &&
                hourHand[..] == old(hourHand[..]) && minuteHand[..] == old(minuteHand[..])
    {
      if factor == 1.0 {
        ScaledVariantsByOne(background[..]);
        ScaledVariantsByOne(face[..]);
        ScaledVariantsByOne(hourHand[..]);
        ScaledVariantsByOne(minuteHand[..]);
      }
      ScaleBitmaps(background, factor);
      ScaleBitmaps(face, factor);
      ScaleBitmaps(hourHand, factor);
      ScaleBitmaps(minuteHand, factor);
    }

    /** onPropertiesChanged: the low-bit flag from the host's properties, false when absent. */
    method OnPropertiesChanged(lowBitAmbientProperty: Option<bool>)
      requires Valid()
      modifies this`lowBitAmbient
      ensures Valid()
      ensures lowBitAmbient <==> lowBitAmbientProperty == Some(true)
    {
      lowBitAmbient := match lowBitAmbientProperty
        case Some(b) => b
        case None => false;
    }

    /** onTimeTick: the host's once-a-minute tick asks for a redraw. */
    method OnTimeTick()
      requires Valid()
      modifies this`redrawRequested
      ensures Valid()
      ensures redrawRequested
    {
      redrawRequested := true;
    }

    /**
     * onAmbientModeChanged: only an actual change records the new mode, sets
     * the hands' anti-aliasing (on low-bit displays only) and asks for a
     * redraw; the timer is re-evaluated either way.
     */
    method OnAmbientModeChanged(inAmbientMode: bool)
      requires Valid()
      modifies this`hostAmbient, this`ambient, this`handAntiAlias, this`redrawRequested, this`pendingWakes
      ensures Valid()
      ensures ambient == inAmbientMode
      ensures Tick() == Step(old(Tick()), AmbientModeChanged(inAmbientMode))
      ensures old(ambient) == inAmbientMode ==>
                handAntiAlias == old(handAntiAlias) && redrawRequested == old(redrawRequested)
      ensures old(ambient) != inAmbientMode ==>
                redrawRequested &&
                handAntiAlias == if lowBitAmbient then !inAmbientMode else old(handAntiAlias)
    {
      hostAmbient := inAmbientMode;
      if ambient != inAmbientMode {
        ambient := inAmbientMode;
        if lowBitAmbient {
          handAntiAlias := !inAmbientMode;
        }
        redrawRequested := true;
      }
      UpdateTimer();
    }

    /** onTapCommand: no tap type changes any state, but every tap asks for a redraw. */
    method OnTapCommand(tapType: int, x: int, y: int, eventTime: int)
      requires Valid()
      modifies this`redrawRequested
      ensures Valid()
      ensures redrawRequested
    {
      redrawRequested := true;
    }

    /**
     * The frame onDraw composes from the current state: every bitmap is the
     * variant getBitmap picks for the current mode, the hands are turned by
     * the stored angles and pivot on the centre, and the face sits on the
     * centre nudged by the scaled offsets.
     */
    function Render(): (frame: Frame)
      reads this, background, face, hourHand, minuteHand
      requires Valid()
      ensures frame.clearWidth == width && frame.clearHeight == height
      ensures var i := Index(ModeOf(ambient, lowBitAmbient));
              frame.background == background[i] && frame.minuteHand == minuteHand[i] &&
              frame.hourHand == hourHand[i] && frame.face == face[i]
      ensures frame.peekCardMasked == ambient
      ensures frame.minuteRotation == minDeg
      ensures frame.minuteRotation + frame.hourRotation == hrDeg + FullTurn
      ensures frame.minuteHandCorner == HandCorner(Point(centerX, centerY), frame.minuteHand)
      ensures frame.hourHandCorner == HandCorner(Point(centerX, centerY), frame.hourHand)
      ensures frame.faceCorner == FaceCorner(Point(centerX, centerY), scaledXOffset, scaledYOffset, frame.face)
    {
      // getBitmap's choice, shared by all four elements.
      var i := Index(ModeOf(ambient, lowBitAmbient));
      var pivot := Point(centerX, centerY);
      Frame(
        width, height,
        background[i],
        ambient,
        minDeg, minuteHand[i], HandCorner(pivot, minuteHand[i]),
        HourHandRotation(minDeg, hrDeg), hourHand[i], HandCorner(pivot, hourHand[i]),
        face[i], FaceCorner(pivot, scaledXOffset, scaledYOffset, face[i]))
    }

    /**
     * onDraw: reads the clock, derives both hand angles, draws the frame of
     * the new state, and asks for the next frame only while visible and not
     * ambient. The pending redraw request is the one this draw serves.
     */
    method OnDraw(nowHour: int, nowMinute: int) returns (frame: Frame)
      requires Valid()
      modifies this`hour, this`minute, this`minDeg, this`hrDeg, this`redrawRequested
      ensures Valid()
      ensures hour == nowHour && minute == nowMinute
      ensures minDeg == MinuteAngle(nowMinute) && hrDeg == HourAngle(nowHour, nowMinute)
      ensures frame == Render()
      ensures redrawRequested <==> ShouldRun(hostVisible, hostAmbient)
    {
      redrawRequested := false;
      SetTime(nowHour, nowMinute);
      if ShouldRun(hostVisible, hostAmbient) {
        redrawRequested := true;
      }
      frame := Render();
    }

    /** Records the wall-clock time and the two hand angles it gives. */
    method SetTime(nowHour: int, nowMinute: int)
      requires Valid()
      modifies this`hour, this`minute, this`minDeg, this`hrDeg
      ensures Valid()
      ensures hour == nowHour && minute == nowMinute
      ensures minDeg == MinuteAngle(nowMinute) && hrDeg == HourAngle(nowHour, nowMinute)
    {
      hour, minute := nowHour, nowMinute;
      minDeg := MinuteAngle(minute);
      hrDeg := HourAngle(hour, minute);
    }

    /**
     * onSurfaceChanged: records the size, centres on the whole surface, and
     * rescales every variant of every element by the factor that brings the
     * current interactive background to the surface width; the face is nudged
     * by that same factor on both axes. With floats read as exact reals, a
     * repeated change to the same width has factor one and leaves every
     * variant as it is; 32-bit rounding can break this.
     */
    method OnSurfaceChanged(surfaceWidth: int, surfaceHeight: int)
      requires Valid()
      requires background[0].width > 0
      modifies this`width, this`height, this`centerX, this`centerY, this`scale
      modifies this`scaledXOffset, this`scaledYOffset
      modifies background, face, hourHand, minuteHand
      ensures Valid()
      ensures width == surfaceWidth && height == surfaceHeight
      ensures centerX == surfaceWidth as real / 2.0 && centerY == surfaceHeight as real / 2.0
      ensures scale == surfaceWidth as real / old(background[0].width) as real
      ensures scaledXOffset == scale && scaledYOffset == scale
      ensures background[..] == ScaledVariants(old(background[..]), scale)
      ensures face[..] == ScaledVariants(old(face[..]), scale)
      ensures hourHand[..] == ScaledVariants(old(hourHand[..]), scale)
      ensures minuteHand[..] == ScaledVariants(old(minuteHand[..]), scale)
      ensures background[0].width == surfaceWidth
      ensures old(background[0].width) == surfaceWidth ==>
                scale == 1.0 &&
                background[..] == old(background[..]) && face[..] == old(face[..]) &&
                hourHand[..] == old(hourHand[..]) && minuteHand[..] == old(minuteHand[..])
    {
      ghost var background0 := background[..];
      width := surfaceWidth;
      height := surfaceHeight;
      centerX := width as real / 2.0;
      centerY := height as real / 2.0;
      scale := width as real / background[0].width as real;
      ScaleToWidth(background0[0], surfaceWidth);
      ScaleAllVariants(scale);
      assert background[0] == ScaleBitmap(background0[0], scale);
      scaledXOffset := scale;
      scaledYOffset := scale;
    }

    /**
     * onVisibilityChanged: becoming visible registers the time-zone receiver
     * and rereads the clock; becoming invisible unregisters it; the timer is
     * re-evaluated either way.
     */
    method OnVisibilityChanged(visible: bool, nowHour: int, nowMinute: int)
      requires Valid()
      modifies this`hostVisible, this`registeredTimeZoneReceiver, this`receiverCalls
      modifies this`hour, this`minute, this`pendingWakes
      ensures Valid()
      ensures Tick() == Step(old(Tick()), VisibilityChanged(visible))
      ensures registeredTimeZoneReceiver == visible
      ensures receiverCalls == old(receiverCalls) +
                if visible == old(registeredTimeZoneReceiver) then []
                else [if visible then Register else Unregister]
      ensures visible ==> hour == nowHour && minute == nowMinute
      ensures !visible ==> hour == old(hour) && minute == old(minute)
    {
      hostVisible := visible;
      if visible {
        RegisterReceiver();
        hour, minute := nowHour, nowMinute;
      } else {
        UnregisterReceiver();
      }
      UpdateTimer();
    }

    /** registerReceiver: registers with the host only when not registered already. */
    method RegisterReceiver()
      requires ReceiverConsistent()
      modifies this`registeredTimeZoneReceiver, this`receiverCalls
      ensures ReceiverConsistent()
      ensures registeredTimeZoneReceiver
      ensures receiverCalls == old(receiverCalls) + if old(registeredTimeZoneReceiver) then [] else [Register]
    {
      if registeredTimeZoneReceiver {
        return;
      }
      registeredTimeZoneReceiver := true;
      receiverCalls := receiverCalls + [Register];
    }

    /** unregisterReceiver: unregisters from the host only when registered. */
    method UnregisterReceiver()
      requires ReceiverConsistent()
      modifies this`registeredTimeZoneReceiver, this`receiverCalls
      ensures ReceiverConsistent()
      ensures !registeredTimeZoneReceiver
      ensures receiverCalls == old(receiverCalls) + if old(registeredTimeZoneReceiver) then [Unregister] else []
    {
      if !registeredTimeZoneReceiver {
        return;
      }
      registeredTimeZoneReceiver := false;
      receiverCalls := receiverCalls + [Unregister];
    }

    /**
     * updateTimer: removes every pending wake, then queues one immediate wake
     * when the tick should run.
     */
    method UpdateTimer()
      modifies this`pendingWakes
      ensures Tick() == Reevaluate(old(Tick()))
    {
      pendingWakes := [];
      if ShouldRun(hostVisible, hostAmbient) {
        pendingWakes := pendingWakes + [0];
      }
    }

    /**
     * handleUpdateTimeMessage: always asks for a redraw; queues the next wake,
     * delayed to the next whole second of `nowMs`, only if the tick should
     * still run.
     */
    method HandleUpdateTimeMessage(nowMs: int)
      modifies this`pendingWakes, this`redrawRequested
      ensures redrawRequested
      ensures Tick() == Rearm(old(Tick()), nowMs)
    {
      redrawRequested := true;
      if ShouldRun(hostVisible, hostAmbient) {
        var delayMs := UpdateRateMs - JavaArith.Rem(nowMs, UpdateRateMs);
        pendingWakes := pendingWakes + [delayMs];
      }
    }

    /**
     * EngineHandler.handleMessage: the oldest pending wake leaves the queue
     * and is handled; with nothing queued nothing happens.
     */
    method DeliverUpdateTimeMessage(nowMs: int)
      requires Valid()
      modifies this`pendingWakes, this`redrawRequested
      ensures Valid()
      ensures Tick() == Step(old(Tick()), WakeFired(nowMs))
      ensures redrawRequested <==> old(redrawRequested) || old(pendingWakes) != []
    {
      if pendingWakes != [] {
        pendingWakes := pendingWakes[1..];
        HandleUpdateTimeMessage(nowMs);
      }
    }

    /** onDestroy: every pending wake is removed. */
    method OnDestroy()
      modifies this`pendingWakes
      ensures pendingWakes == []
    {
      pendingWakes := [];
    }
  }

  /**
   * A client of the engine: a 400-pixel surface over a 200-pixel background
   * doubles every variant, and three o'clock turns the hour hand by 90 degrees net.
   */
  method ResizeScenario()
  {
    var square := [Bitmap(200, 200), Bitmap(200, 200), Bitmap(200, 200)];
    var hand := [Bitmap(10, 90), Bitmap(10, 90), Bitmap(6, 90)];
    var e := new Engine(square, [Bitmap(50, 50), Bitmap(50, 50), Bitmap(50, 50)], hand, hand);
    e.OnSurfaceChanged(400, 400);
    assert e.scale == 2.0;
    assert e.face[0] == ScaleBitmap(Bitmap(50, 50), 2.0) == Bitmap(100, 100);
    assert e.minuteHand[0] == ScaleBitmap(Bitmap(10, 90), 2.0) == Bitmap(20, 180);
    var frame := e.OnDraw(3, 0);
    assert frame.minuteRotation == 0.0;
    assert frame.minuteRotation + frame.hourRotation == 450.0;
  }

  /**
   * A client of the engine: the tick runs while visible and interactive,
   * lands on whole seconds, and stops for good once ambient.
   */
  method TickScenario()
  {
    var b := [Bitmap(1, 1), Bitmap(1, 1), Bitmap(1, 1)];
    var e := new Engine(b, b, b, b);
    e.OnVisibilityChanged(true, 3, 0);
    assert e.pendingWakes == [0] && e.receiverCalls == [Register];
    e.OnVisibilityChanged(true, 3, 0);
    assert e.pendingWakes == [0] && e.receiverCalls == [Register];
    e.DeliverUpdateTimeMessage(2500);
    assert e.pendingWakes == [500] && e.redrawRequested;
    e.OnAmbientModeChanged(true);
    assert e.pendingWakes == [];
    e.DeliverUpdateTimeMessage(3000);
    assert e.pendingWakes == [];
  }
}
