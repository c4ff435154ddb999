/** The wearable side: the watch face engine of SunshineWatchFaceService.
    It merges weather digests delivered on the "/weather" path into its display
    fields, publishes a bootstrap marker on connect, keeps the time-zone receiver
    registered while visible, and keeps a once-per-second redraw tick pending
    while visible and interactive. Drawing on the canvas is not modelled; what
    onDraw computes from integers (the 12-hour clock hour) is. */
module WatchFace {
  import opened Wrappers
  import opened DataLayer

  const WEATHER_PATH := "/weather"
  const KEY_HIGH := "KEY_MAX_TEMP"
  const KEY_LOW := "KEY_MIN_TEMP"
  const KEY_WEATHER_ID := "KEY_WEATHER_ID"
  /** The only key of the bootstrap marker that `trigger` publishes. */
  const MARKER_KEY := "DATA"

  const MSG_UPDATE_TIME := 0
  const INTERACTIVE_UPDATE_RATE_MS := 1000

  /** A bitmap resource. Which bitmap a weather id is drawn with (the icon
      lookup and its scaling to the text size) is a parameter of the engine. */
  type Bitmap

  /** The three display fields `mWeatherHigh`, `mWeatherLow`, `mWeatherIcon`;
      None is a Java null. */
  datatype DisplayState = DisplayState(high: Option<string>, low: Option<string>, icon: Option<Bitmap>)

  // ---------------------------------------------------------------------------
  // Decoding change events into the display fields

  /** An event that the listener acts on: TYPE_CHANGED on the weather path. */
  predicate IsWeatherUpdate(e: DataEvent)
  {
    e.eventType == TypeChanged && e.path == WEATHER_PATH
  }

  /** Event `e` is acted on and carries `key`, so it assigns that key's field. */
  predicate Assigns(e: DataEvent, key: string)
  {
    IsWeatherUpdate(e) && key in e.dataMap
  }

  /** The display state after one event: each of the three fields is replaced
      when its key is present, and kept otherwise; other events change nothing. */
  function ApplyEvent(d: DisplayState, e: DataEvent, iconOf: Int32 -> Bitmap): DisplayState
  {
    if !IsWeatherUpdate(e) then d
    else
      var m := e.dataMap;
      DisplayState(
        if KEY_HIGH in m then GetString(m, KEY_HIGH) else d.high,
        if KEY_LOW in m then GetString(m, KEY_LOW) else d.low,
        if KEY_WEATHER_ID in m then Some(iconOf(GetInt(m, KEY_WEATHER_ID))) else d.icon)
  }

  /** The display state after a buffer of events, applied first to last. */
  function ApplyEvents(d: DisplayState, es: seq<DataEvent>, iconOf: Int32 -> Bitmap): DisplayState
    decreases |es|
  {
    if es == [] then d
    else ApplyEvent(ApplyEvents(d, es[..|es| - 1], iconOf), es[|es| - 1], iconOf)
  }

  /** The number of redraws a buffer of events requests: one per event acted on. */
  function CountWeatherUpdates(es: seq<DataEvent>): (n: nat)
    ensures n <= |es|
    ensures n == 0 <==> forall i :: 0 <= i < |es| ==> !IsWeatherUpdate(es[i])
    decreases |es|
  {
    if es == [] then 0
    else CountWeatherUpdates(es[..|es| - 1]) + (if IsWeatherUpdate(es[|es| - 1]) then 1 else 0)
  }

  /** The DataMap that `trigger` publishes: a random token under "DATA" only. */
  function MarkerRequest(token: string): (p: PutRequest)
    ensures p.path == WEATHER_PATH && p.dataMap.Keys == {MARKER_KEY}
  {
    PutRequest(WEATHER_PATH, map[MARKER_KEY := StringValue(token)])
  }

  /** The part of a DataMap that the decoder looks at. */
  function KnownPart(m: DataMap): (k: DataMap)
    ensures k.Keys <= {KEY_HIGH, KEY_LOW, KEY_WEATHER_ID}
    ensures forall key :: key in k ==> key in m && k[key] == m[key]
  {
    map key | key in m && key in {KEY_HIGH, KEY_LOW, KEY_WEATHER_ID} :: m[key]
  }

  /** An event that is not TYPE_CHANGED, or not on "/weather", changes no
      display field and requests no redraw. */
  lemma IgnoredEventChangesNothing(d: DisplayState, e: DataEvent, iconOf: Int32 -> Bitmap)
    requires e.eventType != TypeChanged || e.path != WEATHER_PATH
    ensures ApplyEvent(d, e, iconOf) == d
    ensures CountWeatherUpdates([e]) == 0
  {
  }

  /** Keys other than the three digest keys do not influence decoding. */
  lemma UnknownKeysIgnored(d: DisplayState, e: DataEvent, iconOf: Int32 -> Bitmap)
    ensures ApplyEvent(d, e.(dataMap := KnownPart(e.dataMap)), iconOf) == ApplyEvent(d, e, iconOf)
  {
  }

  /** The bootstrap marker, once delivered, leaves all three display fields as
      they were (it still requests a redraw). */
  lemma MarkerChangesNoField(d: DisplayState, token: string, iconOf: Int32 -> Bitmap)
    ensures ApplyEvent(d, Deliver(MarkerRequest(token)), iconOf) == d
    ensures IsWeatherUpdate(Deliver(MarkerRequest(token)))
  {
  }

  /** Partial update: an event carrying only the high temperature sets the high
      field and leaves the low field and the icon alone. */
  lemma OnlyHighSetsHigh(d: DisplayState, e: DataEvent, high: string, iconOf: Int32 -> Bitmap)
    requires IsWeatherUpdate(e) && e.dataMap == map[KEY_HIGH := StringValue(high)]
    ensures ApplyEvent(d, e, iconOf) == d.(high := Some(high))
  {
  }

  /** Partial update: an event carrying only the low temperature sets the low
      field and leaves the high field and the icon alone. */
  lemma OnlyLowSetsLow(d: DisplayState, e: DataEvent, low: string, iconOf: Int32 -> Bitmap)
    requires IsWeatherUpdate(e) && e.dataMap == map[KEY_LOW := StringValue(low)]
    ensures ApplyEvent(d, e, iconOf) == d.(low := Some(low))
  {
  }

  /** Partial update: an event carrying only the weather id sets the icon to the
      one for that id and leaves both temperatures alone. */
  lemma OnlyIdSetsIcon(d: DisplayState, e: DataEvent, id: Int32, iconOf: Int32 -> Bitmap)
    requires IsWeatherUpdate(e) && e.dataMap == map[KEY_WEATHER_ID := IntValue(id)]
    ensures ApplyEvent(d, e, iconOf) == d.(icon := Some(iconOf(id)))
  {
  }

  /** The three digest keys the decoder knows. */
  const DIGEST_KEYS := {KEY_HIGH, KEY_LOW, KEY_WEATHER_ID}

  /** The content of one display field: a temperature text or an icon. */
  datatype FieldValue = Text(text: Option<string>) | Picture(picture: Option<Bitmap>)

  /** The display field that `key` is decoded into. */
  function FieldOf(d: DisplayState, key: string): FieldValue
    requires key in DIGEST_KEYS
  {
    if key == KEY_HIGH then Text(d.high)
    else if key == KEY_LOW then Text(d.low)
    else Picture(d.icon)
  }

  /** What the value stored under `key` in `m` decodes to. */
  function Decoded(m: DataMap, key: string, iconOf: Int32 -> Bitmap): FieldValue
    requires key in DIGEST_KEYS
  {
    if key == KEY_WEATHER_ID then Picture(Some(iconOf(GetInt(m, key))))
    else Text(GetString(m, key))
  }

  /** Fields are merged independently: after one event, a field holds the
      decoded value of its key when the event is acted on and carries that key,
      and its old value otherwise. */
  lemma FieldAfterEvent(d: DisplayState, e: DataEvent, key: string, iconOf: Int32 -> Bitmap)
    requires key in DIGEST_KEYS
    ensures FieldOf(ApplyEvent(d, e, iconOf), key) ==
            if Assigns(e, key) then Decoded(e.dataMap, key, iconOf) else FieldOf(d, key)
  {
  }

  /** Over a buffer of events in which no event acted on carries `key`, the
      field of `key` keeps its old value. */
  lemma {:induction false} UnassignedFieldKept(d: DisplayState, es: seq<DataEvent>, key: string, iconOf: Int32 -> Bitmap)
    requires key in DIGEST_KEYS
    requires forall i :: 0 <= i < |es| ==> !Assigns(es[i], key)
    ensures FieldOf(ApplyEvents(d, es, iconOf), key) == FieldOf(d, key)
    decreases |es|
  {
    if es != [] {
      var init, last := es[..|es| - 1], es[|es| - 1];
      assert forall i :: 0 <= i < |init| ==> init[i] == es[i];
      UnassignedFieldKept(d, init, key, iconOf);
      FieldAfterEvent(ApplyEvents(d, init, iconOf), last, key, iconOf);
    }
  }

  /** Over a buffer of events, when event `k` is the last one acted on that
      carries `key`, the field of `key` ends as that event's decoded value. */
  lemma {:induction false} LastAssignmentWins(d: DisplayState, es: seq<DataEvent>, key: string, k: nat, iconOf: Int32 -> Bitmap)
    requires key in DIGEST_KEYS
    requires k < |es| && Assigns(es[k], key)
    requires forall j :: k < j < |es| ==> !Assigns(es[j], key)
    ensures FieldOf(ApplyEvents(d, es, iconOf), key) == Decoded(es[k].dataMap, key, iconOf)
    decreases |es|
  {
    var init, last := es[..|es| - 1], es[|es| - 1];
    FieldAfterEvent(ApplyEvents(d, init, iconOf), last, key, iconOf);
    if k < |es| - 1 {
      assert !Assigns(last, key);
      assert forall j :: 0 <= j < |init| ==> init[j] == es[j];
      LastAssignmentWins(d, init, key, k, iconOf);
    }
  }

  // ---------------------------------------------------------------------------
  // Time keeping

  /** Java's `/` on a positive divisor: truncates toward zero. */
  function JavaQuotient(a: int, b: int): int
    requires b > 0
  {
    if a >= 0 then a / b else -((-a) / b)
  }

  /** Java's `%` on a positive divisor: what is left after truncating division,
      so the remainder takes the sign of the dividend. */
  function JavaRemainder(a: int, b: int): (r: int)
    requires b > 0
    ensures a == b * JavaQuotient(a, b) + r
    ensures -b < r < b
    ensures a >= 0 ==> r >= 0
    ensures a <= 0 ==> r <= 0
  {
    if a >= 0 then a % b else -((-a) % b)
  }

  /** A whole second, in milliseconds since the epoch. */
  predicate IsWholeSecond(t: int)
  {
    t % INTERACTIVE_UPDATE_RATE_MS == 0
  }

  /** The delay `handleUpdateTimeMessage` re-arms the tick with at time `now`.
      It never leaves the range of a Java long. */
  function NextTickDelay(now: Long): (delay: Long)
    ensures delay >= 1 && IsWholeSecond(now + delay)
    ensures now >= 0 ==> delay <= INTERACTIVE_UPDATE_RATE_MS
  {
    INTERACTIVE_UPDATE_RATE_MS - JavaRemainder(now, INTERACTIVE_UPDATE_RATE_MS)
  }

  /** For a time at or after the epoch, the re-armed tick lands on the very next
      whole second: no whole second lies strictly between now and the tick. */
  lemma NextTickIsNextWholeSecond(now: Long)
    requires now >= 0
    ensures forall t :: now < t < now + NextTickDelay(now) ==> !IsWholeSecond(t)
  {
  }

  /** The hour onDraw shows in 12-hour mode for a `Calendar.HOUR` value. */
  function TwelveHourDisplay(hour: int): (shown: int)
    ensures 0 <= hour < 12 ==> 1 <= shown <= 12 && shown % 12 == hour
  {
    if hour == 0 then 12 else hour
  }

  /** The 12-hour display of the hours 0..11 is one-to-one, so with its range
      1..12 it shows every hour from 1 to 12 exactly once. */
  lemma TwelveHourDisplayIsInjective()
    ensures forall h1, h2 :: 0 <= h1 < 12 && 0 <= h2 < 12 && TwelveHourDisplay(h1) == TwelveHourDisplay(h2) ==> h1 == h2
  {
  }

  // ---------------------------------------------------------------------------
  // The handler's message queue

  /** A queued handler message: its `what` code and its delay in milliseconds. */
  datatype Message = Message(what: int, delayMs: int)

  /** The number of queued messages with code `what`. */
  function CountWhat(q: seq<Message>, what: int): (n: nat)
    ensures n <= |q|
    ensures n == 0 <==> forall i :: 0 <= i < |q| ==> q[i].what != what
    decreases |q|
  {
    if q == [] then 0
    else (if q[0].what == what then 1 else 0) + CountWhat(q[1..], what)
  }

  /** `Handler.removeMessages(what)`: drop every queued message with that code,
      keeping the others in order. */
  function RemoveMessages(q: seq<Message>, what: int): (r: seq<Message>)
    ensures CountWhat(r, what) == 0
    ensures forall w :: w != what ==> CountWhat(r, w) == CountWhat(q, w)
    ensures forall m :: multiset(r)[m] == if m.what == what then 0 else multiset(q)[m]
    decreases |q|
  {
    if q == [] then []
    else
      assert q == [q[0]] + q[1..];
      var rest := RemoveMessages(q[1..], what);
      if q[0].what == what then rest
      else
        assert ([q[0]] + rest)[1..] == rest;
        [q[0]] + rest
  }

  /** The position of the first queued message with code `what`. */
  function FirstIndexOf(q: seq<Message>, what: int): (i: nat)
    requires CountWhat(q, what) > 0
    ensures i < |q| && q[i].what == what
    ensures forall j :: 0 <= j < i ==> q[j].what != what
    decreases |q|
  {
    if q[0].what == what then 0 else 1 + FirstIndexOf(q[1..], what)
  }

  /** The looper taking the first queued message with code `what` for delivery:
      that one message is removed and the rest of the queue stays as it was. */
  function TakeFirst(q: seq<Message>, what: int): (r: seq<Message>)
    ensures CountWhat(q, what) > 0 ==> r == q[..FirstIndexOf(q, what)] + q[FirstIndexOf(q, what) + 1..]
    ensures CountWhat(q, what) > 0 ==> CountWhat(r, what) == CountWhat(q, what) - 1
    ensures CountWhat(q, what) == 0 ==> r == q
    ensures forall w :: w != what ==> CountWhat(r, w) == CountWhat(q, w)
    decreases |q|
  {
    if q == [] then []
    else if q[0].what == what then
      assert q[..0] + q[1..] == q[1..];
      q[1..]
    else
      var rest := TakeFirst(q[1..], what);
      assert ([q[0]] + rest)[1..] == rest;
      SkipFirstIndex(q, what);
      [q[0]] + rest
  }

  /** When the first message does not have code `what`, the first message
      with that code lies one further on than in the rest of the queue. */
  lemma SkipFirstIndex(q: seq<Message>, what: int)
    requires q != [] && q[0].what != what
    ensures CountWhat(q[1..], what) == CountWhat(q, what)
    ensures CountWhat(q, what) > 0 ==>
              var i := FirstIndexOf(q[1..], what);
              FirstIndexOf(q, what) == i + 1 &&
              [q[0]] + (q[1..][..i] + q[1..][i + 1..]) == q[..i + 1] + q[i + 2..]
  {
  }

  lemma CountWhatAppend(q: seq<Message>, m: Message, what: int)
    ensures CountWhat(q + [m], what) == CountWhat(q, what) + (if m.what == what then 1 else 0)
    decreases |q|
  {
    if q != [] {
      assert (q + [m])[1..] == q[1..] + [m];
      CountWhatAppend(q[1..], m, what);
    }
  }

  // ---------------------------------------------------------------------------
  // The time-zone receiver's registrations with the platform

  datatype ReceiverCall = Register | Unregister

  /** The calls made to the platform alternate, starting with a registration:
      the receiver is never registered twice or unregistered while absent. */
  predicate Alternates(log: seq<ReceiverCall>)
  {
    forall i :: 0 <= i < |log| ==> log[i] == (if i % 2 == 0 then Register else Unregister)
  }

  /** The receiver is registered with the platform after the calls in `log`. */
  predicate IsRegistered(log: seq<ReceiverCall>)
  {
    |log| > 0 && log[|log| - 1] == Register
  }

  function Calls(log: seq<ReceiverCall>, c: ReceiverCall): (n: nat)
    ensures n <= |log|
    decreases |log|
  {
    if log == [] then 0
    else Calls(log[..|log| - 1], c) + (if log[|log| - 1] == c then 1 else 0)
  }

  /** In an alternating log, registrations outnumber unregistrations by exactly
      one while the receiver is registered, and equal them otherwise. */
  lemma {:induction false} AlternatingLogBalance(log: seq<ReceiverCall>)
    requires Alternates(log)
    ensures Calls(log, Register) == Calls(log, Unregister) + (if IsRegistered(log) then 1 else 0)
    ensures IsRegistered(log) <==> |log| % 2 == 1
    decreases |log|
  {
    if log != [] {
      var init := log[..|log| - 1];
      assert Alternates(init) by {
        forall i | 0 <= i < |init| ensures init[i] == (if i % 2 == 0 then Register else Unregister) {
          assert init[i] == log[i];
        }
      }
      AlternatingLogBalance(init);
      assert |init| > 0 ==> init[|init| - 1] == log[|log| - 2];
    }
  }

  // ---------------------------------------------------------------------------
  // The engine

  class Engine {
    /** Which bitmap a weather id is shown with. */
    const iconOf: Int32 -> Bitmap

    var weatherHigh: Option<string>
    var weatherLow: Option<string>
    var weatherIcon: Option<Bitmap>

    /** `mRegisteredTimeZoneReceiver`. */
    var registeredTimeZoneReceiver: bool
    /** The register/unregister calls made to the platform, in order. */
    var receiverCalls: seq<ReceiverCall>

    /** `mAmbient`. */
    var ambient: bool
    /** The framework's `isVisible()` and `isInAmbientMode()`. */
    var visible: bool
    var inAmbientMode: bool

    /** The queue of `mUpdateTimeHandler`. */
    var pending: seq<Message>
    /** The number of `invalidate()` calls, each a redraw request. */
    var redraws: nat
    /** The data items put through the data API, in order. */
    var puts: seq<PutRequest>

    function Display(): DisplayState
      reads this
    {
      DisplayState(weatherHigh, weatherLow, weatherIcon)
    }

    /** `shouldTimerBeRunning`. */
    predicate ShouldTimerBeRunning()
      reads this
    {
      visible && !inAmbientMode
    }

    function PendingTicks(): nat
      reads this
    {
      CountWhat(pending, MSG_UPDATE_TIME)
    }

    /** The flag always says whether the receiver is registered with the
        platform; a tick is pending exactly when the face is visible and
        interactive, and never more than one; mAmbient follows the framework. */
    ghost predicate Valid()
      reads this
    {
      && Alternates(receiverCalls)
      && registeredTimeZoneReceiver == IsRegistered(receiverCalls)
      && PendingTicks() == (if ShouldTimerBeRunning() then 1 else 0)
      && ambient == inAmbientMode
    }

    constructor (iconOf: Int32 -> Bitmap)
      ensures Valid()
      ensures this.iconOf == iconOf
      ensures Display() == DisplayState(None, None, None)
      ensures !registeredTimeZoneReceiver && receiverCalls == []
      ensures !visible && !inAmbientMode && !ambient
      ensures pending == [] && redraws == 0 && puts == []
    {
      this.iconOf := iconOf;
      weatherHigh, weatherLow, weatherIcon := None, None, None;
      registeredTimeZoneReceiver, receiverCalls := false, [];
      ambient, visible, inAmbientMode := false, false, false;
      pending, redraws, puts := [], 0, [];
    }

    /** `registerReceiver`: registers with the platform only when not yet registered. */
    method RegisterReceiver()
      requires Alternates(receiverCalls) && registeredTimeZoneReceiver == IsRegistered(receiverCalls)
      modifies this`registeredTimeZoneReceiver, this`receiverCalls
      ensures Alternates(receiverCalls) && registeredTimeZoneReceiver == IsRegistered(receiverCalls)
      ensures registeredTimeZoneReceiver
      ensures receiverCalls == if old(registeredTimeZoneReceiver) then old(receiverCalls)
                               else old(receiverCalls) + [Register]
    {
      if registeredTimeZoneReceiver {
        return;
      }
      registeredTimeZoneReceiver := true;
      AlternatingLogBalance(receiverCalls);
      receiverCalls := receiverCalls + [Register];
    }

    /** `unregisterReceiver`: unregisters with the platform only when registered. */
    method UnregisterReceiver()
      requires Alternates(receiverCalls) && registeredTimeZoneReceiver == IsRegistered(receiverCalls)
      modifies this`registeredTimeZoneReceiver, this`receiverCalls
      ensures Alternates(receiverCalls) && registeredTimeZoneReceiver == IsRegistered(receiverCalls)
      ensures !registeredTimeZoneReceiver
      ensures receiverCalls == if old(registeredTimeZoneReceiver) then old(receiverCalls) + [Unregister]
                               else old(receiverCalls)
    {
      if !registeredTimeZoneReceiver {
        return;
      }
      registeredTimeZoneReceiver := false;
      AlternatingLogBalance(receiverCalls);
      receiverCalls := receiverCalls + [Unregister];
    }

    /** `updateTimer`: drop any pending tick, then queue one for immediate
        delivery when the timer should run. */
    method UpdateTimer()
      modifies this`pending
      ensures PendingTicks() == if ShouldTimerBeRunning() then 1 else 0
      ensures pending == RemoveMessages(old(pending), MSG_UPDATE_TIME) +
                         (if ShouldTimerBeRunning() then [Message(MSG_UPDATE_TIME, 0)] else [])
    {
      pending := RemoveMessages(pending, MSG_UPDATE_TIME);
      if ShouldTimerBeRunning() {
        CountWhatAppend(pending, Message(MSG_UPDATE_TIME, 0), MSG_UPDATE_TIME);
        pending := pending + [Message(MSG_UPDATE_TIME, 0)];
      }
    }

    /** `onVisibilityChanged`: register the time-zone receiver when shown,
        unregister it when hidden, and bring the timer in line. */
    method OnVisibilityChanged(nowVisible: bool)
      requires Valid()
      modifies this`visible, this`registeredTimeZoneReceiver, this`receiverCalls, this`pending
      ensures Valid()
      ensures visible == nowVisible
      ensures registeredTimeZoneReceiver == nowVisible
      ensures receiverCalls == if old(registeredTimeZoneReceiver) == nowVisible then old(receiverCalls)
                               else old(receiverCalls) + [if nowVisible then Register else Unregister]
      ensures PendingTicks() == if nowVisible && !inAmbientMode then 1 else 0
      ensures pending == RemoveMessages(old(pending), MSG_UPDATE_TIME) +
                         (if ShouldTimerBeRunning() then [Message(MSG_UPDATE_TIME, 0)] else [])
    {
      visible := nowVisible;
      if nowVisible {
        RegisterReceiver();
      } else {
        UnregisterReceiver();
      }
      UpdateTimer();
    }

    /** `onAmbientModeChanged`: the framework has switched mode; record it,
        request a redraw when it differs from mAmbient, and bring the timer in line. */
    method OnAmbientModeChanged(nowAmbient: bool)
      requires Valid()
      modifies this`inAmbientMode, this`ambient, this`redraws, this`pending
      ensures Valid()
      ensures inAmbientMode == nowAmbient && ambient == nowAmbient
      ensures redraws == old(redraws) + (if old(ambient) != nowAmbient then 1 else 0)
      ensures PendingTicks() == if visible && !nowAmbient then 1 else 0
      ensures pending == RemoveMessages(old(pending), MSG_UPDATE_TIME) +
                         (if ShouldTimerBeRunning() then [Message(MSG_UPDATE_TIME, 0)] else [])
    {
      inAmbientMode := nowAmbient;
      if ambient != nowAmbient {
        ambient := nowAmbient;
        redraws := redraws + 1;
      }
      UpdateTimer();
    }

    /** `onTimeTick`: the once-a-minute framework tick requests a redraw. */
    method OnTimeTick()
      modifies this`redraws
      ensures redraws == old(redraws) + 1
    {
      redraws := redraws + 1;
    }

    /** The handler delivering the pending tick at time `now`, which runs
        `handleUpdateTimeMessage`: redraw, and re-arm the tick for the next whole
        second while the timer should run. */
    method HandleUpdateTimeMessage(now: Long)
      requires Valid()
      requires PendingTicks() > 0
      modifies this`pending, this`redraws
      ensures Valid()
      ensures redraws == old(redraws) + 1
      ensures pending == TakeFirst(old(pending), MSG_UPDATE_TIME) + [Message(MSG_UPDATE_TIME, NextTickDelay(now))]
    {
      pending := TakeFirst(pending, MSG_UPDATE_TIME);
      redraws := redraws + 1;
      if ShouldTimerBeRunning() {
        var delayMs := INTERACTIVE_UPDATE_RATE_MS - JavaRemainder(now, INTERACTIVE_UPDATE_RATE_MS);
        CountWhatAppend(pending, Message(MSG_UPDATE_TIME, delayMs), MSG_UPDATE_TIME);
        pending := pending + [Message(MSG_UPDATE_TIME, delayMs)];
      }
    }

    /** `onDestroy`: no tick remains pending. */
    method OnDestroy()
      modifies this`pending
      ensures PendingTicks() == 0
      ensures pending == RemoveMessages(old(pending), MSG_UPDATE_TIME)
    {
      pending := RemoveMessages(pending, MSG_UPDATE_TIME);
    }

    /** `trigger`, run from `onConnected`: put the bootstrap marker carrying
        `token` (a random UUID string) at "/weather". */
    method Trigger(token: string)
      modifies this`puts
      ensures puts == old(puts) + [MarkerRequest(token)]
    {
      var dataMap: DataMap := map[];
      dataMap := dataMap[MARKER_KEY := StringValue(token)];
      puts := puts + [PutRequest(WEATHER_PATH, dataMap)];
    }

    /** `onDataChanged`: merge every event acted on into the display fields,
        one redraw request per such event. */
    method OnDataChanged(events: seq<DataEvent>)
      modifies this`weatherHigh, this`weatherLow, this`weatherIcon, this`redraws
      ensures Display() == ApplyEvents(old(Display()), events, iconOf)
      ensures redraws == old(redraws) + CountWeatherUpdates(events)
    {
      var i := 0;
      while i < |events|
        invariant 0 <= i <= |events|
        invariant Display() == ApplyEvents(old(Display()), events[..i], iconOf)
        invariant redraws == old(redraws) + CountWeatherUpdates(events[..i])
      {
        var dataEvent := events[i];
        if dataEvent.eventType == TypeChanged {
          var dataMap := dataEvent.dataMap;
          var path := dataEvent.path;
          if path == WEATHER_PATH {
            if KEY_HIGH in dataMap {
              weatherHigh := GetString(dataMap, KEY_HIGH);
            }
            if KEY_LOW in dataMap {
              weatherLow := GetString(dataMap, KEY_LOW);
            }
            if KEY_WEATHER_ID in dataMap {
              var weatherId := GetInt(dataMap, KEY_WEATHER_ID);
              weatherIcon := Some(iconOf(weatherId));
            }
            redraws := redraws + 1;
          }
        }
        assert events[..i + 1][..i] == events[..i];
        i := i + 1;
      }
      assert events[..|events|] == events;
    }
  }

  /** The hour onDraw shows: HOUR_OF_DAY in 24-hour mode, otherwise the
      12-hour display of `Calendar.HOUR`. */
  function DisplayHour(is24Hour: bool, hourOfDay: int, hour: int): (shown: int)
    ensures is24Hour ==> shown == hourOfDay
    ensures !is24Hour && 0 <= hour < 12 ==> 1 <= shown <= 12 && shown % 12 == hour
  {
    if is24Hour then hourOfDay else TwelveHourDisplay(hour)
  }
}
