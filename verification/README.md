# Sunshine weather digest: phone publisher and watch face, in Dafny

This project models the sequential core of the Sunshine wearable extension.
There are two sides:

- **Phone side, `WearService`.** When it receives the `ACTION_UPDATE_WATCH_FACE` command, it builds a data-API client and connects it. Once connected, it reads today's weather row. If there is a row, it puts a three-field digest at `/weather`: the weather id as an int, and the formatted maximum and minimum temperatures as strings.
- **Watch side, `SunshineWatchFaceService.Engine`.** It listens for change events. Every `TYPE_CHANGED` event at `/weather` is merged into the three display fields, key by key, and requests one redraw. Absent keys leave their field alone. Unknown keys, such as the `"DATA"` bootstrap marker that the watch itself puts on connect, are ignored.

The watch face also keeps some housekeeping state, all modelled here:

- the time-zone receiver's registration flag;
- the once-per-second redraw tick in the handler's queue;
- the ambient flag;
- the 12-hour hour shown by `onDraw`.

Modules:

- `Wrappers`: `Option`, which stands for Java's null.
- `DataLayer`: the vendor data API's shapes. This covers the DataMap values, change events and put requests. It also has the `getString`/`getInt` behaviour of a DataMap and the Java `int`/`long` ranges.
- `WatchFace`: the `Engine` class, whose fields are the ones the source updates in place. It also holds the specification functions its methods are proved against and the lemmas about them.
- `WearService`: the `Service` class, with the cursor and the client as small classes, and the digest encoder.
- `Sync`: the cross-file statements. The keys agree between the two files, a published row round-trips into the display, and the last published row wins.

Platform state that the framework owns is kept as fields that only the corresponding callbacks change:

- `isVisible()` is the field `visible`, changed only by `onVisibilityChanged`;
- `isInAmbientMode()` is the field `inAmbientMode`, changed only by `onAmbientModeChanged`.

So the engine's invariant `Valid()` can say that a tick is pending exactly when the face is visible and not ambient, and never more than one.

Things that are not modelled, or come in as parameters:

- The icon lookup and its bitmap scaling are a parameter `iconOf` of the engine.
- `Utility.formatTemperature` is a parameter `formatTemperature`.
- The content-store query is represented by the `Cursor` it returns, which may be null.
- `System.currentTimeMillis()` is a parameter `now`.
- `UUID.randomUUID()` is a parameter `token`.
- Delivery of a put to a listener is the function `DataLayer.Deliver`: a `TYPE_CHANGED` event with the same path and DataMap. The listener may be on either device, including the one that made the put.
- Two DataMap getters are vendor behaviour and are assumed here. `getString` yields null when the key is absent or holds another type. `getInt` yields 0 in the same cases. `DataLayer.GetString` and `DataLayer.GetInt` state this, and the put/get laws below are proved from them.
- The cursor's `moveToFirst` is assumed to succeed exactly when the query returned a row (`WearService.Cursor.MoveToFirst`).

## Model

| member | source | states |
|---|---|---|
| `DataLayer.GetStringAfterPutString` | app/src/main/java/com/example/android/sunshine/app/wearService/WearService.java:68-69 | a string put under a key is read back unchanged by `getString` under that key |
| `DataLayer.GetIntAfterPutInt` | app/src/main/java/com/example/android/sunshine/app/wearService/WearService.java:67 | an int put under a key is read back by `getInt` under that key, and `getString` under that key yields null |
| `DataLayer.PutLeavesOtherKeys` | sunshinewatchface/src/main/java/com/sureshcs50/sunshinewatchface/SunshineWatchFaceService.java:406-421 | a put under one key changes neither getter's result under any other key, so the decoder's three reads are independent |
| `WatchFace.CountWeatherUpdates` | sunshinewatchface/src/main/java/com/sureshcs50/sunshinewatchface/SunshineWatchFaceService.java:400-435 | a buffer requests at most one redraw per event, and none exactly when no event is `TYPE_CHANGED` at `/weather` |
| `WatchFace.MarkerRequest` | sunshinewatchface/src/main/java/com/sureshcs50/sunshinewatchface/SunshineWatchFaceService.java:445-448 | the bootstrap marker is put at `/weather` and its DataMap has the single key `"DATA"` |
| `WatchFace.IgnoredEventChangesNothing` | sunshinewatchface/src/main/java/com/sureshcs50/sunshinewatchface/SunshineWatchFaceService.java:401-405 | an event that is not `TYPE_CHANGED`, or not at `/weather`, changes no display field and requests no redraw |
| `WatchFace.UnknownKeysIgnored` | sunshinewatchface/src/main/java/com/sureshcs50/sunshinewatchface/SunshineWatchFaceService.java:405-432 | decoding an event gives the same display state as decoding only its three digest keys |
| `WatchFace.MarkerChangesNoField` | sunshinewatchface/src/main/java/com/sureshcs50/sunshinewatchface/SunshineWatchFaceService.java:445-447 | the delivered bootstrap marker is acted on, but it leaves all three display fields as they were |
| `WatchFace.OnlyHighSetsHigh` | sunshinewatchface/src/main/java/com/sureshcs50/sunshinewatchface/SunshineWatchFaceService.java:406-411 | an event with only `KEY_MAX_TEMP` sets the high field to that string and leaves the low field and the icon unchanged |
| `WatchFace.OnlyLowSetsLow` | sunshinewatchface/src/main/java/com/sureshcs50/sunshinewatchface/SunshineWatchFaceService.java:413-418 | an event with only `KEY_MIN_TEMP` sets the low field to that string and leaves the high field and the icon unchanged |
| `WatchFace.OnlyIdSetsIcon` | sunshinewatchface/src/main/java/com/sureshcs50/sunshinewatchface/SunshineWatchFaceService.java:420-432 | an event with only `KEY_WEATHER_ID` sets the icon to the one for that id and leaves both temperatures unchanged |
| `WatchFace.FieldAfterEvent` | sunshinewatchface/src/main/java/com/sureshcs50/sunshinewatchface/SunshineWatchFaceService.java:405-432 | each field is merged independently: it takes its key's decoded value when the event is acted on and carries the key, and keeps its old value otherwise |
| `WatchFace.UnassignedFieldKept` | sunshinewatchface/src/main/java/com/sureshcs50/sunshinewatchface/SunshineWatchFaceService.java:400-437 | over a buffer in which no acted-on event carries a key, that key's field keeps its prior value |
| `WatchFace.LastAssignmentWins` | sunshinewatchface/src/main/java/com/sureshcs50/sunshinewatchface/SunshineWatchFaceService.java:400-437 | over a buffer, each field ends with the decoded value from the last acted-on event that carries its key |
| `WatchFace.JavaRemainder` | sunshinewatchface/src/main/java/com/sureshcs50/sunshinewatchface/SunshineWatchFaceService.java:379-380 | Java's `%` with a positive divisor: the dividend equals divisor times the truncated quotient plus the remainder; the remainder has the sign of the dividend and its magnitude is below the divisor |
| `WatchFace.NextTickDelay` | sunshinewatchface/src/main/java/com/sureshcs50/sunshinewatchface/SunshineWatchFaceService.java:378-381 | the re-arm delay is at least 1 and fits in a long; `now + delay` is a whole second; for `now >= 0` the delay is at most 1000 |
| `WatchFace.NextTickIsNextWholeSecond` | sunshinewatchface/src/main/java/com/sureshcs50/sunshinewatchface/SunshineWatchFaceService.java:378-381 | for `now >= 0`, no whole second lies strictly between `now` and the re-armed tick, so the tick lands on the next one |
| `WatchFace.TwelveHourDisplay` | sunshinewatchface/src/main/java/com/sureshcs50/sunshinewatchface/SunshineWatchFaceService.java:302-306 | a `Calendar.HOUR` value in 0..11 is shown as the hour in 1..12 congruent to it modulo 12, so 0 is shown as 12 |
| `WatchFace.TwelveHourDisplayIsInjective` | sunshinewatchface/src/main/java/com/sureshcs50/sunshinewatchface/SunshineWatchFaceService.java:302-306 | distinct hours 0..11 are shown as distinct hours, so every hour 1..12 appears exactly once |
| `WatchFace.DisplayHour` | sunshinewatchface/src/main/java/com/sureshcs50/sunshinewatchface/SunshineWatchFaceService.java:297-307 | 24-hour mode shows `HOUR_OF_DAY` unchanged; 12-hour mode shows the 1..12 hour congruent to `Calendar.HOUR` |
| `WatchFace.RemoveMessages` | sunshinewatchface/src/main/java/com/sureshcs50/sunshinewatchface/SunshineWatchFaceService.java:365 | `removeMessages(what)` leaves no message with that code; every other message stays with its multiplicity, and every other code keeps its count |
| `WatchFace.TakeFirst` | sunshinewatchface/src/main/java/com/sureshcs50/sunshinewatchface/SunshineWatchFaceService.java:472-477 | delivering a message removes exactly the first queued message with its code; the queue before and after it is unchanged |
| `WatchFace.CountWhatAppend` | sunshinewatchface/src/main/java/com/sureshcs50/sunshinewatchface/SunshineWatchFaceService.java:367 | sending a message adds one to the count of its code and nothing to the other codes |
| `WatchFace.AlternatingLogBalance` | sunshinewatchface/src/main/java/com/sureshcs50/sunshinewatchface/SunshineWatchFaceService.java:203-218 | with alternating register/unregister calls, registrations exceed unregistrations by one exactly while registered, and by zero otherwise |
| `WatchFace.Engine.constructor` | sunshinewatchface/src/main/java/com/sureshcs50/sunshinewatchface/SunshineWatchFaceService.java:113-128 | a new engine has no weather, the receiver is unregistered, it is not visible or ambient, and no tick is pending; the invariant holds |
| `WatchFace.Engine.RegisterReceiver` | sunshinewatchface/src/main/java/com/sureshcs50/sunshinewatchface/SunshineWatchFaceService.java:203-210 | the platform sees a registration only if the receiver was not registered (idempotent); afterwards the flag is set and matches the platform |
| `WatchFace.Engine.UnregisterReceiver` | sunshinewatchface/src/main/java/com/sureshcs50/sunshinewatchface/SunshineWatchFaceService.java:212-218 | the platform sees an unregistration only if the receiver was registered; afterwards the flag is clear and matches the platform |
| `WatchFace.Engine.UpdateTimer` | sunshinewatchface/src/main/java/com/sureshcs50/sunshinewatchface/SunshineWatchFaceService.java:364-373 | afterwards exactly one tick is pending if the face is visible and not ambient, and none otherwise |
| `WatchFace.Engine.OnVisibilityChanged` | sunshinewatchface/src/main/java/com/sureshcs50/sunshinewatchface/SunshineWatchFaceService.java:179-201 | the receiver ends registered exactly when visible, with a platform call only on a change; the queue becomes the old one without ticks, plus one immediate tick if visible and not ambient; the invariant is kept |
| `WatchFace.Engine.OnAmbientModeChanged` | sunshinewatchface/src/main/java/com/sureshcs50/sunshinewatchface/SunshineWatchFaceService.java:263-279 | `mAmbient` follows the new mode and a redraw is requested only on a change; the queue becomes the old one without ticks, plus one immediate tick if visible and not ambient; the invariant is kept |
| `WatchFace.Engine.OnTimeTick` | sunshinewatchface/src/main/java/com/sureshcs50/sunshinewatchface/SunshineWatchFaceService.java:257-261 | the framework's tick requests exactly one redraw |
| `WatchFace.Engine.HandleUpdateTimeMessage` | sunshinewatchface/src/main/java/com/sureshcs50/sunshinewatchface/SunshineWatchFaceService.java:375-383 | delivering the pending tick redraws once and re-arms a single tick at `NextTickDelay(now)`; the invariant is kept |
| `WatchFace.Engine.OnDestroy` | sunshinewatchface/src/main/java/com/sureshcs50/sunshinewatchface/SunshineWatchFaceService.java:165-169 | no tick is pending afterwards, and other messages are kept |
| `WatchFace.Engine.Trigger` | sunshinewatchface/src/main/java/com/sureshcs50/sunshinewatchface/SunshineWatchFaceService.java:445-461 | exactly one put is appended, the bootstrap marker carrying the token |
| `WatchFace.Engine.OnDataChanged` | sunshinewatchface/src/main/java/com/sureshcs50/sunshinewatchface/SunshineWatchFaceService.java:397-438 | the display fields become the first-to-last merge of the buffer's events (`ApplyEvents`), and one redraw is requested per acted-on event |
| `WearService.Digest` | app/src/main/java/com/example/android/sunshine/app/wearService/WearService.java:66-69 | the digest DataMap has exactly the keys `KEY_WEATHER_ID`, `KEY_MAX_TEMP` and `KEY_MIN_TEMP` |
| `WearService.DigestRequest` | app/src/main/java/com/example/android/sunshine/app/wearService/WearService.java:66-72 | the digest is put at `/weather` with exactly the three digest keys |
| `WearService.Publication` | app/src/main/java/com/example/android/sunshine/app/wearService/WearService.java:58-73 | with no row there is no put; with a row there is exactly one put, at `/weather`, with exactly the three digest keys |
| `WearService.UpdateCommandIsExactlyTheAction` | app/src/main/java/com/example/android/sunshine/app/wearService/WearService.java:89-91 | the intent guard holds exactly for a non-null intent whose action is the non-null string `ACTION_UPDATE_WATCH_FACE` |
| `WearService.Service.OnStartCommand` | app/src/main/java/com/example/android/sunshine/app/wearService/WearService.java:87-102 | a new client is built and connected exactly when the intent is non-null and its non-null action equals `ACTION_UPDATE_WATCH_FACE`; otherwise the client field is unchanged |
| `WearService.Service.OnConnected` | app/src/main/java/com/example/android/sunshine/app/wearService/WearService.java:43-75 | with a cursor, the puts issued are exactly `Publication(first row)` and the cursor is closed exactly once on both paths; with a null cursor, `moveToFirst` throws, nothing is put and nothing is closed |
| `Sync.KeysAgree` | app/src/main/java/com/example/android/sunshine/app/wearService/WearService.java:33-36 | the phone's path and key strings equal the watch's `WEATHER_PATH`, `KEY_WEATHER_ID`, `KEY_HIGH` and `KEY_LOW` |
| `Sync.DigestRoundTrip` | app/src/main/java/com/example/android/sunshine/app/wearService/WearService.java:58-72 | the delivered digest of a row sets high and low to the formatted max and min and the icon to the one for the weather id, whatever the display held before |
| `Sync.MarkersAloneChangeNothing` | sunshinewatchface/src/main/java/com/sureshcs50/sunshinewatchface/SunshineWatchFaceService.java:445-447 | any number of delivered bootstrap markers leave the display unchanged |
| `Sync.LastRowShown` | app/src/main/java/com/example/android/sunshine/app/wearService/WearService.java:58-72 | after rows and markers are delivered in order, the watch shows the last published row |

## Left out

- Canvas drawing is not modelled: text measurement, paints and their anti-aliasing, offsets, `onApplyWindowInsets` and `onPropertiesChanged`. These are UI and floating-point layout.
- The icon lookup is a parameter `iconOf`, and it is assumed to yield a bitmap. The cast to `BitmapDrawable` and the scaling of the bitmap to the text size are not modelled. A drawable that is not a bitmap makes the source throw, and the model does not capture that.
- `WatchFace.Engine.OnDataChanged`: does not model the exception the icon branch raises for a non-bitmap drawable (see above).
- GoogleApiClient connect/disconnect on the watch is not modelled, nor are `addListener`/`removeListener`, `onConnectionSuspended`/`onConnectionFailed`, or the asynchronous result callback of a put. These are vendor replication I/O. A put is modelled only as a record appended to `puts`, and the watch's `onConnected` only as its `trigger` call.
- The vendor channel's own store is not modelled, so neither is "a later put replaces the item at the path". Delivery is `DataLayer.Deliver`, in order.
- The content-resolver query, `WeatherContract` URIs, `Utility.getPreferredLocation` and `Utility.formatTemperature` are not modelled. The cursor, possibly null, and the formatter are parameters. The exception a null cursor raises is modelled only as the `threw` result of `OnConnected`; what the framework does with the exception is not modelled. The raw temperatures are `real`, standing in for doubles that only the formatter reads.
- The time-zone receiver's body and `Calendar`/`TimeZone` are not modelled. `Calendar.HOUR` and `HOUR_OF_DAY` are inputs of `DisplayHour`.
- The `EngineHandler` weak reference is not modelled: delivering a tick is `HandleUpdateTimeMessage`, and the engine is assumed alive.
- Logging and `WatchFaceStyle` setup are not modelled.
- `WearService.Service.OnStartCommand`: does not model the value returned by `super.onStartCommand`.
- `WearService.onDestroy` is not modelled. It disconnects a client that may still be null.
