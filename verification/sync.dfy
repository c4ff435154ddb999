/** The two sides together: what the phone publishes, once delivered to the
    watch, is what the watch shows. */
module Sync {
  import opened Wrappers
  import opened DataLayer
  import WatchFace
  import WearService

  /** Both files name the path and the three digest keys with the same strings. */
  lemma KeysAgree()
    ensures WearService.KEY_PATH == WatchFace.WEATHER_PATH
    ensures WearService.KEY_WEATHER_ID == WatchFace.KEY_WEATHER_ID
    ensures WearService.KEY_MAX_TEMP == WatchFace.KEY_HIGH
    ensures WearService.KEY_MIN_TEMP == WatchFace.KEY_LOW
  {
  }

  /** What the watch shows for a published row. */
  function Shown(row: WearService.WeatherRow, formatTemperature: real -> string, iconOf: Int32 -> WatchFace.Bitmap): WatchFace.DisplayState
  {
    WatchFace.DisplayState(Some(formatTemperature(row.maxTemp)), Some(formatTemperature(row.minTemp)), Some(iconOf(row.weatherId)))
  }

  /** Round trip: delivering the digest of a row sets all three display fields,
      whatever they held before, and requests a redraw. */
  lemma DigestRoundTrip(d: WatchFace.DisplayState, row: WearService.WeatherRow,
                        formatTemperature: real -> string, iconOf: Int32 -> WatchFace.Bitmap)
    ensures WatchFace.IsWeatherUpdate(Deliver(WearService.DigestRequest(row, formatTemperature)))
    ensures WatchFace.ApplyEvent(d, Deliver(WearService.DigestRequest(row, formatTemperature)), iconOf)
            == Shown(row, formatTemperature, iconOf)
  {
  }

  /** A data item put at "/weather" by either device. */
  datatype Publication = RowPublished(row: WearService.WeatherRow) | MarkerPublished(token: string)

  function Request(p: Publication, formatTemperature: real -> string): PutRequest
  {
    match p
    case RowPublished(row) => WearService.DigestRequest(row, formatTemperature)
    case MarkerPublished(token) => WatchFace.MarkerRequest(token)
  }

  /** The change events the watch receives for a sequence of publications
      delivered in order. */
  function Delivered(ps: seq<Publication>, formatTemperature: real -> string): (es: seq<DataEvent>)
    ensures |es| == |ps|
    decreases |ps|
  {
    if ps == [] then []
    else Delivered(ps[..|ps| - 1], formatTemperature) + [Deliver(Request(ps[|ps| - 1], formatTemperature))]
  }

  /** Delivering a sequence of publications, with bootstrap markers mixed in,
      leaves the display as it was while no row has been published. */
  lemma {:induction false} MarkersAloneChangeNothing(d: WatchFace.DisplayState, ps: seq<Publication>,
                                                     formatTemperature: real -> string, iconOf: Int32 -> WatchFace.Bitmap)
    requires forall i :: 0 <= i < |ps| ==> ps[i].MarkerPublished?
    ensures WatchFace.ApplyEvents(d, Delivered(ps, formatTemperature), iconOf) == d
    decreases |ps|
  {
    if ps != [] {
      var init := ps[..|ps| - 1];
      var es := Delivered(ps, formatTemperature);
      assert es[..|es| - 1] == Delivered(init, formatTemperature);
      assert forall i :: 0 <= i < |init| ==> init[i] == ps[i];
      MarkersAloneChangeNothing(d, init, formatTemperature, iconOf);
      WatchFace.MarkerChangesNoField(d, ps[|ps| - 1].token, iconOf);
    }
  }

  /** Delivering a sequence of publications, with bootstrap markers mixed in,
      leaves the watch showing the last published row. */
  lemma {:induction false} LastRowShown(d: WatchFace.DisplayState, ps: seq<Publication>, k: nat,
                                        formatTemperature: real -> string, iconOf: Int32 -> WatchFace.Bitmap)
    requires k < |ps| && ps[k].RowPublished?
    requires forall j :: k < j < |ps| ==> ps[j].MarkerPublished?
    ensures WatchFace.ApplyEvents(d, Delivered(ps, formatTemperature), iconOf) == Shown(ps[k].row, formatTemperature, iconOf)
    decreases |ps|
  {
    var init := ps[..|ps| - 1];
    var es := Delivered(ps, formatTemperature);
    assert es[..|es| - 1] == Delivered(init, formatTemperature);
    var before := WatchFace.ApplyEvents(d, Delivered(init, formatTemperature), iconOf);
    if k == |ps| - 1 {
      DigestRoundTrip(before, ps[k].row, formatTemperature, iconOf);
    } else {
      assert forall i :: 0 <= i < |init| ==> init[i] == ps[i];
      LastRowShown(d, init, k, formatTemperature, iconOf);
      WatchFace.MarkerChangesNoField(before, ps[|ps| - 1].token, iconOf);
    }
  }
}
