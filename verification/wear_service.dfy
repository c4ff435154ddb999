/** The phone side: WearService. On an ACTION_UPDATE_WATCH_FACE command it
    builds and connects a data-API client; once connected it reads today's
    weather row and, when there is one, publishes the three-field digest at
    "/weather". The content-store query and temperature formatting are foreign
    code: the query's cursor and the formatter are parameters. */
module WearService {
  import opened Wrappers
  import opened DataLayer

  const ACTION_UPDATE_WATCH_FACE := "ACTION_UPDATE_WATCH_FACE"

  const KEY_PATH := "/weather"
  const KEY_WEATHER_ID := "KEY_WEATHER_ID"
  const KEY_MAX_TEMP := "KEY_MAX_TEMP"
  const KEY_MIN_TEMP := "KEY_MIN_TEMP"

  /** The columns read from today's row: the condition id and the raw maximum
      and minimum temperatures (doubles in the store). */
  datatype WeatherRow = WeatherRow(weatherId: Int32, maxTemp: real, minTemp: real)

  /** An `Intent`, reduced to its possibly-null action string. */
  datatype Intent = Intent(action: Option<string>)

  /** The query result: at most one row for today, and a count of the
      `close()` calls made on it. */
  class Cursor {
    const firstRow: Option<WeatherRow>
    var closeCalls: nat

    constructor (firstRow: Option<WeatherRow>)
      ensures this.firstRow == firstRow && closeCalls == 0
    {
      this.firstRow := firstRow;
      closeCalls := 0;
    }

    /** `moveToFirst`: true exactly when the query returned a row. */
    method MoveToFirst() returns (ok: bool)
      ensures ok <==> firstRow.Some?
    {
      ok := firstRow.Some?;
    }

    method Close()
      modifies this`closeCalls
      ensures closeCalls == old(closeCalls) + 1
    {
      closeCalls := closeCalls + 1;
    }
  }

  /** A data-API client, reduced to whether `connect()` has been called on it. */
  class ApiClient {
    var connectCalled: bool

    constructor ()
      ensures !connectCalled
    {
      connectCalled := false;
    }

    method Connect()
      modifies this`connectCalled
      ensures connectCalled
    {
      connectCalled := true;
    }
  }

  /** The digest DataMap for one row: exactly the three digest keys. */
  function Digest(weatherId: Int32, maxTemp: string, minTemp: string): (m: DataMap)
    ensures m.Keys == {KEY_WEATHER_ID, KEY_MAX_TEMP, KEY_MIN_TEMP}
  {
    map[KEY_WEATHER_ID := IntValue(weatherId), KEY_MAX_TEMP := StringValue(maxTemp), KEY_MIN_TEMP := StringValue(minTemp)]
  }

  /** The put request published for a row, temperatures formatted for display. */
  function DigestRequest(row: WeatherRow, formatTemperature: real -> string): (p: PutRequest)
    ensures p.path == KEY_PATH
    ensures p.dataMap.Keys == {KEY_WEATHER_ID, KEY_MAX_TEMP, KEY_MIN_TEMP}
  {
    PutRequest(KEY_PATH, Digest(row.weatherId, formatTemperature(row.maxTemp), formatTemperature(row.minTemp)))
  }

  /** The puts `onConnected` issues for the query's first row, if any. */
  function Publication(firstRow: Option<WeatherRow>, formatTemperature: real -> string): (ps: seq<PutRequest>)
    ensures firstRow.None? ==> ps == []
    ensures firstRow.Some? ==> |ps| == 1 && ps[0].path == KEY_PATH &&
                               ps[0].dataMap.Keys == {KEY_WEATHER_ID, KEY_MAX_TEMP, KEY_MIN_TEMP}
  {
    match firstRow
    case None => []
    case Some(row) => [DigestRequest(row, formatTemperature)]
  }

  /** The intent guard of `onStartCommand`: a non-null intent whose action is
      non-null and equal to ACTION_UPDATE_WATCH_FACE. */
  predicate IsUpdateCommand(intent: Option<Intent>)
  {
    intent.Some? && intent.value.action.Some? && intent.value.action.value == ACTION_UPDATE_WATCH_FACE
  }

  /** The guard holds for exactly one intent: a non-null one carrying the
      action ACTION_UPDATE_WATCH_FACE. */
  lemma UpdateCommandIsExactlyTheAction(intent: Option<Intent>)
    ensures IsUpdateCommand(intent) <==> intent == Some(Intent(Some(ACTION_UPDATE_WATCH_FACE)))
  {
  }

  class Service {
    /** `mGoogleApiClient`. */
    var client: ApiClient?
    /** The data items put through the data API, in order. */
    var puts: seq<PutRequest>

    constructor ()
      ensures client == null && puts == []
    {
      client := null;
      puts := [];
    }

    /** `onStartCommand`: only the update command replaces the client with a
        new one and connects it; any other intent leaves the field alone. */
    method OnStartCommand(intent: Option<Intent>)
      modifies this`client
      ensures intent == Some(Intent(Some(ACTION_UPDATE_WATCH_FACE))) ==>
                client != null && fresh(client) && client.connectCalled
      ensures intent != Some(Intent(Some(ACTION_UPDATE_WATCH_FACE))) ==> client == old(client)
    {
      UpdateCommandIsExactlyTheAction(intent);
      if IsUpdateCommand(intent) {
        var c := new ApiClient();
        c.Connect();
        client := c;
      }
    }

    /** `onConnected`: when the cursor has a first row, fill a DataMap with the
        weather id and the two formatted temperatures and put it at "/weather";
        close the cursor on both paths. A null cursor (the query's answer when
        the content provider is missing) makes `moveToFirst` throw: `threw` is
        set, nothing is put and nothing is closed. */
    method OnConnected(cursor: Cursor?, formatTemperature: real -> string) returns (threw: bool)
      modifies this`puts, cursor
      ensures threw <==> cursor == null
      ensures cursor == null ==> puts == old(puts)
      ensures cursor != null ==> puts == old(puts) + Publication(cursor.firstRow, formatTemperature)
      ensures cursor != null ==> cursor.closeCalls == old(cursor.closeCalls) + 1
    {
      if cursor == null {
        return true;
      }
      var hasRow := cursor.MoveToFirst();
      if hasRow {
        var row := cursor.firstRow.value;
        var weatherId := row.weatherId;
        var maxTemp := formatTemperature(row.maxTemp);
        var minTemp := formatTemperature(row.minTemp);
        var dataMap: DataMap := map[];
        dataMap := dataMap[KEY_WEATHER_ID := IntValue(weatherId)];
        dataMap := dataMap[KEY_MAX_TEMP := StringValue(maxTemp)];
        dataMap := dataMap[KEY_MIN_TEMP := StringValue(minTemp)];
        puts := puts + [PutRequest(KEY_PATH, dataMap)];
      }
      cursor.Close();
      threw := false;
    }
  }
}
