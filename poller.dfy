/** The widget's polling loop: one fetch of the device list at a time, the next one armed on
    a timer whose delay depends on how the previous fetch ended, and the latest device list
    kept for the display (`getData`, `scheduleUpdate`, `processData`,
    `socketNotificationReceived`). */
module Poller {

  import opened Optional
  import opened Devices
  import opened Format

  /** The settings the core reads: the polling loop the token and the delays, the display
      the device selector and the hour format. All are fixed for the life of the widget. */
  datatype Config = Config(
    apiToken: string,
    updateInterval: int,
    retryDelay: int,
    deviceID: string,
    deviceName: string,
    motionDateHourFormat: string)

  /** The module's defaults: ten minutes between fetches, five seconds before a retry,
      no token and no device selected. */
  const Defaults: Config := Config("", 10 * 60 * 1000, 5000, "", "", "24h")

  /** The fixed wait after a 429 response. */
  const TooManyRequestsDelay: int := 60 * 1000

  /** The only notification the helper process sends back. */
  const HelperNotification: string := "MMM-NatureRemo-NOTIFICATION"

  /** How one fetch of the device list ends: a 401 or 429 status, another status that is not
      ok, a network failure or a body that is not JSON, or the parsed device list. */
  datatype Outcome =
    | Unauthorized
    | TooManyRequests
    | OtherHttpError
    | NetworkOrParseError
    | Success(data: seq<Device>)

  /** What the helper pushes; the widget shows only its date. */
  datatype Payload = Payload(date: string)

  /** The widget's fields: whether a device list was ever received, the latest list, the
      latest helper payload, the delay of the armed timer (if any), and how many redraws
      the core itself has requested. */
  datatype ModuleState = ModuleState(
    loaded: bool,
    sensorData: Option<seq<Device>>,
    dataNotification: Option<Payload>,
    armed: Option<int>,
    redraws: nat)

  const Initial: ModuleState := ModuleState(false, None, None, None, 0)

  /** The delay of the timer armed after a fetch, or None when polling stops: no token or a
      401 stops it; once a device list was received, and on the first success itself, the next
      fetch waits the update interval; before that a 429 waits one minute and any other
      failure the retry delay, a negative delay falling back to the update interval. */
  function NextFetch(c: Config, wasLoaded: bool, o: Outcome): Option<int> {
    if c.apiToken == "" || o.Unauthorized? then None
    else if wasLoaded || o.Success? then Some(c.updateInterval)
    else
      var wanted := if o.TooManyRequests? then TooManyRequestsDelay else c.retryDelay;
      Some(if wanted >= 0 then wanted else c.updateInterval)
  }

  /** The state after one call of `getData` whose fetch ends with `o`, entered with no timer armed. */
  function Fetched(c: Config, s: ModuleState, o: Outcome): ModuleState {
    var received := c.apiToken != "" && o.Success?;
    s.(loaded := s.loaded || received,
       sensorData := if received then Some(o.data) else s.sensorData,
       armed := NextFetch(c, s.loaded, o),
       redraws := s.redraws + if received && !s.loaded then 1 else 0)
  }

  /** The armed timer goes off and `getData` runs with the fetch ending in `o`. */
  function Fire(c: Config, s: ModuleState, o: Outcome): ModuleState {
    Fetched(c, s.(armed := None), o)
  }

  /** The state after the armed timer has gone off once per outcome in `os`, stopping as soon
      as no timer is armed. */
  function Run(c: Config, s: ModuleState, os: seq<Outcome>): ModuleState
    decreases |os|
  {
    if os == [] || s.armed.None? then s else Run(c, Fire(c, s, os[0]), os[1..])
  }

  /** `socketNotificationReceived`: the helper's payload is kept and a redraw requested. */
  function Received(s: ModuleState, notification: string, payload: Payload): ModuleState {
    if notification == HelperNotification
    then s.(dataNotification := Some(payload), redraws := s.redraws + 1)
    else s
  }

  /** The widget instance, with the fields `start`, `getData` and `processData` update. */
  class NatureRemo {
    const config: Config
    var loaded: bool
    var sensorData: Option<seq<Device>>
    var dataNotification: Option<Payload>
    var armed: Option<int>
    var redraws: nat

    function State(): ModuleState
      reads this
    {
      ModuleState(loaded, sensorData, dataNotification, armed, redraws)
    }

    /** `start`: nothing loaded yet, then the first `getData`. */
    constructor Start(config: Config, first: Outcome)
      ensures this.config == config
      ensures State() == Fetched(config, Initial, first)
    {
      this.config := config;
      loaded := false;
      sensorData := None;
      dataNotification := None;
      armed := None;
      redraws := 0;
      new;
      GetData(first);
    }

    /** `getData`: without a token nothing happens; otherwise the fetch's outcome decides
        whether `processData` runs and whether, and after how long, the next fetch is armed. */
    method GetData(fetch: Outcome)
      requires armed.None?
      modifies this
      ensures State() == Fetched(config, old(State()), fetch)
    {
      if config.apiToken == "" {
        return;
      }
      var retry := true;
      var delay := config.retryDelay;
      match fetch {
        case Unauthorized =>
          retry := false;
        case TooManyRequests =>
          delay := TooManyRequestsDelay;
        case OtherHttpError =>
        case NetworkOrParseError =>
        case Success(data) =>
          ProcessData(data);
      }
      if retry {
        ScheduleUpdate(Some(if loaded then -1 else delay));
      }
    }

    /** `scheduleUpdate(delay)`: arms the timer with `delay` when it is given and not negative,
        otherwise with the update interval. */
    method ScheduleUpdate(delay: Option<int>)
      requires armed.None?
      modifies this`armed
      ensures armed == Some(if delay.Some? && delay.value >= 0 then delay.value else config.updateInterval)
    {
      var nextLoad := config.updateInterval;
      if delay.Some? && delay.value >= 0 {
        nextLoad := delay.value;
      }
      armed := Some(nextLoad);
    }

    /** `processData(data)`: the new list replaces the old one whole; a redraw is requested
        only for the first list. */
    method ProcessData(data: seq<Device>)
      modifies this`sensorData, this`loaded, this`redraws
      ensures sensorData == Some(data) && loaded
      ensures redraws == old(redraws) + if old(loaded) then 0 else 1
    {
      sensorData := Some(data);
      if !loaded {
        redraws := redraws + 1;
      }
      loaded := true;
    }

    /** The armed timer's callback: the timer is spent and `getData` runs. */
    method TimerFired(fetch: Outcome)
      requires armed.Some?
      modifies this
      ensures State() == Fire(config, old(State()), fetch)
    {
      armed := None;
      GetData(fetch);
    }

    /** `socketNotificationReceived(notification, payload)`. */
    method SocketNotificationReceived(notification: string, payload: Payload)
      modifies this`dataNotification, this`redraws
      ensures State() == Received(old(State()), notification, payload)
    {
      if notification == HelperNotification {
        dataNotification := Some(payload);
        redraws := redraws + 1;
      }
    }
  }

  // ---------------------------------------------------------------------------
  // What one fetch does

  /** One fetch: no token or a 401 leaves no timer armed and every other outcome arms one;
      before the first device list a 429 waits one minute and another failure the retry delay;
      once a list was received, or on the first success, the update interval is used; only a
      success changes the stored list, and only the first one requests a redraw. */
  lemma OneFetch(c: Config, s: ModuleState, o: Outcome)
    ensures Fetched(c, s, o).armed.None? <==> c.apiToken == "" || o.Unauthorized?
    ensures c.apiToken != "" && !s.loaded && o.TooManyRequests? ==>
              Fetched(c, s, o).armed == Some(TooManyRequestsDelay)
    ensures c.apiToken != "" && !s.loaded && (o.OtherHttpError? || o.NetworkOrParseError?) && c.retryDelay >= 0 ==>
              Fetched(c, s, o).armed == Some(c.retryDelay)
    ensures c.apiToken != "" && (s.loaded || o.Success?) && !o.Unauthorized? ==>
              Fetched(c, s, o).armed == Some(c.updateInterval)
    ensures c.apiToken != "" && o.Success? ==>
              Fetched(c, s, o).loaded && Fetched(c, s, o).sensorData == Some(o.data)
    ensures c.apiToken == "" || !o.Success? ==>
              Fetched(c, s, o).loaded == s.loaded && Fetched(c, s, o).sensorData == s.sensorData
    ensures Fetched(c, s, o).redraws == s.redraws + if c.apiToken != "" && o.Success? && !s.loaded then 1 else 0
    ensures Fetched(c, s, o).dataNotification == s.dataNotification
  {
  }

  /** The back-off of a rate-limited fetch applies only before the first device list:
      afterwards a 429 waits the update interval like any other outcome. */
  lemma RateLimitAfterFirstSuccess(c: Config, data: seq<Device>)
    requires c.apiToken != "" && c.updateInterval != TooManyRequestsDelay
    ensures Fetched(c, Initial, TooManyRequests).armed == Some(TooManyRequestsDelay)
    ensures Fire(c, Fetched(c, Initial, Success(data)), TooManyRequests).armed == Some(c.updateInterval)
    ensures Fire(c, Fetched(c, Initial, Success(data)), TooManyRequests).armed != Some(TooManyRequestsDelay)
  {
  }

  // ---------------------------------------------------------------------------
  // What a run of fetches does

  /** Once a device list was received, the widget never returns to the not-loaded state. */
  lemma {:induction false} RunKeepsLoaded(c: Config, s: ModuleState, os: seq<Outcome>)
    requires s.loaded
    ensures Run(c, s, os).loaded
    decreases |os|
  {
    if os != [] && s.armed.Some? {
      RunKeepsLoaded(c, Fire(c, s, os[0]), os[1..]);
    }
  }

  /** After the first device list every armed timer waits exactly the update interval. */
  lemma {:induction false} SteadyAfterFirstSuccess(c: Config, s: ModuleState, os: seq<Outcome>)
    requires s.loaded
    requires s.armed.None? || s.armed == Some(c.updateInterval)
    ensures Run(c, s, os).loaded
    ensures Run(c, s, os).armed.None? || Run(c, s, os).armed == Some(c.updateInterval)
    decreases |os|
  {
    if os != [] && s.armed.Some? {
      SteadyAfterFirstSuccess(c, Fire(c, s, os[0]), os[1..]);
    }
  }

  /** Polling that has stopped stays stopped, whatever outcomes would follow. */
  lemma {:induction false} StoppedStaysStopped(c: Config, s: ModuleState, os: seq<Outcome>, more: seq<Outcome>)
    requires Run(c, s, os).armed.None?
    ensures Run(c, s, os + more) == Run(c, s, os)
    decreases |os|
  {
    if os == [] {
      assert os + more == more;
      if more != [] {
        assert s.armed.None?;
      }
    } else if s.armed.Some? {
      assert (os + more)[0] == os[0];
      assert (os + more)[1..] == os[1..] + more;
      StoppedStaysStopped(c, Fire(c, s, os[0]), os[1..], more);
    }
  }

  /** The stored list after a run: the data of the last success, or what was stored before. */
  function LatestData(stored: Option<seq<Device>>, os: seq<Outcome>): Option<seq<Device>>
    decreases |os|
  {
    if os == [] then stored
    else LatestData(if os[0].Success? then Some(os[0].data) else stored, os[1..])
  }

  predicate HasSuccess(os: seq<Outcome>) {
    exists i :: 0 <= i < |os| && os[i].Success?
  }

  /** Without a 401, polling with a token never stops: every outcome is consumed, the widget is
      loaded exactly when some fetch succeeded, the stored list is the last one received, and
      a redraw is requested for the first list only. */
  lemma {:induction false} RunWithoutUnauthorized(c: Config, s: ModuleState, os: seq<Outcome>)
    requires c.apiToken != "" && s.armed.Some?
    requires forall i :: 0 <= i < |os| ==> !os[i].Unauthorized?
    ensures Run(c, s, os).armed.Some?
    ensures Run(c, s, os).loaded == (s.loaded || HasSuccess(os))
    ensures Run(c, s, os).sensorData == LatestData(s.sensorData, os)
    ensures Run(c, s, os).redraws == s.redraws + if !s.loaded && HasSuccess(os) then 1 else 0
    ensures Run(c, s, os).dataNotification == s.dataNotification
    decreases |os|
  {
    if os != [] {
      var next := Fire(c, s, os[0]);
      RunWithoutUnauthorized(c, next, os[1..]);
      assert HasSuccess(os) == (os[0].Success? || HasSuccess(os[1..])) by {
        if HasSuccess(os[1..]) {
          var i :| 0 <= i < |os[1..]| && os[1..][i].Success?;
          assert os[i + 1].Success?;
        }
        if HasSuccess(os) && !os[0].Success? {
          var i :| 0 <= i < |os| && os[i].Success?;
          assert os[1..][i - 1].Success?;
        }
      }
    }
  }

  /** A 401 ends polling for good: the outcomes after the first 401 are never fetched. */
  lemma {:induction false} UnauthorizedEndsPolling(c: Config, s: ModuleState, os: seq<Outcome>, k: nat)
    requires s.armed.Some?
    requires k < |os| && os[k].Unauthorized?
    requires forall i :: 0 <= i < k ==> !os[i].Unauthorized?
    ensures Run(c, s, os).armed.None?
    ensures Run(c, s, os) == Run(c, s, os[..k + 1])
    decreases k
  {
    var next := Fire(c, s, os[0]);
    if k == 0 {
      assert next.armed.None?;
      assert Run(c, s, os[..1]) == Run(c, next, []);
    } else if next.armed.None? {
      assert os[1..k + 1] != [];
    } else {
      assert os[..k + 1][1..] == os[1..][..k];
      UnauthorizedEndsPolling(c, next, os[1..], k - 1);
    }
  }

  /** An empty token is reported and nothing is ever fetched or armed. */
  lemma NoTokenNoPolling(c: Config, first: Outcome, os: seq<Outcome>)
    requires c.apiToken == ""
    ensures Fetched(c, Initial, first) == Initial
    ensures Run(c, Fetched(c, Initial, first), os) == Initial
  {
  }

  /** With the defaults the widget does not poll: the token must be configured. */
  lemma DefaultsDoNotPoll(first: Outcome)
    ensures Fetched(Defaults, Initial, first).armed.None?
  {
  }

  // ---------------------------------------------------------------------------
  // What the display reads from the configuration

  /** The device `getDom` looks up: nothing before a list is stored, else what `getDevice`
      picks from the stored list under the configured identifier or name. */
  function ShownDevice(c: Config, s: ModuleState): Option<Lookup> {
    if s.sensorData.Some? then Some(GetDevice(s.sensorData.value, c.deviceID, c.deviceName)) else None
  }

  /** The motion time `getDom` writes, in the configured hour format. */
  function MotionTime(c: Config, hour: int, minute: int): string {
    HourString(c.motionDateHourFormat, hour, minute)
  }

  /** Position `i` holds the last success of `os`. */
  predicate LastSuccessAt(os: seq<Outcome>, i: int) {
    0 <= i < |os| && os[i].Success? && forall j :: i < j < |os| ==> !os[j].Success?
  }

  /** After outcomes holding a success, the stored list is the data of the last success. */
  lemma {:induction false} LatestIsLastSuccess(stored: Option<seq<Device>>, os: seq<Outcome>)
    requires HasSuccess(os)
    ensures exists i :: LastSuccessAt(os, i) && LatestData(stored, os) == Some(os[i].data)
    decreases |os|
  {
    var next := if os[0].Success? then Some(os[0].data) else stored;
    if HasSuccess(os[1..]) {
      LatestIsLastSuccess(next, os[1..]);
      var i :| LastSuccessAt(os[1..], i) && LatestData(next, os[1..]) == Some(os[1..][i].data);
      assert LastSuccessAt(os, i + 1) by {
        forall j | i + 1 < j < |os|
          ensures !os[j].Success?
        {
          assert os[j] == os[1..][j - 1];
        }
      }
    } else {
      LatestWithoutSuccess(next, os[1..]);
      assert LastSuccessAt(os, 0) by {
        forall j | 0 < j < |os|
          ensures !os[j].Success?
        {
          assert os[j] == os[1..][j - 1];
        }
      }
    }
  }

  /** Outcomes without a success leave the stored list as it was. */
  lemma {:induction false} LatestWithoutSuccess(stored: Option<seq<Device>>, os: seq<Outcome>)
    requires !HasSuccess(os)
    ensures LatestData(stored, os) == stored
    decreases |os|
  {
    if os != [] {
      assert !os[0].Success?;
      LatestWithoutSuccess(stored, os[1..]);
    }
  }

  /** While polling goes on without a 401, the widget shows the device that the configured
      selector picks from the list of the last successful fetch. */
  lemma ShowsLastReceivedList(c: Config, s: ModuleState, os: seq<Outcome>)
    requires c.apiToken != "" && s.armed.Some?
    requires forall i :: 0 <= i < |os| ==> !os[i].Unauthorized?
    requires HasSuccess(os)
    ensures exists i :: LastSuccessAt(os, i) &&
                        ShownDevice(c, Run(c, s, os)) == Some(GetDevice(os[i].data, c.deviceID, c.deviceName))
  {
    RunWithoutUnauthorized(c, s, os);
    LatestIsLastSuccess(s.sensorData, os);
  }

  /** The default configuration selects no device: once a list is stored, `getDevice` finds
      neither an identifier nor a name to filter on. */
  lemma DefaultsSelectNoDevice(s: ModuleState)
    requires s.sensorData.Some?
    ensures ShownDevice(Defaults, s) == Some(NoSelector)
  {
  }

  /** The default hour format is the 24-hour one: five characters that read back as the time. */
  lemma DefaultsShowTwentyFourHour(hour: int, minute: int)
    requires 0 <= hour <= 23 && 0 <= minute <= 59
    ensures |MotionTime(Defaults, hour, minute)| == 5
    ensures ParseClock("24h", MotionTime(Defaults, hour, minute)) == Some((hour, minute))
  {
    HourStringReadsBack(Defaults.motionDateHourFormat, hour, minute);
  }

  /** In any configured format the motion time of a time of day reads back without loss. */
  lemma MotionTimeReadsBack(c: Config, hour: int, minute: int)
    requires 0 <= hour <= 23 && 0 <= minute <= 59
    ensures ParseClock(c.motionDateHourFormat, MotionTime(c, hour, minute)) == Some((hour, minute))
  {
    HourStringReadsBack(c.motionDateHourFormat, hour, minute);
  }
}
