/** One monitored Pill: the readings derived from its advertisements, the
    once-set starting gravity, the report rate gate, and the find-or-create
    resolution of its hydrometer and brew on MeadTools. The clock is the `now`
    parameter (seconds); the IEEE-754 binary32 value of a four-byte field is
    supplied by the caller as the function `binary32`. */
module PillSession {
  import opened Common
  import opened Rounding
  import opened Advertisement
  import opened MeadToolsClient

  /** One entry of the "Sessions" list of the configuration document. */
  datatype SessionConfig = SessionConfig(
    brewName: Option<string>,      // "BrewName"
    pillName: Option<string>,      // "Pill Name"
    macAddress: Option<string>,    // "Mac Address"
    pollInterval: Option<int>,     // "Poll Interval"
    startSG: Option<real>,         // "StartSG"
    tempInC: Option<bool>,         // "Temp in C"
    recipeId: RecipeField)         // "MTRecipeId"

  /** The device name the session's hydrometer is looked up by. */
  function HydrometerKey(c: SessionConfig): string {
    c.pillName.GetOr(c.macAddress.GetOr("Default Pill Name"))
  }

  /** A configured starting gravity counts only when it is present and non-zero. */
  predicate StartSGGiven(c: SessionConfig) {
    c.startSG.Some? && c.startSG.value != 0.0
  }

  /** Specific gravity from the raw reading in milli-gravity: round(raw / 1000, 4). */
  function GravityOf(raw: real): real {
    Round4(raw / 1000.0)
  }

  /** calculate_abv: round((start - current) * 131.25, 4). */
  function CalculateAbv(start: real, current: real): real {
    Round4((start - current) * 131.25)
  }

  /** calculate_temp: kelvin to Celsius rounded to two places, or to Fahrenheit unrounded. */
  function CalculateTemp(kelvin: real, celsius: bool): real {
    if celsius then Round2(kelvin - 273.15) else (kelvin - 273.15) * 9.0 / 5.0 + 32.0
  }

  /** round(raw / 256). */
  function BatteryPercent(raw: int): int {
    RoundHalfEven(raw as real / 256.0)
  }

  /** The part of a session's state that decoding changes. */
  datatype Session = Session(
    startingGravity: real, startingGravitySet: bool,
    version: int, gravityVelocity: real, currGravity: real, abv: real,
    temperature: real, battery: int, x: real, y: real, z: real,
    lastEvent: Option<int>, lastTime: int)

  /** The starting_gravity setter: it takes effect only while the latch is open. */
  function Latch(s: Session, g: real): Session {
    if s.startingGravitySet then s else s.(startingGravity := g, startingGravitySet := true)
  }

  /** The readings decode_rapt_data sets from every record: gravity, ABV, temperature,
      battery, event time and the three axes; not the gravity velocity. */
  function Readings(s: Session, m: Metrics, binary32: Float32 -> real, now: int, celsius: bool)
    : Session
  {
    var g := GravityOf(binary32(m.gravity));
    s.(currGravity := g, abv := CalculateAbv(s.startingGravity, g),
       temperature := CalculateTemp(m.temperature as real / 128.0, celsius),
       battery := BatteryPercent(m.battery), lastEvent := Some(now),
       x := m.x as real / 16.0, y := m.y as real / 16.0, z := m.z as real / 16.0)
  }

  /** The rate gate: whether a report fires, and the last-report time after it. */
  function Gate(lastTime: int, minTime: int, now: int): (bool, int) {
    if now - lastTime >= minTime then (true, now) else (false, lastTime)
  }

  /** The result of one packet: the new state and, unless it raised, whether a report fired. */
  datatype StepResult = StepResult(next: Session, outcome: Result<bool>)

  /** decode_rapt_data as written. A refused payload changes nothing. An
      accepted one may latch the starting gravity and sets the version; a
      version-1 record then raises, because it has no gravity velocity. A
      version-2 record updates every reading and passes the rate gate. */
  function StepAsWritten(s: Session, data: seq<Byte>, now: int, minTime: int, celsius: bool,
                         binary32: Float32 -> real): StepResult
  {
    match Decode(data)
    case Err(e) => StepResult(s, Err(e))
    case Ok(m) =>
      var s1 := Latch(s, GravityOf(binary32(m.gravity))).(version := data[2] as int);
      if m.V1? then StepResult(s1, Err(NoGravityVelocity))
      else
        var s2 := Readings(s1.(gravityVelocity := binary32(m.gravityVel)), m, binary32, now, celsius);
        var gate := Gate(s.lastTime, minTime, now);
        StepResult(s2.(lastTime := gate.1), Ok(gate.0))
  }

  /** decode_rapt_data as evidently intended, and as the rest of the model
      handles a packet: a version-1 record, which carries no gravity velocity,
      leaves that reading alone and updates the rest. */
  function Step(s: Session, data: seq<Byte>, now: int, minTime: int, celsius: bool,
                binary32: Float32 -> real): StepResult
  {
    match Decode(data)
    case Err(e) => StepResult(s, Err(e))
    case Ok(m) =>
      var s1 := Latch(s, GravityOf(binary32(m.gravity))).(version := data[2] as int);
      var s2 := if m.V2? then s1.(gravityVelocity := binary32(m.gravityVel)) else s1;
      var gate := Gate(s.lastTime, minTime, now);
      StepResult(Readings(s2, m, binary32, now, celsius).(lastTime := gate.1), Ok(gate.0))
  }

  /** One received payload and the time it arrived. */
  datatype Packet = Packet(data: seq<Byte>, at: int)

  /** The session after a stream of packets, each handled by Step. */
  function Run(s: Session, ps: seq<Packet>, minTime: int, celsius: bool,
               binary32: Float32 -> real): Session
    decreases |ps|
  {
    if ps == [] then s
    else Run(Step(s, ps[0].data, ps[0].at, minTime, celsius, binary32).next,
             ps[1..], minTime, celsius, binary32)
  }

  /** The arrival times of the packets of a stream that fired a report. */
  function Reports(s: Session, ps: seq<Packet>, minTime: int, celsius: bool,
                   binary32: Float32 -> real): seq<int>
    decreases |ps|
  {
    if ps == [] then []
    else
      var r := Step(s, ps[0].data, ps[0].at, minTime, celsius, binary32);
      (if r.outcome == Ok(true) then [ps[0].at] else [])
        + Reports(r.next, ps[1..], minTime, celsius, binary32)
  }

  /** What a packet that passed the guards led to. */
  datatype Report =
    | Quiet                                       // the rate gate held it back
    | Uploaded(point: DataPoint, accepted: bool)  // sent to MeadTools
    | ConsoleOnly                                 // logged locally only

  /** Matches a listed hydrometer registered under the given device name. */
  function HydrometerFilter(name: string): Hydrometer -> bool {
    h => NamedHydrometer(name, h)
  }

  /** Matches an ongoing listed brew of the given name. */
  function OpenBrewFilter(name: Option<string>): Brew -> bool {
    b => OpenBrewNamed(name, b)
  }

  /** The hydrometer token of a session: the id of the first listed hydrometer
      registered under the session's key ("No Hydrom ID!" when it has none),
      or else whatever registering a new one returns. */
  function HydrometerTokenFor(listed: seq<Hydrometer>, key: string,
                              registered: Response<Option<string>>): Option<string>
  {
    match FirstIndex(listed, HydrometerFilter(key))
    case Some(i) => Some(listed[i].id.GetOr("No Hydrom ID!"))
    case None => if registered.Success() then Some(registered.body.GetOr("No Id!")) else None
  }

  /** The guard of the link call as written: `brewid and (recipe != "" or
      recipe != None)`, where an absent recipe id reads as "". */
  predicate LinkGuardAsWritten(brewid: Option<string>, recipe: RecipeField) {
    Truthy(brewid) && (!recipe.Absent? || !recipe.Null?)
  }

  /** The guard as evidently intended: a brew id and a configured recipe id. */
  predicate LinkGuard(brewid: Option<string>, recipe: RecipeField) {
    Truthy(brewid) && !recipe.Absent? && !recipe.Null?
  }

  /** The brew cache and brew id chosen by initialise_brew, and the error it
      raised while choosing, if any. */
  datatype Selection = Selection(brews: seq<Brew>, brewid: Option<string>, error: Option<Error>)

  /** The find-or-register step of initialise_brew on the fetched list. With
      no brews listed, a brew is registered but its id is not adopted; with an
      ongoing brew of the configured name, the first such brew is reused;
      otherwise a brew is registered and the first brew of the reply adopted. */
  function SelectBrew(listed: seq<Brew>, brewName: Option<string>,
                      registered: Response<seq<Brew>>, brewid: Option<string>): Selection
  {
    if |listed| == 0 then
      if registered.Success() then Selection(registered.body, brewid, None)
      else Selection(listed, brewid, Some(RegisterBrewFailed))
    else match FirstIndex(listed, OpenBrewFilter(brewName))
      case Some(i) => Selection(listed, listed[i].id, None)
      case None =>
        if !registered.Success() then Selection(listed, brewid, Some(RegisterBrewFailed))
        else if |registered.body| == 0 then Selection(registered.body, brewid, Some(EmptyBrewReply))
        else Selection(registered.body, registered.body[0].id, None)
  }

  /** The MeadTools state initialise_brew leaves behind, its outcome, and the
      link call it issued, if any. */
  datatype BrewSetup = BrewSetup(
    deviceid: Option<string>, brews: seq<Brew>, brewid: Option<string>,
    outcome: Result<()>, link: Option<Call>)

  /** initialise_brew (with the intended link guard): make sure a device
      token exists, pick or register the brew, then link it to the recipe. */
  function SetUpBrew(deviceid: Option<string>, brews: seq<Brew>, brewid: Option<string>,
                     config: SessionConfig, brewsUrl: string,
                     tokenReply: Response<Option<string>>, brewsReply: Response<seq<Brew>>,
                     registerReply: Response<seq<Brew>>, linkReply: Response<Option<string>>)
    : BrewSetup
  {
    if deviceid.None? && !tokenReply.Success() then
      BrewSetup(deviceid, brews, brewid, Err(DeviceTokenFailed), None)
    else
      var dev := if deviceid.None? then Some(tokenReply.body.GetOr("")) else deviceid;
      if !Truthy(dev) then BrewSetup(dev, brews, brewid, Err(DeviceIdNotSet), None)
      else
        var listed := if brewsReply.Success() then brewsReply.body else brews;
        var sel := SelectBrew(listed, config.brewName, registerReply, brewid);
        if sel.error.Some? then BrewSetup(dev, sel.brews, sel.brewid, Err(sel.error.value), None)
        else if !LinkGuard(sel.brewid, config.recipeId) || config.recipeId == Id(-1) then
          BrewSetup(dev, sel.brews, sel.brewid, Ok(()), None)
        else
          BrewSetup(dev, sel.brews, sel.brewid,
                    if linkReply.Success() then Ok(()) else Err(LinkFailed),
                    Some(Call(Patch, brewsUrl + "/" + IdText(sel.brewid))))
  }

  class RaptPill {
    const config: SessionConfig
    const sessionName: string
    const macAddress: string
    const pollingInterval: int
    const isCelsius: bool
    const minTime: int
    const mtools: MeadTools

    var lastTime: int
    var running: bool
    var logToDb: bool
    var hydrometerToken: Option<string>

    var apiVersion: int
    var temperature: real
    var gravityVelocity: real
    var startingGravity: real
    var startingGravitySet: bool
    var currGravity: real
    var abv: real
    var x: real
    var y: real
    var z: real
    var battery: int
    var lastEvent: Option<int>

    /** The decoded state as a value. */
    function State(): Session
      reads this
    {
      Session(startingGravity, startingGravitySet, apiVersion, gravityVelocity, currGravity, abv,
              temperature, battery, x, y, z, lastEvent, lastTime)
    }

    function TempUnit(): string {
      if isCelsius then "C" else "F"
    }

    /** The fields set by __init__ before it talks to MeadTools. The last-report
        time starts at construction and the rate interval defaults to 120 s; a
        non-zero configured StartSG closes the starting-gravity latch at once. */
    constructor (config: SessionConfig, sessionName: string, macAddress: string,
                 pollInterval: int, logToDb: bool, isCelsius: bool, mtools: MeadTools, now: int)
      ensures this.config == config && this.sessionName == sessionName
      ensures this.macAddress == macAddress && this.mtools == mtools
      ensures this.isCelsius == isCelsius && this.logToDb == logToDb
      ensures pollingInterval == pollInterval && !running && hydrometerToken.None?
      ensures minTime == config.pollInterval.GetOr(120) && lastTime == now
      ensures StartSGGiven(config) ==> startingGravitySet && startingGravity == config.startSG.value
      ensures !StartSGGiven(config) ==> !startingGravitySet && startingGravity == 1.0
      ensures apiVersion == -1 && temperature == 1.0 && gravityVelocity == 0.0
      ensures currGravity == 1.0 && abv == -1.0 && battery == 100 && lastEvent.None?
      ensures x == -100.0 && y == -100.0 && z == -100.0
    {
      this.config, this.sessionName, this.macAddress := config, sessionName, macAddress;
      this.mtools, this.isCelsius, this.logToDb := mtools, isCelsius, logToDb;
      pollingInterval := pollInterval;
      minTime := config.pollInterval.GetOr(120);
      lastTime := now;
      running := false;
      hydrometerToken := None;
      apiVersion, temperature, gravityVelocity := -1, 1.0, 0.0;
      if StartSGGiven(config) {
        startingGravity, startingGravitySet := config.startSG.value, true;
      } else {
        startingGravity, startingGravitySet := 1.0, false;
      }
      currGravity, abv := 1.0, -1.0;
      x, y, z := -100.0, -100.0, -100.0;
      battery := 100;
      lastEvent := None;
    }

    /** The starting_gravity setter: only the first assignment takes effect. */
    method SetStartingGravity(g: real)
      modifies this`startingGravity, this`startingGravitySet
      ensures startingGravitySet
      ensures startingGravity == if old(startingGravitySet) then old(startingGravity) else g
    {
      if startingGravitySet {
        return;
      }
      startingGravitySet := true;
      startingGravity := g;
    }

    /** start, without the scanning thread it launches: the session runs. */
    method Start()
      modifies this`running
      ensures running
    {
      running := true;
    }

    /** end_session: the scan loop is told to stop. */
    method EndSession()
      modifies this`running
      ensures !running
    {
      running := false;
    }

    /** decode_rapt_data, with version-1 records handled: the new state is
        Step's, a refused payload raises with nothing changed, and a report
        fires only when the rate gate opens; it is uploaded (the gate reset
        before the upload) or, without MeadTools, only logged. */
    method DecodeRaptData(data: seq<Byte>, now: int, binary32: Float32 -> real, uploadStatus: int)
      returns (r: Result<Report>)
      modifies this`startingGravity, this`startingGravitySet, this`apiVersion,
        this`gravityVelocity, this`currGravity, this`abv, this`temperature, this`battery,
        this`x, this`y, this`z, this`lastEvent, this`lastTime
      ensures State() == Step(old(State()), data, now, minTime, isCelsius, binary32).next
      ensures old(startingGravitySet) ==>
        startingGravitySet && startingGravity == old(startingGravity)
      ensures Step(old(State()), data, now, minTime, isCelsius, binary32).outcome.Err? ==>
        r == Err(Step(old(State()), data, now, minTime, isCelsius, binary32).outcome.error)
      ensures Step(old(State()), data, now, minTime, isCelsius, binary32).outcome == Ok(false) ==>
        r == Ok(Quiet)
      ensures Step(old(State()), data, now, minTime, isCelsius, binary32).outcome == Ok(true) ==>
        r == if logToDb
             then Ok(Uploaded(DataPoint(mtools.deviceid, config.pillName.GetOr(macAddress),
                                        currGravity, temperature, TempUnit(), battery),
                              uploadStatus == 200))
             else Ok(ConsoleOnly)
    {
      var decoded := Decode(data);
      if decoded.Err? {
        return Err(decoded.error);
      }
      var m := decoded.value;
      if !startingGravitySet {
        SetStartingGravity(GravityOf(binary32(m.gravity)));
      }
      apiVersion := data[2] as int;
      if m.V2? {
        gravityVelocity := binary32(m.gravityVel);
      }
      UpdateReadings(m, binary32, now);
      r := ReportIfDue(now, uploadStatus);
    }

    /** Sets the readings of Readings from the record: every one but the gravity velocity. */
    method UpdateReadings(m: Metrics, binary32: Float32 -> real, now: int)
      modifies this`currGravity, this`abv, this`temperature,
        this`battery, this`x, this`y, this`z, this`lastEvent
      ensures State() == Readings(old(State()), m, binary32, now, isCelsius)
    {
      currGravity := GravityOf(binary32(m.gravity));
      abv := CalculateAbv(startingGravity, currGravity);
      temperature := CalculateTemp(m.temperature as real / 128.0, isCelsius);
      battery := BatteryPercent(m.battery);
      lastEvent := Some(now);
      x := m.x as real / 16.0;
      y := m.y as real / 16.0;
      z := m.z as real / 16.0;
    }

    /** The rate gate of decode_rapt_data: once min_time has passed since the last
        report, the last-report time is reset before the upload is attempted. */
    method ReportIfDue(now: int, uploadStatus: int) returns (r: Result<Report>)
      modifies this`lastTime
      ensures lastTime == Gate(old(lastTime), minTime, now).1
      ensures !Gate(old(lastTime), minTime, now).0 ==> r == Ok(Quiet)
      ensures Gate(old(lastTime), minTime, now).0 ==>
        r == if logToDb
             then Ok(Uploaded(DataPoint(mtools.deviceid, config.pillName.GetOr(macAddress),
                                        currGravity, temperature, TempUnit(), battery),
                              uploadStatus == 200))
             else Ok(ConsoleOnly)
    {
      if now - lastTime >= minTime {
        lastTime := now;
        if logToDb {
          var point, _, ok := mtools.AddDataPoint(config.pillName.GetOr(macAddress), currGravity,
                                                  temperature, TempUnit(), battery, uploadStatus);
          r := Ok(Uploaded(point, ok));
        } else {
          r := Ok(ConsoleOnly);
        }
      } else {
        r := Ok(Quiet);
      }
    }

    /** initialise_brew, with the intended link guard; the new MeadTools state
        and the outcome are SetUpBrew's. */
    method InitialiseBrew(tokenReply: Response<Option<string>>, brewsReply: Response<seq<Brew>>,
                          registerReply: Response<seq<Brew>>, linkReply: Response<Option<string>>)
      returns (r: Result<()>, link: Option<Call>)
      modifies mtools`deviceid, mtools`brews, mtools`brewid
      ensures BrewSetup(mtools.deviceid, mtools.brews, mtools.brewid, r, link) ==
        SetUpBrew(old(mtools.deviceid), old(mtools.brews), old(mtools.brewid), config,
                  mtools.BrewsUrl(), tokenReply, brewsReply, registerReply, linkReply)
    {
      link := None;
      if mtools.deviceid.None? {
        var t := mtools.GenerateDeviceToken(tokenReply);
        if t.Err? {
          return Err(t.error), None;
        }
      }
      if !Truthy(mtools.deviceid) {
        return Err(DeviceIdNotSet), None;
      }
      var _ := mtools.GetBrews(brewsReply);
      if |mtools.brews| == 0 {
        var registered := mtools.RegisterBrew(sessionName, hydrometerToken, registerReply);
        if registered.Err? {
          return Err(registered.error), None;
        }
      } else {
        var found := FirstIndex(mtools.brews, OpenBrewFilter(config.brewName));
        if found.None? {
          var registered := mtools.RegisterBrew(sessionName, hydrometerToken, registerReply);
          if registered.Err? {
            return Err(registered.error), None;
          }
          if |registered.value| == 0 {
            return Err(EmptyBrewReply), None;
          }
          mtools.brewid := registered.value[0].id;
        } else {
          mtools.brewid := mtools.brews[found.value].id;
        }
      }
      r := Ok(());
      if LinkGuard(mtools.brewid, config.recipeId) {
        var linked;
        linked, link := mtools.LinkBrewToRecipe(mtools.brewid, config.recipeId, linkReply);
        if linked.Err? {
          r := Err(linked.error);
        }
      }
    }

    /** The MeadTools part of __init__: without a login, logging to MeadTools
        is switched off; with one, the hydrometer is found by name or
        registered, and the brew is initialised. */
    method ConnectToMeadTools(hydrometersReply: Response<seq<Hydrometer>>,
                              registerReply: Response<Option<string>>,
                              tokenReply: Response<Option<string>>, brewsReply: Response<seq<Brew>>,
                              registerBrewReply: Response<seq<Brew>>,
                              linkReply: Response<Option<string>>)
      returns (r: Result<()>, link: Option<Call>)
      modifies this`logToDb, this`hydrometerToken, mtools`hydrometers,
        mtools`deviceid, mtools`brews, mtools`brewid
      ensures !old(logToDb) || !mtools.loggedIn ==>
        r == Ok(()) && link.None? && !logToDb && hydrometerToken == old(hydrometerToken) &&
        mtools.hydrometers == old(mtools.hydrometers) && mtools.deviceid == old(mtools.deviceid) &&
        mtools.brews == old(mtools.brews) && mtools.brewid == old(mtools.brewid)
      ensures old(logToDb) && mtools.loggedIn ==>
        logToDb &&
        mtools.hydrometers ==
          (if hydrometersReply.Success() then hydrometersReply.body else old(mtools.hydrometers)) &&
        hydrometerToken ==
          HydrometerTokenFor(mtools.hydrometers, HydrometerKey(config), registerReply) &&
        BrewSetup(mtools.deviceid, mtools.brews, mtools.brewid, r, link) ==
          SetUpBrew(old(mtools.deviceid), old(mtools.brews), old(mtools.brewid), config,
                    mtools.BrewsUrl(), tokenReply, brewsReply, registerBrewReply, linkReply)
    {
      r, link := Ok(()), None;
      if !logToDb {
        return;
      }
      if !mtools.loggedIn {
        logToDb := false;
        return;
      }
      var _ := mtools.GetHydrometers(hydrometersReply);
      var found := FirstIndex(mtools.hydrometers, HydrometerFilter(HydrometerKey(config)));
      if found.None? {
        hydrometerToken := mtools.RegisterHydrometer(config.pillName, registerReply);
      } else {
        hydrometerToken := Some(mtools.hydrometers[found.value].id.GetOr("No Hydrom ID!"));
      }
      r, link := InitialiseBrew(tokenReply, brewsReply, registerBrewReply, linkReply);
    }

    /** device_found: packets from other addresses (compared ignoring case),
        without the Pill's manufacturer data, or carrying the name marker are
        ignored (None) and change nothing; the rest are decoded, and what
        decoding reported or uploaded is returned. */
    method DeviceFound(address: string, manufacturerData: map<int, seq<Byte>>, now: int,
                       binary32: Float32 -> real, uploadStatus: int)
      returns (r: Option<Result<Report>>)
      modifies this`startingGravity, this`startingGravitySet, this`apiVersion,
        this`gravityVelocity, this`currGravity, this`abv, this`temperature, this`battery,
        this`x, this`y, this`z, this`lastEvent, this`lastTime
      ensures PayloadFor(address, macAddress, manufacturerData).None? ==>
        r.None? && State() == old(State())
      ensures PayloadFor(address, macAddress, manufacturerData).Some? ==>
        r.Some? &&
        State() == Step(old(State()), PayloadFor(address, macAddress, manufacturerData).value,
                        now, minTime, isCelsius, binary32).next
      ensures PayloadFor(address, macAddress, manufacturerData).Some? ==>
        var o := Step(old(State()), PayloadFor(address, macAddress, manufacturerData).value,
                      now, minTime, isCelsius, binary32).outcome;
        (o.Err? ==> r == Some(Err(o.error))) &&
        (o == Ok(false) ==> r == Some(Ok(Quiet))) &&
        (o == Ok(true) ==>
          r == Some(if logToDb
                    then Ok(Uploaded(DataPoint(mtools.deviceid, config.pillName.GetOr(macAddress),
                                               currGravity, temperature, TempUnit(), battery),
                                     uploadStatus == 200))
                    else Ok(ConsoleOnly)))
    {
      var payload := PayloadFor(address, macAddress, manufacturerData);
      if payload.None? {
        return None;
      }
      var d := DecodeRaptData(payload.value, now, binary32, uploadStatus);
      r := Some(d);
    }
  }
}
