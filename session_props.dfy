/** Properties of a Pill session: the starting-gravity latch, the report rate
    gate over a stream of packets, the gravity/ABV arithmetic, and how the
    step as written differs from the handled one. */
module SessionProperties {
  import opened Common
  import opened Rounding
  import opened Advertisement
  import opened MeadToolsClient
  import opened PillSession

  /** ABV is zero while the current gravity equals the starting gravity. */
  lemma AbvZeroAtStart(g: real)
    ensures CalculateAbv(g, g) == 0.0
  {
    Round4Exact(0.0, 0);
  }

  /** A lower current gravity never gives a lower ABV. */
  lemma AbvMonotone(start: real, g1: real, g2: real)
    requires g1 <= g2
    ensures CalculateAbv(start, g2) <= CalculateAbv(start, g1)
  {
    Round4Monotone((start - g2) * 131.25, (start - g1) * 131.25);
  }

  /** A Celsius reading is kelvin - 273.15 to within half a hundredth and is
      exact at freezing; a Fahrenheit reading is exactly 9/5 of the Celsius
      difference plus 32, 212 at boiling. */
  lemma TemperatureScales(kelvin: real)
    ensures -0.005 <= CalculateTemp(kelvin, true) - (kelvin - 273.15) <= 0.005
    ensures CalculateTemp(kelvin, false) == (kelvin - 273.15) * 1.8 + 32.0
    ensures CalculateTemp(273.15, true) == 0.0 && CalculateTemp(373.15, false) == 212.0
  {
    RoundHalfEvenOfInt(0);
  }

  /** A version-2 battery reading (0..65535) becomes a percentage in 0..256. */
  lemma BatteryRange(raw: int)
    requires 0 <= raw < 0x10000
    ensures 0 <= BatteryPercent(raw) <= 256
  {
  }

  /** A refused payload changes nothing and raises the refusal; an accepted
      one never raises, sets every reading from the record and stamps the
      event time, and fires a report exactly when the rate gate opens. */
  lemma StepSpec(s: Session, data: seq<Byte>, now: int, minTime: int, celsius: bool,
                 binary32: Float32 -> real)
    ensures Decode(data).Err? ==>
      Step(s, data, now, minTime, celsius, binary32) == StepResult(s, Err(Decode(data).error))
    ensures Decode(data).Ok? ==>
      var m := Decode(data).value;
      var r := Step(s, data, now, minTime, celsius, binary32);
      r.outcome == Ok(now - s.lastTime >= minTime) &&
      r.next.lastTime == (if now - s.lastTime >= minTime then now else s.lastTime) &&
      r.next.currGravity == GravityOf(binary32(m.gravity)) &&
      r.next.abv == CalculateAbv(r.next.startingGravity, r.next.currGravity) &&
      r.next.temperature == CalculateTemp(m.temperature as real / 128.0, celsius) &&
      r.next.battery == BatteryPercent(m.battery) &&
      r.next.lastEvent == Some(now) && r.next.version == data[2] as int &&
      r.next.x == m.x as real / 16.0 && r.next.y == m.y as real / 16.0 &&
      r.next.z == m.z as real / 16.0 &&
      r.next.gravityVelocity == (if m.V2? then binary32(m.gravityVel) else s.gravityVelocity)
  {
  }

  /** The first accepted packet of a session without a configured starting
      gravity latches its gravity as the starting gravity, so its ABV is 0. */
  lemma FirstPacketLatches(s: Session, data: seq<Byte>, now: int, minTime: int, celsius: bool,
                           binary32: Float32 -> real)
    requires !s.startingGravitySet && Decode(data).Ok?
    ensures var n := Step(s, data, now, minTime, celsius, binary32).next;
      n.startingGravitySet && n.startingGravity == n.currGravity &&
      n.startingGravity == GravityOf(binary32(Decode(data).value.gravity)) && n.abv == 0.0
  {
    AbvZeroAtStart(GravityOf(binary32(Decode(data).value.gravity)));
  }

  /** Once latched, the starting gravity survives any stream of packets. */
  lemma {:induction false} LatchHolds(s: Session, ps: seq<Packet>, minTime: int, celsius: bool,
                                      binary32: Float32 -> real)
    requires s.startingGravitySet
    ensures Run(s, ps, minTime, celsius, binary32).startingGravitySet
    ensures Run(s, ps, minTime, celsius, binary32).startingGravity == s.startingGravity
    decreases |ps|
  {
    if ps != [] {
      var n := Step(s, ps[0].data, ps[0].at, minTime, celsius, binary32).next;
      assert n.startingGravitySet && n.startingGravity == s.startingGravity;
      LatchHolds(n, ps[1..], minTime, celsius, binary32);
    }
  }

  /** Reports at least minTime apart: the first at least minTime after t0 and
      each later one at least minTime after the one before. */
  predicate Spaced(t0: int, reports: seq<int>, minTime: int) {
    (|reports| > 0 ==> reports[0] - t0 >= minTime) &&
    forall k :: 0 <= k < |reports| - 1 ==> reports[k + 1] - reports[k] >= minTime
  }

  /** Over any stream of packets, reports fire at least minTime apart, counting
      from the session's last report, and the session's last-report time ends
      as the time of the last report fired. */
  lemma {:induction false} ReportsSpaced(s: Session, ps: seq<Packet>, minTime: int, celsius: bool,
                                         binary32: Float32 -> real)
    ensures Spaced(s.lastTime, Reports(s, ps, minTime, celsius, binary32), minTime)
    ensures var rs := Reports(s, ps, minTime, celsius, binary32);
      Run(s, ps, minTime, celsius, binary32).lastTime == if rs == [] then s.lastTime else rs[|rs| - 1]
    decreases |ps|
  {
    if ps != [] {
      var r := Step(s, ps[0].data, ps[0].at, minTime, celsius, binary32);
      ReportsSpaced(r.next, ps[1..], minTime, celsius, binary32);
      var rest := Reports(r.next, ps[1..], minTime, celsius, binary32);
      if r.outcome == Ok(true) {
        assert r.next.lastTime == ps[0].at && ps[0].at - s.lastTime >= minTime;
        var rs := [ps[0].at] + rest;
        assert forall k :: 1 <= k < |rs| - 1 ==> rs[k + 1] - rs[k] >= minTime by {
          forall k | 1 <= k < |rs| - 1
            ensures rs[k + 1] - rs[k] >= minTime
          {
            assert rs[k] == rest[k - 1] && rs[k + 1] == rest[k];
          }
        }
      } else {
        assert r.next.lastTime == s.lastTime;
      }
    }
  }

  /** An accepted packet fires a report exactly when the rate gate opens, and
      the last-report time moves only then. */
  lemma GateOnAccepted(s: Session, data: seq<Byte>, now: int, minTime: int, celsius: bool,
                       binary32: Float32 -> real)
    requires Decode(data).Ok?
    ensures Step(s, data, now, minTime, celsius, binary32).outcome == Ok(now - s.lastTime >= minTime)
    ensures Step(s, data, now, minTime, celsius, binary32).next.lastTime ==
      if now - s.lastTime >= minTime then now else s.lastTime
  {
  }

  /** The reports of a two-packet stream. */
  lemma ReportsOfTwo(s: Session, p1: Packet, p2: Packet, minTime: int, celsius: bool,
                     binary32: Float32 -> real)
    ensures var r := Step(s, p1.data, p1.at, minTime, celsius, binary32);
      var r2 := Step(r.next, p2.data, p2.at, minTime, celsius, binary32);
      Reports(s, [p1, p2], minTime, celsius, binary32) ==
        (if r.outcome == Ok(true) then [p1.at] else []) +
        (if r2.outcome == Ok(true) then [p2.at] else [])
  {
    var r := Step(s, p1.data, p1.at, minTime, celsius, binary32);
    var r2 := Step(r.next, p2.data, p2.at, minTime, celsius, binary32);
    assert [p1, p2][1..] == [p2];
    assert [p2][1..] == [];
    assert Reports(r.next, [p2], minTime, celsius, binary32) ==
      (if r2.outcome == Ok(true) then [p2.at] else []) + [];
  }

  /** The rate gate with a 60-second interval and the last report at time 0:
      accepted packets at 60 and 70 give one report, at 60 and 130 two. */
  lemma RateGateExample(s: Session, d1: seq<Byte>, d2: seq<Byte>, celsius: bool,
                        binary32: Float32 -> real)
    requires s.lastTime == 0 && Decode(d1).Ok? && Decode(d2).Ok?
    ensures Reports(s, [Packet(d1, 60), Packet(d2, 70)], 60, celsius, binary32) == [60]
    ensures Reports(s, [Packet(d1, 60), Packet(d2, 130)], 60, celsius, binary32) == [60, 130]
  {
    var n := Step(s, d1, 60, 60, celsius, binary32).next;
    GateOnAccepted(s, d1, 60, 60, celsius, binary32);
    GateOnAccepted(n, d2, 70, 60, celsius, binary32);
    GateOnAccepted(n, d2, 130, 60, celsius, binary32);
    ReportsOfTwo(s, Packet(d1, 60), Packet(d2, 70), 60, celsius, binary32);
    ReportsOfTwo(s, Packet(d1, 60), Packet(d2, 130), 60, celsius, binary32);
  }

  /** Three packets reading 1050, 1040 and 1010 milli-gravity in a session
      without a configured starting gravity: the starting gravity latches at
      1.05 and the ABV reads 0, 1.3125 and 5.25. */
  lemma GravityTrace(s: Session, d1: seq<Byte>, d2: seq<Byte>, d3: seq<Byte>,
                     t1: int, t2: int, t3: int, minTime: int, celsius: bool,
                     binary32: Float32 -> real)
    requires !s.startingGravitySet
    requires Decode(d1).Ok? && binary32(Decode(d1).value.gravity) == 1050.0
    requires Decode(d2).Ok? && binary32(Decode(d2).value.gravity) == 1040.0
    requires Decode(d3).Ok? && binary32(Decode(d3).value.gravity) == 1010.0
    ensures var s1 := Step(s, d1, t1, minTime, celsius, binary32).next;
      var s2 := Step(s1, d2, t2, minTime, celsius, binary32).next;
      var s3 := Step(s2, d3, t3, minTime, celsius, binary32).next;
      s1.abv == 0.0 && s2.abv == 1.3125 && s3.abv == 5.25 &&
      s3.startingGravity == 1.05 && s3.currGravity == 1.01
  {
    Round4Exact(1.05, 10500);
    Round4Exact(1.04, 10400);
    Round4Exact(1.01, 10100);
    Round4Exact(0.0, 0);
    Round4Exact(1.3125, 13125);
    Round4Exact(5.25, 52500);
  }

  /** The handled step and the step as written agree on every payload except
      an accepted version-1 record. */
  lemma StepMatchesAsWritten(s: Session, data: seq<Byte>, now: int, minTime: int, celsius: bool,
                             binary32: Float32 -> real)
    requires Decode(data).Err? || Decode(data).value.V2?
    ensures Step(s, data, now, minTime, celsius, binary32) ==
            StepAsWritten(s, data, now, minTime, celsius, binary32)
  {
  }

  /** As written, every accepted version-1 record raises after latching the
      starting gravity and setting the version, before any reading is updated
      and without a report. */
  lemma AsWrittenRejectsV1(s: Session, data: seq<Byte>, now: int, minTime: int, celsius: bool,
                           binary32: Float32 -> real)
    requires Decode(data).Ok? && Decode(data).value.V1?
    ensures var r := StepAsWritten(s, data, now, minTime, celsius, binary32);
      r.outcome == Err(NoGravityVelocity) && r.next.currGravity == s.currGravity &&
      r.next.lastEvent == s.lastEvent && r.next.lastTime == s.lastTime
    ensures var r := StepAsWritten(s, data, now, minTime, celsius, binary32);
      r.next.startingGravitySet && r.next.version == 1 &&
      r.next.startingGravity ==
        (if s.startingGravitySet then s.startingGravity
         else GravityOf(binary32(Decode(data).value.gravity)))
    ensures Step(s, data, now, minTime, celsius, binary32).outcome.Ok?
  {
  }

  /** A concrete version-1 advertisement that the step as written rejects. */
  lemma V1Counterexample(s: Session, binary32: Float32 -> real)
    ensures var data := [0x50, 0x54, 0x01] + seq(20, _ => 0 as Byte);
      Decode(data).Ok? &&
      StepAsWritten(s, data, 0, 0, true, binary32).outcome == Err(NoGravityVelocity) &&
      Step(s, data, 0, 0, true, binary32).outcome.Ok?
  {
    var data: seq<Byte> := [0x50, 0x54, 0x01] + seq(20, _ => 0 as Byte);
    assert |data| == PayloadLength && data[..2] == Prefix && data[2] == 1;
  }

  /** As written, the link guard never looks at the recipe id: with a brew id
      it lets an absent or null recipe id through to int(), which raises. */
  lemma LinkGuardAsWrittenIgnoresRecipe(brewid: Option<string>, recipe: RecipeField)
    ensures LinkGuardAsWritten(brewid, recipe) == Truthy(brewid)
    ensures LinkGuardAsWritten(Some("7"), Absent) && LinkGuardAsWritten(Some("7"), Null)
  {
  }

  /** The intended guard links only a brew with an id to a configured recipe,
      so initialise_brew never issues a link call without an integer recipe id
      other than -1, and never fails on a missing recipe id. */
  lemma SetUpLinksOnlyConfiguredRecipe(deviceid: Option<string>, brews: seq<Brew>,
                                       brewid: Option<string>, config: SessionConfig,
                                       brewsUrl: string, tokenReply: Response<Option<string>>,
                                       brewsReply: Response<seq<Brew>>,
                                       registerReply: Response<seq<Brew>>,
                                       linkReply: Response<Option<string>>)
    ensures var b := SetUpBrew(deviceid, brews, brewid, config, brewsUrl, tokenReply, brewsReply,
                               registerReply, linkReply);
      (b.link.Some? ==> config.recipeId.Id? && config.recipeId.n != -1 && Truthy(b.brewid)) &&
      b.outcome != Err(RecipeIdNotInteger) &&
      (b.outcome == Err(LinkFailed) <==> b.link.Some? && !linkReply.Success())
  {
  }

  /** A device token already held is kept; a missing one is generated, and
      initialise_brew goes no further without a non-empty token. */
  lemma SetUpDeviceToken(deviceid: Option<string>, brews: seq<Brew>,
                         brewid: Option<string>, config: SessionConfig,
                         brewsUrl: string, tokenReply: Response<Option<string>>,
                         brewsReply: Response<seq<Brew>>,
                         registerReply: Response<seq<Brew>>,
                         linkReply: Response<Option<string>>)
    ensures var b := SetUpBrew(deviceid, brews, brewid, config, brewsUrl, tokenReply, brewsReply,
                               registerReply, linkReply);
      (deviceid.Some? ==> b.deviceid == deviceid) &&
      (deviceid.None? && tokenReply.Success() ==> b.deviceid == Some(tokenReply.body.GetOr(""))) &&
      (deviceid.None? && !tokenReply.Success() ==> b.outcome == Err(DeviceTokenFailed)) &&
      (!Truthy(b.deviceid) ==> b.outcome.Err? && b.brews == brews && b.brewid == brewid)
  {
  }

  /** When the fetched list holds an ongoing brew of the configured name, the
      first such brew is reused: nothing is registered and the list is kept. */
  lemma SelectBrewReusesOpenBrew(listed: seq<Brew>, brewName: Option<string>,
                                 registered: Response<seq<Brew>>, brewid: Option<string>)
    requires exists i :: 0 <= i < |listed| && OpenBrewNamed(brewName, listed[i])
    ensures var sel := SelectBrew(listed, brewName, registered, brewid);
      sel.error.None? && sel.brews == listed &&
      exists i :: 0 <= i < |listed| && OpenBrewNamed(brewName, listed[i]) &&
        sel.brewid == listed[i].id &&
        forall j :: 0 <= j < i ==> !OpenBrewNamed(brewName, listed[j])
  {
    var i := FirstIndex(listed, OpenBrewFilter(brewName)).value;
    assert OpenBrewFilter(brewName)(listed[i]);
  }

  /** Without a listed ongoing brew of the configured name a new brew is
      registered; its first entry's id is adopted unless nothing was listed. */
  lemma SelectBrewRegisters(listed: seq<Brew>, brewName: Option<string>,
                            registered: Response<seq<Brew>>, brewid: Option<string>)
    requires forall i :: 0 <= i < |listed| ==> !OpenBrewNamed(brewName, listed[i])
    ensures var sel := SelectBrew(listed, brewName, registered, brewid);
      (registered.Success() ==> sel.brews == registered.body) &&
      (!registered.Success() ==> sel == Selection(listed, brewid, Some(RegisterBrewFailed))) &&
      (registered.Success() && |listed| == 0 ==> sel.brewid == brewid && sel.error.None?) &&
      (registered.Success() && |listed| > 0 && |registered.body| > 0 ==>
        sel.brewid == registered.body[0].id && sel.error.None?) &&
      (registered.Success() && |listed| > 0 && |registered.body| == 0 ==>
        sel.error == Some(EmptyBrewReply) && sel.brewid == brewid)
  {
    if |listed| > 0 {
      assert forall i :: 0 <= i < |listed| ==> !OpenBrewFilter(brewName)(listed[i]);
    }
  }

  /** The hydrometer found by name is reused: the token is the first match's
      id; only when none is listed is a new one registered. */
  lemma HydrometerReused(listed: seq<Hydrometer>, key: string, registered: Response<Option<string>>)
    ensures (exists i :: 0 <= i < |listed| && NamedHydrometer(key, listed[i])) ==>
      exists i :: 0 <= i < |listed| && NamedHydrometer(key, listed[i]) &&
        HydrometerTokenFor(listed, key, registered) == Some(listed[i].id.GetOr("No Hydrom ID!")) &&
        forall j :: 0 <= j < i ==> !NamedHydrometer(key, listed[j])
    ensures (forall i :: 0 <= i < |listed| ==> !NamedHydrometer(key, listed[i])) ==>
      HydrometerTokenFor(listed, key, registered) ==
        if registered.Success() then Some(registered.body.GetOr("No Id!")) else None
  {
    var f := FirstIndex(listed, HydrometerFilter(key));
    if f.Some? {
      assert HydrometerFilter(key)(listed[f.value]);
    } else {
      assert forall i :: 0 <= i < |listed| ==> !HydrometerFilter(key)(listed[i]);
    }
  }
}
