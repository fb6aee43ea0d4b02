/** The registry of running Pill sessions: starting one from its configuration
    entry and stopping one by brew name. */
module PillRegistry {
  import opened Common
  import opened MeadToolsClient
  import opened PillSession

  /** Matches a pill whose session carries the given brew name; a missing
      name matches nothing. */
  function SessionFilter(brewName: Option<string>): RaptPill -> bool {
    (p: RaptPill) => brewName == Some(p.sessionName)
  }

  /** s without its element at index i, the others in order. */
  function RemoveAt<T>(s: seq<T>, i: nat): seq<T>
    requires i < |s|
  {
    s[..i] + s[i + 1..]
  }

  /** Removing an element keeps every other one: the multiset of the list
      loses exactly that element. */
  lemma RemoveAtMultiset<T>(s: seq<T>, i: nat)
    requires i < |s|
    ensures multiset(RemoveAt(s, i)) + multiset{s[i]} == multiset(s)
    ensures |RemoveAt(s, i)| == |s| - 1
  {
    assert s == s[..i] + [s[i]] + s[i + 1..];
  }

  class PillHolder {
    const mtools: MeadTools
    var pills: seq<RaptPill>

    constructor (mtools: MeadTools)
      ensures this.mtools == mtools && pills == []
    {
      this.mtools := mtools;
      pills := [];
    }

    /** run_pill: a pill is built from the session entry (a missing poll
        interval fails int("") before anything changes), connected to
        MeadTools (its hydrometer found or registered, its brew initialised),
        appended, and started only while logged in. */
    method RunPill(config: SessionConfig, now: int,
                   hydrometersReply: Response<seq<Hydrometer>>,
                   registerReply: Response<Option<string>>,
                   tokenReply: Response<Option<string>>, brewsReply: Response<seq<Brew>>,
                   registerBrewReply: Response<seq<Brew>>,
                   linkReply: Response<Option<string>>)
      returns (r: Result<RaptPill>)
      modifies this`pills, mtools`hydrometers, mtools`deviceid, mtools`brews, mtools`brewid
      ensures config.pollInterval.None? ==>
        r == Err(PollIntervalNotInteger) && pills == old(pills) &&
        unchanged(mtools`hydrometers, mtools`deviceid, mtools`brews, mtools`brewid)
      ensures r.Err? ==> pills == old(pills)
      ensures r.Ok? ==>
        fresh(r.value) && pills == old(pills) + [r.value] &&
        r.value.mtools == mtools && r.value.config == config &&
        r.value.sessionName == config.brewName.GetOr("NoSessionNameSet") &&
        r.value.macAddress == config.macAddress.GetOr("No Mac Address Set!") &&
        r.value.isCelsius == config.tempInC.GetOr(true) &&
        r.value.running == mtools.loggedIn && r.value.logToDb == mtools.loggedIn &&
        r.value.lastTime == now && r.value.minTime == config.pollInterval.value &&
        r.value.pollingInterval == config.pollInterval.value &&
        (r.value.startingGravitySet <==> StartSGGiven(config)) &&
        r.value.startingGravity == (if StartSGGiven(config) then config.startSG.value else 1.0)
      ensures r.Ok? && !mtools.loggedIn ==> r.value.hydrometerToken.None?
      ensures config.pollInterval.Some? && !mtools.loggedIn ==>
        r.Ok? && unchanged(mtools`hydrometers, mtools`deviceid, mtools`brews, mtools`brewid)
      ensures config.pollInterval.Some? && mtools.loggedIn ==>
        var b := SetUpBrew(old(mtools.deviceid), old(mtools.brews), old(mtools.brewid), config,
                           mtools.BrewsUrl(), tokenReply, brewsReply, registerBrewReply, linkReply);
        (r.Ok? <==> b.outcome.Ok?) &&
        mtools.deviceid == b.deviceid && mtools.brews == b.brews && mtools.brewid == b.brewid &&
        mtools.hydrometers ==
          (if hydrometersReply.Success() then hydrometersReply.body else old(mtools.hydrometers)) &&
        (r.Ok? ==>
          r.value.hydrometerToken ==
            HydrometerTokenFor(mtools.hydrometers, HydrometerKey(config), registerReply))
    {
      if config.pollInterval.None? {
        return Err(PollIntervalNotInteger);
      }
      var pill := new RaptPill(config, config.brewName.GetOr("NoSessionNameSet"),
                               config.macAddress.GetOr("No Mac Address Set!"),
                               config.pollInterval.value, true, config.tempInC.GetOr(true),
                               mtools, now);
      var connected, _ := pill.ConnectToMeadTools(hydrometersReply, registerReply, tokenReply,
                                                  brewsReply, registerBrewReply, linkReply);
      if connected.Err? {
        return Err(connected.error);
      }
      pills := pills + [pill];
      if pill.mtools.loggedIn {
        pill.Start();
      }
      r := Ok(pill);
    }

    /** stop_pill: the first pill whose session carries the brew name is
        stopped and removed, the rest kept in order; when none does, the
        status message fails and nothing changes. */
    method StopPill(brewName: Option<string>) returns (r: Result<RaptPill>)
      modifies this`pills, (set p | p in pills)`running
      ensures FirstIndex(old(pills), SessionFilter(brewName)).None? ==>
        r == Err(NoSuchSession) && pills == old(pills)
      ensures FirstIndex(old(pills), SessionFilter(brewName)).Some? ==>
        var i := FirstIndex(old(pills), SessionFilter(brewName)).value;
        r == Ok(old(pills)[i]) && !old(pills)[i].running && pills == RemoveAt(old(pills), i)
      ensures forall p | p in old(pills) && r != Ok(p) :: unchanged(p)
      ensures r.Ok? ==> r.value.State() == old(r.value.State())
    {
      var found := FirstIndex(pills, SessionFilter(brewName));
      if found.None? {
        return Err(NoSuchSession);
      }
      var pill := pills[found.value];
      pill.EndSession();
      pills := RemoveAt(pills, found.value);
      r := Ok(pill);
    }
  }
}
