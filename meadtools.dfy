/** The MeadTools client: authentication, the cached hydrometer and brew lists,
    and the resource operations. Every remote call is replaced by its reply
    (status code and decoded body), given as a parameter. */
module MeadToolsClient {
  import opened Common

  /** A hydrometer as the service lists it. */
  datatype Hydrometer = Hydrometer(id: Option<string>, deviceName: Option<string>)

  /** A brew as the service lists it; a brew without a name reads as "". */
  datatype Brew = Brew(id: Option<string>, name: string, endDate: Option<string>)

  /** The two tokens of a login reply; either may be missing from the body. */
  datatype LoginReply = LoginReply(accessToken: Option<string>, refreshToken: Option<string>)

  /** The configured MTRecipeId as the session reads it with .get(key, ""):
      absent (read as ""), null, or an integer. */
  datatype RecipeField = Absent | Null | Id(n: int)

  datatype Verb = Get | Post | Patch | Delete

  /** A remote call as issued: its HTTP verb and URL. */
  datatype Call = Call(verb: Verb, url: string)

  /** The body of one uploaded data point. */
  datatype DataPoint = DataPoint(
    token: Option<string>, name: string, gravity: real, temperature: real,
    tempUnits: string, battery: int)

  /** The first index of s whose element satisfies p: the model of the
      next((x for x in s if p(x)), None) searches. */
  function FirstIndex<T>(s: seq<T>, p: T -> bool): (r: Option<nat>)
    ensures r.Some? ==> r.value < |s| && p(s[r.value])
    ensures r.Some? ==> forall j :: 0 <= j < r.value ==> !p(s[j])
    ensures r.None? <==> forall j :: 0 <= j < |s| ==> !p(s[j])
  {
    if |s| == 0 then None
    else if p(s[0]) then Some(0)
    else match FirstIndex(s[1..], p)
      case None => None
      case Some(i) => Some(i + 1)
  }

  /** A hydrometer registered under the given device name. */
  predicate NamedHydrometer(name: string, h: Hydrometer) {
    h.deviceName == Some(name)
  }

  /** A brew with the given name that has not ended. A missing brew name never
      matches, since a listed name is always a string. */
  predicate OpenBrewNamed(name: Option<string>, b: Brew) {
    name == Some(b.name) && b.endDate.None?
  }

  /** f"{x}" of an optional id: None prints as "None". */
  function IdText(id: Option<string>): string {
    id.GetOr("None")
  }

  class MeadTools {
    // The account block of the configuration document (MTDetails).
    const email: Option<string>
    const password: Option<string>
    const loginType: Option<string>
    const baseUrl: Option<string>
    var accessToken: Option<string>
    var refreshToken: Option<string>

    /** The bearer token sent with every authorised call. */
    var token: Option<string>
    /** The brew the sessions upload into. */
    var brewid: Option<string>
    /** The device token that tags uploads. */
    var deviceid: Option<string>
    var hydrometers: seq<Hydrometer>
    var brews: seq<Brew>
    var loggedIn: bool

    /** Once a bearer token is held, it is the access token stored in the account block. */
    predicate Valid()
      reads this
    {
      token.Some? ==> token == accessToken
    }

    function LoginKind(): string {
      loginType.GetOr("MeadTools")
    }

    function BaseUrl(): string {
      baseUrl.GetOr("BaseUrlNotSet")
    }

    function PillUrl(): string { BaseUrl() + "/hydrometer/rapt-pill" }
    function BrewsUrl(): string { BaseUrl() + "/hydrometer/brew" }

    constructor (email: Option<string>, password: Option<string>, loginType: Option<string>,
                 baseUrl: Option<string>, accessToken: Option<string>,
                 refreshToken: Option<string>, deviceToken: Option<string>)
      ensures Valid() && !loggedIn && token.None? && brewid.None?
      ensures this.email == email && this.password == password
      ensures this.loginType == loginType && this.baseUrl == baseUrl
      ensures this.accessToken == accessToken && this.refreshToken == refreshToken
      ensures deviceid == deviceToken && hydrometers == [] && brews == []
    {
      this.email, this.password := email, password;
      this.loginType, this.baseUrl := loginType, baseUrl;
      this.accessToken, this.refreshToken := accessToken, refreshToken;
      token, brewid, deviceid := None, None, deviceToken;
      hydrometers, brews := [], [];
      loggedIn := false;
    }

    /** refresh_login: a successful reply replaces the access token (and the
        bearer token) and logs in; a failed one logs out. The refresh token is
        kept either way. */
    method RefreshLogin(reply: Response<Option<string>>) returns (ok: bool)
      requires Valid()
      modifies this`token, this`accessToken, this`loggedIn
      ensures Valid()
      ensures ok == reply.Success() && loggedIn == ok
      ensures ok ==> token == reply.body && accessToken == reply.body
      ensures !ok ==> token == old(token) && accessToken == old(accessToken)
    {
      if reply.Success() {
        accessToken := reply.body;
        token := reply.body;
        loggedIn := true;
        ok := true;
      } else {
        loggedIn := false;
        ok := false;
      }
    }

    /** login: a successful reply stores both tokens and logs in; a failed
        reply changes nothing, not even the login flag. */
    method Login(reply: Response<LoginReply>) returns (ok: bool)
      requires Valid()
      modifies this`token, this`accessToken, this`refreshToken, this`loggedIn
      ensures Valid()
      ensures ok == reply.Success()
      ensures ok ==> (loggedIn && token == reply.body.accessToken &&
        accessToken == reply.body.accessToken && refreshToken == reply.body.refreshToken)
      ensures !ok ==> (loggedIn == old(loggedIn) && token == old(token) &&
        accessToken == old(accessToken) && refreshToken == old(refreshToken))
    {
      if reply.Success() {
        refreshToken := reply.body.refreshToken;
        accessToken := reply.body.accessToken;
        token := reply.body.accessToken;
        loggedIn := true;
        ok := true;
      } else {
        ok := false;
      }
    }

    /** google_auth without the browser: the configured access token becomes
        the bearer token (it is assigned before the check); a missing one raises. */
    method GoogleAuth() returns (r: Result<bool>)
      requires Valid()
      modifies this`token, this`loggedIn
      ensures Valid() && token == accessToken
      ensures accessToken.None? ==> r == Err(GoogleTokenNotSet) && loggedIn == old(loggedIn)
      ensures accessToken.Some? ==> r == Ok(true) && loggedIn
    {
      token := accessToken;
      if token.None? {
        return Err(GoogleTokenNotSet);
      }
      loggedIn := true;
      r := Ok(true);
    }

    /** handle_login: in MeadTools mode, stored access and refresh tokens mean
        refresh, falling back to login; otherwise email and password mean login;
        otherwise it raises. The login flag ends equal to the outcome, which is
        what the observer is told. Google mode uses the configured token; any
        other mode changes nothing. */
    method HandleLogin(refreshReply: Response<Option<string>>, loginReply: Response<LoginReply>)
      returns (r: Result<bool>)
      requires Valid()
      modifies this`token, this`accessToken, this`refreshToken, this`loggedIn
      ensures Valid()
      ensures r.Ok? ==> r.value == loggedIn
      ensures LoginKind() == "MeadTools" && Truthy(old(accessToken)) && Truthy(old(refreshToken)) ==>
        r.Ok? && loggedIn == (refreshReply.Success() || loginReply.Success()) &&
        (refreshReply.Success() ==>
          token == refreshReply.body && accessToken == refreshReply.body &&
          refreshToken == old(refreshToken)) &&
        (!refreshReply.Success() && loginReply.Success() ==>
          token == loginReply.body.accessToken && accessToken == loginReply.body.accessToken &&
          refreshToken == loginReply.body.refreshToken) &&
        (!refreshReply.Success() && !loginReply.Success() ==>
          token == old(token) && accessToken == old(accessToken) && refreshToken == old(refreshToken))
      ensures (LoginKind() == "MeadTools" && !(Truthy(old(accessToken)) && Truthy(old(refreshToken))) &&
        Truthy(email) && Truthy(password)) ==>
        r.Ok? && loggedIn == loginReply.Success() &&
        (loginReply.Success() ==>
          token == loginReply.body.accessToken && accessToken == loginReply.body.accessToken &&
          refreshToken == loginReply.body.refreshToken) &&
        (!loginReply.Success() ==>
          token == old(token) && accessToken == old(accessToken) && refreshToken == old(refreshToken))
      ensures (LoginKind() == "MeadTools" && !(Truthy(old(accessToken)) && Truthy(old(refreshToken))) &&
        !(Truthy(email) && Truthy(password))) ==>
        r == Err(NoCredentials) && loggedIn == old(loggedIn) && token == old(token) &&
        accessToken == old(accessToken) && refreshToken == old(refreshToken)
      ensures LoginKind() == "Google" ==>
        token == accessToken == old(accessToken) && refreshToken == old(refreshToken) &&
        (accessToken.None? ==> r == Err(GoogleTokenNotSet) && loggedIn == old(loggedIn)) && (accessToken.Some? ==> r == Ok(true))
      ensures LoginKind() != "MeadTools" && LoginKind() != "Google" ==>
        r == Ok(loggedIn) && loggedIn == old(loggedIn) && token == old(token) &&
        accessToken == old(accessToken) && refreshToken == old(refreshToken)
    {
      if LoginKind() == "MeadTools" {
        var success := false;
        if Truthy(accessToken) && Truthy(refreshToken) {
          success := RefreshLogin(refreshReply);
          if !success {
            success := Login(loginReply);
          }
        } else if Truthy(email) && Truthy(password) {
          success := Login(loginReply);
        } else {
          return Err(NoCredentials);
        }
        loggedIn := success;
      } else if LoginKind() == "Google" {
        var g := GoogleAuth();
        if g.Err? {
          return g;
        }
      }
      r := Ok(loggedIn);
    }

    /** get_hydrometers: a successful reply replaces the cached list. */
    method GetHydrometers(reply: Response<seq<Hydrometer>>) returns (ok: bool)
      modifies this`hydrometers
      ensures old(Valid()) ==> Valid()
      ensures ok == reply.Success()
      ensures hydrometers == if ok then reply.body else old(hydrometers)
    {
      ok := reply.Success();
      if ok {
        hydrometers := reply.body;
      }
    }

    /** get_brews: a successful reply replaces the cached list. */
    method GetBrews(reply: Response<seq<Brew>>) returns (ok: bool)
      modifies this`brews
      ensures old(Valid()) ==> Valid()
      ensures ok == reply.Success()
      ensures brews == if ok then reply.body else old(brews)
    {
      ok := reply.Success();
      if ok {
        brews := reply.body;
      }
    }

    /** register_hydrometer: the new hydrometer's id ("No Id!" when the reply
        has none), or None (the source's False) when the service refuses. */
    method RegisterHydrometer(name: Option<string>, reply: Response<Option<string>>)
      returns (id: Option<string>)
      ensures id.Some? <==> reply.Success()
      ensures id.Some? ==> id.value == reply.body.GetOr("No Id!")
    {
      if reply.Success() {
        id := Some(reply.body.GetOr("No Id!"));
      } else {
        id := None;
      }
    }

    /** register_brew: on success the reply (a list of brews) replaces the
        cached brews and is returned; a refusal raises and leaves the cache. */
    method RegisterBrew(name: string, hydrometerId: Option<string>, reply: Response<seq<Brew>>)
      returns (r: Result<seq<Brew>>)
      modifies this`brews
      ensures old(Valid()) ==> Valid()
      ensures reply.Success() ==> r == Ok(reply.body) && brews == reply.body
      ensures !reply.Success() ==> r == Err(RegisterBrewFailed) && brews == old(brews)
    {
      if reply.Success() {
        brews := reply.body;
        r := Ok(reply.body);
      } else {
        r := Err(RegisterBrewFailed);
      }
    }

    /** generate_device_token: on success the new token ("" when the reply has
        none) becomes the device token; a refusal raises and changes nothing. */
    method GenerateDeviceToken(reply: Response<Option<string>>) returns (r: Result<string>)
      modifies this`deviceid
      ensures old(Valid()) ==> Valid()
      ensures reply.Success() ==> r == Ok(reply.body.GetOr("")) && deviceid == Some(r.value)
      ensures !reply.Success() ==> r == Err(DeviceTokenFailed) && deviceid == old(deviceid)
    {
      if reply.Success() {
        var t := reply.body.GetOr("");
        deviceid := Some(t);
        r := Ok(t);
      } else {
        r := Err(DeviceTokenFailed);
      }
    }

    /** delete_brew: a brew that has not ended is refused without any remote
        call; otherwise it is deleted by id and the status decides the result. */
    method DeleteBrew(brew: Brew, status: int) returns (ok: bool, call: Option<Call>)
      ensures !Truthy(brew.endDate) ==> !ok && call.None?
      ensures Truthy(brew.endDate) ==>
        call == Some(Call(Delete, BrewsUrl() + "/" + IdText(brew.id))) && ok == (status == 200)
    {
      if !Truthy(brew.endDate) {
        return false, None;
      }
      call := Some(Call(Delete, BrewsUrl() + "/" + IdText(brew.id)));
      ok := status == 200;
    }

    /** link_brew_to_recipe: recipe id -1 returns at once without a call; an
        absent ("") or null recipe id fails int() before the call; otherwise the
        brew is patched and a refusal raises. The result is the reply's MTDeviceId. */
    method LinkBrewToRecipe(brewId: Option<string>, recipeId: RecipeField,
                            reply: Response<Option<string>>)
      returns (r: Result<Option<string>>, call: Option<Call>)
      ensures recipeId == Id(-1) ==> r == Ok(None) && call.None?
      ensures !recipeId.Id? ==> r == Err(RecipeIdNotInteger) && call.None?
      ensures recipeId.Id? && recipeId.n != -1 ==>
        call == Some(Call(Patch, BrewsUrl() + "/" + IdText(brewId))) &&
        r == if reply.Success() then Ok(Some(reply.body.GetOr(""))) else Err(LinkFailed)
    {
      if recipeId == Id(-1) {
        return Ok(None), None;
      }
      if !recipeId.Id? {
        return Err(RecipeIdNotInteger), None;
      }
      call := Some(Call(Patch, BrewsUrl() + "/" + IdText(brewId)));
      if reply.Success() {
        r := Ok(Some(reply.body.GetOr("")));
      } else {
        r := Err(LinkFailed);
      }
    }

    /** end_brew: both the hydrometer token and the brew id must be set, or it
        raises before any call; otherwise the brews resource is patched with
        the two ids, and the reply's status is only logged, so it returns
        nothing whatever the service answers. */
    method EndBrew(hydrometerToken: Option<string>, brewId: Option<string>)
      returns (r: Result<()>, call: Option<Call>, body: Option<(string, string)>)
      ensures !Truthy(hydrometerToken) || !Truthy(brewId) ==>
        r == Err(EndBrewMissingIds) && call.None? && body.None?
      ensures Truthy(hydrometerToken) && Truthy(brewId) ==>
        call == Some(Call(Patch, BrewsUrl())) && r == Ok(()) &&
        body == Some((hydrometerToken.value, brewId.value))
    {
      if !Truthy(hydrometerToken) || !Truthy(brewId) {
        return Err(EndBrewMissingIds), None, None;
      }
      call := Some(Call(Patch, BrewsUrl()));
      body := Some((hydrometerToken.value, brewId.value));
      r := Ok(());
    }

    /** add_data_point: the body carries the device token and the session's
        readings; the observer is told (ok) only when the service accepts it,
        and a refused point is dropped. */
    method AddDataPoint(name: string, gravity: real, temperature: real, tempUnits: string,
                        battery: int, status: int)
      returns (point: DataPoint, call: Call, ok: bool)
      ensures point == DataPoint(deviceid, name, gravity, temperature, tempUnits, battery)
      ensures call == Call(Post, PillUrl())
      ensures ok == (status == 200)
    {
      point := DataPoint(deviceid, name, gravity, temperature, tempUnits, battery);
      call := Call(Post, PillUrl());
      ok := status == 200;
    }
  }
}
