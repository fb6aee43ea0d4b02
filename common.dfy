/** Shared value types: optional values, results carrying the exceptions the
    program raises, remote responses, and Python truthiness of optional strings. */
module Common {

  datatype Option<+T> = None | Some(value: T) {
    function GetOr(default: T): T {
      match this
      case Some(v) => v
      case None => default
    }
  }

  /** The exceptions (and rejected inputs) of the modelled program. */
  datatype Error =
    | InvalidLength        // decode_rapt_data: payload is not 23 bytes (ValueError)
    | InvalidPrefix        // decode_rapt_data: payload does not start with "PT" (ValueError)
    | NoGravityVelocity    // a version-1 record has no gravityVel attribute (AttributeError)
    | NoCredentials        // handle_login: neither tokens nor email/password (RuntimeError)
    | GoogleTokenNotSet    // google_auth: no AccessToken configured (ValueError)
    | RegisterBrewFailed   // register_brew: remote refused (RuntimeError)
    | DeviceTokenFailed    // generate_device_token: remote refused (RuntimeError)
    | DeviceIdNotSet       // initialise_brew: device token empty (ValueError)
    | EmptyBrewReply       // initialise_brew: registered brew list is empty (IndexError)
    | RecipeIdNotInteger   // link_brew_to_recipe: int() of a missing recipe id (ValueError)
    | LinkFailed           // link_brew_to_recipe: remote refused (RuntimeError)
    | EndBrewMissingIds    // end_brew: token or brew id unset (RuntimeError)
    | NoSuchSession        // stop_pill: status message dereferences None (AttributeError)
    | VersionNotNumeric    // compare_versions: a part is not an integer (RuntimeError)
    | PollIntervalNotInteger // RaptPill: int("") of a missing poll interval (ValueError)

  datatype Result<+T> = Ok(value: T) | Err(error: Error)

  /** The reply of one remote call: its HTTP status code and the decoded JSON body. */
  datatype Response<+T> = Response(status: int, body: T) {
    predicate Success() { status == 200 }
  }

  /** Python truthiness of a JSON value that is a string or null/absent. */
  predicate Truthy(s: Option<string>) {
    s.Some? && s.value != ""
  }
}
