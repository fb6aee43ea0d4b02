# RAPT Pill to MeadTools bridge — a Dafny model

The bridge listens for Bluetooth LE advertisements from RAPT Pill hydrometers
and turns each 23-byte manufacturer payload into readings: gravity, ABV,
temperature, battery and acceleration. A per-session rate gate decides when
those readings are uploaded to the MeadTools web service. This project models
the core of `PillToMeadTools.py` in Dafny and proves properties of that model.

- **Advertisement** (`advertisement.dfy`) covers the payload guards (length 23,
  prefix "PT"). It also covers the two big-endian record layouts, chosen by the
  byte at offset 2. An encoder is the decoder's inverse, and the
  `device_found` filter is modelled here too.
- **Rounding** (`rounding.dfy`) models Python's `round()`, half to even, on
  exact reals.
- **MeadToolsClient** (`meadtools.dfy`) models the `MeadTools` client as a
  class. It covers login and refresh, the cached hydrometer and brew lists,
  and the resource calls. Each remote call is replaced by its reply, a
  status code and a decoded body given as a parameter; 200 means success.
- **PillSession** (`session.dfy`) models one monitored Pill, the `RaptPill`
  class. Its decoded state is also a value, `Session`, and the pure `Step`
  says what one packet does to it. `Run` and `Reports` fold `Step` over a
  stream of packets. The class also resolves the session's hydrometer and
  brew on MeadTools, as `__init__` and `initialise_brew` do.
- **SessionProperties** (`session_props.dfy`) holds the lemmas about a
  session:
  - the starting-gravity latch
  - the rate gate over any packet stream
  - the gravity and ABV arithmetic
  - the find-or-register rules
  - the two findings below
- **Versions** (`versions.dfy`) models `compare_versions`, with Python's
  `str.split`, `int()` and list order.
- **PillRegistry** (`holder.dfy`) models the `PillHolder` list of sessions,
  `run_pill` and `stop_pill`.

Inputs the program takes from the outside world are parameters:
- the clock (`now`, in seconds)
- the value of an IEEE-754 binary32 field, as the function `binary32`
- every HTTP reply

## Model

| member | source | states |
|---|---|---|
| Rounding.RoundHalfEven | PillToMeadTools.py:830 | round(x) is within 1/2 of x, and a tie goes to the even integer |
| Rounding.RoundHalfEvenUnique | PillToMeadTools.py:830 | those two properties determine round(x) uniquely |
| Rounding.RoundHalfEvenOfInt | PillToMeadTools.py:830 | round(k) == k for an integer k |
| Rounding.Round4 | PillToMeadTools.py:777 | round(x, 4) is within 0.00005 of x and a whole number of ten-thousandths |
| Rounding.Round2 | PillToMeadTools.py:790 | round(x, 2) is within 0.005 of x and a whole number of hundredths |
| Rounding.Round4Exact | PillToMeadTools.py:824-827 | round(x, 4) leaves a whole number of ten-thousandths unchanged |
| Rounding.Round4Idempotent | PillToMeadTools.py:824-827 | round(round(x, 4), 4) == round(x, 4) |
| Rounding.RoundHalfEvenMonotone | PillToMeadTools.py:830 | round() preserves order |
| Rounding.Round4Monotone | PillToMeadTools.py:777 | round(x, 4) preserves order |
| Advertisement.UInt8 | PillToMeadTools.py:815-821 | struct code B yields a value below 256 |
| Advertisement.UInt16 | PillToMeadTools.py:815-821 | struct code >H yields a value below 65536 |
| Advertisement.Int16 | PillToMeadTools.py:815-821 | struct code >h yields a value in -32768..32767, negative exactly when the high byte is at least 0x80 |
| Advertisement.Decode | PillToMeadTools.py:804-818 | a wrong length raises InvalidLength, and a wrong prefix then raises InvalidPrefix; a payload is accepted iff it has both; the byte at offset 2 picks the layout (1 gives V1); temperature, gravity and the axes come from the same absolute offsets in both layouts; the V1 mac and the V2 gravity velocity come from fixed offsets, and battery is signed in V1 and unsigned in V2 |
| Advertisement.PackUInt16 | PillToMeadTools.py:815-821 | packing with >H is inverted by the >H reader |
| Advertisement.PackInt16 | PillToMeadTools.py:815-821 | packing with >h is inverted by the >h reader |
| Advertisement.Encode | PillToMeadTools.py:815-818 | a record encodes as a 23-byte payload starting "PT" |
| Advertisement.DecodeEncode | PillToMeadTools.py:815-821 | decoding an encoded well-formed record gives it back |
| Advertisement.DecodeEncodeV1 | PillToMeadTools.py:815-816 | the round trip for the version-1 layout |
| Advertisement.DecodeEncodeV2 | PillToMeadTools.py:817-818 | the round trip for the version-2 layout |
| Advertisement.PackUnpack16 | PillToMeadTools.py:815-821 | packing a 16-bit field read from a payload gives back its two bytes |
| Advertisement.EncodeDecode | PillToMeadTools.py:815-821 | re-encoding a decoded payload gives it back; a V2 record forgets only bytes 2 and 3 |
| Advertisement.FieldBytes | PillToMeadTools.py:815-821 | bytes 9..23 of an accepted payload are the packed shared fields |
| Advertisement.EncodeV1Fields | PillToMeadTools.py:815-816 | a V1 record encodes as its header followed by its fields |
| Advertisement.EncodeV2Fields | PillToMeadTools.py:817-818 | a V2 record encodes as its header followed by its fields |
| Advertisement.V2IgnoresVersionBytes | PillToMeadTools.py:815-818 | two V2 payloads that agree from offset 4 on decode alike |
| Advertisement.NameMarkerIsNotAPayload | PillToMeadTools.py:761-762 | the b"PTdPillG1" name advertisement would fail the length guard |
| Advertisement.Lower | PillToMeadTools.py:757 | lower() keeps the length |
| Advertisement.LowerEqualIff | PillToMeadTools.py:757 | a.lower() == b.lower() iff the strings agree character by character ignoring case |
| Advertisement.PayloadFor | PillToMeadTools.py:749-766 | the decoder is called exactly when the address matches ignoring case, data is present under id 16722, and it is not the name marker; it is then given that data |
| MeadToolsClient.FirstIndex | PillToMeadTools.py:555-563 | the next(...) search gives the first matching index, and None iff nothing matches |
| MeadToolsClient.MeadTools.constructor | PillToMeadTools.py:65-77 | not logged in, no bearer token or brew id, the device token from the configuration, empty caches |
| MeadToolsClient.MeadTools.RefreshLogin | PillToMeadTools.py:171-194 | success stores the new access token as the bearer token and logs in; failure logs out and keeps the tokens |
| MeadToolsClient.MeadTools.Login | PillToMeadTools.py:196-220 | success stores both tokens and logs in; failure changes nothing |
| MeadToolsClient.MeadTools.GoogleAuth | PillToMeadTools.py:253-258 | the configured token becomes the bearer token; a missing one raises |
| MeadToolsClient.MeadTools.HandleLogin | PillToMeadTools.py:145-169 | with both tokens: refresh, then login on failure; else with email and password: login; else it raises; logged_in ends equal to the outcome; Google mode uses the token, and a missing one raises with logged_in unchanged; another mode changes nothing |
| MeadToolsClient.MeadTools.GetHydrometers | PillToMeadTools.py:265-279 | a successful reply replaces the hydrometer cache, and a failure keeps it |
| MeadToolsClient.MeadTools.GetBrews | PillToMeadTools.py:303-318 | a successful reply replaces the brew cache, and a failure keeps it |
| MeadToolsClient.MeadTools.RegisterHydrometer | PillToMeadTools.py:281-301 | the new id ("No Id!" when absent) iff the service accepts |
| MeadToolsClient.MeadTools.RegisterBrew | PillToMeadTools.py:320-340 | success replaces the brew cache and returns the reply; a refusal raises and keeps the cache |
| MeadToolsClient.MeadTools.GenerateDeviceToken | PillToMeadTools.py:342-368 | success stores and returns the token ("" when absent); a refusal raises and changes nothing |
| MeadToolsClient.MeadTools.DeleteBrew | PillToMeadTools.py:370-386 | a brew without end_date is refused with no call; otherwise DELETE brews/<id>, and the status decides the result |
| MeadToolsClient.MeadTools.LinkBrewToRecipe | PillToMeadTools.py:388-405 | recipe -1 returns with no call; a non-integer recipe id raises before the call; otherwise PATCH brews/<id>, and a refusal raises |
| MeadToolsClient.MeadTools.EndBrew | PillToMeadTools.py:407-431 | a missing token or brew id raises with no call; otherwise PATCH brews with the two ids, returning nothing whatever the status |
| MeadToolsClient.MeadTools.AddDataPoint | PillToMeadTools.py:444-466 | the body carries the device token and the readings; POST to the pill URL; success iff status 200 |
| PillSession.RaptPill.constructor | PillToMeadTools.py:496-540 | min_time defaults to 120; last_time starts at construction; a non-zero StartSG closes the latch; the initial readings |
| PillSession.RaptPill.SetStartingGravity | PillToMeadTools.py:585-595 | only the first assignment takes effect; the latch is closed afterwards |
| PillSession.RaptPill.Start | PillToMeadTools.py:661-664 | the session runs |
| PillSession.RaptPill.EndSession | PillToMeadTools.py:687-692 | the session stops running |
| PillSession.RaptPill.DecodeRaptData | PillToMeadTools.py:794-854 | the new state is Step's; a latched starting gravity is unchanged; a refusal raises; a report fires only when the gate opens and is uploaded or only logged |
| PillSession.RaptPill.UpdateReadings | PillToMeadTools.py:827-834 | every reading but the gravity velocity is set from the record |
| PillSession.RaptPill.ReportIfDue | PillToMeadTools.py:836-854 | the gate resets last_time before the upload; the uploaded point carries the current readings |
| PillSession.RaptPill.InitialiseBrew | PillToMeadTools.py:694-747 | the device token, brew cache, brew id, outcome and link call are those of SetUpBrew |
| PillSession.RaptPill.ConnectToMeadTools | PillToMeadTools.py:546-570 | when not logged in, MeadTools logging is switched off with no call; when logged in, the hydrometer is found by name or registered, then the brew is initialised |
| PillSession.RaptPill.DeviceFound | PillToMeadTools.py:749-766 | filtered packets change nothing; the rest change the state as Step says and return what decoding reported: the refusal, nothing (gate closed), the uploaded point with its acceptance, or a console-only report |
| SessionProperties.AbvZeroAtStart | PillToMeadTools.py:768-777 | the ABV is 0 while the current gravity equals the starting gravity |
| SessionProperties.AbvMonotone | PillToMeadTools.py:768-777 | a lower current gravity never gives a lower ABV |
| SessionProperties.TemperatureScales | PillToMeadTools.py:779-792 | Celsius is kelvin - 273.15 within 0.005; Fahrenheit is exactly 1.8 times that difference plus 32 |
| SessionProperties.BatteryRange | PillToMeadTools.py:830 | a V2 battery reading becomes 0..256 |
| SessionProperties.StepSpec | PillToMeadTools.py:804-854 | a refused payload changes nothing; an accepted one sets every reading from the record (temperature, gravity, ABV, battery, version, event time, each axis as raw/16; the gravity velocity only from a V2 record) and fires iff now - last_time >= min_time |
| SessionProperties.FirstPacketLatches | PillToMeadTools.py:823-827 | the first packet without a configured StartSG latches its gravity, and its ABV is 0 |
| SessionProperties.LatchHolds | PillToMeadTools.py:585-595 | once latched, the starting gravity survives any packet stream |
| SessionProperties.ReportsSpaced | PillToMeadTools.py:836-854 | reports over any stream are at least min_time apart; last_time ends at the last report |
| SessionProperties.GateOnAccepted | PillToMeadTools.py:836-854 | an accepted packet fires iff the gate opens; last_time moves only then |
| SessionProperties.ReportsOfTwo | PillToMeadTools.py:836-854 | the reports of a two-packet stream |
| SessionProperties.RateGateExample | PillToMeadTools.py:836-854 | with a 60 s interval, packets at 60 and 70 give one report, and at 60 and 130 two |
| SessionProperties.GravityTrace | PillToMeadTools.py:823-827 | 1050, 1040, 1010 milli-gravity latch 1.05 and read ABV 0, 1.3125, 5.25 |
| SessionProperties.StepMatchesAsWritten | PillToMeadTools.py:815-834 | the handled step agrees with the code as written except on accepted V1 records |
| SessionProperties.AsWrittenRejectsV1 | PillToMeadTools.py:823-826 | as written, every accepted V1 record latches the starting gravity (if open) and sets the version 1, then raises before any reading or report |
| SessionProperties.V1Counterexample | PillToMeadTools.py:815-826 | a concrete V1 payload is accepted by the guards and raises as written |
| SessionProperties.LinkGuardAsWrittenIgnoresRecipe | PillToMeadTools.py:744-747 | the link guard as written reduces to "brew id set" |
| SessionProperties.SetUpLinksOnlyConfiguredRecipe | PillToMeadTools.py:744-747 | with the intended guard, linking needs an integer recipe id other than -1, and a missing one never raises |
| SessionProperties.SetUpDeviceToken | PillToMeadTools.py:701-707 | a held device token is kept and a missing one generated; an empty token stops the set-up |
| SessionProperties.SelectBrewReusesOpenBrew | PillToMeadTools.py:718-742 | the first ongoing brew with the configured name is reused, and nothing is registered |
| SessionProperties.SelectBrewRegisters | PillToMeadTools.py:712-737 | with no such brew, one is registered; its id is adopted unless nothing was listed; an empty register reply raises (index error) and keeps the brew id |
| SessionProperties.HydrometerReused | PillToMeadTools.py:554-568 | the first hydrometer with the session's name is reused; only without one is a hydrometer registered |
| Versions.Split | PillToMeadTools.py:1001-1002 | str.split gives at least one piece, none containing the separator |
| Versions.JoinSplit | PillToMeadTools.py:1001-1002 | joining the pieces gives the string back |
| Versions.SplitAppend | PillToMeadTools.py:1007 | appending ".t" adds the single piece t |
| Versions.SplitWithout | PillToMeadTools.py:1001 | a string without dots is one piece |
| Versions.ShowNat | PillToMeadTools.py:1001 | the decimal rendering is all digits |
| Versions.ParseShowNat | PillToMeadTools.py:1001-1002 | int() reads a rendered number back |
| Versions.ParseParts | PillToMeadTools.py:1000-1005 | every part parsed, or VersionNotNumeric iff some part is not an integer |
| Versions.Pad | PillToMeadTools.py:1007-1010 | padding keeps the list as a prefix and adds only zeros |
| Versions.LexCompare | PillToMeadTools.py:1012-1017 | list comparison gives -1, 0 or 1 |
| Versions.CompareVersions | PillToMeadTools.py:990-1017 | the answer is -1, 0 or 1 |
| Versions.LexCompareAntisymmetric | PillToMeadTools.py:1012-1017 | swapping the lists negates the comparison |
| Versions.LexCompareZeroIff | PillToMeadTools.py:1012-1017 | the comparison is 0 iff the lists are equal |
| Versions.LexCompareFirstDifference | PillToMeadTools.py:1012-1017 | the list that is smaller at the first difference compares lower |
| Versions.CompareVersionsAntisymmetric | PillToMeadTools.py:990-1017 | compare_versions(b, a) == -compare_versions(a, b), and one raises iff the other does |
| Versions.CompareVersionsRaises | PillToMeadTools.py:1000-1005 | it raises iff some part of either version is not an integer |
| Versions.ZeroPadding | PillToMeadTools.py:1007-1010 | v and v + ".0" compare equal |
| Versions.SplitDotted | PillToMeadTools.py:1001-1002 | splitting a joined list of dot-free pieces gives the pieces |
| Versions.JoinLast | PillToMeadTools.py:1001-1002 | joining splits off the last piece |
| Versions.PartsOfTwo | PillToMeadTools.py:1001-1002 | a two-part version reads as its two integers |
| Versions.SameVersionPadded | PillToMeadTools.py:1007-1017 | "1.2" equals "1.2.0" |
| Versions.NewerVersion | PillToMeadTools.py:1012-1017 | "1.3" is newer than "1.2.9" |
| Versions.OlderVersion | PillToMeadTools.py:1012-1017 | "1.1" is older than "1.2" |
| Versions.NotNumericRefused | PillToMeadTools.py:1000-1005 | "1.x" raises |
| PillRegistry.RemoveAtMultiset | PillToMeadTools.py:1108 | removing a pill loses exactly that pill |
| PillRegistry.PillHolder.constructor | PillToMeadTools.py:904 | the registry starts empty |
| PillRegistry.PillHolder.RunPill | PillToMeadTools.py:1077-1097 | a missing poll interval raises with nothing changed; otherwise the pill is built (last_time now, min_time the poll interval, the starting gravity latched at a non-zero StartSG and otherwise 1.0 and open), connected (hydrometer cache and token found or registered, brew as SetUpBrew), appended, and started iff logged in |
| PillRegistry.PillHolder.StopPill | PillToMeadTools.py:1099-1110 | the first pill whose session has the brew name is stopped (only its running flag changes, its readings and starting-gravity latch are kept) and removed, the others kept in order and unchanged; with no match it raises and nothing changes |

## Findings

| source | as written | input that shows it | evidently intended | confidence | as-written member | corrected member |
|---|---|---|---|---|---|---|
| PillToMeadTools.py:815-826 | a version-1 record is built with the RAPTPillMetricsV1 fields, which have no gravityVel, and then `metrics_raw.gravityVel` is read; this raises AttributeError after the starting gravity has been latched and the version set | the 23 bytes `50 54 01` followed by twenty zero bytes | a version-1 record updates every reading it carries and passes the rate gate | high (not executed) | SessionProperties.AsWrittenRejectsV1 | SessionProperties.StepMatchesAsWritten |
| PillToMeadTools.py:744-747 | the guard `recipe != "" or recipe != None` holds for every value, so a session without MTRecipeId calls `int("")`, which raises ValueError at the end of initialise_brew | a session entry with a BrewName but no MTRecipeId, and any brew id | link only when a recipe id is configured | medium (not executed) | SessionProperties.LinkGuardAsWrittenIgnoresRecipe | SessionProperties.SetUpLinksOnlyConfiguredRecipe |

`StepAsWritten` and `LinkGuardAsWritten` model the code as written. `Step` and
`LinkGuard` are the corrected definitions, and the `RaptPill` class uses them.
`V1Counterexample` exhibits the payload, and the corrected `Step` also accepts
it.

## Left out

- The Qt and e-ink interfaces, logging, `update_status`, `log_event` and `get_datadir` are presentation or platform plumbing with no logic to model.
- `save_data`, and the writes of tokens into the configuration dictionary, are file persistence. The tokens are kept as fields of `MeadTools`.
- `start`, `stop` and `start_session` (the thread and the BleakScanner loop), and `run_headless_pills` and `run_pills`, are concurrency and an endless loop. `Start` only sets the running flag.
- The browser branch of `google_auth`, `wait_for_token` and `OAuthRedirectHandler` are a local HTTP server and a web browser.
- `check_for_release_updates`, `ingredients` and every `requests` call are network I/O. Replies are parameters.
- The IEEE-754 binary32 decoding of the gravity and gravity-velocity fields is the `binary32` parameter. NaN and infinities are not modelled.
- Python `round()` on binary floats is modelled as round-half-even on exact reals. Bit-exact float results are not claimed.
- `last_event`'s formatted UTC timestamp is the arrival time `now`. `decode_rapt_data` reads the clock a second time for the gate, and the model uses the same `now` for both.
- `active_pollers` is a class-level list that is appended to and never read.
- The `elif` branch in `__init__` (line 551) can never be reached.
- `int()` accepting surrounding whitespace and digit-group underscores is not modelled. A recipe id or poll interval stored as a string is not modelled either; both are integers or missing.
- `lower()` is ASCII-only; MAC addresses are hexadecimal.
- A JSON null and a missing key are not told apart for brew and hydrometer fields, nor for a missing "devices" key in the hydrometer reply.
- An empty brew dictionary `{}` in the brew list, which Python would treat as "not found", is not modelled. A listed brew is never falsy.
- PillRegistry.PillHolder.StopPill: when no pill matches, the source fails while formatting its status message (it reads an attribute of None). This is modelled as the error NoSuchSession.
- Brew and device ids are optional strings, so a numeric id 0, which the source treats as falsy (`if self.brewid`, the guard of `end_brew`), cannot be represented.
- A JSON null in the session fields "Pill Name", "Temp in C" and "BrewName", or in the account's login type, is read like a missing key; the source would use None instead of the default.
- `int()` accepting Unicode decimal digits other than ASCII 0-9 is not modelled; version parts and ids parse ASCII digits only.
