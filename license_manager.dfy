/** License selection for an endpoint. The manager keeps two process-wide
    fields, the license text and the cached license. The first read of the
    license verifies the text (configured, or found by the location
    conventions) and caches one of three licenses: the deserialized one, the
    basic one, or a trial one. Every collaborator that reads files, the
    registry, the clock or the XML signature is an input (`Environment`). */
module Licensing {
  import opened Wrappers

  /** A point in time, in ticks. */
  datatype DateTime = DateTime(ticks: int)

  /** A license object; its contents are produced and read only by the
      collaborators, so the model keeps it abstract. */
  type License

  /** Why `Verify` threw: the XML signature of the license text is invalid. */
  datatype LicenseError = InvalidSignature

  /** What the collaborators answer during one run:
      - `foundLicenseText`: the location conventions' search result (null when nothing is found);
      - `signatureValid`: whether the signed-XML check accepts a text (it throws otherwise);
      - `deserialize`, `basicLicense`, `trialLicense`: the license deserializer;
      - `hasLicenseExpired`, `hasLicenseDateExpired`: the expiration checker, against the clock;
      - `isNotSystemSid`: the user SID check;
      - `trialExpirationFromRegistry`: the trial end date kept in the registry. */
  datatype Environment = Environment(
    foundLicenseText: Option<string>,
    signatureValid: string -> bool,
    deserialize: string -> License,
    basicLicense: License,
    trialLicense: DateTime -> License,
    hasLicenseExpired: License -> bool,
    hasLicenseDateExpired: DateTime -> bool,
    isNotSystemSid: bool,
    trialExpirationFromRegistry: DateTime)

  /** The characters `char.IsWhiteSpace` accepts: the Unicode space, line and
      paragraph separators, and the control characters U+0009 to U+000D and U+0085. */
  predicate IsWhiteSpace(c: char)
  {
    var u := c as int;
    || 0x09 <= u <= 0x0D || u == 0x20 || u == 0x85 || u == 0xA0 || u == 0x1680
    || 0x2000 <= u <= 0x200A || u == 0x2028 || u == 0x2029 || u == 0x202F
    || u == 0x205F || u == 0x3000
  }

  /** `string.IsNullOrWhiteSpace`: null, empty, or whitespace only. */
  predicate IsNullOrWhiteSpace(s: Option<string>)
  {
    s.None? || forall i :: 0 <= i < |s.value| ==> IsWhiteSpace(s.value[i])
  }

  /** What `string.IsNullOrWhiteSpace` answers is decided character by
      character: null and the empty text are blank, a text is blank exactly
      when both of its parts are, and an XML document (which starts with `<`)
      is never blank. */
  lemma {:induction false} NullOrWhiteSpaceByParts(a: string, b: string)
    ensures IsNullOrWhiteSpace(None) && IsNullOrWhiteSpace(Some(""))
    ensures IsNullOrWhiteSpace(Some(a + b)) <==> IsNullOrWhiteSpace(Some(a)) && IsNullOrWhiteSpace(Some(b))
    ensures !IsNullOrWhiteSpace(Some(['<'] + a))
  {
    if IsNullOrWhiteSpace(Some(a)) && IsNullOrWhiteSpace(Some(b)) {
      forall i | 0 <= i < |a + b| ensures IsWhiteSpace((a + b)[i]) {
        if i < |a| {
          assert (a + b)[i] == a[i];
        } else {
          assert (a + b)[i] == b[i - |a|];
        }
      }
    }
    if IsNullOrWhiteSpace(Some(a + b)) {
      forall i | 0 <= i < |a| ensures IsWhiteSpace(a[i]) {
        assert (a + b)[i] == a[i];
      }
      forall i | 0 <= i < |b| ensures IsWhiteSpace(b[i]) {
        assert (a + b)[i + |a|] == b[i];
      }
    }
    assert (['<'] + a)[0] == '<';
  }

  /** The two static fields of the manager, as one value. */
  datatype Cache = Cache(licenseText: Option<string>, license: Option<License>)

  /** The license trial mode settles on: the basic license when the SID check
      fails or the registry's trial date has passed, otherwise a trial license
      for that date. */
  function TrialModeLicense(env: Environment): (l: License)
  {
    if env.isNotSystemSid then
      if env.hasLicenseDateExpired(env.trialExpirationFromRegistry) then env.basicLicense
      else env.trialLicense(env.trialExpirationFromRegistry)
    else env.basicLicense
  }

  /** The text `Verify` works with: the configured text when there is one,
      otherwise what the location conventions find (which `Verify` stores). */
  function TextToVerify(c: Cache, env: Environment): Option<string>
  {
    if c.licenseText.None? then env.foundLicenseText else c.licenseText
  }

  /** The fields after `Verify`, and whether it threw. */
  function Verified(c: Cache, env: Environment): (r: (Cache, Outcome<LicenseError>))
    ensures r.0.licenseText == TextToVerify(c, env)
    ensures r.1.Pass? ==> r.0.license.Some?
    ensures r.1.Fail? ==> r.0.license == c.license
  {
    var text := TextToVerify(c, env);
    if c.licenseText.None? && IsNullOrWhiteSpace(text) then
      (Cache(text, Some(TrialModeLicense(env))), Pass)
    else if !env.signatureValid(text.value) then
      (Cache(text, c.license), Fail(InvalidSignature))
    else
      var tempLicense := env.deserialize(text.value);
      if env.hasLicenseExpired(tempLicense) then (Cache(text, Some(env.basicLicense)), Pass)
      else (Cache(text, Some(tempLicense)), Pass)
  }

  /** The fields after reading the `License` property, and what it returned
      (or that it threw). */
  function Fetched(c: Cache, env: Environment): (r: (Cache, Result<License, LicenseError>))
    ensures c.license.Some? ==> r == (c, Ok(c.license.value))
    ensures r.1.Ok? ==> r.0.license == Some(r.1.value)
    ensures r.1.Err? ==> r.0.license.None?
  {
    if c.license.Some? then (c, Ok(c.license.value))
    else
      var (next, outcome) := Verified(c, env);
      match outcome
      case Pass => (next, Ok(next.license.value))
      case Fail(e) => (next, Err(e))
  }

  /** The key of the header that records license expiry on a message. */
  const HasLicenseExpiredHeader: string := "$.diagnostics.license.expired"

  /** `bool.ToString().ToLower()`. */
  function LowerCaseBool(b: bool): string
  {
    if b then "true" else "false"
  }

  /** A message being sent, reduced to its headers. */
  class TransportMessage {
    var headers: map<string, string>

    constructor (headers: map<string, string>)
      ensures this.headers == headers
    {
      this.headers := headers;
    }
  }

  /** The license manager's static state and operations. */
  class LicenseManager {
    var licenseText: Option<string>
    var license: Option<License>

    /** The fields as one value. */
    function State(): Cache
      reads this
    {
      Cache(licenseText, license)
    }

    /** Both static fields start out null. */
    constructor ()
      ensures licenseText.None? && license.None?
    {
      licenseText := None;
      license := None;
    }

    /** Stores license text handed over by the configuration API. */
    method InitializeLicenseText(text: Option<string>)
      modifies this
      ensures licenseText == text && license == old(license)
    {
      licenseText := text;
    }

    /** Settles on the trial-mode license. */
    method ConfigureNServiceBusToRunInTrialMode(env: Environment)
      modifies this
      ensures license == Some(TrialModeLicense(env)) && licenseText == old(licenseText)
    {
      if env.isNotSystemSid {
        var trialExpirationDate := env.trialExpirationFromRegistry;
        if env.hasLicenseDateExpired(trialExpirationDate) {
          license := Some(env.basicLicense);
        } else {
          license := Some(env.trialLicense(trialExpirationDate));
        }
        return;
      }
      license := Some(env.basicLicense);
    }

    /** Chooses and caches the license. */
    method Verify(env: Environment) returns (outcome: Outcome<LicenseError>)
      modifies this
      ensures (State(), outcome) == Verified(old(State()), env)
    {
      if licenseText.None? {
        licenseText := env.foundLicenseText;
        if IsNullOrWhiteSpace(licenseText) {
          ConfigureNServiceBusToRunInTrialMode(env);
          return Pass;
        }
      }
      if !env.signatureValid(licenseText.value) {
        return Fail(InvalidSignature);
      }
      var tempLicense := env.deserialize(licenseText.value);
      if env.hasLicenseExpired(tempLicense) {
        license := Some(env.basicLicense);
      } else {
        license := Some(tempLicense);
      }
      outcome := Pass;
    }

    /** The `License` property: verifies only while nothing is cached. */
    method GetLicense(env: Environment) returns (r: Result<License, LicenseError>)
      modifies this
      ensures (State(), r) == Fetched(old(State()), env)
    {
      if license.None? {
        var outcome := Verify(env);
        if outcome.Fail? {
          return Err(outcome.error);
        }
      }
      r := Ok(license.value);
    }

    /** Records on the message whether the current license has expired. */
    method RecordIfLicenseHasExpiredInTheHeader(message: TransportMessage, env: Environment)
      returns (outcome: Outcome<LicenseError>)
      modifies this, message
      ensures var (next, fetched) := Fetched(old(State()), env);
        && State() == next
        && (fetched.Ok? ==>
              && outcome.Pass?
              && message.headers == old(message.headers)[HasLicenseExpiredHeader := LowerCaseBool(env.hasLicenseExpired(fetched.value))])
        && (fetched.Err? ==> outcome == Fail(fetched.error) && message.headers == old(message.headers))
    {
      var current := GetLicense(env);
      if current.Err? {
        return Fail(current.error);
      }
      message.headers := message.headers[HasLicenseExpiredHeader := LowerCaseBool(env.hasLicenseExpired(current.value))];
      outcome := Pass;
    }
  }

  /** Trial mode falls back to the basic license when the SID check fails or
      the trial has expired, and otherwise yields a trial license for exactly
      the registry's date. */
  lemma TrialModeDecision(env: Environment)
    ensures !env.isNotSystemSid ==> TrialModeLicense(env) == env.basicLicense
    ensures env.hasLicenseDateExpired(env.trialExpirationFromRegistry) ==> TrialModeLicense(env) == env.basicLicense
    ensures env.isNotSystemSid && !env.hasLicenseDateExpired(env.trialExpirationFromRegistry) ==>
      TrialModeLicense(env) == env.trialLicense(env.trialExpirationFromRegistry)
  {
  }

  /** Configured text takes precedence: whatever the location conventions
      would find, `Verify` neither uses nor stores it. */
  lemma ConfiguredTextTakesPrecedence(c: Cache, env: Environment, found: Option<string>)
    requires c.licenseText.Some?
    ensures Verified(c, env) == Verified(c, env.(foundLicenseText := found))
    ensures Verified(c, env).0.licenseText == c.licenseText
  {
  }

  /** Without configured text, a missing or blank discovered text means trial
      mode: the text is stored, the trial-mode license is cached, and neither
      the signature check nor the deserializer is consulted. */
  lemma BlankDiscoveredTextMeansTrialMode(c: Cache, env: Environment,
      signatureValid: string -> bool, deserialize: string -> License, hasLicenseExpired: License -> bool)
    requires c.licenseText.None? && IsNullOrWhiteSpace(env.foundLicenseText)
    ensures Verified(c, env) == (Cache(env.foundLicenseText, Some(TrialModeLicense(env))), Pass)
    ensures Verified(c, env) == Verified(c, env.(signatureValid := signatureValid, deserialize := deserialize,
                                                 hasLicenseExpired := hasLicenseExpired))
  {
  }

  /** A text whose signature is rejected makes `Verify` throw before anything
      is deserialized: the cached license is left as it was, whatever the
      deserializer would return. */
  lemma SignatureCheckedBeforeDeserializing(c: Cache, env: Environment, deserialize: string -> License)
    requires !(c.licenseText.None? && IsNullOrWhiteSpace(env.foundLicenseText))
    requires !env.signatureValid(TextToVerify(c, env).value)
    ensures Verified(c, env).1 == Fail(InvalidSignature)
    ensures Verified(c, env).0.license == c.license
    ensures Verified(c, env) == Verified(c, env.(deserialize := deserialize))
  {
  }

  /** A text with a valid signature yields its deserialized license, or the
      basic license when that one has expired. */
  lemma SignedTextYieldsDeserializedUnlessExpired(c: Cache, env: Environment)
    requires !(c.licenseText.None? && IsNullOrWhiteSpace(env.foundLicenseText))
    requires env.signatureValid(TextToVerify(c, env).value)
    ensures var temp := env.deserialize(TextToVerify(c, env).value);
      Verified(c, env) == (Cache(TextToVerify(c, env), Some(if env.hasLicenseExpired(temp) then env.basicLicense else temp)), Pass)
  {
  }

  /** The cache is filled once: after a read of `License` that did not throw,
      every later read returns the same license and changes nothing, whatever
      the collaborators answer then. */
  lemma CacheFilledOnce(c: Cache, first: Environment, later: seq<Environment>)
    requires Fetched(c, first).1.Ok?
    ensures var (c1, r1) := Fetched(c, first);
      && FetchedAll(c1, later).0 == c1
      && forall j :: 0 <= j < |later| ==> FetchedAll(c1, later).1[j] == r1
  {
    CachedLicenseIsKept(Fetched(c, first).0, later);
  }

  /** Once a license is cached, reads return it and leave the fields alone. */
  lemma {:induction false} CachedLicenseIsKept(c: Cache, later: seq<Environment>)
    requires c.license.Some?
    ensures FetchedAll(c, later).0 == c
    ensures forall j :: 0 <= j < |later| ==> FetchedAll(c, later).1[j] == Ok(c.license.value)
  {
    if later != [] {
      CachedLicenseIsKept(c, later[1..]);
    }
  }

  /** Reads `License` once per environment, in order, and collects the results. */
  function FetchedAll(c: Cache, envs: seq<Environment>): (r: (Cache, seq<Result<License, LicenseError>>))
    ensures |r.1| == |envs|
    decreases |envs|
  {
    if envs == [] then (c, [])
    else
      var (c1, r1) := Fetched(c, envs[0]);
      var (c2, rs) := FetchedAll(c1, envs[1..]);
      (c2, [r1] + rs)
  }
}
