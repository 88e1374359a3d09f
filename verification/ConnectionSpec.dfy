/** Requests, profiles and the decisions of connection/manager.go that are pure. */
module ConnectionSpec {
  import opened Options

  type ClientId = nat

  datatype Scheme = Http | Https

  /** What ValidateURL makes of an acceptable URL. */
  datatype Endpoint = Endpoint(normalizedURL: string, scheme: Scheme, isLoopback: bool)

  datatype TlsMode = Unset | System | CA | Pin | OtherMode

  datatype Profile = Profile(
    url: string, username: string, tlsMode: TlsMode, pinFingerprint: string, pinCertPEM: string, allowInsecureHTTP: bool)

  datatype SecretAction = Keep | Replace | Delete | OtherSecretAction

  /** `endpoint` is None when ValidateURL refuses the URL. */
  datatype Request = Request(
    endpoint: Option<Endpoint>, username: string, password: string, tlsMode: TlsMode, pin: string,
    allowInsecureHTTP: bool, secretAction: SecretAction)

  datatype Rejection = InvalidURL | InsecureHTTP | PinUnknown | SecretsUnavailable | MutationsPending | StorageError

  /** The profile file: absent, bytes of unknown origin, or a profile the daemon wrote. */
  datatype Contents = NoFile | Bytes(raw: string) | Marshalled(profile: Profile)

  const MAX_USER_LEN := 64

  predicate LowerHex(s: string) {
    forall i :: 0 <= i < |s| ==> '0' <= s[i] <= '9' || 'a' <= s[i] <= 'f'
  }

  predicate InsecureTransport(ep: Endpoint) {
    !ep.isLoopback && ep.scheme.Http?
  }

  predicate PolicyViolated(ep: Endpoint, acknowledged: bool) {
    InsecureTransport(ep) && !acknowledged
  }

  predicate TlsRequestOk(mode: TlsMode, pin: string) {
    mode.Unset? || mode.System? || (mode.Pin? && |pin| == 64 && LowerHex(pin))
  }

  /** Phase A: everything that depends on the request alone, in the code's order. */
  function PureRejection(req: Request): Option<Rejection> {
    if req.endpoint.None? then Some(InvalidURL)
    else if PolicyViolated(req.endpoint.value, req.allowInsecureHTTP) then Some(InsecureHTTP)
    else if req.secretAction.OtherSecretAction? then Some(InvalidURL)
    else if req.secretAction.Replace? && req.password == "" then Some(InvalidURL)
    else if !TlsRequestOk(req.tlsMode, req.pin) then Some(InvalidURL)
    else None
  }

  /** Phase D: the certificate a pin resolves to, from the offered certificates (already in
      PEM form) or the active profile; no certificate for the other modes. */
  function ResolveTls(req: Request, offered: map<string, string>, active: Profile): Option<string> {
    if !req.tlsMode.Pin? then Some("")
    else if req.pin in offered then Some(offered[req.pin])
    else if req.pin == active.pinFingerprint && active.pinCertPEM != "" then Some(active.pinCertPEM)
    else None
  }

  function NextProfile(req: Request, pem: string): Profile
    requires req.endpoint.Some?
  {
    Profile(req.endpoint.value.normalizedURL, req.username, if req.tlsMode.Unset? then System else req.tlsMode,
            req.pin, if req.tlsMode.Pin? then pem else "", req.allowInsecureHTTP)
  }

  /** The profile a call decides on, given the certificates offered and the profile active at
      that moment; None when it would be refused there. */
  function Decision(req: Request, offered: map<string, string>, active: Profile): Option<Profile> {
    if PureRejection(req).Some? then None
    else
      var pem := ResolveTls(req, offered, active);
      if pem.None? then None else Some(NextProfile(req, pem.value))
  }

  /** The part of Profile.Validate that the URL checks before it leave open. */
  predicate Savable(p: Profile) {
    |p.username| <= MAX_USER_LEN && (p.tlsMode.Pin? ==> p.pinCertPEM != "")
  }

  function SecretAfter(req: Request, secret: Option<string>): Option<string> {
    match req.secretAction
    case Replace => Some(req.password)
    case Delete => None
    case _ => secret
  }

  /** How the fallible operations of one call go. */
  datatype Luck = Luck(
    readStore: bool, getSecret: bool, setSecret: bool, saveStore: bool, buildClient: bool,
    undoSecret: bool, undoStore: bool)

  /** The first obstacle on the way of a call that runs alone, in the code's order, if
      there is one; `busy` is a held drain or a mutation in flight. */
  function Obstacle(req: Request, luck: Luck, busy: bool, active: Profile, offered: map<string, string>): Option<Rejection> {
    var pure := PureRejection(req);
    if pure.Some? then pure
    else if busy then Some(MutationsPending)
    else PreparationObstacle(req, luck, active, offered)
  }

  /** The part of it between the drain and the point of no return. */
  function PreparationObstacle(req: Request, luck: Luck, active: Profile, offered: map<string, string>): Option<Rejection>
    requires PureRejection(req).None?
  {
    var pem := ResolveTls(req, offered, active);
    if !luck.readStore then Some(StorageError)
    else if !req.secretAction.Keep? && !luck.getSecret then Some(SecretsUnavailable)
    else if pem.None? then Some(PinUnknown)
    else if !req.secretAction.Keep? && !luck.setSecret then Some(SecretsUnavailable)
    else if !luck.saveStore || !Savable(NextProfile(req, pem.value)) then Some(StorageError)
    else if !luck.buildClient then Some(InvalidURL)
    else None
  }

  // ---- what these decide, read on the request ----

  /** What a request must be, whatever the state: an address reached safely or by consent, a
      known secret intent with the password it needs, a legal trust choice. */
  predicate Admissible(req: Request) {
    && req.endpoint.Some?
    && (req.endpoint.value.isLoopback || req.endpoint.value.scheme == Https || req.allowInsecureHTTP)
    && (req.secretAction == Keep || req.secretAction == Delete || (req.secretAction == Replace && |req.password| > 0))
    && (req.tlsMode == Unset || req.tlsMode == System || (req.tlsMode == Pin && Fingerprint(req.pin)))
  }

  /** 64 lower-case hexadecimal digits. */
  predicate Fingerprint(pin: string) {
    |pin| == 64 && forall c :: c in pin ==> c in "0123456789abcdef"
  }

  /** The only plain HTTP that needs consent is to another host. */
  predicate NeedsConsent(req: Request) {
    req.endpoint.Some? && !req.endpoint.value.isLoopback && req.endpoint.value.scheme == Http && !req.allowInsecureHTTP
  }

  /** The certificate goes with the request: none without a pin, with one the offered
      certificate of that fingerprint or else the active profile's own. */
  predicate Certified(req: Request, offered: map<string, string>, active: Profile, pem: string) {
    if req.tlsMode != Pin then pem == ""
    else if req.pin in offered then pem == offered[req.pin]
    else pem == active.pinCertPEM && pem != "" && active.pinFingerprint == req.pin
  }

  /** The profile says what the request says, with the system's trust as the default. */
  predicate Reflects(p: Profile, req: Request) {
    && req.endpoint.Some? && p.url == req.endpoint.value.normalizedURL && p.username == req.username
    && p.tlsMode == (if req.tlsMode == Unset then System else req.tlsMode)
    && p.pinFingerprint == req.pin && p.allowInsecureHTTP == req.allowInsecureHTTP
  }

  predicate SecretIs(req: Request, was: Option<string>, now: Option<string>) {
    && (req.secretAction == Keep ==> now == was)
    && (req.secretAction == Replace ==> now == Some(req.password))
    && (req.secretAction == Delete ==> now.None?)
  }

  /** Each outcome with the only condition under which it is the answer. */
  predicate AnswersWhy(
    answer: Option<Rejection>, req: Request, luck: Luck, busy: bool, active: Profile, offered: map<string, string>)
  {
    var stored := req.secretAction != Keep;
    var ready := Admissible(req) && !busy && luck.readStore && (stored ==> luck.getSecret);
    var trusted := req.tlsMode != Pin || req.pin in offered || (req.pin == active.pinFingerprint && active.pinCertPEM != "");
    var whole := |req.username| <= 64 && (req.tlsMode == Pin && req.pin in offered ==> offered[req.pin] != "");
    && (answer == Some(InsecureHTTP) <==> NeedsConsent(req))
    && (answer == Some(MutationsPending) <==> Admissible(req) && busy)
    && (answer == Some(SecretsUnavailable) <==>
          Admissible(req) && !busy && luck.readStore && stored && (!luck.getSecret || (trusted && !luck.setSecret)))
    && (answer == Some(PinUnknown) <==> ready && !trusted)
    && (answer == Some(StorageError) <==>
          Admissible(req) && !busy && (!luck.readStore || (ready && trusted && (stored ==> luck.setSecret) && !(luck.saveStore && whole))))
    && (answer == None <==> ready && trusted && (stored ==> luck.setSecret) && luck.saveStore && whole && luck.buildClient)
  }

  lemma LowerHexIsFingerprint(pin: string)
    ensures |pin| == 64 && LowerHex(pin) <==> Fingerprint(pin)
  {
    if |pin| == 64 && Fingerprint(pin) {
      forall i | 0 <= i < |pin| ensures '0' <= pin[i] <= '9' || 'a' <= pin[i] <= 'f' {
        assert pin[i] in pin;
      }
    }
  }

  lemma PureIsAdmissible(req: Request)
    ensures PureRejection(req).None? <==> Admissible(req)
    ensures PureRejection(req) == Some(InsecureHTTP) <==> NeedsConsent(req)
    ensures PureRejection(req).Some? ==> PureRejection(req).value in {InvalidURL, InsecureHTTP}
  {
    LowerHexIsFingerprint(req.pin);
  }

  lemma ObstacleSaysWhy(req: Request, luck: Luck, busy: bool, active: Profile, offered: map<string, string>)
    ensures AnswersWhy(Obstacle(req, luck, busy, active, offered), req, luck, busy, active, offered)
  {
    PureIsAdmissible(req);
  }

  lemma DecisionReflects(req: Request, offered: map<string, string>, active: Profile)
    ensures var d := Decision(req, offered, active);
            d.Some? ==> Admissible(req) && Reflects(d.value, req) && Certified(req, offered, active, d.value.pinCertPEM)
  {
    PureIsAdmissible(req);
  }

  lemma SecretAfterIs(req: Request, was: Option<string>)
    ensures SecretIs(req, was, SecretAfter(req, was))
  {
  }
}
