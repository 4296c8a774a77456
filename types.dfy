/** Values shared by the request-time authentication resolver of web/auth.go. */
module AuthTypes {

  datatype Option<T> = None | Some(value: T)

  /** cnf.Kind: the trust level attached to a request. */
  datatype Kind = AuthKV | AuthNS | AuthDB | AuthSC | AuthNO

  /** What cnf.Auth.Data may hold: nothing, a record reference
      (sql.NewThing(tb, id)), or a record returned by a connect query. */
  datatype Datum = Null | Thing(tb: string, id: string) | Doc(body: string)

  /** A snapshot of every field of cnf.Auth. */
  datatype AuthState = AuthState(
    kind: Kind,
    possibleNS: string,
    possibleDB: string,
    selectedNS: string,
    selectedDB: string,
    scope: string,
    data: Datum)

  /** What a middleware returns: the next handler's own result, or an HTTP error
      carrying its status code. */
  datatype Outcome = Handled | Rejected(code: int)

  const Unauthorized := 401
  const Forbidden := 403
  const InternalError := 500

  /** The state a resolution step leaves behind, with its outcome. */
  datatype Step = Step(state: AuthState, outcome: Outcome)

  datatype IP = IP(octets: seq<bv8>)
  datatype IPNet = IPNet(ip: IP, mask: seq<bv8>)

  /** The root credentials and allowed networks of cnf.Settings.Auth. */
  datatype Config = Config(user: string, pass: string, nets: seq<IPNet>)

  /** The parts of an inbound request the resolver reads. An absent header
      is the empty string, as Header().Get returns it. */
  datatype Request = Request(
    host: string,
    nsHeader: string,
    dbHeader: string,
    authorization: string,
    subprotocols: seq<string>,
    ip: IP)

  /** A JWT claim value: a JSON string, or any other JSON value. */
  datatype Claim = Str(s: string) | NonString

  /** A token jwt.Parse could decode: its header `alg`, whether that names an
      HMAC signing method, and its (not yet verified) claims. */
  datatype Token = Token(alg: string, hmac: bool, claims: map<string, Claim>)

  /** A scope definition: its name, signing code, and the inner expression of
      its connect clause when that clause is a sub-expression. */
  datatype ScopeDef = ScopeDef(name: string, code: string, connect: Option<string>)

  /** A named signing key: its declared algorithm and its key material. */
  datatype TokenKey = TokenKey(typ: string, code: string)

  /** A namespace or database user, whose code signs its tokens. */
  datatype UserDef = UserDef(code: string)

  /** The collaborators the resolver calls but does not define. Each lookup
      answers None where the real call returns an error. */
  datatype Services = Services(
    // base64.StdEncoding.DecodeString
    decode: string -> Option<string>,
    // net.IPNet.Contains
    contains: (IPNet, IP) -> bool,
    // signinNS(ns, user, pass) and signinDB(ns, db, user, pass) succeed
    signinNS: (string, string, string) -> bool,
    signinDB: (string, string, string, string) -> bool,
    // db.Begin(false) succeeds
    begin: bool,
    // the mem cache lookups bound to the read transaction
    getSC: (string, string, string) -> Option<ScopeDef>,
    getST: (string, string, string, string) -> Option<TokenKey>,
    getDT: (string, string, string) -> Option<TokenKey>,
    getDU: (string, string, string) -> Option<UserDef>,
    getNT: (string, string) -> Option<TokenKey>,
    getNU: (string, string) -> Option<UserDef>,
    // db.Process of one statement with `id` bound: the records of each response
    process: (string, Datum) -> Option<seq<seq<Datum>>>,
    // jwt.Parse up to the key callback: decoding and signing-method lookup
    parse: string -> Option<Token>,
    // MapClaims.Valid: the time-based claim checks
    claimsValid: map<string, Claim> -> bool,
    // the signature check of the token with the given key material
    verify: (Token, string) -> bool)
}
