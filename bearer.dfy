/** Bearer authentication: checkBearer of web/auth.go with its key callback. */
module BearerAuth {
  import opened AuthTypes
  import opened Record

  /** A claim read with a string type assertion: its text (empty when absent or
      not a string) and whether the assertion held. */
  datatype Field = Field(val: string, ok: bool)

  /** The claim variables the key callback captures: nsv/nsk ... idv/idk. */
  datatype Vars = Vars(ns: Field, db: Field, sc: Field, tk: Field, us: Field, tb: Field, id: Field)

  const Unset := Field("", false)
  const NoVars := Vars(Unset, Unset, Unset, Unset, Unset, Unset, Unset)

  function ReadClaim(claims: map<string, Claim>, key: string): Field
  {
    if key in claims && claims[key].Str? then Field(claims[key].s, true) else Unset
  }

  function ReadVars(claims: map<string, Claim>): Vars
  {
    Vars(ReadClaim(claims, "NS"), ReadClaim(claims, "DB"), ReadClaim(claims, "SC"),
         ReadClaim(claims, "TK"), ReadClaim(claims, "US"), ReadClaim(claims, "TB"),
         ReadClaim(claims, "ID"))
  }

  /** The trust level a token's claims ask for, the most specific first:
      scope, database, namespace, or none. */
  function Branch(v: Vars): Kind
  {
    if v.ns.ok && v.db.ok && v.sc.ok && v.tk.ok then AuthSC
    else if v.ns.ok && v.db.ok && v.tk.ok then AuthDB
    else if v.ns.ok && v.tk.ok then AuthNS
    else AuthNO
  }

  /** The named signing key a non-"default" token of each level is checked
      against. */
  function NamedKeyOf(v: Vars, svc: Services): Option<TokenKey>
  {
    match Branch(v)
    case AuthSC => svc.getST(v.ns.val, v.db.val, v.sc.val, v.tk.val)
    case AuthDB => svc.getDT(v.ns.val, v.db.val, v.tk.val)
    case AuthNS => svc.getNT(v.ns.val, v.tk.val)
    case _ => None
  }

  /** The user whose code signs a "default" database or namespace token. */
  function UserOf(v: Vars, svc: Services): Option<UserDef>
  {
    match Branch(v)
    case AuthDB => svc.getDU(v.ns.val, v.db.val, v.us.val)
    case AuthNS => svc.getNU(v.ns.val, v.us.val)
    case _ => None
  }

  /** Why the key callback refused a token. */
  datatype KeyError = ClaimsInvalid | UnexpectedSigningMethod | CredentialsFailed | NoAvailableToken

  /** What the key callback returns: key material, or an error. */
  datatype KeyResult = Key(code: string) | KeyFail(err: KeyError)

  /** The record after the key callback, the claims it captured, and its result. */
  datatype Resolution = Resolution(state: AuthState, vars: Vars, key: KeyResult)

  /** The four tenant fields agree. */
  predicate SameTenant(a: AuthState, b: AuthState)
  {
    a.possibleNS == b.possibleNS && a.possibleDB == b.possibleDB &&
    a.selectedNS == b.selectedNS && a.selectedDB == b.selectedDB
  }

  /** A connect query answered exactly one response holding exactly one record. */
  predicate SingleRecord(res: Option<seq<seq<Datum>>>)
  {
    res.Some? && |res.value| == 1 && |res.value[0]| == 1
  }

  /** The scope connect step: without a connect query the identity stays as
      given; with one, the query must answer exactly one record, and that
      record becomes the identity. */
  function Connect(connect: Option<string>, identity: Datum, svc: Services): (r: Option<Datum>)
    ensures connect.None? ==> r == Some(identity)
    ensures connect.Some? ==> (r.Some? <==> SingleRecord(svc.process(connect.value, identity)))
    ensures connect.Some? && r.Some? ==> r.value == svc.process(connect.value, identity).value[0][0]
  {
    match connect
    case None => Some(identity)
    case Some(expr) =>
      match svc.process(expr, identity)
      case None => None
      case Some(res) => if |res| != 1 || |res[0]| != 1 then None else Some(res[0][0])
  }

  /** A named key found for a token of the given level, whose declared type
      must equal the token's header alg. */
  function NamedKey(st: AuthState, tok: Token, v: Vars, found: Option<TokenKey>, kind: Kind): Resolution
  {
    match found
    case None => Resolution(st, v, KeyFail(CredentialsFailed))
    case Some(key) =>
      if tok.alg != key.typ then Resolution(st, v, KeyFail(UnexpectedSigningMethod))
      else Resolution(st.(kind := kind), v, Key(key.code))
  }

  /** A user found for a "default" token of the given level. */
  function UserKey(st: AuthState, v: Vars, found: Option<UserDef>, kind: Kind): Resolution
  {
    match found
    case None => Resolution(st, v, KeyFail(CredentialsFailed))
    case Some(usr) => Resolution(st.(kind := kind), v, Key(usr.code))
  }

  /** The scope branch of the key callback: the scope is looked up, its name
      and the token's record reference are stored, the connect step may
      replace that reference, and then the key is chosen. */
  function ScopeKey(st: AuthState, tok: Token, v: Vars, svc: Services): (r: Resolution)
    ensures r.vars == v && SameTenant(r.state, st)
    ensures svc.getSC(v.ns.val, v.db.val, v.sc.val).None? ==> r == Resolution(st, v, KeyFail(CredentialsFailed))
    ensures svc.getSC(v.ns.val, v.db.val, v.sc.val).Some? ==>
      var scp := svc.getSC(v.ns.val, v.db.val, v.sc.val).value;
      r.state.scope == scp.name &&
      (Connect(scp.connect, Thing(v.tb.val, v.id.val), svc).None? ==>
        r == Resolution(st.(scope := scp.name, data := Thing(v.tb.val, v.id.val)), v, KeyFail(CredentialsFailed))) &&
      (Connect(scp.connect, Thing(v.tb.val, v.id.val), svc).Some? ==>
        r.state.data == Connect(scp.connect, Thing(v.tb.val, v.id.val), svc).value)
    ensures r.key.Key? ==> r.state.kind == AuthSC
    ensures !r.key.Key? ==> r.state.kind == st.kind
    // once connected: a "default" token is signed by the scope's code, a named
    // one by its scope-token key, whose type must be the header alg
    ensures svc.getSC(v.ns.val, v.db.val, v.sc.val).Some? ==>
      var scp := svc.getSC(v.ns.val, v.db.val, v.sc.val).value;
      var id := Connect(scp.connect, Thing(v.tb.val, v.id.val), svc);
      id.Some? && v.tk.val == "default" ==>
        var connected := st.(scope := scp.name, data := id.value);
        r == Resolution(connected.(kind := AuthSC), v, Key(scp.code))
    ensures svc.getSC(v.ns.val, v.db.val, v.sc.val).Some? ==>
      var scp := svc.getSC(v.ns.val, v.db.val, v.sc.val).value;
      var id := Connect(scp.connect, Thing(v.tb.val, v.id.val), svc);
      var key := svc.getST(v.ns.val, v.db.val, v.sc.val, v.tk.val);
      id.Some? && v.tk.val != "default" ==>
        var connected := st.(scope := scp.name, data := id.value);
        (key.None? ==> r == Resolution(connected, v, KeyFail(CredentialsFailed))) &&
        (key.Some? && key.value.typ != tok.alg ==> r == Resolution(connected, v, KeyFail(UnexpectedSigningMethod))) &&
        (key.Some? && key.value.typ == tok.alg ==> r == Resolution(connected.(kind := AuthSC), v, Key(key.value.code)))
  {
    match svc.getSC(v.ns.val, v.db.val, v.sc.val)
    case None => Resolution(st, v, KeyFail(CredentialsFailed))
    case Some(scp) =>
      var bound := st.(scope := scp.name, data := Thing(v.tb.val, v.id.val));
      match Connect(scp.connect, bound.data, svc)
      case None => Resolution(bound, v, KeyFail(CredentialsFailed))
      case Some(identity) =>
        var connected := bound.(data := identity);
        if v.tk.val != "default" then
          NamedKey(connected, tok, v, svc.getST(v.ns.val, v.db.val, v.sc.val, v.tk.val), AuthSC)
        else Resolution(connected.(kind := AuthSC), v, Key(scp.code))
  }

  /** The key callback given to jwt.Parse, as a function of the record it
      starts from. It may write the record's kind, scope and data before the
      signature is checked. */
  function ResolveKey(st: AuthState, tok: Token, svc: Services): (r: Resolution)
    // the tenant fields are never written here
    ensures SameTenant(r.state, st)
    // claims are read only once they pass the time-based checks
    ensures !svc.claimsValid(tok.claims) ==> r == Resolution(st, NoVars, KeyFail(ClaimsInvalid))
    ensures svc.claimsValid(tok.claims) ==> r.vars == ReadVars(tok.claims)
    // the level is written only together with a key, and is the one the claims select
    ensures r.key.Key? ==> r.state.kind == Branch(r.vars) && r.state.kind != AuthNO
    ensures !r.key.Key? ==> r.state.kind == st.kind
    // scope and data are written only on the scope branch
    ensures Branch(r.vars) != AuthSC ==> r.state.scope == st.scope && r.state.data == st.data
    // a "default" token must be HMAC-signed, which is checked before any lookup
    ensures r.vars.tk.val == "default" && !tok.hmac ==> r == Resolution(st, r.vars, KeyFail(UnexpectedSigningMethod))
    // a named token is checked against its stored key, whose type must be the header alg
    ensures r.key.Key? && r.vars.tk.val != "default" ==>
      NamedKeyOf(r.vars, svc).Some? && NamedKeyOf(r.vars, svc).value.typ == tok.alg &&
      r.key.code == NamedKeyOf(r.vars, svc).value.code
    ensures svc.claimsValid(tok.claims) && r.vars.tk.val != "default" && Branch(r.vars) in {AuthDB, AuthNS} ==>
      (NamedKeyOf(r.vars, svc).None? ==> r.key == KeyFail(CredentialsFailed)) &&
      (NamedKeyOf(r.vars, svc).Some? && NamedKeyOf(r.vars, svc).value.typ != tok.alg ==>
        r.key == KeyFail(UnexpectedSigningMethod))
    ensures (r.vars.tk.val != "default" && Branch(r.vars) == AuthSC &&
             NamedKeyOf(r.vars, svc).Some? && NamedKeyOf(r.vars, svc).value.typ != tok.alg) ==> !r.key.Key?
    // a "default" token is signed by the scope's code or by the user's code
    ensures r.key.Key? && r.vars.tk.val == "default" ==> tok.hmac
    ensures r.key.Key? && r.vars.tk.val == "default" && Branch(r.vars) == AuthSC ==>
      svc.getSC(r.vars.ns.val, r.vars.db.val, r.vars.sc.val).Some? &&
      r.key.code == svc.getSC(r.vars.ns.val, r.vars.db.val, r.vars.sc.val).value.code
    ensures r.key.Key? && r.vars.tk.val == "default" && Branch(r.vars) != AuthSC ==>
      r.vars.us.ok && UserOf(r.vars, svc).Some? && r.key.code == UserOf(r.vars, svc).value.code
    // every branch that finds what it looks up returns that key and its level
    ensures (svc.claimsValid(tok.claims) && r.vars.tk.val != "default" && Branch(r.vars) in {AuthDB, AuthNS} &&
             NamedKeyOf(r.vars, svc).Some? && NamedKeyOf(r.vars, svc).value.typ == tok.alg) ==>
      r == Resolution(st.(kind := Branch(r.vars)), r.vars, Key(NamedKeyOf(r.vars, svc).value.code))
    ensures (svc.claimsValid(tok.claims) && r.vars.tk.val == "default" && tok.hmac &&
             Branch(r.vars) in {AuthDB, AuthNS} && r.vars.us.ok) ==>
      (UserOf(r.vars, svc).None? ==> r == Resolution(st, r.vars, KeyFail(CredentialsFailed))) &&
      (UserOf(r.vars, svc).Some? ==>
        r == Resolution(st.(kind := Branch(r.vars)), r.vars, Key(UserOf(r.vars, svc).value.code)))
    ensures (svc.claimsValid(tok.claims) && Branch(r.vars) == AuthSC && (tok.hmac || r.vars.tk.val != "default")) ==>
      r == ScopeKey(st, tok, r.vars, svc)
    // no branch, or a "default" database or namespace token without a user:
    // no available token, with no fall-through to a wider level
    ensures (svc.claimsValid(tok.claims) && (tok.hmac || r.vars.tk.val != "default") &&
             (Branch(r.vars) == AuthNO ||
              (Branch(r.vars) in {AuthDB, AuthNS} && r.vars.tk.val == "default" && !r.vars.us.ok))) ==>
      r == Resolution(st, r.vars, KeyFail(NoAvailableToken))
  {
    if !svc.claimsValid(tok.claims) then Resolution(st, NoVars, KeyFail(ClaimsInvalid))
    else
      var v := ReadVars(tok.claims);
      if v.tk.val == "default" && !tok.hmac then Resolution(st, v, KeyFail(UnexpectedSigningMethod))
      else if v.ns.ok && v.db.ok && v.sc.ok && v.tk.ok then ScopeKey(st, tok, v, svc)
      else if v.ns.ok && v.db.ok && v.tk.ok then
        if v.tk.val != "default" then NamedKey(st, tok, v, svc.getDT(v.ns.val, v.db.val, v.tk.val), AuthDB)
        else if v.us.ok then UserKey(st, v, svc.getDU(v.ns.val, v.db.val, v.us.val), AuthDB)
        else Resolution(st, v, KeyFail(NoAvailableToken))
      else if v.ns.ok && v.tk.ok then
        if v.tk.val != "default" then NamedKey(st, tok, v, svc.getNT(v.ns.val, v.tk.val), AuthNS)
        else if v.us.ok then UserKey(st, v, svc.getNU(v.ns.val, v.us.val), AuthNS)
        else Resolution(st, v, KeyFail(NoAvailableToken))
      else Resolution(st, v, KeyFail(NoAvailableToken))
  }

  /** The finalisation after a valid token: the tenant is pinned from the
      claims, and a namespace-level token may reach every database. */
  function Finalize(st: AuthState, v: Vars): (r: AuthState)
    ensures r.kind == st.kind && r.scope == st.scope && r.data == st.data
    ensures st.kind == AuthNS ==>
      r.possibleNS == r.selectedNS == v.ns.val && r.possibleDB == "*" && r.selectedDB == st.selectedDB
    ensures st.kind in {AuthDB, AuthSC} ==>
      r.possibleNS == r.selectedNS == v.ns.val && r.possibleDB == r.selectedDB == v.db.val
    ensures st.kind !in {AuthNS, AuthDB, AuthSC} ==> r == st
  {
    if st.kind == AuthNS then st.(possibleNS := v.ns.val, selectedNS := v.ns.val, possibleDB := "*")
    else if st.kind == AuthDB || st.kind == AuthSC then
      st.(possibleNS := v.ns.val, selectedNS := v.ns.val, possibleDB := v.db.val, selectedDB := v.db.val)
    else st
  }

  /** The token verifies: it decodes, its key callback returns key material,
      its claims are valid and its signature checks out under that key. */
  predicate Verified(st: AuthState, info: string, svc: Services)
  {
    svc.parse(info).Some? &&
    var tok := svc.parse(info).value;
    var res := ResolveKey(st, tok, svc);
    res.key.Key? && svc.claimsValid(tok.claims) && svc.verify(tok, res.key.code)
  }

  /** checkBearer as a function of the record it starts from. */
  function Bearer(st: AuthState, info: string, svc: Services): (r: Step)
    ensures !svc.begin ==> r == Step(st, Rejected(InternalError))
    ensures r.outcome.Rejected? ==> r.outcome.code == if svc.begin then Unauthorized else InternalError
    // the handler runs exactly when the token verifies
    ensures r.outcome.Handled? <==> svc.begin && Verified(st, info, svc)
    // a failure never moves the tenant; a kind it leaves behind was written by
    // a key callback that found a key for a token that then failed
    ensures r.outcome.Rejected? ==> SameTenant(r.state, st)
    // a refusal keeps exactly what the key callback wrote, and nothing when
    // the token did not even parse
    ensures r.outcome.Rejected? && svc.begin ==>
      r.state == if svc.parse(info).None? then st else ResolveKey(st, svc.parse(info).value, svc).state
    ensures r.state.kind == st.kind || r.state.kind in {AuthNS, AuthDB, AuthSC}
    ensures r.outcome.Rejected? && r.state.kind != st.kind ==>
      svc.begin && svc.parse(info).Some? && ResolveKey(st, svc.parse(info).value, svc).key.Key?
    // success: the claimed level, with the tenant pinned from the claims
    ensures r.outcome.Handled? ==>
      var v := ReadVars(svc.parse(info).value.claims);
      r.state.kind == Branch(v) && r.state.kind in {AuthNS, AuthDB, AuthSC} &&
      r.state.possibleNS == r.state.selectedNS == v.ns.val &&
      (r.state.kind == AuthNS ==> r.state.possibleDB == "*" && r.state.selectedDB == st.selectedDB) &&
      (r.state.kind != AuthNS ==> r.state.possibleDB == r.state.selectedDB == v.db.val)
    ensures r.outcome.Handled? && r.state.kind != AuthSC ==> r.state.scope == st.scope && r.state.data == st.data
    // a scope-level success carries the scope's name and the connected identity
    ensures r.outcome.Handled? && r.state.kind == AuthSC ==>
      var v := ReadVars(svc.parse(info).value.claims);
      var scp := svc.getSC(v.ns.val, v.db.val, v.sc.val);
      scp.Some? && r.state.scope == scp.value.name &&
      Connect(scp.value.connect, Thing(v.tb.val, v.id.val), svc) == Some(r.state.data)
  {
    if !svc.begin then Step(st, Rejected(InternalError))
    else
      match svc.parse(info)
      case None => Step(st, Rejected(Unauthorized))
      case Some(tok) =>
        var res := ResolveKey(st, tok, svc);
        if res.key.Key? && svc.claimsValid(tok.claims) && svc.verify(tok, res.key.code) then
          Step(Finalize(res.state, res.vars), Handled)
        else Step(res.state, Rejected(Unauthorized))
  }

  /** A token whose key callback found a key but which then fails its claim or
      signature check is refused, yet the record keeps what the callback wrote:
      the claimed level, and at scope level the scope and identity. */
  lemma FailedTokenKeepsCallbackWrites(st: AuthState, info: string, svc: Services)
    requires svc.begin && svc.parse(info).Some?
    requires ResolveKey(st, svc.parse(info).value, svc).key.Key?
    requires !Verified(st, info, svc)
    ensures Bearer(st, info, svc).outcome == Rejected(Unauthorized)
    ensures Bearer(st, info, svc).state == ResolveKey(st, svc.parse(info).value, svc).state
    ensures Bearer(st, info, svc).state.kind == Branch(ReadVars(svc.parse(info).value.claims)) != AuthNO
  {
  }

  /** The key callback: captures the claims, checks the signing method, looks
      up the key for the most specific level the claims name, and records the
      scope, the identity and the level on the way. */
  method KeyFunc(auth: Auth, tok: Token, svc: Services) returns (key: KeyResult, vars: Vars)
    modifies auth
    ensures Resolution(auth.View(), vars, key) == ResolveKey(old(auth.View()), tok, svc)
  {
    vars := NoVars;
    if !svc.claimsValid(tok.claims) {
      return KeyFail(ClaimsInvalid), vars;
    }
    vars := ReadVars(tok.claims);
    var nsv, dbv, scv, tkv, usv, tbv, idv :=
      vars.ns.val, vars.db.val, vars.sc.val, vars.tk.val, vars.us.val, vars.tb.val, vars.id.val;
    var nsk, dbk, sck, tkk, usk := vars.ns.ok, vars.db.ok, vars.sc.ok, vars.tk.ok, vars.us.ok;

    if tkv == "default" && !tok.hmac {
      return KeyFail(UnexpectedSigningMethod), vars;
    }

    if nsk && dbk && sck && tkk {
      var scp := svc.getSC(nsv, dbv, scv);
      if scp.None? {
        return KeyFail(CredentialsFailed), vars;
      }
      auth.scope := scp.value.name;
      auth.data := Thing(tbv, idv);
      if scp.value.connect.Some? {
        var res := svc.process(scp.value.connect.value, auth.data);
        if res.None? {
          return KeyFail(CredentialsFailed), vars;
        }
        if |res.value| != 1 || |res.value[0]| != 1 {
          return KeyFail(CredentialsFailed), vars;
        }
        auth.data := res.value[0][0];
      }
      if tkv != "default" {
        var k := svc.getST(nsv, dbv, scv, tkv);
        if k.None? {
          return KeyFail(CredentialsFailed), vars;
        }
        if tok.alg != k.value.typ {
          return KeyFail(UnexpectedSigningMethod), vars;
        }
        auth.kind := AuthSC;
        return Key(k.value.code), vars;
      } else {
        auth.kind := AuthSC;
        return Key(scp.value.code), vars;
      }
    } else if nsk && dbk && tkk {
      if tkv != "default" {
        var k := svc.getDT(nsv, dbv, tkv);
        if k.None? {
          return KeyFail(CredentialsFailed), vars;
        }
        if tok.alg != k.value.typ {
          return KeyFail(UnexpectedSigningMethod), vars;
        }
        auth.kind := AuthDB;
        return Key(k.value.code), vars;
      } else if usk {
        var usr := svc.getDU(nsv, dbv, usv);
        if usr.None? {
          return KeyFail(CredentialsFailed), vars;
        }
        auth.kind := AuthDB;
        return Key(usr.value.code), vars;
      }
    } else if nsk && tkk {
      if tkv != "default" {
        var k := svc.getNT(nsv, tkv);
        if k.None? {
          return KeyFail(CredentialsFailed), vars;
        }
        if tok.alg != k.value.typ {
          return KeyFail(UnexpectedSigningMethod), vars;
        }
        auth.kind := AuthNS;
        return Key(k.value.code), vars;
      } else if usk {
        var usr := svc.getNU(nsv, usv);
        if usr.None? {
          return KeyFail(CredentialsFailed), vars;
        }
        auth.kind := AuthNS;
        return Key(usr.value.code), vars;
      }
    }
    return KeyFail(NoAvailableToken), vars;
  }

  /** The finalisation in checkBearer: pins the tenant of a verified token's
      level from its claims. */
  method PinTenant(auth: Auth, vars: Vars)
    modifies auth
    ensures auth.View() == Finalize(old(auth.View()), vars)
  {
    if auth.kind == AuthNS {
      auth.possibleNS := vars.ns.val;
      auth.selectedNS := vars.ns.val;
      auth.possibleDB := "*";
    }
    if auth.kind == AuthDB {
      auth.possibleNS := vars.ns.val;
      auth.selectedNS := vars.ns.val;
      auth.possibleDB := vars.db.val;
      auth.selectedDB := vars.db.val;
    }
    if auth.kind == AuthSC {
      auth.possibleNS := vars.ns.val;
      auth.selectedNS := vars.ns.val;
      auth.possibleDB := vars.db.val;
      auth.selectedDB := vars.db.val;
    }
  }

  /** checkBearer: opens a read transaction, parses and verifies the token
      through the key callback, pins the tenant and runs the next handler on
      success. The transaction is cancelled on every path once it is open,
      after the handler has returned; the ghost out-parameter is the
      transaction, when one was opened. */
  method CheckBearer(auth: Auth, info: string, svc: Services, h: Handler)
    returns (out: Outcome, ghost txn: Txn?)
    modifies auth, h
    ensures Step(auth.View(), out) == Bearer(old(auth.View()), info, svc)
    ensures h.calls == old(h.calls) + (if out.Handled? then 1 else 0)
    ensures txn != null <==> svc.begin
    ensures txn != null ==> fresh(txn) && txn.cancels == 1
  {
    if !svc.begin {
      return Rejected(InternalError), null;
    }
    ghost var st := auth.View();
    var tx := new Txn();
    txn := tx;

    // jwt.Parse: decode, call the key callback, check the claims and the signature
    var vars := NoVars;
    var valid := false;
    var token := svc.parse(info);
    if token.Some? {
      var key;
      key, vars := KeyFunc(auth, token.value, svc);
      valid := key.Key? && svc.claimsValid(token.value.claims) && svc.verify(token.value, key.code);
    }

    if valid {
      assert auth.View() == ResolveKey(st, token.value, svc).state;
      PinTenant(auth, vars);
      h.Call();
      tx.Cancel();
      return Handled, tx;
    }

    tx.Cancel();
    return Rejected(Unauthorized), tx;
  }
}
