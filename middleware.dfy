/** The auth() middleware of web/auth.go: seeds a fresh trust record from the
    host and headers, then hands the request's credential to exactly one of
    pass-through, Basic or Bearer authentication. */
module Middleware {
  import opened AuthTypes
  import opened GoStrings
  import opened Record
  import opened Extract
  import opened BasicAuth
  import opened BearerAuth

  /** The record a handler may be shown: the level's tenant is consistent with
      the selected one, and scope and data are set only at scope level. */
  predicate Coherent(st: AuthState)
  {
    (st.kind == AuthNO ==> st.possibleNS == st.selectedNS && st.possibleDB == st.selectedDB) &&
    (st.kind == AuthKV ==> st.possibleNS == "*" && st.possibleDB == "*") &&
    (st.kind == AuthNS ==> st.possibleNS == st.selectedNS && st.possibleDB == "*") &&
    (st.kind in {AuthDB, AuthSC} ==> st.possibleNS == st.selectedNS && st.possibleDB == st.selectedDB) &&
    (st.kind != AuthSC ==> st.scope == "" && st.data == Null)
  }

  /** auth() as a function of the request: the seeded record handed to the
      credential's authenticator. */
  function Resolve(req: Request, cfg: Config, svc: Services): (r: Step)
    // no credential: the handler runs at no trust on the seeded record
    ensures Dispatch(req.authorization, req.subprotocols).NoCredential? ==> r == Step(Seed(req), Handled)
  {
    Handle(Seed(req), Dispatch(req.authorization, req.subprotocols), req.ip, cfg, svc)
  }

  /** The dispatch at the end of auth(), from a given record and credential. */
  function Handle(st: AuthState, c: Credential, ip: IP, cfg: Config, svc: Services): Step
  {
    match c
    case NoCredential => Step(st, Handled)
    case BasicInfo(info) => Basics(st, info, ip, cfg, svc)
    case BearerInfo(info) => Bearer(st, info, svc)
  }

  /** Each trust level comes from one kind of credential only: no trust from
      none, root trust from Basic data, scope trust from a bearer token. */
  lemma LevelProvenance(req: Request, cfg: Config, svc: Services)
    ensures Resolve(req, cfg, svc).outcome.Handled? && Resolve(req, cfg, svc).state.kind == AuthNO ==>
      Dispatch(req.authorization, req.subprotocols).NoCredential?
    ensures Resolve(req, cfg, svc).state.kind == AuthKV ==> Dispatch(req.authorization, req.subprotocols).BasicInfo?
    ensures Resolve(req, cfg, svc).outcome.Handled? && Resolve(req, cfg, svc).state.kind == AuthSC ==>
      Dispatch(req.authorization, req.subprotocols).BearerInfo?
  {
    HandleLevels(Seed(req), Dispatch(req.authorization, req.subprotocols), req.ip, cfg, svc);
  }

  lemma HandleLevels(st: AuthState, c: Credential, ip: IP, cfg: Config, svc: Services)
    requires st.kind == AuthNO
    ensures Handle(st, c, ip, cfg, svc).outcome.Handled? && Handle(st, c, ip, cfg, svc).state.kind == AuthNO ==> c.NoCredential?
    ensures Handle(st, c, ip, cfg, svc).state.kind == AuthKV ==> c.BasicInfo?
    ensures Handle(st, c, ip, cfg, svc).outcome.Handled? && Handle(st, c, ip, cfg, svc).state.kind == AuthSC ==> c.BearerInfo?
  {
  }

  /** Each error comes from one kind of credential only: a forbidden network
      from Basic data, an internal error from a bearer token whose read
      transaction could not begin. */
  lemma ErrorProvenance(req: Request, cfg: Config, svc: Services)
    ensures Resolve(req, cfg, svc).outcome == Rejected(Forbidden) ==> Dispatch(req.authorization, req.subprotocols).BasicInfo?
    ensures Resolve(req, cfg, svc).outcome == Rejected(InternalError) <==>
      Dispatch(req.authorization, req.subprotocols).BearerInfo? && !svc.begin
  {
    HandleErrors(Seed(req), Dispatch(req.authorization, req.subprotocols), req.ip, cfg, svc);
  }

  lemma HandleErrors(st: AuthState, c: Credential, ip: IP, cfg: Config, svc: Services)
    ensures Handle(st, c, ip, cfg, svc).outcome == Rejected(Forbidden) ==> c.BasicInfo?
    ensures Handle(st, c, ip, cfg, svc).outcome == Rejected(InternalError) <==> c.BearerInfo? && !svc.begin
  {
  }

  /** Basic authentication keeps a coherent record below scope level
      coherent, on every path. */
  lemma BasicKeepsCoherent(st: AuthState, info: string, ip: IP, cfg: Config, svc: Services)
    requires Coherent(st) && st.kind != AuthSC
    ensures Coherent(Basics(st, info, ip, cfg, svc).state)
  {
  }

  /** Bearer authentication that lets a request through from a coherent
      record at no trust leaves a coherent record. */
  lemma BearerHandledCoherent(st: AuthState, info: string, svc: Services)
    requires Coherent(st) && st.kind == AuthNO
    ensures Bearer(st, info, svc).outcome.Handled? ==> Coherent(Bearer(st, info, svc).state)
  {
  }

  /** Whatever record the next handler is shown is coherent. */
  lemma HandledIsCoherent(req: Request, cfg: Config, svc: Services)
    ensures Resolve(req, cfg, svc).outcome.Handled? ==> Coherent(Resolve(req, cfg, svc).state)
  {
    var seeded := Seed(req);
    assert Coherent(seeded);
    match Dispatch(req.authorization, req.subprotocols)
    case NoCredential =>
    case BasicInfo(info) =>
      BasicKeepsCoherent(seeded, info, req.ip, cfg, svc);
    case BearerInfo(info) =>
      BearerHandledCoherent(seeded, info, svc);
  }

  /** The first part of auth(): no trust, then the tenant named by the host,
      then the tenant named by the NS and DB headers. */
  method SeedRecord(auth: Auth, req: Request)
    modifies auth
    ensures auth.View() == Seed(req).(scope := old(auth.scope), data := old(auth.data))
  {
    auth.kind := AuthNO;
    auth.possibleNS := "";
    auth.selectedNS := "";
    auth.possibleDB := "";
    auth.selectedDB := "";

    var bits := Split(req.host, '.');
    var subs := Split(bits[0], '-');
    if |subs| == 2 {
      auth.possibleNS := subs[0];
      auth.selectedNS := subs[0];
      auth.possibleDB := subs[1];
      auth.selectedDB := subs[1];
    }
    if |req.nsHeader| != 0 {
      auth.possibleNS := req.nsHeader;
      auth.selectedNS := req.nsHeader;
    }
    if |req.dbHeader| != 0 {
      auth.possibleDB := req.dbHeader;
      auth.selectedDB := req.dbHeader;
    }
  }

  /** The middleware body: allocates the record, seeds it step by step, scans
      the subprotocols when there is no Authorization header, and dispatches.
      The ghost out-parameter is the read transaction a bearer credential opened. */
  method Authenticate(req: Request, cfg: Config, svc: Services, h: Handler)
    returns (auth: Auth, out: Outcome, ghost txn: Txn?)
    modifies h
    ensures fresh(auth)
    ensures Step(auth.View(), out) == Resolve(req, cfg, svc)
    ensures h.calls == old(h.calls) + (if out.Handled? then 1 else 0)
    ensures txn != null <==> Dispatch(req.authorization, req.subprotocols).BearerInfo? && svc.begin
    ensures txn != null ==> fresh(txn) && txn.cancels == 1
  {
    auth := new Auth();
    SeedRecord(auth, req);

    txn := null;
    var head := req.authorization;
    ghost var cred := Dispatch(head, req.subprotocols);
    if |head| == 0 {
      var prot := ScanSubprotocols(req.subprotocols);
      if prot.Some? {
        assert cred == BearerInfo(prot.value);
        out, txn := CheckBearer(auth, prot.value, svc, h);
        return;
      }
    }
    if |head| > 6 && head[..5] == "Basic" {
      assert cred == BasicInfo(head[6..]);
      ghost var attempts;
      out, attempts := CheckBasics(auth, head[6..], req.ip, cfg, svc, h);
      return;
    }
    if |head| > 7 && head[..6] == "Bearer" {
      assert cred == BearerInfo(head[7..]);
      out, txn := CheckBearer(auth, head[7..], svc, h);
      return;
    }
    assert cred == NoCredential;
    h.Call();
    out := Handled;
  }
}
