/** Basic authentication: cidr and checkBasics of web/auth.go. */
module BasicAuth {
  import opened AuthTypes
  import opened GoStrings
  import opened Record

  /** Some configured network holds the caller's address. */
  predicate InNetworks(ip: IP, nets: seq<IPNet>, contains: (IPNet, IP) -> bool)
  {
    exists i :: 0 <= i < |nets| && contains(nets[i], ip)
  }

  /** cidr: asks each network in turn and stops at the first that holds the
      address. */
  method Cidr(ip: IP, nets: seq<IPNet>, contains: (IPNet, IP) -> bool) returns (allowed: bool)
    ensures allowed <==> InNetworks(ip, nets, contains)
  {
    for i := 0 to |nets|
      invariant forall j :: 0 <= j < i ==> !contains(nets[j], ip)
    {
      if contains(nets[i], ip) {
        return true;
      }
    }
    return false;
  }

  /** The user and password of a Basic credential: its base64 text decoded and
      split at the first colon, so that the password may itself hold colons. */
  function Credentials(info: string, decode: string -> Option<string>): (r: Option<(string, string)>)
    ensures r.None? <==> decode(info).None? || ':' !in decode(info).value
    ensures r.Some? ==> decode(info).value == r.value.0 + ":" + r.value.1 && ':' !in r.value.0
  {
    match decode(info)
    case None => None
    case Some(base) =>
      var cred := SplitFirst(base, ':');
      if |cred| != 2 then None else Some((cred[0], cred[1]))
  }

  /** The credentials are the configured root ones, byte for byte. */
  predicate IsRoot(cred: (string, string), cfg: Config)
  {
    cred.0 == cfg.user && cred.1 == cfg.pass
  }

  /** A call to an external sign-in, with its arguments. */
  datatype Signin =
    | NSAttempt(ns: string, user: string, pass: string)
    | DBAttempt(ns: string, db: string, user: string, pass: string)

  /** The sign-ins checkBasics tries, in order: a namespace sign-in when a
      namespace is selected and the credentials are not root, then a database
      sign-in only when that failed and a database is selected too. */
  function SigninAttempts(st: AuthState, info: string, cfg: Config, svc: Services): (a: seq<Signin>)
    ensures |a| <= 2
    ensures a != [] <==> Credentials(info, svc.decode).Some? && !IsRoot(Credentials(info, svc.decode).value, cfg) && st.selectedNS != ""
    ensures a != [] ==> a[0] == NSAttempt(st.selectedNS, Credentials(info, svc.decode).value.0, Credentials(info, svc.decode).value.1)
    ensures |a| == 2 <==> a != [] && !svc.signinNS(a[0].ns, a[0].user, a[0].pass) && st.selectedDB != ""
    ensures |a| == 2 ==> a[1] == DBAttempt(st.selectedNS, st.selectedDB, a[0].user, a[0].pass)
  {
    match Credentials(info, svc.decode)
    case None => []
    case Some((user, pass)) =>
      if IsRoot((user, pass), cfg) || st.selectedNS == "" then []
      else if svc.signinNS(st.selectedNS, user, pass) || st.selectedDB == "" then [NSAttempt(st.selectedNS, user, pass)]
      else [NSAttempt(st.selectedNS, user, pass), DBAttempt(st.selectedNS, st.selectedDB, user, pass)]
  }

  /** checkBasics as a function of the record it starts from. */
  function Basics(st: AuthState, info: string, ip: IP, cfg: Config, svc: Services): (r: Step)
    // malformed data, and every other failure, leave the record as it was
    ensures Credentials(info, svc.decode).None? ==> r == Step(st, Rejected(Unauthorized))
    ensures r.outcome.Rejected? ==> r.state == st
    ensures r.outcome.Rejected? ==> r.outcome.code == Unauthorized || r.outcome.code == Forbidden
    // the selected tenant, scope and data are never touched
    ensures r.state.selectedNS == st.selectedNS && r.state.selectedDB == st.selectedDB
    ensures r.state.scope == st.scope && r.state.data == st.data
    // root credentials: trusted from an allowed network, forbidden elsewhere
    ensures r.outcome == Rejected(Forbidden) <==>
      var c := Credentials(info, svc.decode);
      c.Some? && IsRoot(c.value, cfg) && !InNetworks(ip, cfg.nets, svc.contains)
    ensures var c := Credentials(info, svc.decode);
      c.Some? && IsRoot(c.value, cfg) && InNetworks(ip, cfg.nets, svc.contains) ==>
        r == Step(st.(kind := AuthKV, possibleNS := "*", possibleDB := "*"), Handled)
    // otherwise the namespace sign-in, then the database sign-in
    ensures var a := SigninAttempts(st, info, cfg, svc);
      |a| >= 1 && svc.signinNS(a[0].ns, a[0].user, a[0].pass) ==>
        r == Step(st.(kind := AuthNS, possibleNS := st.selectedNS, possibleDB := "*"), Handled)
    ensures var a := SigninAttempts(st, info, cfg, svc);
      |a| == 2 && svc.signinDB(a[1].ns, a[1].db, a[1].user, a[1].pass) ==>
        r == Step(st.(kind := AuthDB, possibleNS := st.selectedNS, possibleDB := st.selectedDB), Handled)
    // nothing else lets a request through
    ensures r.outcome.Handled? ==> r.state.kind in {AuthKV, AuthNS, AuthDB}
    ensures r.outcome.Handled? ==>
      var c := Credentials(info, svc.decode);
      var a := SigninAttempts(st, info, cfg, svc);
      (c.Some? && IsRoot(c.value, cfg) && InNetworks(ip, cfg.nets, svc.contains)) ||
      (|a| >= 1 && svc.signinNS(a[0].ns, a[0].user, a[0].pass)) ||
      (|a| == 2 && svc.signinDB(a[1].ns, a[1].db, a[1].user, a[1].pass))
    // a well-formed credential that is not root and whose sign-ins all fail is refused
    ensures var c := Credentials(info, svc.decode);
      var a := SigninAttempts(st, info, cfg, svc);
      c.Some? && !IsRoot(c.value, cfg) &&
      !(|a| >= 1 && svc.signinNS(a[0].ns, a[0].user, a[0].pass)) &&
      !(|a| == 2 && svc.signinDB(a[1].ns, a[1].db, a[1].user, a[1].pass)) ==>
        r == Step(st, Rejected(Unauthorized))
  {
    match Credentials(info, svc.decode)
    case None => Step(st, Rejected(Unauthorized))
    case Some((user, pass)) =>
      if IsRoot((user, pass), cfg) then
        if InNetworks(ip, cfg.nets, svc.contains) then
          Step(st.(kind := AuthKV, possibleNS := "*", possibleDB := "*"), Handled)
        else Step(st, Rejected(Forbidden))
      else if st.selectedNS != "" && svc.signinNS(st.selectedNS, user, pass) then
        Step(st.(kind := AuthNS, possibleNS := st.selectedNS, possibleDB := "*"), Handled)
      else if st.selectedNS != "" && st.selectedDB != "" && svc.signinDB(st.selectedNS, st.selectedDB, user, pass) then
        Step(st.(kind := AuthDB, possibleNS := st.selectedNS, possibleDB := st.selectedDB), Handled)
      else Step(st, Rejected(Unauthorized))
  }

  /** checkBasics: decodes the credential, then tries root, namespace and
      database authentication in that order, running the next handler on
      success. The ghost out-parameter lists the sign-ins it called. */
  method CheckBasics(auth: Auth, info: string, ip: IP, cfg: Config, svc: Services, h: Handler)
    returns (out: Outcome, ghost attempts: seq<Signin>)
    modifies auth, h
    ensures Step(auth.View(), out) == Basics(old(auth.View()), info, ip, cfg, svc)
    ensures attempts == SigninAttempts(old(auth.View()), info, cfg, svc)
    ensures h.calls == old(h.calls) + (if out.Handled? then 1 else 0)
  {
    attempts := [];
    var base := svc.decode(info);
    if base.None? {
      return Rejected(Unauthorized), attempts;
    }
    var cred := SplitFirst(base.value, ':');
    if |cred| != 2 {
      return Rejected(Unauthorized), attempts;
    }
    if cred[0] == cfg.user && cred[1] == cfg.pass {
      var allowed := Cidr(ip, cfg.nets, svc.contains);
      if allowed {
        auth.kind := AuthKV;
        auth.possibleNS := "*";
        auth.possibleDB := "*";
        h.Call();
        return Handled, attempts;
      }
      return Rejected(Forbidden), attempts;
    }
    if auth.selectedNS != "" {
      var n, u, p := auth.selectedNS, cred[0], cred[1];
      attempts := attempts + [NSAttempt(n, u, p)];
      if svc.signinNS(n, u, p) {
        auth.kind := AuthNS;
        auth.possibleNS := n;
        auth.possibleDB := "*";
        h.Call();
        return Handled, attempts;
      }
      if auth.selectedDB != "" {
        var d := auth.selectedDB;
        attempts := attempts + [DBAttempt(n, d, u, p)];
        if svc.signinDB(n, d, u, p) {
          auth.kind := AuthDB;
          auth.possibleNS := n;
          auth.possibleDB := d;
          h.Call();
          return Handled, attempts;
        }
      }
    }
    return Rejected(Unauthorized), attempts;
  }
}
