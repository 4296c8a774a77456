/** Tenant hints and credential classification at the start of auth()
    (web/auth.go). */
module Extract {
  import opened AuthTypes
  import opened GoStrings

  /** The host up to its first dot. */
  function FirstLabel(host: string): (first: string)
    ensures first <= host && '.' !in first
    ensures |first| < |host| ==> host[|first|] == '.'
  {
    var bits := Split(host, '.');
    assert bits[0] <= Join(bits, '.');
    bits[0]
  }

  /** The namespace and database a `<ns>-<db>.` host prefix names: present
      exactly when the first label holds one dash, and then the label is the
      two names joined by it. */
  function HostTenant(host: string): (r: Option<(string, string)>)
    ensures r.Some? <==> multiset(FirstLabel(host))['-'] == 1
    ensures r.Some? ==> FirstLabel(host) == r.value.0 + "-" + r.value.1
    ensures r.Some? ==> '-' !in r.value.0 && '-' !in r.value.1
  {
    var subs := Split(FirstLabel(host), '-');
    if |subs| == 2 then
      SplitTwo(FirstLabel(host), '-');
      Some((subs[0], subs[1]))
    else None
  }

  /** The record auth() has built before it looks at any credential: no
      trust, the host's tenant, then each non-empty NS or DB header in its
      place. */
  function Seed(req: Request): (st: AuthState)
    ensures st.kind == AuthNO && st.scope == "" && st.data == Null
    ensures st.possibleNS == st.selectedNS && st.possibleDB == st.selectedDB
    ensures req.nsHeader != "" ==> st.selectedNS == req.nsHeader
    ensures req.dbHeader != "" ==> st.selectedDB == req.dbHeader
    ensures req.nsHeader == "" && HostTenant(req.host).Some? ==> st.selectedNS == HostTenant(req.host).value.0
    ensures req.dbHeader == "" && HostTenant(req.host).Some? ==> st.selectedDB == HostTenant(req.host).value.1
    ensures req.nsHeader == "" && HostTenant(req.host).None? ==> st.selectedNS == ""
    ensures req.dbHeader == "" && HostTenant(req.host).None? ==> st.selectedDB == ""
  {
    var blank := AuthState(AuthNO, "", "", "", "", "", Null);
    var fromHost :=
      match HostTenant(req.host)
      case Some((ns, db)) => blank.(possibleNS := ns, selectedNS := ns, possibleDB := db, selectedDB := db)
      case None => blank;
    var withNS :=
      if |req.nsHeader| != 0 then fromHost.(possibleNS := req.nsHeader, selectedNS := req.nsHeader)
      else fromHost;
    if |req.dbHeader| != 0 then withNS.(possibleDB := req.dbHeader, selectedDB := req.dbHeader)
    else withNS
  }

  /** A websocket subprotocol that carries a bearer token. */
  predicate IsBearerProtocol(p: string)
  {
    |p| > 7 && p[..7] == "bearer-"
  }

  /** The token of the first bearer subprotocol, if any. */
  function FirstBearer(protocols: seq<string>): (r: Option<string>)
    ensures r.None? <==> forall i :: 0 <= i < |protocols| ==> !IsBearerProtocol(protocols[i])
    ensures r.Some? ==>
      exists i :: 0 <= i < |protocols| && IsBearerProtocol(protocols[i]) && r.value == protocols[i][7..] &&
        forall j :: 0 <= j < i ==> !IsBearerProtocol(protocols[j])
  {
    if protocols == [] then None
    else if IsBearerProtocol(protocols[0]) then Some(protocols[0][7..])
    else
      var r := FirstBearer(protocols[1..]);
      assert forall i :: 1 <= i < |protocols| ==> protocols[i] == protocols[1..][i - 1];
      if r.Some? then
        var k :| 0 <= k < |protocols[1..]| && IsBearerProtocol(protocols[1..][k]) && r.value == protocols[1..][k][7..] &&
          forall j :: 0 <= j < k ==> !IsBearerProtocol(protocols[1..][j]);
        assert IsBearerProtocol(protocols[k + 1]);
        r
      else r
  }

  /** The loop over websocket.Subprotocols in auth(), which stops at the first
      bearer subprotocol. */
  method ScanSubprotocols(protocols: seq<string>) returns (token: Option<string>)
    ensures token == FirstBearer(protocols)
  {
    var i := 0;
    while i < |protocols|
      invariant 0 <= i <= |protocols|
      invariant FirstBearer(protocols) == FirstBearer(protocols[i..])
    {
      var prot := protocols[i];
      if |prot| > 7 && prot[0..7] == "bearer-" {
        return Some(prot[7..]);
      }
      assert protocols[i..][1..] == protocols[i + 1..];
      i := i + 1;
    }
    return None;
  }

  /** The credential auth() hands on, and to whom. */
  datatype Credential = NoCredential | BasicInfo(info: string) | BearerInfo(info: string)

  /** The order in which auth() looks for a credential: a bearer subprotocol
      only when there is no Authorization header, then a `Basic` header, then
      a `Bearer` header. */
  function Dispatch(head: string, protocols: seq<string>): (c: Credential)
    ensures c.BasicInfo? <==> |head| > 6 && head[..5] == "Basic"
    ensures c.BasicInfo? ==> c.info == head[6..]
    ensures |head| == 0 ==> (c.BearerInfo? <==> FirstBearer(protocols).Some?)
    ensures |head| == 0 && c.BearerInfo? ==> c.info == FirstBearer(protocols).value
    ensures |head| != 0 ==> (c.BearerInfo? <==> |head| > 7 && head[..6] == "Bearer")
    ensures |head| != 0 && c.BearerInfo? ==> c.info == head[7..]
  {
    if |head| == 0 && FirstBearer(protocols).Some? then BearerInfo(FirstBearer(protocols).value)
    else if |head| > 6 && head[..5] == "Basic" then
      assert head[..6][1] == head[..5][1] != "Bearer"[1];
      BasicInfo(head[6..])
    else if |head| > 7 && head[..6] == "Bearer" then
      assert head[1] == head[..6][1] != "Basic"[1];
      BearerInfo(head[7..])
    else NoCredential
  }
}
