# Request authentication of the SurrealDB web layer

This project models `web/auth.go`, the middleware that authenticates every
HTTP and websocket request. It turns the request's credentials into a
request-local trust record (`cnf.Auth`). The record holds:

- a trust level: `AuthNO`, `AuthKV` (root), `AuthNS`, `AuthDB` or `AuthSC` (scope);
- the possible and selected namespace and database;
- at scope level, the scope name and the bound identity record.

The model follows the Go code step by step:

- `Record.Auth` is the record, a class whose fields the methods update in place.
- `Record.Handler` is the next handler in the chain. A ghost counter records how often it ran.
- `Record.Txn` is the read transaction that bearer authentication opens. A ghost counter records its cancellations.
- Each Go function is a method: `Authenticate` for `auth()`, `Cidr`, `CheckBasics`, `KeyFunc` for the key callback, and `CheckBearer`. The steps `SeedRecord` and `ScanSubprotocols` inside `auth()`, and `PinTenant` inside `checkBearer`, are methods of their own.
  - Its postcondition ties the new record and the outcome to a pure specification function of the old record: `Resolve`, `Seed`, `FirstBearer`, `InNetworks`, `Basics`, `ResolveKey`, `Finalize` or `Bearer`.
  - Properties of those functions are proved in their own contracts and in lemmas.

Calls into code outside this file are not modelled as code. They are function-valued fields of `AuthTypes.Services`, so every result holds whatever those calls answer:

- base64 decoding;
- `net.IPNet.Contains`;
- `signinNS` and `signinDB`;
- whether a read transaction can begin;
- the cache getters `GetSC`, `GetST`, `GetDT`, `GetDU`, `GetNT` and `GetNU`;
- `db.Process`;
- JWT parsing, claim validity and signature checking.

The configured root user, password and networks are passed in as `AuthTypes.Config`.

Module layout:

| file | module | contents |
|---|---|---|
| `types.dfy` | `AuthTypes` | trust levels, the record as a value, requests, tokens, foreign services |
| `gostrings.dfy` | `GoStrings` | `strings.Split` and `bytes.SplitN(…, 2)` |
| `record.dfy` | `Record` | the mutable record, the next handler, the read transaction |
| `extract.dfy` | `Extract` | tenant hints from host and headers, subprotocol scan, credential dispatch |
| `basic.dfy` | `BasicAuth` | `cidr` and `checkBasics` |
| `bearer.dfy` | `BearerAuth` | the JWT key callback, scope connect and `checkBearer` |
| `middleware.dfy` | `Middleware` | the `auth()` middleware body and whole-request properties |

Points of the code's behaviour that the model keeps as written:

- **Before verification.** The code writes `Kind`, `Scope` and `Data` inside the key callback, before the signature check (web/auth.go:292-296, 336-381).
  - A token that then fails verification leaves those writes in the record, which is attached to the request context.
  - The only guard is that the next handler does not run.
  - `BearerAuth.FailedTokenKeepsCallbackWrites` proves this.
- **Header presence.** A header counts as present exactly when its value is non-empty.
- **The `Basic ` prefix.** The code compares only the five characters `Basic`, then skips the sixth whatever it is (web/auth.go:138). Likewise it compares `Bearer` and skips the seventh character (web/auth.go:148).
- **Malformed versus wrong credentials.** Malformed Basic data and wrong credentials both answer 401; they differ only in message text, which is not modelled.

## Model

| member | source | states |
|---|---|---|
| GoStrings.SplitFirst | web/auth.go:177 | two parts exactly when the separator occurs; they rejoin to the input around its first occurrence, so the second part may itself hold separators |
| GoStrings.Split | web/auth.go:86-87 | one more part than there are separators, no part holds the separator, and joining the parts with it gives back the input |
| GoStrings.SplitTwo | web/auth.go:87-89 | a split into exactly two parts means the input is the first part, one separator, then the second part |
| Extract.FirstLabel | web/auth.go:86 | the host's first label is a dot-free prefix of the host, followed by a dot whenever it is shorter than the host |
| Extract.HostTenant | web/auth.go:86-94 | the host names a tenant exactly when its first label holds one dash; the label is then namespace, dash, database, and neither part holds a dash |
| Extract.Seed | web/auth.go:71-112 | the seeded record is at level `AuthNO` with possible equal to selected; a non-empty NS or DB header wins, otherwise the host's tenant, otherwise empty |
| Extract.FirstBearer | web/auth.go:124-131 | none exactly when no subprotocol is longer than 7 characters and starts with `bearer-`; otherwise the suffix of the first one that is |
| Extract.ScanSubprotocols | web/auth.go:125-131 | the loop that returns early answers the first bearer subprotocol's token |
| Extract.Dispatch | web/auth.go:118-154 | Basic exactly for a header longer than 6 that starts with `Basic`; Bearer from a subprotocol exactly when the header is empty and one matches, and from the header exactly when it is longer than 7 and starts with `Bearer`; each carries the right suffix |
| BasicAuth.Cidr | web/auth.go:51-58 | the address is allowed exactly when some configured network contains it |
| BasicAuth.Credentials | web/auth.go:171-179 | fails exactly when decoding fails or the text has no colon; otherwise user, colon, password is the decoded text, and the user holds no colon |
| BasicAuth.SigninAttempts | web/auth.go:196-229 | no sign-in for malformed or root credentials or an empty selected namespace; otherwise the namespace sign-in first; the database sign-in is second, only when that failed and a database is selected |
| BasicAuth.Basics | web/auth.go:160-233 | 401 on malformed data; every refusal leaves the record unchanged; 403 exactly for root credentials from outside every network; root, namespace and database successes set their level and possible tenant; a request is let through only on one of those three paths, and a non-root credential whose sign-ins all fail gets 401; the selected tenant, scope and data are never touched |
| BasicAuth.CheckBasics | web/auth.go:160-233 | the method's new record and outcome are those of `Basics`; the ghost log of its sign-ins equals `SigninAttempts`; the handler runs once exactly on success |
| BearerAuth.Connect | web/auth.go:300-326 | without a connect query the identity is kept; with one, success exactly when the query answers one response with one record, which becomes the identity |
| BearerAuth.ScopeKey | web/auth.go:283-342 | a missing scope fails with the record untouched; otherwise the scope name is stored; a failed connect fails with the token's record reference stored; a successful one stores its record; then a `default` token gets the scope's code, and a named one gets its scope-token key exactly when that key exists and its type is the header alg, otherwise credentials failed or unexpected signing method; the level is set to `AuthSC` with a key and left as it was otherwise |
| BearerAuth.ResolveKey | web/auth.go:261-389 | the tenant is never written; invalid claims fail first; a key comes only with the level the claims select; scope and data change only on the scope branch; a `default` token that is not HMAC-signed fails before any lookup; a named database or namespace key that exists with the header alg gives that key and level, a missing one credentials failed, a mismatched one unexpected signing method; a `default` token with `US` gets the found user's code and level, or credentials failed; the scope branch is `ScopeKey`; no branch, or a `default` database or namespace token without `US`, is no available token, with no fall-through |
| BearerAuth.Finalize | web/auth.go:391-411 | a namespace level pins the namespace from the claims and opens every database, keeping the selected database; database and scope levels pin both; other levels, scope and data are unchanged |
| BearerAuth.Bearer | web/auth.go:235-419 | 500 exactly when no transaction begins, otherwise any refusal is 401; the handler runs exactly when the token verifies; a refusal leaves the record untouched when the token does not parse and otherwise exactly as the key callback left it, so the tenant never moves; a success is at the claimed level with the tenant pinned from the claims; a scope-level success carries the scope's name and the connect step's record |
| BearerAuth.FailedTokenKeepsCallbackWrites | web/auth.go:261-417 | a token whose callback found a key but which then fails verification is refused with 401, yet the record keeps the callback's level, scope and identity |
| BearerAuth.KeyFunc | web/auth.go:261-389 | the callback method's record, captured claims and result are those of `ResolveKey` |
| BearerAuth.PinTenant | web/auth.go:391-411 | the finalisation's three assignments give the record `Finalize` describes |
| BearerAuth.CheckBearer | web/auth.go:235-419 | the method's new record and outcome are those of `Bearer`; the handler runs once exactly on success; a transaction object is returned exactly when one could begin, freshly allocated and cancelled exactly once |
| Middleware.Resolve | web/auth.go:60-158 | a request without a credential reaches the handler with the seeded record |
| Middleware.LevelProvenance | web/auth.go:118-154 | a request passed at `AuthNO` had no credential; root trust comes only from Basic data; scope trust only from a bearer token |
| Middleware.HandleLevels | web/auth.go:138-154 | from a record at `AuthNO`, the levels `AuthNO` (when handled), `AuthKV` and `AuthSC` (when handled) are reached only through no credential, Basic data and a bearer token respectively |
| Middleware.ErrorProvenance | web/auth.go:118-154 | 403 comes only from Basic data; 500 exactly from a bearer credential whose transaction cannot begin |
| Middleware.HandleErrors | web/auth.go:138-154 | the same error provenance from any record |
| Middleware.BasicKeepsCoherent | web/auth.go:183-229 | Basic authentication keeps a coherent record below scope level coherent on every path |
| Middleware.BearerHandledCoherent | web/auth.go:391-413 | a bearer success from a coherent record at `AuthNO` leaves a coherent record |
| Middleware.HandledIsCoherent | web/auth.go:60-158 | every record the next handler sees is coherent: tenant fields match the level, and scope and data are set only at scope level |
| Middleware.SeedRecord | web/auth.go:64-112 | the step-by-step seeding leaves the record `Seed` describes |
| Middleware.Authenticate | web/auth.go:60-158 | the middleware's fresh record and outcome are `Resolve`'s; the handler runs once exactly on success; a transaction object is returned exactly for a bearer credential whose transaction began, freshly allocated and cancelled exactly once |
| Record.Auth.constructor | web/auth.go:64 | a zero-valued record: empty tenant strings, empty scope, no identity |
| Record.Handler.Call | web/auth.go:127-154 | running the next handler is counted once per call |
| Record.Txn.Cancel | web/auth.go:253 | the deferred cancel is counted once per call |

## Left out

- HTTP and websocket plumbing is not modelled: `fibre.Context`, `c.Set`/`c.Get` of the record, and `websocket.Subprotocols` parsing. The subprotocols arrive as a list in the request.
- Error message strings are not modelled. An outcome carries only its status code: 401, 403 or 500.
- JWT internals are oracles: `jwt.Parse`, the HMAC and RSA signature check, and the time-based `MapClaims.Valid`. Claim validity is consulted twice, once in the key callback and once by the parser, and both times gives the same answer. A signing method is reduced to whether it is HMAC. The header `alg` is a string.
- base64 decoding (section 4 of RFC 4648) is a partial function given as a parameter.
- `net.IPNet.Contains` is a predicate given as a parameter.
- The storage and query layers are abstract lookups: `db.Begin`, the `mem` cache, its getters and `db.Process`. Cancelling the transaction is counted, not performed.
- The connect query runs in a fresh context holding a record at `AuthDB` level. That context is not passed to the `db.Process` oracle, which sees only the query and the identity.
- `signinNS` and `signinDB` are not part of this model. Each is a boolean outcome.
- Global configuration (`cnf.Settings`) is passed in as a parameter.
- Concurrency is not modelled. The file has none.
- Record.Auth.constructor: leaves the initial level unspecified, because the zero value of `cnf.Kind` is declared in `cnf`, which is not part of this model. `auth()` sets the level to `AuthNO` before reading it.
- A Go string is a sequence of bytes, modelled as a sequence of `char`, one `char` per byte. Decoding text into characters is not modelled; the Basic credential's byte comparison and split work on those `char`s.
- The callback's error value is not modelled, only whether the handler ran.
- BasicAuth.CheckBasics: the list of sign-ins it returns is a ghost log the method builds next to each sign-in call. The sign-ins are pure oracles, so nothing checks that log against the calls actually made.
