/** The mutable objects a request's authentication works on. */
module Record {
  import opened AuthTypes

  /** cnf.Auth: the trust record attached to a request, which the resolver
      updates field by field. */
  class Auth {
    var kind: Kind
    var possibleNS: string
    var possibleDB: string
    var selectedNS: string
    var selectedDB: string
    var scope: string
    var data: Datum

    /** The record as a value. */
    function View(): AuthState
      reads this
    {
      AuthState(kind, possibleNS, possibleDB, selectedNS, selectedDB, scope, data)
    }

    /** A zero-valued record, as `&cnf.Auth{}` allocates it. The zero value of
        cnf.Kind is declared in cnf, which is not part of this model, so the
        initial kind is left unspecified. */
    constructor ()
      ensures possibleNS == "" && possibleDB == ""
      ensures selectedNS == "" && selectedDB == ""
      ensures scope == "" && data == Null
    {
      possibleNS, possibleDB := "", "";
      selectedNS, selectedDB := "", "";
      scope, data := "", Null;
    }
  }

  /** The next handler in the middleware chain. The ghost counter records how
      often it ran. */
  class Handler {
    ghost var calls: nat

    constructor ()
      ensures calls == 0
    {
      calls := 0;
    }

    method Call()
      modifies this
      ensures calls == old(calls) + 1
    {
      calls := calls + 1;
    }
  }

  /** A read transaction of the storage layer. The ghost counter records how
      often it was cancelled. */
  class Txn {
    ghost var cancels: nat

    constructor ()
      ensures cancels == 0
    {
      cancels := 0;
    }

    method Cancel()
      modifies this
      ensures cancels == old(cancels) + 1
    {
      cancels := cancels + 1;
    }
  }
}
