/**
  The in-memory store: a session flag, the server and database it was set up for, and the
  three collections it owns. Queries are read-only filters over the stored sequences that
  keep stored order; inserts append and updates replace a binding where it stands.
*/
module Store {
  import opened Results
  import opened Records
  import opened Selection
  import Fixture

  /** Matches the services called `name`. */
  function NameIs(name: string): (matches: QService -> bool)
  {
    (s: QService) => s.Name == name
  }

  /** Matches the bindings of identity `dn` at `host`. */
  function DNAt(dn: string, host: string): (matches: QBinding -> bool)
  {
    (b: QBinding) => b.DN == dn && b.Host == host
  }

  /** Matches the bindings for `service` at `host`. */
  function ServiceAt(service: string, host: string): (matches: QBinding -> bool)
  {
    (b: QBinding) => b.Service == service && b.Host == host
  }

  /** Matches the authentication-method records of one service, host and method type. */
  function AuthFor(service: string, host: string, typeName: string): (matches: AuthMethod -> bool)
  {
    (a: AuthMethod) => a.Identifies(service, host, typeName)
  }

  /** Matches bindings structurally equal to `original`, field by field. */
  function SameAs(original: QBinding): (matches: QBinding -> bool)
  {
    (b: QBinding) => b == original
  }

  /**
    A binding written at position `i` is found by a lookup of its identity and host, and
    comes first when no earlier binding has that identity and host.
  */
  lemma ReplacedIsFound(bindings: seq<QBinding>, i: nat, updated: QBinding)
    requires i < |bindings|
    ensures updated in Filter(bindings[i := updated], DNAt(updated.DN, updated.Host))
    ensures (forall k :: 0 <= k < i ==> !(bindings[k].DN == updated.DN && bindings[k].Host == updated.Host))
            ==> Filter(bindings[i := updated], DNAt(updated.DN, updated.Host)) != []
                && Filter(bindings[i := updated], DNAt(updated.DN, updated.Host))[0] == updated
  {
    var p := DNAt(updated.DN, updated.Host);
    assert bindings[i := updated][i] == updated;
    if forall k :: 0 <= k < i ==> !p(bindings[k]) {
      FilterReplaceFirst(bindings, i, updated, p);
    }
  }

  class Mockstore {
    var Session: bool
    var Server: string
    var Database: string
    var Services: seq<QService>
    var Bindings: seq<QBinding>
    var AuthTypes: seq<AuthMethod>

    /** A store that has not been set up: no session and nothing stored. */
    constructor ()
      ensures !Session && Server == "" && Database == ""
      ensures Services == [] && Bindings == [] && AuthTypes == []
    {
      Session, Server, Database := false, "", "";
      Services, Bindings, AuthTypes := [], [], [];
    }

    /** Opens the session for `server` and `database` and seeds the fixture records, discarding earlier state. */
    method Setup(server: string, database: string)
      modifies this
      ensures Session && Server == server && Database == database
      ensures Services == [Fixture.S1, Fixture.S2]
      ensures Bindings == [Fixture.B1, Fixture.B2, Fixture.B3]
      ensures AuthTypes == [Fixture.ApiKey1]
    {
      Session, Server, Database := true, server, database;
      Services, Bindings, AuthTypes := Fixture.Services, Fixture.Bindings, Fixture.AuthTypes;
    }

    /** Ends the session; the stored records stay as they are. */
    method Close()
      modifies this
      ensures !Session
      ensures Server == old(Server) && Database == old(Database)
      ensures Services == old(Services) && Bindings == old(Bindings) && AuthTypes == old(AuthTypes)
    {
      Session := false;
    }

    /** All services when `name` is empty, otherwise exactly the services called `name`; never an error. */
    function QueryServices(name: string): (r: seq<QService>)
      reads this
      ensures name == "" ==> r == Services
      ensures name != "" ==> Selects(r, Services, NameIs(name))
      ensures forall s :: s in r <==> s in Services && (name == "" || s.Name == name)
    {
      if name == "" then Services else Filter(Services, NameIs(name))
    }

    /**
      The field map of the first record for `service`, `host` and `typeName`, or the empty
      map when no record matches; never an error.
    */
    function QueryAuthMethod(service: string, host: string, typeName: string): (r: map<string, Value>)
      reads this
      ensures r == map[] <==> forall a :: a in AuthTypes ==> !a.Identifies(service, host, typeName)
      ensures forall i :: 0 <= i < |AuthTypes| && AuthTypes[i].Identifies(service, host, typeName)
                && (forall k :: 0 <= k < i ==> !AuthTypes[k].Identifies(service, host, typeName))
                ==> r == AuthTypes[i].Fields()
      ensures r != map[] ==>
                && r.Keys == ApiKeyFields
                && r["Type"] == S(typeName) && r["Service"] == S(service) && r["Host"] == S(host)
                && FromFields(r).Some? && FromFields(r).value in AuthTypes
    {
      match FirstWhere(AuthTypes, AuthFor(service, host, typeName))
      case None => map[]
      case Some(i) => AuthTypes[i].Fields()
    }

    /** Exactly the bindings of identity `dn` at `host`, in stored order; never an error. */
    function QueryBindingsByDN(dn: string, host: string): (r: seq<QBinding>)
      reads this
      ensures Selects(r, Bindings, DNAt(dn, host))
      ensures forall b :: b in r <==> b in Bindings && b.DN == dn && b.Host == host
    {
      Filter(Bindings, DNAt(dn, host))
    }

    /**
      All bindings when both arguments are empty, otherwise exactly the bindings for
      `service` at `host`, in stored order; never an error.
    */
    function QueryBindings(service: string, host: string): (r: seq<QBinding>)
      reads this
      ensures service == "" && host == "" ==> r == Bindings
      ensures service != "" || host != "" ==> Selects(r, Bindings, ServiceAt(service, host))
      ensures forall b :: b in r <==> b in Bindings && ((service == "" && host == "") || (b.Service == service && b.Host == host))
    {
      if service == "" && host == "" then Bindings else Filter(Bindings, ServiceAt(service, host))
    }

    /**
      Stores a new binding, stamped `createdOn` and never authenticated, after the existing
      ones; duplicates are accepted. A lookup by its identity and host then ends with it.
    */
    method InsertBinding(name: string, service: string, host: string, dn: string, oidcToken: string,
                         uniqueKey: string, createdOn: string)
      returns (b: QBinding)
      modifies this
      ensures b == QBinding(name, service, host, dn, oidcToken, uniqueKey, createdOn, "")
      ensures Bindings == old(Bindings) + [b]
      ensures QueryBindingsByDN(dn, host) == old(QueryBindingsByDN(dn, host)) + [b]
      ensures Session == old(Session) && Server == old(Server) && Database == old(Database)
      ensures Services == old(Services) && AuthTypes == old(AuthTypes)
    {
      b := QBinding(name, service, host, dn, oidcToken, uniqueKey, createdOn, "");
      FilterAppend(Bindings, [b], DNAt(dn, host));
      Bindings := Bindings + [b];
    }

    /**
      Replaces, where it stands, the first stored binding equal to `original` by `updated`.
      When no stored binding equals `original` nothing changes and NotFound is reported.
    */
    method UpdateBinding(original: QBinding, updated: QBinding) returns (r: Result<QBinding, StoreError>)
      modifies this
      ensures original !in old(Bindings) ==> r == Err(NotFound) && Bindings == old(Bindings)
      ensures original in old(Bindings) ==>
                && r == Ok(updated)
                && FirstWhere(old(Bindings), SameAs(original)).Some?
                && Bindings == old(Bindings)[FirstWhere(old(Bindings), SameAs(original)).value := updated]
      ensures r.Ok? ==> updated in QueryBindingsByDN(updated.DN, updated.Host)
      ensures r.Ok? ==>
                var i := FirstWhere(old(Bindings), SameAs(original)).value;
                (forall k :: 0 <= k < i ==> !(old(Bindings)[k].DN == updated.DN && old(Bindings)[k].Host == updated.Host))
                ==> QueryBindingsByDN(updated.DN, updated.Host) != []
                    && QueryBindingsByDN(updated.DN, updated.Host)[0] == updated
      ensures Session == old(Session) && Server == old(Server) && Database == old(Database)
      ensures Services == old(Services) && AuthTypes == old(AuthTypes)
    {
      var i := 0;
      while i < |Bindings| && Bindings[i] != original
        invariant 0 <= i <= |Bindings|
        invariant forall k :: 0 <= k < i ==> Bindings[k] != original
      {
        i := i + 1;
      }
      if i == |Bindings| {
        r := Err(NotFound);
      } else {
        ghost var before := Bindings;
        assert FirstWhere(before, SameAs(original)) == Some(i);
        Bindings := Bindings[i := updated];
        ReplacedIsFound(before, i, updated);
        r := Ok(updated);
      }
    }
  }
}
