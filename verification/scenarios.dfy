/**
  The store's documented outcomes on its fixture: each method sets a fresh store up for
  "localhost"/"test_db", performs the calls of one case and returns what it observed.
*/
module StoreScenarios {
  import opened Results
  import opened Records
  import opened Fixture
  import opened Selection
  import opened Store

  /** Selecting from three records keeps, in order, those of them that match. */
  lemma FilterOfThree<T(!new)>(x: T, y: T, z: T, p: T -> bool)
    ensures Filter([x, y, z], p) == (if p(x) then [x] else []) + (if p(y) then [y] else []) + (if p(z) then [z] else [])
  {
    assert [x, y, z] == [x] + ([y] + [z]);
    FilterAppend([x], [y] + [z], p);
    FilterAppend([y], [z], p);
    assert [x][1..] == [] && [y][1..] == [] && [z][1..] == [];
  }

  /** The state left by Setup. */
  method SetUpScenario()
    returns (session: bool, database: string, server: string,
             services: seq<QService>, bindings: seq<QBinding>, authTypes: seq<AuthMethod>)
    ensures session && database == "test_db" && server == "localhost"
    ensures services == [S1, S2] && bindings == [B1, B2, B3]
    ensures authTypes == [ApiKey("api-key", "s1", "host1", "test_path_1", 9000, "key1")]
  {
    var store := new Mockstore();
    store.Setup("localhost", "test_db");
    session, database, server := store.Session, store.Database, store.Server;
    services, bindings, authTypes := store.Services, store.Bindings, store.AuthTypes;
  }

  /** Close ends the session. */
  method CloseScenario() returns (session: bool)
    ensures !session
  {
    var store := new Mockstore();
    store.Setup("localhost", "test_db");
    store.Close();
    session := store.Session;
  }

  /** Lookups of services by name, of all services, and of a name nobody has. */
  method QueryServicesScenario()
    returns (byS1: seq<QService>, byS2: seq<QService>, all: seq<QService>, missing: seq<QService>)
    ensures byS1 == [S1] && byS2 == [S2]
    ensures all == [S1, S2]
    ensures missing == []
  {
    var store := new Mockstore();
    store.Setup("localhost", "test_db");
    FilterAppend([S1], [S2], NameIs("s1"));
    FilterAppend([S1], [S2], NameIs("s2"));
    FilterAppend([S1], [S2], NameIs("wrong_name"));
    byS1 := store.QueryServices("s1");
    byS2 := store.QueryServices("s2");
    all := store.QueryServices("");
    missing := store.QueryServices("wrong_name");
  }

  /** The api-key record of s1 at host1 as a field map, and the empty map for an unknown triple. */
  method QueryAuthMethodScenario() returns (found: map<string, Value>, missing: map<string, Value>)
    ensures found == map["Type" := S("api-key"), "Service" := S("s1"), "Host" := S("host1"),
                         "Path" := S("test_path_1"), "Port" := I(9000), "AccessKey" := S("key1")]
    ensures |missing| == 0
  {
    var store := new Mockstore();
    store.Setup("localhost", "test_db");
    found := store.QueryAuthMethod("s1", "host1", "api-key");
    missing := store.QueryAuthMethod("wrong_service", "wrong_host", "wrong_type");
  }

  /** Lookup of bindings by identity and host, found and not found. */
  method QueryBindingsByDNScenario() returns (found: seq<QBinding>, missing: seq<QBinding>)
    ensures found == [B1]
    ensures missing == []
  {
    var store := new Mockstore();
    store.Setup("localhost", "test_db");
    FilterOfThree(B1, B2, B3, DNAt("test_dn_1", "host1"));
    FilterOfThree(B1, B2, B3, DNAt("wrong_dn", "wrong_host"));
    found := store.QueryBindingsByDN("test_dn_1", "host1");
    missing := store.QueryBindingsByDN("wrong_dn", "wrong_host");
  }

  /** Lookup of bindings by service and host, of all bindings, and of an unknown pair. */
  method QueryBindingsScenario() returns (pair: seq<QBinding>, all: seq<QBinding>, missing: seq<QBinding>)
    ensures pair == [B1, B2]
    ensures all == [B1, B2, B3]
    ensures missing == []
  {
    var store := new Mockstore();
    store.Setup("localhost", "test_db");
    FilterOfThree(B1, B2, B3, ServiceAt("s1", "host1"));
    pair := store.QueryBindings("s1", "host1");
    FilterOfThree(B1, B2, B3, ServiceAt("wrong_service", "wrong_host"));
    all := store.QueryBindings("", "");
    missing := store.QueryBindings("wrong_service", "wrong_host");
  }

  /**
    After an insert, the lookup of the new identity at its host finds exactly the inserted
    binding; `now` is the insertion time.
  */
  method InsertBindingScenario(now: string) returns (matches: seq<QBinding>, found: QBinding)
    ensures matches == [QBinding("bIns", "s1", "host1", "test_dn_ins", "", "unique_key_ins", now, "")]
    ensures found.Name == "bIns" && found.Service == "s1" && found.Host == "host1"
    ensures found.DN == "test_dn_ins" && found.OIDCToken == "" && found.UniqueKey == "unique_key_ins"
    ensures found.CreatedOn == now && found.LastAuth == ""
  {
    var store := new Mockstore();
    store.Setup("localhost", "test_db");
    FilterOfThree(B1, B2, B3, DNAt("test_dn_ins", "host1"));
    var _ := store.InsertBinding("bIns", "s1", "host1", "test_dn_ins", "", "unique_key_ins", now);
    matches := store.QueryBindingsByDN("test_dn_ins", "host1");
    found := matches[0];
  }

  /** After an update succeeds, the lookup of the new identity finds exactly the updated binding. */
  method UpdateBindingScenario() returns (result: Result<QBinding, StoreError>, matches: seq<QBinding>, found: QBinding)
    ensures result == Ok(QBinding("b1", "s1", "host1", "test_dn_upd", "", "unique_key_upd", "2018-05-05T15:04:05Z", ""))
    ensures matches == [QBinding("b1", "s1", "host1", "test_dn_upd", "", "unique_key_upd", "2018-05-05T15:04:05Z", "")]
    ensures found == QBinding("b1", "s1", "host1", "test_dn_upd", "", "unique_key_upd", "2018-05-05T15:04:05Z", "")
  {
    var store := new Mockstore();
    store.Setup("localhost", "test_db");
    var original := QBinding("b1", "s1", "host1", "test_dn_1", "", "unique_key_1", "2018-05-05T15:04:05Z", "");
    var updated := QBinding("b1", "s1", "host1", "test_dn_upd", "", "unique_key_upd", "2018-05-05T15:04:05Z", "");
    result := store.UpdateBinding(original, updated);
    FilterOfThree(updated, B2, B3, DNAt("test_dn_upd", "host1"));
    matches := store.QueryBindingsByDN("test_dn_upd", "host1");
    found := matches[0];
  }
}
