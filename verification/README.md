# Mockstore: the in-memory store of argo-api-authn

This project models the in-memory store (`Mockstore`) of the `stores` package of
argo-api-authn, the data layer of an authentication binding service. The store owns three
collections:

- **services**: protected systems with their hosts and accepted authentication types;
- **bindings**: an identity (DN or OIDC token) authorised for a service at a host;
- **authentication-method records**: how a service at a host authenticates, here the
  api-key kind (credential path, port and access key).

`Setup` opens a session for a server and database and seeds fixed records. `Close` ends the
session. Four read-only queries filter the collections and keep stored order:

- by service name, where an empty name means all services;
- by service, host and method type, returning a field-name to value map or the empty map;
- by identity and host;
- by service and host, where an empty pair means all bindings.

Absence is never an error: a lookup that finds nothing returns an empty result.
`InsertBinding` appends a binding. `UpdateBinding` replaces a stored binding, in place, by
a new one.

Files:

- `results.dfy`: `Option` and `Result`.
- `records.dfy`: the records `QService`, `QBinding` and `AuthMethod`. An authentication
  method is handed to callers as a field map of `Value`s (`S` for strings, `I` for
  integers). `FromFields` reads such a map back.
- `selection.dfy`: `Filter`, the order-preserving selection every query performs, and
  `FirstWhere`, which finds the first match. `Selects` characterises a selection
  independently of `Filter`: a subsequence holding every matching occurrence and nothing
  else. `SelectsUnique` proves that this characterisation determines the result.
- `fixture.dfy`: the seeded records.
- `store.dfy`: the class `Mockstore`. `Setup`, `Close`, `InsertBinding` and
  `UpdateBinding` are methods that change the store's fields. The queries are functions
  that read them.
- `scenarios.dfy`: one method per documented case. Each sets up a fresh store, performs
  the case's calls, and its postcondition states the case's expected outcome.

## Model

| member | source | states |
|---|---|---|
| `Records.AuthMethod.Fields` | stores/store_test.go:106 | the field map of an api-key record has exactly the keys Type, Service, Host, Path, Port and AccessKey, and the record can be read back from it unchanged |
| `Selection.Filter` | stores/store_test.go:147-151 | a query's result keeps exactly the matching records, every occurrence of each, in stored order |
| `Selection.FirstWhere` | stores/store_test.go:106-107 | finds the position of the first matching record, or reports that none matches |
| `Selection.SelectsUnique` | stores/store_test.go:147-151 | two results that each keep exactly the matching records, in stored order, are equal, so a query's contract determines its result |
| `Selection.NoneSelected` | stores/store_test.go:82-84 | when no record matches, the selection is empty |
| `Selection.FilterAppend` | stores/store_test.go:184-187 | appending records appends their matches to the selection, which is why an inserted binding is found after the earlier matches |
| `Selection.FilterReplaceFirst` | stores/store_test.go:206-209 | a matching record written at a position with no match before it becomes the first match |
| `Fixture.SeededBindingHostOutsideService` | stores/store_test.go:36-42 | the seeded binding b3 is for service s2 at host2, which is not one of s2's hosts |
| `Store.ReplacedIsFound` | stores/store_test.go:203-211 | a binding written over a stored one is found by a lookup of its own DN and host, and is found first when no earlier binding has that DN and host |
| `Store.Mockstore.constructor` | stores/store_test.go:17 | a store that has not been set up has no session and holds nothing |
| `Store.Mockstore.Setup` | stores/store_test.go:27-55 | the session is open for the given server and database, and the store holds exactly services [s1, s2], bindings [b1, b2, b3] and one api-key record for s1 at host1, in that order |
| `Store.Mockstore.Close` | stores/store_test.go:58-63 | the session is closed and nothing else changes |
| `Store.Mockstore.QueryServices` | stores/store_test.go:66-98 | an empty name yields all services in stored order; any other name yields exactly the services with that name, in stored order, and nothing when none has it |
| `Store.Mockstore.QueryAuthMethod` | stores/store_test.go:101-118 | the result is empty exactly when no record has the given service, host and type; otherwise it is the field map of the first such record, whose Type, Service and Host are the arguments |
| `Store.Mockstore.QueryBindingsByDN` | stores/store_test.go:121-139 | yields exactly the bindings with the given DN and host, in stored order, and nothing when none matches |
| `Store.Mockstore.QueryBindings` | stores/store_test.go:142-175 | an empty service and host yield all bindings in stored order; otherwise exactly the bindings with that service and host, in stored order |
| `Store.Mockstore.InsertBinding` | stores/store_test.go:178-196 | a binding with the six given values, the given creation time and no last authentication is appended; a lookup of its DN and host then yields the earlier matches followed by it |
| `Store.Mockstore.UpdateBinding` | stores/store_test.go:199-212 | the first stored binding equal to the original is replaced by the updated one at its position and the update succeeds; a lookup of the updated DN and host finds it; an original that is not stored gives NotFound and changes nothing |
| `StoreScenarios.SetUpScenario` | stores/store_test.go:23-56 | after setup for localhost/test_db the session is open and the store holds exactly the seeded records |
| `StoreScenarios.CloseScenario` | stores/store_test.go:58-64 | after Close the session flag is false |
| `StoreScenarios.QueryServicesScenario` | stores/store_test.go:66-99 | "s1" yields [s1], "s2" yields [s2], "" yields [s1, s2] and "wrong_name" yields nothing |
| `StoreScenarios.QueryAuthMethodScenario` | stores/store_test.go:101-119 | s1/host1/api-key yields the map of its api-key record with Port 9000; an unknown triple yields a map with no keys |
| `StoreScenarios.QueryBindingsByDNScenario` | stores/store_test.go:121-140 | test_dn_1 at host1 yields [b1]; an unknown pair yields nothing |
| `StoreScenarios.QueryBindingsScenario` | stores/store_test.go:142-176 | s1 at host1 yields [b1, b2]; the empty pair yields [b1, b2, b3]; an unknown pair yields nothing |
| `StoreScenarios.InsertBindingScenario` | stores/store_test.go:178-197 | after inserting bIns, the lookup of test_dn_ins at host1 yields exactly one binding, and it carries the inserted values, the given stamp and no last authentication |
| `StoreScenarios.UpdateBindingScenario` | stores/store_test.go:199-213 | updating b1 succeeds, and the lookup of test_dn_upd at host1 yields exactly the updated binding |

## Left out

- The store's implementation file is not part of this model. Its behaviour is taken from the test suite in stores/store_test.go, which gives the seeded records and the expected outcome of every operation.
- The test-suite plumbing is left out: the testify suite, its runner, and the copy of the store made by value.
- Sharing of storage between a query result and the store is left out. Dafny sequences are values, so a result can never alias the stored collection.
- The clock that stamps a new binding is left out. `InsertBinding` takes the creation time as a parameter, and the tests never inspect it.
- Go distinguishes a nil slice from an empty one; in the model both are `[]`.
- Queries and inserts of the in-memory store never fail, so they return no error value. The storage failures of a database-backed store, and that store itself, are not modelled.
- Concurrency and locking are not modelled.
- Queries do not look at the session flag, so a closed store still answers them. The tests never query after `Close`.
- Store.Mockstore.UpdateBinding: the tests only update a stored binding. For an original that is not stored, the model follows the store's documented error (NotFound, nothing changed). When several stored bindings equal the original, only the first is replaced.
- Store.Mockstore.QueryBindings: the tests exercise only the all-empty and the all-filled argument pairs. With exactly one empty argument the model compares both fields literally, so an empty argument matches only an empty field.
- Store.Mockstore.InsertBinding: a creation stamp is not required to be non-empty, because the clock is a parameter.
- The uniqueness of service names and the membership of a binding's host in its service's hosts are expectations on the data. The store does not enforce them, and neither does the model. The seeded data itself breaks the second one: b3 binds s2 at host2, but s2 lists only host3 and host4 (`Fixture.SeededBindingHostOutsideService`).
