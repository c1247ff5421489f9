/** The deterministic records an in-memory store is seeded with by Setup. */
module Fixture {
  import opened Records

  // s1 advertises its authentication types as the single entry "x509, oidc", not as two entries.
  const S1: QService := QService("s1", ["host1", "host2", "host3"], ["x509, oidc"], "api-key", "token")
  const S2: QService := QService("s2", ["host3", "host4"], ["x509"], "api-key", "user_token")

  const B1: QBinding := QBinding("b1", "s1", "host1", "test_dn_1", "", "unique_key_1", "2018-05-05T15:04:05Z", "")
  const B2: QBinding := QBinding("b2", "s1", "host1", "test_dn_2", "", "unique_key_2", "2018-05-05T15:04:05Z", "")
  const B3: QBinding := QBinding("b3", "s2", "host2", "test_dn_3", "", "unique_key_3", "2018-05-05T15:04:05Z", "")

  const ApiKey1: AuthMethod := ApiKey("api-key", "s1", "host1", "test_path_1", 9000, "key1")

  const Services: seq<QService> := [S1, S2]
  const Bindings: seq<QBinding> := [B1, B2, B3]
  const AuthTypes: seq<AuthMethod> := [ApiKey1]

  /**
    The seeded binding b3 names host2 for service s2, a host s2 does not list: the seed does
    not keep a binding's host among its service's hosts.
  */
  lemma SeededBindingHostOutsideService()
    ensures B3.Service == S2.Name && B3.Host !in S2.Hosts
  {
  }
}
