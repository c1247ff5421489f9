/**
  The entities the store keeps: services, bindings and authentication-method records,
  and the field-name to value mapping in which an authentication method is handed to callers.
*/
module Records {
  import opened Results

  /** A protected system: its name, its hosts and the authentication it accepts. */
  datatype QService = QService(
    Name: string,
    Hosts: seq<string>,
    AuthTypes: seq<string>,
    AuthMethod: string,
    RetrievalField: string)

  /** An identity's authorisation to use a service at one host. */
  datatype QBinding = QBinding(
    Name: string,
    Service: string,
    Host: string,
    DN: string,
    OIDCToken: string,
    UniqueKey: string,
    CreatedOn: string,
    LastAuth: string)

  /** A value in the generic field map: the store's records hold only strings and integers. */
  datatype Value = S(str: string) | I(num: int)

  /** The keys of the field map of an api-key authentication method. */
  const ApiKeyFields: set<string> := {"Type", "Service", "Host", "Path", "Port", "AccessKey"}

  /** How a service at a host authenticates; the api-key kind is the only one the store holds. */
  datatype AuthMethod = ApiKey(
    Type: string,
    Service: string,
    Host: string,
    Path: string,
    Port: int,
    AccessKey: string)
  {
    /** Whether this record is the one for the given service, host and method type. */
    predicate Identifies(service: string, host: string, typeName: string)
    {
      Service == service && Host == host && Type == typeName
    }

    /** The record as the field-name to value mapping returned to callers; it loses nothing. */
    function Fields(): (m: map<string, Value>)
      ensures m.Keys == ApiKeyFields
      ensures FromFields(m) == Some(this)
    {
      map["Type" := S(Type), "Service" := S(Service), "Host" := S(Host),
          "Path" := S(Path), "Port" := I(Port), "AccessKey" := S(AccessKey)]
    }
  }

  /** Reads an api-key record back from a field map; None when a field is missing or of the wrong kind. */
  function FromFields(m: map<string, Value>): (a: Option<AuthMethod>)
  {
    if && "Type" in m && m["Type"].S?
       && "Service" in m && m["Service"].S?
       && "Host" in m && m["Host"].S?
       && "Path" in m && m["Path"].S?
       && "Port" in m && m["Port"].I?
       && "AccessKey" in m && m["AccessKey"].S?
    then Some(ApiKey(m["Type"].str, m["Service"].str, m["Host"].str,
                     m["Path"].str, m["Port"].num, m["AccessKey"].str))
    else None
  }

  /** The error an update reports when the binding to replace is not stored. */
  datatype StoreError = NotFound
}
