/** The request as the listeners and the admin controller see it: its query
    parameter bag and its attribute bag. */
module Http {
  import opened PhpArray

  class Request {
    var query: Value
    var attributes: map<string, Value>

    constructor(query: Value)
      ensures this.query == query && attributes == map[]
    {
      this.query := query;
      attributes := map[];
    }

    /** `$request->query->set($key, $value)` */
    method SetQuery(key: string, value: Value)
      modifies this
      ensures query == Set(old(query), key, value) && attributes == old(attributes)
    {
      query := Set(query, key, value);
    }

    /** `$request->attributes->set($key, $value)` */
    method SetAttribute(key: string, value: Value)
      modifies this
      ensures attributes == old(attributes)[key := value] && query == old(query)
    {
      attributes := attributes[key := value];
    }
  }

  /** `ParameterBag::get($key, $default)`: the value when the key exists, even null. */
  function QueryGet(query: Value, key: string, default: Value): Value {
    Get(query, key).GetOr(default)
  }

  /** `ParameterBag::has($key)` */
  predicate QueryHas(query: Value, key: string) {
    HasKey(Entries(query), key)
  }
}
