/**
 * An abstract JSON value and the mutable org.json `JSONObject` the layouts fill.
 * Serialisation (`toString`) is not modelled here: the layouts take it as a
 * parameter.
 */
module Json {

  datatype Json =
    | JObject(fields: map<string, Json>)
    | JArray(items: seq<Json>)
    | JString(text: string)
    | JNumber(number: int)

  /** A `JSONObject` under construction: successive `put` calls add or replace keys. */
  class JsonObject {
    var fields: map<string, Json>

    constructor ()
      ensures fields == map[]
    {
      fields := map[];
    }

    /** `JSONObject.put`: binds `key`, replacing any earlier value. */
    method Put(key: string, value: Json)
      modifies this
      ensures fields == old(fields)[key := value]
    {
      fields := fields[key := value];
    }

    /** The value this object stands for once it is stored inside another one. */
    function Value(): Json
      reads this
    {
      JObject(fields)
    }
  }
}
