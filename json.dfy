/**
 * JSON values as they travel between the upstream provider, the gateway
 * and the browser. Bodies are passed through unchanged by the gateway, so
 * only the shape matters, not any particular schema.
 */
module JsonValues {
  import opened Wrappers

  datatype Json =
    | Null
    | Bool(b: bool)
    | Num(n: int)
    | Str(s: string)
    | Arr(items: seq<Json>)
    | Obj(fields: seq<(string, Json)>)

  /** The JSON envelope `{ error: message }` used for every non-success reply. */
  function ErrorEnvelope(message: string): Json
  {
    Obj([("error", Str(message))])
  }

  /**
   * The value of `key` among `fields`. When a key is repeated the last
   * occurrence wins, as it does for a body read by `JSON.parse`.
   */
  function Lookup(fields: seq<(string, Json)>, key: string): (r: Option<Json>)
    ensures r.None? <==> forall i :: 0 <= i < |fields| ==> fields[i].0 != key
    ensures r.Some? ==> exists i :: 0 <= i < |fields| && fields[i] == (key, r.value) &&
                                   (forall j :: i < j < |fields| ==> fields[j].0 != key)
  {
    if |fields| == 0 then None
    else if fields[|fields| - 1].0 == key then Some(fields[|fields| - 1].1)
    else Lookup(fields[..|fields| - 1], key)
  }

  /** Member access `body.key` on a value that may not be an object. */
  function Member(body: Json, key: string): Option<Json>
  {
    if body.Obj? then Lookup(body.fields, key) else None
  }
}
