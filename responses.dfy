/**
 * What the HTTP layer hands to the controllers: a decoded JSON body of unknown
 * shape, or an error.
 */
module Responses {
  import opened Wrappers

  /**
   * A decoded response body whose array elements are records of type R: a bare
   * array, an object whose fields are again bodies, or anything else (null, a
   * number, a string, a boolean).
   */
  datatype Payload<R> = Array(items: seq<R>) | Object(fields: map<string, Payload<R>>) | Scalar

  /** `data && Array.isArray(data[name]) ? data[name] : undefined` */
  function ArrayField<R(==)>(p: Payload<R>, name: string): (r: Option<seq<R>>)
    ensures r.Some? ==> p.Object? && name in p.fields && p.fields[name] == Array(r.value)
    ensures p.Object? && name in p.fields && p.fields[name].Array? ==> r.Some?
  {
    if p.Object? && name in p.fields && p.fields[name].Array? then Some(p.fields[name].items) else None
  }

  /**
   * The first array-valued field among `names`, looked up in order: a reference
   * definition for the chains of `Array.isArray` tests in the list controllers.
   */
  function FirstArray<R(==)>(p: Payload<R>, names: seq<string>): (r: Option<seq<R>>)
    ensures r.None? <==> forall k :: 0 <= k < |names| ==> ArrayField(p, names[k]).None?
    ensures r.Some? ==> exists k :: 0 <= k < |names| && ArrayField(p, names[k]) == r
                                    && forall j :: 0 <= j < k ==> ArrayField(p, names[j]).None?
  {
    if names == [] then None
    else if ArrayField(p, names[0]).Some? then ArrayField(p, names[0])
    else FirstArray(p, names[1..])
  }

  /**
   * The normalisation shared by the staff, medicine and treatment controllers:
   * the array itself, else the array `content` (a paged result), else nothing.
   */
  function NormalizeContent<R(==)>(p: Payload<R>): (r: seq<R>)
    ensures p.Array? ==> r == p.items
    ensures !p.Array? && r != [] ==> ArrayField(p, "content") == Some(r)
  {
    if p.Array? then p.items else ArrayField(p, "content").GetOr([])
  }

  /** The shapes NormalizeContent accepts, and the empty sequence for every other one. */
  lemma NormalizeContentShapes<R>(p: Payload<R>)
    ensures p.Array? ==> NormalizeContent(p) == p.items
    ensures !p.Array? ==> NormalizeContent(p) == FirstArray(p, ["content"]).GetOr([])
    ensures !p.Array? && ArrayField(p, "content").None? ==> NormalizeContent(p) == []
  {
  }

  /** An HTTP failure: status, message and url, each possibly missing. */
  datatype HttpError = HttpError(status: Option<int>, message: Option<string>, url: Option<string>)

  /** `${err.message}`: the message, or "undefined" when the error carries none. */
  function MessageText(err: HttpError): string {
    err.message.GetOr("undefined")
  }
}
