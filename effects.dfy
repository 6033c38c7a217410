/**
 * What a controller does to the world besides updating its own fields: alerts,
 * router navigations and API requests. Controllers keep a ghost log of them.
 */
module Effects {

  datatype Effect<P> =
    | Alert(text: string)
    | Navigate(segments: seq<string>, viewMode: bool)   // viewMode: query parameter mode=view
    | FetchList
    | FetchById(id: string)
    | DeleteById(id: string)
    | DeleteMany(ids: set<string>)
    | Create(payload: P)
    | Update(id: string, payload: P)
}
