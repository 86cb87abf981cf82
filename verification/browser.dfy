/** What the pages see of the browser: sessionStorage as a map from keys to
    strings, and the settled outcome of a request. */
module Browser {
  import opened Wrappers
  import opened Text

  type Storage = map<string, string>

  /** The key the token is kept under. */
  const TokenKey := "token"

  /** sessionStorage.getItem(key): None stands for null. */
  function GetItem(storage: Storage, key: string): (r: Option<string>)
    ensures r.Some? <==> key in storage
    ensures r.Some? ==> r.value == storage[key]
  {
    if key in storage then Some(storage[key]) else None
  }

  /** The outcome of `await fetch(...)` together with reading its body: either one
      of them threw (a network failure, a body that is not JSON) with the error's
      message, or a response arrived with its `response.ok` and its parsed body. */
  datatype Answer<+B> = Threw(message: string) | Responded(ok: bool, body: B)

  /** `data.detail || fallback`: the server's detail when it is truthy. */
  function DetailOr(detail: Option<string>, fallback: string): (m: string)
    ensures Truthy(detail) ==> m == detail.value
    ensures !Truthy(detail) ==> m == fallback
    ensures fallback != "" ==> m != ""
  {
    if Truthy(detail) then detail.value else fallback
  }
}
