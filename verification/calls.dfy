/** What the list pages exchange with the backend: the calls they issue, the replies they get
    back, and the message they show the user. */
module Calls {
  import opened Wrappers

  /** A request a page issues; `B` is the page's form payload. */
  datatype Call<B> =
    | Listar(query: map<string, string>)
    | Criar(body: B)
    | Atualizar(id: int, body: B)
    | Deletar(id: int)

  /** The outcome of a call: success, or failure with the server's `error` field when the
      response carries one and the transport's own message. */
  datatype Reply = Ok | Err(serverError: Option<string>, message: string)

  /** What the page reports to the user after an action. */
  datatype Notice = Silent | Info(text: string) | Erro(text: string)

  /** `error.response?.data?.error || error.message`. */
  function ErrorText(r: Reply): string
    requires r.Err?
  {
    ServerErrorOr(r, r.message)
  }

  /** `error.response?.data?.error || fallback`: the server's error when it is a non-empty
      string, a fixed text otherwise. */
  function ServerErrorOr(r: Reply, fallback: string): (t: string)
    requires r.Err?
    ensures t == fallback || r.serverError == Some(t)
    ensures fallback != "" ==> t != ""
    ensures r.serverError.Some? && r.serverError.value != "" ==> t == r.serverError.value
  {
    match r.serverError
    case Some(e) => if e != "" then e else fallback
    case None => fallback
  }
}
