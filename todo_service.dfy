/** The request layer: how each of the four remote task operations is turned
    into an HTTP request carrying the stored session token, and how its outcome
    is handed back to the caller. */
module TodoService {
  import opened Outcomes

  /** A task record as the remote store returns it (`_id`, `title`, `completed`). */
  datatype Todo = Todo(id: string, title: string, completed: bool)

  /** A partial task record sent with an update: only the fields present are changed. */
  datatype Updates = Updates(title: Option<string>, completed: Option<bool>)

  datatype HttpMethod = GET | POST | PUT | DELETE

  datatype Body = NoBody | TitleBody(title: string) | UpdatesBody(updates: Updates)

  datatype Headers = Headers(authorization: string, contentType: string)

  /** The request options object, `{ headers: ... }`. */
  datatype RequestConfig = RequestConfig(headers: Headers)

  datatype Request = Request(verb: HttpMethod, url: string, body: Body, config: RequestConfig)

  /** A resolved HTTP response; only its `data` is ever read. */
  datatype Response<+T> = Response(data: T)

  /** The four operations the task list can ask of the remote store. */
  datatype Operation =
    | GetAllTodos
    | CreateTodo(title: string)
    | UpdateTodo(id: string, updates: Updates)
    | DeleteTodo(id: string)

  const BearerPrefix: string := "Bearer "
  const JsonContentType: string := "application/json"
  const TodosPath: string := "/api/v1/todos"

  /** The stored token as a template literal renders it: a missing token
      (`localStorage.getItem` gives `null`) renders as the text "null". */
  function TokenText(token: Option<string>): (text: string)
    ensures token.Some? ==> text == token.value
    ensures token.None? ==> text == "null"
  {
    match token
    case Some(t) => t
    case None => "null"
  }

  /** `getAuthHeader`: the Authorization header is "Bearer " followed by the
      stored token, with no local check of the token, and the content type is
      always JSON. */
  function GetAuthHeader(token: Option<string>): (c: RequestConfig)
    ensures c.headers.contentType == JsonContentType
    ensures |c.headers.authorization| == |BearerPrefix| + |TokenText(token)|
    ensures c.headers.authorization[..|BearerPrefix|] == BearerPrefix
    ensures c.headers.authorization[|BearerPrefix|..] == TokenText(token)
  {
    RequestConfig(Headers(BearerPrefix + TokenText(token), JsonContentType))
  }

  /** What a receiver reads back out of an Authorization header: the text after
      "Bearer ", or nothing when the header has another scheme. */
  function BearerCredential(authorization: string): Option<string> {
    if |BearerPrefix| <= |authorization| && authorization[..|BearerPrefix|] == BearerPrefix
    then Some(authorization[|BearerPrefix|..])
    else None
  }

  /** The header carries the stored token intact: reading it back gives the
      token's text. */
  lemma AuthorizationRoundTrip(token: Option<string>)
    ensures BearerCredential(GetAuthHeader(token).headers.authorization) == Some(TokenText(token))
  {
  }

  /** Two different stored tokens never produce the same header. */
  lemma StoredTokensNeverCollide(a: string, b: string)
    requires GetAuthHeader(Some(a)) == GetAuthHeader(Some(b))
    ensures a == b
  {
  }

  /** With no local check of the token, a missing token sends the same header
      as a stored token whose text is "null". */
  lemma MissingTokenSendsNullText()
    ensures GetAuthHeader(None) == GetAuthHeader(Some("null"))
    ensures GetAuthHeader(None).headers.authorization == "Bearer null"
  {
  }

  /** `${API_URL}/api/v1/todos` */
  function CollectionUrl(apiUrl: string): (url: string)
    ensures |url| == |apiUrl| + |TodosPath|
    ensures url[..|apiUrl|] == apiUrl && url[|apiUrl|..] == TodosPath
  {
    apiUrl + TodosPath
  }

  /** `${API_URL}/api/v1/todos/${id}` */
  function ItemUrl(apiUrl: string, id: string): (url: string)
    ensures |url| == |CollectionUrl(apiUrl)| + 1 + |id|
    ensures url[..|CollectionUrl(apiUrl)|] == CollectionUrl(apiUrl)
    ensures url[|CollectionUrl(apiUrl)|] == '/'
    ensures url[|CollectionUrl(apiUrl)| + 1..] == id
  {
    CollectionUrl(apiUrl) + "/" + id
  }

  /** The record id a URL under the collection names, if it names one. */
  function ItemIdOf(apiUrl: string, url: string): Option<string> {
    var prefix := CollectionUrl(apiUrl) + "/";
    if |prefix| <= |url| && url[..|prefix|] == prefix then Some(url[|prefix|..]) else None
  }

  /** The item URL names exactly the record it was built for, so distinct ids
      are never sent to the same URL. */
  lemma ItemUrlRoundTrip(apiUrl: string, id: string)
    ensures ItemIdOf(apiUrl, ItemUrl(apiUrl, id)) == Some(id)
  {
  }

  lemma ItemUrlInjective(apiUrl: string, a: string, b: string)
    requires ItemUrl(apiUrl, a) == ItemUrl(apiUrl, b)
    ensures a == b
  {
  }

  /** `getAllTodos`: a GET of the collection, no body. */
  function GetAllTodosRequest(apiUrl: string, token: Option<string>): (r: Request)
    ensures r.verb == GET && r.url == CollectionUrl(apiUrl) && r.body == NoBody
    ensures r.config == GetAuthHeader(token)
  {
    Request(GET, CollectionUrl(apiUrl), NoBody, GetAuthHeader(token))
  }

  /** `createTodo(title)`: a POST to the collection whose body is `{ title }`
      with the title exactly as given. */
  function CreateTodoRequest(apiUrl: string, token: Option<string>, title: string): (r: Request)
    ensures r.verb == POST && r.url == CollectionUrl(apiUrl) && r.body == TitleBody(title)
    ensures r.config == GetAuthHeader(token)
  {
    Request(POST, CollectionUrl(apiUrl), TitleBody(title), GetAuthHeader(token))
  }

  /** `updateTodo(id, updates)`: a PUT to the record's URL carrying `updates` unmodified. */
  function UpdateTodoRequest(apiUrl: string, token: Option<string>, id: string, updates: Updates): (r: Request)
    ensures r.verb == PUT && ItemIdOf(apiUrl, r.url) == Some(id) && r.body == UpdatesBody(updates)
    ensures r.config == GetAuthHeader(token)
  {
    ItemUrlRoundTrip(apiUrl, id);
    Request(PUT, ItemUrl(apiUrl, id), UpdatesBody(updates), GetAuthHeader(token))
  }

  /** `deleteTodo(id)`: a DELETE of the record's URL, no body. */
  function DeleteTodoRequest(apiUrl: string, token: Option<string>, id: string): (r: Request)
    ensures r.verb == DELETE && ItemIdOf(apiUrl, r.url) == Some(id) && r.body == NoBody
    ensures r.config == GetAuthHeader(token)
  {
    ItemUrlRoundTrip(apiUrl, id);
    Request(DELETE, ItemUrl(apiUrl, id), NoBody, GetAuthHeader(token))
  }

  /** The request an operation sends. Every operation carries the same
      authorization and content-type headers, update and delete of one id
      target one URL, and each operation has its own verb and body. */
  function RequestFor(apiUrl: string, token: Option<string>, op: Operation): (r: Request)
    ensures r.config == GetAuthHeader(token)
    ensures op.UpdateTodo? || op.DeleteTodo? ==> r.url == ItemUrl(apiUrl, op.id)
    ensures op.GetAllTodos? || op.CreateTodo? ==> r.url == CollectionUrl(apiUrl)
    ensures op.GetAllTodos? ==> r.verb == GET && r.body == NoBody
    ensures op.CreateTodo? ==> r.verb == POST && r.body == TitleBody(op.title)
    ensures op.UpdateTodo? ==> r.verb == PUT && r.body == UpdatesBody(op.updates)
    ensures op.DeleteTodo? ==> r.verb == DELETE && r.body == NoBody
  {
    match op
    case GetAllTodos => GetAllTodosRequest(apiUrl, token)
    case CreateTodo(title) => CreateTodoRequest(apiUrl, token, title)
    case UpdateTodo(id, updates) => UpdateTodoRequest(apiUrl, token, id, updates)
    case DeleteTodo(id) => DeleteTodoRequest(apiUrl, token, id)
  }

  /** `return response.data` inside `try`, `throw error` in `catch`, as
      `getAllTodos`, `createTodo` and `updateTodo` do: a resolved call yields
      its body unchanged and a rejected one is rethrown, never turned into a value. */
  function ReturnData<T>(response: Result<Response<T>>): (r: Result<T>)
    ensures r.Ok? <==> response.Ok?
    ensures r.Ok? ==> r.value == response.value.data
    ensures r.Err? ==> r.error == response.error
  {
    match response
    case Ok(resp) => Ok(resp.data)
    case Err(e) => Err(e)
  }

  /** `deleteTodo`: resolves with nothing when the call resolves, and rethrows
      the failure unchanged otherwise. */
  function ReturnNothing<T>(response: Result<Response<T>>): (r: Result<()>)
    ensures r.Ok? <==> response.Ok?
    ensures r.Err? ==> r.error == response.error
  {
    match response
    case Ok(_) => Ok(())
    case Err(e) => Err(e)
  }
}
