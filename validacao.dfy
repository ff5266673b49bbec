/**
 * ApiRest.Validacao: the authentication memo and the uniform JSON envelopes
 * `{success, message, data?}` / `{success, message, errors?}`.
 */
module ApiRest {
  import opened Wrappers
  import opened Http
  import opened Models

  /** The authenticated user the request resolves to: its row id and its record. */
  datatype Authenticated = Authenticated(id: Id, record: User)

  /** A JSON reply: its HTTP status and its top-level object. */
  datatype JsonResponse = JsonResponse(status: int, body: map<string, Json>)

  const DefaultSuccessMessage: string := "Operação realizada com sucesso"
  const DefaultErrorMessage: string := "Erro interno"
  const InvalidTokenMessage: string := "Token de acesso inválido ou expirado"

  /**
   * The per-controller state of the trait: the user, resolved once. `requestUser` in the
   * methods below is what `request()->user()` yields at the moment of the call.
   */
  class Validacao {
    var user: Option<Authenticated>

    constructor ()
      ensures user == None
    {
      user := None;
    }

    /** getUser: ask the request only while nothing is cached; a null answer is not cached. */
    method GetUser(requestUser: Option<Authenticated>) returns (u: Option<Authenticated>)
      modifies this
      ensures old(user).Some? ==> user == old(user)
      ensures old(user).None? ==> user == requestUser
      ensures u == user
    {
      if user.None? {
        user := requestUser;
      }
      u := user;
    }

    /** isAuthenticated: whether getUser found someone. */
    method IsAuthenticated(requestUser: Option<Authenticated>) returns (b: bool)
      modifies this
      ensures user == if old(user).Some? then old(user) else requestUser
      ensures b <==> user.Some?
    {
      var u := GetUser(requestUser);
      b := u.Some?;
    }

    /** requireAuth: the 401 envelope when nobody is authenticated, null otherwise. */
    method RequireAuth(requestUser: Option<Authenticated>) returns (r: Option<JsonResponse>)
      modifies this
      ensures user == if old(user).Some? then old(user) else requestUser
      ensures r.None? <==> user.Some?
      ensures r.Some? ==> r.value == JsonResponse(UNAUTHORIZED, map["success" := JBool(false), "message" := JStr(InvalidTokenMessage)])
    {
      var ok := IsAuthenticated(requestUser);
      if !ok {
        return Some(JsonResponse(UNAUTHORIZED, map["success" := JBool(false), "message" := JStr(InvalidTokenMessage)]));
      }
      r := None;
    }

    /** getUserId: the resolved user's id, or null. */
    method GetUserId(requestUser: Option<Authenticated>) returns (id: Option<Id>)
      modifies this
      ensures user == if old(user).Some? then old(user) else requestUser
      ensures id == if user.Some? then Some(user.value.id) else None
    {
      var u := GetUser(requestUser);
      id := if u.Some? then Some(u.value.id) else None;
    }
  }

  /**
   * The memo in use: once a user is resolved, a later request answer (another user, or
   * none at all) does not change who the controller acts for; before that, each call asks.
   */
  method ResolveTwice(first: Option<Authenticated>, second: Option<Authenticated>) returns (a: Option<Id>, b: Option<Id>)
    ensures a == if first.Some? then Some(first.value.id) else None
    ensures first.Some? ==> b == a
    ensures first.None? ==> b == if second.Some? then Some(second.value.id) else None
  {
    var v := new Validacao();
    a := v.GetUserId(first);
    b := v.GetUserId(second);
  }

  /** successResponse: success true and the message; `data` only when it is not null. */
  method SuccessResponse(data: Json := JNull, message: string := DefaultSuccessMessage, status: int := OK)
    returns (r: JsonResponse)
    ensures r.status == status
    ensures "success" in r.body && r.body["success"] == JBool(true)
    ensures "message" in r.body && r.body["message"] == JStr(message)
    ensures "data" in r.body <==> data != JNull
    ensures "data" in r.body ==> r.body["data"] == data
    ensures r.body.Keys <= {"success", "message", "data"}
  {
    var response := map["success" := JBool(true), "message" := JStr(message)];
    if data != JNull {
      response := response["data" := data];
    }
    r := JsonResponse(status, response);
  }

  /** successResponse() with every default: status 200, the default message and no data key. */
  method DefaultSuccess() returns (r: JsonResponse)
    ensures r == JsonResponse(OK, map["success" := JBool(true), "message" := JStr(DefaultSuccessMessage)])
  {
    r := SuccessResponse();
    assert r.body.Keys == {"success", "message"};
  }

  /** errorResponse: success false and the message; `errors` only when it is not null. */
  method ErrorResponse(message: string := DefaultErrorMessage, errors: Json := JNull, status: int := SERVER_ERROR)
    returns (r: JsonResponse)
    ensures r.status == status
    ensures "success" in r.body && r.body["success"] == JBool(false)
    ensures "message" in r.body && r.body["message"] == JStr(message)
    ensures "errors" in r.body <==> errors != JNull
    ensures "errors" in r.body ==> r.body["errors"] == errors
    ensures r.body.Keys <= {"success", "message", "errors"}
  {
    var response := map["success" := JBool(false), "message" := JStr(message)];
    if errors != JNull {
      response := response["errors" := errors];
    }
    r := JsonResponse(status, response);
  }

  /** unauthorizedResponse: a failure envelope with status 401. */
  function UnauthorizedResponse(message: string := "Não autorizado"): (r: JsonResponse)
    ensures r.status == UNAUTHORIZED
    ensures r.body.Keys == {"success", "message"}
    ensures r.body["success"] == JBool(false) && r.body["message"] == JStr(message)
  {
    JsonResponse(UNAUTHORIZED, map["success" := JBool(false), "message" := JStr(message)])
  }

  /** notFoundResponse: a failure envelope with status 404. */
  function NotFoundResponse(message: string := "Recurso não encontrado"): (r: JsonResponse)
    ensures r.status == NOT_FOUND
    ensures r.body.Keys == {"success", "message"}
    ensures r.body["success"] == JBool(false) && r.body["message"] == JStr(message)
  {
    JsonResponse(NOT_FOUND, map["success" := JBool(false), "message" := JStr(message)])
  }
}
