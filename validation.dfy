/**
 * The request-validation chain and the token-to-user resolution of
 * `Utils` (`errorResponseIf*`, `getUserFromTokenData`, `ensureLoggedIn`).
 *
 * Every check takes the failure status of the checks before it. A check
 * given `true` returns `true` at once and touches nothing; otherwise it either
 * writes one `{"error": ...}` response with a fixed HTTP status and returns
 * `true`, or leaves the response alone and returns `false`. So at most one
 * error response is written per chain, by the first check that fails.
 *
 * The PHP by-reference parameters (`&$response`, `&$user`, `&$token_data`) are
 * an in-parameter and a primed out-parameter. The collaborators the class
 * reaches through its container (the token decoder, `base64_decode`, the two
 * user queries, the logger) are parameters or recorded outputs.
 */
module Validation {
  import opened Wrappers

  /** An HTTP response: its status and, once one was written, the `error` member of its JSON body. */
  datatype Response = Response(status: int, error: Option<string>) {
    /** Slim's `withJson(['error' => message], status)`. */
    function WithError(message: string, code: int): Response {
      Response(code, Some(message))
    }
  }

  /** A member of a decoded JSON request body. */
  datatype JsonValue = JNull | JString(s: string) | JOther

  /** A user row as the user queries return it; `userType` is its `type` column read as an integer. */
  datatype Row = Row(userType: int, fields: map<string, string>)

  /** What an executed query exposes: its SQLSTATE error code, its error info and its rows. */
  datatype QueryResult = QueryResult(errorCode: string, errorInfo: seq<string>, rows: seq<Row>)

  /** One call to the logger: a category tag and the structured detail. */
  datatype LogEntry = LogEntry(tag: string, info: seq<string>)

  /** A decoded token: an object with an optional `session` and an optional `reset` member. */
  datatype TokenData = TokenData(session: Option<string>, reset: Option<string>)

  /** The two prepared user lookups, as functions from the bound token to the executed query. */
  datatype UserQueries = UserQueries(bySessionToken: string -> QueryResult, byResetToken: string -> QueryResult)

  /** The `user_type` constant table: level name to threshold. */
  type LevelTable = map<string, int>

  const SuccessCode: string := "00000"
  // The default `$message` arguments of `errorResponseIfNotUserHasLevel`,
  // `errorResponseIfQueryBad` and `errorResponseIfQueryNoResults`.
  const NotAuthorizedMessage: string := "You are not authorized to do this"
  const QueryErrorMessage: string := "An error occured while executing DB queries"
  const NoResultsMessage: string := "DB returned no results"

  const InvalidTokenMessage: string := "Invalid token"
  const NonexistentTokenMessage: string := "Nonexistent token submitted"

  /** The field is present, not null, a string, and not the empty string. */
  predicate RequiredString(body: map<string, JsonValue>, property: string): (present: bool)
    ensures !present <==> property !in body || body[property] == JNull || body[property] == JOther
                          || body[property] == JString("")
  {
    property in body && body[property].JString? && body[property].s != ""
  }

  function MissingFieldMessage(property: string): string {
    property + " is required, and must be a string"
  }

  /** 403 when the user's level is below the named threshold; `user == None` is PHP's `false`. */
  method ErrorResponseIfNotUserHasLevel(currentStatus: bool, response: Response, user: Option<Row>,
                                        levels: LevelTable, requiredLevel: string, message: string)
    returns (failed: bool, response': Response)
    requires !currentStatus && user.Some? ==> requiredLevel in levels
    ensures currentStatus || user.None? ==> failed && response' == response
    ensures !currentStatus && user.Some? ==>
      && (failed <==> user.value.userType < levels[requiredLevel])
      && response' == if failed then response.WithError(message, 403) else response
  {
    response' := response;
    if user.None? || currentStatus {
      return true, response';
    }
    if user.value.userType < levels[requiredLevel] {
      response' := response.WithError(message, 403);
      return true, response';
    }
    failed := false;
  }

  /** 400 when `property` is missing, not a string, or empty. */
  method ErrorResponseIfMissingOrNotString(currentStatus: bool, response: Response, body: map<string, JsonValue>,
                                           property: string)
    returns (failed: bool, response': Response)
    ensures currentStatus ==> failed && response' == response
    ensures !currentStatus ==>
      && (failed <==> !RequiredString(body, property))
      && response' == if failed then response.WithError(MissingFieldMessage(property), 400) else response
  {
    response' := response;
    if currentStatus {
      return true, response';
    }
    if property !in body || !body[property].JString? || body[property].s == "" {
      response' := response.WithError(MissingFieldMessage(property), 400);
      return true, response';
    }
    failed := false;
  }

  /** 500, and one log entry, when the query's error code is not the success code. */
  method ErrorResponseIfQueryBad(currentStatus: bool, response: Response, query: QueryResult, message: string)
    returns (failed: bool, response': Response, log: Option<LogEntry>)
    ensures currentStatus ==> failed && response' == response && log == None
    ensures !currentStatus ==>
      && (failed <==> query.errorCode != SuccessCode)
      && response' == (if failed then response.WithError(message, 500) else response)
      && log == if failed then Some(LogEntry("DBError", query.errorInfo)) else None
  {
    response', log := response, None;
    if currentStatus {
      return true, response', log;
    }
    if query.errorCode != SuccessCode {
      log := Some(LogEntry("DBError", query.errorInfo));
      response' := response.WithError(message, 500);
      return true, response', log;
    }
    failed := false;
  }

  /** 404 when the query returned no rows. */
  method ErrorResponseIfQueryNoResults(currentStatus: bool, response: Response, query: QueryResult, message: string)
    returns (failed: bool, response': Response)
    ensures currentStatus ==> failed && response' == response
    ensures !currentStatus ==>
      && (failed <==> |query.rows| == 0)
      && response' == if failed then response.WithError(message, 404) else response
  {
    response' := response;
    if currentStatus {
      return true, response';
    }
    if |query.rows| == 0 {
      response' := response.WithError(message, 404);
      return true, response';
    }
    failed := false;
  }

  // ---------------------------------------------------------------------
  // Token resolution.

  /** The decision a token comes to: a user, or an error response (with what was logged). */
  datatype TokenOutcome = Resolved(user: Row) | Rejected(status: int, message: string, log: Option<LogEntry>)

  /** The token member the mode accepts: `reset` in reset mode, `session` otherwise. */
  function ModeToken(t: TokenData, reset: bool): Option<string> {
    if reset then t.reset else t.session
  }

  /** The lookup the mode runs. */
  function Lookup(queries: UserQueries, reset: bool, key: string): QueryResult {
    if reset then queries.byResetToken(key) else queries.bySessionToken(key)
  }

  /**
   * Token resolution as a single-pass state machine: decoded or not, the
   * mode's member present or not, then the lookup's error code and row count.
   */
  function ResolveToken(tokenData: Option<TokenData>, reset: bool, base64Decode: string -> string,
                        queries: UserQueries): TokenOutcome
  {
    match tokenData
    case None => Rejected(403, InvalidTokenMessage, None)
    case Some(t) =>
      match ModeToken(t, reset)
      case None => Rejected(403, InvalidTokenMessage, None)
      case Some(token) =>
        var q := Lookup(queries, reset, base64Decode(token));
        if q.errorCode != SuccessCode then Rejected(500, QueryErrorMessage, Some(LogEntry("DBError", q.errorInfo)))
        else if |q.rows| == 0 then Rejected(404, NonexistentTokenMessage, None)
        else Resolved(q.rows[0])
  }

  /** The effect of an outcome on the by-reference response and user. */
  predicate Applies(o: TokenOutcome, response: Response, user: Option<Row>,
                    failed: bool, response': Response, user': Option<Row>, log: Option<LogEntry>)
  {
    match o
    case Resolved(u) => !failed && response' == response && user' == Some(u) && log == None
    case Rejected(code, message, entry) =>
      failed && response' == response.WithError(message, code) && user' == user && log == entry
  }

  method GetUserFromTokenData(currentStatus: bool, response: Response, tokenData: Option<TokenData>,
                              user: Option<Row>, reset: bool, base64Decode: string -> string, queries: UserQueries)
    returns (failed: bool, response': Response, user': Option<Row>, log: Option<LogEntry>)
    ensures currentStatus ==> failed && response' == response && user' == user && log == None
    ensures !currentStatus ==>
      Applies(ResolveToken(tokenData, reset, base64Decode, queries), response, user, failed, response', user', log)
  {
    response', user', log := response, user, None;
    if currentStatus {
      return true, response', user', log;
    }
    if tokenData.None? {
      response' := response.WithError(InvalidTokenMessage, 403);
      return true, response', user', log;
    }
    var t := tokenData.value;
    var query: QueryResult;
    if t.session.Some? && !reset {
      query := queries.bySessionToken(base64Decode(t.session.value));
    } else if t.reset.Some? && reset {
      query := queries.byResetToken(base64Decode(t.reset.value));
    } else {
      response' := response.WithError(InvalidTokenMessage, 403);
      return true, response', user', log;
    }
    var status;
    status, response', log := ErrorResponseIfQueryBad(false, response', query, QueryErrorMessage);
    status, response' := ErrorResponseIfQueryNoResults(status, response', query, NonexistentTokenMessage);
    if status {
      return true, response', user', log;
    }
    user' := Some(query.rows[0]);
    failed := false;
  }

  /** The `token` member is required; it is decoded, then resolved in the requested mode. */
  method EnsureLoggedIn(currentStatus: bool, response: Response, body: map<string, JsonValue>, user: Option<Row>,
                        tokenData: Option<TokenData>, reset: bool, validate: string -> Option<TokenData>,
                        base64Decode: string -> string, queries: UserQueries)
    returns (failed: bool, response': Response, user': Option<Row>, tokenData': Option<TokenData>,
             log: Option<LogEntry>)
    ensures currentStatus ==>
      failed && response' == response && user' == user && tokenData' == tokenData && log == None
    ensures !currentStatus && !RequiredString(body, "token") ==>
      && failed && response' == response.WithError(MissingFieldMessage("token"), 400)
      && user' == user && tokenData' == tokenData && log == None
    ensures !currentStatus && RequiredString(body, "token") ==>
      && tokenData' == validate(body["token"].s)
      && Applies(ResolveToken(tokenData', reset, base64Decode, queries), response, user, failed, response', user', log)
  {
    response', user', tokenData', log := response, user, tokenData, None;
    var status;
    status, response' := ErrorResponseIfMissingOrNotString(currentStatus, response, body, "token");
    if status {
      return true, response', user', tokenData', log;
    }
    tokenData' := validate(body["token"].s);
    failed, response', user', log := GetUserFromTokenData(false, response', tokenData', user, reset, base64Decode, queries);
  }

  // ---------------------------------------------------------------------
  // Properties of token resolution.

  /** A falsy decoded token is "Invalid token" (403). */
  lemma UndecodableTokenInvalid(reset: bool, base64Decode: string -> string, queries: UserQueries)
    ensures ResolveToken(None, reset, base64Decode, queries) == Rejected(403, InvalidTokenMessage, None)
  {
  }

  /**
   * Each mode accepts only its own member: without it the token is "Invalid
   * token", whatever the other member holds and whatever its lookup would find.
   */
  lemma WrongModeTokenInvalid(t: TokenData, reset: bool, base64Decode: string -> string, queries: UserQueries)
    requires (if reset then t.reset else t.session).None?
    ensures ResolveToken(Some(t), reset, base64Decode, queries) == Rejected(403, InvalidTokenMessage, None)
  {
  }

  /** A resolved user is the first row of the mode's lookup, keyed by the decoded member. */
  lemma ResolvedIsFirstRow(tokenData: Option<TokenData>, reset: bool, base64Decode: string -> string,
                           queries: UserQueries)
    requires ResolveToken(tokenData, reset, base64Decode, queries).Resolved?
    ensures tokenData.Some? && ModeToken(tokenData.value, reset).Some?
    ensures var q := Lookup(queries, reset, base64Decode(ModeToken(tokenData.value, reset).value));
      q.errorCode == SuccessCode && |q.rows| > 0
      && ResolveToken(tokenData, reset, base64Decode, queries).user == q.rows[0]
  {
  }

  /**
   * Once the mode's member is present, the lookup it keys decides: an error
   * code gives 500 and a log entry, no rows give 404, otherwise the first row.
   */
  lemma LookupOutcomes(t: TokenData, reset: bool, base64Decode: string -> string, queries: UserQueries)
    requires ModeToken(t, reset).Some?
    ensures var q := Lookup(queries, reset, base64Decode(ModeToken(t, reset).value));
      var o := ResolveToken(Some(t), reset, base64Decode, queries);
      && (q.errorCode != SuccessCode ==>
            o == Rejected(500, QueryErrorMessage, Some(LogEntry("DBError", q.errorInfo))))
      && (q.errorCode == SuccessCode && |q.rows| == 0 ==> o == Rejected(404, NonexistentTokenMessage, None))
      && (q.errorCode == SuccessCode && |q.rows| > 0 ==> o == Resolved(q.rows[0]))
  {
  }

  /** Resolution fails with exactly one of 403, 404 and 500, and 500 is the only one that logs. */
  lemma RejectionClasses(tokenData: Option<TokenData>, reset: bool, base64Decode: string -> string,
                         queries: UserQueries)
    requires ResolveToken(tokenData, reset, base64Decode, queries).Rejected?
    ensures var o := ResolveToken(tokenData, reset, base64Decode, queries);
      && (o.status == 403 <==> o.message == InvalidTokenMessage)
      && (o.status == 404 <==> o.message == NonexistentTokenMessage)
      && (o.status == 500 <==> o.log.Some?)
      && (o.status == 403 || o.status == 404 || o.status == 500)
  {
  }
}
