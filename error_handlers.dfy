/**
 * The deployment setting the error handlers consult (`NODE_ENV`).
 */
module Env {
  datatype Env = Production | Development | Other
}

/**
 * The API gateway's last-resort error handler: it turns an error into a status code, a
 * message and, for validation and duplicate-key errors, a list of details.
 */
module GatewayErrors {
  import opened Wrappers
  import opened Env

  /** The parts of a thrown error the handler reads. `fieldMessages` are the messages of a
   *  Mongoose validation error's fields; `duplicateKeys` the keys of a duplicate-key error's
   *  `keyValue`, in order. */
  datatype Error = Error(name: string, code: Option<int>, status: Option<int>, message: Option<string>,
                         fieldMessages: seq<string>, duplicateKeys: seq<string>, stack: Option<string>)

  /** The JSON reply: a field that is `None` is absent from the body. */
  datatype Response = Response(status: int, error: Option<string>, details: Option<seq<string>>, stack: Option<string>)

  /** `Object.keys(keyValue)[0]` as a template literal prints it. */
  function FirstKey(keys: seq<string>): string {
    if |keys| == 0 then "undefined" else keys[0]
  }

  /** `error.status` is truthy. */
  predicate ExplicitStatus(e: Error) {
    e.status.Some? && e.status.value != 0
  }

  /** The status and message before the production rewrite, for errors that reach the end. */
  function Classified(e: Error): (r: (int, Option<string>))
    ensures ExplicitStatus(e) ==> r == (e.status.value, e.message)
    ensures !ExplicitStatus(e) && e.name == "TokenExpiredError" ==> r == (401, Some("Token expired"))
    ensures !ExplicitStatus(e) && e.name == "JsonWebTokenError" ==> r == (401, Some("Invalid token"))
    ensures !ExplicitStatus(e) && e.name == "CastError" ==> r == (400, Some("Invalid ID format"))
    ensures !ExplicitStatus(e) && e.name !in {"TokenExpiredError", "JsonWebTokenError", "CastError"} ==>
              r == (500, Some("Internal Server Error"))
  {
    if ExplicitStatus(e) then (e.status.value, e.message)
    else if e.name == "TokenExpiredError" then (401, Some("Token expired"))
    else if e.name == "JsonWebTokenError" then (401, Some("Invalid token"))
    else if e.name == "CastError" then (400, Some("Invalid ID format"))
    else (500, Some("Internal Server Error"))
  }

  /** `errorHandler`: the checks run in order; validation and duplicate-key errors reply at
   *  once, later checks overwrite earlier ones, and an explicit status overrides them all. */
  method Handle(e: Error, env: Env) returns (r: Response)
    ensures e.name == "ValidationError" ==> r == Response(400, Some("Validation Error"), Some(e.fieldMessages), None)
    ensures e.name != "ValidationError" && e.code == Some(11000) ==>
              r == Response(400, Some("Duplicate field value"), Some([FirstKey(e.duplicateKeys) + " already exists"]), None)
    ensures e.name != "ValidationError" && e.code != Some(11000) ==>
              && r.status == Classified(e).0
              && r.error == (if env == Production && r.status == 500 then Some("Something went wrong") else Classified(e).1)
              && r.details == None
              && r.stack == (if env == Development then e.stack else None)
  {
    var statusCode := 500;
    var message := Some("Internal Server Error");
    if e.name == "ValidationError" {
      statusCode := 400;
      message := Some("Validation Error");
      return Response(statusCode, message, Some(e.fieldMessages), None);
    }
    if e.name == "CastError" {
      statusCode := 400;
      message := Some("Invalid ID format");
    }
    if e.code == Some(11000) {
      statusCode := 400;
      message := Some("Duplicate field value");
      var field := FirstKey(e.duplicateKeys);
      return Response(statusCode, message, Some([field + " already exists"]), None);
    }
    if e.name == "JsonWebTokenError" {
      statusCode := 401;
      message := Some("Invalid token");
    }
    if e.name == "TokenExpiredError" {
      statusCode := 401;
      message := Some("Token expired");
    }
    if ExplicitStatus(e) {
      statusCode := e.status.value;
      message := e.message;
    }
    if env == Production && statusCode == 500 {
      message := Some("Something went wrong");
    }
    r := Response(statusCode, message, None, if env == Development then e.stack else None);
  }
}

/**
 * The AI service's last-resort error handler: a chain of checks in which the last match
 * decides the status and the message.
 */
module AiErrors {
  import opened Wrappers
  import opened Env
  import Json

  /** The parts of a thrown error the handler reads: the upstream reply's status and its
   *  `data.error.message`, the error code and name. */
  datatype Error = Error(name: string, code: Option<string>, responseStatus: Option<int>,
                         responseMessage: Option<string>, responseData: Option<Json.Json>, stack: Option<string>)

  datatype Response = Response(status: int, error: string, timestamp: nat, stack: Option<string>,
                               details: Option<Json.Json>)

  /** `error.response?.status` is truthy. */
  predicate Upstream(e: Error) {
    e.responseStatus.Some? && e.responseStatus.value != 0
  }

  /** A timeout, a rate-limit code or a validation error: the cases that override the upstream reply. */
  predicate Special(e: Error) {
    e.code == Some("ECONNABORTED") || e.code == Some("RATE_LIMIT_EXCEEDED") || e.name == "ValidationError"
  }

  /** The status the chain settles on: the last check that matches wins. */
  function StatusOf(e: Error): (s: int)
    ensures e.code == Some("ECONNABORTED") ==> s == 408
    ensures e.code != Some("ECONNABORTED") && e.name == "ValidationError" ==> s == 400
    ensures e.code == Some("RATE_LIMIT_EXCEEDED") && e.name != "ValidationError" ==> s == 429
    ensures !Special(e) ==> s == (if Upstream(e) then e.responseStatus.value else 500)
  {
    if e.code == Some("ECONNABORTED") then 408
    else if e.name == "ValidationError" then 400
    else if e.code == Some("RATE_LIMIT_EXCEEDED") then 429
    else if Upstream(e) then e.responseStatus.value
    else 500
  }

  /** The message the chain settles on, before the production rewrite. */
  function MessageOf(e: Error): (m: string)
    ensures m != ""
    ensures e.code == Some("ECONNABORTED") ==> m == "Request timeout"
    ensures e.code != Some("ECONNABORTED") && e.name == "ValidationError" ==> m == "Validation failed"
    ensures e.code == Some("RATE_LIMIT_EXCEEDED") && e.name != "ValidationError" ==>
              m == "Rate limit exceeded. Please try again later."
    ensures !Special(e) && Upstream(e) ==>
              m == (if e.responseMessage.Some? && e.responseMessage.value != "" then e.responseMessage.value
                    else "AI service error")
    ensures !Special(e) && !Upstream(e) ==> m == "Internal Server Error"
  {
    if e.code == Some("ECONNABORTED") then "Request timeout"
    else if e.name == "ValidationError" then "Validation failed"
    else if e.code == Some("RATE_LIMIT_EXCEEDED") then "Rate limit exceeded. Please try again later."
    else if Upstream(e) then
      (if e.responseMessage.Some? && e.responseMessage.value != "" then e.responseMessage.value else "AI service error")
    else "Internal Server Error"
  }

  /** `errorHandler`, with the current time passed in. */
  method Handle(e: Error, env: Env, now: nat) returns (r: Response)
    ensures r.status == StatusOf(e)
    ensures r.error == (if env == Production && r.status == 500 then "AI processing failed" else MessageOf(e))
    ensures r.timestamp == now
    ensures env == Development ==> r.stack == e.stack && r.details == e.responseData
    ensures env != Development ==> r.stack == None && r.details == None
  {
    var statusCode := 500;
    var message := "Internal Server Error";
    if Upstream(e) {
      statusCode := e.responseStatus.value;
      message := if e.responseMessage.Some? && e.responseMessage.value != "" then e.responseMessage.value
                 else "AI service error";
    }
    if e.code == Some("RATE_LIMIT_EXCEEDED") {
      statusCode := 429;
      message := "Rate limit exceeded. Please try again later.";
    }
    if e.name == "ValidationError" {
      statusCode := 400;
      message := "Validation failed";
    }
    if e.code == Some("ECONNABORTED") {
      statusCode := 408;
      message := "Request timeout";
    }
    if env == Production && statusCode == 500 {
      message := "AI processing failed";
    }
    if env == Development {
      r := Response(statusCode, message, now, e.stack, e.responseData);
    } else {
      r := Response(statusCode, message, now, None, None);
    }
  }
}
