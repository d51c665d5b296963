/**
 * The SDK's exception taxonomy as one datatype. Every variant but TypeError
 * is a SendLayerException; the typed variants carry their class-default code,
 * an API error carries its HTTP status as its code.
 */
module Exceptions {
  import opened Php

  datatype SendLayerError =
    | SdkError(message: string)                 // SendLayerException itself, code 0
    | ValidationError(message: string)          // code 400
    | AuthenticationError(message: string)      // code 401
    | NotFoundError(message: string)            // code 404
    | RateLimitError(message: string)           // code 429
    | InternalServerError(message: string)      // code 500
    | ApiError(message: string, statusCode: int, response: seq<Entry>)
    | TypeError(message: string)                // a PHP engine TypeError, not an SDK exception
  {
    /** The exception's code, as `getCode()` reports it. */
    function Code(): int {
      match this
      case SdkError(_) => 0
      case ValidationError(_) => 400
      case AuthenticationError(_) => 401
      case NotFoundError(_) => 404
      case RateLimitError(_) => 429
      case InternalServerError(_) => 500
      case ApiError(_, status, _) => status
      case TypeError(_) => 0
    }

    /** Whether a `catch (SendLayerException $e)` handler catches it. */
    predicate IsSendLayerException() {
      !TypeError?
    }
  }

  /** The message the API exception's parent constructor stores. */
  function ApiMessage(statusCode: int, message: string): string {
    "API Error " + IntToString(statusCode) + ": " + message
  }

  /** The value of `new SendLayerAPIException($message, $statusCode, $response)`. */
  function NewApiError(message: string, statusCode: int, response: seq<Entry>): (e: SendLayerError)
    ensures e.ApiError? && e.IsSendLayerException()
    ensures e.Code() == statusCode && e.statusCode == statusCode && e.response == response
    ensures e.message == ApiMessage(statusCode, message)
  {
    ApiError(ApiMessage(statusCode, message), statusCode, response)
  }

  /** The message is "API Error " then the status, so an API message is never the raw message alone. */
  lemma ApiMessageShape(statusCode: int, message: string)
    ensures ApiMessage(statusCode, message)[..10] == "API Error "
    ensures |ApiMessage(statusCode, message)| > |message|
    ensures ApiMessage(statusCode, message)[|ApiMessage(statusCode, message)| - |message|..] == message
  {
  }

  /** The API exception object: its constructor assigns the fields, then the parent constructor overwrites the message. */
  class ApiException {
    var message: string
    var code: int
    var statusCode: int
    var response: seq<Entry>

    constructor (message: string, statusCode: int, response: seq<Entry> := [])
      ensures this.message == ApiMessage(statusCode, message)
      ensures this.code == statusCode && this.statusCode == statusCode
      ensures this.response == response
      ensures AsError() == NewApiError(message, statusCode, response)
    {
      this.message := message;
      this.statusCode := statusCode;
      this.response := response;
      // the parent constructor then stores the formatted message, with the status as the code
      this.message := ApiMessage(statusCode, message);
      this.code := statusCode;
    }

    /** The exception as a value of the taxonomy. */
    function AsError(): (e: SendLayerError)
      reads this
      ensures e.ApiError? && e.IsSendLayerException()
      ensures e.message == message && e.statusCode == statusCode && e.response == response
    {
      ApiError(message, statusCode, response)
    }
  }
}
