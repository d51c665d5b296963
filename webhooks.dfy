/**
 * Webhook management: create (URL and event validated), list, delete (id
 * validated). Each operation is a request, or the validation error raised
 * before any request; Dispatch then sends it.
 */
module Webhooks {
  import opened Wrappers
  import opened Php
  import opened Exceptions
  import opened BaseClient

  const WebhookEvents: seq<string> := ["bounce", "click", "open", "unsubscribe", "complaint", "delivery"]

  function InvalidUrlMessage(url: string): string {
    "Error: Invalid webhook URL - " + url
  }

  function InvalidEventMessage(event: string): string {
    "Error: '" + event + "' is not a valid event name. Supported events include " + Join(", ", WebhookEvents)
  }

  const InvalidIdMessage := "WebhookID must be greater than 0"

  /** The JSON body of a creation request. */
  function CreatePayload(url: string, event: string): Value {
    Arr([Entry(K("WebhookURL"), Str(url)), Entry(K("Event"), Str(event))])
  }

  /**
   * create: the URL is checked first, then the event; on success the request
   * is POST webhooks with the URL and the event as its only fields.
   */
  function CreateRequest(isValidUrl: string -> bool, url: string, event: string): (r: Result<Request, SendLayerError>)
    ensures !isValidUrl(url) ==> r == Failure(ValidationError(InvalidUrlMessage(url)))
    ensures isValidUrl(url) && event !in WebhookEvents ==> r == Failure(ValidationError(InvalidEventMessage(event)))
    ensures r.Success? <==> isValidUrl(url) && event in WebhookEvents
    ensures r.Success? ==> r.value == Request(POST, "webhooks", Json(CreatePayload(url, event)))
  {
    if !isValidUrl(url) then Failure(ValidationError(InvalidUrlMessage(url)))
    else if event !in WebhookEvents then Failure(ValidationError(InvalidEventMessage(event)))
    else Success(Request(POST, "webhooks", Json(CreatePayload(url, event))))
  }

  /** get: GET webhooks, with no options. */
  function ListRequest(): (r: Request)
    ensures r.verb == GET && r.endpoint == "webhooks" && r.options == NoOptions
  {
    Request(GET, "webhooks", NoOptions)
  }

  /** delete: a non-positive id is rejected; otherwise DELETE webhooks/{id}. */
  function DeleteRequest(webhookId: int): (r: Result<Request, SendLayerError>)
    ensures webhookId <= 0 ==> r == Failure(ValidationError(InvalidIdMessage))
    ensures webhookId > 0 ==> r == Success(Request(DELETE, "webhooks/" + IntToString(webhookId), NoOptions))
  {
    if webhookId <= 0 then Failure(ValidationError(InvalidIdMessage))
    else Success(Request(DELETE, "webhooks/" + IntToString(webhookId), NoOptions))
  }

  /** create: the validation error, or the response to the one POST webhooks request, unchanged. */
  function Create(http: Http, isValidUrl: string -> bool, url: string, event: string): (r: Result<seq<Entry>, SendLayerError>)
    ensures !isValidUrl(url) ==> r == Failure(ValidationError(InvalidUrlMessage(url)))
    ensures isValidUrl(url) && event !in WebhookEvents ==> r == Failure(ValidationError(InvalidEventMessage(event)))
    ensures isValidUrl(url) && event in WebhookEvents ==>
      r == MakeRequest(http.send(Request(POST, "webhooks", Json(CreatePayload(url, event)))), http.decode)
  {
    Dispatch(http, CreateRequest(isValidUrl, url, event))
  }

  /** get: the response to GET webhooks, unchanged. */
  function List(http: Http): (r: Result<seq<Entry>, SendLayerError>)
    ensures r == MakeRequest(http.send(Request(GET, "webhooks", NoOptions)), http.decode)
  {
    MakeRequest(http.send(ListRequest()), http.decode)
  }

  /** delete: the id error, or the response to DELETE webhooks/{id}, unchanged. */
  function Delete(http: Http, webhookId: int): (r: Result<seq<Entry>, SendLayerError>)
    ensures webhookId <= 0 ==> r == Failure(ValidationError(InvalidIdMessage))
    ensures webhookId > 0 ==>
      r == MakeRequest(http.send(Request(DELETE, "webhooks/" + IntToString(webhookId), NoOptions)), http.decode)
  {
    Dispatch(http, DeleteRequest(webhookId))
  }

  /**
   * A rejected creation or deletion never reaches the network: its result is
   * the same whatever the transport would have answered.
   */
  lemma RejectedCallsSendNothing(h1: Http, h2: Http, isValidUrl: string -> bool, url: string, event: string, webhookId: int)
    ensures !(isValidUrl(url) && event in WebhookEvents) ==>
      Create(h1, isValidUrl, url, event) == Create(h2, isValidUrl, url, event) &&
      Create(h1, isValidUrl, url, event).error.ValidationError?
    ensures webhookId <= 0 ==>
      Delete(h1, webhookId) == Delete(h2, webhookId) == Failure(ValidationError(InvalidIdMessage))
  {
  }

  /** Distinct webhook ids are deleted through distinct paths. */
  lemma DeletePathsDistinct(a: int, b: int)
    requires a > 0 && b > 0 && a != b
    ensures DeleteRequest(a).value.endpoint != DeleteRequest(b).value.endpoint
  {
    NatToStringInjective(a, b);
    var ea, eb := DeleteRequest(a).value.endpoint, DeleteRequest(b).value.endpoint;
    assert ea == "webhooks/" + NatToString(a) && eb == "webhooks/" + NatToString(b);
    assert ea[9..] == NatToString(a) && eb[9..] == NatToString(b);
  }

  /** The invalid-event message names every supported event. */
  lemma InvalidEventMessageListsEvents(event: string, k: nat) returns (off: nat)
    requires k < |WebhookEvents|
    ensures off + |WebhookEvents[k]| <= |InvalidEventMessage(event)|
    ensures InvalidEventMessage(event)[off..off + |WebhookEvents[k]|] == WebhookEvents[k]
  {
    var inner := JoinContains(", ", WebhookEvents, k);
    var prefix := "Error: '" + event + "' is not a valid event name. Supported events include ";
    var list := Join(", ", WebhookEvents);
    assert InvalidEventMessage(event) == prefix + list;
    off := |prefix| + inner;
    assert (prefix + list)[off..off + |WebhookEvents[k]|] == list[inner..inner + |WebhookEvents[k]|];
  }
}
