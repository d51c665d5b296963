# SendLayer PHP SDK — verified model of the validation and request layer

The SendLayer PHP SDK is a thin client for the SendLayer e-mail API. Three
resource clients share one `BaseClient`:

- `Emails::send` validates its arguments in a fixed order and builds a JSON
  payload. The checks cover content, sender, the recipient groups,
  attachments and tags. Attachments are read from a URL or from the first
  local path that qualifies, and are encoded as base64. The client then
  posts the payload.
- `Events::get` validates a filter (date range, event name, retrieve count).
  It builds a query that holds only the supplied parameters and renames the
  fields of the response.
- `Webhooks::create`, `get` and `delete` validate a URL, an event name or an
  id, and issue one request each.
- `BaseClient` owns the Guzzle client. It decodes successful responses. It
  turns 4xx and 5xx responses into the SDK's exception classes, using the
  body's `Error` field or a per-status default message. Its constructor sets
  up the default configuration.

## Structure

- `wrappers.dfy`: `Option` and `Result`.
- `php.dfy`: the part of PHP's value model the SDK relies on:
  - ordered arrays with int and string keys;
  - `empty()`, `isset`, `??`;
  - string conversion;
  - `$a[$k] = $v`, `array_merge`, `implode`.

  PHP arrays never repeat a key. Lemmas that need this state it as `DistinctKeys`.
- `exceptions.dfy`: the exception hierarchy as one datatype, with each class's
  default code. Also the `SendLayerAPIException` object as a class.
- `base_client.dfy`: the request shape and the decode-or-raise step of
  `makeRequest`. Also the 4xx/5xx tables, `parseErrorResponse`, the
  constructor's configuration, and `Client` with its constructor.
- `webhooks.dfy`, `events.dfy`, `emails.dfy`: the three resource clients.

Foreign behaviour is passed in as function-valued fields of oracle records:
- `Http`: Guzzle's request and `json_decode`.
- `Env`: `filter_var` for e-mail and URL, `basename`, `crc32`,
  `base64_encode`, and the remote fetch.
- `FileSystem`: `file_exists`, `is_file`, `is_readable`,
  `file_get_contents`, `realpath`, `getcwd`, `DIRECTORY_SEPARATOR`.

`Events.Get` and `Emails.Send` return the request they sent, or `None`. This
lets their contracts state that nothing is sent unless every check passed.
The webhook operations are functions that return only the result. For them,
`Webhooks.RejectedCallsSendNothing` states that a rejected call gives the same
validation error whatever the transport would answer. An exception is a `Failure` carrying a `SendLayerError`. A PHP engine
`TypeError` is the one variant that is not a `SendLayerException`. It arises
in three ways:
- an array reaches a `string` parameter;
- a scalar JSON body reaches an `array` return type;
- an attachment that is not an array reaches `validateAttachment(array $attachment)`.

Two behaviours of the code may surprise a reader:

- An empty 2xx body is not an empty result. `json_decode("")` is a syntax
  error. The generic handler re-wraps the resulting exception, so the call fails with
  "Unexpected error: Invalid JSON response from API"
  (`BaseClient.EmptySuccessBodyIsInvalidJson`).
- The `to` group may be empty. The code has no "at least one recipient"
  rule (`Emails.EmptyGroupIsEmptyList`).

## Model

| member | source | states |
|---|---|---|
| Php.ArrayMergeLookup | src/SendLayer/Base/BaseClient.php:48-50 | after `array_merge($a, $b)`, a string key holds `$b`'s value when `$b` has it, `$a`'s otherwise |
| Php.JoinContains | src/SendLayer/Webhooks/Webhooks.php:49 | every element of an `implode`d list occurs verbatim in the result, at a returned offset |
| Exceptions.NewApiError | src/SendLayer/Exceptions/SendLayerAPIException.php:14-21 | the API error has message "API Error {status}: {message}", code and `statusCode` equal to the status, and the given response; it is a SendLayerException |
| Exceptions.ApiMessageShape | src/SendLayer/Exceptions/SendLayerAPIException.php:20 | the formatted message starts with "API Error ", is longer than the raw message and ends with it |
| Exceptions.ApiException.constructor | src/SendLayer/Exceptions/SendLayerAPIException.php:14-21 | after construction the message is the formatted one (the raw assignment is overwritten), code and statusCode are the status, response defaults to `[]` |
| Exceptions.ApiException.AsError | src/SendLayer/Exceptions/SendLayerAPIException.php:8-12 | the object is a SendLayerException value with its message, status and response |
| BaseClient.ArrayOrEmpty | src/SendLayer/Base/BaseClient.php:75 | `$data ?? []` under an `array` return type: null gives `[]`, an array is returned as is, any other decoded value is a TypeError (not a SendLayerException) |
| BaseClient.ParseErrorResponse | src/SendLayer/Base/BaseClient.php:147-161 | valid JSON gives the decoded array (`null` gives `[]`); a body that is not JSON gives `['Error' => reason ?? 'Unknown error']`; it fails, with a TypeError, exactly when the body decodes to a scalar |
| BaseClient.ErrorMessage | src/SendLayer/Base/BaseClient.php:100-111 | `$responseData['Error'] ?? default` given to a string parameter: the default when missing or null, the string when one, an int or bool converted to its string form, a TypeError exactly when it is an array |
| BaseClient.IntegerErrorIsConverted | src/SendLayer/Base/BaseClient.php:100-111 | a worked example of the conversion that `ErrorMessage` states in general: an `Error` of 42 gives the message "42" |
| BaseClient.HandleClientException | src/SendLayer/Base/BaseClient.php:93-116 | 401 is Authentication, 400 and 422 are Validation, 404 NotFound, 429 RateLimit, every other status an API error carrying status, code and body; each with the body's Error or the status default |
| BaseClient.HandleServerException | src/SendLayer/Base/BaseClient.php:124-138 | 500 is InternalServer; every other status an API error carrying status, code and body; message from the body or "Internal server error"/"Server error" |
| BaseClient.MakeRequest | src/SendLayer/Base/BaseClient.php:64-85 | success only for a completed request: JSON null gives `[]`, an array is returned, a scalar is a TypeError; invalid JSON is re-wrapped as "Unexpected error: Invalid JSON response from API"; a 4xx goes through parseErrorResponse to handleClientException, a 5xx to handleServerException; connection failures give "Connection error: …", other exceptions "Unexpected error: …" |
| BaseClient.ClientErrorUsesBodyMessage | src/SendLayer/Base/BaseClient.php:95-114 | a 4xx body whose Error is a string yields a SendLayerException with exactly that message (formatted, for an API error) |
| BaseClient.UnprocessableIsValidation400 | src/SendLayer/Base/BaseClient.php:105-106 | a 422 without Error is a Validation error "Unprocessable Entity" whose code is 400, not 422 |
| BaseClient.MalformedErrorBodyUsesReason | src/SendLayer/Base/BaseClient.php:147-160 | a 4xx or 5xx body that is not JSON reports the reason phrase as the message |
| BaseClient.EmptySuccessBodyIsInvalidJson | src/SendLayer/Base/BaseClient.php:69-83 | an empty 2xx body fails with "Unexpected error: Invalid JSON response from API" and is not `[]` |
| BaseClient.ClientConfigLookup | src/SendLayer/Base/BaseClient.php:38-50 | each top-level key of the Guzzle configuration is the `guzzle` override when given, the default otherwise |
| BaseClient.DefaultsWithoutOverrides | src/SendLayer/Base/BaseClient.php:36-45 | without overrides: timeout 30, base URI the console URL, Authorization "Bearer {apiKey}" |
| BaseClient.Client.constructor | src/SendLayer/Base/BaseClient.php:33-53 | stores the key, attachment URL timeout (default 30000), base URL and the merged configuration |
| Webhooks.CreateRequest | src/SendLayer/Webhooks/Webhooks.php:39-58 | the URL is checked first, then the event; success exactly when both pass, giving POST `webhooks` with `{WebhookURL, Event}` |
| Webhooks.ListRequest | src/SendLayer/Webhooks/Webhooks.php:65-68 | GET `webhooks` with no options |
| Webhooks.DeleteRequest | src/SendLayer/Webhooks/Webhooks.php:77-85 | a non-positive id gives "WebhookID must be greater than 0"; otherwise DELETE `webhooks/{id}` |
| Webhooks.Create | src/SendLayer/Webhooks/Webhooks.php:39-58 | an invalid URL, then an invalid event, gives its validation error; otherwise the result is the response to POST `webhooks` with `{WebhookURL, Event}`, unchanged |
| Webhooks.List | src/SendLayer/Webhooks/Webhooks.php:65-68 | the result is the response to GET `webhooks` with no options, unchanged |
| Webhooks.Delete | src/SendLayer/Webhooks/Webhooks.php:77-85 | a non-positive id gives "WebhookID must be greater than 0"; otherwise the result is the response to DELETE `webhooks/{id}`, unchanged |
| Webhooks.RejectedCallsSendNothing | src/SendLayer/Webhooks/Webhooks.php:41-82 | a rejected create or delete is a validation error whatever the transport would have answered |
| Webhooks.DeletePathsDistinct | src/SendLayer/Webhooks/Webhooks.php:84 | distinct positive ids are deleted through distinct paths |
| Webhooks.InvalidEventMessageListsEvents | src/SendLayer/Webhooks/Webhooks.php:45-50 | the invalid-event message contains every supported event name |
| Events.Insert | src/SendLayer/Events/Events.php:48-73 | one conditional insertion extends the query to hold exactly the expected values of the keys considered so far, appending a new key at the end |
| Events.QueryComplete | src/SendLayer/Events/Events.php:48-76 | after the six insertions the query has distinct keys, in insertion order, each holding its expected parameter |
| Events.BuildQuery | src/SendLayer/Events/Events.php:40-75 | date range, then event, then retrieve count are checked with their messages; success exactly for a valid filter; the query has distinct keys, in insertion order, and holds exactly the expected parameters |
| Events.Reshape | src/SendLayer/Events/Events.php:77-83 | the result is `{totalRecords: TotalRecords ?? 0, events: Events ?? []}` |
| Events.Get | src/SendLayer/Events/Events.php:32-84 | a request is sent exactly when the filter is valid: one GET `events` whose query holds exactly the expected parameters in insertion order; the result is the reshaped response or its error |
| Events.DateRangeBoundary | src/SendLayer/Events/Events.php:44-53 | equal dates are rejected; an end one second later is accepted and both timestamps are sent |
| Events.RetrieveCountBounds | src/SendLayer/Events/Events.php:69-74 | with valid dates and event, the filter is accepted exactly when the count is in 1..100 (1 and 100 accepted, 0 and 101 rejected), and an accepted count is sent unchanged |
| Events.FalsyEventIgnored | src/SendLayer/Events/Events.php:55-61 | an event of "" or "0" is neither validated nor sent |
| Events.StartFromAlwaysSent | src/SendLayer/Events/Events.php:66-68 | StartFrom is sent whenever given, including 0 and negative values, and never validated: the filter is valid exactly when it is valid without StartFrom |
| Events.FullQueryOrder | src/SendLayer/Events/Events.php:48-74 | a query with every parameter holds the keys StartDate, EndDate, Event, MessageID, StartFrom, RetrieveCount in that order |
| Events.OnlySixKeys | src/SendLayer/Events/Events.php:41-76 | no key beyond the six documented ones appears in the query |
| Emails.ValidateRecipient | src/SendLayer/Email/Emails.php:136-153 | a valid string becomes `['email' => s]`; a map with a valid non-empty email is returned unchanged; a map whose email is a non-empty array is a TypeError from the `string` parameter of `validateEmail`; otherwise "Invalid {role} email address: {email ?? 'missing'}"; any other shape "Invalid {role} format" |
| Emails.MapEntries | src/SendLayer/Email/Emails.php:191-218 | `array_map` over a group: success exactly when every element validates, keys kept and values mapped; otherwise the first failing element's error |
| Emails.RecipientGroup | src/SendLayer/Email/Emails.php:190-191 | a group succeeds exactly when every element of its list validates, and then holds one validated entry per element, keys kept; otherwise the first failing element's error |
| Emails.OptionalGroup | src/SendLayer/Email/Emails.php:206-219 | a null group is absent; any other is the normalised group or its error |
| Emails.SingleRecipientIsOneElementList | src/SendLayer/Email/Emails.php:190-217 | a string or a map with `email` gives the same group as the one-element list of it |
| Emails.EmptyGroupIsEmptyList | src/SendLayer/Email/Emails.php:190-191 | `[]` gives an empty recipient list, not an error |
| Emails.MapRecipientKeptWhole | src/SendLayer/Email/Emails.php:190-191 | a single valid recipient map is sent whole, `name` and other keys included |
| Emails.ValidateAttachment | src/SendLayer/Email/Emails.php:118-126 | success exactly when path and type are both non-empty; a missing path is reported before a missing type; a non-array is a TypeError |
| Emails.MissingPathReportedFirst | src/SendLayer/Email/Emails.php:120-125 | with both path and type missing, the error is "Attachment path is required" |
| Emails.RemoteAttachment | src/SendLayer/Email/Emails.php:56-77 | a fetched file is base64-encoded; a failed fetch gives "Error reading remote attachment: Error fetching remote file: {url}" |
| Emails.FirstQualifying | src/SendLayer/Email/Emails.php:95-107 | the first candidate that exists, is a file and is readable, or none exactly when no candidate qualifies |
| Emails.ReadCandidate | src/SendLayer/Email/Emails.php:97-105 | the encoded contents, or "Error reading attachment: Could not read file: {path}" |
| Emails.LocalAttachment | src/SendLayer/Email/Emails.php:86-110 | reads the first qualifying candidate among the path, its realpath and cwd/path; "Attachment file not found: {path}" when none qualifies |
| Emails.FirstQualifyingCandidateIsRead | src/SendLayer/Email/Emails.php:89-106 | when candidate k is the first that qualifies, that one is read |
| Emails.NotFoundOnlyWithoutCandidates | src/SendLayer/Email/Emails.php:95-109 | the not-found error arises exactly when no candidate qualifies |
| Emails.ReadLocalAttachment | src/SendLayer/Email/Emails.php:86-110 | the loop with early return computes LocalAttachment |
| Emails.ReadAttachment | src/SendLayer/Email/Emails.php:39-47 | URL-valid paths go to the remote reader, all others to the local search |
| Emails.WireAttachmentFields | src/SendLayer/Email/Emails.php:227-233 | a sent attachment holds the content, the input type, basename(path), "attachment" and crc32(path) |
| Emails.BuildAttachment | src/SendLayer/Email/Emails.php:223-233 | one attachment: success exactly when it validates and its file reads; a validation error comes first, then a TypeError exactly when the path is an array (an int or bool path is converted to a string and read), then the read error |
| Emails.AppendEach | src/SendLayer/Email/Emails.php:222-234 | the appended list has one element per input, in order, numbered from 0; otherwise the first failing element's error |
| Emails.AppendEachFailurePersists | src/SendLayer/Email/Emails.php:223-225 | once an attachment fails, later attachments change nothing (the loop is left) |
| Emails.AppendEachSnoc | src/SendLayer/Email/Emails.php:227 | one more loop iteration appends one entry, or gives that attachment's error |
| Emails.BuildAttachments | src/SendLayer/Email/Emails.php:221-235 | success exactly when every attachment builds; then one entry per input, numbered from 0, each the built attachment; otherwise the first failing attachment's error |
| Emails.AttachAll | src/SendLayer/Email/Emails.php:221-235 | the `foreach` computes the attachment list of BuildAttachments |
| Emails.OptionalAttachments | src/SendLayer/Email/Emails.php:221-235 | null attachments are absent; a list is the built attachments or their error |
| Emails.CheckTags | src/SendLayer/Email/Emails.php:241-246 | tags pass, unchanged, exactly when absent or all strings; otherwise "Tags must be a list of strings." |
| Emails.ContentOf | src/SendLayer/Email/Emails.php:197-204 | HTML content exactly when html is non-empty; otherwise the non-empty text |
| Emails.EntriesContentKeys | src/SendLayer/Email/Emails.php:193-204 | the payload's ContentType, HTMLContent and PlainContent follow the chosen content |
| Emails.EntriesGroupKeys | src/SendLayer/Email/Emails.php:206-219 | CC, BCC and ReplyTo appear exactly when the payload holds those groups |
| Emails.EntriesArrayKeys | src/SendLayer/Email/Emails.php:221-246 | Attachments, Headers and Tags appear exactly when the payload holds them |
| Emails.Send | src/SendLayer/Email/Emails.php:172-249 | one POST `email` with the payload is sent exactly when every check passes, and its response is returned unchanged; otherwise the first error, with nothing sent |
| Emails.NoContentRejectedFirst | src/SendLayer/Email/Emails.php:185-187 | with text and html both empty, send fails with the content error whatever the recipients |
| Emails.AssembleRaisesFirstError | src/SendLayer/Email/Emails.php:185-246 | the payload is built exactly when all eight stages pass; otherwise its error is the first failing stage's |
| Emails.ChecksRunInOrder | src/SendLayer/Email/Emails.php:185-248 | content, sender, to, cc, bcc, replyTo, attachments, tags: the error raised is that of the first stage that fails |
| Emails.PayloadFields | src/SendLayer/Email/Emails.php:189-246 | a successful payload holds exactly what each check produced, with subject and headers unchanged |
| Emails.ContentPrecedence | src/SendLayer/Email/Emails.php:197-204 | ContentType is HTML exactly when html is non-empty; exactly one of HTMLContent and PlainContent is sent, and html wins |
| Emails.OptionalKeysFollowArguments | src/SendLayer/Email/Emails.php:206-246 | CC, BCC, ReplyTo and Attachments appear exactly when their argument is non-null; Headers and Tags are copied verbatim |
| Emails.GroupsAreNormalised | src/SendLayer/Email/Emails.php:189-219 | the sender is sent validated; to, and cc, bcc and reply-to when not null, each keep their list's length and keys, and each entry is the validated recipient |
| Emails.AttachmentsFollowInputs | src/SendLayer/Email/Emails.php:221-235 | the Attachments output has the input's length and order; each entry has the input type, basename and crc32 of its path, its encoded content and disposition "attachment" |

## Left out

- The HTTP exchange, `json_decode`, `filter_var`, `basename`, `crc32`,
  `base64_encode`, `realpath`, `getcwd` and the file functions are foreign
  calls. They are parameters of the model (`Http`, `Env`, `FileSystem`).
  The model states how their answers are used, not what they compute.
- The remote fetch's stream context is left out. This includes the
  millisecond-to-second timeout division, which can give a float and only
  configures I/O.
- `DateTime` arguments are integer Unix timestamps. Comparing the dates
  therefore compares whole seconds. PHP compares `DateTime` objects to the
  microsecond, so two dates within the same second that PHP orders are equal
  in the model.
- Exceptions.NewApiError, Exceptions.ApiException.constructor: these model
  the constructor body at lines 14-21 of `SendLayerAPIException.php`. Line 10
  of that file declares a typed `public string $message;`, but the inherited
  `Exception::$message` has no type. PHP refuses that redeclaration with a
  fatal error when it loads the class. So in the code as written, every path
  that builds this exception stops with a fatal error. These are the 4xx
  statuses outside 400/401/404/422/429 and the 5xx statuses other than 500.
  The model returns the API error those paths were written to raise. It does
  not model the load-time failure.
- PHP floats are not in the value model. A float `Error` field or a float
  tag is outside it.
- BaseClient.Config: the `$config` entries are typed fields. PHP's handling
  of a non-integer `attachmentURLTimeout` or a non-array `guzzle` option is
  not modelled.
- BaseClient.ErrorMessage: the TypeError messages approximate the engine's
  wording. Only the fact that a TypeError, not a SendLayerException, is
  raised is stated.
- Emails.Send: every stage's outcome is computed as a pure value, and the
  first failure is raised. Evaluation order is visible only through which
  error is raised. Side effects of a later stage, such as a file read, are
  not ordered against an earlier failure.
- The `Emails`, `Events` and `Webhooks` objects only hold the shared client.
  They have no state of their own and are not modelled as classes.
- `src/SendLayer/SendLayer.php` only wires the three clients to one
  `BaseClient`. It is not part of this model.
- The one-line exception subclasses are represented only by their default
  codes, which are the variants of `SendLayerError`.
- The example scripts load an environment and print output. They are not
  part of this model.
