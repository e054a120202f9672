# Trackvia PHP client: the request dispatcher, in Dafny

This project models the core of the Trackvia PHP SDK's `Api` class
(`lib/Api.php`). At its centre is `api($url, $httpMethod, $data, $contentType)`:

- it prefixes the base URL;
- it makes sure the token provider holds an access token, and throws when it does not;
- it appends `access_token` and `user_key` to the query;
- it configures the shared request object, sends the request and checks the response;
- when the server answers with the expired-access-token message, it clears the token
  and calls itself again with the saved URL, method and data.

Also modelled:

- `checkResponse`, which sorts a response into accepted, expired or rejected;
- `login`'s account-selection rule;
- the endpoint methods that build paths for `api`.

The model is layered:

- `wrappers.dfy`: `Option`, `Error` (an exception message or a transport failure) and `Result`.
- `http.dfy`: HTTP methods, decoded responses and the response classifier.
- `url.dfy`: `strpos`, the access-token decoration, and PHP's rendering of integers in paths.
- `endpoints.dfy`: each endpoint method as the `Call` it hands to `api`.
- `dispatcher.dfy`: all the state a call reads or changes, as one `Session` value.
  `Attempt` and `Dispatch` are functions on it. The lemmas state what `api`
  does in each case. `DispatchCorrected` is the dispatcher with its two
  replay defects fixed (see Findings).
- `facade.dfy`: what the endpoint methods put on the wire once `api` has decorated their paths.
- `accounts.dfy`: `login` as a function of the user profile.
- `client.dfy`: the classes `Authentication`, `Request` and `Api`, whose fields change in place.
  `Api.Api` is proved to have exactly the effect and result of `Dispatcher.Dispatch`.
  `Api.ApiCorrected` matches `Dispatcher.DispatchCorrected` in the same way.
  `Api.Login` matches `Accounts.LoginWith`.

The network is a script. The request object holds the responses the server
will give, in order, and logs every request it sends. Sending with no
response left is a transport failure. The token provider holds the tokens its
OAuth2 handshake would obtain next. The expired-access-token message
(`self::EXPIRED_ACCESS_TOKEN`, not defined in `lib/Api.php`) and PHP's
`urlencode` are parameters of the `Api` constructor. PHP's `json_encode` is a
parameter of `Endpoints.CreateRecord` and `Endpoints.UpdateRecord`.

The recursion in `api` has no bound of its own. The model terminates only
because every replay consumes one scripted response. With a script of
expiry messages, `Dispatcher.ReplayIsUnbounded` shows the replay going on
until the script runs out. Nothing in `api` limits the replay.
`DispatchCorrected` replays at most once and reports a second expiry as an
API error.

## Model

| member | source | states |
|---|---|---|
| Http.ErrorDescription | lib/Api.php:156-157 | there is an error message exactly when the response is an array with a non-null `error_description`, and it is that value |
| Http.Classify | lib/Api.php:154-171 | accepted iff there is no error message; expired iff the message equals the sentinel; rejected, carrying the message, iff there is any other message |
| Http.ApiError | lib/Api.php:166-167 | the thrown exception's message is `API Error :: ` followed by the server's message |
| Url.IndexOf | lib/Api.php:105 | the first position of the character, or the length when the character does not occur |
| Url.Decorate | lib/Api.php:103-110 | the URL, `?` (or `&` when it already has a `?`), the URL-encoded access token and the user key; its properties are stated by `Url.DecorateAppendsQuery` |
| Url.DecorateAppendsQuery | lib/Api.php:103-110 | decoration keeps the URL as a prefix and its path unchanged; the query becomes the old query, `&` and the token parameters, or just the token parameters when there was no `?` |
| Url.NatToString | lib/Api.php:201-202 | a non-empty string of decimal digits without a leading zero |
| Url.DecimalRoundTrip | lib/Api.php:201-202 | reading the decimal rendering back gives the number |
| Url.IntToString | lib/Api.php:201-202 | a negative integer renders as `-` and the digits of its magnitude; no rendering contains `?`, `&` or `/` |
| Url.IntToStringInjective | lib/Api.php:201-202 | different integers render differently |
| Endpoints.ViewPath | lib/Api.php:202 | `/openapi/views/` followed by the view id, with no query |
| Endpoints.RecordsPath | lib/Api.php:275 | the view path followed by `/records` |
| Endpoints.RecordPath | lib/Api.php:264 | the records path followed by `/` and the record id |
| Endpoints.PathsIdentifyIds | lib/Api.php:263-275 | the view path, the records path and the record path each determine the ids they were built from |
| Endpoints.GetViewList | lib/Api.php:178-181 | a GET of `/openapi/views` with no body and no content type |
| Endpoints.GetViewListFilterOnName | lib/Api.php:188-191 | a GET of the views path whose whole query is `name=` and the encoded name |
| Endpoints.GetRecordsInView | lib/Api.php:201-204 | a GET of the view's path whose query is `start` then `max`, defaulting to 0 and 1000 |
| Endpoints.GetRecordsInViewSearch | lib/Api.php:214-218 | a GET of the view's `/find` path whose query is `start`, `max` and the encoded `q` |
| Endpoints.GetApps | lib/Api.php:224-227 | a GET of `/openapi/apps` with no body |
| Endpoints.GetUsers | lib/Api.php:233-236 | a GET of `/openapi/users` with no body |
| Endpoints.HasTimeZone | lib/Api.php:251 | only a present time zone passes `$timeZone != null` |
| Endpoints.TimeZoneLooseNull | lib/Api.php:251 | under the loose comparison, null and "" are no time zone, while "0" and a zone name are one |
| Endpoints.CreateUser | lib/Api.php:246-255 | a bodiless POST of the users path; the query carries the encoded names and email, then the time zone under `timeZoie` when it is neither null nor empty |
| Endpoints.CreateUserCorrected | lib/Api.php:246-255 | the same request with the time zone under `timeZone` |
| Endpoints.CreateUserTimeZoneName | lib/Api.php:251-253 | with a time zone, the query as written ends in `&timeZoie=` and the corrected one in `&timeZone=`; without one the two requests are equal |
| Endpoints.GetRecord | lib/Api.php:263-266 | a GET of the record path of that view and record, with no body |
| Endpoints.CreateRecord | lib/Api.php:274-279 | a POST of that view's records path whose body is the JSON encoding of the record, with content type `json;charset=UTF-8` |
| Endpoints.UpdateRecord | lib/Api.php:288-293 | a PUT of that record's path whose body is the JSON encoding of the changes, with content type `json;charset=UTF-8` |
| Endpoints.DeleteRecord | lib/Api.php:301-304 | a DELETE of that record's path with no body |
| Endpoints.RecordPathsOfView42 | lib/Api.php:263-279 | view 42's records path is `/openapi/views/42/records`, and record 7's path is that followed by `/7` |
| Dispatcher.Truthy | lib/Api.php:90 | only a present, non-empty string can be truthy |
| Dispatcher.FalsyStrings | lib/Api.php:90 | null, "" and "0" are false; every other one-character string, "00", " ", "false" and every string longer than one character are true |
| Dispatcher.Authenticate | lib/Api.php:87 | a held token, or an exhausted provider, leaves the state unchanged; otherwise the first grant becomes the token and is consumed, and nothing else changes |
| Dispatcher.ContentTypeAfter | lib/Api.php:117-119 | a falsy content type leaves the request's content type as it was; a truthy one replaces it with `application/` followed by it |
| Dispatcher.Send | lib/Api.php:124 | a send succeeds iff a response is left; the new state then differs only in consuming that response and logging the configured request; otherwise a transport failure with nothing changed |
| Dispatcher.CheckResponse | lib/Api.php:154-171 | changes nothing but possibly raising the flag; true only for an accepted response; false only with the flag raised |
| Dispatcher.CheckResponseOutcomes | lib/Api.php:154-171 | true iff accepted; false iff the message is the sentinel, and then the flag is raised; an exception with the message iff rejected; the flag is never lowered |
| Dispatcher.SendAndCheck | lib/Api.php:113-129 | a verdict only after consuming the next scripted response, which becomes the request's response; true only if it is accepted, false only with the flag raised |
| Dispatcher.Attempt | lib/Api.php:84-129 | a verdict only after consuming the next scripted response, which becomes the request's response; true only if it is accepted, false only with the flag raised |
| Dispatcher.Dispatch | lib/Api.php:81-143 | a value is returned only if it is the request's latest response and an accepted one; a call never adds responses to the script |
| Dispatcher.AttemptWithoutToken | lib/Api.php:87-94 | with no usable token after `authenticate()`, the attempt throws the missing-token exception, and its only trace is the init event and the handshake |
| Dispatcher.AttemptSendsOnce | lib/Api.php:84-129 | the whole state after one send: decorated URL, caller's method and body, content type, three events in order, flag raised on expiry; the verdict by class |
| Dispatcher.AttemptSteps | lib/Api.php:84-129 | an attempt consumes at most one response and logs it in order with the caller's method and body; true exactly for an accepted response, false only with the flag raised |
| Dispatcher.DispatchSends | lib/Api.php:81-143 | over a whole call, replays included, each send consumes the next response in order and carries the caller's method and body |
| Dispatcher.DispatchReturnsLatest | lib/Api.php:143 | the value returned is the last response consumed and is an accepted one; the expiry flag, once raised, stays raised |
| Dispatcher.FirstSend | lib/Api.php:83-124 | the first send of a call is the caller's request to the decorated base-prefixed URL, whatever follows |
| Dispatcher.MissingTokenSendsNothing | lib/Api.php:87-94 | no usable token: the missing-token exception, nothing sent or consumed, only the init event triggered |
| Dispatcher.AcceptedResponseReturned | lib/Api.php:124-143 | an accepted response is returned unchanged after exactly one send; the token and the flag are left alone |
| Dispatcher.RejectedResponseThrows | lib/Api.php:166-167 | any other error message throws `API Error :: ` and the message, after one send and with no replay |
| Dispatcher.ExpiredResponseReplays | lib/Api.php:131-141 | on the sentinel, the flag is raised, the token is cleared, and the call equals `api` on the saved prefixed URL, method and data with no content type |
| Dispatcher.ReplayAfterExpiry | lib/Api.php:131-143 | expiry then acceptance: two sends, the second to the base URL prefixed twice with the fresh token, and the replay's response is returned |
| Dispatcher.ExpiredWithoutTokenReplays | lib/Api.php:131-141 | a call starting without a token that meets the sentinel continues as the replay from the state after the first send |
| Dispatcher.ExhaustedScriptFails | lib/Api.php:124 | with a token but no response left, the call fails with a transport error and nothing is logged |
| Dispatcher.ReplayIsUnbounded | lib/Api.php:131-141 | when every response is the sentinel, `api` sends once per response, the i-th time to the base URL prefixed i+1 times, until the transport fails |
| Dispatcher.DispatchCorrected | lib/Api.php:131-141 | as corrected, a value is returned only if it is the latest response and an accepted one |
| Dispatcher.ReplayOnce | lib/Api.php:131-141 | as corrected, the replay returns a value only if it is the latest response and an accepted one |
| Dispatcher.CorrectedSendsAtMostTwice | lib/Api.php:131-141 | the corrected dispatcher sends at most twice, consuming the script in order with the caller's method and body |
| Dispatcher.CorrectedReplayTargetsSameUrl | lib/Api.php:131-141 | after expiry, the corrected replay goes to the same prefixed URL with the fresh token; a second expiry becomes an API error |
| Dispatcher.CorrectedAgreesWithoutExpiry | lib/Api.php:81-143 | when the first response is not the sentinel, the corrected and the written dispatcher agree entirely |
| Facade.JsonContentType | lib/Api.php:117-119 | the record writers' content type becomes `application/json;charset=UTF-8` whatever was set before |
| Facade.CreateRecordSendsJson | lib/Api.php:274-279 | `createRecord` first POSTs the JSON body to the decorated records URL as `application/json;charset=UTF-8` |
| Facade.UpdateRecordSendsJson | lib/Api.php:288-293 | `updateRecord` first PUTs the JSON body to the decorated record URL as `application/json;charset=UTF-8` |
| Facade.ContentTypeOutlivesTheCall | lib/Api.php:117-119 | a `getRecord` after a JSON write still sends the JSON content type, since `api` never clears it |
| Facade.ViewListUrls | lib/Api.php:178-191 | the plain view listing starts its query with the token; the name filter joins the token to its query with `&` |
| Accounts.LoginWith | lib/Api.php:45-60 | a successful login returns the profile it stored |
| Accounts.LoginSelectsFirstAccount | lib/Api.php:45-60 | success iff the first account has an id: that id is selected, and the profile without that account is returned; each failure has its own message and keeps the account id |
| Accounts.LoginExamples | lib/Api.php:45-60 | accounts 7 and 9 select 7; no accounts, or a first account without an id, throw their messages |
| Client.Authentication.Authenticate | lib/Api.php:66-69 | a held token is kept; otherwise the next grant becomes the token |
| Client.Authentication.GetAccessToken | lib/Api.php:89 | returns the held token |
| Client.Authentication.ClearAccessToken | lib/Api.php:133 | the token slot is emptied and nothing else changes |
| Client.Request.SetMethod | lib/Api.php:113-114 | the request's method is set and nothing else changes |
| Client.Request.SetData | lib/Api.php:115 | the request's body is set and nothing else changes |
| Client.Request.SetContentType | lib/Api.php:117-118 | the request's content type is set and nothing else changes |
| Client.Request.Send | lib/Api.php:124 | consumes the next response and logs the configured request, or fails with a transport error and changes nothing |
| Client.Request.GetResponse | lib/Api.php:143 | returns the request's latest response, which `api` also reads for its completion event (line 126) and `checkResponse` classifies (line 156) |
| Client.Authentication.constructor | lib/Api.php:32 | a new token provider holds no token, and its grants are the tokens it will obtain, in order |
| Client.Request.constructor | lib/Api.php:31 | a new request is a GET with no body, no content type and no response, with the given script pending and nothing sent |
| Client.Api.constructor | lib/Api.php:24-34 | a fresh request and token provider, no token, no flag, no events; the base URL defaults to `https://go.trackvia.com/` |
| Client.Api.Trigger | lib/Api.php:85 | the event is appended to the event log |
| Client.Api.CheckResponse | lib/Api.php:154-171 | the new state and result are those of `Dispatcher.CheckResponse` |
| Client.Api.Attempt | lib/Api.php:84-129 | the new state and result are those of `Dispatcher.Attempt` |
| Client.Api.SendChecked | lib/Api.php:113-129 | the new state and result are those of `Dispatcher.SendAndCheck` |
| Client.Api.Api | lib/Api.php:81-144 | the new state and result are those of `Dispatcher.Dispatch`; the method defaults to GET and the body and content type to none |
| Client.Api.ApiCorrected | lib/Api.php:131-141 | the new state and result are those of `Dispatcher.DispatchCorrected` |
| Client.Api.ReplayOnce | lib/Api.php:131-141 | the new state and result are those of `Dispatcher.ReplayOnce` |
| Client.Api.Login | lib/Api.php:45-60 | the stored user, the account id and the result are those of `Accounts.LoginWith` |

## Left out

- The HTTP transport is a script of decoded responses. Status codes,
  headers, JSON decoding and transport errors other than "no response left" are
  not modelled. `Request.php` is not part of this model. Its `setContentType`
  is taken to persist on the shared request object until set again.
- Client.Authentication.Authenticate: the OAuth2 password and refresh-token
  handshakes are reduced to a list of tokens the handshake would obtain next.
  The handshake's own failures and the `new_access_token` event are left out,
  and so is `onNewAccessToken`, which re-emits that event as `new_token`.
  `Authentication.php` is not part of this model.
  The token provider is given the client's own request object
  (lib/Api.php:31-32), so its handshake most likely sends over that object.
  The model keeps the two apart. What the handshake does to the request's
  method, body, content type and response is not modelled, and neither are
  the responses it consumes or the requests it sends. The send counts in the
  dispatcher lemmas count only the client's own requests.
  `Facade.ContentTypeOutlivesTheCall`, and the content type of the replayed
  send in `Dispatcher.ReplayAfterExpiry` and
  `Dispatcher.CorrectedReplayTargetsSameUrl`, hold under that assumption.
- Accounts.LoginWith: `getUser()` is not defined in `lib/Api.php`, so the
  profile it returns is a parameter. A missing `accounts` entry is an empty
  account list.
- Http.Classify: `switch` uses PHP's loose comparison. Two numeric
  strings that compare equal as numbers are not treated as equal here. An
  `error_description` that is not a string is not modelled.
- The expired-access-token message, `urlencode` and `json_encode` are
  parameters.
- Client.Api.constructor: it takes no user, password or port, because those
  only reach the token provider and the transport, which are modelled as a
  list of grants and a script. The form cache plays no part in the modelled
  operations.
- The payloads of triggered events are recorded. Listeners and any effects
  they could have are not modelled.
- Integers in paths are PHP integers. Other PHP values concatenated into a
  path are not modelled.
- Concurrency and re-entrancy through event listeners are not modelled.

## Findings

| source | as written | input that shows it | evidently intended | confidence | as-written member | corrected member |
|---|---|---|---|---|---|---|
| lib/Api.php:136-140 | the replay passes the saved URL, already prefixed with the base URL, back into `api`, which prefixes it again | a response carrying the expired-token message, then an accepted one: the second request goes to base URL + base URL + path | replay the same URL as the first request | high (not executed) | Dispatcher.ReplayAfterExpiry | Dispatcher.CorrectedReplayTargetsSameUrl |
| lib/Api.php:131-141 | nothing bounds the replay, and `isTokenExpired` is never reset | a server that answers every request with the expired-token message: one request per answer, each to a longer URL, until the transport fails | replay at most once and surface a second expiry as an error | high (not executed) | Dispatcher.ReplayIsUnbounded | Dispatcher.DispatchCorrected |
| lib/Api.php:252 | the time zone is sent as `timeZoie` | `createUser("A", "B", "a@b.c", "America/Denver")`: the query ends in `&timeZoie=America%2FDenver` | the parameter `timeZone`, the name of the method's own argument | high (not executed) | Endpoints.CreateUserTimeZoneName | Endpoints.CreateUserCorrected |
