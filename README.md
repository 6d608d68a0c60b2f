# Web service client of a turn-based RPG, modelled in Dafny

This project models the request-shaping and result-classification core of
`WebServiceClient`, the component through which a Unity turn-based RPG
reaches its PHP backend. The model covers five things:

- **Login token placement.** `GetRoutine` and `PostRoutine` put a non-empty
  login token into the query string (`?logintoken=` or `&logintoken=`,
  depending on whether the path already has a `?`) when
  `sendLoginTokenViaGetMethod` is set. Otherwise they send it as an
  `Authorization: Bearer` header. Every request gets `Accept` and
  `Content-Type: application/json`. Action paths are fixed strings such as
  `/login` appended to `serviceUrl`; there is no other routing flag.
- **Outcome classification.** `GetAsDecodedJSON` and `PostAsDecodedJSON`
  turn a finished request into a typed result. An HTTP error gives
  `UNKNOW`, even when a network error is also flagged. A network error alone
  gives `NETWORK`. Otherwise the body is deserialized.
- **Register-or-login.** The composite operation logs in only after a
  successful registration. Otherwise it forwards the registration result
  unchanged. Either way the caller is notified exactly once, provided the
  response bodies decode (see "## Left out").
- **The database export.** Each collection of the editor's export command
  is built by a loop that appends `,` whenever its accumulator is non-empty.
  Some loops skip null entries first. The result is wrapped in `{}` or `[]`.
- **Delivery of results.** A callback is modelled as the sequence of values
  it is invoked with. "Invoked exactly once" therefore reads
  `onDone == [result]`.

Files and modules:

- `base.dfy` (`Base`): `Option` and character counting.
- `requests.dfy` (`Requests`): the `?`/`&` rule, the token path, the header
  set, and the `WebRequest` object.
- `results.dfy` (`Results`): error codes, typed results, classification.
- `auth.dfy` (`Auth`): register-or-login.
- `client.dfy` (`Client`): the `WebServiceClient` class and its routines.
- `export.dfy` (`Export`): the comma-join loop and the export command.

Modelling decisions:

- **The network is a parameter.** The answer the network gives is the
  `exchange: Response` parameter: the `isHttpError` and `isNetworkError`
  flags plus the body text.
- **JSON deserialization is a parameter.** It is a function parameter
  `deserialize`, so it stays uninterpreted.
- **`new T()` is a parameter.** The fields of a freshly constructed result
  are the parameter `zero`.
- **Error codes and success.** `GameServiceResult` and
  `GameServiceErrorCode` are not part of this model. They are represented by
  `ServiceResult` with an `ErrorCode` datatype: `NoError`, `Unknow`,
  `Network`, or a backend code. `Success()` is taken to mean "no error code
  is set".
- **Routing.** The only routing flag is `sendLoginTokenViaGetMethod`.
  Action paths are fixed strings appended to `serviceUrl`
  (WebServiceClient.cs:206, 260, 364).

## Model

| member | source | states |
|---|---|---|
| `Requests.Separator` | WebServiceClient.cs:200-203 | the joining character is `&` exactly when the path already contains `?`, and `?` exactly when it does not |
| `Requests.AppendQuery` | WebServiceClient.cs:200-203 | appending a parameter keeps the path as a prefix, then puts the separator, then the parameter text, with nothing else added |
| `Requests.TokenPath` | WebServiceClient.cs:198-204 | the original path is always a prefix of the final path; the path changes exactly when the flag is set and the token is non-empty |
| `Requests.TokenQueryForm` | WebServiceClient.cs:198-204 | for a non-empty token sent in the query string, the final path is the path, then `&` if it contains `?` (otherwise `?`), then `logintoken=`, then the token |
| `Requests.QuestionMarkCount` | WebServiceClient.cs:200-203 | the number of `?` characters grows by one when the path had none and is unchanged when it had one, plus any `?` inside the unescaped token |
| `Requests.SingleQueryString` | WebServiceClient.cs:200-203 | for a token without `?`: a path without `?` ends with exactly one, and a path with one keeps its count |
| `Requests.RequestHeaders` | WebServiceClient.cs:208-215 | `Accept` and `Content-Type` are `application/json` whatever the token and flag; `Authorization` is present exactly when the token is non-empty and the flag is clear, with value `Bearer <token>`; no other header is set |
| `Requests.CredentialPlacement` | WebServiceClient.cs:198-213 | a non-empty token goes into the query string exactly when the flag is set and into the header exactly when it is clear, never both and never neither; an empty token changes neither |
| `Requests.WebRequest.Get` | WebServiceClient.cs:206 | a new GET request targets the given URL with no body, no headers, and no response yet |
| `Requests.WebRequest.Post` | WebServiceClient.cs:260 | a new POST request targets the given URL with the given body, no headers, and no response yet |
| `Requests.WebRequest.SetRequestHeader` | WebServiceClient.cs:210-215 | sets or replaces one header and changes nothing else |
| `Requests.WebRequest.SendWebRequest` | WebServiceClient.cs:217 | the request's response becomes what the network answered; its headers are unchanged |
| `Results.Classify` | WebServiceClient.cs:184-190 | an HTTP error gives `Unknow` with blank fields, even if a network error is also set; a network error alone gives `Network` with blank fields; otherwise the result is the deserialized body |
| `Results.ClassifySuccess` | WebServiceClient.cs:184-192 | a result is a success exactly when neither failure flag is set and the decoded body reports success; after a transport failure the fields are blank and the code is `Unknow` or `Network` |
| `Results.TransportFailureIgnoresBody` | WebServiceClient.cs:185-188 | after a transport failure, the result depends only on the failure flags, never on the body or the decoder |
| `Auth.RegisterOrLogin` | WebServiceClient.cs:370-379 | registration is issued first; login is issued exactly when registration succeeded; the caller is notified exactly once, with the login result on success and the unchanged registration result otherwise |
| `Auth.RegisterTransportFailureStops` | WebServiceClient.cs:372-377 | when the registration request fails in transport, no login is issued and the caller receives `Unknow` or `Network` with blank fields |
| `Client.WebServiceClient.constructor` | WebServiceClient.cs:14-16 | the default service URL, with debug logging off and token-in-query off |
| `Client.WebServiceClient.QueryPath` | WebServiceClient.cs:198-204 | the step-by-step path update yields exactly `TokenPath` under the client's flag |
| `Client.WebServiceClient.SetHeaders` | WebServiceClient.cs:208-215 | setting the headers one by one on a fresh request yields exactly `RequestHeaders` under the client's flag |
| `Client.WebServiceClient.GetRoutine` | WebServiceClient.cs:196-227 | a fresh GET request to `serviceUrl` + token path, with the header set above and the network's answer; the callback, when given, is invoked exactly once with it, and otherwise never |
| `Client.WebServiceClient.PostRoutine` | WebServiceClient.cs:250-283 | as for GET, with a POST request carrying the given data |
| `Client.WebServiceClient.GetAsDecodedJSON` | WebServiceClient.cs:180-194 | the caller's callback is invoked exactly once, with the classified result of the GET's outcome |
| `Client.WebServiceClient.PostAsDecodedJSON` | WebServiceClient.cs:234-248 | the caller's callback is invoked exactly once, with the classified result of the POST's outcome |
| `Export.JoinPieces` | WebServiceClient.cs:108-116 | the accumulator loop yields the reference separator-join of the non-null pieces, counted from the first non-empty one |
| `Export.NonEmptyPiecesJoin` | WebServiceClient.cs:49-54 | when no piece is empty, the loop's result is exactly the plain separator-join |
| `Export.JoinEmptyIff` | WebServiceClient.cs:112-116 | the accumulator stays empty exactly when every non-null piece is empty |
| `Export.CommaJoinSeparators` | WebServiceClient.cs:51-53 | n comma-free pieces are joined with exactly n - 1 commas |
| `Export.AllNullIsEmpty` | WebServiceClient.cs:118-126 | an all-null or empty collection gives the section `[]` |
| `Export.ObjectSection` | WebServiceClient.cs:49-55 | a dictionary section is `{`, the joined `"key":value` entries, `}` |
| `Export.QuotedSection` | WebServiceClient.cs:118-126 | an identifier section is `[`, the joined quoted ids of the non-null entries, `]` |
| `Export.ArraySection` | WebServiceClient.cs:138-146 | an array section is `[`, the loop's join of the non-null pieces, `]`; when no piece is empty, that is the plain join |
| `Export.ExportGameDatabase` | WebServiceClient.cs:20-171 | no game instance or no game database fails without rendering; otherwise every section is rendered as above and the document is written only when the save path is non-empty |

## Left out

- Coroutines (`StartCoroutine`, `yield return`) and the network exchange itself: the exchange is the `exchange` parameter. The `Get` and `Post` wrappers (lines 175-178 and 229-232) only start the coroutine, so the routines stand for them. Their default arguments (`data = "{}"` and `loginToken = ""`) are not modelled.
- Unity's own handling of `UnityWebRequest.Post` is not modelled: the form encoding it may apply to `data`, and the `Content-Type` it may preset. The model starts every request with no headers.
- `JsonConvert.SerializeObject` and `DeserializeObject` are foreign calls. Deserialization is a function parameter, so a body that fails to parse, or that decodes to `null`, is not modelled. In the source, a malformed body makes `DeserializeObject` throw inside the callback (lines 190 and 244), before `onDone` is invoked. A body that decodes to `null` makes `registerResult.Success` throw (line 374). In both cases the caller is not notified. The exactly-once delivery of `GetAsDecodedJSON`, `PostAsDecodedJSON` and `Auth.RegisterOrLogin` holds only for bodies that decode to a result.
- `Debug.Log` and `Debug.LogError` output, and with it the `debug` flag's effect, are logging only. The field exists in the model but has no effect.
- `GameServiceResult`, `GameServiceErrorCode` and `BaseGameService` are not part of this model. Their text constants and the implementation of `Success` are represented as described above.
- The roughly 40 other `Do*` facade methods are left out. Each is a fixed path plus a payload dictionary passed to the routines. `DoRegister` and `DoLogin` appear only as the `Register` and `Login` calls of `Auth.RegisterOrLogin`, with their decoded results as the parameters `register` and `login`.
- Editor I/O in the export is left out: `FindObjectOfType`, `gameDatabase.Setup()`, `SaveFilePanel` and `File.WriteAllText`. The game instance is a parameter, the save path is a parameter, and the write is the `Written` outcome. Every `ToJson()` result and identifier is given text.
- Export: every `ToJson()` receiver that is null would throw in the source. That covers a null entry of `hardCurrencyConvertions` (line 104) and a null dictionary value (lines 53, 61, 80, 88, 96). It also covers a null `softCurrency`, `hardCurrency`, `stageStamina`, `arenaStamina` or `playerExpTable` (lines 65, 66, 165). The model gives all of these as text, so it has no such nulls and no such exception.
- Export: C# dictionary enumeration order is not modelled. Dictionaries are given as entry sequences in that order.
- Export: integers are rendered as plain decimal text. Culture-specific number formatting is not modelled.
- A null login token: `string.IsNullOrEmpty` (lines 198, 208, 252, 262) treats it as the empty token. The model has only strings, so `""` stands for both.
- Percent-encoding of the token is not done by the source and not by the model. `Requests.QuestionMarkCount` therefore counts any `?` inside the token.
