# node-microservices core, modelled in Dafny

This project models the shared core of a small Node.js microservice system. The system has three
services (auth, users, products) behind a gateway. They talk over internal HTTP calls and RabbitMQ
events. The project proves properties of that model. The modelled parts are:

- **Service registry** (`ServiceRegistry`). A fixed table from service and endpoint name to a base
  URL (read from the environment) plus an HTTP method and path template. It also has
  `getServiceEndpoint` and its two error messages.
- **HTTP client** (`HttpClient`). `buildUrl` fills the path template: each parameter replaces the
  first occurrence of its `:key` placeholder. The client attaches an `Internal <jwt>` header on
  internal calls, hands the call to the transport and unwraps `data.data || data`.
- **Data joiner** (`DataJoiner`). It collects the distinct truthy foreign keys and makes one batched
  call. It groups the reply by the join key and attaches to each record the group under its foreign
  key. A record without a foreign key gets the group of reply items without a join key, since both
  look up `undefined`. Every record gets `[]` when no record has a truthy key, the call fails or the
  reply cannot be read.
- **Tokens** (`Jwt`). Signing and verifying, with the `jsonwebtoken` and `bcryptjs` libraries as
  uninterpreted functions. The clock is a parameter.
- **Auth gate and cookies** (`AuthUtils`, with `Express` for the response object and the cookie jar).
  The gate takes the `Authorization` header first and falls back to the `accessToken` cookie. A
  `Bearer` token is verified with JWT_SECRET and an `Internal` token with INTERNAL_SECRET. The cookie
  helpers set and clear `accessToken` and `refreshToken`.
- **Auth service and controller** (`AuthService`, `AuthController`). They cover register, login and
  refresh through the user service, and the response in cookie mode versus body mode.
- **Response envelope, error middleware, validation middleware** (`ApiResponse`, `ErrorHandler`,
  `Validation`).
- **RabbitMQ clients** (`Broker`, `RabbitPublisher`, `RabbitConsumer`):
  - the publisher connects once, declares `user_events` and publishes `{eventType, data, timestamp}`;
  - the consumer connects with five attempts and 3000 ms between them, binds an exclusive queue to
    `auth_events`, and acknowledges each message after its callback;
  - both have `close()`.
- **User and product services** (`Table`, `UserService`, `ProductService`). CRUD over ORM tables
  kept in memory as sequences of rows in insertion order (a class per table), with
  `createdAt DESC` paging, `pages = ceil(total / limit)` and the password projection.

Everything outside the program is an input: the environment, the clock, the generated row ids, the
crypto libraries, what the HTTP transport answers, and how each broker call settles. An error the
JavaScript code would throw is an `Err` value, modelled with the name and message it would carry.

## Model

| member | source | states |
|---|---|---|
| ServiceRegistry.GetServiceEndpoint | shared/utils/serviceRegistry.js:35-41 | The service is checked before the endpoint, each with its own message; success holds exactly when both are registered, and then returns that service's URL and endpoint |
| ServiceRegistry.TableShape | shared/utils/serviceRegistry.js:4-33 | The table holds the three services, with 4, 3 and 4 endpoints (eleven in all) |
| ServiceRegistry.PathsUnderApi | shared/utils/serviceRegistry.js:9-29 | Every endpoint a lookup can return has a path starting with "/api/" |
| ServiceRegistry.UserByEmailEndpoint | shared/utils/serviceRegistry.js:12 | userService.getUserByEmail resolves to GET /api/users/by-email?email=:email under USER_SERVICE_URL |
| HttpClient.BuildUrl | shared/utils/httpClient.js:43-49 | The loop's result equals substituting each parameter in turn, each replacing the first occurrence of its placeholder |
| HttpClient.SubstitutedAbsent | shared/utils/httpClient.js:46-47 | Parameters whose placeholders are absent leave the URL unchanged, so nothing fails |
| HttpClient.SingleParamFirstOnly | shared/utils/httpClient.js:46 | A parameter replaces only the first occurrence of its placeholder; a later occurrence survives, shifted |
| HttpClient.Unwrap | shared/utils/httpClient.js:36 | A null or undefined body throws a TypeError; otherwise the result is the body's truthy `data`, or else the whole body, and never nullish |
| HttpClient.Request | shared/utils/httpClient.js:15-41 | A failed lookup is rethrown and nothing is sent; otherwise the call uses the endpoint's method, the substituted URL and the data. The headers are the caller's, plus the Internal token for the service on internal calls. The result is the transport's error or the unwrapped body |
| DataJoiner.Rows | shared/utils/dataJoiner.js:7 | A single record is joined as a one-element array |
| DataJoiner.JoinIdsSpec | shared/utils/dataJoiner.js:8 | The ids sent are exactly the records' truthy foreign keys, each once, in first-occurrence order |
| DataJoiner.TruthyKeysMembers | shared/utils/dataJoiner.js:8 | A value survives the map and filter exactly when it is truthy and some record holds it as its foreign key |
| DataJoiner.DistinctSpec | shared/utils/dataJoiner.js:8 | Spreading a Set keeps every value, without duplicates, in first-occurrence order |
| DataJoiner.GroupByKey | shared/utils/dataJoiner.js:18-25 | The loop fails exactly when some item is null or undefined; otherwise a key is in the map exactly when some item has it, and its group is those items in reply order |
| DataJoiner.MatchingMembers | shared/utils/dataJoiner.js:19-25 | A group holds exactly the reply items whose join key equals its key |
| DataJoiner.MatchingIsFilter | shared/utils/dataJoiner.js:19-25 | A group is no longer than the reply, and equals it exactly when every item has that key |
| DataJoiner.WithField | shared/utils/dataJoiner.js:27-30 | The spread copy gains field `as` holding the list and keeps every other field |
| DataJoiner.JoinData | shared/utils/dataJoiner.js:6-35 | No call is made exactly when there are no ids, and otherwise exactly one `{ids}` call. The output has one record per input, each being the input plus `as` = its matching reply items, or `[]` when the call failed or the reply is not an array of readable items |
| Jwt.Verify | shared/utils/authUtils.js:49-62 | Verification succeeds exactly for a decodable token signed with that secret whose expiry is still ahead, and then returns its payload; every failure is a JsonWebTokenError or a TokenExpiredError |
| Jwt.VerifySigned | services/auth-service/services/authService.js:59-65 | A signed token verifies exactly under its own secret, before its lifetime ends, and yields the signed payload |
| AuthUtils.SetAuthCookies | shared/utils/authUtils.js:5-18 | Appends the access and refresh cookie instructions, in that order, and changes nothing else on the response |
| AuthUtils.ClearAuthCookies | shared/utils/authUtils.js:20-23 | Appends the two clear instructions and changes nothing else |
| AuthUtils.AuthCookiesSet | shared/utils/authUtils.js:5-18 | The client then holds both tokens: httpOnly, sameSite strict, secure exactly in production, with lifetimes of 900000 and 604800000 ms; other cookies are untouched |
| AuthUtils.AuthCookiesCleared | shared/utils/authUtils.js:20-23 | Clearing removes exactly the two auth cookies |
| AuthUtils.SetThenClear | shared/utils/authUtils.js:5-23 | Setting then clearing leaves the client's other cookies exactly as they were |
| AuthUtils.Authenticate | shared/utils/authUtils.js:25-64 | No credential in the header or cookie gives 401 "Unauthorized". Otherwise the token is verified with its scheme's secret: failure gives 401 "Invalid or expired token", success records `userId` (Bearer) or `service` (Internal) |
| AuthUtils.InternalOnlyFromHeader | shared/utils/authUtils.js:39-43 | An Internal credential can only come from an "Internal" header, never from the cookie |
| AuthUtils.HeaderTakesPrecedence | shared/utils/authUtils.js:31-43 | When the header carries a credential, the cookies make no difference |
| AuthUtils.OtherPrefixIgnored | shared/utils/authUtils.js:31-37 | A header with another prefix counts as no header at all |
| AuthUtils.BearerHeaderParsed | shared/utils/authUtils.js:31-36 | "Bearer <t>" with a space-free token yields exactly (Bearer, t) |
| AuthUtils.HeaderSplits | shared/utils/authUtils.js:32 | Splitting "<prefix> <token>" on a space gives back the prefix and token when neither has a space |
| AuthUtils.InternalCallAdmitted | shared/utils/authUtils.js:53-55 | The header the HTTP client signs for an internal call is resolved as Internal, and verifies to `{service}` until its five minutes are up |
| AuthService.IssuedTokens | services/auth-service/services/authService.js:59-65 | The access token verifies only under JWT_SECRET, for 900 s; the refresh token verifies only under the refresh secret, for 604800 s; both carry exactly `{userId}` |
| AuthService.StripPassword | services/auth-service/services/authService.js:23 | An object loses exactly its `password` field and keeps the others; any other value is unchanged |
| AuthService.ToJsonView | services/auth-service/services/authService.js:22 | A parsed JSON user has no toJSON method, so a truthy `toJSON` field throws a TypeError; otherwise the user is used as is |
| AuthService.SessionFor | services/auth-service/services/authService.js:22-28 | The session user is the stripped user, and both tokens are issued for `user.id` |
| AuthService.Register | services/auth-service/services/authService.js:7-29 | Sends one internal POST to USER_SERVICE_URL/api/users carrying the hash in place of the password. The outcome is the transport's error or the session for the user returned |
| AuthService.Authorise | services/auth-service/services/authService.js:36-48 | No first user, or a failed compare, gives "Invalid credentials"; a stored password that is not a string is bcrypt's "Illegal arguments" error; otherwise the first user's session |
| AuthService.LoginSucceeds | services/auth-service/services/authService.js:36-48 | A successful login means the first user's stored password matched; the response has no password, and the tokens are issued for that user's id |
| AuthService.Login | services/auth-service/services/authService.js:31-49 | Sends one internal GET to the by-email URL with the email substituted and no data; the outcome is the transport's error or the login decision |
| AuthService.RefreshToken | services/auth-service/services/authService.js:51-57 | Succeeds exactly when the token verifies under the refresh secret (otherwise the verify error), and then gives a new pair for its `userId` |
| AuthService.RefreshKeepsUser | services/auth-service/services/authService.js:51-57 | An issued refresh token refreshes for the same user until seven days pass; the access token is refused |
| AuthController.TokensDeliveredOnce | services/auth-service/controllers/authController.js:15-24 | In cookie mode the tokens go only into the two cookies and the body holds just `user`; otherwise they go only into the body and no cookie is written |
| AuthController.RefreshDeliveredOnce | services/auth-service/controllers/authController.js:43-53 | In cookie mode a refresh answers `{}` and sets both cookies; otherwise both tokens are in the body and no cookie is written |
| AuthController.Register | services/auth-service/controllers/authController.js:6-25 | A failure is forwarded with nothing written; success writes 201 "User registered successfully", with the data and cookies per mode |
| AuthController.Login | services/auth-service/controllers/authController.js:27-37 | As register, keeping the default status, with "Login successful" |
| AuthController.Refresh | services/auth-service/controllers/authController.js:39-54 | The body's token is refreshed in both modes; the response follows the mode |
| AuthController.Logout | services/auth-service/controllers/authController.js:68-73 | Always answers "Logged out successfully" with `{}`, and clears the auth cookies only in cookie mode |
| ApiResponse.Success | shared/utils/responseFormatter.js:4-11 | A success envelope with the given data, message and status |
| ApiResponse.Error | shared/utils/responseFormatter.js:13-29 | A failure envelope with the message and status; `errors` is present exactly when given, even when empty |
| ApiResponse.Validation | shared/utils/responseFormatter.js:31-33 | 422 "Validation failed" carrying the reasons |
| ApiResponse.NotFound | shared/utils/responseFormatter.js:35-37 | A 404 failure without errors |
| ApiResponse.Unauthorized | shared/utils/responseFormatter.js:39-41 | A 401 failure without errors |
| ApiResponse.Forbidden | shared/utils/responseFormatter.js:43-45 | A 403 failure without errors |
| ApiResponse.Send | shared/middleware/errorHandler.js:26 | The HTTP status written is the body's statusCode |
| ApiResponse.Defaults | shared/utils/responseFormatter.js:4-45 | The default arguments: 200 "Success" with null data; 500 "Internal Server Error"; "Resource not found", "Unauthorized", "Forbidden" |
| ErrorHandler.ValidationItems | shared/middleware/errorHandler.js:21-24 | One `{field: path, message}` per ORM item, in order |
| ErrorHandler.UniqueItems | shared/middleware/errorHandler.js:31-34 | One `{field: path, message: "<value> already exists"}` per item, in order |
| ErrorHandler.HandleError | shared/middleware/errorHandler.js:6-54 | Each ORM error name gets its response (422 with items, 422 invalid reference, 404); anything else is 500 with its message, or "Server Error" when the message is empty. The status is always the body's, and never a success |
| ErrorHandler.StatusesAnswered | shared/middleware/errorHandler.js:19-53 | Only 404, 422 and 500 occur; 404 exactly for SequelizeEmptyResultError; `errors` is present exactly for the validation and unique errors |
| ErrorHandler.PlainNotFoundIs500 | shared/middleware/errorHandler.js:51-53 | The services' plain "User not found" / "Product not found" errors are answered 500 with their own message |
| Validation.DetailErrors | shared/middleware/validation.js:8-11 | One `{field: path joined by ".", message}` per detail, all of them, in order |
| Validation.Validate | shared/middleware/validation.js:3-19 | `next()` exactly when the schema reports no error; otherwise a 422 validation response over all the details |
| Validation.FieldNameSplits | shared/middleware/validation.js:9 | When no key contains a dot, the joined field name splits back into the path's segments |
| Validation.SplitOfJoin | shared/middleware/validation.js:9 | Splitting a join of separator-free parts gives back the parts |
| JsString.SplitJoin | shared/utils/authUtils.js:32 | The parts of a split contain no separator and join back to the string |
| JsString.SplitAfterPart | shared/utils/authUtils.js:32 | A separator after a separator-free prefix splits off exactly that prefix |
| JsString.IndexFrom | shared/utils/httpClient.js:46 | The first occurrence of the placeholder at or after the start, or none at all |
| JsString.ReplaceKeepsLaterOccurrence | shared/utils/httpClient.js:46 | Replacing the first occurrence keeps a later, non-overlapping occurrence, shifted by the length change |
| JsString.DecimalString | shared/middleware/validation.js:9 | An array index prints as a non-empty string of digits |
| Broker.TeardownCloses | services/user-service/config/rabbitmqPublisher.js:32-36 | `close()` completes exactly when nothing present is already closed. It closes everything present, never clears a field, and changes nothing else on the channel |
| Broker.TeardownOrder | services/user-service/config/rabbitmqPublisher.js:33-34 | If closing the channel throws, the connection is left as it was |
| Broker.TeardownTwice | services/user-service/config/rabbitmqPublisher.js:32-36 | Because the fields are not cleared, a second `close()` throws whenever something was there |
| RabbitPublisher.EventEnvelope | services/user-service/config/rabbitmqPublisher.js:27 | The envelope has exactly eventType, data and timestamp; the serialised form drops `data` when it is undefined |
| RabbitPublisher.PublishOnce | services/user-service/config/rabbitmqPublisher.js:22-30 | Publishing succeeds exactly on an open channel, adding exactly one message to user_events with routing key "" and nothing else; any failure leaves the channel unchanged |
| RabbitPublisher.PublishAfterClose | services/user-service/config/rabbitmqPublisher.js:22-36 | After a completed `close()`, publishing throws "Channel closed" |
| RabbitPublisher.Publisher.constructor | services/user-service/config/rabbitmqPublisher.js:5-8 | Both fields start null |
| RabbitPublisher.Publisher.Connect | services/user-service/config/rabbitmqPublisher.js:10-20 | The error of the first failing step is rethrown. Each field is set when its step returns; on success the open channel has the durable fanout user_events exchange |
| RabbitPublisher.Publisher.PublishEvent | services/user-service/config/rabbitmqPublisher.js:22-30 | The new channel and the outcome are those of Publish on the envelope; the connection is unchanged |
| RabbitPublisher.Publisher.Close | services/user-service/config/rabbitmqPublisher.js:32-36 | The outcome and the new fields are those of Teardown on the old fields |
| RabbitConsumer.FirstBound | services/user-service/config/rabbitmq.js:13-21 | The first attempt within 1..5 that binds its queue, with no success before it; none exactly when all five fail |
| RabbitConsumer.AttemptsMade | services/user-service/config/rabbitmq.js:13-26 | Between one and five attempts are made |
| RabbitConsumer.BoundChannel | services/user-service/config/rabbitmq.js:15-21 | After a successful connect the channel is open, with the durable fanout auth_events exchange, the exclusive queue and its binding, and nothing published or acknowledged |
| RabbitConsumer.DeliveredMembers | services/user-service/config/rabbitmq.js:37-40 | The messages handled are exactly the non-null deliveries |
| RabbitConsumer.CallbackThenAck | services/user-service/config/rabbitmq.js:36-41 | Each message is passed to the callback once and acknowledged right after it, in delivery order |
| RabbitConsumer.Consumer.constructor | services/user-service/config/rabbitmq.js:5-10 | Both fields start null |
| RabbitConsumer.Consumer.Connect | services/user-service/config/rabbitmq.js:12-30 | Returns the queue of the first binding attempt, or "Failed to connect to RabbitMQ after retries" after five failures. It waits 3000 ms before each retry, and the fields end as the attempts made leave them |
| RabbitConsumer.Consumer.ConsumeEvent | services/user-service/config/rabbitmq.js:32-43 | No channel gives "not initialized" and a closed one throws, with nothing done. Otherwise the consumer is registered, each delivered message goes to the callback and is then acknowledged, and the connection is unchanged |
| RabbitConsumer.Consumer.Close | services/user-service/config/rabbitmq.js:45-49 | The outcome and the new fields are those of Teardown on the old fields |
| Express.JarAppend | shared/utils/authUtils.js:5-23 | Cookie instructions applied in two batches have the same effect as applied all at once |
| Table.Find | services/user-service/services/userService.js:39-41 | `findByPk` returns a row with that id, and returns none exactly when no row has it |
| Table.Replace | services/user-service/services/userService.js:61 | Saving replaces the row with that id in place and leaves the others |
| Table.Remove | services/user-service/services/userService.js:81 | Destroying keeps exactly the rows with other ids |
| Table.RemoveOne | services/user-service/services/userService.js:75-82 | Destroying a present id in a table with unique keys removes exactly one row and keeps the keys unique |
| Table.AppendSpec | services/user-service/services/userService.js:5-12 | A row created under a new id keeps the keys unique, is found by its id, and every other id finds what it found before |
| Table.AppendKeepsUnique | services/user-service/models/User.js:12-15 | A row whose unique value no other row holds keeps the unique index valid |
| Table.ReplaceSpec | services/user-service/services/userService.js:55-61 | Saving over an existing id keeps the keys and the unique index valid, and the id then finds the saved row |
| Table.RemoveKeepsUnique | services/user-service/services/userService.js:81 | Destroying a row keeps a unique index valid |
| Table.RemovedNotFound | services/user-service/services/userService.js:81 | After destroying a row, its id is not found |
| Table.DuplicateAnswered | shared/middleware/errorHandler.js:30-37 | A unique-constraint error on the table is answered 422 "Validation failed" with the item "<value> already exists" |
| Table.InsertKeepsRows | services/user-service/services/userService.js:19 | Inserting into the ordered list adds exactly that row |
| Table.InsertKeepsOrder | services/user-service/services/userService.js:19 | Inserting keeps a newest-first list newest first |
| Table.SortSpec | services/user-service/services/userService.js:19 | Sorting by createdAt DESC yields a newest-first permutation of the rows |
| Table.Window | services/user-service/services/userService.js:17-18 | `limit` and `offset` give the rows at positions offset to offset+limit-1, as many as exist |
| Table.PageSpec | services/user-service/services/userService.js:16-21 | A page holds rows of the table, newest first, min(limit, rest) of them |
| Table.CeilDiv | services/user-service/services/userService.js:29 | The fewest pages of `limit` rows that hold all the rows |
| Table.Pages | services/user-service/services/userService.js:29 | `pages` is null (Infinity or NaN) exactly for a zero limit, and the ceiling otherwise |
| Table.PagesCover | services/user-service/services/userService.js:29 | With a positive limit every row is on the page at index `row / limit`, below `pages`, and no page below `pages` is empty |
| UserService.Inserted | services/user-service/models/User.js:41-44 | A created user takes the given columns, and `isActive` defaults to true |
| UserService.Profiles | services/user-service/services/userService.js:20 | Each listed user is its row without the password |
| UserService.Patched | services/user-service/services/userService.js:61 | Each field present in `updateData` is overwritten; every other field keeps its value |
| UserService.PatchIdempotent | services/user-service/services/userService.js:61 | The same update twice equals once, and an empty update changes nothing |
| UserService.Users.Create | services/user-service/services/userService.js:5-12 | Inserts and returns the row, password included. An id or email already present raises the unique-constraint error and inserts nothing; the unique keys are kept |
| UserService.Users.GetAll | services/user-service/services/userService.js:14-35 | The page is the rows newest first from `offset`, at most `limit` of them, without passwords, each a stored user. Also returns total = the row count and pages = ceil(total / limit) |
| UserService.Users.GetById | services/user-service/services/userService.js:37-51 | Succeeds exactly when the id exists, giving that row without its password; otherwise "User not found" |
| UserService.Users.Update | services/user-service/services/userService.js:53-71 | An absent id gives "User not found" and an email another row holds gives the unique error; neither changes the table. Otherwise only that row takes the patch, keeping its id and createdAt, and the reply leaves out the password the row keeps |
| UserService.Users.Delete | services/user-service/services/userService.js:73-86 | Removes exactly that row and confirms "User deleted successfully"; an absent id gives "User not found" and changes nothing |
| ProductService.Inserted | services/product-service/models/Product.js:33-56 | A created product takes the given columns; `stock` defaults to 0 and `isActive` to true |
| ProductService.Patched | services/product-service/services/productService.js:57 | Each field present in `updateData` is overwritten, including setting `description` to null; every other field keeps its value |
| ProductService.Products.Create | services/product-service/services/productService.js:4-11 | Inserts and returns the row for any `userId`; an id or sku already present raises the unique-constraint error and inserts nothing |
| ProductService.Products.GetAll | services/product-service/services/productService.js:13-33 | The page is the stored rows newest first from `offset`, at most `limit` of them. Also returns total = the row count and pages = ceil(total / limit), which is 0 for an empty table |
| ProductService.Products.GetById | services/product-service/services/productService.js:35-47 | Succeeds exactly when the id exists, giving that stored row; otherwise "Product not found" |
| ProductService.Products.Update | services/product-service/services/productService.js:49-62 | An absent id gives "Product not found" and a sku another row holds gives the unique error; neither changes the table. Otherwise only that row takes the patch and is returned as updated |
| ProductService.Products.Delete | services/product-service/services/productService.js:64-77 | Removes exactly that row and confirms "Product deleted successfully"; an absent id gives "Product not found" and changes nothing |

## Left out

- **Logging:** the `logger` calls. They are output only and change no state.
- **Network, timeouts, sleeping:** the network, the axios instance options (5000 ms timeout, 50 MB limit) and real sleeping are not modelled. What the transport answers and how each broker call settles are inputs. The consumer's waits are recorded as a list of delays.
- **Concurrency:** the interleaving of `async` operations. Each call is modelled as running to completion on its own.
- **Libraries:** the cryptography of `jsonwebtoken` and `bcryptjs`. Signing, decoding, hashing and comparing are uninterpreted functions.
- **Secrets:** the three secrets are assumed distinct, so a token signed with one does not verify under another.
- **Token times:** tokens carry only an expiry; `iat` and `nbf` are not modelled.
- **Channel errors:** a broker step that fails after the channel exists is taken to close the channel, as a channel-level error does in AMQP 0-9-1. Which errors close the connection as well is not modelled.
- HttpClient.BuildUrl: `String.prototype.replace` treats `$&`, `$1` and similar patterns in the replacement specially; the model inserts the value literally.
- **Parameter order:** `Object.entries` order is taken as the order of the `params` list.
- ServiceRegistry.GetServiceEndpoint: names such as `constructor` or `__proto__` reach `Object.prototype` in JavaScript; the model treats them as unknown.
- **Null inputs:** `getServiceEndpoint` with a service or endpoint name that is not a string is not modelled.
- DataJoiner.JoinData: `Map` compares objects by identity; the model compares all keys by value.
- DataJoiner.JoinData: every element of `mainData` is an object. A `null` or `undefined` element makes `item[foreignKey]` throw at dataJoiner.js:8, outside the `try`, so `joinData` rejects; the model has no such input. Primitive elements, which `{...item}` spreads differently, are not modelled either.
- **Consumer callbacks that throw:** in `consumeEvent` and the consume callback they are not modelled. The consumer's callback must return normally.
- **Numbers:** a JavaScript number is modelled as an unbounded integer (`Js.Num`). `NaN` (falsy, and equal to itself as a `Set` or `Map` key), fractions, `Infinity`, `-Infinity` and `-0` are not modelled. This matters for `TruthyKeys`, `Distinct` and the grouping in `joinData` only when a key is a number; the keys in this system are UUID strings.
- **User and product tables:** a table is a sequence of rows. These are not modelled:
  - the ORM validators (length, email and minimum checks);
  - `updatedAt`;
  - SQL itself;
  - which unique index is reported first when both clash. The model reports the primary key first.
- UserService.Users.GetAll: `limit` and `offset` are natural numbers. A non-numeric or negative query value, and `parseInt` of one, are not modelled.
- ProductService.Products.GetAll: `limit` and `offset` are natural numbers. A non-numeric or negative query value, and `parseInt` of one, are not modelled.
- **Ordering of equal timestamps:** rows created at the same instant keep table order; the database leaves their order open.
- **Price:** `price` (DECIMAL(10, 2)) is modelled as a whole number of hundredths.
- **Validation errors:** the Joi schemas themselves (authValidator.js and the others) are not part of this model. The schema's outcome is an input, and validated bodies reach the handlers as strings.
- **Request bodies:** `emailReset` and `passwordReset` call auth service functions that do not exist in authService.js, so they always throw and are not modelled. `asyncHandler`, which forwards the error to `next`, is modelled as the handler's `forwarded` result.
- **Not part of this model:**
  - the other route handlers, the controllers of the user and product services, and the snapshot models;
  - the gateway, the start-up scripts and the event handlers registered on the consumer.
- **Express model:** `Express.HttpResponse` models only what the auth code writes to the response: status, JSON body and cookie instructions. The cookie jar is a model of the client.
