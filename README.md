# yii2-api core, modelled in Dafny

This project models the core of `buddysoft/yii2-api`, a Yii2 extension that gives REST and
plain controllers one JSON response protocol. It is a model of that core, with its
properties proved.

- **The envelope.** Every action answers with `{code, message[, data]}`, where `code` is 0 on
  success and negative on failure. The legacy controller answers with
  `{status, msg[, data]}` instead.
- **Response helpers.** `ResponseTrait` builds the envelope for each outcome. `exit` supplies
  "成功" for an empty message and adds `data` only for a non-empty payload.
- **Object lookup.** `ActionTrait` resolves an object from a request parameter. A numeric id
  (PHP `is_numeric`) is looked up by primary key and any other id by the `sid` column.
  `ActionTrait` also reads and injects request parameters, builds results over private
  fields, and tests results with `objectOk` and `isSuccess`.
- **Collection keys.** `ActionTool` derives the key a model's data is stored under: the class
  name without namespace, lower-cased, and pluralised on request.
- **Controller.** `ActiveController` wraps collection results (`items`) into the envelope with
  a count. It applies or disables paging, refuses updates of another user's records, and
  turns a missing-parameter exception into a code -1 envelope.
- **View and create actions.** `ViewAction` and `CreateAction` return a single model under
  its singular key.
- **Error formatting.** `ExceptionFormatter` rewrites the framework's error bodies for HTTP
  400/401/403/404 into the envelope, and resets the status to 200.

PHP values are a datatype (`PhpValue.Value`). PHP 8 truthiness, loose `==` and `is_numeric`
are written out over it, because the source branches on them everywhere: `$x ? … : …`,
`empty`, `== null` and `is_numeric($objectId)`.

The request, the response, the result builder, the data provider and the create action are
classes. Their fields are updated in place by methods with `modifies` clauses. Everything
else is a function. The record store behind `findOne` is a value (`Store.Store`).

## Where the documentation and the code differ (the model follows the code)

- **Collection key case.** The doc comment of `collectionNameForModel` promises `'User'` for
  `common\models\User`, but the code lower-cases the name and yields `user`
  (`ActionTool.CollectionNameOfQualifiedClass`).
- **`_mergeMessage` with two empty parts.** It returns the context itself (null when null),
  not an empty string.
- **Empty messages become "成功".** `failedWithWrongParam()` with no context, and
  `failedWithPrivilege('0')`, report the message "成功". `exit` replaces every falsy message,
  `'0'` included.
- **Parameter name vs collection key.** `shortClassName` only lowers the first letter
  (`payType`), while the collection key lowers everything (`paytype`). The two agree exactly
  when the class name has no capital after its first letter
  (`ActionTrait.ShortNameVersusCollectionKey`).
- **Numeric ids.** Ids are classified with PHP's `is_numeric`, not an integer pattern, so
  `" 12"`, `"1.5"` and `"1e3"` are looked up by primary key.

## Model

| member | source | states |
|---|---|---|
| PhpString.Lowercase | actions/ActionTool.php:31 | `strtolower`: same length, each character lowered, no capital left |
| PhpString.LcFirst | actions/ActionTrait.php:226 | `lcfirst`: only the first character is lowered, the rest is kept |
| PhpString.LcFirstVersusLowercase | actions/ActionTrait.php:226 | `lcfirst` and `strtolower` agree iff no capital follows the first character |
| PhpString.LowercaseAfterLcFirst | actions/ActionTrait.php:224-227 | lowering the whole of an `lcfirst` result equals lowering the original |
| PhpString.Explode | actions/ActionTool.php:29 | `explode` gives at least one part and no part contains the separator |
| PhpString.ImplodeExplode | actions/ActionTool.php:29 | joining the parts of `explode` with the separator gives the string back |
| PhpString.ExplodeLastIsSuffix | actions/ActionTool.php:29-30 | the popped last part is the suffix after the last separator; it is the whole string iff there is no separator |
| PhpString.DigitsAreNumeric | actions/ActionTrait.php:75 | a non-empty run of digits is numeric for `is_numeric` and denotes its decimal value |
| PhpValue.LooseEqualsSymmetric | controllers/ActiveController.php:153 | PHP loose comparison does not depend on operand order |
| PhpValue.LooselyNull | actions/ActionTrait.php:261 | `$v == null` holds exactly for falsy values other than `"0"` |
| PhpValue.FirstErrors | actions/CreateAction.php:30 | `getFirstErrors`: every entry is an attribute with messages paired with its first message; non-empty whenever any attribute has a message; one attribute gives exactly its own entry or none |
| PhpValue.FirstErrorsConcat | actions/CreateAction.php:30 | the first errors of two runs of attributes are those of the first run followed by those of the second (so the order follows the attributes) |
| PhpValue.FirstErrorsComplete | actions/CreateAction.php:30 | every attribute with messages contributes its first message |
| Http.Request.Get | actions/ActionTrait.php:272-274 | a query parameter is its value, or null when absent |
| Http.Request.Post | actions/ActionTrait.php:268-270 | a body parameter is its value, or null when absent |
| Store.FindOne | actions/ActionTrait.php:76 | `findOne($id)` finds a record exactly when the key is in the primary-key index |
| Store.FindOneBySid | actions/ActionTrait.php:78 | `findOne(['sid' => $id])` finds a record exactly when the sid is indexed |
| Store.AsValue | actions/CreateAction.php:37 | a lookup result is null exactly when nothing was found, otherwise the object |
| ApiController.CodesDistinct | controllers/ApiController.php:9-15 | the seven response codes are pairwise distinct and all failure codes are negative |
| ApiController.MakeDataMessage | controllers/ApiController.php:25-33 | keys are `status` and `msg`, plus `data` exactly when the payload is truthy |
| ApiController.ExitWithCode | controllers/ApiController.php:53-67 | the response body becomes the legacy message; the status code is unchanged |
| ApiController.ExitWithInvalidParam | controllers/ApiController.php:69-71 | code -1 with the message, or "参数错误" for an empty one, and no data |
| ApiController.ExitWithSuccess | controllers/ApiController.php:73-75 | the body is exactly the `{status: 0, msg: "操作成功"[, data]}` message, data present exactly for a truthy payload |
| ApiController.ExitWithErrorData | controllers/ApiController.php:103-105 | code -100 and the payload wrapped as `{data: payload}`, present even for null |
| ApiController.ValidationError | controllers/ApiController.php:113-114 | the first message of the first attribute in error, none when there are no errors |
| ApiController.ExitWithValidationError | controllers/ApiController.php:112-116 | code -5 with that first message (null when none) |
| ApiController.CheckSecret | controllers/ApiController.php:125-133 | true only when `accessSecret` is configured and loosely equals the secret |
| ApiController.CheckSecretAcceptsConfigured | controllers/ApiController.php:125-133 | a secret loosely equal to the configured one (the configured one itself included) is accepted; nothing is accepted when none is configured |
| ActionTool.LastSegment | actions/ActionTool.php:29-30 | the class name after the last backslash: a suffix with no backslash, preceded by one when shorter |
| ActionTool.CollectionNameForModel | actions/ActionTool.php:27-38 | without an inflector, the key is that segment lowered character by character; with one, the inflector applied to that singular key |
| ActionTool.CollectionNameWithoutNamespace | actions/ActionTool.php:27-38 | a class name without namespace gives itself lower-cased |
| ActionTool.CollectionNameIdempotent | actions/ActionTool.php:27-38 | the singular key is a fixed point of the function |
| ActionTool.LastSegmentAfterSeparator | actions/ActionTool.php:29-30 | for `namespace\Name` the segment is exactly `Name` |
| ActionTool.CollectionNameOfQualifiedClass | actions/ActionTool.php:23-38 | for `namespace\Name` the key is `Name` lower-cased (not `Name` as the doc comment says) |
| ActionTool.MakeErrorSummary | actions/ActionTool.php:40-44 | the first message of the first attribute that has one; none iff no attribute has a message |
| ActionTool.FirstErrorsHead | actions/ActionTool.php:42-43 | the head of `getFirstErrors()` belongs to the first attribute with messages |
| ResponseTrait.MessageText | actions/ResponseTrait.php:97 | the message when truthy, otherwise "成功"; never falsy |
| ResponseTrait.Exit | actions/ResponseTrait.php:94-105 | keys `code` and `message`, plus `data` exactly for a non-empty payload array |
| ResponseTrait.MergeMessage | actions/ResponseTrait.php:143-151 | the context when the category is empty, the category when the context is empty, else "category -> context" |
| ResponseTrait.MergeMessageTruthy | actions/ResponseTrait.php:143-151 | the merge is non-empty iff one part is, and starts with a non-empty category |
| ResponseTrait.FailedWithWrongParam | actions/ResponseTrait.php:14-16 | the code -1 envelope with the context as message |
| ResponseTrait.FailedWhenSaveModel | actions/ResponseTrait.php:26-34 | code -100, "保存 <class> 对象 -> <context or 保存失败：><first error>" |
| ResponseTrait.FailedWhenDeleteModel | actions/ResponseTrait.php:43-51 | code -100, "删除 <class> 对象 -> <context or 删除失败：><first error>" |
| ResponseTrait.FailedWithExceedLimit | actions/ResponseTrait.php:56-58 | the limit code with "超过限制", followed by " -> context" when there is one |
| ResponseTrait.FailedWithReason | actions/ResponseTrait.php:65-67 | the given status (default -100) with the reason as message |
| ResponseTrait.Success | actions/ResponseTrait.php:72-74 | code 0 with the context or "成功", no data |
| ResponseTrait.SuccessWithObject | actions/ResponseTrait.php:82-84 | code 0, "成功" whatever the context, data `{object: obj}` |
| ResponseTrait.SuccessWithData | actions/ResponseTrait.php:116-119 | code 0 with the payload as data when non-empty |
| ResponseTrait.FailedWithPrivilege | actions/ResponseTrait.php:126-129 | code -2; null and "" become "没有权限" |
| ResponseTrait.FailedWithNotExist | actions/ResponseTrait.php:131-133 | code -4 with "对象不存在" |
| ExceptionFormatter.Translation | behaviors/ExceptionFormatter.php:56-68 | 400 → -1 with its message, 401 → -2 fixed text, 403 → -2 with its message, 404 → -4 fixed text, other statuses none |
| ExceptionFormatter.Formatted | behaviors/ExceptionFormatter.php:33-82 | a 200 response, a body without `status` or an unmapped status stay as they are; otherwise status 200 and exactly `{code, message}` |
| ExceptionFormatter.FormattedIdempotent | behaviors/ExceptionFormatter.php:33-82 | formatting a formatted response changes nothing |
| ExceptionFormatter.BeforeSendResponse | behaviors/ExceptionFormatter.php:33-50 | the response's status and body afterwards are `Formatted` of the old ones |
| ExceptionFormatter.FormatExceptionData | behaviors/ExceptionFormatter.php:52-82 | the body is replaced and the status set to 200 exactly for a mapped status |
| ActionTrait.Returns | actions/ActionTrait.php:42-57 | `status` and `msg` always, `object` iff it is truthy, `items` iff it is an array |
| ActionTrait.ResultBuilder.constructor | actions/ActionTrait.php:23-26 | the fields start at 0, '', null, null |
| ActionTrait.ResultBuilder.SetObject | actions/ActionTrait.php:28-30 | sets the object, nothing else changes |
| ActionTrait.ResultBuilder.SetItems | actions/ActionTrait.php:32-34 | sets the items, nothing else changes |
| ActionTrait.ResultBuilder.SetReturns | actions/ActionTrait.php:36-40 | sets status and message, nothing else changes |
| ActionTrait.ResultBuilder.MakeReturns | actions/ActionTrait.php:42-57 | content of two or more elements first replaces status and message; the result is `Returns` of the fields |
| ActionTrait.LookupIdOrSid | actions/ActionTrait.php:75-79 | a numeric id is looked up by primary key, any other by `sid` |
| ActionTrait.LookupStrategy | actions/ActionTrait.php:187-194 | a numeric id never consults the sid index, a non-numeric id never the primary key |
| ActionTrait.ObjectWithId | actions/ActionTrait.php:69-85 | null for a null id, the object when found, else code -1 "<param> 目标对象不存在" |
| ActionTrait.ObjectOk | actions/ActionTrait.php:155-161 | `objectOk`: true for an object, false for null and for arrays (error envelopes) |
| ActionTrait.ObjectWithIdOk | actions/ActionTrait.php:155-161 | `objectOk` of the result iff an id was given and a record matches |
| ActionTrait.FailedWithResult | actions/ActionTrait.php:260-266 | a result `== null` becomes code -1 "缺少 <param> 参数", anything else passes through |
| ActionTrait.IsSuccess | actions/ActionTrait.php:325-331 | `isSuccess` iff the `code` entry is the integer 0; the string `"0"` is not a success |
| ActionTrait.ExitSuccessIff | actions/ActionTrait.php:325-331 | `isSuccess` of an `exit` envelope iff its code is 0 |
| ActionTrait.ResolutionThroughFailedWithResult | actions/ActionTrait.php:260-266 | resolution then `failedWithResult` gives the object, or a non-success code -1 with the missing or not-found message |
| ActionTrait.GetGet | actions/ActionTrait.php:98-105 | throws "[GET]缺少 <key> 参数" iff strict and the value is `== null`, else returns the value |
| ActionTrait.GetPost | actions/ActionTrait.php:108-115 | throws "[POST]缺少 <key> 参数" iff strict and the value is `== null`, else returns the value |
| ActionTrait.ObjectWithGetParam | actions/ActionTrait.php:126-130 | exactly `_objectWithId` of the query parameter: null without it, the found object, or code -1 "<param> 目标对象不存在" |
| ActionTrait.ObjectWithPostParam | actions/ActionTrait.php:142-146 | exactly `_objectWithId` of the body parameter: null without it, the found object, or code -1 "<param> 目标对象不存在" |
| ActionTrait.RequestParam | actions/ActionTrait.php:172-181 | POST, PUT and PATCH read the body, other methods the query string |
| ActionTrait.ResolveId | actions/ActionTrait.php:183-196 | null for a missing id; an object exactly when the id resolves by primary key or sid, and then that record |
| ActionTrait.ObjectWithParam | actions/ActionTrait.php:170-197 | the id is read from the body for POST, PUT and PATCH and from the query otherwise, then resolved |
| ActionTrait.ShortClassName | actions/ActionTrait.php:222-227 | `lcfirst` of the segment after the last backslash: first letter lowered, the rest kept; lowering it gives the collection key |
| ActionTrait.ShortNameVersusCollectionKey | actions/ActionTrait.php:217-227 | short name and collection key agree iff no capital follows the first letter |
| ActionTrait.PayTypeNames | actions/ActionTrait.php:217 | `frontend\models\PayType` gives the short name `payType` and the collection key `paytype` |
| ActionTrait.ClassicObjectWithParam | actions/ActionTrait.php:209-214 | an object iff the `<shortName>Sid` parameter resolves, otherwise null |
| ActionTrait.UpdatedParams | actions/ActionTrait.php:308-316 | only the parameters of the request's kind change, gaining the new keys |
| ActionTrait.ReadAfterUpdate | actions/ActionTrait.php:308-316 | after an update a merged key reads its new value, any other key its old one |
| ActionTrait.UpdateQueryParam | actions/ActionTrait.php:279-286 | query parameters become old merged with new, the body is unchanged |
| ActionTrait.UpdateRequestBody | actions/ActionTrait.php:293-300 | body parameters become old merged with new, the query is unchanged |
| ActionTrait.UpdateParams | actions/ActionTrait.php:308-316 | the request's parameters become `UpdatedParams` of the old ones |
| ActionTrait.ObjectParamUpdate | actions/ActionTrait.php:236-249 | found iff the `<shortName>Sid` parameter resolves; then `<shortName>Id => id` is merged into the parameters of the request's kind, otherwise nothing changes |
| ActionTrait.UpdateObjectParam | actions/ActionTrait.php:236-249 | the result and the request's new parameters are `ObjectParamUpdate` of the old request |
| ActiveController.AfterAction | controllers/ActiveController.php:95-116 | a result with `items` becomes a success "查询成功" with `count` and the items under the plural key; others pass through |
| ActiveController.AfterActionIdempotent | controllers/ActiveController.php:95-116 | wrapping a wrapped result changes nothing |
| ActiveController.PreparePagination | controllers/ActiveController.php:124-143 | numeric `pageSize`/`page` are applied; with neither, pagination is switched off; a paging parameter on a provider whose pagination is off fails and changes nothing |
| ActiveController.CheckAccess | controllers/ActiveController.php:150-157 | forbidden iff an update of a model whose `kuserId` is set and loosely differs from the user |
| ActiveController.OwnerMayUpdate | controllers/ActiveController.php:150-157 | the owner of a record is never refused |
| ActiveController.RunAction | controllers/ActiveController.php:79-86 | a `WrongParamException` becomes the code -1 envelope with its message; all else passes |
| ActiveController.MissingStrictParamBecomesEnvelope | controllers/ActiveController.php:76-85 | a strict `getGet` of a missing key ends as code -1 "[GET]缺少 <key> 参数" |
| ActiveController.ForbiddenRequest | controllers/ActiveController.php:171-176 | a 403 exception with the message, or "禁止访问不属于自己的数据" when empty |
| ViewAction.Run | actions/ViewAction.php:17-31 | not found → code -1 "对象不存在"; a refusing access check throws; else `{key: model}` under the singular key |
| ViewAction.ViewSucceedsIff | actions/ViewAction.php:17-31 | success iff the model exists and access is granted; the data then has one lower-case key holding the model |
| ViewAction.NoAccessCheckWithoutModel | actions/ViewAction.php:20-26 | without a model the access check is not consulted |
| CreateAction.CreateResponse | actions/CreateAction.php:24-47 | errors → code -1 with the encoded first errors; else code 0 with the re-read record under the singular key |
| CreateAction.CreateSucceedsIff | actions/CreateAction.php:28-46 | success iff the model has no errors, and the data then has the same single key a view uses |
| CreateAction.CreateAction.constructor | actions/CreateAction.php:15 | `newObject` starts null |
| CreateAction.CreateAction.Run | actions/CreateAction.php:24-47 | returns `CreateResponse`; `newObject` becomes the re-read record, untouched on errors |

## Left out

- **Framework I/O.** The framework's request and response objects, the database and
  `Yii::$app->end()` are not modelled. Requests and responses are classes holding only the
  fields the core touches. `findOne` is the `Store` value, and the database's coercion of
  ids to column types is folded into its maps. `exitWithCode` therefore only sets the
  response body.
- **Callers not shown.** `behaviors()`, `actions()` and `events()` of the controllers are
  configuration. The other REST actions (index, update, delete) and `ModelTrait` are not
  part of this model. `ViewAction.Run` takes the looked-up model as a parameter.
- **`ApiController.exitWithError`.** It depends on PHP `defined`/`constant` over global
  constants and on `print_r`, which are not modelled.
- **Framework functions as parameters.** `Inflector::pluralize`, `Json::encode` and the
  configured `checkAccess` callable are function parameters. Their results are whatever
  these functions give.
- **Exception rendering.** The framework's own rendering of thrown HTTP exceptions into a
  `{name, message, code, status}` body is not modelled. `ExceptionFormatter` starts from
  such a body.
- **Array key order.** PHP arrays are ordered; the model's maps and sequences are not, so
  key order in an envelope is not captured. An empty list and an empty map are both PHP
  `[]`; here they are distinct values, though both are falsy.
- **LooseEquals numeric strings.** Strings in integer form compare as integers. Float and
  exponent forms (`"1.0" == "1"`) compare as text, and floats are not modelled.
- **ActionTrait.UpdateQueryParam, UpdateRequestBody and UpdatedParams.** `ArrayHelper::merge`
  merges nested arrays recursively and appends integer keys. The model uses flat key
  override, which matches the source for string-keyed scalar parameters.
- **ActiveController.PreparePagination.** The pagination setters cast `pageSize` and `page`
  to int. The model stores the numeric value
  as given.
- **ActiveController.CheckAccess.** The current user id is a parameter, instead of
  `Yii::$app->user->id`.
- ActionTrait.ResultBuilder.MakeReturns: the content array is taken as a list, and its first
  two elements are required to be an int and a string. Without `strict_types`, PHP coerces
  scalars at the typed `_setReturns` (`['1', 2]` sets status 1 and message "2"); that coercion
  is not modelled.
- ActionTrait.ShortClassName: `ReflectionClass::getShortName` is modelled as the text after
  the last backslash. The `ReflectionException` for a class that does not exist, and the
  class's declared letter case, are not captured.
- PhpValue.LooseEquals: arrays and objects compare structurally. PHP compares arrays
  element by element with loose `==` (`[1] == ["1"]` holds in PHP, not in the model).
- **`badRequest`.** It only throws a `BadRequestHttpException`; that exception is the
  `Http.Exception` constructor `BadRequest`, and no member wraps the one-line throw.
- ApiController.CODE_EXCESS_LIMIT: the constant is used by `failedWithExceedLimit` but is not
  defined in the controller, so its value is left unspecified. As written,
  `failedWithExceedLimit` raises PHP's "Undefined constant" Error; ResponseTrait.FailedWithExceedLimit
  models the envelope it evidently intends, not that Error.
- ActiveController.AfterAction: requires the `items` entry to be an array. On any other value
  PHP 8's `count()` throws a TypeError, which is not modelled; the serializer envelope and
  `_makeReturns` only ever put an array there.
- **ExceptionFormatter.BeforeSendResponse.** The model assumes that `Yii::$app->response` is
  the event's sender, so resetting the status and rewriting the body act on one response.
