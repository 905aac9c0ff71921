# nc-news backend: pagination window and error classification, in Dafny

This project models two pieces of decision logic from the nc-news HTTP backend. The datastore and the Express plumbing are stripped away.

- **The pagination calculator** (`getLimit`, module `Pagination`). It reads the raw `limit` and page query parameters. It answers "no limit", "error", or a window `{numPerPage, offset}`. `GetLimit` is an imperative method that follows the source's cascade: locals start at 0 and are bumped with `+=`, with an early "error" exit at each step. It is proved equal to `Paginate`. That is a reference definition that counts whole pages skipped, and the lemmas are about it.
- **The error classifier chain** (modules `HandlerChain`, `ErrorsControllers`, `ErrorHandling`). Each Express error handler is a function from an error record to an outcome. The outcome is either a response `(status, msg)` or `next(err)`. `HandlerChain.Run` runs a sequence of handlers in order. The lemmas there prove that the first responding handler decides the outcome. They also prove that, when no handler changes what it forwards, an error falls off the end exactly when nobody answers it, and falls off unchanged. `ErrorsControllers` holds the newer handlers. Their messages carry a status prefix, and they tell PostgreSQL foreign-key violations apart by constraint name. `ErrorHandling` holds the older handlers, with lemmas that relate them to the newer ones.

The SQLSTATE codes are those of Appendix A, "PostgreSQL Error Codes", of the PostgreSQL manual: `22P02` invalid_text_representation, `23503` foreign_key_violation, `23502` not_null_violation.

Modelling choices:

- A query parameter is `Absent | EmptyStr | Num(value) | NonNumeric`. Here `Num(n)` is a string whose JavaScript numeric value is the integer `n`. JavaScript's conversion is written out as `ToNumber`: `""` reads as 0, and `undefined` and non-numeric strings read as NaN. NaN fails every comparison. So an empty page string is an error (`+"" === 0`), while an empty limit string is the default of 10, because that test comes first.
- The default parameters `limit = false` and `page = 1` become `Absent`. `GetLimit` substitutes page 1 for an absent page, as the source does.
- JavaScript truthiness of `err.status` means the field is present and not 0. Truthiness of `err.msg` means it is present and not `""`.
- `app.js` wires only `getTopics` and the older `pathNotFound`, so the order of the error chains is modelled as an explicit sequence. The newer chain is `customError`, `badRequest`, `violatesForeignKeyConstraint`, `violatesNotNullConstraint`. The older one is `customError`, `badRequest`.
- The catch-all is an addition of the model. No source file defines a final error handler; in the running server Express's own default handler answers whatever is forwarded past the chain. `ErrorsControllers.CatchAll` closes the newer chain with status 500. Its message text, `"500: internal server error"`, is the model's choice. `App` is the classifying chain followed by `CatchAll`.

## Model

| member | source | states |
|---|---|---|
| Pagination.GetLimit | models/utils.js:1-28 | The calculator, run step by step with an omitted page defaulting to 1. It returns what `Paginate` prescribes for every input. |
| Pagination.ToNumber | models/utils.js:11-21 | JavaScript's numeric conversion of a parameter. It is an integer exactly for the empty string (0) and numeric strings (their value), and NaN otherwise. |
| Pagination.AbsentLimitIgnoresPage | models/utils.js:1-4 | An absent limit gives "no limit" for every page, invalid pages included. |
| Pagination.EmptyLimitDefaultSize | models/utils.js:9-10 | An empty limit gives a window exactly when the page is valid, and that window has 10 rows per page. |
| Pagination.NumericLimitAsGiven | models/utils.js:11-12 | A numeric limit `n >= 0` gives a window exactly when the page is valid, with `numPerPage == n`. |
| Pagination.ZeroLimitEmptyWindow | models/utils.js:11-12 | A limit of 0 with a valid page gives the empty window at offset 0, not an error. |
| Pagination.BadLimitIsError | models/utils.js:13-15 | A negative or non-numeric limit is an error whatever the page, because the page is never consulted. |
| Pagination.FirstPageAtStart | models/utils.js:21-22 | Page 1, or an omitted page, with a valid limit gives offset 0 and the limit's page size. |
| Pagination.LaterPageOffset | models/utils.js:19-20 | Page `p > 1` with a valid limit gives a window whose offset is `numPerPage * (p - 1)`. |
| Pagination.BadPageIsError | models/utils.js:23-25 | With a valid limit, an empty, non-numeric or below-1 page is an error. |
| Pagination.WindowOnPageBoundary | models/utils.js:17-27 | Every window's offset is a whole multiple of its page size; offsets are never negative, by their type. |
| Pagination.ConsecutivePagesAdjacent | models/utils.js:19-22 | Pages `p` and `p + 1` have the same size, and page `p + 1` starts where page `p` ends: no overlap and no gap. |
| Pagination.ThirdPageOfFive | models/utils.js:19-20 | `limit=5&p=3` skips 10 rows and takes 5. |
| HandlerChain.FirstResponderDecides | controllers/errors-controllers.js:5-35 | If every handler before `k` forwards the error itself and handler `k` responds, the chain's outcome is handler `k`'s response. |
| HandlerChain.RunForwardsUnchanged | controllers/errors-controllers.js:5-35 | In a chain of handlers that forward what they receive, the chain forwards exactly when every handler forwards, and then it forwards the original error. |
| HandlerChain.ResponseHasFirstResponder | controllers/errors-controllers.js:5-35 | In such a chain, every response is the response of some first responding handler. |
| ErrorsControllers.PathNotFound | controllers/errors-controllers.js:1-3 | Always responds 404 "404: path not found". |
| ErrorsControllers.CustomError | controllers/errors-controllers.js:5-10 | Responds exactly when status and msg are both truthy, with that status and msg. Otherwise it forwards the identical error. |
| ErrorsControllers.BadRequest | controllers/errors-controllers.js:12-18 | Responds exactly when the code is `22P02`, with 400 "400: bad request". Otherwise it forwards the identical error. |
| ErrorsControllers.ViolatesForeignKeyConstraint | controllers/errors-controllers.js:20-28 | Responds 404 "404: article does not exist" exactly for `23503` on `comments_article_id_fkey`. Responds 422 "422: username does not belong to a registered user" exactly for `23503` on `comments_author_fkey`. Forwards the identical error otherwise. |
| ErrorsControllers.ViolatesNotNullConstraint | controllers/errors-controllers.js:30-35 | Responds exactly when the code is `23502`, with 422 "422: required data missing". Otherwise it forwards the identical error. |
| ErrorsControllers.ChainTransparent | controllers/errors-controllers.js:5-35 | None of the four classifying handlers alters the error it forwards. |
| ErrorsControllers.ClassifyByPriority | controllers/errors-controllers.js:5-35 | The assembled chain agrees with one ordered match for every error: a pre-classified error first, then `22P02`, then the two foreign keys, then `23502`, else forwarded unchanged. |
| ErrorsControllers.PreClassifiedWins | controllers/errors-controllers.js:5-10 | An error with truthy status and msg gets exactly that response, whatever `code` it also carries. |
| ErrorsControllers.AppAlwaysResponds | controllers/errors-controllers.js:30-35 | With the catch-all after the chain, every error gets a response. Its status is the error's own, 400, 404, 422 or 500. |
| ErrorsControllers.UnrecognisedReachesCatchAll | controllers/errors-controllers.js:30-35 | An error that is not pre-classified and has none of the three codes gets the catch-all's 500. |
| ErrorsControllers.OtherForeignKeyForwarded | controllers/errors-controllers.js:27-27 | A `23503` on any other constraint, not pre-classified, is forwarded unchanged by the whole classifying chain. |
| ErrorsControllers.ForeignKeyDisambiguated | __tests__/app.test.js:334-383 | The same code `23503` gives 404 for the article key and 422 for the author key, and the two responses differ. |
| ErrorsControllers.InvalidIdIsBadRequest | __tests__/app.test.js:182-188 | A `22P02` error from a non-numeric id gets 400 "400: bad request". |
| ErrorsControllers.MissingFieldIsUnprocessable | __tests__/app.test.js:360-368 | A `23502` error from a missing required field gets 422 "422: required data missing". |
| ErrorsControllers.MissingArticleRejection | models/articles-models.js:5-7 | The `{status: 404, msg: "404: article does not exist"}` rejection is answered with exactly that. |
| ErrorHandling.PathNotFound | error-handling.js:1-3 | Always responds 404 "path not found". |
| ErrorHandling.CustomError | error-handling.js:5-10 | Responds exactly when status and msg are both truthy, with that status and msg. Otherwise it forwards the identical error. |
| ErrorHandling.BadRequest | error-handling.js:12-17 | Responds exactly when the code is `22P02`, with 400 "bad request". Otherwise it forwards the identical error. |
| ErrorHandling.PathNotFoundPrefixed | error-handling.js:1-3 | The newer not-found response has the same status, and its message is the older one behind "404: ". |
| ErrorHandling.CustomErrorUnchanged | error-handling.js:5-10 | The older and newer `customError` give the same outcome for every error. |
| ErrorHandling.BadRequestPrefixed | error-handling.js:12-17 | The older and newer `badRequest` respond to the same errors with status 400. The newer message is the older one behind "400: ". Both forward the same errors identically. |
| ErrorHandling.ChainClassifies | error-handling.js:5-17 | The older chain answers pre-classified errors with their own status and msg, and `22P02` with 400 "bad request". It forwards every other error unchanged. |
| ErrorHandling.ForeignKeyNotClassified | error-handling.js:12-17 | An author foreign-key violation falls through the older chain but gets 422 from the newer one. |

## Left out

- Fractional and infinite numbers. A limit or page such as `"2.5"` gives a fractional page size or offset in the source. A limit or page such as `"Infinity"` or `"1e400"` reads as Infinity there, so the source returns a window with an infinite size or offset. `Num` stands only for integer values, and `NonNumeric` only for strings that read as NaN; these strings are not modelled.
- Other JavaScript coercion corner cases. A whitespace-only limit string reads as 0. Express's query parser also yields an array for a repeated key (`?limit=5&limit=10`) and an object for bracket syntax (`?limit[a]=1`). Those values reach `limit >= 0`, `limit*1` and `+page` with coercions of their own. Only absent values and plain strings are modelled.
- Number width. JavaScript numbers are doubles, and a very large `numPerPage * (page - 1)` loses precision. The model uses unbounded integers.
- The use of `getLimit`'s result. No file here applies the window to rows or counts the total, and `selectAllArticles` takes no parameters. So slicing, `total_count` and the "no articles found" 404 are not modelled.
- The SQL text and the database calls in the models. They are query strings run by the PostgreSQL driver. The only logic around them, "no rows means reject with 404", enters the model as the pre-classified error of `ErrorsControllers.MissingArticleRejection`.
- Controllers, routers, `app.js` and the Express wiring. They only extract parameters, call promises and map results to `res.status().send()`. This includes the `Promise.all` in the comments controller.
- The endpoint description read by `models/api-models.js`. It is a file read plus `JSON.parse`.
- Logging and Express's default final handler. `ErrorsControllers.CatchAll` always answers 500, and that fixed status is the model's own choice. Express's default handler instead answers with `err.status` or `err.statusCode` when it is a 4xx or 5xx number. For example, a forwarded body-parser error `{status: 400, message}` without `msg` gets 400 from Express but 500 from the model. The catch-all's message text is also the model's own.
