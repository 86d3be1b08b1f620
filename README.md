# simple-todo: retry, error classification, task validation and keyboard shortcuts in Dafny

This project models the parts of the simple-todo task manager that hold logic of their own:

- **Retry and error handling** (`src/utils/error.ts`). The `AppError` taxonomy is a closed tagged union. Each subclass has a fixed code: network 1001, validation 3000, database 1002. A base `AppError` defaults to 500. The model covers the `errorCodes` table and the record that `logError` builds. It covers `handleApiError`, which normalises any thrown value into an `AppError` and then answers with a code, a user message, a `retryable` flag and, for validation errors only, the details. `withRetry` is an imperative method. It loops over attempts and rethrows at once on a validation error. After every attempt that is followed by another, it records the backoff delay. It is proved equal to a loop-free specification, and the promised properties are lemmas about that specification.
- **Task creation** (`POST /api/tasks` in `src/app/api/tasks/route.ts`). The request body is normalised first: empty values become `null` and the category id goes through `parseInt`. The result is checked against the route's zod schema. The outcome is 401 without a session and 400 with one `{field, message}` entry per violation. It is 500 for an unreadable body, a failing store, or a non-numeric user id (which the store is taken to reject), and otherwise the new task row handed to the store with `completed = false`. JavaScript truthiness, `String(x)` and `parseInt` are modelled in `js_values.dfy`, for field values that may also be arrays (`String` joins an array's elements with ","), with the round trip `parseInt(String(n)) == n`.
- **Keyboard shortcuts** (`src/hooks/useKeyboardShortcuts.ts`). The key-down handler ignores form fields. Otherwise it fires the first shortcut whose key matches the pressed key ignoring case and whose modifiers match the event's. `preventDefault` is called exactly when a shortcut fires. The help text has one entry per shortcut. Each entry lists the modifiers in the order Ctrl (⌘ on a Mac), Alt, Shift, then the key (one character upper-cased) and then the description.

Files: `wrappers.dfy` (Option, Result), `strings.dfy` (join, includes, ASCII case mapping), `errors.dfy`, `retry.dfy`, `js_values.dfy`, `task_route.dfy`, `keyboard_shortcuts.dfy`.

Parameters stand in for what the code reads from its environment:
- `withRetry`'s operation is a function from the attempt index to the outcome of that invocation.
- The zod ISO date-time check is a predicate `isDatetime`.
- `navigator.platform` is a string.
- The key event is a value.
- `logError`'s time stamp and request id are arguments.
- Whether the store accepts the new task is a boolean.

## Model

| member | source | states |
|---|---|---|
| `Errors.NewAppError` | src/utils/error.ts:20-30 | A base `AppError` keeps its message and details; its code is the one given, or 500 when none is given. |
| `Errors.NewNetworkError` | src/utils/error.ts:80-85 | A `NetworkError` always has code 1001 and defaults its message to "Network error occurred". The details given are kept unchanged, and with none given there are none. |
| `Errors.NewValidationError` | src/utils/error.ts:87-92 | A `ValidationError` always has code 3000 and defaults its message to "Validation error occurred". The details given are kept unchanged, and with none given there are none. |
| `Errors.NewDatabaseError` | src/utils/error.ts:94-99 | A `DatabaseError` always has code 1002 and defaults its message to "Database error occurred". The details given are kept unchanged, and with none given there are none. |
| `Errors.ConstructedCodesAreFixed` | src/utils/error.ts:32-40 | Every subclass instance carries its class's code from the `errorCodes` table, and the three subclass codes are pairwise distinct. |
| `Errors.LogRecordOf` | src/utils/error.ts:42-51 | The log record takes the error's own code, or 500 for an `Error` without one. It takes the error's own details, and none for an `Error` without them. It keeps the message, the user id, the time stamp and the request id. |
| `Errors.Normalize` | src/utils/error.ts:150-158 | An `AppError` is kept as it is. Another `Error` becomes a base `AppError` with code 1000 and the same message. Any other value becomes code 1000 with "An unknown error occurred". |
| `Errors.HandleApiError` | src/utils/error.ts:149-190 | `retryable` holds exactly for network and database errors. Details are returned only for validation errors, and for them always. The returned code is the normalised error's code and equals the logged code. A non-`AppError` always yields code 1000, not retryable. |
| `Errors.ValidationDetailsReturned` | src/utils/error.ts:87-92 | The details given to `new ValidationError(message, details)` are the details `handleApiError` returns for it, with code 3000. |
| `Errors.MessagesByClass` | src/utils/error.ts:164-189 | The user message depends only on the error's class, and the four classes get four different messages. |
| `Retry.MergeOptions` | src/utils/error.ts:107-117 | Options merge field by field: each given field wins, and each omitted field takes its default (3 attempts, backoff on, 1000 ms). |
| `Retry.MergeGivenOptions` | src/utils/error.ts:117 | When all three options are given, none of the defaults survives. |
| `Retry.FirstStop` | src/utils/error.ts:120-129 | Finds the first attempt that ends the retrying, because it succeeds or throws a validation error. Every earlier attempt failed with another error. |
| `Retry.WithRetry` | src/utils/error.ts:113-147 | The loop's result, invocation count and recorded delays equal the loop-free specification `RetrySpec` for the merged options. |
| `Retry.AlwaysFailing` | src/utils/error.ts:120-134 | An operation that always fails with a non-validation error is invoked exactly `maxRetries` times. The last attempt's error is rethrown, after `maxRetries - 1` delays. |
| `Retry.ValidationStopsAtOnce` | src/utils/error.ts:123-129 | A validation error at attempt k is rethrown at once. There are k + 1 invocations and no delay after that attempt. |
| `Retry.SuccessIsReturned` | src/utils/error.ts:120-122 | A success at attempt k is returned. The operation is not invoked again, and k + 1 ≤ `maxRetries`. |
| `Retry.NoAttempts` | src/utils/error.ts:118-146 | With `maxRetries ≤ 0` the operation is never invoked and `undefined` is thrown. |
| `Retry.RunShape` | src/utils/error.ts:120-142 | Every run makes 1 to `maxRetries` invocations and waits one delay fewer than it invokes. Delay i is `initialDelay * 2^i` with backoff and `initialDelay` without. A rethrown non-validation error means every attempt was used. |
| `Retry.BackoffDoubles` | src/utils/error.ts:137-139 | With backoff each delay is twice the previous one. Without backoff every delay is `initialDelay`. |
| `Retry.DefaultRun` | src/utils/error.ts:107-111 | With all options omitted, an always-failing operation runs 3 times and waits 1000 ms, then 2000 ms. |
| `JsValues.IntToStringRoundTrip` | src/app/api/tasks/route.ts:60 | `parseInt` reads back the decimal rendering of every integer. |
| `JsValues.ParseIntNumber` | src/app/api/tasks/route.ts:60 | `parseInt` returns a numeric argument unchanged. |
| `JsValues.ParseIntStopsAtNonDigit` | src/app/api/tasks/route.ts:60 | For any leading white space, optional sign, non-empty run of decimal digits and any rest whose first character is not a digit (and that does not make a `0x` prefix), `parseInt` gives the signed value of the digit run and ignores the rest. |
| `JsValues.ParseIntHex` | src/app/api/tasks/route.ts:60 | For any leading white space, optional sign, `0x` or `0X` prefix, run of hexadecimal digits and rest not starting with one, `parseInt` gives the signed base-16 value of the run, and `NaN` when the run is empty. |
| `JsValues.ParseIntNoDigits` | src/app/api/tasks/route.ts:60 | For any leading white space and optional sign, `parseInt` gives `NaN` when the next character is not a decimal digit (or the string ends there). |
| `JsValues.ParseIntSingletonArray` | src/app/api/tasks/route.ts:60 | An array holding one number is read by `parseInt` as that number, because `String([n])` is `String(n)`. |
| `TaskRoute.Normalize` | src/app/api/tasks/route.ts:55-61 | The title is untouched. A falsy description becomes `null`. A priority or due date of `""` becomes `null`, and other values pass unchanged. A falsy category id becomes `null`, and any other goes through `parseInt`. |
| `TaskRoute.NumericCategoryKept` | src/app/api/tasks/route.ts:60 | A non-zero numeric category id survives normalisation unchanged. |
| `TaskRoute.ArrayCategoryId` | src/app/api/tasks/route.ts:60 | A category id given as a one-number array such as `[7]` is truthy and normalises to that number. |
| `TaskRoute.Validate` | src/app/api/tasks/route.ts:8-14 | The schema accepts exactly when the title is a string of 1 to 255 characters, and each optional field is absent, `null` or of its type: priority HIGH/MEDIUM/LOW, due date a date-time, category id a number. An accepted task carries the checked fields: the title, the description and due date strings, the priority the string names, and the category id number. A rejection lists at least one violation. |
| `TaskRoute.ViolationsEmptyIff` | src/app/api/tasks/route.ts:8-14 | The list of violations is empty exactly when the body satisfies every rule of the schema. |
| `TaskRoute.ViolationFields` | src/app/api/tasks/route.ts:9-11 | Every violation names one top-level field. The title is named exactly when it is not a string of 1 to 255 characters. The priority is named exactly when it is set to something other than HIGH/MEDIUM/LOW. |
| `TaskRoute.DetailsOf` | src/app/api/tasks/route.ts:82-85 | There is one `{field, message}` entry per violation, in order. `field` is the violation's path joined with "." and `message` is its message. |
| `TaskRoute.Post` | src/app/api/tasks/route.ts:45-99 | No session gives 401, and nothing else does. A 400 comes exactly from a readable body that breaks the schema and carries its violations. A created task passed the schema, has `completed = false` and belongs to the session user's numeric id. A valid body with a numeric user id and a working store is always created. |
| `TaskRoute.Status` | src/app/api/tasks/route.ts:49-97 | Each response kind has its own status: 401, 400, 500 or 200. |
| `TaskRoute.BadRequestDetails` | src/app/api/tasks/route.ts:81-92 | A rejected body gets status 400 and one entry per violation. Each entry names a schema field, and the title is listed exactly when it breaks its rule. |
| `TaskRoute.EmptyTitleRejected` | src/app/api/tasks/route.ts:9 | An empty title is answered with 400. The first entry is `title` with the route's "required" message. |
| `KeyboardShortcuts.FindMatch` | src/hooks/useKeyboardShortcuts.ts:28-34 | Returns the index of the first shortcut that matches the event, and no shortcut before it matches. Returns nothing when none matches. |
| `KeyboardShortcuts.HandleKeyDown` | src/hooks/useKeyboardShortcuts.ts:18-40 | Events in input, textarea or select elements are ignored. Otherwise a shortcut fires, with `preventDefault`, exactly when one matches. It is the first match in list order. |
| `KeyboardShortcuts.CaseAndMetaInsensitive` | src/hooks/useKeyboardShortcuts.ts:30-33 | Changing only the letter case of the key, or pressing Meta instead of Ctrl, fires the same shortcut. |
| `KeyboardShortcuts.KeyLabel` | src/hooks/useKeyboardShortcuts.ts:55-57 | A one-character key is shown upper-cased, and a longer key name is shown unchanged. Either way the label equals the key ignoring case. |
| `KeyboardShortcuts.LabelTriggersShortcut` | src/hooks/useKeyboardShortcuts.ts:28-57 | Pressing the key shown in the help text, with the shortcut's modifiers, matches that shortcut. |
| `KeyboardShortcuts.HelpText` | src/hooks/useKeyboardShortcuts.ts:47-61 | There is one help entry per shortcut, in list order. |
| `KeyboardShortcuts.HelpEntrySpelledOut` | src/hooks/useKeyboardShortcuts.ts:49-60 | Each entry starts with every set modifier followed by " + ", in the order Ctrl (⌘ when the platform names a Mac), Alt, Shift. Then come the key label, ": " and the description. |

## Left out

- JsValues.IntToString: `String(n)` writes a number of magnitude 10^21 or more in exponent notation (`1e+21`), so `parseInt` of such a number reads only its leading digit. The model renders every integer in plain decimal, so `IntToStringRoundTrip` and `ParseIntNumber` hold for that rendering and do not capture this.
- JavaScript numbers are integers here. A fractional or non-finite `maxRetries` or `initialDelay`, fractional JSON numbers and precision loss above 2^53 are not modelled.
- An option key given explicitly as `undefined` overrides its default under the object spread. Here an omitted key and an `undefined` key are the same.
- The wait itself (`setTimeout`) is not modelled. The delay is recorded instead of slept.
- Time stamps, request ids (`uuidv4`), the stack trace, and the `NODE_ENV`-gated console output and `fetch` to the log endpoint in `logError` are left out. They are clock, randomness and I/O.
- `ErrorDetails` keeps its three named keys. The open index signature is not modelled.
- Errors.LogRecordOf: a `code` or `details` property whose value is not a number or a details object is not modelled. The model's own code is an integer and its own details are a details object.
- `request.json()` failures and a JSON `null` body, which throws when its fields are read, both count as an unreadable body (500). A non-object JSON body such as a number or an array is not modelled.
- zod's ISO date-time check is the parameter `isDatetime`. zod's other messages are written as zod v3 formats them.
- String length is counted in Unicode scalar values. JavaScript counts UTF-16 code units, so a title with characters outside the Basic Multilingual Plane is measured differently.
- `toLowerCase`/`toUpperCase` map ASCII letters only. `parseInt` skips the ASCII white space plus no-break space, byte-order mark and line/paragraph separators, but not the other Unicode space separators.
- TaskRoute.Post: a session user id that `parseInt` reads as `NaN` gives 500 on the assumption that the store rejects a task whose `userId` is `NaN`; the store's behaviour is not part of this model.
- The Prisma calls, next-auth session lookup and user-id storage are not part of this model. The store's answer is a boolean, and the session is a value.
- Listener registration and the calling of shortcut handlers are not modelled. A fired shortcut is named by its index in the list.
