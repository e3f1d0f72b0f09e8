# Task API core, modelled in Dafny

This project models the request-handling core of a small task-management HTTP API
written in TypeScript on Express:

- **the in-memory task store** (`TaskService`): a list of task records addressed by
  position. `createTask` appends `{...body, completed: body.completed ?? false}`.
  `updateTask` replaces position `id` with `{...task, ...updates}`. `deleteTask` splices
  position `id` out, so every later task moves down one;
- **the task routes** (`TaskController`): the two body validators, the
  `parseInt(id, 10)`/`isNaN` guard on the `:id` parameter, and the four handlers with
  the statuses and bodies they answer;
- **the shared helpers** (`src/utils.ts`): `DBErrorMessage` and `validateNewTask`;
- **the auth middleware** (`AuthMiddleware.initialize`): it takes the token from the
  `token` cookie or the `Authorization` header (first `"Bearer "` removed), verifies it
  and then answers 401, attaches the payload and calls `next`, or does neither.

Request bodies are JSON values (`Js.Json`). A stored task is the map of its own
properties, `map<string, Json>`, so an object spread is Dafny's right-biased map union
and extra body keys pass through as the code lets them. The JavaScript built-ins the core
relies on are modelled in `Js.dfy` as ECMA-262 defines them:

- truthiness, `??` and own-property spread (an array spreads to index keys `"0"`, `"1"`, …);
- `parseInt(s, 10)` (section 19.2.5);
- `String.prototype.replace` with a string pattern (section 22.1.3.19);
- `Error.prototype.toString` (section 20.5.3.4).

Files: `Wrappers.dfy` (Option, Result), `Js.dfy`, `Http.dfy` (status and body of a
reply), `Services.dfy`, `Controllers.dfy`, `Utils.dfy`, `Middleware.dfy`.

The handlers are methods of `Controllers.TaskController`, which owns a
`Services.TaskService`. Each state-changing method states its new state through
`Services.AfterUpdate` / `Services.AfterDelete`. The controller keeps an invariant: every
stored task has a string `title`, a string `color` and a `completed` field.
`jwt.verify` is the parameter `verify: string -> Option<Json>`. It gives `None` where
the library throws and the decoded payload otherwise.

Where the API's documented intent and the code differ, the model follows the code:

- `title` and `color` may be empty strings;
- no task gets an `id` or an owner, and there is no `GET /tasks/:id`;
- `PUT` answers the bare merged task, and it answers 400, not 404, for a missing position;
- deleting the same id twice succeeds both times whenever a later task has shifted into
  that position (`Services.DeleteTwice`);
- the middleware is not mounted in front of the task routes, so it is modelled on its own.

## Model

| member | source | states |
|---|---|---|
| `Js.Coalesce` | src/services/task.service.ts:18 | `x ?? d` is `x` unless `x` is absent or null, then `d` |
| `Js.Props` | src/services/task.service.ts:17 | the spread copies an object's fields; an array's elements go under their index keys; null, booleans and numbers give nothing |
| `Js.IndexedAt` | src/services/task.service.ts:29 | spreading an array puts element `i` under the key `Decimal(i)` |
| `Js.Member` | src/controllers/task.controller.ts:108 | `key in data` / `data.key`: an object's own field; an array has no non-numeric key except `length` |
| `Js.LeadingDigits` | src/controllers/task.controller.ts:72 | the longest prefix made of decimal digits: the next character, if any, is not a digit |
| `Js.ParseInt` | src/controllers/task.controller.ts:72-73 | `parseInt(s, 10)` is NaN exactly when no digit follows the leading whitespace and an optional sign |
| `Js.ParseIntOfNumeral` | src/controllers/task.controller.ts:72 | whitespace, then nothing, "-" or "+", then a digit run and a non-digit tail parse to the value of the digit run, negated only after "-" ("  007abc" is 7, "+7" is 7, "-3" is -3) |
| `Js.ParseIntOfDecimal` | src/controllers/task.controller.ts:72 | the decimal form of every index parses back to that index |
| `Js.RemoveFirst` | src/middleware/auth.middleware.ts:22 | `s.replace(pat, "")` leaves `s` unchanged when `pat` does not occur; otherwise it is `s` with the first occurrence cut out, the text before it followed by the text after it |
| `Js.RemoveFirstOfPrefix` | src/middleware/auth.middleware.ts:22 | a pattern at the start is the occurrence removed: `(pat + t).replace(pat, "")` is `t` |
| `Js.ErrorToString` | src/utils.ts:4 | `e.toString()` is the message when the name is empty, the name when the message is empty, and otherwise the name, then ": ", then the message |
| `Services.Created` | src/services/task.service.ts:16-19 | the created record has every input field; `completed` is kept verbatim unless absent or null, then `false` |
| `Services.Merged` | src/services/task.service.ts:29 | `{...task, ...updates}`: fields in `updates` win, absent fields keep their old value, no field is dropped |
| `Services.AfterUpdate` | src/services/task.service.ts:24-30 | an out-of-range position leaves the list as it was; otherwise only that position changes, to the merged record, and the length stays |
| `Services.AfterDelete` | src/services/task.service.ts:33-38 | an out-of-range position leaves the list as it was; otherwise the length drops by one, earlier tasks stay, and each later task moves to the position before |
| `Services.TaskService.constructor` | src/services/task.service.ts:9 | the store starts empty |
| `Services.TaskService.GetAll` | src/services/task.service.ts:11-13 | returns the tasks in position order |
| `Services.TaskService.CreateTask` | src/services/task.service.ts:15-21 | appends exactly the created record, which it returns; the earlier tasks are unchanged |
| `Services.TaskService.UpdateTask` | src/services/task.service.ts:24-31 | at a valid position, stores and returns the merged record; otherwise throws "Task not found" and leaves the store unchanged |
| `Services.TaskService.DeleteTask` | src/services/task.service.ts:33-39 | at a valid position, splices it out; otherwise throws "Task not found" and leaves the store unchanged |
| `Services.MergedIdempotent` | src/services/task.service.ts:29 | merging the same updates twice gives the record of merging them once |
| `Services.UpdateIdempotent` | src/services/task.service.ts:29 | applying the same update twice at the same position leaves the same list as applying it once |
| `Services.UpdateKeepsUnnamedFields` | src/services/task.service.ts:29 | a field the update does not name (title, color) keeps its value |
| `Services.DeleteTwice` | src/services/task.service.ts:33-38 | a second delete at the same position succeeds exactly when a later task shifted into it, and then it removes that task |
| `Controllers.ValidateNewTaskInput` | src/controllers/task.controller.ts:104-116 | accepts exactly objects with string `title` and `color` and returns them unchanged; a non-object gives "No Data…", a bad title (any array) "…title" before color is looked at, then "…color" |
| `Controllers.ValidateUpdateTaskInput` | src/controllers/task.controller.ts:117-128 | accepts exactly objects and arrays whose `title`/`color`, where present, are strings, and returns them unchanged; every array passes |
| `Controllers.CompletedNotInspected` | src/controllers/task.controller.ts:117-128 | whether an update body passes does not depend on its `completed` field |
| `Controllers.ValidatorsAgree` | src/controllers/task.controller.ts:104-116 | the controller's validator and utils' `validateNewTask` give the same result on every body |
| `Controllers.CreatedIsStored` | src/controllers/task.controller.ts:52-54 | an accepted create body becomes a task with string title and color and a `completed` field |
| `Controllers.MergedIsStored` | src/controllers/task.controller.ts:78-81 | merging an accepted update body into such a task keeps title and color strings and `completed` present |
| `Controllers.TasksJson` | src/controllers/task.controller.ts:37-40 | the JSON array sent lists each task as an object, in position order |
| `Controllers.TaskController.constructor` | src/controllers/task.controller.ts:12-15 | the controller owns a fresh, empty task service |
| `Controllers.TaskController.GetAllTasks` | src/controllers/task.controller.ts:31-44 | 200 with `{success: true, data}`, the tasks in position order; nothing changes |
| `Controllers.TaskController.CreateTask` | src/controllers/task.controller.ts:46-65 | a rejected body gets 400 `{success: false, error}` and the store is unchanged; an accepted one is appended and answered 201 `{success: true, data}` |
| `Controllers.TaskController.UpdateTask` | src/controllers/task.controller.ts:67-86 | an id without leading digits gets 400 "Invalid task ID", and so do a rejected body or out-of-range position (400 `{error}`), all leaving the store unchanged; otherwise the merged task is stored and sent bare with 200 |
| `Controllers.TaskController.DeleteTask` | src/controllers/task.controller.ts:88-102 | an id without leading digits gets 400 "Invalid task ID"; an out-of-range position gets 404 and the store is unchanged; otherwise the task is spliced out and the answer is 204 with no body |
| `Utils.ReportFor` | src/utils.ts:4-11 | "TASKS NOT FOUND" gives 404 with the missing-task message, "DB Error" gives 500 "try again later", anything else 500 "Unknown Error"; the code is always 404 or 500 |
| `Utils.NoTasksFoundIsUnknown` | src/utils.ts:5-6 | the missing-task message the db layer throws, "NO TASKS FOUND", falls to the default 500 |
| `Utils.DBErrorMessage` | src/utils.ts:3-12 | an error with both a name and a message always maps to 500 "Unknown Error" |
| `Utils.NewErrorsAreUnknown` | src/utils.ts:3-12 | every `new Error(message)` maps to 500 "Unknown Error" |
| `Utils.DBErrorMessageByMessage` | src/utils.ts:3-12 | corrected mapping: 404 exactly for the message "NO TASKS FOUND", 500 "try again later" for "DB Error", otherwise 500 "Unknown Error" |
| `Utils.DbErrorsReported` | src/utils.ts:3-12 | under the corrected mapping, the db layer's two errors get 404 missing-task and 500 "try again later" |
| `Utils.ValidateNewTask` | src/utils.ts:14-26 | checks object, then title, then color; accepts exactly objects with string title and color and returns them unchanged |
| `Middleware.ExtractToken` | src/middleware/auth.middleware.ts:16-23 | a non-empty cookie is the token; otherwise a non-empty header with its first "Bearer " removed is; there is no token exactly when neither cookie nor header is non-empty |
| `Middleware.HeaderToken` | src/middleware/auth.middleware.ts:22 | with no usable cookie, "Bearer t" gives `t`, and a header without "Bearer " is used verbatim |
| `Middleware.Authenticate` | src/middleware/auth.middleware.ts:15-44 | 401 "No token provided" exactly when there is no cookie or header; 401 "Invalid or expired token" exactly when verification fails; it proceeds with the decoded payload exactly when that payload has a truthy `userId`; every rejection is 401 |
| `Middleware.CookieTakesPrecedence` | src/middleware/auth.middleware.ts:16-17 | with a usable cookie the Authorization header does not affect the outcome |
| `Middleware.Exchange.constructor` | src/middleware/auth.middleware.ts:10-14 | a request with the given cookie and header, no user yet, nothing written, `next` not called |
| `Middleware.Initialize` | src/middleware/auth.middleware.ts:10-44 | writes one 401 reply and leaves `request.user` alone, or sets `request.user` to the payload and calls `next` once, or does neither; never more than one of these |

## Findings

| source | as written | input that shows it | evidently intended | confidence | as-written member | corrected member |
|---|---|---|---|---|---|---|
| src/utils.ts:4 | the `switch` runs on `e.toString()`, which for `new Error(msg)` is `"Error: " + msg` | `new Error("DB Error")` maps to 500 "Unknown Error has occured", not the "try again later" message | switch on the error's message | high (Error.prototype.toString, section 20.5.3.4 of ECMA-262); not executed | `Utils.NewErrorsAreUnknown` | `Utils.DBErrorMessageByMessage` |
| src/utils.ts:5 | the not-found case label is "TASKS NOT FOUND" | the db layer throws `new Error("NO TASKS FOUND")` (src/db.ts:41, 67, 80), which maps to 500 | the db layer's missing-task error maps to 404, as its comments say | medium; not executed | `Utils.NoTasksFoundIsUnknown` | `Utils.DBErrorMessageByMessage` |

## Left out

- src/db.ts, src/services/user.service.ts and src/controllers/auth.controller.ts are not
  part of this model. They are thin wrappers around the database client, bcrypt and
  `jwt.sign`, and the task routes do not use them.
- src/app.ts, src/server.ts, prisma/seed.ts and express.d.ts are not part of this model.
  They hold Express wiring, CORS, the listener and shutdown, a seeding script and a type
  declaration.
- `jwt.verify` is a parameter. Signature and expiry checking are not modelled.
- The wire form of an error reply is not modelled. An `Error` serialises to `{}` in
  `res.json`; `Http.ErrorReply` keeps the error's message instead.
- The order of keys in JSON objects is not modelled, because records are maps.
- Asynchrony is not modelled; every call runs to completion in order.
- Aliasing is not modelled: `getAll` returns the live array, while the model returns a copy of the list. The handler serialises it at once.
- `Js.ParseInt`: the result is an exact integer. JavaScript rounds numerals above 2^53, and
  they stay far beyond any list length. `-0` is 0, which is the index JavaScript uses for it.
- `Middleware.ExtractToken`: cookie and header values are strings. cookie-parser's
  `j:`-prefixed JSON cookies are not modelled.
- `Js.Member`: only own properties and an array's `length` are modelled. The keys the
  core asks for (`title`, `color`, `userId`) are not defined on the prototypes.
- `Controllers.TaskController.GetAllTasks`: its `catch` (400) is not modelled, because
  `getAll` never throws.
- `Middleware.Initialize`: a `next()` that throws synchronously is not modelled. Express
  catches errors from the next handler itself.
