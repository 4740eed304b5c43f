# SvelteKit example apps: server state and request handling

This project models the server-side logic of two SvelteKit example applications and proves
properties about it in Dafny 4.11:

- the **todo app** page (`load` and the form actions `create`, `toggle`, `delete` and `clearDone`),
  which share a module-level `todos` list and a `nextId` counter;
- the **cart store** (`CartState` with `items`, the sums `total` and `count`, and `add`, `remove`,
  `updateQuantity` and `clear`);
- the **feedback board** (a name-then-message validation chain, append under a fresh id, delete by id);
- the **memo API** (`GET` with an optional substring query, `POST` with trim-and-length validation);
- the **server hooks**: the session map, `createSession`/`deleteSession`, and `handle`, which
  resolves the user from the `session` cookie and redirects anonymous `/dashboard` requests to `/login`;
- the **login page**: `load`, and the action that checks credentials against the constant user table.

State that the source keeps in module-level variables or object fields is a Dafny `class`. Its
methods change that state, and their `ensures` clauses give the new state in terms of the old.
The todo list, the feedback board, the memo store and the cart each have a `Valid()`
invariant that every method keeps. For the todo list and the feedback board, ids are unique and
below the counter. For the memo store, ids are unique and below the counter, and every stored
text is trimmed. For the cart, ids are unique and quantities are at least 1. The session store
has no invariant: any token may map to any user. Decisions that only read state are functions:
the feedback validation `Check`, `handle`, the credential lookup and the login page `load`. The
todo and memo validation stays inline in `TodoList.Create` and `MemoStore.Post`, as in the source. Framework primitives become plain values: form
fields are `Option<string>` (`None` for a missing field), `fail(...)`, `json(...)`, a redirect
and a `Response` are result datatypes, and the random UUID and the timestamp are parameters.

`Lists.dfy` holds what the handlers share: `findIndex` on a key, `splice(i, 1)`, `filter`, and the
integer sums behind `reduce`. `Text.dfy` holds JavaScript's `trim`, `includes` and `startsWith`.
`trim` removes the ECMAScript WhiteSpace and LineTerminator code points.

Three behaviours of the code worth noting:

- `handle` treats an empty cookie value as no token. Its test `token && sessions.has(token)` is
  false for `""`, even when `""` is a key.
- Todo `create` echoes the trimmed text on failure, not the raw input.
- Feedback names and messages are stored untrimmed, and their lengths are checked untrimmed.

## Model

| member | source | states |
|---|---|---|
| TodoApp.TodoList.constructor | examples/todo-app/src/routes/+page.server.ts:10-16 | the server starts with the four seed todos and `nextId` 5, and the id invariant holds |
| TodoApp.TodoList.Load | examples/todo-app/src/routes/+page.server.ts:18-20 | `load` returns a list equal to the current todos and changes nothing |
| TodoApp.TodoList.Create | examples/todo-app/src/routes/+page.server.ts:23-31 | a missing text or trimmed text shorter than 2 gives 400 with the trimmed text echoed, and `todos`/`nextId` are unchanged; otherwise exactly one todo `{old nextId, trimmed text, done false}` is appended and `nextId` grows by 1; ids stay unique and below `nextId` |
| TodoApp.Toggled | examples/todo-app/src/routes/+page.server.ts:35-36 | after `toggle(id)` the list has the same length, ids and texts; `done` is negated at exactly the first index with that id, and nowhere when the id is absent |
| TodoApp.TodoList.Toggle | examples/todo-app/src/routes/+page.server.ts:32-38 | the action changes the list exactly as `Toggled` says and keeps `nextId` and the invariant |
| TodoApp.ToggleInvolution | examples/todo-app/src/routes/+page.server.ts:36 | toggling the same id twice restores the original list |
| TodoApp.TodoList.Delete | examples/todo-app/src/routes/+page.server.ts:39-45 | removes the first todo with the id (find then splice); because ids are unique, the result is exactly the todos with another id, in order; an absent id changes nothing |
| TodoApp.TodoList.ClearDone | examples/todo-app/src/routes/+page.server.ts:46-53 | the collect-ids-then-delete loop leaves exactly the undone todos in their original order |
| TodoApp.ClearStep | examples/todo-app/src/routes/+page.server.ts:48-51 | one loop round (findIndex and splice of the next done id) equals filtering out one more id |
| TodoApp.DoneIdsMarkDone | examples/todo-app/src/routes/+page.server.ts:47 | with unique ids, a todo's id is among the collected done ids exactly when the todo is done |
| TodoApp.SeedClearDone | examples/todo-app/src/routes/+page.server.ts:10-15 | `clearDone` on the seed list leaves the todos with ids 3 and 4 |
| Cart.CartState.constructor | examples/basic-app/src/lib/stores/cart.svelte.ts:6 | the cart starts empty |
| Cart.CartState.Add | examples/basic-app/src/lib/stores/cart.svelte.ts:15-19 | a present id gets quantity + 1 and nothing else changes; a new id is appended as `{product, quantity 1}`; `count` grows by exactly 1 and `total` by the item's price; unique ids and quantities of at least 1 are kept |
| Cart.BumpValid | examples/basic-app/src/lib/stores/cart.svelte.ts:17 | raising one item's quantity by 1 keeps ids unique and quantities at least 1 |
| Cart.BumpSums | examples/basic-app/src/lib/stores/cart.svelte.ts:16-17 | raising one item's quantity by 1 keeps the cart valid, adds 1 to `count` and adds that item's price to `total` |
| Cart.AppendSums | examples/basic-app/src/lib/stores/cart.svelte.ts:18 | appending a new id at quantity 1 keeps the cart valid, adds 1 to `count` and adds the price to `total` |
| Cart.CartState.Remove | examples/basic-app/src/lib/stores/cart.svelte.ts:21 | keeps exactly the items whose id differs, in order; `total` drops by exactly the removed item's `price * quantity` and `count` by its quantity |
| Cart.RemoveSums | examples/basic-app/src/lib/stores/cart.svelte.ts:8-13 | in a valid cart, filtering out an id lowers the `price * quantity` sum and the quantity sum by that item's terms, and by nothing when the id is absent |
| Cart.RemoveValid | examples/basic-app/src/lib/stores/cart.svelte.ts:21 | after `remove` the cart is still valid and the id is gone |
| Cart.CartState.UpdateQuantity | examples/basic-app/src/lib/stores/cart.svelte.ts:23-26 | an absent id changes nothing; `qty <= 0` behaves as `remove(id)`; `qty > 0` sets that item's quantity only |
| Cart.CartState.Clear | examples/basic-app/src/lib/stores/cart.svelte.ts:28 | the items are empty, and `count` and `total` are 0 |
| Cart.CartState.Total | examples/basic-app/src/lib/stores/cart.svelte.ts:8-10 | the `total` getter is the `price * quantity` sum over the items, and is never negative when prices and quantities are not |
| Cart.CartState.Count | examples/basic-app/src/lib/stores/cart.svelte.ts:11-13 | the `count` getter is the quantity sum over the items, and is at least the number of items when every quantity is at least 1 |
| Feedback.Check | examples/basic-app/src/routes/feedback/+page.server.ts:21-22 | the name error is reported exactly when the name is missing or shorter than 2, whatever the message is; the message error exactly when the name passes and the message is missing or shorter than 5; otherwise the entry is accepted |
| Feedback.Board.constructor | examples/basic-app/src/routes/feedback/+page.server.ts:6-9 | starts with the one seed entry and `nextId` 2 |
| Feedback.Board.Load | examples/basic-app/src/routes/feedback/+page.server.ts:11-13 | returns a list equal to the current entries |
| Feedback.Board.Create | examples/basic-app/src/routes/feedback/+page.server.ts:16-25 | a refused submission gives 400 with name, message and rating echoed, and the list is unchanged; an accepted one appends `{old nextId, name, message, rating}` as given and increments `nextId`; ids stay unique and below `nextId` |
| Feedback.Board.Delete | examples/basic-app/src/routes/feedback/+page.server.ts:26-31 | removes the first entry with the id and keeps the rest in order; that is every entry with another id; an absent id changes nothing |
| Memos.MemoStore.constructor | examples/basic-app/src/routes/api/memos/+server.ts:6-10 | starts with the two seed memos and `nextId` 3; the seed texts are trimmed |
| Memos.MemoStore.Get | examples/basic-app/src/routes/api/memos/+server.ts:12-16 | an absent or empty `q` returns all memos; otherwise exactly the memos whose text contains `q` at some position, in stored order; `total` is the number returned; no state changes |
| Memos.MemoStore.Post | examples/basic-app/src/routes/api/memos/+server.ts:18-26 | a missing text or trimmed text shorter than 2 gives 400 and changes nothing; otherwise one memo `{old nextId, trimmed text, createdAt}` is appended, `nextId` is incremented and 201 is answered with that memo |
| Memos.StoredTextsTrimmed | examples/basic-app/src/routes/api/memos/+server.ts:23 | every stored memo text is already trimmed, so trimming it again changes nothing |
| Text.Trim | examples/basic-app/src/routes/api/memos/+server.ts:20 | the result of `trim` has no white space at either end and is no longer than the input |
| Text.TrimIsInfix | examples/basic-app/src/routes/api/memos/+server.ts:23 | `trim` returns an infix of its input and cuts off only white space before and after it |
| Text.TrimOfTrimmed | examples/basic-app/src/routes/api/memos/+server.ts:23 | trimming a string without white space at either end returns it unchanged |
| Text.TrimIdempotent | examples/todo-app/src/routes/+page.server.ts:25 | `trim` is idempotent |
| Text.TrimField | examples/todo-app/src/routes/+page.server.ts:25 | `field?.trim()` is absent exactly when the field is absent, and otherwise is `trim` of the field's value, which is trimmed |
| Text.StartsWith | examples/basic-app/src/hooks.server.ts:9 | `startsWith(p)` holds exactly when `p` is no longer than the string and agrees with it character by character |
| Text.Includes | examples/basic-app/src/routes/api/memos/+server.ts:14 | `includes(q)` holds for the empty query and whenever the string starts with `q`, and only when `q` is no longer than the string |
| Text.IncludesIff | examples/basic-app/src/routes/api/memos/+server.ts:14 | `includes(q)` holds exactly when `q` occurs at some position of the text |
| Lists.FirstIndex | examples/todo-app/src/routes/+page.server.ts:42 | `findIndex` gives -1 exactly when no element has the key, and otherwise the smallest index with that key |
| Lists.FirstIndexByKeys | examples/todo-app/src/routes/+page.server.ts:35 | `find`/`findIndex` by id depends only on the sequence of ids |
| Lists.DeleteFirst | examples/todo-app/src/routes/+page.server.ts:42-43 | find-then-splice leaves the list unchanged when no element has the key; otherwise it is one element shorter and has lost exactly the first element with the key |
| Lists.RemoveAt | examples/todo-app/src/routes/+page.server.ts:43 | `splice(i, 1)` shortens the list by one, keeps the elements before `i` and moves those after it down by one |
| Lists.Filter | examples/basic-app/src/lib/stores/cart.svelte.ts:21 | `filter` returns exactly the elements that pass, and is no longer than its input |
| Lists.FilterExt | examples/todo-app/src/routes/+page.server.ts:47-51 | a filter depends only on what its predicate says about the elements present |
| Lists.FilterFilter | examples/todo-app/src/routes/+page.server.ts:48-51 | filtering twice equals filtering once by the conjunction |
| Lists.FilterAll | examples/todo-app/src/routes/+page.server.ts:43 | a filter every element passes returns the list unchanged |
| Lists.FilterUnique | examples/basic-app/src/lib/stores/cart.svelte.ts:21 | filtering keeps ids unique |
| Lists.FilterKeys | examples/basic-app/src/routes/feedback/+page.server.ts:28-29 | filtering keeps ids unique and below the counter |
| Lists.AppendFresh | examples/basic-app/src/routes/feedback/+page.server.ts:23 | appending under `nextId` and incrementing it keeps ids unique and below the counter |
| Lists.SameKeySame | examples/todo-app/src/routes/+page.server.ts:47-49 | with unique ids, two list elements with the same id are the same element |
| Lists.DeleteFirstIsFilter | examples/todo-app/src/routes/+page.server.ts:42-43 | with unique ids, find-then-splice of an id equals keeping every element with another id |
| Lists.Sum | examples/basic-app/src/lib/stores/cart.svelte.ts:9 | the `reduce` sum of terms that are never negative is never negative |
| Lists.SumAppend | examples/basic-app/src/lib/stores/cart.svelte.ts:18 | appending adds the new element's term to the `reduce` sum |
| Lists.SumUpdate | examples/basic-app/src/lib/stores/cart.svelte.ts:17 | replacing one element changes the sum by the difference of the two terms |
| Lists.SumFilterOut | examples/basic-app/src/lib/stores/cart.svelte.ts:9 | with unique ids, filtering out an id lowers the sum by exactly that element's term |
| Lists.SumAtLeastLength | examples/basic-app/src/lib/stores/cart.svelte.ts:12 | a sum of terms that are each at least 1 is at least the length |
| Sessions.ResolveUser | examples/basic-app/src/hooks.server.ts:6-7 | the user is `sessions[token]` exactly when a non-empty token is present and is a key, and no user otherwise |
| Sessions.Handle | examples/basic-app/src/hooks.server.ts:5-14 | a 302 to `/login` is answered exactly when the path starts with `/dashboard` and no user is resolved; every other request goes to `resolve` with the resolved user |
| Sessions.HandleLocal | examples/basic-app/src/hooks.server.ts:7 | `handle` depends only on the map entry for the request's own token |
| Sessions.DeletedTokenIsAnonymous | examples/basic-app/src/hooks.server.ts:22-24 | after `deleteSession(t)`, a request carrying `t` has no user and is redirected on `/dashboard` paths |
| Sessions.CreatedTokenResolves | examples/basic-app/src/hooks.server.ts:16-19 | after `createSession(user)` returns `t`, a request carrying `t` resolves to `user` and is passed on |
| Sessions.SessionStore.constructor | examples/basic-app/src/hooks.server.ts:3 | the session map starts empty |
| Sessions.SessionStore.CreateSession | examples/basic-app/src/hooks.server.ts:16-20 | returns the token, which now maps to the user; every other entry is unchanged |
| Sessions.SessionStore.DeleteSession | examples/basic-app/src/hooks.server.ts:22-24 | removes that key only; deleting an absent token changes nothing |
| Login.FindUser | examples/basic-app/src/routes/login/+page.server.ts:19 | a user is found exactly when some table entry matches both email and password, and the one returned is the first such entry |
| Login.OnlyKnownCredentials | examples/basic-app/src/routes/login/+page.server.ts:5-7 | with the built-in table, login succeeds exactly for `hong@test.com` / `password123` |
| Login.Load | examples/basic-app/src/routes/login/+page.server.ts:9-12 | the page redirects (302) to `/dashboard` exactly when a user is resolved, and otherwise returns the empty record |
| Login.Submit | examples/basic-app/src/routes/login/+page.server.ts:15-24 | bad credentials give 401 with the email echoed and no session change; good ones store `{id, name, email}` (no password) under the token, set cookie `session` with path `/`, httpOnly, strict same-site and `maxAge` 86400, and redirect 302 to `/dashboard`, after which `handle` resolves that token to a user |

## Left out

- `Number(...)` parsing of form fields, including `NaN`: ids, ratings and quantities are Dafny `int`s.
- JavaScript numbers are doubles. Prices and sums are exact integers (for example cents), so
  floating-point rounding in `total` is not modelled.
- Form values and JSON values that are not strings are not modelled; form fields are strings
  or absent (`None`). In the source:
  - a `File` as the todo `text`, or a truthy non-string memo `text` (a number, an object), makes
    `trim` throw;
  - a falsy non-string memo `text` (`0`, `false`) fails `!text` and gets 400 without `trim` being
    called;
  - a `File` as the feedback `name` or `message` is truthy and has no `length`, so
    `undefined < 2` is false: it passes both checks and is stored.
- `crypto.randomUUID()` becomes a token parameter of length 36. Freshness is not assumed: a reused
  token overwrites the old entry, as `Map.set` does.
- `new Date().toISOString()` becomes the `createdAt` parameter.
- The results `{ toggled: true }`, `{ deleted: true }` and `{ cleared: true }` are left out;
  `Toggle`, `Delete` and `ClearDone` return nothing.
- `load` returns a shallow copy. The todo objects inside it stay shared with the server list.
  The model uses values, so this aliasing is not captured.
- Svelte `$state` reactivity of the cart is not modelled; `items` is a plain field.
- The spread `{ ...product, quantity: 1 }` copies any extra product fields. Here a product has
  exactly `id`, `name` and `price`.
- Counters are unbounded integers, while JavaScript numbers are doubles. In the source,
  `nextId++` stops changing `nextId` at 2^53, after which ids would repeat. So the id invariant
  in `Valid()` of `TodoList`, `Board` and `MemoStore` (ids unique and below `nextId`) holds only
  below 2^53.
- Cart.CartState.Add: quantities are unbounded integers. In the source, `existing.quantity++`
  stops changing the value at 2^53, so "count grows by exactly 1" holds only below that.
- Interleaving of concurrent requests on the shared lists is not modelled: each handler is one
  atomic method call.
- `resolve(event)` is framework code. `Handle` returns the decision to call it, with the user it
  would see in `locals.user`.
- Cookie attributes are recorded in the result only. Their enforcement belongs to the browser.
- String lengths count Unicode scalar values. JavaScript counts UTF-16 code units, which differs
  for characters outside the Basic Multilingual Plane.
- examples/basic-app/src/routes/posts/+page.server.ts is not part of this model: it returns a
  constant.
