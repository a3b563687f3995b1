# Masterblog post stores, modelled in Dafny

Masterblog is a pair of small Flask services that keep blog posts in memory.
Each post is a record `{id, title, content}`.

- The backend keeps a process-wide list seeded with two sample posts. It serves
  create, delete and partial update requests.
- The frontend keeps its own list, which starts empty. It serves only create
  requests, with the same validation.

This project models both lists and the request handlers that change them.

- `posts.dfy`, module `Posts`: the shared data model and the pure
  specification of each request.
  - `Post` is a stored post.
  - `Body` is the parsed JSON body: absent, or an object of string values.
  - `Outcome` is the handler's answer: `Created`, `Updated`, `Deleted`,
    `MissingBody`, `MissingFields(names)` or `NotFound(id)`. `Status` gives
    its HTTP code.
  - `Create`, `Delete` and `Update` map the old list and a request to an
    outcome and the new list.
- `backend.dfy`, module `Backend`: class `BackendStore` holds the list in a
  `seq<Post>` field. `AddPost`, `DeletePost` and `UpdatePost` change it in
  place, with the same scans and early returns as the handlers. Each is proved
  equal to its specification function. Each keeps the store invariant: ids are
  pairwise distinct and at least 1.
- `frontend.dfy`, module `Frontend`: class `FrontendStore` with `NewBlogpost`.
  Its invariant is that the ids are exactly 1..n in list order.

Python semantics made explicit:

- `not data` on a create is true for an absent body and for `{}`.
- `not data.get(key)` is true for a missing key and for `""`.
- An update rejects only an absent body (`data is None`). So `{}` is accepted
  there and changes nothing.
- An update copies a present key even when its value is `""`, with no
  truthiness check.
- A new id is `max(ids, default=0) + 1`.

Where the design description and the code disagree, the model follows the code:

- The description calls ids "never reused". The code takes the next id from the
  current maximum, so deleting the highest-id post and creating again can hand
  the same id out again. `DeleteMaxThenCreate` proves the new id is at most the
  deleted one. `DeleteLastThenCreate` and `SeedDeleteTwiceThenAdd` show exact
  reuse when the ids are contiguous, as they are from the seed.
- The description says a title is non-empty text. An update can set it to `""`
  (`UpdateMayEmptyTitle`).

## Model

| member | source | states |
|---|---|---|
| `Posts.MissingFieldNames` | backend/backend_app.py:25-29 | Lists a field exactly when it is absent or `""`, title before content, each at most once; empty exactly when both fields have values |
| `Posts.MaxId` | backend/backend_app.py:36 | 0 for an empty list; otherwise an id that occurs in the list and is at least every id in it |
| `Posts.NextId` | backend/backend_app.py:36 | Strictly greater than every stored id; 1 for an empty list; otherwise one more than a stored id; at least 1 when all ids are |
| `Posts.FirstIndex` | backend/backend_app.py:51-53 | None exactly when no post has the id; otherwise an index holding the id with no earlier post holding it (the first match of the scan) |
| `Posts.RemoveAt` | backend/backend_app.py:53 | `del posts[i]`: one shorter, posts before i unchanged, posts after i shifted down by one in order |
| `Posts.Patch` | backend/backend_app.py:71-72 | Id unchanged; title and content take the body's value when the key is present (even `""`) and keep the old value otherwise |
| `Posts.Seed` | backend/backend_app.py:7-10 | The seed list has two posts whose ids are 1 and 2 in order, hence distinct |
| `Posts.Create` | backend/backend_app.py:19-46 | Succeeds exactly for a non-empty body with both fields set; absent or `{}` gives MissingBody; otherwise MissingFields with every missing name; failures leave the list unchanged; success appends one post with the given title and content and the next id, above every stored id (1 on an empty list); keeps distinct positive ids and ids numbered 1..n |
| `Posts.Delete` | backend/backend_app.py:50-58 | Unknown id gives NotFound and no change; otherwise Deleted and the first match removed, others kept in order; with distinct ids the id is gone afterwards; keeps distinct positive ids |
| `Posts.Update` | backend/backend_app.py:62-76 | Absent body gives MissingBody; unknown id gives NotFound; both leave the list unchanged; otherwise only the first match is patched and returned; length and every id unchanged; `{}` changes nothing; keeps distinct positive ids |
| `Posts.DeleteTwice` | backend/backend_app.py:51-58 | With distinct ids, deleting a stored id succeeds and deleting it again is NotFound with no change |
| `Posts.DeleteMaxThenCreate` | backend/backend_app.py:36-58 | After deleting the post with the largest id, a successful create gets an id no larger than the deleted one (ids can be reused) |
| `Posts.DeleteLastThenCreate` | backend/backend_app.py:36-58 | With ids 1..n, deleting post n and then creating gives the new post id n again |
| `Posts.UpdateMayEmptyTitle` | backend/backend_app.py:71 | An update with `{"title": ""}` on a stored id leaves that post's title empty |
| `Backend.BackendStore.constructor` | backend/backend_app.py:7-10 | The store starts as the seed list and satisfies the invariant |
| `Backend.BackendStore.AddPost` | backend/backend_app.py:19-46 | Validates and appends through the collected `missing` list; outcome and new list equal `Create` of the old list; invariant kept |
| `Backend.BackendStore.DeletePost` | backend/backend_app.py:50-58 | Front-to-back scan with early return; outcome and new list equal `Delete` of the old list; invariant kept |
| `Backend.BackendStore.UpdatePost` | backend/backend_app.py:62-76 | Body check before the scan, then patch of the first match in place; outcome and new list equal `Update` of the old list; invariant kept |
| `Backend.RunKeepsIds` | backend/backend_app.py:36-76 | Any sequence of create, delete and update requests keeps ids pairwise distinct and positive |
| `Backend.SeedDeleteTwiceThenAdd` | backend/backend_app.py:36-58 | From the seed: delete 2 gives 200, delete 2 again gives 404, and the next create gets id 2 with status 201 |
| `Backend.SeedBodyChecks` | backend/backend_app.py:20-76 | From the seed: update of post 1 with `{}` returns it unchanged; create with an empty title reports only `title`; create with `{}` is MissingBody |
| `Frontend.FrontendStore.constructor` | frontend/frontend_app.py:6 | The frontend list starts empty |
| `Frontend.FrontendStore.NewBlogpost` | frontend/frontend_app.py:13-41 | Same validation and append as the backend create (equal to `Create`); a new post gets id n + 1; ids stay exactly 1..n |
| `Frontend.CreatesNumberFromOne` | frontend/frontend_app.py:31-39 | Starting from ids 1..m, any create requests of which n succeed leave m + n posts with ids exactly 1..m + n |
| `Frontend.BothFieldsMissing` | frontend/frontend_app.py:16-28 | A body with no title and an empty content reports both names, title first, with status 400, and the list stays empty |

## Left out

- HTTP plumbing is not modelled: Flask routing, `jsonify`, CORS, `app.run` and the `home` page rendering. Statuses appear as `Outcome` constructors, with `Status` giving the code.
- Request bodies that are not JSON objects (lists, numbers, malformed JSON) and object members whose values are not strings (`null`, numbers) are not modelled. The body is either absent or a map from key to string.
- The `<int:post_id>` route converter accepts only non-negative integers. The model takes any integer id; ids that cannot be routed simply never match.
- `get_posts` only serialises the list, so it is not modelled.
- The wording of error and success messages is not modelled. `MissingFields` carries the list of names that the handler joins with ", ".
- Each post is a value, not a shared mutable dictionary. The handlers never keep a second reference to a post dictionary, so the in-place field assignment of an update is modelled as replacing the list element.
- Concurrent requests on the shared lists are not modelled; requests are served one at a time.
- Sorting, search and flash messages have no code in the two service files. They are not part of this model.
