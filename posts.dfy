/**
 The data model shared by the two blog services: a post record, the parsed
 request body, the outcome of a request, and the pure computations on a list
 of posts that the request handlers are specified by (the next id, the first
 index of an id, the missing required fields, a partial update).
 */
module Posts {

  datatype Option<T> = None | Some(value: T)

  /** One stored post: the dictionary {"id", "title", "content"}. */
  datatype Post = Post(id: int, title: string, content: string)

  /** The request body after JSON parsing: no body at all, or a JSON object
      (only string-valued members are modelled). */
  datatype Body = Absent | Object(fields: map<string, string>)

  /** What a request handler answers; the HTTP status of each is given by Status. */
  datatype Outcome =
    | Created(post: Post)
    | Updated(post: Post)
    | Deleted(id: int)
    | MissingBody
    | MissingFields(names: seq<string>)
    | NotFound(id: int)

  function Status(o: Outcome): int
  {
    match o
    case Created(_) => 201
    case Updated(_) => 200
    case Deleted(_) => 200
    case MissingBody => 400
    case MissingFields(_) => 400
    case NotFound(_) => 404
  }

  /** Python's `not data` on the parsed body: true for no body and for `{}`. */
  predicate IsEmptyBody(body: Body)
  {
    body.Absent? || body.fields == map[]
  }

  /** Python's truthiness of `data.get(key)`: the key is present and its value is not "". */
  predicate HasValue(fields: map<string, string>, key: string)
  {
    key in fields && fields[key] != ""
  }

  /** The names a create request reports as missing: every required field that
      is absent or empty, "title" before "content". */
  function MissingFieldNames(fields: map<string, string>): (names: seq<string>)
    ensures "title" in names <==> !HasValue(fields, "title")
    ensures "content" in names <==> !HasValue(fields, "content")
    ensures names == [] <==> HasValue(fields, "title") && HasValue(fields, "content")
    ensures |names| <= 2
    ensures |names| == 2 ==> names == ["title", "content"]
  {
    (if HasValue(fields, "title") then [] else ["title"]) +
    (if HasValue(fields, "content") then [] else ["content"])
  }

  predicate HasId(posts: seq<Post>, id: int)
  {
    exists i :: 0 <= i < |posts| && posts[i].id == id
  }

  /** The store invariant of the backend: no two posts share an id. */
  predicate DistinctIds(posts: seq<Post>)
  {
    forall i, j :: 0 <= i < j < |posts| ==> posts[i].id != posts[j].id
  }

  predicate PositiveIds(posts: seq<Post>)
  {
    forall i :: 0 <= i < |posts| ==> posts[i].id >= 1
  }

  /** The ids are 1, 2, ..., n in list order. */
  predicate NumberedFromOne(posts: seq<Post>)
  {
    forall i :: 0 <= i < |posts| ==> posts[i].id == i + 1
  }

  /** `max([post["id"] for post in posts], default=0)`. */
  function MaxId(posts: seq<Post>): (m: int)
    ensures posts == [] ==> m == 0
    ensures forall i :: 0 <= i < |posts| ==> posts[i].id <= m
    ensures posts != [] ==> HasId(posts, m)
  {
    if posts == [] then 0
    else
      var front := MaxId(posts[..|posts| - 1]);
      var last := posts[|posts| - 1].id;
      if |posts| == 1 || front < last then last else front
  }

  /** The id a create request gives its new post. */
  function NextId(posts: seq<Post>): (id: int)
    ensures forall i :: 0 <= i < |posts| ==> posts[i].id < id
    ensures posts == [] ==> id == 1
    ensures posts != [] ==> HasId(posts, id - 1)
    ensures PositiveIds(posts) ==> id >= 1
  {
    MaxId(posts) + 1
  }

  /** The index where a linear scan from the front first meets `id`. */
  function FirstIndex(posts: seq<Post>, id: int): (r: Option<nat>)
    ensures r.None? <==> !HasId(posts, id)
    ensures r.Some? ==> r.value < |posts| && posts[r.value].id == id
    ensures r.Some? ==> forall j :: 0 <= j < r.value ==> posts[j].id != id
  {
    if posts == [] then None
    else if posts[0].id == id then Some(0)
    else
      match FirstIndex(posts[1..], id)
      case None => None
      case Some(k) => Some(k + 1)
  }

  /** The list with the element at index i deleted (`del posts[i]`). */
  function RemoveAt(posts: seq<Post>, i: nat): (r: seq<Post>)
    requires i < |posts|
    ensures |r| == |posts| - 1
    ensures forall j :: 0 <= j < i ==> r[j] == posts[j]
    ensures forall j :: i <= j < |r| ==> r[j] == posts[j + 1]
  {
    posts[..i] + posts[i + 1..]
  }

  /** A partial update: each of "title" and "content" takes the body's value
      when the body has that key (even ""), and keeps the old value otherwise.
      Other keys, "id" among them, are ignored. */
  function Patch(p: Post, fields: map<string, string>): (q: Post)
    ensures q.id == p.id
    ensures "title" in fields ==> q.title == fields["title"]
    ensures "title" !in fields ==> q.title == p.title
    ensures "content" in fields ==> q.content == fields["content"]
    ensures "content" !in fields ==> q.content == p.content
  {
    Post(p.id,
         if "title" in fields then fields["title"] else p.title,
         if "content" in fields then fields["content"] else p.content)
  }

  /** The two sample posts the backend starts with. */
  function Seed(): (posts: seq<Post>)
    ensures |posts| == 2
    ensures NumberedFromOne(posts) && DistinctIds(posts)
  {
    [Post(1, "First post", "This is the first post."),
     Post(2, "Second post", "This is the second post.")]
  }

  /** A create request succeeds exactly when the body is non-empty and both
      required fields are present and non-empty. */
  predicate Acceptable(body: Body)
  {
    !IsEmptyBody(body) && MissingFieldNames(body.fields) == []
  }

  /** The outcome of a request together with the list of posts after it. */
  datatype Step = Step(outcome: Outcome, posts: seq<Post>)

  /** Create a post: reject an absent or empty body, then report every missing
      field at once, else append a post carrying the next id. */
  function Create(posts: seq<Post>, body: Body): (s: Step)
    ensures s.outcome.Created? <==> Acceptable(body)
    ensures IsEmptyBody(body) ==> s == Step(MissingBody, posts)
    ensures !IsEmptyBody(body) && !Acceptable(body) ==>
      s == Step(MissingFields(MissingFieldNames(body.fields)), posts)
    ensures Acceptable(body) ==>
      && s.outcome.post == Post(NextId(posts), body.fields["title"], body.fields["content"])
      && s.posts == posts + [s.outcome.post]
    ensures s.outcome.Created? ==> forall i :: 0 <= i < |posts| ==> posts[i].id < s.outcome.post.id
    ensures s.outcome.Created? && posts == [] ==> s.outcome.post.id == 1
    ensures DistinctIds(posts) && PositiveIds(posts) ==> DistinctIds(s.posts) && PositiveIds(s.posts)
    ensures NumberedFromOne(posts) ==> NumberedFromOne(s.posts)
  {
    if IsEmptyBody(body) then Step(MissingBody, posts)
    else
      var missing := MissingFieldNames(body.fields);
      if missing != [] then Step(MissingFields(missing), posts)
      else
        var post := Post(NextId(posts), body.fields["title"], body.fields["content"]);
        Step(Created(post), posts + [post])
  }

  /** Delete the first post carrying `id`. */
  function Delete(posts: seq<Post>, id: int): (s: Step)
    ensures !HasId(posts, id) ==> s == Step(NotFound(id), posts)
    ensures HasId(posts, id) ==>
      s == Step(Deleted(id), RemoveAt(posts, FirstIndex(posts, id).value))
    ensures DistinctIds(posts) ==> !HasId(s.posts, id) && DistinctIds(s.posts)
    ensures PositiveIds(posts) ==> PositiveIds(s.posts)
  {
    match FirstIndex(posts, id)
    case None => Step(NotFound(id), posts)
    case Some(i) => Step(Deleted(id), RemoveAt(posts, i))
  }

  /** Update the first post carrying `id` with the keys the body has. Only an
      absent body is rejected: `{}` changes nothing and succeeds. */
  function Update(posts: seq<Post>, id: int, body: Body): (s: Step)
    ensures body.Absent? ==> s == Step(MissingBody, posts)
    ensures body.Object? && !HasId(posts, id) ==> s == Step(NotFound(id), posts)
    ensures body.Object? && HasId(posts, id) ==>
      var i := FirstIndex(posts, id).value;
      s == Step(Updated(Patch(posts[i], body.fields)), posts[i := Patch(posts[i], body.fields)])
    ensures s.outcome.Updated? ==> s.outcome.post.id == id
    ensures |s.posts| == |posts|
    ensures forall j :: 0 <= j < |posts| ==> s.posts[j].id == posts[j].id
    ensures body == Object(map[]) ==> s.posts == posts
    ensures DistinctIds(posts) ==> DistinctIds(s.posts)
    ensures PositiveIds(posts) ==> PositiveIds(s.posts)
  {
    if body.Absent? then Step(MissingBody, posts)
    else
      match FirstIndex(posts, id)
      case None => Step(NotFound(id), posts)
      case Some(i) =>
        var post := Patch(posts[i], body.fields);
        Step(Updated(post), posts[i := post])
  }

  /** With distinct ids, deleting an id that is stored succeeds, and deleting
      it again is answered NotFound. */
  lemma DeleteTwice(posts: seq<Post>, id: int)
    requires DistinctIds(posts) && HasId(posts, id)
    ensures Delete(posts, id).outcome == Deleted(id)
    ensures Delete(Delete(posts, id).posts, id) == Step(NotFound(id), Delete(posts, id).posts)
  {
  }

  /** Deleting the post holding the largest id and then creating one never
      gives the new post an id above the deleted one: ids come from the
      current maximum, so they can be handed out again. */
  lemma DeleteMaxThenCreate(posts: seq<Post>, body: Body)
    requires DistinctIds(posts) && PositiveIds(posts) && posts != []
    requires Acceptable(body)
    ensures Create(Delete(posts, MaxId(posts)).posts, body).outcome.post.id <= MaxId(posts)
  {
  }

  /** When the ids are 1..n, deleting post n and then creating one gives the
      new post the id n again. */
  lemma DeleteLastThenCreate(posts: seq<Post>, body: Body)
    requires NumberedFromOne(posts) && posts != []
    requires Acceptable(body)
    ensures Create(Delete(posts, |posts|).posts, body).outcome.post.id == |posts|
  {
  }

  /** An update copies a present key even when its value is "": unlike a
      create, it can leave a post with an empty title. */
  lemma UpdateMayEmptyTitle(posts: seq<Post>, id: int)
    requires HasId(posts, id)
    ensures Update(posts, id, Object(map["title" := ""])).outcome.post.title == ""
  {
  }
}
