/**
 The backend service's post store: a process-wide list of posts, seeded with
 two sample posts, that the create, delete and update requests change in place.
 */
module Backend {
  import opened Posts

  class BackendStore {
    var posts: seq<Post>

    /** No two posts share an id, and every id is at least 1. */
    ghost predicate Valid()
      reads this
    {
      DistinctIds(posts) && PositiveIds(posts)
    }

    constructor ()
      ensures Valid() && posts == Seed()
    {
      posts := Seed();
    }

    /** POST /api/posts */
    method AddPost(body: Body) returns (r: Outcome)
      requires Valid()
      modifies this
      ensures Valid()
      ensures Step(r, posts) == Create(old(posts), body)
    {
      if IsEmptyBody(body) {
        return MissingBody;
      }
      var missing: seq<string> := [];
      if !HasValue(body.fields, "title") {
        missing := missing + ["title"];
      }
      if !HasValue(body.fields, "content") {
        missing := missing + ["content"];
      }
      if missing != [] {
        return MissingFields(missing);
      }
      var post := Post(NextId(posts), body.fields["title"], body.fields["content"]);
      posts := posts + [post];
      r := Created(post);
    }

    /** DELETE /api/posts/<id>: scan from the front and delete the first match. */
    method DeletePost(id: int) returns (r: Outcome)
      requires Valid()
      modifies this
      ensures Valid()
      ensures Step(r, posts) == Delete(old(posts), id)
    {
      var i := 0;
      while i < |posts|
        invariant 0 <= i <= |posts|
        invariant posts == old(posts)
        invariant forall j :: 0 <= j < i ==> posts[j].id != id
      {
        if posts[i].id == id {
          assert FirstIndex(posts, id) == Some(i);
          posts := posts[..i] + posts[i + 1..];
          return Deleted(id);
        }
        i := i + 1;
      }
      return NotFound(id);
    }

    /** PUT /api/posts/<id>: scan from the front and patch the first match. */
    method UpdatePost(id: int, body: Body) returns (r: Outcome)
      requires Valid()
      modifies this
      ensures Valid()
      ensures Step(r, posts) == Update(old(posts), id, body)
    {
      if body.Absent? {
        return MissingBody;
      }
      var i := 0;
      while i < |posts|
        invariant 0 <= i <= |posts|
        invariant posts == old(posts)
        invariant forall j :: 0 <= j < i ==> posts[j].id != id
      {
        if posts[i].id == id {
          assert FirstIndex(posts, id) == Some(i);
          var post := Patch(posts[i], body.fields);
          posts := posts[i := post];
          return Updated(post);
        }
        i := i + 1;
      }
      return NotFound(id);
    }
  }

  /** A request to the backend, as the handler it is routed to sees it. */
  datatype Request = Add(body: Body) | Remove(id: int) | Edit(id: int, body: Body)

  function Apply(posts: seq<Post>, req: Request): Step
  {
    match req
    case Add(body) => Create(posts, body)
    case Remove(id) => Delete(posts, id)
    case Edit(id, body) => Update(posts, id, body)
  }

  /** The list of posts after serving the requests one at a time. */
  function Run(posts: seq<Post>, reqs: seq<Request>): seq<Post>
    decreases |reqs|
  {
    if reqs == [] then posts else Run(Apply(posts, reqs[0]).posts, reqs[1..])
  }

  /** Any sequence of create, delete and update requests keeps the ids
      distinct and positive. */
  lemma {:induction false} RunKeepsIds(posts: seq<Post>, reqs: seq<Request>)
    requires DistinctIds(posts) && PositiveIds(posts)
    ensures DistinctIds(Run(posts, reqs)) && PositiveIds(Run(posts, reqs))
    decreases |reqs|
  {
    if reqs != [] {
      RunKeepsIds(Apply(posts, reqs[0]).posts, reqs[1..]);
    }
  }

  /** From the seed list: deleting post 2 succeeds, deleting it again is
      NotFound, and the next created post receives id 2 again. */
  method SeedDeleteTwiceThenAdd() returns (first: Outcome, second: Outcome, added: Outcome)
    ensures first == Deleted(2) && Status(first) == 200
    ensures second == NotFound(2) && Status(second) == 404
    ensures added == Created(Post(2, "Third", "Text")) && Status(added) == 201
  {
    var store := new BackendStore();
    assert FirstIndex(store.posts, 2) == Some(1);
    first := store.DeletePost(2);
    assert store.posts == [Post(1, "First post", "This is the first post.")];
    second := store.DeletePost(2);
    assert MaxId(store.posts) == 1;
    var body := Object(map["title" := "Third", "content" := "Text"]);
    assert HasValue(body.fields, "title") && HasValue(body.fields, "content");
    added := store.AddPost(body);
  }

  /** From the seed list: an update with `{}` returns post 1 unchanged, a
      create with an empty title reports only that field, and `{}` is no body
      for a create. */
  method SeedBodyChecks() returns (edit: Outcome, partial: Outcome, empty: Outcome)
    ensures edit == Updated(Post(1, "First post", "This is the first post."))
    ensures partial == MissingFields(["title"]) && Status(partial) == 400
    ensures empty == MissingBody
  {
    var store := new BackendStore();
    assert FirstIndex(store.posts, 1) == Some(0);
    edit := store.UpdatePost(1, Object(map[]));
    partial := store.AddPost(Object(map["title" := "", "content" := "Text"]));
    empty := store.AddPost(Object(map[]));
  }
}
