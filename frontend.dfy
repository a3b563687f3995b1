/**
 The frontend service's own post list: it starts empty and only ever takes
 create requests, so its ids are always 1, 2, ..., n in list order.
 */
module Frontend {
  import opened Posts

  class FrontendStore {
    var posts: seq<Post>

    /** The ids are exactly 1..n in list order (hence distinct). */
    ghost predicate Valid()
      reads this
    {
      NumberedFromOne(posts)
    }

    constructor ()
      ensures Valid() && posts == []
    {
      posts := [];
    }

    /** POST /api/posts on the frontend. */
    method NewBlogpost(body: Body) returns (r: Outcome)
      requires Valid()
      modifies this
      ensures Valid()
      ensures Step(r, posts) == Create(old(posts), body)
      ensures r.Created? ==> r.post.id == |old(posts)| + 1
    {
      if IsEmptyBody(body) {
        return MissingBody;
      }
      var missing: seq<string> := [];
      if !HasValue(body.fields, "title") {
        missing := missing + ["title"];
      }
      if !HasValue(body.fields, "content") {
        missing := missing + ["content"];
      }
      if missing != [] {
        return MissingFields(missing);
      }
      var post := Post(NextId(posts), body.fields["title"], body.fields["content"]);
      posts := posts + [post];
      r := Created(post);
    }
  }

  /** The list of posts after serving the create requests one at a time. */
  function CreateAll(posts: seq<Post>, bodies: seq<Body>): seq<Post>
    decreases |bodies|
  {
    if bodies == [] then posts else CreateAll(Create(posts, bodies[0]).posts, bodies[1..])
  }

  /** How many of the bodies a create request accepts. */
  function Accepted(bodies: seq<Body>): nat
    decreases |bodies|
  {
    if bodies == [] then 0 else (if Acceptable(bodies[0]) then 1 else 0) + Accepted(bodies[1..])
  }

  /** Starting from ids 1..m, after any create requests of which n succeed
      the list holds m + n posts with ids exactly 1..m + n; in particular
      from the empty list, n successful creates give ids 1..n. */
  lemma {:induction false} CreatesNumberFromOne(posts: seq<Post>, bodies: seq<Body>)
    requires NumberedFromOne(posts)
    ensures NumberedFromOne(CreateAll(posts, bodies))
    ensures |CreateAll(posts, bodies)| == |posts| + Accepted(bodies)
    decreases |bodies|
  {
    if bodies != [] {
      CreatesNumberFromOne(Create(posts, bodies[0]).posts, bodies[1..]);
    }
  }

  /** A create request with an absent title and an empty content reports
      both fields, title first, and leaves the empty list empty. */
  method BothFieldsMissing() returns (r: Outcome, count: nat)
    ensures r == MissingFields(["title", "content"]) && Status(r) == 400
    ensures count == 0
  {
    var store := new FrontendStore();
    var body := Object(map["content" := ""]);
    assert !HasValue(body.fields, "title") && !HasValue(body.fields, "content");
    assert MissingFieldNames(body.fields) == ["title", "content"];
    r := store.NewBlogpost(body);
    count := |store.posts|;
  }
}
