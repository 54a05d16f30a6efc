/**
 * The forum screen of `app/forum.tsx`: the post list loaded from the
 * backend, a set of liked ids kept on the device only, the compose draft and
 * the flags and diagnostics the handlers set. Replies of the backend are
 * inputs of the handlers.
 */
module Forum {
  import opened Wrappers
  import opened Json
  import opened JsValues
  import opened Http

  /** The author every new post is sent under. */
  const Author: string := "itzcoatl262"

  /**
   * A `Post` of `src/types.ts` as the screen holds it: `id` and `likes` went
   * through `Number`, `authorId` and `content` are whatever the server sent
   * (`None` when the property was absent).
   */
  datatype Post = Post(id: Number, authorId: Option<Json>, content: Option<Json>, likes: int, comments: int)

  /**
   * The record the load and create handlers build from a server value; `None`
   * is the TypeError of reading `id` of `null`.
   */
  function NormalisePost(p: Json): (r: Option<Post>)
    ensures r.None? <==> p == JNull
    ensures r.Some? ==> r.value.comments == 0
    ensures r.Some? ==> (r.value.likes == 0 <==> ToNumber(Field(p, "likes")) in {NaN, Num(0)})
    ensures r.Some? ==> r.value.id == ToNumber(Field(p, "id"))
  {
    if p == JNull then None
    else Some(Post(ToNumber(Field(p, "id")), Field(p, "authorId"), Field(p, "content"),
                   NumberOrZero(Field(p, "likes")), 0))
  }

  /** A post as the server would send it back. */
  function PostJson(p: Post): Json
    requires p.id.Num?
  {
    JObj([Member("id", JNum(p.id.value))] + OptMember("authorId", p.authorId) + OptMember("content", p.content)
         + [Member("likes", JNum(p.likes)), Member("comments", JNum(p.comments))])
  }

  /** Normalising a post the server sends back as the screen holds it returns that same post. */
  lemma NormalisePostJson(p: Post)
    requires p.id.Num? && p.comments == 0
    ensures NormalisePost(PostJson(p)) == Some(p)
  {
    PostJsonLookups(p);
  }

  /** What each property of a sent-back post reads as. */
  lemma PostJsonLookups(p: Post)
    requires p.id.Num?
    ensures Lookup(PostJson(p).members, "id") == Some(JNum(p.id.value))
    ensures Lookup(PostJson(p).members, "authorId") == p.authorId
    ensures Lookup(PostJson(p).members, "content") == p.content
    ensures Lookup(PostJson(p).members, "likes") == Some(JNum(p.likes))
  {
    var idm := [Member("id", JNum(p.id.value))];
    var a := idm + OptMember("authorId", p.authorId);
    var head := a + OptMember("content", p.content);
    var tail := [Member("likes", JNum(p.likes)), Member("comments", JNum(p.comments))];
    assert PostJson(p).members == head + tail;
    LookupSkip(head, tail, "id");
    LookupSkip(head, tail, "authorId");
    LookupSkip(head, tail, "content");
    assert Lookup(head + tail, "likes") == Some(JNum(p.likes)) by {
      assert (head + tail)[..|head + tail| - 1] == head + [tail[0]];
      LookupOwn(head, tail[0]);
    }
    OptMemberSkip(a, "content", p.content, "id");
    OptMemberSkip(a, "content", p.content, "authorId");
    OptMemberSkip(idm, "authorId", p.authorId, "id");
    OptMemberSkip(idm, "authorId", p.authorId, "content");
    if p.authorId.Some? {
      LookupOwn(idm, Member("authorId", p.authorId.value));
    }
    if p.content.Some? {
      LookupOwn(a, Member("content", p.content.value));
    } else {
      assert head == a;
    }
  }

  // ---------------------------------------------------------------------
  // Like toggle
  // ---------------------------------------------------------------------

  /**
   * The likes of post `p` after the like toggle for `id`: one fewer (never
   * below zero) when `unlike`, one more otherwise, and unchanged unless its
   * id is `=== id`.
   */
  function ToggledLikes(p: Post, id: Number, unlike: bool): int {
    if !StrictEq(p.id, id) then p.likes
    else if unlike then (if p.likes - 1 < 0 then 0 else p.likes - 1)
    else p.likes + 1
  }

  /**
   * The `posts` update of the like toggle for `id`: every post keeps its
   * place and its other fields, takes its toggled likes and gets `comments: 0`.
   */
  function SetLikes(posts: seq<Post>, id: Number, unlike: bool): (r: seq<Post>)
    ensures |r| == |posts|
    ensures forall i :: 0 <= i < |posts| ==>
      r[i] == posts[i].(comments := 0, likes := ToggledLikes(posts[i], id, unlike))
  {
    if posts == [] then []
    else
      var x := posts[0];
      var rest := SetLikes(posts[1..], id, unlike);
      assert forall i :: 1 <= i < |posts| ==> posts[1..][i - 1] == posts[i];
      [x.(likes := ToggledLikes(x, id, unlike), comments := 0)] + rest
  }

  /**
   * Liking then unliking gives every post back its likes, provided that the
   * liked post's count was not negative; only the comment counts are reset.
   */
  lemma LikeThenUnlike(posts: seq<Post>, id: Number)
    requires forall i :: 0 <= i < |posts| && StrictEq(posts[i].id, id) ==> posts[i].likes >= 0
    ensures SetLikes(SetLikes(posts, id, false), id, true) == Reset(posts)
  {
    var r := SetLikes(SetLikes(posts, id, false), id, true);
    assert forall i :: 0 <= i < |posts| ==> r[i] == Reset(posts)[i];
  }

  /** Every post with `comments: 0`, as every like toggle leaves them. */
  function Reset(posts: seq<Post>): (r: seq<Post>)
    ensures |r| == |posts| && forall i :: 0 <= i < |posts| ==> r[i] == posts[i].(comments := 0)
  {
    seq(|posts|, i requires 0 <= i < |posts| => posts[i].(comments := 0))
  }

  /** A toggle never makes a count negative. */
  lemma LikesStayNonNegative(posts: seq<Post>, id: Number, unlike: bool)
    requires forall i :: 0 <= i < |posts| ==> posts[i].likes >= 0
    ensures forall i :: 0 <= i < |posts| ==> SetLikes(posts, id, unlike)[i].likes >= 0
  {
  }

  // ---------------------------------------------------------------------
  // Delete
  // ---------------------------------------------------------------------

  /** `posts.filter(t => t.id !== id)`. */
  function RemoveById(posts: seq<Post>, id: Number): (r: seq<Post>)
    ensures |r| <= |posts|
    ensures forall x :: x in r <==> x in posts && !StrictEq(x.id, id)
  {
    if posts == [] then []
    else
      var rest := RemoveById(posts[1..], id);
      assert forall x :: x in posts <==> x == posts[0] || x in posts[1..];
      if StrictEq(posts[0].id, id) then rest else [posts[0]] + rest
  }

  /** The filter keeps the survivors in their order: it distributes over concatenation. */
  lemma {:induction false} RemoveByIdKeepsOrder(a: seq<Post>, b: seq<Post>, id: Number)
    ensures RemoveById(a + b, id) == RemoveById(a, id) + RemoveById(b, id)
    decreases |a|
  {
    if a != [] {
      assert (a + b)[1..] == a[1..] + b;
      RemoveByIdKeepsOrder(a[1..], b, id);
    } else {
      assert a + b == b;
    }
  }

  /** Deleting the same id twice removes nothing more. */
  lemma {:induction false} RemoveByIdIdempotent(posts: seq<Post>, id: Number)
    ensures RemoveById(RemoveById(posts, id), id) == RemoveById(posts, id)
    decreases |posts|
  {
    if posts != [] {
      RemoveByIdIdempotent(posts[1..], id);
      if !StrictEq(posts[0].id, id) {
        assert ([posts[0]] + RemoveById(posts[1..], id))[1..] == RemoveById(posts[1..], id);
      }
    }
  }

  /** A `NaN` id is `!==` to every id, itself included: deleting it keeps every post. */
  lemma {:induction false} RemoveNaNKeepsAll(posts: seq<Post>)
    ensures RemoveById(posts, NaN) == posts
    decreases |posts|
  {
    if posts != [] {
      RemoveNaNKeepsAll(posts[1..]);
      assert [posts[0]] + posts[1..] == posts;
    }
  }

  // ---------------------------------------------------------------------
  // Create
  // ---------------------------------------------------------------------

  /** The JSON body `handlePost` sends for the trimmed draft. */
  function NewPostJson(content: string): (j: Json)
    ensures j.JObj? && Lookup(j.members, "authorId") == Some(JStr(Author))
    ensures Lookup(j.members, "content") == Some(JStr(content))
    ensures Lookup(j.members, "likes") == Some(JNum(0)) && Lookup(j.members, "comments") == Some(JNum(0))
  {
    var ms := [Member("authorId", JStr(Author)), Member("content", JStr(content)),
               Member("likes", JNum(0)), Member("comments", JNum(0))];
    LookupAt(ms, 0);
    LookupAt(ms, 1);
    LookupAt(ms, 2);
    LookupAt(ms, 3);
    JObj([Member("authorId", JStr(Author)), Member("content", JStr(content)),
          Member("likes", JNum(0)), Member("comments", JNum(0))])
  }

  /** The post an ok create reply adds to the list, or `None` when the handler throws or the status is not ok. */
  function CreatedPost(reply: Reply): (r: Option<Post>)
    ensures !IsOk(reply) ==> r.None?
    ensures IsOk(reply) ==> (r.Some? <==> BodyJson(reply).Some? && BodyJson(reply).value != JNull)
    ensures r.Some? ==> r.value.comments == 0 && r.value.id == ToNumber(Field(BodyJson(reply).value, "id"))
  {
    if !IsOk(reply) then None
    else match Parse(reply.body)
      case None => None
      case Some(created) => NormalisePost(created)
  }

  /** `lastFetchStatus` after a load: "ok" exactly when it produced a list. */
  function FetchStatus(f: Fetched<Post>): (s: string)
    ensures s == "ok" <==> f.Fetched?
    ensures f.HttpFailed? ==> s == "failed: " + IntText(f.status)
    ensures f.Threw? ==> s == "error"
  {
    match f
    case Fetched(_) => "ok"
    case HttpFailed(status, _) =>
      var failed := "failed: " + IntText(status);
      assert failed[0] == 'f';
      failed
    case Threw(_) => "error"
  }

  /** `lastFetchError` after a load: nothing exactly when it produced a list, else the body or the message. */
  function FetchError(f: Fetched<Post>): (e: Option<string>)
    ensures e.None? <==> f.Fetched?
    ensures f.HttpFailed? ==> e == Some(f.body)
    ensures f.Threw? ==> e == Some(f.message)
  {
    match f
    case Fetched(_) => None
    case HttpFailed(_, body) => Some(body)
    case Threw(message) => Some(message)
  }

  class ForumScreen {
    var posts: seq<Post>
    var likedIds: set<Number>
    var compose: string
    var isCreateOpen: bool
    var isPosting: bool
    var lastFetchStatus: Option<string>
    var lastFetchError: Option<string>

    /** The first render, before the mount effect's load. */
    constructor ()
      ensures posts == [] && likedIds == {} && compose == ""
      ensures !isCreateOpen && !isPosting && lastFetchStatus == None && lastFetchError == None
    {
      posts := [];
      likedIds := {};
      compose := "";
      isCreateOpen := false;
      isPosting := false;
      lastFetchStatus := None;
      lastFetchError := None;
    }

    /**
     * `loadPosts`: a list read replaces `posts`; any failure leaves `posts`
     * as they were and records why.
     */
    method LoadPosts(reply: Reply)
      modifies this
      ensures var f := FetchList(reply, NormalisePost);
        posts == (if f.Fetched? then f.items else old(posts)) &&
        lastFetchStatus == Some(FetchStatus(f)) && lastFetchError == FetchError(f)
      ensures likedIds == old(likedIds) && compose == old(compose)
      ensures isCreateOpen == old(isCreateOpen) && isPosting == old(isPosting)
    {
      if reply.NetworkFailure? {
        lastFetchStatus := Some("error");
        lastFetchError := Some(reply.message);
        return;
      }
      if !IsOk(reply) {
        lastFetchStatus := Some("failed: " + IntText(reply.status));
        lastFetchError := Some(reply.body);
        return;
      }
      var data := BodyJson(reply);
      if data.None? {
        lastFetchStatus := Some("error");
        lastFetchError := Some(SyntaxErrorMessage);
        return;
      }
      var normalized := MapOrThrow(ArrayOrEmpty(data.value), NormalisePost);
      if normalized.None? {
        lastFetchStatus := Some("error");
        lastFetchError := Some(TypeErrorMessage);
        return;
      }
      posts := normalized.value;
      lastFetchStatus := Some("ok");
      lastFetchError := None;
    }

    /**
     * The like button of the post with `id`: a liked id is removed and its
     * post loses a like, any other id is added and its post gains one.
     * Nothing is sent to the server.
     */
    method ToggleLike(id: Number)
      modifies this
      ensures id in old(likedIds) ==> likedIds == old(likedIds) - {id} && posts == SetLikes(old(posts), id, true)
      ensures id !in old(likedIds) ==> likedIds == old(likedIds) + {id} && posts == SetLikes(old(posts), id, false)
      ensures compose == old(compose) && isCreateOpen == old(isCreateOpen) && isPosting == old(isPosting)
      ensures lastFetchStatus == old(lastFetchStatus) && lastFetchError == old(lastFetchError)
    {
      var next := likedIds;
      if id in next {
        next := next - {id};
        posts := SetLikes(posts, id, true);
      } else {
        next := next + {id};
        posts := SetLikes(posts, id, false);
      }
      likedIds := next;
    }

    /** The delete button: the list loses the post only once the server answers ok. */
    method DeletePost(id: Number, reply: Reply)
      modifies this
      ensures posts == if IsOk(reply) then RemoveById(old(posts), id) else old(posts)
      ensures likedIds == old(likedIds) && compose == old(compose)
      ensures isCreateOpen == old(isCreateOpen) && isPosting == old(isPosting)
      ensures lastFetchStatus == old(lastFetchStatus) && lastFetchError == old(lastFetchError)
    {
      if IsOk(reply) {
        posts := RemoveById(posts, id);
      }
    }

    /**
     * `handlePost`: a blank draft sends nothing; otherwise the trimmed draft
     * is sent (`sent`), a created post is put first and the draft cleared,
     * and `isPosting` is false once the handler is done.
     */
    method HandlePost(reply: Reply) returns (sent: Option<Json>)
      modifies this
      ensures Trim(old(compose)) == [] ==> sent == None && isPosting == old(isPosting)
      ensures Trim(old(compose)) != [] ==> sent == Some(NewPostJson(Trim(old(compose)))) && !isPosting
      ensures Trim(old(compose)) != [] && CreatedPost(reply).Some? ==>
        posts == [CreatedPost(reply).value] + old(posts) && compose == "" && !isCreateOpen
      ensures Trim(old(compose)) == [] || CreatedPost(reply).None? ==>
        posts == old(posts) && compose == old(compose) && isCreateOpen == old(isCreateOpen)
      ensures likedIds == old(likedIds)
      ensures lastFetchStatus == old(lastFetchStatus) && lastFetchError == old(lastFetchError)
    {
      var trimmed := Trim(compose);
      if trimmed == [] {
        return None;
      }
      sent := Some(NewPostJson(trimmed));
      isPosting := true;
      Publish(CreatedPost(reply));
    }

    /**
     * The end of `handlePost` once the draft is sent: a created post is put
     * first, the draft cleared and the form closed; `isPosting` is false
     * again on every path.
     */
    method Publish(created: Option<Post>)
      modifies this
      ensures created.Some? ==> posts == [created.value] + old(posts) && compose == "" && !isCreateOpen
      ensures created.None? ==> posts == old(posts) && compose == old(compose) && isCreateOpen == old(isCreateOpen)
      ensures !isPosting && likedIds == old(likedIds)
      ensures lastFetchStatus == old(lastFetchStatus) && lastFetchError == old(lastFetchError)
    {
      if created.Some? {
        posts := [created.value] + posts;
        compose := "";
        isCreateOpen := false;
      }
      isPosting := false;
    }
  }
}
