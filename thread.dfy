/**
 * The thread screen of `app/Thread.tsx`: the comments of one post, loaded
 * from the backend, and the draft of a new comment. Replies of the backend
 * are inputs of the handlers.
 */
module Thread {
  import opened Wrappers
  import opened Json
  import opened JsValues
  import opened Http
  import Forum

  /**
   * A `Comment` of `src/types.ts` as the screen holds it: `id`, `postId` and
   * `likes` went through `Number`, `authorId` and `content` are whatever the
   * server sent (`None` when the property was absent).
   */
  datatype Comment = Comment(id: Number, postId: Number, authorId: Option<Json>, content: Option<Json>, likes: int)

  /**
   * The record the load and post handlers build from a server value; `None`
   * is the TypeError of reading `id` of `null`.
   */
  function NormaliseComment(c: Json): (r: Option<Comment>)
    ensures r.None? <==> c == JNull
    ensures r.Some? ==> (r.value.likes == 0 <==> ToNumber(Field(c, "likes")) in {NaN, Num(0)})
    ensures r.Some? ==> r.value.id == ToNumber(Field(c, "id")) && r.value.postId == ToNumber(Field(c, "postId"))
  {
    if c == JNull then None
    else Some(Comment(ToNumber(Field(c, "id")), ToNumber(Field(c, "postId")), Field(c, "authorId"),
                      Field(c, "content"), NumberOrZero(Field(c, "likes"))))
  }

  /** A comment as `JSON.stringify` writes it, which is also how the server sends one back. */
  function CommentJson(c: Comment): Json
    requires c.id.Num? && c.postId.Num?
  {
    JObj([Member("id", JNum(c.id.value)), Member("postId", JNum(c.postId.value))]
         + OptMember("authorId", c.authorId) + OptMember("content", c.content)
         + [Member("likes", JNum(c.likes))])
  }

  /** Normalising a comment written as JSON gives back that comment. */
  lemma NormaliseCommentJson(c: Comment)
    requires c.id.Num? && c.postId.Num?
    ensures NormaliseComment(CommentJson(c)) == Some(c)
  {
    CommentJsonLookups(c);
  }

  /** What each property of a comment written as JSON reads as. */
  lemma CommentJsonLookups(c: Comment)
    requires c.id.Num? && c.postId.Num?
    ensures Lookup(CommentJson(c).members, "id") == Some(JNum(c.id.value))
    ensures Lookup(CommentJson(c).members, "postId") == Some(JNum(c.postId.value))
    ensures Lookup(CommentJson(c).members, "authorId") == c.authorId
    ensures Lookup(CommentJson(c).members, "content") == c.content
    ensures Lookup(CommentJson(c).members, "likes") == Some(JNum(c.likes))
  {
    var ids := [Member("id", JNum(c.id.value)), Member("postId", JNum(c.postId.value))];
    var a := ids + OptMember("authorId", c.authorId);
    var head := a + OptMember("content", c.content);
    var last := Member("likes", JNum(c.likes));
    assert CommentJson(c).members == head + [last];
    LookupOwn(head, last);
    LookupSkip(head, [last], "id");
    LookupSkip(head, [last], "postId");
    LookupSkip(head, [last], "authorId");
    LookupSkip(head, [last], "content");
    OptMemberSkip(a, "content", c.content, "id");
    OptMemberSkip(a, "content", c.content, "postId");
    OptMemberSkip(a, "content", c.content, "authorId");
    OptMemberSkip(ids, "authorId", c.authorId, "id");
    OptMemberSkip(ids, "authorId", c.authorId, "postId");
    OptMemberSkip(ids, "authorId", c.authorId, "content");
    assert Lookup(ids, "id") == Some(JNum(c.id.value)) by {
      assert ids[..1] == [Member("id", JNum(c.id.value))];
    }
    if c.authorId.Some? {
      LookupOwn(ids, Member("authorId", c.authorId.value));
    } else {
      assert a == ids;
      LookupAbsent(ids, "authorId");
    }
    if c.content.Some? {
      LookupOwn(a, Member("content", c.content.value));
    } else {
      assert head == a;
      LookupAbsent(ids, "content");
    }
  }

  /** The comment `postComment` sends: placeholder id 0, the thread's post, the fixed author, no likes. */
  function Draft(postId: int, content: string): (d: Comment)
    ensures d.id == Num(0) && d.postId == Num(postId) && d.likes == 0
    ensures d.authorId == Some(JStr(Forum.Author)) && d.content == Some(JStr(content))
  {
    Comment(Num(0), Num(postId), Some(JStr(Forum.Author)), Some(JStr(content)), 0)
  }

  /** The comment an ok post reply adds to the list, or `None` when the status is not ok or the handler throws. */
  function CreatedComment(reply: Reply): (r: Option<Comment>)
    ensures !IsOk(reply) ==> r.None?
    ensures IsOk(reply) ==> (r.Some? <==> BodyJson(reply).Some? && BodyJson(reply).value != JNull)
    ensures r.Some? ==> r.value.id == ToNumber(Field(BodyJson(reply).value, "id"))
  {
    if !IsOk(reply) then None
    else match Parse(reply.body)
      case None => None
      case Some(created) => NormaliseComment(created)
  }

  /**
   * A server that answers ok with the draft it stored under a new id makes
   * the screen show that draft, under that id.
   */
  lemma EchoedDraftIsShown(postId: int, content: string, newId: int, status: int)
    requires 200 <= status <= 299
    ensures CreatedComment(Response(status, Serialize(CommentJson(Draft(postId, content).(id := Num(newId))))))
         == Some(Draft(postId, content).(id := Num(newId)))
  {
    var d := Draft(postId, content).(id := Num(newId));
    RoundTrip(CommentJson(d));
    NormaliseCommentJson(d);
  }

  class ThreadScreen {
    const postId: int
    var comments: seq<Comment>
    var text: string

    /** The first render for the post `postId`, before the mount effect's load. */
    constructor (postId: int)
      ensures this.postId == postId && comments == [] && text == ""
    {
      this.postId := postId;
      comments := [];
      text := "";
    }

    /** `load`: a list read replaces `comments`; any failure leaves them as they were. */
    method Load(reply: Reply)
      modifies this
      ensures var f := FetchList(reply, NormaliseComment);
        comments == if f.Fetched? then f.items else old(comments)
      ensures text == old(text)
    {
      if reply.NetworkFailure? || !IsOk(reply) {
        return;
      }
      var data := BodyJson(reply);
      if data.None? {
        return;
      }
      var normalized := MapOrThrow(ArrayOrEmpty(data.value), NormaliseComment);
      if normalized.Some? {
        comments := normalized.value;
      }
    }

    /**
     * `postComment`: a blank draft sends nothing; otherwise the draft with
     * the trimmed text is sent (`sent`), and a created comment is put first
     * and the text cleared.
     */
    method PostComment(reply: Reply) returns (sent: Option<Comment>)
      modifies this
      ensures Trim(old(text)) == [] ==> sent == None
      ensures Trim(old(text)) != [] ==> sent == Some(Draft(postId, Trim(old(text))))
      ensures Trim(old(text)) != [] && CreatedComment(reply).Some? ==>
        comments == [CreatedComment(reply).value] + old(comments) && text == ""
      ensures Trim(old(text)) == [] || CreatedComment(reply).None? ==>
        comments == old(comments) && text == old(text)
    {
      var trimmed := Trim(text);
      if trimmed == [] {
        return None;
      }
      sent := Some(Draft(postId, trimmed));
      AddCreated(CreatedComment(reply));
    }

    /** The end of `postComment` once the draft is sent: a created comment is put first and the text cleared. */
    method AddCreated(created: Option<Comment>)
      modifies this
      ensures created.Some? ==> comments == [created.value] + old(comments) && text == ""
      ensures created.None? ==> comments == old(comments) && text == old(text)
    {
      if created.Some? {
        comments := [created.value] + comments;
        text := "";
      }
    }
  }
}
