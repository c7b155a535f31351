/**
 * The Lambda handlers over the four DynamoDB tables: profiles keyed by
 * user_id, posts by post_id, comments by (post_id, comment_id) and likes by
 * (target_id, user_id). Each handler is a method that checks in the source's
 * order, then changes at most one entry of one table, or only reads.
 *
 * Clock readings and fresh uuids are parameters. Exceptions that reach the
 * error_handler decorator are returned as Unhandled.
 */
module Backend {
  import opened Wrappers
  import opened Text
  import opened Verdicts
  import opened Lambda
  import opened Helpers
  import opened Ordering
  import opened Queries
  import opened Posts
  import opened Profiles
  import ApiValidators
  import opened Listings

  /**
   * Every item carries its own key attributes, as DynamoDB stores them.
   * Posts and comments also carry a string created_at, which every handler
   * that writes one sets: the listings sort on it, and UserIdIndex and
   * PostCommentsIndex hold only items that have it.
   */
  predicate ProfileKeyed(userId: string, item: Item) {
    "user_id" in item && item["user_id"] == Str(userId)
  }

  predicate PostKeyed(postId: string, item: Item) {
    && "post_id" in item && item["post_id"] == Str(postId)
    && "created_at" in item && item["created_at"].Str?
  }

  predicate CommentKeyed(k: CommentKey, item: Item) {
    && "post_id" in item && item["post_id"] == Str(k.0)
    && "comment_id" in item && item["comment_id"] == Str(k.1)
    && "created_at" in item && item["created_at"].Str?
  }

  predicate LikeKeyed(k: LikeKey, item: Item) {
    && "target_id" in item && item["target_id"] == Str(k.0)
    && "user_id" in item && item["user_id"] == Str(k.1)
  }

  predicate ProfilesKeyed(t: map<string, Item>) {
    forall u :: u in t ==> ProfileKeyed(u, t[u])
  }

  predicate PostsKeyed(t: map<string, Item>) {
    forall p :: p in t ==> PostKeyed(p, t[p])
  }

  predicate CommentsKeyed(t: map<CommentKey, Item>) {
    forall k :: k in t ==> CommentKeyed(k, t[k])
  }

  predicate LikesKeyed(t: map<LikeKey, Item>) {
    forall k :: k in t ==> LikeKeyed(k, t[k])
  }

  /**
   * `item['user_id'] != user_id` is False. A missing attribute raises
   * KeyError instead; any value other than the caller's id string differs.
   */
  predicate OwnedBy(item: Item, userId: string) {
    "user_id" in item && item["user_id"] == Str(userId)
  }

  /** `x.get('created_at', '')` of the item under a key: the sort key of the listings. */
  function ByCreatedAt<K>(table: map<K, Item>): K -> string {
    k => if k in table then CreatedAt(table[k]) else ""
  }

  /** `{'user_id': like['user_id'], 'display_name': like.get('display_name', 'Unknown User')}`. */
  function LikerOf(like: Item): (r: Liker)
    requires "user_id" in like
    ensures r.userId == like["user_id"]
    ensures r.displayName == if "display_name" in like then like["display_name"] else Str("Unknown User")
  {
    Liker(like["user_id"], Get(like, "display_name", Str("Unknown User")))
  }

  /** The projection comprehension over the filtered likes, in their order. */
  function LikerList(ks: seq<LikeKey>, likes: map<LikeKey, Item>): (r: seq<Liker>)
    requires forall i :: 0 <= i < |ks| ==> ks[i] in likes && "user_id" in likes[ks[i]]
    ensures |r| == |ks|
    ensures forall i :: 0 <= i < |ks| ==> r[i] == LikerOf(likes[ks[i]])
  {
    if ks == [] then [] else [LikerOf(likes[ks[0]])] + LikerList(ks[1..], likes)
  }

  /** A set listed without repeats has as many elements as the list. */
  lemma ListedCard<K>(order: seq<K>, s: set<K>)
    requires Distinct(order)
    requires forall k :: k in order <==> k in s
    ensures |order| == |s|
  {
    DistinctCard(order);
    assert (set x | x in order) == s;
  }

  /**
   * The likes a query on target_id returns, in sort-key (user_id) order,
   * filtered to one target_type as the handlers' comprehension does.
   */
  method LikesOfTarget(likes: map<LikeKey, Item>, target: string, kind: string) returns (order: seq<LikeKey>)
    ensures forall k :: k in order <==> k in LikeKeys(likes, target, kind)
    ensures Distinct(order) && Ordered(order, UserOf, false)
    ensures |order| == |LikeKeys(likes, target, kind)|
  {
    var ofTarget := set k | k in likes && k.0 == target;
    var queried := ScanSorted(ofTarget, UserOf, false);
    assert forall i :: 0 <= i < |queried| ==> queried[i] in queried;
    order := OfKind(queried, likes, kind);
    OfKindKeepsOrder(queried, likes, kind);
    ListedCard(order, LikeKeys(likes, target, kind));
  }

  /** A like toggle keeps the likes table keyed. */
  lemma ToggleKeepsKeyed(likes: map<LikeKey, Item>, k: LikeKey, like: Item)
    requires LikesKeyed(likes) && LikeKeyed(k, like)
    ensures LikesKeyed(Toggle(likes, k, like))
  {
  }

  /**
   * A like toggle moves the post's like count by one: up when the caller had
   * not liked it, down when their like was there.
   */
  lemma LikeCountAfterToggle(likes: map<LikeKey, Item>, postId: string, userId: string, displayName: Value)
    ensures var k, like := (postId, userId), NewLike(postId, userId, "post", displayName);
      k !in likes ==> |LikeKeys(Toggle(likes, k, like), postId, "post")| == |LikeKeys(likes, postId, "post")| + 1
    ensures var k, like := (postId, userId), NewLike(postId, userId, "post", displayName);
      k in likes && IsKind(likes[k], "post") ==>
        |LikeKeys(Toggle(likes, k, like), postId, "post")| == |LikeKeys(likes, postId, "post")| - 1
  {
    var k, like := (postId, userId), NewLike(postId, userId, "post", displayName);
    if k !in likes {
      NewLikeAttributes(postId, userId, "post", displayName);
      LikeKeysInsert(likes, k, like, "post");
    } else if IsKind(likes[k], "post") {
      LikeKeysRemove(likes, k, "post");
    }
  }

  /** Inserting a like of the kind adds its key to the target's likes. */
  lemma LikeKeysInsert(likes: map<LikeKey, Item>, k: LikeKey, like: Item, kind: string)
    requires k !in likes && IsKind(like, kind)
    ensures LikeKeys(likes[k := like], k.0, kind) == LikeKeys(likes, k.0, kind) + {k}
  {
  }

  /** Deleting a like of the kind drops its key from the target's likes. */
  lemma LikeKeysRemove(likes: map<LikeKey, Item>, k: LikeKey, kind: string)
    requires k in likes && IsKind(likes[k], kind)
    ensures LikeKeys(likes - {k}, k.0, kind) == LikeKeys(likes, k.0, kind) - {k}
  {
  }

  /** Storing a comment under its own key keeps the comments table keyed. */
  lemma StoreKeepsCommentsKeyed(t: map<CommentKey, Item>, k: CommentKey, item: Item)
    requires CommentsKeyed(t) && CommentKeyed(k, item)
    ensures CommentsKeyed(t[k := item])
  {
  }

  /** Storing a post under its own id keeps the posts table keyed. */
  lemma StoreKeepsPostsKeyed(t: map<string, Item>, k: string, item: Item)
    requires PostsKeyed(t) && PostKeyed(k, item)
    ensures PostsKeyed(t[k := item])
  {
  }

  /** Storing a profile under its own user_id keeps the profiles table keyed. */
  lemma StoreKeepsProfilesKeyed(t: map<string, Item>, k: string, item: Item)
    requires ProfilesKeyed(t) && ProfileKeyed(k, item)
    ensures ProfilesKeyed(t[k := item])
  {
  }

  /** How a handler goes on after its first checks: with what they read, or with the response they give. */
  datatype Route<T> = Proceed(value: T) | Answer(resp: Response)

  /**
   * The first checks of the routes under /posts/{post_id}: the caller's id
   * from the claims, then post_id from the path, which must not be falsy.
   */
  function PostRoute(e: Event): (r: Route<(string, string)>)
    ensures GetUserIdFromEvent(e).Raised? ==> r == Answer(Unhandled(GetUserIdFromEvent(e).error))
    ensures GetUserIdFromEvent(e).Ok? && e.pathParameters.NoneValue? ==> r == Answer(Unhandled(AttributeError))
    ensures r.Proceed? <==>
      && GetUserIdFromEvent(e).Ok? && OptionalPathParam(e, "post_id").Ok?
      && !Falsy(OptionalPathParam(e, "post_id").value)
    ensures r.Proceed? ==> r.value == (e.claims.value["sub"], e.pathParameters.value["post_id"])
    ensures r.Answer? && GetUserIdFromEvent(e).Ok? && !e.pathParameters.NoneValue? ==>
      r.resp == BadRequest("post_id is required")
  {
    match GetUserIdFromEvent(e)
    case Raised(err) => Answer(Unhandled(err))
    case Ok(userId) =>
      match OptionalPathParam(e, "post_id")
      case Raised(err) => Answer(Unhandled(err))
      case Ok(postId) =>
        if Falsy(postId) then Answer(BadRequest("post_id is required")) else Proceed((userId, postId.value))
  }

  /**
   * The first checks of the routes under /posts/{post_id}/comments/{comment_id}:
   * the caller's id, then both path ids, neither of them falsy.
   */
  function CommentRoute(e: Event): (r: Route<(string, CommentKey)>)
    ensures GetUserIdFromEvent(e).Raised? ==> r == Answer(Unhandled(GetUserIdFromEvent(e).error))
    ensures GetUserIdFromEvent(e).Ok? && e.pathParameters.NoneValue? ==> r == Answer(Unhandled(AttributeError))
    ensures r.Proceed? <==>
      && GetUserIdFromEvent(e).Ok? && OptionalPathParam(e, "post_id").Ok?
      && !Falsy(OptionalPathParam(e, "post_id").value) && !Falsy(OptionalPathParam(e, "comment_id").value)
    ensures r.Proceed? ==>
      r.value == (e.claims.value["sub"], (e.pathParameters.value["post_id"], e.pathParameters.value["comment_id"]))
    ensures r.Answer? && GetUserIdFromEvent(e).Ok? && !e.pathParameters.NoneValue? ==>
      r.resp == BadRequest("post_id and comment_id are required")
  {
    match GetUserIdFromEvent(e)
    case Raised(err) => Answer(Unhandled(err))
    case Ok(userId) =>
      match OptionalPathParam(e, "post_id")
      case Raised(err) => Answer(Unhandled(err))
      case Ok(postId) =>
        var commentId := OptionalPathParam(e, "comment_id");
        if Falsy(postId) || Falsy(commentId.value) then Answer(BadRequest("post_id and comment_id are required"))
        else Proceed((userId, (postId.value, commentId.value.value)))
  }

  class Tables {
    var profiles: map<string, Item>
    var posts: map<string, Item>
    var comments: map<CommentKey, Item>
    var likes: map<LikeKey, Item>

    /** The invariant every handler keeps: each table holds its items under their own keys. */
    ghost predicate Valid()
      reads this
    {
      ProfilesKeyed(profiles) && PostsKeyed(posts) && CommentsKeyed(comments) && LikesKeyed(likes)
    }

    constructor ()
      ensures Valid()
      ensures profiles == map[] && posts == map[] && comments == map[] && likes == map[]
    {
      profiles, posts, comments, likes := map[], map[], map[], map[];
    }

    /**
     * GET /profile[?user_id=]: the target defaults to the caller; a private
     * profile is filtered unless the caller is its owner.
     */
    method GetProfile(e: Event) returns (resp: Response)
      requires Valid()
      ensures GetUserIdFromEvent(e).Raised? ==> resp == Unhandled(GetUserIdFromEvent(e).error)
      ensures GetUserIdFromEvent(e).Ok? ==>
        var caller := GetUserIdFromEvent(e).value;
        var target := GetQueryParam(e, "user_id", caller);
        && (target !in profiles ==> resp == NotFound("Profile not found"))
        && (target in profiles ==> resp == Success(Record(FilterPrivateProfile(profiles[target], caller == target))))
    {
      var authUserId := GetUserIdFromEvent(e);
      if authUserId.Raised? {
        return Unhandled(authUserId.error);
      }
      var targetUserId := GetQueryParam(e, "user_id", authUserId.value);
      if targetUserId !in profiles {
        return NotFound("Profile not found");
      }
      var isOwnProfile := authUserId.value == targetUserId;
      resp := Success(Record(FilterPrivateProfile(profiles[targetUserId], isOwnProfile)));
    }

    /**
     * POST /profile: normalise, validate, refuse an existing profile, insert.
     * Validation comes before the existence lookup.
     */
    method CreateProfile(e: Event, timestamp: string) returns (resp: Response)
      requires Valid()
      modifies this`profiles
      ensures Valid()
      ensures !resp.Created? ==> profiles == old(profiles)
      ensures GetUserIdFromEvent(e).Raised? ==> resp == Unhandled(GetUserIdFromEvent(e).error)
      ensures GetUserIdFromEvent(e).Ok? && ParseRequestBody(e).Raised? ==> resp == Unhandled(ParseRequestBody(e).error)
      ensures GetUserIdFromEvent(e).Ok? && ParseRequestBody(e).Ok? ==>
        var userId, fields := GetUserIdFromEvent(e).value, CreateFields(ParseRequestBody(e).value);
        && (fields.Raised? ==> resp == Unhandled(AttributeError))
        && (fields.Ok? && CreateVerdict(fields.value).Invalid? ==> resp == BadRequest(CreateVerdict(fields.value).message))
        && (fields.Ok? && CreateVerdict(fields.value).Valid? && userId in old(profiles) ==>
              resp == Conflict("Profile already exists. Use PUT to update."))
        && (fields.Ok? && CreateVerdict(fields.value).Valid? && userId !in old(profiles) ==>
              && profiles == old(profiles)[userId := NewProfile(userId, fields.value, timestamp)]
              && resp == Created(Record(profiles[userId])))
    {
      var userId := GetUserIdFromEvent(e);
      if userId.Raised? {
        return Unhandled(userId.error);
      }
      var body := ParseRequestBody(e);
      if body.Raised? {
        return Unhandled(body.error);
      }
      var fields := CreateFields(body.value);
      if fields.Raised? {
        CreateFieldsRead(body.value);
        return Unhandled(fields.error);
      }
      var verdict := CreateVerdict(fields.value);
      if verdict.Invalid? {
        return BadRequest(verdict.message);
      }
      var profile := NewProfile(userId.value, fields.value, timestamp);
      if userId.value in profiles {
        return Conflict("Profile already exists. Use PUT to update.");
      }
      StoreKeepsProfilesKeyed(profiles, userId.value, profile);
      profiles := profiles[userId.value := profile];
      resp := Created(Record(profile));
    }

    /**
     * PUT /profile: validate the fields present, require an existing profile,
     * then write updated_at and exactly the fields that were given.
     */
    method UpdateProfile(e: Event, timestamp: string) returns (resp: Response)
      requires Valid()
      modifies this`profiles
      ensures Valid()
      ensures !resp.Success? ==> profiles == old(profiles)
      ensures GetUserIdFromEvent(e).Raised? ==> resp == Unhandled(GetUserIdFromEvent(e).error)
      ensures GetUserIdFromEvent(e).Ok? && ParseRequestBody(e).Raised? ==> resp == Unhandled(ParseRequestBody(e).error)
      ensures GetUserIdFromEvent(e).Ok? && ParseRequestBody(e).Ok? ==>
        var userId, fields := GetUserIdFromEvent(e).value, UpdateFieldsOf(ParseRequestBody(e).value);
        && (fields.Raised? ==> resp == Unhandled(AttributeError))
        && (fields.Ok? && UpdateVerdict(fields.value).Invalid? ==> resp == BadRequest(UpdateVerdict(fields.value).message))
        && (fields.Ok? && UpdateVerdict(fields.value).Valid? && userId !in old(profiles) ==>
              resp == NotFound("Profile not found. Use POST to create."))
        && (fields.Ok? && UpdateVerdict(fields.value).Valid? && userId in old(profiles) ==>
              && profiles == old(profiles)[userId := old(profiles)[userId] + ProfileChanges(fields.value, timestamp)]
              && resp == Success(Record(profiles[userId])))
    {
      var userId := GetUserIdFromEvent(e);
      if userId.Raised? {
        return Unhandled(userId.error);
      }
      var body := ParseRequestBody(e);
      if body.Raised? {
        return Unhandled(body.error);
      }
      var fields := UpdateFieldsOf(body.value);
      if fields.Raised? {
        UpdateFieldsRead(body.value);
        return Unhandled(fields.error);
      }
      var verdict := UpdateVerdict(fields.value);
      if verdict.Invalid? {
        return BadRequest(verdict.message);
      }
      if userId.value !in profiles {
        return NotFound("Profile not found. Use POST to create.");
      }
      var setNames, values := BuildUpdate(fields.value, timestamp);
      StoreKeepsProfilesKeyed(profiles, userId.value, profiles[userId.value] + values);
      profiles := profiles[userId.value := profiles[userId.value] + values];
      resp := Success(Record(profiles[userId.value]));
    }

    /**
     * POST /posts: strip and check the content, look up the author's
     * profile, store the new post. Every exception, from a missing claim to
     * a failed write, is answered 401 by the handler's first `except`; the
     * second `except` never runs. `profileReadFault` is the exception the
     * profile read raises, if any: a ClientError is answered 500, any other
     * falls through to the 401. `writeFails` says the put raises.
     */
    method CreatePost(e: Event, timestamp: string, postId: string, profileReadFault: Option<PyError>, writeFails: bool)
      returns (resp: Response)
      requires Valid()
      modifies this`posts
      ensures Valid()
      ensures !resp.Created? ==> posts == old(posts)
      ensures var userId, content := GetUserIdFromEvent(e), StrippedBodyField(e, "content");
        if userId.Raised? || content.Raised? then resp == Unauthorized("Unauthorized - Invalid token")
        else if CreatePostCheck(content.value).Invalid? then resp == BadRequest(CreatePostCheck(content.value).message)
        else if profileReadFault == Some(ClientError) then resp == ServerError("Failed to retrieve user profile")
        else if profileReadFault.Some? then resp == Unauthorized("Unauthorized - Invalid token")
        else if userId.value !in profiles then resp == NotFound("Profile not found. Please complete onboarding first.")
        else if writeFails then resp == Unauthorized("Unauthorized - Invalid token")
        else
          var post := NewPost(postId, userId.value, AuthorName(profiles[userId.value]), content.value, timestamp);
          posts == old(posts)[postId := post] && resp == Created(Record(post))
    {
      var userId := GetUserIdFromEvent(e);
      if userId.Raised? {
        return Unauthorized("Unauthorized - Invalid token");
      }
      var content := StrippedBodyField(e, "content");
      if content.Raised? {
        return Unauthorized("Unauthorized - Invalid token");
      }
      var check := CreatePostCheck(content.value);
      if check.Invalid? {
        return BadRequest(check.message);
      }
      if profileReadFault.Some? {
        if profileReadFault.value == ClientError {
          return ServerError("Failed to retrieve user profile");
        }
        return Unauthorized("Unauthorized - Invalid token");
      }
      if userId.value !in profiles {
        return NotFound("Profile not found. Please complete onboarding first.");
      }
      var displayName := AuthorName(profiles[userId.value]);
      var post := NewPost(postId, userId.value, displayName, content.value, timestamp);
      if writeFails {
        return Unauthorized("Unauthorized - Invalid token");
      }
      StoreKeepsPostsKeyed(posts, postId, post);
      posts := posts[postId := post];
      resp := Created(Record(post));
    }

    /**
     * PUT /posts/{post_id}: validate the stripped content, then require the
     * post and its ownership, then write content and updated_at.
     */
    method UpdatePost(e: Event, timestamp: string) returns (resp: Response)
      requires Valid()
      modifies this`posts
      ensures Valid()
      ensures !resp.Success? ==> posts == old(posts)
      ensures var userId, postId, content := GetUserIdFromEvent(e), GetPathParam(e, "post_id"), StrippedBodyField(e, "content");
        if userId.Raised? then resp == Unhandled(userId.error)
        else if postId.Raised? then resp == Unhandled(postId.error)
        else if content.Raised? then resp == Unhandled(content.error)
        else if ApiValidators.ValidatePostContent(Some(content.value)).Invalid? then
          resp == BadRequest(ApiValidators.ValidatePostContent(Some(content.value)).message)
        else if postId.value !in old(posts) then resp == NotFound("Post not found")
        else if "user_id" !in old(posts)[postId.value] then resp == Unhandled(KeyError)
        else if !OwnedBy(old(posts)[postId.value], userId.value) then
          resp == Forbidden("Forbidden - You can only edit your own posts")
        else
          && posts == old(posts)[postId.value := EditPost(old(posts)[postId.value], content.value, timestamp)]
          && resp == Success(Record(posts[postId.value]))
    {
      var userId := GetUserIdFromEvent(e);
      if userId.Raised? {
        return Unhandled(userId.error);
      }
      var postId := GetPathParam(e, "post_id");
      if postId.Raised? {
        return Unhandled(postId.error);
      }
      var content := StrippedBodyField(e, "content");
      if content.Raised? {
        return Unhandled(content.error);
      }
      var verdict := ApiValidators.ValidatePostContent(Some(content.value));
      if verdict.Invalid? {
        return BadRequest(verdict.message);
      }
      if postId.value !in posts {
        return NotFound("Post not found");
      }
      var existing := posts[postId.value];
      if "user_id" !in existing {
        return Unhandled(KeyError);
      }
      if existing["user_id"] != Str(userId.value) {
        return Forbidden("Forbidden - You can only edit your own posts");
      }
      var updated := EditPost(existing, content.value, timestamp);
      StoreKeepsPostsKeyed(posts, postId.value, updated);
      posts := posts[postId.value := updated];
      resp := Success(Record(updated));
    }

    /** DELETE /posts/{post_id}: the owner's post is removed; comments and likes stay. */
    method DeletePost(e: Event) returns (resp: Response)
      requires Valid()
      modifies this`posts
      ensures Valid()
      ensures comments == old(comments) && likes == old(likes) && profiles == old(profiles)
      ensures !resp.Success? ==> posts == old(posts)
      ensures var userId, postId := GetUserIdFromEvent(e), GetPathParam(e, "post_id");
        if userId.Raised? then resp == Unhandled(userId.error)
        else if postId.Raised? then resp == Unhandled(postId.error)
        else if postId.value !in old(posts) then resp == NotFound("Post not found")
        else if "user_id" !in old(posts)[postId.value] then resp == Unhandled(KeyError)
        else if !OwnedBy(old(posts)[postId.value], userId.value) then
          resp == Forbidden("Forbidden - You can only delete your own posts")
        else posts == old(posts) - {postId.value} && resp == Success(Message("Post deleted successfully"))
    {
      var userId := GetUserIdFromEvent(e);
      if userId.Raised? {
        return Unhandled(userId.error);
      }
      var postId := GetPathParam(e, "post_id");
      if postId.Raised? {
        return Unhandled(postId.error);
      }
      if postId.value !in posts {
        return NotFound("Post not found");
      }
      var existing := posts[postId.value];
      if "user_id" !in existing {
        return Unhandled(KeyError);
      }
      if existing["user_id"] != Str(userId.value) {
        return Forbidden("Forbidden - You can only delete your own posts");
      }
      posts := posts - {postId.value};
      resp := Success(Message("Post deleted successfully"));
    }

    /**
     * POST /posts/{post_id}/comments: post_id, then the comment rule on the
     * stripped content, then the post and the author's profile; the comment
     * is stored under (post_id, comment_id).
     */
    method CreateComment(e: Event, timestamp: string, commentId: string) returns (resp: Response)
      requires Valid()
      modifies this`comments
      ensures Valid()
      ensures !resp.Created? ==> comments == old(comments)
      ensures match PostRoute(e)
        case Answer(r) => resp == r
        case Proceed((userId, postId)) =>
          var content := StrippedBodyField(e, "content");
          if content.Raised? then resp == Unhandled(content.error)
          else if ApiValidators.ValidateCommentContent(Some(content.value)).Invalid? then
            resp == BadRequest(ApiValidators.ValidateCommentContent(Some(content.value)).message)
          else if postId !in posts then resp == NotFound("Post not found")
          else if userId !in profiles then resp == NotFound("Profile not found. Please complete onboarding first.")
          else
            var comment := NewComment(commentId, postId, userId, AuthorName(profiles[userId]), content.value, timestamp);
            comments == old(comments)[(postId, commentId) := comment] && resp == Created(Record(comment))
    {
      var route := PostRoute(e);
      if route.Answer? {
        return route.resp;
      }
      var (userId, postId) := route.value;
      var content := StrippedBodyField(e, "content");
      if content.Raised? {
        return Unhandled(content.error);
      }
      var verdict := ApiValidators.ValidateCommentContent(Some(content.value));
      if verdict.Invalid? {
        return BadRequest(verdict.message);
      }
      if postId !in posts {
        return NotFound("Post not found");
      }
      if userId !in profiles {
        return NotFound("Profile not found. Please complete onboarding first.");
      }
      var displayName := AuthorName(profiles[userId]);
      var comment := NewComment(commentId, postId, userId, displayName, content.value, timestamp);
      StoreKeepsCommentsKeyed(comments, (postId, commentId), comment);
      comments := comments[(postId, commentId) := comment];
      resp := Created(Record(comment));
    }

    /** DELETE /posts/{post_id}/comments/{comment_id}: the owner's comment is removed. */
    method DeleteComment(e: Event) returns (resp: Response)
      requires Valid()
      modifies this`comments
      ensures Valid()
      ensures !resp.Success? ==> comments == old(comments)
      ensures match CommentRoute(e)
        case Answer(r) => resp == r
        case Proceed((userId, key)) =>
          if key !in old(comments) then resp == NotFound("Comment not found")
          else if "user_id" !in old(comments)[key] then resp == Unhandled(KeyError)
          else if !OwnedBy(old(comments)[key], userId) then resp == Forbidden("You can only delete your own comments")
          else comments == old(comments) - {key} && resp == Success(Message("Comment deleted successfully"))
    {
      var route := CommentRoute(e);
      if route.Answer? {
        return route.resp;
      }
      var (userId, key) := route.value;
      if key !in comments {
        return NotFound("Comment not found");
      }
      var comment := comments[key];
      if "user_id" !in comment {
        return Unhandled(KeyError);
      }
      if comment["user_id"] != Str(userId) {
        return Forbidden("You can only delete your own comments");
      }
      comments := comments - {key};
      resp := Success(Message("Comment deleted successfully"));
    }

    /**
     * POST /posts/{post_id}/like: after the post and profile checks, the
     * caller's like on the post is deleted when present and inserted
     * otherwise; `liked` says which.
     */
    method LikePost(e: Event) returns (resp: Response)
      requires Valid()
      modifies this`likes
      ensures Valid()
      ensures !resp.Success? ==> likes == old(likes)
      ensures match PostRoute(e)
        case Answer(r) => resp == r
        case Proceed((userId, postId)) =>
          if postId !in posts then resp == NotFound("Post not found")
          else if userId !in profiles then resp == NotFound("Profile not found. Please complete onboarding first.")
          else
            var k := (postId, userId);
            && likes == Toggle(old(likes), k, NewLike(postId, userId, "post", AuthorName(profiles[userId])))
            && resp == Success(LikeState(k in likes, if k in likes then "Post liked" else "Post unliked"))
    {
      var route := PostRoute(e);
      if route.Answer? {
        return route.resp;
      }
      var (userId, postId) := route.value;
      if postId !in posts {
        return NotFound("Post not found");
      }
      if userId !in profiles {
        return NotFound("Profile not found. Please complete onboarding first.");
      }
      var displayName := AuthorName(profiles[userId]);
      var k := (postId, userId);
      ToggleKeepsKeyed(likes, k, NewLike(postId, userId, "post", displayName));
      if k in likes {
        likes := likes - {k};
        resp := Success(LikeState(false, "Post unliked"));
      } else {
        likes := likes[k := NewLike(postId, userId, "post", displayName)];
        resp := Success(LikeState(true, "Post liked"));
      }
    }

    /**
     * POST /posts/{post_id}/comments/{comment_id}/like: the same toggle on
     * the like keyed by the comment id.
     */
    method LikeComment(e: Event) returns (resp: Response)
      requires Valid()
      modifies this`likes
      ensures Valid()
      ensures !resp.Success? ==> likes == old(likes)
      ensures match CommentRoute(e)
        case Answer(r) => resp == r
        case Proceed((userId, key)) =>
          if key !in comments then resp == NotFound("Comment not found")
          else if userId !in profiles then resp == NotFound("Profile not found. Please complete onboarding first.")
          else
            var k := (key.1, userId);
            && likes == Toggle(old(likes), k, NewLike(key.1, userId, "comment", AuthorName(profiles[userId])))
            && resp == Success(LikeState(k in likes, if k in likes then "Comment liked" else "Comment unliked"))
    {
      var route := CommentRoute(e);
      if route.Answer? {
        return route.resp;
      }
      var (userId, key) := route.value;
      if key !in comments {
        return NotFound("Comment not found");
      }
      if userId !in profiles {
        return NotFound("Profile not found. Please complete onboarding first.");
      }
      var displayName := AuthorName(profiles[userId]);
      var k := (key.1, userId);
      ToggleKeepsKeyed(likes, k, NewLike(key.1, userId, "comment", displayName));
      if k in likes {
        likes := likes - {k};
        resp := Success(LikeState(false, "Comment unliked"));
      } else {
        likes := likes[k := NewLike(key.1, userId, "comment", displayName)];
        resp := Success(LikeState(true, "Comment liked"));
      }
    }

    /**
     * GET /posts/{post_id}/likes: who liked the post, in the likes table's
     * user_id order, and how many. `order` is the keys of the listed likes.
     */
    method GetPostLikes(e: Event) returns (resp: Response, ghost order: seq<LikeKey>)
      requires Valid()
      ensures match PostRoute(e)
        case Answer(r) => resp == r
        case Proceed((_, postId)) =>
          if postId !in posts then resp == NotFound("Post not found")
          else
            var postLikes := LikeKeys(likes, postId, "post");
            && (forall k :: k in order <==> k in postLikes)
            && Distinct(order) && Ordered(order, UserOf, false)
            && resp == Success(Likers(LikerList(order, likes), |postLikes|))
    {
      order := [];
      var route := PostRoute(e);
      if route.Answer? {
        return route.resp, order;
      }
      var (_, postId) := route.value;
      if postId !in posts {
        return NotFound("Post not found"), order;
      }
      var postLikes := LikesOfTarget(likes, postId, "post");
      order := postLikes;
      var users := LikerList(postLikes, likes);
      resp := Success(Likers(users, |users|));
    }

    /** GET /posts/{post_id}/comments/{comment_id}/likes: the same for a comment. */
    method GetCommentLikes(e: Event) returns (resp: Response, ghost order: seq<LikeKey>)
      requires Valid()
      ensures match CommentRoute(e)
        case Answer(r) => resp == r
        case Proceed((_, key)) =>
          if key !in comments then resp == NotFound("Comment not found")
          else
            var commentLikes := LikeKeys(likes, key.1, "comment");
            && (forall k :: k in order <==> k in commentLikes)
            && Distinct(order) && Ordered(order, UserOf, false)
            && resp == Success(Likers(LikerList(order, likes), |commentLikes|))
    {
      order := [];
      var route := CommentRoute(e);
      if route.Answer? {
        return route.resp, order;
      }
      var (_, key) := route.value;
      if key !in comments {
        return NotFound("Comment not found"), order;
      }
      var commentLikes := LikesOfTarget(likes, key.1, "comment");
      order := commentLikes;
      var users := LikerList(commentLikes, likes);
      resp := Success(Likers(users, |users|));
    }

    /**
     * GET /posts: every post, newest first by created_at, cut to the first
     * 100, each with its counts for the caller.
     * `order` is the post ids listed.
     */
    method GetFeed(e: Event) returns (resp: Response, ghost order: seq<string>)
      requires Valid()
      ensures GetUserIdFromEvent(e).Raised? ==> resp == Unhandled(GetUserIdFromEvent(e).error)
      ensures GetUserIdFromEvent(e).Ok? ==>
        && |order| == (if |posts| < 100 then |posts| else 100)
        && Distinct(order) && (forall p :: p in order ==> p in posts)
        && Ordered(order, ByCreatedAt(posts), true)
        && (forall i, p :: 0 <= i < |order| && p in posts && p !in order ==>
              Before(true, CreatedAt(posts[order[i]]), CreatedAt(posts[p])))
        && resp.Success? && resp.payload.Records? && |resp.payload.items| == |order|
        && forall i :: 0 <= i < |order| ==>
             resp.payload.items[i] == AnnotatePost(posts[order[i]], order[i], likes, comments, GetUserIdFromEvent(e).value)
    {
      order := [];
      var userId := GetUserIdFromEvent(e);
      if userId.Raised? {
        return Unhandled(userId.error), order;
      }
      var sorted := ScanSorted(posts.Keys, ByCreatedAt(posts), true);
      var top := if |sorted| > 100 then sorted[..100] else sorted;
      KeptAreNewest(sorted, top, posts);
      var items := AnnotatedPosts(top, posts, likes, comments, userId.value);
      order := top;
      resp := Success(Records(items));
    }

    /**
     * GET /posts/user[?user_id=]: the target's posts, newest first, each with
     * its counts for the caller (not for the target).
     */
    method GetUserPosts(e: Event) returns (resp: Response, ghost order: seq<string>)
      requires Valid()
      ensures GetUserIdFromEvent(e).Raised? ==> resp == Unhandled(GetUserIdFromEvent(e).error)
      ensures GetUserIdFromEvent(e).Ok? ==>
        var caller := GetUserIdFromEvent(e).value;
        var target := GetQueryParam(e, "user_id", caller);
        && (forall p :: p in order <==> p in posts && Get(posts[p], "user_id", Null) == Str(target))
        && Distinct(order) && Ordered(order, ByCreatedAt(posts), true)
        && resp.Success? && resp.payload.Records? && |resp.payload.items| == |order|
        && forall i :: 0 <= i < |order| ==>
             resp.payload.items[i] == AnnotatePost(posts[order[i]], order[i], likes, comments, caller)
    {
      order := [];
      var authUserId := GetUserIdFromEvent(e);
      if authUserId.Raised? {
        return Unhandled(authUserId.error), order;
      }
      var targetUserId := GetQueryParam(e, "user_id", authUserId.value);
      var ofTarget := set p | p in posts && Get(posts[p], "user_id", Null) == Str(targetUserId);
      var mine := ScanSorted(ofTarget, ByCreatedAt(posts), true);
      assert forall i :: 0 <= i < |mine| ==> mine[i] in mine;
      var items := AnnotatedPosts(mine, posts, likes, comments, authUserId.value);
      order := mine;
      resp := Success(Records(items));
    }

    /**
     * GET /posts/{post_id}/comments: the post's comments, oldest first, each
     * with its like count and the caller's like.
     */
    method GetComments(e: Event) returns (resp: Response, ghost order: seq<CommentKey>)
      requires Valid()
      ensures match PostRoute(e)
        case Answer(r) => resp == r
        case Proceed((userId, postId)) =>
          if postId !in posts then resp == NotFound("Post not found")
          else
            && (forall k :: k in order <==> k in comments && k.0 == postId)
            && Distinct(order) && Ordered(order, ByCreatedAt(comments), false)
            && resp.Success? && resp.payload.Records? && |resp.payload.items| == |order|
            && forall i :: 0 <= i < |order| ==>
                 resp.payload.items[i] == AnnotateComment(comments[order[i]], order[i].1, likes, userId)
    {
      order := [];
      var route := PostRoute(e);
      if route.Answer? {
        return route.resp, order;
      }
      var (userId, postId) := route.value;
      if postId !in posts {
        return NotFound("Post not found"), order;
      }
      var onPost := set k | k in comments && k.0 == postId;
      var ofPost := ScanSorted(onPost, ByCreatedAt(comments), false);
      assert forall i :: 0 <= i < |ofPost| ==> ofPost[i] in ofPost;
      var items := AnnotatedComments(ofPost, comments, likes, userId);
      order := ofPost;
      resp := Success(Records(items));
    }
  }

  /**
   * The listed posts as the handler returns them: read in the given order,
   * then each annotated in place for the viewer.
   */
  method AnnotatedPosts(keys: seq<string>, posts: map<string, Item>, likes: map<LikeKey, Item>,
                        comments: map<CommentKey, Item>, viewer: string) returns (items: seq<Item>)
    requires PostsKeyed(posts)
    requires forall i :: 0 <= i < |keys| ==> keys[i] in posts
    ensures |items| == |keys|
    ensures forall i :: 0 <= i < |keys| ==> items[i] == AnnotatePost(posts[keys[i]], keys[i], likes, comments, viewer)
  {
    var a := ItemsOf(keys, posts);
    assert forall i :: 0 <= i < |keys| ==> PostKeyed(keys[i], posts[keys[i]]);
    AnnotatePostsInPlace(a, likes, comments, viewer);
    items := a[..];
  }

  /** The listed comments as get_comments returns them. */
  method AnnotatedComments(keys: seq<CommentKey>, comments: map<CommentKey, Item>, likes: map<LikeKey, Item>,
                           viewer: string) returns (items: seq<Item>)
    requires CommentsKeyed(comments)
    requires forall i :: 0 <= i < |keys| ==> keys[i] in comments
    ensures |items| == |keys|
    ensures forall i :: 0 <= i < |keys| ==> items[i] == AnnotateComment(comments[keys[i]], keys[i].1, likes, viewer)
  {
    var a := ItemsOf(keys, comments);
    assert forall i :: 0 <= i < |keys| ==> CommentKeyed(keys[i], comments[keys[i]]);
    AnnotateCommentsInPlace(a, likes, viewer);
    items := a[..];
  }

  /**
   * The first n of a listing sorted newest first are themselves a sorted
   * listing of posts, and every post left out is no newer than any kept.
   */
  lemma KeptAreNewest(sorted: seq<string>, top: seq<string>, posts: map<string, Item>)
    requires Distinct(sorted) && Ordered(sorted, ByCreatedAt(posts), true)
    requires forall p :: p in sorted <==> p in posts
    requires |top| <= |sorted| && top == sorted[..|top|]
    ensures Distinct(top) && Ordered(top, ByCreatedAt(posts), true)
    ensures forall p :: p in top ==> p in posts
    ensures forall i, p :: 0 <= i < |top| && p in posts && p !in top ==>
      Before(true, CreatedAt(posts[top[i]]), CreatedAt(posts[p]))
  {
    forall i, p | 0 <= i < |top| && p in posts && p !in top
      ensures Before(true, CreatedAt(posts[top[i]]), CreatedAt(posts[p]))
    {
      var j :| 0 <= j < |sorted| && sorted[j] == p;
      assert sorted[i] == top[i];
      assert Before(true, ByCreatedAt(posts)(sorted[i]), ByCreatedAt(posts)(sorted[j]));
    }
    assert forall p :: p in top ==> p in sorted;
  }


  /**
   * Liking a post twice from a state without the caller's like gives the
   * likes table back; from a state with it, the like is back (freshly
   * written) and the second answer is liked=True.
   */
  method LikePostTwice(t: Tables, e: Event) returns (first: Response, second: Response)
    requires t.Valid()
    modifies t`likes
    ensures t.Valid()
    ensures first.Success? ==> first.payload.LikeState? && second.Success? && second.payload.LikeState?
    ensures first.Success? ==> first.payload.liked != second.payload.liked
    ensures first.Success? ==> t.likes.Keys == old(t.likes.Keys)
    ensures first == Success(LikeState(true, "Post liked")) ==> t.likes == old(t.likes)
  {
    first := t.LikePost(e);
    second := t.LikePost(e);
    if first.Success? {
      var (userId, postId) := PostRoute(e).value;
      var like := NewLike(postId, userId, "post", AuthorName(t.profiles[userId]));
      ToggleKeysInvolution(old(t.likes), (postId, userId), like);
      if first.payload.liked {
        ToggleTwiceRestores(old(t.likes), (postId, userId), like);
      }
    }
  }

}
