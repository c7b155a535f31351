/**
 * The records the post handlers write (posts, comments, likes), the like
 * toggle of like_post and like_comment, and create_post's own content checks.
 */
module Posts {
  import opened Wrappers
  import opened Text
  import opened Verdicts
  import opened Lambda
  import ApiValidators

  /** The item create_post stores and returns. */
  function NewPost(postId: string, userId: string, displayName: Value, content: string, timestamp: string): Item
  {
    map["post_id" := Str(postId), "user_id" := Str(userId), "display_name" := displayName,
        "content" := Str(content), "created_at" := Str(timestamp), "updated_at" := Str(timestamp)]
  }

  /** The item create_comment stores and returns; comments carry no updated_at. */
  function NewComment(commentId: string, postId: string, userId: string, displayName: Value,
                      content: string, timestamp: string): Item
  {
    map["comment_id" := Str(commentId), "post_id" := Str(postId), "user_id" := Str(userId),
        "display_name" := displayName, "content" := Str(content), "created_at" := Str(timestamp)]
  }

  /** The item a like toggle inserts; kind is 'post' or 'comment'. */
  function NewLike(targetId: string, userId: string, kind: string, displayName: Value): Item
  {
    map["target_id" := Str(targetId), "user_id" := Str(userId), "target_type" := Str(kind),
        "display_name" := displayName]
  }

  /** A new post has exactly its six attributes, holding the given values. */
  lemma NewPostAttributes(postId: string, userId: string, displayName: Value, content: string, timestamp: string)
    ensures var post := NewPost(postId, userId, displayName, content, timestamp);
      && post.Keys == {"post_id", "user_id", "display_name", "content", "created_at", "updated_at"}
      && post["post_id"] == Str(postId) && post["user_id"] == Str(userId)
      && post["display_name"] == displayName && post["content"] == Str(content)
      && post["created_at"] == post["updated_at"] == Str(timestamp)
  {
  }

  /** A new comment has exactly its six attributes: no updated_at, since comments are not edited. */
  lemma NewCommentAttributes(commentId: string, postId: string, userId: string, displayName: Value,
                             content: string, timestamp: string)
    ensures var comment := NewComment(commentId, postId, userId, displayName, content, timestamp);
      && comment.Keys == {"comment_id", "post_id", "user_id", "display_name", "content", "created_at"}
      && "updated_at" !in comment
      && comment["comment_id"] == Str(commentId) && comment["post_id"] == Str(postId)
      && comment["user_id"] == Str(userId) && comment["display_name"] == displayName
      && comment["content"] == Str(content) && comment["created_at"] == Str(timestamp)
  {
  }

  /** A new like has exactly its four attributes. */
  lemma NewLikeAttributes(targetId: string, userId: string, kind: string, displayName: Value)
    ensures var like := NewLike(targetId, userId, kind, displayName);
      && like.Keys == {"target_id", "user_id", "target_type", "display_name"}
      && like["target_id"] == Str(targetId) && like["user_id"] == Str(userId)
      && like["target_type"] == Str(kind) && like["display_name"] == displayName
  {
  }

  /** The attributes update_post writes. */
  const EditedFields: set<string> := {"content", "updated_at"}

  /**
   * update_post's `SET content = :content, updated_at = :updated_at`: the two
   * attributes are written, every other attribute keeps its value.
   */
  function EditPost(post: Item, content: string, timestamp: string): (r: Item)
    ensures r.Keys == post.Keys + EditedFields
    ensures r["content"] == Str(content) && r["updated_at"] == Str(timestamp)
    ensures forall a :: a in post && a !in EditedFields ==> r[a] == post[a]
  {
    post["content" := Str(content)]["updated_at" := Str(timestamp)]
  }

  /** An edit leaves the post's id, author, author name and creation time alone. */
  lemma EditKeepsIdentity(post: Item, content: string, timestamp: string)
    ensures forall a :: a in {"post_id", "user_id", "display_name", "created_at"} && a in post ==>
      EditPost(post, content, timestamp)[a] == post[a]
  {
  }

  /** `profile_response['Item'].get('display_name', 'Unknown User')`. */
  function AuthorName(profile: Item): (name: Value)
    ensures "display_name" in profile ==> name == profile["display_name"]
    ensures "display_name" !in profile ==> name == Str("Unknown User")
  {
    Get(profile, "display_name", Str("Unknown User"))
  }

  /**
   * One like toggle: the like at key k is deleted when present and like is
   * put there otherwise; no other key is touched.
   */
  function Toggle<K(!new)>(likes: map<K, Item>, k: K, like: Item): (r: map<K, Item>)
    ensures k in r <==> k !in likes
    ensures k in r ==> r[k] == like
    ensures forall j :: j != k ==> (j in r <==> j in likes)
    ensures forall j :: j != k && j in likes ==> r[j] == likes[j]
  {
    if k in likes then likes - {k} else likes[k := like]
  }

  /** Toggling twice from "not liked" gives the table back. */
  lemma ToggleTwiceRestores<K(!new)>(likes: map<K, Item>, k: K, like: Item)
    requires k !in likes
    ensures Toggle(Toggle(likes, k, like), k, like) == likes
  {
    var once := Toggle(likes, k, like);
    var twice := Toggle(once, k, like);
    assert twice.Keys == likes.Keys;
  }

  /**
   * Toggling twice from "liked" leaves a like at k again: the fresh one, which
   * records the current display name.
   */
  lemma ToggleTwiceRelikes<K(!new)>(likes: map<K, Item>, k: K, like: Item)
    requires k in likes
    ensures Toggle(Toggle(likes, k, like), k, like) == likes[k := like]
  {
    var twice := Toggle(Toggle(likes, k, like), k, like);
    assert twice.Keys == likes[k := like].Keys;
  }

  /** On the set of liked keys, a toggle is an involution. */
  lemma ToggleKeysInvolution<K(!new)>(likes: map<K, Item>, k: K, like: Item)
    ensures Toggle(Toggle(likes, k, like), k, like).Keys == likes.Keys
  {
    var twice := Toggle(Toggle(likes, k, like), k, like);
    forall j ensures j in twice <==> j in likes {
    }
  }

  /** create_post's two inline checks on the stripped content. */
  function CreatePostCheck(content: string): (r: Verdict)
    ensures r.Valid? <==> content != "" && |content| <= ApiValidators.PostContentMaxLength
  {
    if content == "" then Invalid("Content is required")
    else if |content| > ApiValidators.PostContentMaxLength then Invalid("Content must not exceed 280 characters")
    else Valid
  }

  /** On stripped text, create_post's checks are validate_post_content, messages included. */
  lemma CreatePostCheckAgrees(raw: string)
    ensures CreatePostCheck(Trim(Python, raw)) == ApiValidators.ValidatePostContent(Some(Trim(Python, raw)))
  {
    TrimIdempotent(Python, raw);
  }
}
