/**
 * What the read handlers compute from the likes and comments tables: the
 * likes of one kind on one target, the comment count of a post, and the
 * counts written into each listed post or comment.
 */
module Queries {
  import opened Lambda
  import opened Ordering

  /** Likes are keyed by (target_id, user_id): a post id or a comment id, then the liker. */
  type LikeKey = (string, string)
  /** Comments are keyed by (post_id, comment_id). */
  type CommentKey = (string, string)

  /** `x.get('created_at', '')` as a sort key. */
  function CreatedAt(item: Item): string {
    match Get(item, "created_at", Str(""))
    case Str(s) => s
    case _ => ""
  }

  /** `like.get('target_type') == kind`. */
  predicate IsKind(like: Item, kind: string) {
    Get(like, "target_type", Null) == Str(kind)
  }

  /** The liker: the sort key of the likes table. */
  function UserOf(k: LikeKey): string {
    k.1
  }

  /** The likes of type kind stored under target_id target. */
  function LikeKeys(likes: map<LikeKey, Item>, target: string, kind: string): (ks: set<LikeKey>)
    ensures forall k :: k in ks <==> k in likes && k.0 == target && IsKind(likes[k], kind)
  {
    set k | k in likes && k.0 == target && IsKind(likes[k], kind)
  }

  /** What a Select='COUNT' query on the partition post_id reports. */
  function CommentCount(comments: map<CommentKey, Item>, postId: string): nat {
    |set k | k in comments && k.0 == postId|
  }

  /** The list comprehension keeping the likes of one kind, in query order. */
  function OfKind(ks: seq<LikeKey>, likes: map<LikeKey, Item>, kind: string): (r: seq<LikeKey>)
    requires forall i :: 0 <= i < |ks| ==> ks[i] in likes
    ensures |r| <= |ks|
    ensures forall k :: k in r <==> k in ks && IsKind(likes[k], kind)
  {
    if ks == [] then []
    else
      assert forall k :: k in ks[1..] ==> k in ks;
      if IsKind(likes[ks[0]], kind) then [ks[0]] + OfKind(ks[1..], likes, kind)
      else OfKind(ks[1..], likes, kind)
  }

  /** Filtering keeps the query's order and adds no repeats. */
  lemma {:induction false} OfKindKeepsOrder(ks: seq<LikeKey>, likes: map<LikeKey, Item>, kind: string)
    requires forall i :: 0 <= i < |ks| ==> ks[i] in likes
    requires Distinct(ks) && Ordered(ks, UserOf, false)
    ensures Distinct(OfKind(ks, likes, kind)) && Ordered(OfKind(ks, likes, kind), UserOf, false)
  {
    if ks != [] {
      var t := ks[1..];
      forall i, j | 0 <= i < j < |t|
        ensures t[i] != t[j] && Before(false, UserOf(t[i]), UserOf(t[j]))
      {
        assert t[i] == ks[i + 1] && t[j] == ks[j + 1];
      }
      assert forall k :: k in t ==> k in ks;
      OfKindKeepsOrder(t, likes, kind);
      if IsKind(likes[ks[0]], kind) {
        var rest := OfKind(t, likes, kind);
        var r := [ks[0]] + rest;
        forall i, j | 0 <= i < j < |r|
          ensures r[i] != r[j] && Before(false, UserOf(r[i]), UserOf(r[j]))
        {
          if i == 0 {
            assert r[j] == rest[j - 1] && rest[j - 1] in rest;
            var m :| 0 <= m < |t| && t[m] == r[j];
            assert ks[m + 1] == r[j];
          } else {
            assert r[i] == rest[i - 1] && r[j] == rest[j - 1];
          }
        }
      }
    }
  }

  /** A list without repeats has as many members as elements. */
  lemma {:induction false} DistinctCard<K>(s: seq<K>)
    requires Distinct(s)
    ensures |set x | x in s| == |s|
  {
    if s != [] {
      var t := s[1..];
      assert Distinct(t) by {
        forall i, j | 0 <= i < j < |t| ensures t[i] != t[j] {
          assert t[i] == s[i + 1] && t[j] == s[j + 1];
        }
      }
      DistinctCard(t);
      assert s[0] !in t by {
        forall i | 0 <= i < |t| ensures t[i] != s[0] {
          assert t[i] == s[i + 1];
        }
      }
      assert (set x | x in s) == (set x | x in t) + {s[0]};
    }
  }

  /** A liker counts toward the total they are part of. */
  lemma LikedIsCounted(likes: map<LikeKey, Item>, target: string, kind: string, viewer: string)
    requires (target, viewer) in LikeKeys(likes, target, kind)
    ensures |LikeKeys(likes, target, kind)| >= 1
  {
    var ks := LikeKeys(likes, target, kind);
    assert ks == (ks - {(target, viewer)}) + {(target, viewer)};
  }

  /** A post as the feed and the per-user listing return it. */
  function AnnotatePost(post: Item, postId: string, likes: map<LikeKey, Item>,
                        comments: map<CommentKey, Item>, viewer: string): (r: Item)
    ensures r.Keys == post.Keys + {"like_count", "liked_by_user", "comment_count"}
    ensures forall a :: a in post && a !in {"like_count", "liked_by_user", "comment_count"} ==> r[a] == post[a]
    ensures r["like_count"] == Num(|LikeKeys(likes, postId, "post")|)
    ensures r["liked_by_user"] == Bool((postId, viewer) in LikeKeys(likes, postId, "post"))
    ensures r["comment_count"] == Num(CommentCount(comments, postId))
    ensures r["liked_by_user"] == Bool(true) ==> r["like_count"].n >= 1
  {
    var liked := (postId, viewer) in LikeKeys(likes, postId, "post");
    assert liked ==> |LikeKeys(likes, postId, "post")| >= 1 by {
      if liked {
        LikedIsCounted(likes, postId, "post", viewer);
      }
    }
    post["like_count" := Num(|LikeKeys(likes, postId, "post")|)]
        ["liked_by_user" := Bool(liked)]
        ["comment_count" := Num(CommentCount(comments, postId))]
  }

  /** A comment as get_comments returns it. */
  function AnnotateComment(comment: Item, commentId: string, likes: map<LikeKey, Item>, viewer: string): (r: Item)
    ensures r.Keys == comment.Keys + {"like_count", "liked_by_user"}
    ensures forall a :: a in comment && a !in {"like_count", "liked_by_user"} ==> r[a] == comment[a]
    ensures r["like_count"] == Num(|LikeKeys(likes, commentId, "comment")|)
    ensures r["liked_by_user"] == Bool((commentId, viewer) in LikeKeys(likes, commentId, "comment"))
    ensures r["liked_by_user"] == Bool(true) ==> r["like_count"].n >= 1
  {
    var liked := (commentId, viewer) in LikeKeys(likes, commentId, "comment");
    assert liked ==> |LikeKeys(likes, commentId, "comment")| >= 1 by {
      if liked {
        LikedIsCounted(likes, commentId, "comment", viewer);
      }
    }
    comment["like_count" := Num(|LikeKeys(likes, commentId, "comment")|)]
           ["liked_by_user" := Bool(liked)]
  }
}
