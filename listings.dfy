/**
 * The loops of the listing handlers (get_feed, get_user_posts, get_comments):
 * each walks the list of items the table returned and writes the computed
 * counts into every item in place.
 */
module Listings {
  import opened Lambda
  import opened Queries

  /** `item[key]` is there and is a string: the id the loop reads. */
  predicate HasId(item: Item, key: string) {
    key in item && item[key].Str?
  }

  /**
   * `for post in posts: post_id = post['post_id']; post['like_count'] = …;
   * post['liked_by_user'] = …; post['comment_count'] = …`.
   */
  method AnnotatePostsInPlace(a: array<Item>, likes: map<LikeKey, Item>, comments: map<CommentKey, Item>, viewer: string)
    requires forall i :: 0 <= i < a.Length ==> HasId(a[i], "post_id")
    modifies a
    ensures forall i :: 0 <= i < a.Length ==>
      old(HasId(a[i], "post_id")) && a[i] == AnnotatePost(old(a[i]), old(a[i])["post_id"].s, likes, comments, viewer)
  {
    var i := 0;
    while i < a.Length
      invariant 0 <= i <= a.Length
      invariant forall j :: 0 <= j < i ==> a[j] == AnnotatePost(old(a[j]), old(a[j])["post_id"].s, likes, comments, viewer)
      invariant forall j :: i <= j < a.Length ==> a[j] == old(a[j])
    {
      var postId := a[i]["post_id"].s;
      a[i] := AnnotatePost(a[i], postId, likes, comments, viewer);
      i := i + 1;
    }
  }

  /**
   * `for comment in comments: comment_id = comment['comment_id'];
   * comment['like_count'] = …; comment['liked_by_user'] = …`.
   */
  method AnnotateCommentsInPlace(a: array<Item>, likes: map<LikeKey, Item>, viewer: string)
    requires forall i :: 0 <= i < a.Length ==> HasId(a[i], "comment_id")
    modifies a
    ensures forall i :: 0 <= i < a.Length ==>
      old(HasId(a[i], "comment_id")) && a[i] == AnnotateComment(old(a[i]), old(a[i])["comment_id"].s, likes, viewer)
  {
    var i := 0;
    while i < a.Length
      invariant 0 <= i <= a.Length
      invariant forall j :: 0 <= j < i ==> a[j] == AnnotateComment(old(a[j]), old(a[j])["comment_id"].s, likes, viewer)
      invariant forall j :: i <= j < a.Length ==> a[j] == old(a[j])
    {
      var commentId := a[i]["comment_id"].s;
      a[i] := AnnotateComment(a[i], commentId, likes, viewer);
      i := i + 1;
    }
  }

  /** The items stored under the given keys, in that order, as a fresh list. */
  method ItemsOf<K>(keys: seq<K>, table: map<K, Item>) returns (a: array<Item>)
    requires forall i :: 0 <= i < |keys| ==> keys[i] in table
    ensures fresh(a) && a.Length == |keys|
    ensures forall i :: 0 <= i < |keys| ==> a[i] == table[keys[i]]
  {
    a := new Item[|keys|](i requires 0 <= i < |keys| => table[keys[i]]);
  }
}
