/**
 * The profile store: the signed-in user's posts, loaded when a token
 * appears and patched locally after a post deletion. Which user is loaded
 * is `Session.TokenUser` of the context token.
 */
module ProfileStore {
  import opened Common
  import opened Entities
  import opened Lists

  /** `profilePosts`: absent (`null`) until the first load. */
  datatype Store = Store(posts: Option<seq<Post>>)

  const InitialStore: Store := Store(None)

  /**
   * `getUserPosts`: on success the store holds the server list reversed, so
   * the newest post comes first; a failed request changes nothing.
   */
  function LoadUserPosts(store: Store, reply: Reply<seq<Post>>): (r: Store)
    ensures reply.Ok? ==> r.posts.Some? && |r.posts.value| == |reply.data|
    ensures reply.Ok? ==> forall i :: 0 <= i < |reply.data| ==> r.posts.value[i] == reply.data[|reply.data| - 1 - i]
    ensures !reply.Ok? ==> r == store
  {
    match reply
    case Ok(list) => Store(Some(Reverse(list)))
    case _ => store
  }

  /** Reversing the stored list gives the server's order back. */
  lemma LoadedPostsReverseBack(store: Store, list: seq<Post>)
    ensures Reverse(LoadUserPosts(store, Ok(list)).posts.value) == list
  {
    ReverseInvolutive(list);
  }

  /** Keeps the posts whose id differs from `id`. */
  function Without(posts: seq<Post>, id: string): (r: seq<Post>) {
    Filter((p: Post) => p.id != id, posts)
  }

  /**
   * `deletePost`: nothing changes before the server answers, so a failed
   * request changes nothing. On success every post whose id equals the id of
   * the post the server returns is removed (the argument only names the
   * request), the rest keep their order, and an unloaded store stays unloaded.
   */
  function DeletePost(store: Store, postId: string, reply: Reply<Post>): (r: Store)
    ensures !reply.Ok? || store.posts.None? ==> r == store
    ensures reply.Ok? && store.posts.Some? ==> r.posts.Some?
    ensures reply.Ok? && store.posts.Some? ==>
      forall p :: p in r.posts.value <==> p in store.posts.value && p.id != reply.data.id
    ensures reply.Ok? && store.posts.Some? ==>
      forall p :: multiset(r.posts.value)[p] == if p.id != reply.data.id then multiset(store.posts.value)[p] else 0
    ensures reply.Ok? && store.posts.Some? ==> Subsequence(r.posts.value, store.posts.value)
  {
    match reply
    case Ok(deleted) =>
      if store.posts.None? then store else Store(Some(Without(store.posts.value, deleted.id)))
    case _ => store
  }

  /** The deleted post is chosen by the server's answer, not by the argument. */
  lemma DeleteIgnoresArgument(store: Store, a: string, b: string, reply: Reply<Post>)
    ensures DeletePost(store, a, reply) == DeletePost(store, b, reply)
  {
  }

  /** When no stored post carries the returned id, the store is unchanged. */
  lemma DeleteWithoutMatchKeepsStore(store: Store, postId: string, deleted: Post)
    requires store.posts.Some?
    requires forall p :: p in store.posts.value ==> p.id != deleted.id
    ensures DeletePost(store, postId, Ok(deleted)) == store
  {
    FilterKeepsAll((p: Post) => p.id != deleted.id, store.posts.value);
  }

  /** Applying the same successful deletion twice is the same as once. */
  lemma DeleteIdempotent(store: Store, postId: string, deleted: Post)
    ensures DeletePost(DeletePost(store, postId, Ok(deleted)), postId, Ok(deleted)) == DeletePost(store, postId, Ok(deleted))
  {
    if store.posts.Some? {
      FilterIdempotent((p: Post) => p.id != deleted.id, store.posts.value);
    }
  }
}
