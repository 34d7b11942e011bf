/**
 * The shapes of the backend's JSON objects the client keeps in memory.
 * Identifiers and timestamps are opaque strings; the client never parses
 * a timestamp except to compute elapsed time, which the formatter takes
 * as an input.
 */
module Entities {
  import opened Common

  /** The author of a comment; `id` stands for the backend's `_id`. */
  datatype CommentCreator = CommentCreator(id: string, name: string, photo: string)

  /** A comment; `id` stands for the backend's `_id`, and `post` is the identifier of the post it belongs to. */
  datatype Comment = Comment(
    id: string,
    content: string,
    creator: CommentCreator,
    post: string,
    createdAt: string)

  /**
   * A user. The source declares `User` twice and the two declarations merge:
   * the post author carries the same fields as the profile-data user.
   * `id` stands for the backend's `_id`.
   */
  datatype User = User(
    id: string,
    name: string,
    email: string,
    dateOfBirth: string,
    gender: string,
    photo: string,
    createdAt: string,
    passwordChangedAt: string)

  /**
   * A post; `body` and `image` are optional, and the comments come in server
   * order. The backend sends both `_id` and `id`; the model's `id` stands for
   * `_id`, which is what the cards and the profile store's deletion compare.
   */
  datatype Post = Post(
    id: string,
    body: Option<string>,
    image: Option<string>,
    user: User,
    createdAt: string,
    comments: seq<Comment>)

  /** A file chosen in a file input: its size in bytes and an opaque handle. */
  datatype File = File(size: nat, handle: string)
}
