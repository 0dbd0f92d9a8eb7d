/** The data the blog post handlers work on: posts, the persisted collection,
    the external image host, requests and replies. */
module BlogModel {
  import opened Wrappers

  /** A post's `_id` as it appears in a URL path, taken to be the canonical
      lower-case `ObjectId` string (the driver's cast is not modelled). */
  type Id = string
  /** The authenticated caller's `req.user.id`, and a post's `user` reference
      as its canonical string, so ownership is plain string equality. */
  type UserId = string
  /** A `secure_url` returned by the image host. */
  type Url = string

  /** The shape of any value `JSON.parse` can produce; numbers are abstracted to integers. */
  datatype Json =
    | JNull
    | JBool(b: bool)
    | JNumber(n: int)
    | JString(s: string)
    | JArray(items: seq<Json>)
    | JObject(members: seq<(string, Json)>)

  /** A persisted blog post. Title and description are stored as the request
      gave them, so they may be absent. */
  datatype Post = Post(
    title: Option<string>,
    description: Option<string>,
    imageUrl: Url,
    location: Json,
    user: UserId)

  /** The blog collection, keyed by `_id`. */
  type Store = map<Id, Post>

  /** Everything a handler can change: the blog collection and the set of
      images held by the external host (uploads are never deleted). */
  datatype World = World(posts: Store, assets: set<Url>)

  /** An uploaded file (`req.file`); only its presence matters to the handlers. */
  datatype File = File(buffer: seq<bv8>)

  /** The text fields of a multipart request body; `None` is `undefined`. */
  datatype Fields = Fields(title: Option<string>, description: Option<string>, location: Option<string>)

  /** What the image host answers for an upload: the `secure_url`, or an error. */
  type UploadOutcome = Result<Url, string>

  /** `JSON.parse` on a string: `None` when it throws. */
  type Parser = string -> Option<Json>

  /** The `user` field after `populate('user', 'username')`. */
  datatype Author = Author(id: UserId, username: string)

  /** A post as the read handlers return it: the owner id is replaced by its projection. */
  datatype PostView = PostView(
    id: Id,
    title: Option<string>,
    description: Option<string>,
    imageUrl: Url,
    location: Json,
    author: Option<Author>)

  /** A JSON response body. */
  datatype Body =
    | Message(text: string)
    | Saved(id: Id, post: Post)
    | Found(view: PostView)
    | Null
    | Listing(views: seq<PostView>)

  /** An HTTP status with its body. */
  datatype Reply = Reply(status: int, body: Body)

  /** What a handler did with the image host. */
  datatype Upload = NotAttempted | Rejected | Stored(url: Url)

  /** The result of one handler: its reply, the world after it, and its upload. */
  datatype Step = Step(reply: Reply, world: World, upload: Upload)

  const NoFileUploaded := Reply(400, Message("No file uploaded"))
  const NotFound := Reply(404, Message("Blog post not found"))
  const Unauthorized := Reply(403, Message("Unauthorized action"))
  const ServerError := Reply(500, Message("Server error"))
  const PostDeleted := Reply(200, Message("Blog post deleted"))

  /** JavaScript truthiness of a string field: defined and non-empty. */
  predicate Truthy(s: Option<string>) {
    s.Some? && |s.value| > 0
  }

  /** JavaScript `s || fallback` on string fields. */
  function Or(s: Option<string>, fallback: Option<string>): Option<string> {
    if Truthy(s) then s else fallback
  }

  /** `JSON.parse(location)`: an absent field is coerced to the text
      "undefined", which is never valid JSON, so it always throws. */
  function ParseLocation(parse: Parser, location: Option<string>): Option<Json> {
    match location
    case None => None
    case Some(text) => parse(text)
  }

  /** `populate('user', 'username')`: the owner reference becomes the owner's
      id and username, or null when no such user exists. */
  function Project(id: Id, post: Post, users: map<UserId, string>): (v: PostView)
    ensures v.id == id
    ensures v.title == post.title && v.description == post.description
    ensures v.imageUrl == post.imageUrl && v.location == post.location
    ensures v.author.Some? <==> post.user in users
    ensures v.author.Some? ==> v.author.value.id == post.user && v.author.value.username == users[post.user]
  {
    var author := if post.user in users then Some(Author(post.user, users[post.user])) else None;
    PostView(id, post.title, post.description, post.imageUrl, post.location, author)
  }

  /** Every stored post's image is one the image host holds. */
  ghost predicate ImagesHosted(w: World) {
    forall id :: id in w.posts ==> w.posts[id].imageUrl in w.assets
  }

  /** The posts of `posts` whose owner is `u`. */
  function OwnedBy(posts: Store, u: UserId): (r: Store)
    ensures forall id :: id in r <==> id in posts && posts[id].user == u
    ensures forall id :: id in r ==> r[id] == posts[id]
  {
    map id | id in posts && posts[id].user == u :: posts[id]
  }
}
