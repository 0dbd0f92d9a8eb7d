# Blog post handlers: a Dafny model

This project models the blog post controller of a small Express/Mongoose blog
backend (`controllers/blogController.js`). The controller has five handlers:
`createBlogPost`, `getAllBlogPosts`, `getBlogPostById`, `updateBlogPost` and
`deleteBlogPost`. Each handler becomes a pure function. The three handlers
that write (create, update, delete) take the world before the request, the
caller's id, the request fields and file, and the answers of the external
collaborators. They return the HTTP reply, the world after the request, and
what was done with the image host. The two read handlers (`GetAllBlogPosts`
and `GetBlogPostById`) take the world and return only a `Reply`, with no
world after it. That is how the model shows that reads never change the
collection.

- `World` is the blog collection (`map<Id, Post>`) together with the set of
  image URLs the image host holds. A `Post` has title, description, imageUrl,
  location and user.
- The image upload is an oracle. It is a `Result<Url, string>`: the
  `secure_url`, or the error the upload callback rejects with.
- `JSON.parse` is an oracle too: a function `string -> Option<Json>`, where
  `None` means it throws.
- `populate('user', 'username')` is a projection. It reads a map from user id
  to username, which stands for the users collection.
- The database id of a new post is an oracle value `newId`. If that id is
  already taken, the unique `_id` index rejects the insert.

Modules:
- `Wrappers` holds `Option` and `Result`.
- `BlogModel` holds the data, JavaScript truthiness (`Truthy`, `Or`), `JSON.parse`
  of a possibly absent field (`ParseLocation`) and the populate projection.
- `BlogController` holds the five handlers, a `Dispatch` over the three
  handlers that write, and `Run`, which handles a sequence of requests.
- `BlogProperties` holds the lemmas that relate several calls.

In two places the code answers differently from common REST practice, and the
model follows the code. The code also has two other consequences worth noting:
- A malformed `location` reaches the catch-all and answers 500, not 400. This
  holds for create (lines 44 and 51-54) and for update (lines 132 and 138-141).
- `getBlogPostById` on an unknown id answers 200 with a null body, not 404
  (lines 74-75).
- On create, the upload happens before `location` is parsed. A parse failure
  or a rejected insert therefore leaves the uploaded image on the host with no
  post that uses it.
- On update, the title and description are assigned to the in-memory document
  before `location` is parsed. A parse failure throws before `save`, so the
  persisted post does not change.

## Model

| member | source | states |
|---|---|---|
| BlogController.CreateBlogPost | controllers/blogController.js:6-55 | 400 exactly when no file is sent, and then no upload and no change. 201 exactly when the upload succeeds, `location` parses and the id is free. Then exactly one post is added: its imageUrl is the upload's URL, its user is the caller, its location is the parsed value, and every other post is unchanged. Every other outcome is 500 with the collection unchanged. A successful upload stays on the host even when the request fails. |
| BlogController.GetAllBlogPosts | controllers/blogController.js:59-67 | Answers 200 with a listing. The listing holds every stored id exactly once. Each entry is that post with its owner projected, which is what reading that id alone answers. |
| BlogController.GetBlogPostById | controllers/blogController.js:70-80 | Always answers 200. The body is the projected post when the id is stored, and null when it is not. |
| BlogModel.Project | controllers/blogController.js:74 | The view keeps the post's fields. Its author is the owner's id and username when that user exists, and null otherwise. |
| BlogController.UpdateBlogPost | controllers/blogController.js:86-142 | 404 exactly when the id is absent, checked before ownership. 403 exactly when the owner differs from the caller. Neither uploads or changes anything. 200 exactly when the owner calls and the upload and parse succeed. Then only that post changes: title and description take the new value if it is non-empty, else the old one. Location is parsed only when the field is non-empty. imageUrl changes only when a file was uploaded. The user never changes. Every 500 leaves the collection unchanged. |
| BlogController.DeleteBlogPost | controllers/blogController.js:145-169 | 404 for an absent id, then 403 for a non-owner, and both leave the world unchanged. Otherwise it answers 200 and removes exactly that id; every other post and every hosted image stays. |
| BlogProperties.FailureLeavesPostsUnchanged | controllers/blogController.js:6-169 | For every writing request, an answer other than its success status leaves the collection as it was. |
| BlogProperties.OwnerIsPermanent | controllers/blogController.js:129-135 | No request changes the owner of a post that still exists afterwards. |
| BlogProperties.OnlyOwnerChangesPost | controllers/blogController.js:92-101 | A request by anyone but a post's owner leaves that post present and unchanged. |
| BlogProperties.OthersCannotTouch | controllers/blogController.js:86-169 | A request by someone other than `u` leaves the posts owned by `u` exactly as they were. |
| BlogProperties.RunOthersCannotTouch | controllers/blogController.js:86-169 | Over any sequence of requests that `u` did not make, the posts owned by `u` stay exactly as they were. |
| BlogProperties.StepKeepsImagesHosted | controllers/blogController.js:104-133 | Every request keeps the invariant that every stored post's imageUrl is held by the image host. |
| BlogProperties.RunKeepsImagesHosted | controllers/blogController.js:6-169 | The same invariant holds after any sequence of requests that starts from a world where it holds. |
| BlogProperties.RunOnlyAddsAssets | controllers/blogController.js:161-162 | No sequence of requests removes an image from the host. Deleting a post does not delete its image. |
| BlogProperties.ParseFailureOrphansUpload | controllers/blogController.js:37-44 | A create whose file uploads but whose location fails to parse answers 500. The collection is unchanged and the host holds the new image. |
| BlogProperties.CreateThenGetById | controllers/blogController.js:40-49 | A created post reads back with the upload's URL, the given title, and the caller projected as its author. |
| BlogProperties.CreateThenDeleteRestores | controllers/blogController.js:145-164 | When the creator deletes a post they just created, the collection is restored. The image stays on the host. |
| BlogProperties.DeletedPostIsGone | controllers/blogController.js:150-164 | After the owner deletes a post, reading it answers 200 with null and deleting it again answers 404. |
| BlogProperties.NonOwnerDeleteKeepsPost | controllers/blogController.js:157-159 | A delete by a non-owner answers 403, and the post reads back exactly as before. |
| BlogProperties.UpdateIsIdempotent | controllers/blogController.js:104-135 | Repeating an update with the same oracle answers gives the same reply and the same world as doing it once. |
| BlogProperties.EmptyUpdateKeepsPost | controllers/blogController.js:130-135 | An owner's update with no file and only empty or absent fields answers 200 and changes nothing. |
| BlogProperties.TitleOnlyUpdate | controllers/blogController.js:130 | An owner's update that sends only a non-empty title changes that title and nothing else. |

## Left out

- `index.js` (Express wiring, CORS, JSON middleware, route mounting, database connection): framework set-up with no decisions in it.
- The streaming upload (`upload_stream`, `PassThrough`, the `resource_type` and `folder` options): a network client, modelled only by the outcome it delivers.
- JSON syntax: `JSON.parse` is an arbitrary parse function. Because of that, the property that a serialized location parses back to the same value is not stated.
- Database faults, `ObjectId` cast errors on malformed ids, schema validation in `models/Blog.js`, and a `save` that fails because another request deleted the post: these all reach the catch-all 500. `models/Blog.js` is not part of this model, and the model has no fault oracle, so these 500s are not modelled.
- Concurrency between requests: the model handles requests one at a time. The atomicity of `save` and `findByIdAndDelete` is not modelled.
- Authentication: the caller's `req.user.id` is given. The middleware that sets it is not part of this model.
- Request bodies: the model takes every field to be a string or absent, as a multipart body gives them. `index.js` mounts `express.json()` for every route, so a request can also arrive with a JSON body and no file. A field in such a body can be a non-string value. A `location` object then makes `JSON.parse` throw and the request answers 500, and a numeric `title` is truthy for the `||` merge. JSON bodies and non-string field values are not modelled.
- Ids: path ids and caller ids are taken to be canonical lower-case `ObjectId` strings, and the model looks them up and compares them verbatim. The code casts a path id to an `ObjectId` before `findById`, so a 24-hex id in another letter case finds the same post. It compares `blogPost.user.toString()`, which is the canonical form, with `req.user.id`. The `ObjectId` cast and its case folding are not modelled.
- Upload time-outs: the upload oracle always answers. The code waits for the image host without a time-out, so a host that never answers leaves the request with no reply. That hang is not modelled.
- Logging, and response serialization beyond the status and a body value.
- The in-memory document that update assigns before `save`: only the persisted collection is modelled.
