/** The five blog post handlers, each a transition from the world before the
    request to its reply and the world after it. The image host and
    `JSON.parse` are oracles passed in; the database is the `posts` map. */
module BlogController {
  import opened Wrappers
  import opened BlogModel

  /** `createBlogPost`: reject a request without a file, upload the file,
      parse `location`, then insert a post owned by the caller under the id
      the driver generated (`newId`); the `_id` index rejects an id already in use. */
  function CreateBlogPost(
    w: World, caller: UserId, fields: Fields, file: Option<File>,
    upload: UploadOutcome, parse: Parser, newId: Id): (s: Step)
    ensures s.reply.status == 201 || s.reply.status == 400 || s.reply.status == 500
    // a request without a file is refused before anything else happens
    ensures s.reply.status == 400 <==> file.None?
    ensures file.None? ==> s.reply == NoFileUploaded && s.upload == NotAttempted && s.world == w
    // a post is created exactly when upload, parse and insert all succeed
    ensures s.reply.status == 201 <==>
              file.Some? && upload.Success? && ParseLocation(parse, fields.location).Some? && newId !in w.posts
    ensures s.reply.status == 201 ==>
              && s.world.posts.Keys == w.posts.Keys + {newId}
              && |s.world.posts| == |w.posts| + 1
              && s.world.posts[newId].user == caller
              && s.world.posts[newId].imageUrl == upload.value
              && Some(s.world.posts[newId].location) == ParseLocation(parse, fields.location)
              && s.world.posts[newId].title == fields.title
              && s.world.posts[newId].description == fields.description
              && (forall id :: id in w.posts ==> s.world.posts[id] == w.posts[id])
              && s.reply.body == Saved(newId, s.world.posts[newId])
    // every failure leaves the collection as it was
    ensures s.reply.status != 201 ==> s.world.posts == w.posts
    ensures s.reply.status == 500 ==> s.reply == ServerError
    // the file reaches the image host whenever one is sent, and stays there
    ensures s.upload.Stored? <==> file.Some? && upload.Success?
    ensures s.upload.Rejected? <==> file.Some? && upload.Failure?
    ensures s.upload.Stored? ==> s.upload.url == upload.value && s.world.assets == w.assets + {upload.value}
    ensures !s.upload.Stored? ==> s.world.assets == w.assets
  {
    if file.None? then
      Step(NoFileUploaded, w, NotAttempted)
    else
      match upload
      case Failure(_) => Step(ServerError, w, Rejected)
      case Success(url) =>
        var hosted := w.(assets := w.assets + {url});
        match ParseLocation(parse, fields.location)
        case None => Step(ServerError, hosted, Stored(url))
        case Some(location) =>
          if newId in w.posts then
            Step(ServerError, hosted, Stored(url))
          else
            var post := Post(fields.title, fields.description, url, location, caller);
            Step(Reply(201, Saved(newId, post)), hosted.(posts := w.posts[newId := post]), Stored(url))
  }

  /** The ids of a listing. */
  function Ids(vs: seq<PostView>): set<Id> {
    set i | 0 <= i < |vs| :: vs[i].id
  }

  lemma IdsAppend(vs: seq<PostView>, v: PostView)
    ensures Ids(vs + [v]) == Ids(vs) + {v.id}
  {
    var ws := vs + [v];
    forall x | x in Ids(ws)
      ensures x in Ids(vs) + {v.id}
    {
      var i :| 0 <= i < |ws| && ws[i].id == x;
      if i < |vs| {
        assert vs[i].id == x;
      }
    }
    forall x | x in Ids(vs)
      ensures x in Ids(ws)
    {
      var i :| 0 <= i < |vs| && vs[i].id == x;
      assert ws[i].id == x;
    }
    assert ws[|vs|].id == v.id;
  }

  /** `getAllBlogPosts`: every post, each with its owner projected, in an
      order the database chooses. */
  method GetAllBlogPosts(w: World, users: map<UserId, string>) returns (r: Reply)
    ensures r.status == 200 && r.body.Listing?
    ensures Ids(r.body.views) == w.posts.Keys
    ensures forall i, j :: 0 <= i < j < |r.body.views| ==> r.body.views[i].id != r.body.views[j].id
    ensures forall i :: 0 <= i < |r.body.views| ==>
              r.body.views[i].id in w.posts && r.body.views[i] == Project(r.body.views[i].id, w.posts[r.body.views[i].id], users)
    // each entry is what reading that id by itself answers
    ensures forall i :: 0 <= i < |r.body.views| ==>
              GetBlogPostById(w, users, r.body.views[i].id) == Reply(200, Found(r.body.views[i]))
  {
    var views: seq<PostView> := [];
    var remaining := w.posts.Keys;
    while remaining != {}
      invariant remaining <= w.posts.Keys
      invariant Ids(views) == w.posts.Keys - remaining
      invariant forall i, j :: 0 <= i < j < |views| ==> views[i].id != views[j].id
      invariant forall i :: 0 <= i < |views| ==>
                  views[i].id in w.posts && views[i] == Project(views[i].id, w.posts[views[i].id], users)
      decreases remaining
    {
      var id :| id in remaining;
      IdsAppend(views, Project(id, w.posts[id], users));
      views := views + [Project(id, w.posts[id], users)];
      remaining := remaining - {id};
    }
    r := Reply(200, Listing(views));
  }

  /** `getBlogPostById`: the post with its owner projected, or a null body
      with status 200 when no post has that id. */
  function GetBlogPostById(w: World, users: map<UserId, string>, id: Id): (r: Reply)
    ensures r.status == 200
    ensures r.body.Found? <==> id in w.posts
    ensures r.body.Null? <==> id !in w.posts
    ensures r.body.Found? ==> r.body.view == Project(id, w.posts[id], users)
  {
    if id in w.posts then Reply(200, Found(Project(id, w.posts[id], users))) else Reply(200, Null)
  }

  /** `updateBlogPost`: 404 for an unknown id, then 403 for a caller who is
      not the owner; otherwise upload a new image if one is sent, merge the
      fields with `||` fallback, parse `location` if it is truthy, and save.
      The title and description are assigned in memory before `location` is
      parsed, but a parse failure throws before `save`, so nothing persists. */
  function UpdateBlogPost(
    w: World, caller: UserId, id: Id, fields: Fields, file: Option<File>,
    upload: UploadOutcome, parse: Parser): (s: Step)
    ensures s.reply.status == 200 || s.reply.status == 403 || s.reply.status == 404 || s.reply.status == 500
    // existence is checked first, ownership second, and neither touches anything
    ensures s.reply.status == 404 <==> id !in w.posts
    ensures s.reply.status == 403 <==> id in w.posts && w.posts[id].user != caller
    ensures s.reply.status == 404 || s.reply.status == 403 ==> s.upload == NotAttempted && s.world == w
    // only the owner's request succeeds, and only if upload and parse do
    ensures s.reply.status == 200 <==>
              && id in w.posts && w.posts[id].user == caller
              && (file.Some? ==> upload.Success?)
              && (Truthy(fields.location) ==> parse(fields.location.value).Some?)
    ensures s.reply.status == 500 ==> s.reply == ServerError
    // a failed request leaves the persisted collection untouched
    ensures s.reply.status != 200 ==> s.world.posts == w.posts
    ensures s.reply.status == 200 ==>
              && id in w.posts && id in s.world.posts
              && s.world.posts.Keys == w.posts.Keys
              && (forall k :: k in w.posts && k != id ==> s.world.posts[k] == w.posts[k])
              && s.reply.body == Saved(id, s.world.posts[id])
              && s.world.posts[id].user == w.posts[id].user
              && s.world.posts[id].title == (if Truthy(fields.title) then fields.title else w.posts[id].title)
              && s.world.posts[id].description ==
                   (if Truthy(fields.description) then fields.description else w.posts[id].description)
              && (Truthy(fields.location) ==> Some(s.world.posts[id].location) == parse(fields.location.value))
              && (!Truthy(fields.location) ==> s.world.posts[id].location == w.posts[id].location)
              && (file.Some? ==> s.world.posts[id].imageUrl == upload.value)
              && (file.None? ==> s.world.posts[id].imageUrl == w.posts[id].imageUrl)
    // the image host is called only for the owner's request with a file
    ensures s.upload.Stored? <==> id in w.posts && w.posts[id].user == caller && file.Some? && upload.Success?
    ensures s.upload.Rejected? <==> id in w.posts && w.posts[id].user == caller && file.Some? && upload.Failure?
    ensures s.upload.Stored? ==> s.upload.url == upload.value && s.world.assets == w.assets + {upload.value}
    ensures !s.upload.Stored? ==> s.world.assets == w.assets
  {
    if id !in w.posts then
      Step(NotFound, w, NotAttempted)
    else
      var post := w.posts[id];
      if post.user != caller then
        Step(Unauthorized, w, NotAttempted)
      else if file.Some? && upload.Failure? then
        Step(ServerError, w, Rejected)
      else
        var newUrl := if file.Some? then upload.value else post.imageUrl;
        var hosted := if file.Some? then w.(assets := w.assets + {newUrl}) else w;
        var effect := if file.Some? then Stored(newUrl) else NotAttempted;
        var title := Or(fields.title, post.title);
        var description := Or(fields.description, post.description);
        var location := if Truthy(fields.location) then parse(fields.location.value) else Some(post.location);
        match location
        case None => Step(ServerError, hosted, effect)
        case Some(loc) =>
          var updated := post.(title := title, description := description, location := loc, imageUrl := newUrl);
          Step(Reply(200, Saved(id, updated)), hosted.(posts := w.posts[id := updated]), effect)
  }

  /** `deleteBlogPost`: 404 for an unknown id, then 403 for a caller who is not
      the owner; otherwise remove the post. Its image stays on the host. */
  function DeleteBlogPost(w: World, caller: UserId, id: Id): (s: Step)
    ensures s.reply.status == 200 || s.reply.status == 403 || s.reply.status == 404
    ensures s.reply.status == 404 <==> id !in w.posts
    ensures s.reply.status == 403 <==> id in w.posts && w.posts[id].user != caller
    ensures s.reply.status == 200 <==> id in w.posts && w.posts[id].user == caller
    ensures s.reply.status == 200 ==>
              && s.reply == PostDeleted
              && s.world.posts.Keys == w.posts.Keys - {id}
              && |s.world.posts| == |w.posts| - 1
              && (forall k :: k in s.world.posts ==> s.world.posts[k] == w.posts[k])
    ensures s.reply.status != 200 ==> s.world == w
    ensures s.upload == NotAttempted && s.world.assets == w.assets
  {
    if id !in w.posts then
      Step(NotFound, w, NotAttempted)
    else if w.posts[id].user != caller then
      Step(Unauthorized, w, NotAttempted)
    else
      Step(PostDeleted, w.(posts := w.posts - {id}), NotAttempted)
  }

  /** A request to one of the handlers that can change the world, together
      with the oracle outcomes it meets. */
  datatype Request =
    | CreateRequest(caller: UserId, fields: Fields, file: Option<File>, upload: UploadOutcome, newId: Id)
    | UpdateRequest(caller: UserId, id: Id, fields: Fields, file: Option<File>, upload: UploadOutcome)
    | DeleteRequest(caller: UserId, id: Id)

  /** Route a request to its handler. */
  function Dispatch(w: World, parse: Parser, req: Request): Step {
    match req
    case CreateRequest(caller, fields, file, upload, newId) =>
      CreateBlogPost(w, caller, fields, file, upload, parse, newId)
    case UpdateRequest(caller, id, fields, file, upload) =>
      UpdateBlogPost(w, caller, id, fields, file, upload, parse)
    case DeleteRequest(caller, id) =>
      DeleteBlogPost(w, caller, id)
  }

  /** Handle the requests one after another. */
  function Run(w: World, parse: Parser, reqs: seq<Request>): World
    decreases |reqs|
  {
    if |reqs| == 0 then w else Run(Dispatch(w, parse, reqs[0]).world, parse, reqs[1..])
  }
}
