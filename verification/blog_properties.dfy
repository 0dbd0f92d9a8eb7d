/** Properties that relate several handler calls: invariants every request
    preserves, what a sequence of requests can and cannot do, and round trips
    between the handlers. */
module BlogProperties {
  import opened Wrappers
  import opened BlogModel
  import opened BlogController

  /** The authenticated caller a request is made by. */
  function CallerOf(req: Request): UserId {
    match req
    case CreateRequest(caller, _, _, _, _) => caller
    case UpdateRequest(caller, _, _, _, _) => caller
    case DeleteRequest(caller, _) => caller
  }

  /** The status a successful request answers with. */
  function SuccessStatus(req: Request): int {
    if req.CreateRequest? then 201 else 200
  }

  /** Any request that does not succeed leaves the collection as it was. */
  lemma FailureLeavesPostsUnchanged(w: World, parse: Parser, req: Request)
    ensures Dispatch(w, parse, req).reply.status != SuccessStatus(req) ==> Dispatch(w, parse, req).world.posts == w.posts
  {
  }

  /** A post's owner never changes while the post exists. */
  lemma OwnerIsPermanent(w: World, parse: Parser, req: Request, id: Id)
    requires id in w.posts && id in Dispatch(w, parse, req).world.posts
    ensures Dispatch(w, parse, req).world.posts[id].user == w.posts[id].user
  {
  }

  /** No request touches a post unless its caller owns that post. */
  lemma OnlyOwnerChangesPost(w: World, parse: Parser, req: Request, id: Id)
    requires id in w.posts
    requires CallerOf(req) != w.posts[id].user
    ensures id in Dispatch(w, parse, req).world.posts
    ensures Dispatch(w, parse, req).world.posts[id] == w.posts[id]
  {
  }

  /** Two collections hold the same posts of `u` when every post of `u` in
      one is kept as it is in the other and no new post of `u` appears. */
  lemma OwnedBySame(before: Store, after: Store, u: UserId)
    requires forall id :: id in before && before[id].user == u ==> id in after && after[id] == before[id]
    requires forall id :: id in after && after[id].user == u ==> id in before && before[id] == after[id]
    ensures OwnedBy(after, u) == OwnedBy(before, u)
  {
    var kept, had := OwnedBy(after, u), OwnedBy(before, u);
    forall id
      ensures id in kept <==> id in had
    {
    }
    assert kept.Keys == had.Keys;
  }

  /** A request by anyone other than `u` neither changes, removes nor adds a
      post owned by `u`. */
  lemma OthersCannotTouch(w: World, parse: Parser, req: Request, u: UserId)
    requires CallerOf(req) != u
    ensures OwnedBy(Dispatch(w, parse, req).world.posts, u) == OwnedBy(w.posts, u)
  {
    match req
    case CreateRequest(caller, fields, file, upload, newId) =>
      var s := CreateBlogPost(w, caller, fields, file, upload, parse, newId);
      // the only new post is the caller's
      OwnedBySame(w.posts, s.world.posts, u);
    case UpdateRequest(caller, id, fields, file, upload) =>
      var s := UpdateBlogPost(w, caller, id, fields, file, upload, parse);
      // the only changed post is the caller's, and it stays the caller's
      OwnedBySame(w.posts, s.world.posts, u);
    case DeleteRequest(caller, id) =>
      var s := DeleteBlogPost(w, caller, id);
      OwnedBySame(w.posts, s.world.posts, u);
  }

  /** Over any sequence of requests none of which is made by `u`, the posts
      owned by `u` stay exactly as they were. */
  lemma {:induction false} RunOthersCannotTouch(w: World, parse: Parser, reqs: seq<Request>, u: UserId)
    requires forall i :: 0 <= i < |reqs| ==> CallerOf(reqs[i]) != u
    ensures OwnedBy(Run(w, parse, reqs).posts, u) == OwnedBy(w.posts, u)
    decreases |reqs|
  {
    if |reqs| > 0 {
      OthersCannotTouch(w, parse, reqs[0], u);
      RunOthersCannotTouch(Dispatch(w, parse, reqs[0]).world, parse, reqs[1..], u);
    }
  }

  /** Every request keeps each stored post's image on the image host. */
  lemma StepKeepsImagesHosted(w: World, parse: Parser, req: Request)
    requires ImagesHosted(w)
    ensures ImagesHosted(Dispatch(w, parse, req).world)
  {
  }

  /** Starting from a world whose images are all hosted, so is every world a
      sequence of requests reaches; in particular every world reached from an
      empty collection. */
  lemma {:induction false} RunKeepsImagesHosted(w: World, parse: Parser, reqs: seq<Request>)
    requires ImagesHosted(w)
    ensures ImagesHosted(Run(w, parse, reqs))
    decreases |reqs|
  {
    if |reqs| > 0 {
      StepKeepsImagesHosted(w, parse, reqs[0]);
      RunKeepsImagesHosted(Dispatch(w, parse, reqs[0]).world, parse, reqs[1..]);
    }
  }

  /** Uploaded images are never removed from the host, whatever happens. */
  lemma {:induction false} RunOnlyAddsAssets(w: World, parse: Parser, reqs: seq<Request>)
    ensures w.assets <= Run(w, parse, reqs).assets
    decreases |reqs|
  {
    if |reqs| > 0 {
      RunOnlyAddsAssets(Dispatch(w, parse, reqs[0]).world, parse, reqs[1..]);
    }
  }

  /** A create whose location fails to parse still leaves its image on the
      host with no post pointing at it from this request. */
  lemma ParseFailureOrphansUpload(
    w: World, caller: UserId, fields: Fields, file: Option<File>, url: Url, parse: Parser, newId: Id)
    requires file.Some?
    requires ParseLocation(parse, fields.location).None?
    ensures CreateBlogPost(w, caller, fields, file, Success(url), parse, newId).reply == ServerError
    ensures CreateBlogPost(w, caller, fields, file, Success(url), parse, newId).world == World(w.posts, w.assets + {url})
  {
  }

  /** A newly created post reads back with the caller projected as its owner. */
  lemma CreateThenGetById(
    w: World, users: map<UserId, string>, caller: UserId, fields: Fields, file: Option<File>,
    upload: UploadOutcome, parse: Parser, newId: Id)
    requires CreateBlogPost(w, caller, fields, file, upload, parse, newId).reply.status == 201
    ensures var created := CreateBlogPost(w, caller, fields, file, upload, parse, newId);
            var read := GetBlogPostById(created.world, users, newId);
            && read.body.Found?
            && read.body.view.imageUrl == upload.value
            && read.body.view.title == fields.title
            && (caller in users ==> read.body.view.author == Some(Author(caller, users[caller])))
  {
  }

  /** Deleting a post one has just created restores the collection; the
      uploaded image remains on the host. */
  lemma CreateThenDeleteRestores(
    w: World, caller: UserId, fields: Fields, file: Option<File>,
    upload: UploadOutcome, parse: Parser, newId: Id)
    requires CreateBlogPost(w, caller, fields, file, upload, parse, newId).reply.status == 201
    ensures var created := CreateBlogPost(w, caller, fields, file, upload, parse, newId);
            var deleted := DeleteBlogPost(created.world, caller, newId);
            && deleted.reply == PostDeleted
            && deleted.world.posts == w.posts
            && deleted.world.assets == w.assets + {upload.value}
  {
    var created := CreateBlogPost(w, caller, fields, file, upload, parse, newId);
    var deleted := DeleteBlogPost(created.world, caller, newId);
    assert deleted.world.posts == created.world.posts - {newId};
  }

  /** After the owner deletes a post, reading it answers 200 with a null
      body, and deleting it again answers 404. */
  lemma DeletedPostIsGone(w: World, users: map<UserId, string>, caller: UserId, id: Id)
    requires DeleteBlogPost(w, caller, id).reply.status == 200
    ensures GetBlogPostById(DeleteBlogPost(w, caller, id).world, users, id) == Reply(200, Null)
    ensures DeleteBlogPost(DeleteBlogPost(w, caller, id).world, caller, id).reply == NotFound
  {
  }

  /** A delete by anyone but the owner is refused and the post still reads back. */
  lemma NonOwnerDeleteKeepsPost(w: World, users: map<UserId, string>, caller: UserId, id: Id)
    requires id in w.posts && w.posts[id].user != caller
    ensures DeleteBlogPost(w, caller, id).reply == Unauthorized
    ensures GetBlogPostById(DeleteBlogPost(w, caller, id).world, users, id) == GetBlogPostById(w, users, id)
    ensures GetBlogPostById(w, users, id).body.Found?
  {
  }

  /** Repeating an update with the same oracle outcomes changes nothing more:
      it answers and leaves the world exactly as the first one did. */
  lemma UpdateIsIdempotent(
    w: World, caller: UserId, id: Id, fields: Fields, file: Option<File>,
    upload: UploadOutcome, parse: Parser)
    ensures var once := UpdateBlogPost(w, caller, id, fields, file, upload, parse);
            UpdateBlogPost(once.world, caller, id, fields, file, upload, parse) == once
  {
    var once := UpdateBlogPost(w, caller, id, fields, file, upload, parse);
    var twice := UpdateBlogPost(once.world, caller, id, fields, file, upload, parse);
    if once.reply.status == 200 {
      var p := once.world.posts[id];
      assert Or(fields.title, p.title) == p.title;
      assert Or(fields.description, p.description) == p.description;
      assert once.world.posts[id := p] == once.world.posts;
      if file.Some? {
        assert once.world.assets + {upload.value} == once.world.assets;
      }
    } else if once.reply.status == 500 && file.Some? && upload.Success? {
      assert once.world.assets + {upload.value} == once.world.assets;
    }
  }

  /** An owner's update that sends no file and only empty or absent fields
      saves the post as it was. */
  lemma EmptyUpdateKeepsPost(
    w: World, caller: UserId, id: Id, fields: Fields, upload: UploadOutcome, parse: Parser)
    requires id in w.posts && w.posts[id].user == caller
    requires !Truthy(fields.title) && !Truthy(fields.description) && !Truthy(fields.location)
    ensures UpdateBlogPost(w, caller, id, fields, None, upload, parse).reply.status == 200
    ensures UpdateBlogPost(w, caller, id, fields, None, upload, parse).world == w
  {
    var s := UpdateBlogPost(w, caller, id, fields, None, upload, parse);
    assert s.world.posts[id] == w.posts[id];
  }

  /** An owner's update that sends only a non-empty title changes the title
      and nothing else. */
  lemma TitleOnlyUpdate(w: World, caller: UserId, id: Id, title: string, upload: UploadOutcome, parse: Parser)
    requires id in w.posts && w.posts[id].user == caller
    requires |title| > 0
    ensures var s := UpdateBlogPost(w, caller, id, Fields(Some(title), None, None), None, upload, parse);
            && s.reply.status == 200
            && s.world.posts == w.posts[id := w.posts[id].(title := Some(title))]
            && s.world.assets == w.assets
  {
    var s := UpdateBlogPost(w, caller, id, Fields(Some(title), None, None), None, upload, parse);
    assert s.world.posts[id] == w.posts[id].(title := Some(title));
  }
}
