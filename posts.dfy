/**
 * The post resource: the collection of blog posts and the six handlers of
 * the post router (list, get, get-image, create, update, delete).
 *
 * The database collection is a map from identifier to post held by a
 * PostStore object; `findById` is a map lookup, `save` a map update,
 * `deleteOne` a removal, and the projection `select('-image.data')` is
 * WithoutImageData. Each handler returns the HTTP status and the JSON (or
 * binary) body it sends. The caller's identity, set by the authentication
 * middleware, and the creation time, set by the database, are parameters.
 */
module Posts {
  import opened Wrappers
  import opened PostUrls

  type Bytes = seq<bv8>
  type UserId = string

  /** The upload limit of the multipart middleware: 5 MB. */
  const MaxFileSize: nat := 5 * 1024 * 1024
  /** The max-age, in seconds, of the Cache-Control header on an image: one year. */
  const ImageCacheMaxAge: nat := 31536000

  datatype Image = Image(data: Option<Bytes>, contentType: string)

  datatype Post = Post(
    id: PostId,
    title: string,
    subtitle: string,
    content: string,
    image: Option<Image>,
    imageUrl: Option<string>,
    author: UserId,
    createdAt: nat)

  /** The text fields of a create or update request. */
  datatype PostForm = PostForm(title: string, subtitle: string, content: string)

  /** The single file of a multipart request, as the upload middleware hands it over. */
  datatype UploadedFile = UploadedFile(buffer: Bytes, mimetype: string)

  datatype Body =
    | PostList(posts: seq<Post>)
    | OnePost(post: Post)
    | ImageBytes(data: Bytes, contentType: string, maxAge: nat)
    | Message(text: string)

  datatype Response = Response(status: nat, body: Body)

  const PostNotFound := Response(404, Message("Post not found"))
  const ImageNotFound := Response(404, Message("Image not found"))
  const NotAuthorized := Response(401, Message("Not authorized"))
  const PostRemoved := Response(200, Message("Post removed"))
  /** An upload over the limit is refused by the middleware before the handler runs. */
  const FileTooLarge := Response(500, Message("File too large"))

  predicate CarriesNoImageData(p: Post) {
    p.image.None? || p.image.value.data.None?
  }

  /** a is b with at most the image data taken away. */
  predicate SameExceptImageData(a: Post, b: Post) {
    && a.(image := b.image) == b
    && a.image.Some? == b.image.Some?
    && (a.image.Some? ==> a.image.value.contentType == b.image.value.contentType)
  }

  /** The projection `select('-image.data')`. */
  function WithoutImageData(p: Post): (r: Post)
    ensures CarriesNoImageData(r) && SameExceptImageData(r, p)
  {
    match p.image
    case None => p
    case Some(img) => p.(image := Some(img.(data := None)))
  }

  /** The projection is the only post that carries no image data and otherwise agrees with p. */
  lemma WithoutImageDataUnique(a: Post, p: Post)
    requires CarriesNoImageData(a) && SameExceptImageData(a, p)
    ensures a == WithoutImageData(p)
  {
  }

  /** The limit the upload middleware applies: a file larger than MaxFileSize is refused. */
  predicate UploadAccepted(file: Option<UploadedFile>) {
    file.None? || |file.value.buffer| <= MaxFileSize
  }

  predicate ImageWithinLimit(p: Post) {
    p.image.None? || p.image.value.data.None? || |p.image.value.data.value| <= MaxFileSize
  }

  /** The decision shared by update and delete: a missing post is reported before a foreign author. */
  function OwnerCheck(posts: map<PostId, Post>, id: PostId, caller: UserId): (r: Option<Response>)
    ensures r == Some(PostNotFound) <==> id !in posts
    ensures r == Some(NotAuthorized) <==> id in posts && posts[id].author != caller
    ensures r.None? <==> id in posts && posts[id].author == caller
  {
    if id !in posts then Some(PostNotFound)
    else if posts[id].author != caller then Some(NotAuthorized)
    else None
  }

  // ---- the listing order -------------------------------------------------

  ghost function Ids(s: seq<Post>): set<PostId> {
    if s == [] then {} else {s[0].id} + Ids(s[1..])
  }

  lemma {:induction false} IdsConcat(a: seq<Post>, b: seq<Post>)
    ensures Ids(a + b) == Ids(a) + Ids(b)
  {
    if a != [] {
      assert (a + b)[0] == a[0];
      assert (a + b)[1..] == a[1..] + b;
      IdsConcat(a[1..], b);
      assert Ids(a + b) == {a[0].id} + Ids(a[1..] + b);
    } else {
      assert a + b == b;
    }
  }

  lemma {:induction false} IdsAt(s: seq<Post>, id: PostId)
    ensures id in Ids(s) <==> exists i :: 0 <= i < |s| && s[i].id == id
  {
    if s != [] {
      IdsAt(s[1..], id);
      if id in Ids(s[1..]) {
        var i :| 0 <= i < |s[1..]| && s[1..][i].id == id;
        assert s[i + 1].id == id;
      }
      if exists i :: 0 <= i < |s| && s[i].id == id {
        var i :| 0 <= i < |s| && s[i].id == id;
        if i > 0 {
          assert s[1..][i - 1].id == id;
        }
      }
    }
  }

  ghost predicate NewestFirst(s: seq<Post>) {
    forall i, j :: 0 <= i < j < |s| ==> s[i].createdAt >= s[j].createdAt
  }

  /** Each entry is a stored post without its image data, no post twice, newest first. */
  ghost predicate OrderedProjections(s: seq<Post>, posts: map<PostId, Post>) {
    && (forall i :: 0 <= i < |s| ==> s[i].id in posts && s[i] == WithoutImageData(posts[s[i].id]))
    && (forall i, j :: 0 <= i < j < |s| ==> s[i].id != s[j].id)
    && NewestFirst(s)
  }

  /**
   * s is what GET "/" sends for the collection posts: every post exactly
   * once, newest first, each without its image data.
   */
  ghost predicate IsListing(s: seq<Post>, posts: map<PostId, Post>) {
    Ids(s) == posts.Keys && OrderedProjections(s, posts)
  }

  /** The position at which a post created at time t joins a newest-first sequence. */
  function Slot(s: seq<Post>, t: nat): (k: nat)
    ensures k <= |s|
    ensures NewestFirst(s) ==> forall i :: 0 <= i < k ==> s[i].createdAt >= t
    ensures NewestFirst(s) ==> forall i :: k <= i < |s| ==> s[i].createdAt < t
  {
    if s == [] || s[0].createdAt < t then 0 else 1 + Slot(s[1..], t)
  }

  lemma InsertSorted(s: seq<Post>, k: nat, p: Post)
    requires NewestFirst(s) && k <= |s|
    requires forall i :: 0 <= i < k ==> s[i].createdAt >= p.createdAt
    requires forall i :: k <= i < |s| ==> s[i].createdAt < p.createdAt
    ensures NewestFirst(s[..k] + [p] + s[k..])
  {
    var r := s[..k] + [p] + s[k..];
    forall i, j | 0 <= i < j < |r| ensures r[i].createdAt >= r[j].createdAt {
      assert r[i] == if i < k then s[i] else if i == k then p else s[i - 1];
      assert r[j] == if j < k then s[j] else if j == k then p else s[j - 1];
    }
  }

  lemma InsertProjection(s: seq<Post>, k: nat, p: Post, posts: map<PostId, Post>)
    requires k <= |s|
    requires forall i :: 0 <= i < |s| ==> s[i].id in posts && s[i] == WithoutImageData(posts[s[i].id])
    requires p.id in posts && p == WithoutImageData(posts[p.id])
    ensures var r := s[..k] + [p] + s[k..];
      forall i :: 0 <= i < |r| ==> r[i].id in posts && r[i] == WithoutImageData(posts[r[i].id])
  {
    var r := s[..k] + [p] + s[k..];
    forall i | 0 <= i < |r| ensures r[i].id in posts && r[i] == WithoutImageData(posts[r[i].id]) {
      assert r[i] == if i < k then s[i] else if i == k then p else s[i - 1];
    }
  }

  lemma InsertDistinct(s: seq<Post>, k: nat, p: Post)
    requires k <= |s|
    requires forall i, j :: 0 <= i < j < |s| ==> s[i].id != s[j].id
    requires forall i :: 0 <= i < |s| ==> s[i].id != p.id
    ensures var r := s[..k] + [p] + s[k..];
      forall i, j :: 0 <= i < j < |r| ==> r[i].id != r[j].id
  {
    var r := s[..k] + [p] + s[k..];
    forall i, j | 0 <= i < j < |r| ensures r[i].id != r[j].id {
      assert r[i] == if i < k then s[i] else if i == k then p else s[i - 1];
      assert r[j] == if j < k then s[j] else if j == k then p else s[j - 1];
    }
  }

  /** Inserting a further stored post at its slot keeps the entries ordered and distinct. */
  lemma InsertAtSlot(s: seq<Post>, p: Post, posts: map<PostId, Post>)
    requires OrderedProjections(s, posts)
    requires p.id in posts && p == WithoutImageData(posts[p.id]) && p.id !in Ids(s)
    ensures var k := Slot(s, p.createdAt);
      && OrderedProjections(s[..k] + [p] + s[k..], posts)
      && Ids(s[..k] + [p] + s[k..]) == Ids(s) + {p.id}
  {
    var k := Slot(s, p.createdAt);
    IdsAt(s, p.id);
    InsertSorted(s, k, p);
    InsertProjection(s, k, p, posts);
    InsertDistinct(s, k, p);
    InsertIds(s, k, p);
  }

  lemma InsertIds(s: seq<Post>, k: nat, p: Post)
    requires k <= |s|
    ensures Ids(s[..k] + [p] + s[k..]) == Ids(s) + {p.id}
  {
    IdsConcat(s[..k] + [p], s[k..]);
    IdsConcat(s[..k], [p]);
    IdsConcat(s[..k], s[k..]);
    assert s[..k] + s[k..] == s;
    assert Ids([p]) == {p.id} by { assert [p][1..] == []; }
  }

  /** Distinct identifiers: the listing has one entry per element of Ids. */
  lemma {:induction false} IdsOfDistinct(s: seq<Post>)
    requires forall i, j :: 0 <= i < j < |s| ==> s[i].id != s[j].id
    ensures |Ids(s)| == |s|
  {
    if s != [] {
      assert forall i :: 0 <= i < |s[1..]| ==> s[1..][i].id == s[i + 1].id;
      IdsAt(s[1..], s[0].id);
      IdsOfDistinct(s[1..]);
    }
  }

  /** A listing has exactly as many entries as the collection has posts. */
  lemma ListingSize(s: seq<Post>, posts: map<PostId, Post>)
    requires IsListing(s, posts)
    ensures |s| == |posts|
  {
    IdsOfDistinct(s);
    assert |posts.Keys| == |posts|;
  }

  // ---- the collection and its handlers ------------------------------------

  class PostStore {
    var posts: map<PostId, Post>
    /** Stands in for the database's generator of fresh identifiers. */
    var nextId: PostId

    ghost predicate Valid()
      reads this
    {
      forall id :: id in posts ==> id < nextId && posts[id].id == id && ImageWithinLimit(posts[id])
    }

    constructor ()
      ensures Valid() && posts == map[] && nextId == 0
    {
      posts := map[];
      nextId := 0;
    }

    /** GET "/": all posts, newest first, without image data. */
    method List() returns (r: Response)
      requires Valid()
      ensures r.status == 200 && r.body.PostList?
      ensures IsListing(r.body.posts, posts)
      ensures forall i :: 0 <= i < |r.body.posts| ==> CarriesNoImageData(r.body.posts[i])
    {
      var left := posts.Keys;
      var acc: seq<Post> := [];
      while left != {}
        invariant left <= posts.Keys
        invariant Ids(acc) == posts.Keys - left
        invariant OrderedProjections(acc, posts)
        decreases left
      {
        var id :| id in left;
        var p := WithoutImageData(posts[id]);
        var k := Slot(acc, p.createdAt);
        InsertAtSlot(acc, p, posts);
        acc := acc[..k] + [p] + acc[k..];
        left := left - {id};
      }
      r := Response(200, PostList(acc));
    }

    /** GET "/:id": the post without its image data, or 404. */
    function Get(id: PostId): (r: Response)
      reads this
      ensures r.status == 404 <==> id !in posts
      ensures id !in posts ==> r == PostNotFound
      ensures id in posts ==> r.status == 200 && r.body.OnePost?
      ensures id in posts ==> CarriesNoImageData(r.body.post) && SameExceptImageData(r.body.post, posts[id])
    {
      if id !in posts then PostNotFound else Response(200, OnePost(WithoutImageData(posts[id])))
    }

    /** GET "/:id/image": the stored bytes with their content type, or 404. */
    function GetImage(id: PostId): (r: Response)
      reads this
      ensures r.status == 200 <==> id in posts && posts[id].image.Some? && posts[id].image.value.data.Some?
      ensures r.status != 200 ==> r == ImageNotFound
      ensures r.status == 200 ==>
        var img := posts[id].image.value;
        r.body == ImageBytes(img.data.value, img.contentType, ImageCacheMaxAge)
    {
      if id !in posts || posts[id].image.None? || posts[id].image.value.data.None? then ImageNotFound
      else
        var img := posts[id].image.value;
        Response(200, ImageBytes(img.data.value, img.contentType, ImageCacheMaxAge))
    }

    /** POST "/": a new post by the caller, with the uploaded image if there is one. */
    method Create(caller: UserId, form: PostForm, file: Option<UploadedFile>, now: nat) returns (r: Response)
      requires Valid()
      modifies this
      ensures Valid()
      ensures !UploadAccepted(file) ==> r == FileTooLarge && posts == old(posts) && nextId == old(nextId)
      ensures UploadAccepted(file) ==>
        var id := old(nextId);
        && id !in old(posts)
        && posts.Keys == old(posts).Keys + {id}
        && (forall k :: k in old(posts) ==> posts[k] == old(posts)[k])
        && posts[id].id == id
        && posts[id].title == form.title && posts[id].subtitle == form.subtitle && posts[id].content == form.content
        && posts[id].author == caller && posts[id].createdAt == now
        && (file.None? ==> posts[id].image.None? && posts[id].imageUrl.None?)
        && (file.Some? ==> posts[id].image == Some(Image(Some(file.value.buffer), file.value.mimetype)))
        && (file.Some? ==> posts[id].imageUrl == Some(ImageUrl(id)))
        && r == Response(201, OnePost(WithoutImageData(posts[id])))
      ensures UploadAccepted(file) && file.Some? ==>
        && ImageUrlTarget(posts[old(nextId)].imageUrl.value) == Some(old(nextId))
        && GetImage(old(nextId)) == Response(200, ImageBytes(file.value.buffer, file.value.mimetype, ImageCacheMaxAge))
    {
      if !UploadAccepted(file) {
        return FileTooLarge;
      }
      var id := nextId;
      var post := Post(id, form.title, form.subtitle, form.content, None, None, caller, now);
      if file.Some? {
        post := post.(image := Some(Image(Some(file.value.buffer), file.value.mimetype)));
      }
      posts := posts[id := post];
      nextId := nextId + 1;
      if file.Some? {
        post := post.(imageUrl := Some(ImageUrl(id)));
        posts := posts[id := post];
        ImageUrlRoutesBack(id);
      }
      r := Response(201, OnePost(WithoutImageData(posts[id])));
    }

    /** PUT "/:id": the author replaces the text fields, and the image when a file is supplied. */
    method Update(caller: UserId, id: PostId, form: PostForm, file: Option<UploadedFile>) returns (r: Response)
      requires Valid()
      modifies this
      ensures Valid() && nextId == old(nextId)
      ensures !UploadAccepted(file) ==> r == FileTooLarge && posts == old(posts)
      ensures UploadAccepted(file) && OwnerCheck(old(posts), id, caller).Some? ==>
        r == OwnerCheck(old(posts), id, caller).value && posts == old(posts)
      ensures UploadAccepted(file) && OwnerCheck(old(posts), id, caller).None? ==>
        var was := old(posts)[id];
        && posts.Keys == old(posts).Keys
        && var now := posts[id];
        && (forall k :: k in old(posts) && k != id ==> posts[k] == old(posts)[k])
        && now.title == form.title && now.subtitle == form.subtitle && now.content == form.content
        && now.id == was.id && now.author == was.author && now.createdAt == was.createdAt
        && (file.None? ==> now.image == was.image && now.imageUrl == was.imageUrl)
        && (file.Some? ==> now.image == Some(Image(Some(file.value.buffer), file.value.mimetype)))
        && (file.Some? ==> now.imageUrl == Some(ImageUrl(id)))
        && r == Response(200, OnePost(WithoutImageData(now)))
    {
      if !UploadAccepted(file) {
        return FileTooLarge;
      }
      var check := OwnerCheck(posts, id, caller);
      if check.Some? {
        return check.value;
      }
      var post := posts[id];
      post := post.(title := form.title);
      post := post.(subtitle := form.subtitle);
      post := post.(content := form.content);
      if file.Some? {
        post := post.(image := Some(Image(Some(file.value.buffer), file.value.mimetype)));
        post := post.(imageUrl := Some(ImageUrl(id)));
      }
      posts := posts[id := post];
      r := Response(200, OnePost(WithoutImageData(posts[id])));
    }

    /** DELETE "/:id": the author removes the post. */
    method Delete(caller: UserId, id: PostId) returns (r: Response)
      requires Valid()
      modifies this
      ensures Valid() && nextId == old(nextId)
      ensures OwnerCheck(old(posts), id, caller).Some? ==>
        r == OwnerCheck(old(posts), id, caller).value && posts == old(posts)
      ensures OwnerCheck(old(posts), id, caller).None? ==>
        r == PostRemoved && posts == old(posts) - {id} && Get(id) == PostNotFound
    {
      var check := OwnerCheck(posts, id, caller);
      if check.Some? {
        return check.value;
      }
      posts := posts - {id};
      r := PostRemoved;
    }
  }
}
