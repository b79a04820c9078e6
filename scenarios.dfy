/**
 * Request sequences against one post store, stating what a client observes
 * across handlers from the handlers' contracts alone.
 */
module Scenarios {
  import opened Wrappers
  import opened PostUrls
  import opened Posts

  /** After a successful delete, neither GET "/:id" nor GET "/" shows the post. */
  method DeleteThenRead(store: PostStore, caller: UserId, id: PostId)
    returns (deleted: Response, fetched: Response, listed: Response)
    requires store.Valid()
    modifies store
    ensures deleted == PostRemoved ==> fetched == PostNotFound
    ensures listed.body.PostList?
    ensures deleted == PostRemoved ==> forall i :: 0 <= i < |listed.body.posts| ==> listed.body.posts[i].id != id
  {
    deleted := store.Delete(caller, id);
    fetched := store.Get(id);
    listed := store.List();
  }

  /** A caller who is not the author can neither edit nor remove the post. */
  method ForeignAuthorIsRefused(store: PostStore, caller: UserId, id: PostId, form: PostForm)
    returns (updated: Response, deleted: Response)
    requires store.Valid()
    requires id in store.posts && store.posts[id].author != caller
    modifies store
    ensures updated == NotAuthorized && deleted == NotAuthorized
    ensures store.posts == old(store.posts)
  {
    updated := store.Update(caller, id, form, None);
    deleted := store.Delete(caller, id);
  }

  /** The image URL of a new post with an upload serves exactly the uploaded bytes. */
  method CreateThenFetchImage(store: PostStore, caller: UserId, form: PostForm, file: UploadedFile, now: nat)
    returns (created: Response, image: Response)
    requires store.Valid()
    requires |file.buffer| <= MaxFileSize
    modifies store
    ensures created.status == 201 && created.body.OnePost?
    ensures created.body.post.imageUrl.Some? && CarriesNoImageData(created.body.post)
    ensures image == Response(200, ImageBytes(file.buffer, file.mimetype, ImageCacheMaxAge))
  {
    created := store.Create(caller, form, Some(file), now);
    var target := ImageUrlTarget(created.body.post.imageUrl.value);
    image := store.GetImage(target.value);
  }
}
