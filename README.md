# DevBlog post resource and registration form, modelled in Dafny

DevBlog is a blogging web application: a browser client and a REST API over
a MongoDB collection of posts. This project models the two pieces that
carry decisions:

- **The post router** (`routes/posts.js`), mounted at `/api/posts`. The
  collection is a `map<PostId, Post>` held by the class
  `Posts.PostStore`. The six handlers are members of that class. `List`,
  `Create`, `Update` and `Delete` are methods. `Get` and `GetImage` change
  nothing, so they are functions that read the store. Each handler
  returns a `Response`: the HTTP status and the body sent. Mongoose's
  `findById` is a map lookup, `save` is a map update and `deleteOne` is a
  map removal. The projection `select('-image.data')` is
  `WithoutImageData`. In `Create` and `Update` the document is changed
  field by field, as in the source. The upload middleware's 5 MB limit
  (`MaxFileSize`) is checked before the handler body runs, and the store
  invariant `Valid()` keeps every stored image within it.
- **Image URLs** (module `PostUrls`). A post with an uploaded image gets
  the URL `/api/posts/<id>/image`. `ImageUrlTarget` is the route
  `GET /:id/image` under the mount point. `ImageUrlRoutesBack` proves
  that the stored URL leads back to the same post, so
  `Scenarios.CreateThenFetchImage` can fetch exactly the uploaded bytes
  through it.
- **The registration form** (`client/src/components/auth/Register.js`).
  `CheckPasswords` is the pure pair of checks. The class
  `Register.RegisterForm` holds the component state: the four inputs,
  `error`, `loading`, the stored token and the navigation target. `Submit`
  returns the signup request it sends, or `None` when it sends nothing.

The outside world enters as parameters:

- the caller's identity (`req.user.id`, set by the authentication middleware);
- the creation time (a Mongoose timestamp);
- the uploaded file (what the multipart middleware hands over);
- the server's answer to the signup request.

New identifiers come from a counter, `nextId`, which stands in for
ObjectId generation. `Valid()` requires every stored identifier to be
below it, so a new identifier is always fresh.

## Model

| member | source | states |
|---|---|---|
| `Posts.PostStore.List` | routes/posts.js:17-24 | Status 200. The body is a listing of the store: every stored post exactly once (by id), ordered by createdAt descending, each equal to the stored post without image data. No item carries image bytes. |
| `Posts.ListingSize` | routes/posts.js:19-22 | A listing has exactly as many entries as the collection has posts. |
| `Posts.PostStore.Get` | routes/posts.js:32-42 | Status 404 exactly when the id is absent, and then the body is "Post not found". Otherwise status 200 with that post, with no image data and every other field as stored. |
| `Posts.PostStore.GetImage` | routes/posts.js:50-60 | Status 200 exactly when the post exists, has an image and that image has data. The body is then the stored bytes, the stored content type and a one-year max-age. In every other case the response is 404 "Image not found". |
| `Posts.PostStore.Create` | routes/posts.js:68-103 | A rejected oversize upload changes nothing. Otherwise one fresh id is added and every other post is unchanged. The new post has the form's text, the caller as author and the given creation time. The image and imageUrl are set only when a file was uploaded, with the URL built from the new id; that URL routes back to the new post, whose image endpoint serves the uploaded bytes. Status 201, body without image data. |
| `Posts.PostStore.Update` | routes/posts.js:111-145 | An oversize upload, a missing post (404) or a foreign author (401) leaves the store unchanged; 404 is decided before authorship is looked at. On success only that post changes. Title, subtitle and content take the request's values. Id, author and createdAt are kept. Image and imageUrl are kept without a file and replaced (URL from the id) with one. Status 200, body without image data. |
| `Posts.PostStore.Delete` | routes/posts.js:153-167 | 404 before 401, as for update, and both leave the store unchanged. On success exactly that id is removed, the body is "Post removed", and a later `Get` of the id is 404. |
| `Posts.OwnerCheck` | routes/posts.js:115-123 | 404 exactly when the id is absent, whatever the caller. 401 exactly when the post exists and its author is not the caller. Nothing exactly when the caller is the author. |
| `Posts.WithoutImageData` | routes/posts.js:22 | The projected post carries no image data. It differs from the original in nothing else: the image's presence and content type are kept. |
| `Posts.WithoutImageDataUnique` | routes/posts.js:36 | The projection is the only post with no image data that agrees with the original in everything else. |
| `PostUrls.ParseIdText` | routes/posts.js:52 | Reading an id's text back as the route parameter gives the same id. |
| `PostUrls.ImageUrlRoutesBack` | routes/posts.js:94 | The image URL built from an id matches the image route, under the router's mount point, with that same id. |
| `PostUrls.ImageUrlInjective` | routes/posts.js:135 | Two posts never get the same image URL. |
| `Scenarios.DeleteThenRead` | routes/posts.js:165-167 | After a successful delete, get of that id is 404 and no list entry has that id. |
| `Scenarios.ForeignAuthorIsRefused` | routes/posts.js:121-123 | A caller who is not the author gets 401 from both update and delete, and the store is unchanged. |
| `Scenarios.CreateThenFetchImage` | routes/posts.js:93-95 | Following the imageUrl of a post created with an upload yields status 200 with exactly the uploaded bytes and type. |
| `Register.CheckPasswords` | client/src/components/auth/Register.js:26-34 | Mismatch error exactly when the two passwords differ, so a mismatch never yields the length error. Length error exactly when they match and the password is shorter than 6 UTF-16 units. No error exactly when they match and it has at least 6. Any matching password of at least 6 characters passes. |
| `Register.Utf16Length` | client/src/components/auth/Register.js:31 | The JavaScript length lies between the character count and twice it, and equals the character count when every character is in the Basic Multilingual Plane. |
| `Register.RegisterForm.Submit` | client/src/components/auth/Register.js:22-43 | A request is sent exactly when both checks pass. Then the error is cleared, loading is set, and the request holds exactly username, email and password (no confirmation). Otherwise nothing is sent, the error is the failing check's message and loading is untouched. The inputs are never changed. |
| `Register.RegisterForm.OnChange` | client/src/components/auth/Register.js:18-20 | Exactly the named input takes the new value. |
| `Register.RegisterForm.SignupSucceeded` | client/src/components/auth/Register.js:45-49 | The token is stored and the client navigates to "/". Error and loading are left as they were. |
| `Register.RegisterForm.SignupFailed` | client/src/components/auth/Register.js:50-53 | The error is the server's message when it is non-empty, and "Registration failed. Please try again." otherwise. Loading is cleared. |
| `Register.RegisterForm.constructor` | client/src/components/auth/Register.js:6-13 | All inputs start empty, with no error and not loading. |

## Left out

- Authentication middleware: it is not part of this model. The caller's identity is a parameter, so the 401 for a missing or invalid token is not modelled.
- `populate('author', 'username')`: responses carry the author's id, not the joined user document.
- Mongoose timestamps: `createdAt` is a given number and `updatedAt` is not modelled. The BlogPost schema is not part of this model, so schema validation is not modelled, and neither are form fields missing from the request body (`undefined` in the source). Every form field is a string.
- The catch-all 500 handlers: they depend on database failures. The 500 from casting a malformed id to an ObjectId is left out too, because request ids are already identifiers in the model.
- Create sets imageUrl to the transient value `/api/posts/null/image` before its first save. Only the state after the second save is modelled.
- Multer internals: an oversize file is modelled as a refusal before the handler runs. The response is 500 "File too large", since the upload error carries no status and Express's default error handler uses 500. Its HTML rendering is not modelled.
- ObjectId format: identifiers are naturals from a counter, written in hexadecimal without the 24-digit padding of an ObjectId.
- Listing order among posts with equal createdAt: the database leaves it unspecified. `List` puts a later-drawn post after those with the same time. `IsListing` allows any order among them.
- `Posts.PostStore.List`: the loop stands in for the database's `find().sort()`, whose own algorithm is not modelled.
- Concurrent requests: they are not modelled (the source gives last-write-wins).
- Disk-based image storage: the router only stores images in the database, so the model does the same.
- Register.js rendering, `e.preventDefault()`, the `authChange` event and the React state batching: only the final state of each handler is modelled.
- `client/src/components/posts/PostForm.js`, `Login.js`, `Navbar.js`, `Footer.js`, `server.js` (apart from the `/api/posts` mount point) and `App.js`: UI glue, configuration and routing tables.
