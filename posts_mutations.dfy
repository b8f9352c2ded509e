/** The five mutation flows behind the posts screen (create, update, delete,
    sync, save). Each one, on the store: sets loading, clears the error,
    applies its local change, makes its remote call, checks the status;
    on failure stores the message and rethrows; finally clears loading.
    `snapshot` is the list of posts captured when the hook rendered, which
    the flow reads instead of the live list. The ghost result `pending` is
    the state observers see while the remote call is in flight. */
module PostsMutations {
  import opened Wrappers
  import opened PostsStore
  import opened LocalStorage
  import opened KeyValService

  const SAVE_FAILED: string := "Failed to save posts to KeyVal"
  const UPDATE_FAILED: string := "Failed to update post in KeyVal"
  const DELETE_FAILED: string := "Failed to delete post from KeyVal"
  const NOT_FOUND: string := "Post not found"

  /** The status check after a `setKey` that returned: anything but SUCCESS
      becomes an error with `message`; an error `setKey` threw passes on
      with its own message. */
  function CheckStatus(outcome: Result<KeyValResponse, string>, message: string): (r: Result<KeyValResponse, string>)
    ensures r.Success? <==> outcome.Success? && outcome.value.status == STATUS_SUCCESS
    ensures r.Success? ==> r == outcome
    ensures r.Failure? ==> r.error == if outcome.Failure? then outcome.error else message
  {
    match outcome
    case Failure(e) => Failure(e)
    case Success(data) => if data.status != STATUS_SUCCESS then Failure(message) else outcome
  }

  /** `useCreatePost`: the new post is added locally and kept whatever the
      remote outcome; the list pushed is the render-time snapshot, which does
      not hold the new post. */
  method CreatePost(store: PostsStore, local: LocalStore, snapshot: seq<Post>,
                    title: string, content: string,
                    id: string, createdAt: string, updatedAt: string,
                    n: nat, reply: HttpReply)
    returns (r: Result<KeyValResponse, string>, sent: Request, ghost pending: PostsState)
    requires 1 <= n <= 999999
    modifies store, local
    ensures store.posts == old(store.posts) + [Post(id, title, content, createdAt, updatedAt)]
    ensures pending == PostsState(store.posts, true, None)
    ensures sent == SetRequest(SaveKey(n), PostsJson(ToServerAll(snapshot)))
    ensures r == CheckStatus(SetKeyOutcome(reply), SAVE_FAILED)
    ensures local.entries ==
      if SetKeyOutcome(reply).Success? then old(local.entries)[KEY_POSTS := SaveKey(n)] else old(local.entries)
    ensures !store.isLoading
    ensures store.error == if r.Failure? then Some(r.error) else None
  {
    store.SetLoading(true);
    store.SetError(None);
    store.AddPost(id, title, content, createdAt, updatedAt);
    pending := store.State();
    var response;
    response, sent := KeyValService.SavePosts(local, snapshot, n, reply);
    r := CheckStatus(response, SAVE_FAILED);
    if r.Failure? {
      store.SetError(Some(r.error));
    }
    store.SetLoading(false);
  }

  /** `useUpdatePost`: the local update is kept whatever happens next; the
      post pushed is looked up in the render-time snapshot, so it carries the
      title and content from before the update, and an id missing from the
      snapshot fails with "Post not found" before any request. */
  method UpdatePost(store: PostsStore, snapshot: seq<Post>,
                    id: string, title: string, content: string, now: string,
                    postHash: string, reply: HttpReply)
    returns (r: Result<KeyValResponse, string>, sent: Option<Request>, ghost pending: PostsState)
    modifies store
    ensures store.posts == WithUpdate(old(store.posts), id, title, content, now)
    ensures pending == PostsState(store.posts, true, None)
    ensures FindById(snapshot, id).None? ==> r == Failure(NOT_FOUND) && sent == None
    ensures FindById(snapshot, id).Some? ==>
      && sent == Some(SetRequest(GetShortKey(PostKey(postHash)), PostJson(ToServerFormat(FindById(snapshot, id).value))))
      && r == CheckStatus(SetKeyOutcome(reply), UPDATE_FAILED)
    ensures !store.isLoading
    ensures store.error == if r.Failure? then Some(r.error) else None
  {
    store.SetLoading(true);
    store.SetError(None);
    store.UpdatePost(id, title, content, now);
    pending := store.State();
    var updatedPost := FindById(snapshot, id);
    if updatedPost.None? {
      r, sent := Failure(NOT_FOUND), None;
    } else {
      var response, request := KeyValService.SavePost(updatedPost.value, postHash, reply);
      sent := Some(request);
      r := CheckStatus(response, UPDATE_FAILED);
    }
    if r.Failure? {
      store.SetError(Some(r.error));
    }
    store.SetLoading(false);
  }

  /** `useDeletePost`: the local removal is kept; a remote delete that
      reports false becomes "Failed to delete post from KeyVal". */
  method DeletePost(store: PostsStore, id: string, reply: HttpReply)
    returns (r: Result<bool, string>, sent: Request, ghost pending: PostsState)
    modifies store
    ensures store.posts == Without(old(store.posts), id)
    ensures pending == PostsState(store.posts, true, None)
    ensures sent == SetRequest(GetShortKey(PostKey(id)), Text(""))
    ensures r == if SetKeyOutcome(reply).Success? then Success(true) else Failure(DELETE_FAILED)
    ensures !store.isLoading
    ensures store.error == if r.Failure? then Some(r.error) else None
  {
    store.SetLoading(true);
    store.SetError(None);
    store.DeletePost(id);
    pending := store.State();
    var success;
    success, sent := KeyValService.DeletePost(id, reply);
    if !success {
      r := Failure(DELETE_FAILED);
      store.SetError(Some(r.error));
    } else {
      r := Success(true);
    }
    store.SetLoading(false);
  }

  /** `useSyncPosts`: the list becomes whatever `loadPosts` returns. Since
      that never throws, the flow never fails: a read that fails or delivers
      nothing empties the list and leaves the error clear. */
  method SyncPosts(store: PostsStore, local: LocalStore, reply: HttpReply,
                   parsed: Option<seq<PostForServer>>, clock: nat -> string)
    returns (r: Result<seq<Post>, string>, sent: Option<Request>, ghost pending: PostsState)
    modifies store
    ensures pending == PostsState(old(store.posts), true, None)
    ensures sent.Some? <==> Truthy(local.Get(KEY_POSTS))
    ensures sent.Some? ==> sent == Some(GetRequest(GetShortKey(local.Get(KEY_POSTS).value)))
    ensures r.Success? && store.posts == r.value
    ensures store.posts == if sent.Some? && Loaded(reply, parsed) then FromServerAll(parsed.value, clock) else []
    ensures GetKeyOutcome(reply).Failure? ==> store.posts == []
    ensures !store.isLoading && store.error == None
  {
    store.SetLoading(true);
    store.SetError(None);
    pending := store.State();
    var posts;
    posts, sent := KeyValService.LoadPosts(local, None, reply, parsed, clock);
    store.SyncPosts(posts);
    r := Success(posts);
    store.SetLoading(false);
  }

  /** `useSavePosts`: pushes the render-time snapshot under a fresh key and
      leaves the local list alone. */
  method SavePosts(store: PostsStore, local: LocalStore, snapshot: seq<Post>, n: nat, reply: HttpReply)
    returns (r: Result<KeyValResponse, string>, sent: Request, ghost pending: PostsState)
    requires 1 <= n <= 999999
    modifies store, local
    ensures store.posts == old(store.posts)
    ensures pending == PostsState(store.posts, true, None)
    ensures sent == SetRequest(SaveKey(n), PostsJson(ToServerAll(snapshot)))
    ensures r == CheckStatus(SetKeyOutcome(reply), SAVE_FAILED)
    ensures local.entries ==
      if SetKeyOutcome(reply).Success? then old(local.entries)[KEY_POSTS := SaveKey(n)] else old(local.entries)
    ensures !store.isLoading
    ensures store.error == if r.Failure? then Some(r.error) else None
  {
    store.SetLoading(true);
    store.SetError(None);
    pending := store.State();
    var response;
    response, sent := KeyValService.SavePosts(local, snapshot, n, reply);
    r := CheckStatus(response, SAVE_FAILED);
    if r.Failure? {
      store.SetError(Some(r.error));
    }
    store.SetLoading(false);
  }

  /** Two creates issued from the same render: both posts end up in the local
      list, in order, while each push sends the same stale snapshot, so the
      last write to land remotely holds neither new post. */
  method TwoCreatesFromOneSnapshot(store: PostsStore, local: LocalStore,
                                   first: Post, second: Post,
                                   n1: nat, n2: nat, reply1: HttpReply, reply2: HttpReply)
    returns (sent1: Request, sent2: Request)
    requires 1 <= n1 <= 999999 && 1 <= n2 <= 999999
    modifies store, local
    ensures store.posts == old(store.posts) + [first, second]
    ensures sent1 == SetRequest(SaveKey(n1), PostsJson(ToServerAll(old(store.posts))))
    ensures sent2 == SetRequest(SaveKey(n2), PostsJson(ToServerAll(old(store.posts))))
  {
    var snapshot := store.posts;
    var r1, r2;
    ghost var p1, p2;
    r1, sent1, p1 := CreatePost(store, local, snapshot, first.title, first.content,
                                first.id, first.createdAt, first.updatedAt, n1, reply1);
    r2, sent2, p2 := CreatePost(store, local, snapshot, second.title, second.content,
                                second.id, second.createdAt, second.updatedAt, n2, reply2);
  }

  /** A sync that loaded records followed by a save of the synced list pushes
      exactly the records read, in order: only the timestamps were lost. */
  method SyncThenSave(store: PostsStore, local: LocalStore, readReply: HttpReply,
                      parsed: Option<seq<PostForServer>>, clock: nat -> string,
                      n: nat, writeReply: HttpReply)
    returns (sent: Request)
    requires 1 <= n <= 999999
    modifies store, local
    ensures Truthy(old(local.Get(KEY_POSTS))) && Loaded(readReply, parsed) ==>
      sent == SetRequest(SaveKey(n), PostsJson(parsed.value))
  {
    var r1, r2;
    var readSent;
    ghost var p1, p2;
    r1, readSent, p1 := SyncPosts(store, local, readReply, parsed, clock);
    if readSent.Some? && Loaded(readReply, parsed) {
      ServerListRoundTrip(parsed.value, clock);
    }
    r2, sent, p2 := SavePosts(store, local, store.posts, n, writeReply);
  }
}
