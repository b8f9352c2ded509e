/** The posts state container: the `Post` record, its server projection,
    and a store object whose actions update the list of posts, the loading
    flag and the error message in place. Ids and timestamps, which the
    store draws from `Math.random` and the clock, are passed in. */
module PostsStore {
  import opened Wrappers

  datatype Post = Post(id: string, title: string, content: string, createdAt: string, updatedAt: string)

  /** What is sent to the server: a post without its timestamps. */
  datatype PostForServer = PostForServer(id: string, title: string, content: string)

  /** The observable state of the store. */
  datatype PostsState = PostsState(posts: seq<Post>, isLoading: bool, error: Option<string>)

  // ---------------------------------------------------------------------
  // Projections between Post and PostForServer

  function ToServerFormat(post: Post): (s: PostForServer)
    ensures s.id == post.id && s.title == post.title && s.content == post.content
  {
    PostForServer(post.id, post.title, post.content)
  }

  /** Rebuilds a post from its projection, stamping both timestamps with the
      one clock reading `now`. */
  function FromServerFormat(s: PostForServer, now: string): (post: Post)
    ensures post.createdAt == now && post.updatedAt == now
    ensures post.id == s.id && post.title == s.title && post.content == s.content
  {
    Post(s.id, s.title, s.content, now, now)
  }

  /** Projecting a rebuilt post gives back the server record. */
  lemma ServerRoundTrip(s: PostForServer, now: string)
    ensures ToServerFormat(FromServerFormat(s, now)) == s
  {
  }

  /** Projecting and rebuilding keeps id, title and content and replaces
      both timestamps by the new clock reading. */
  lemma PostRoundTrip(post: Post, now: string)
    ensures FromServerFormat(ToServerFormat(post), now) == post.(createdAt := now, updatedAt := now)
  {
  }

  /** `posts.map(convertPostToServerFormat)`. */
  function ToServerAll(posts: seq<Post>): (r: seq<PostForServer>)
    ensures |r| == |posts|
    ensures forall i :: 0 <= i < |posts| ==> r[i] == ToServerFormat(posts[i])
  {
    seq(|posts|, i requires 0 <= i < |posts| => ToServerFormat(posts[i]))
  }

  /** `serverPosts.map(convertServerToPostFormat)`: each conversion reads the
      clock on its own, so the i-th post is stamped with `clock(i)`. */
  function FromServerAll(serverPosts: seq<PostForServer>, clock: nat -> string): (r: seq<Post>)
    ensures |r| == |serverPosts|
    ensures forall i :: 0 <= i < |r| ==> r[i] == FromServerFormat(serverPosts[i], clock(i))
  {
    seq(|serverPosts|, i requires 0 <= i < |serverPosts| => FromServerFormat(serverPosts[i], clock(i)))
  }

  /** Rebuilding a list of server records and projecting it again gives the
      same records in the same order, whatever the clock read. */
  lemma ServerListRoundTrip(serverPosts: seq<PostForServer>, clock: nat -> string)
    ensures ToServerAll(FromServerAll(serverPosts, clock)) == serverPosts
  {
  }

  // ---------------------------------------------------------------------
  // Lookup, update and removal by id, as the store's actions perform them

  /** The index of the first post with the given id (`Array.prototype.find`). */
  function FirstIndexOf(posts: seq<Post>, id: string): (r: Option<nat>)
    ensures r.Some? ==> r.value < |posts| && posts[r.value].id == id
    ensures r.Some? ==> forall j :: 0 <= j < r.value ==> posts[j].id != id
    ensures r.None? <==> forall j :: 0 <= j < |posts| ==> posts[j].id != id
  {
    if posts == [] then None
    else if posts[0].id == id then Some(0)
    else match FirstIndexOf(posts[1..], id)
      case None => None
      case Some(k) => Some(k + 1)
  }

  /** The first post with the given id, if any. */
  function FindById(posts: seq<Post>, id: string): (r: Option<Post>)
    ensures r.Some? ==> r.value in posts && r.value.id == id
    ensures r.Some? ==> FirstIndexOf(posts, id).Some? && r.value == posts[FirstIndexOf(posts, id).value]
    ensures r.None? <==> forall j :: 0 <= j < |posts| ==> posts[j].id != id
  {
    match FirstIndexOf(posts, id)
    case None => None
    case Some(i) => Some(posts[i])
  }

  /** The list after `updatePost(id, title, content)` with clock reading `now`:
      only the first post with that id changes, and only its title, content
      and updatedAt; an absent id leaves the list as it is. */
  function WithUpdate(posts: seq<Post>, id: string, title: string, content: string, now: string): (r: seq<Post>)
    ensures |r| == |posts|
    ensures forall k :: 0 <= k < |r| ==> r[k].id == posts[k].id && r[k].createdAt == posts[k].createdAt
    ensures FirstIndexOf(posts, id).None? ==> r == posts
    ensures FirstIndexOf(posts, id).Some? ==>
      var i := FirstIndexOf(posts, id).value;
      && r[i].title == title && r[i].content == content && r[i].updatedAt == now
      && forall k :: 0 <= k < |r| && k != i ==> r[k] == posts[k]
  {
    match FirstIndexOf(posts, id)
    case None => posts
    case Some(i) => posts[i := posts[i].(title := title, content := content, updatedAt := now)]
  }

  /** `posts.filter(post => post.id !== id)`. */
  function Without(posts: seq<Post>, id: string): (r: seq<Post>)
    ensures |r| <= |posts|
  {
    if posts == [] then []
    else (if posts[0].id == id then [] else [posts[0]]) + Without(posts[1..], id)
  }

  /** A post stays exactly when it was there and carries another id. */
  lemma {:induction false} WithoutMembers(posts: seq<Post>, id: string)
    ensures forall p :: p in Without(posts, id) <==> p in posts && p.id != id
  {
    if posts != [] {
      WithoutMembers(posts[1..], id);
      assert posts == [posts[0]] + posts[1..];
    }
  }

  /** Removal distributes over concatenation, so the posts that stay keep
      their relative order. */
  lemma {:induction false} WithoutAppend(a: seq<Post>, b: seq<Post>, id: string)
    ensures Without(a + b, id) == Without(a, id) + Without(b, id)
  {
    if a == [] {
      assert a + b == b;
    } else {
      assert (a + b)[0] == a[0];
      assert (a + b)[1..] == a[1..] + b;
      WithoutAppend(a[1..], b, id);
    }
  }

  /** Removing an id that no post carries changes nothing. */
  lemma {:induction false} WithoutAbsent(posts: seq<Post>, id: string)
    requires forall j :: 0 <= j < |posts| ==> posts[j].id != id
    ensures Without(posts, id) == posts
  {
    if posts != [] {
      WithoutAbsent(posts[1..], id);
    }
  }

  /** Removing the same id twice is the same as removing it once. */
  lemma WithoutIdempotent(posts: seq<Post>, id: string)
    ensures Without(Without(posts, id), id) == Without(posts, id)
  {
    var r := Without(posts, id);
    WithoutMembers(posts, id);
    forall j | 0 <= j < |r| ensures r[j].id != id {
      assert r[j] in r;
    }
    WithoutAbsent(r, id);
  }

  // ---------------------------------------------------------------------
  // The store

  class PostsStore {
    var posts: seq<Post>
    var isLoading: bool
    var error: Option<string>

    function State(): PostsState
      reads this
    {
      PostsState(posts, isLoading, error)
    }

    /** The initial state: no posts, not loading, no error. */
    constructor ()
      ensures posts == [] && !isLoading && error == None
    {
      posts := [];
      isLoading := false;
      error := None;
    }

    /** Appends a post built from `title` and `content`, with the id and the
        two clock readings supplied, and clears the error. */
    method AddPost(id: string, title: string, content: string, createdAt: string, updatedAt: string)
      modifies this
      ensures posts == old(posts) + [Post(id, title, content, createdAt, updatedAt)]
      ensures error == None && isLoading == old(isLoading)
    {
      var newPost := Post(id, title, content, createdAt, updatedAt);
      posts := posts + [newPost];
      error := None;
    }

    /** Rewrites title, content and updatedAt of the first post with `id`,
        if there is one, and clears the error either way. */
    method UpdatePost(id: string, title: string, content: string, now: string)
      modifies this
      ensures posts == WithUpdate(old(posts), id, title, content, now)
      ensures error == None && isLoading == old(isLoading)
    {
      var found := FirstIndexOf(posts, id);
      if found.Some? {
        var i := found.value;
        posts := posts[i := posts[i].(title := title, content := content, updatedAt := now)];
      }
      error := None;
    }

    /** Drops every post with `id` and clears the error. */
    method DeletePost(id: string)
      modifies this
      ensures posts == Without(old(posts), id)
      ensures error == None && isLoading == old(isLoading)
    {
      posts := Without(posts, id);
      error := None;
    }

    method SetLoading(loading: bool)
      modifies this
      ensures isLoading == loading
      ensures posts == old(posts) && error == old(error)
    {
      isLoading := loading;
    }

    method SetError(message: Option<string>)
      modifies this
      ensures error == message
      ensures posts == old(posts) && isLoading == old(isLoading)
    {
      error := message;
    }

    method ClearError()
      modifies this
      ensures error == None
      ensures posts == old(posts) && isLoading == old(isLoading)
    {
      error := None;
    }

    /** Replaces the whole list by `newPosts`, in their order. */
    method SyncPosts(newPosts: seq<Post>)
      modifies this
      ensures posts == newPosts
      ensures error == None && isLoading == old(isLoading)
    {
      posts := newPosts;
      error := None;
    }

    method ClearPosts()
      modifies this
      ensures posts == []
      ensures error == None && isLoading == old(isLoading)
    {
      posts := [];
      error := None;
    }
  }
}
