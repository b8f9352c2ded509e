/** The client of the remote KeyVal store: key shortening by a 32-bit
    string hash, classification of the HTTP outcome of `set` and `get`,
    and the save/load/delete operations on posts. Each network round trip
    is an `HttpReply` given as input; a parsed JSON payload is given as
    input too, and what is sent is returned as a `Request` value. */
module KeyValService {
  import opened Wrappers
  import opened JsRuntime
  import opened PostsStore
  import opened LocalStorage

  /** Keys longer than this many code units are replaced by their hash. */
  const MAX_KEY_LENGTH: nat := 20

  const STATUS_SUCCESS: string := "SUCCESS"
  const STATUS_TOO_LONG: string := "-KEY-OR-VALUE-TOO-LONG-"

  const SET_KEY_FAILED: string := "Failed to set key: "
  const GET_KEY_FAILED: string := "Failed to get key: "
  const HTTP_ERROR: string := "HTTP error! status: "
  const TOO_LONG_MESSAGE: string := "Key or value too long for KeyVal API"

  /** Prefix of the keys of the whole posts list and of single posts. */
  const POSTS_KEY_PREFIX: string := "dnt"
  const POST_KEY_PREFIX: string := "dnt03012001_"

  /** The JSON body the KeyVal API answers with. */
  datatype KeyValResponse = KeyValResponse(status: string, key: string, val: string)

  /** What one `fetch` produced: a response (its `ok` flag, its HTTP status,
      and what `response.json()` gave or the message it threw), or the
      message of the error `fetch` itself threw. */
  datatype HttpReply =
    | Reply(ok: bool, httpStatus: nat, json: Result<KeyValResponse, string>)
    | NetworkFailure(message: string)

  /** The value sent with a `set`: the JSON text of a list of posts, of one
      post, or a literal string. */
  datatype Payload =
    | PostsJson(posts: seq<PostForServer>)
    | PostJson(post: PostForServer)
    | Text(text: string)

  /** A request as sent, with the (shortened) key before URL encoding. */
  datatype Request = SetRequest(key: string, value: Payload) | GetRequest(key: string)

  // ---------------------------------------------------------------------
  // Key shortening

  /** One step of the hash recurrence: `31 * h + c`, wrapped to 32 bits. */
  function HashStep(h: int, unit: int): (r: int)
    ensures IsInt32(r)
    ensures IsInt32(31 * h + unit) ==> r == 31 * h + unit
  {
    ToInt32(31 * h + unit)
  }

  /** The hash accumulated over a sequence of code units, starting at 0. */
  function HashOf(units: seq<int>): (h: int)
    ensures IsInt32(h)
  {
    if units == [] then 0 else HashStep(HashOf(units[..|units| - 1]), units[|units| - 1])
  }

  /** `Math.abs` on an integer. */
  function Abs(x: int): (r: nat)
    ensures r == x || r == -x
  {
    if x < 0 then -x else x
  }

  /** The string `createHash` returns: the absolute value of the 32-bit hash
      of the code units, in base 36. It is 1 to 6 lower-case base-36 digits,
      one code unit each. */
  function Hash(s: string): (r: string)
    ensures 1 <= |r| <= 6
    ensures AllDigits(r, 36)
    ensures |Utf16(r)| == |r|
  {
    var a := Abs(HashOf(Utf16(s)));
    assert a < Pow(36, 6);
    ToRadixLength(a, 36, 6);
    Utf16OfBmp(ToRadix(a, 36));
    ToRadix(a, 36)
  }

  /** `(hash << 5) - hash + c` followed by `hash & hash` is the recurrence
      step `31 * hash + c` wrapped to 32 bits. */
  lemma ShiftFormIsHashStep(h: int, c: int)
    requires IsInt32(h)
    ensures ToInt32(ToInt32(ToInt32(h) * 32) - h + c) == HashStep(h, c)
  {
    ToInt32Identity(h);
    var q := (h * 32 + TWO31) / TWO32;
    assert ToInt32(h * 32) == h * 32 - TWO32 * q;
    ToInt32Congruent(ToInt32(h * 32) - h + c, 31 * h + c, -q);
  }

  /** `createHash`: the loop over the code units of `str`. */
  method CreateHash(str: string) returns (r: string)
    ensures r == Hash(str)
  {
    var units := Utf16(str);
    var hash := 0;
    var i := 0;
    while i < |units|
      invariant 0 <= i <= |units|
      invariant IsInt32(hash)
      invariant hash == HashOf(units[..i])
    {
      var ch := units[i];
      ShiftFormIsHashStep(hash, ch);
      assert units[..i + 1][..i] == units[..i];
      hash := ToInt32(ToInt32(hash) * 32) - hash + ch;  // (hash << 5) - hash + char
      hash := ToInt32(hash);                             // hash & hash
      i := i + 1;
    }
    assert units[..i] == units;
    r := ToRadix(Abs(hash), 36);
  }

  /** `getShortKey`: a key is kept exactly when it has at most 20 code
      units; a longer one becomes its hash. Either way the result is short. */
  function GetShortKey(key: string): (r: string)
    ensures r == key <==> |Utf16(key)| <= MAX_KEY_LENGTH
    ensures |Utf16(key)| > MAX_KEY_LENGTH ==> r == Hash(key)
    ensures |Utf16(r)| <= MAX_KEY_LENGTH
  {
    if |Utf16(key)| <= MAX_KEY_LENGTH then key else Hash(key)
  }

  /** Shortening a key twice is the same as shortening it once. */
  lemma GetShortKeyIdempotent(key: string)
    ensures GetShortKey(GetShortKey(key)) == GetShortKey(key)
  {
  }

  // ---------------------------------------------------------------------
  // Outcome of one request

  /** `setKey`: fails on a network error, a non-ok response, an unreadable
      body or the too-long status, always with a message starting
      "Failed to set key: "; any other body, whatever its status, is
      returned as it came. */
  function SetKeyOutcome(reply: HttpReply): (r: Result<KeyValResponse, string>)
    ensures r.Success? <==>
      reply.Reply? && reply.ok && reply.json.Success? && reply.json.value.status != STATUS_TOO_LONG
    ensures r.Success? ==> r.value == reply.json.value
    ensures r.Failure? ==> SET_KEY_FAILED <= r.error
  {
    match reply
    case NetworkFailure(message) => Failure(SET_KEY_FAILED + message)
    case Reply(ok, httpStatus, json) =>
      if !ok then Failure(SET_KEY_FAILED + HTTP_ERROR + ToRadix(httpStatus, 10))
      else match json
        case Failure(message) => Failure(SET_KEY_FAILED + message)
        case Success(data) =>
          if data.status == STATUS_TOO_LONG then Failure(SET_KEY_FAILED + TOO_LONG_MESSAGE)
          else Success(data)
  }

  /** `getKey`: fails only on a network error, a non-ok response or an
      unreadable body, with a message starting "Failed to get key: ". */
  function GetKeyOutcome(reply: HttpReply): (r: Result<KeyValResponse, string>)
    ensures r.Success? <==> reply.Reply? && reply.ok && reply.json.Success?
    ensures r.Success? ==> r.value == reply.json.value
    ensures r.Failure? ==> GET_KEY_FAILED <= r.error
  {
    match reply
    case NetworkFailure(message) => Failure(GET_KEY_FAILED + message)
    case Reply(ok, httpStatus, json) =>
      if !ok then Failure(GET_KEY_FAILED + HTTP_ERROR + ToRadix(httpStatus, 10))
      else match json
        case Failure(message) => Failure(GET_KEY_FAILED + message)
        case Success(data) => Success(data)
  }

  /** A non-ok response makes `setKey` fail with the HTTP status in decimal. */
  lemma SetKeyHttpError(httpStatus: nat, json: Result<KeyValResponse, string>)
    ensures SetKeyOutcome(Reply(false, httpStatus, json)) ==
      Failure(SET_KEY_FAILED + HTTP_ERROR + ToRadix(httpStatus, 10))
  {
  }

  /** An ok reply whose body carries the too-long sentinel makes `setKey`
      fail with the API's length message. */
  lemma SetKeyTooLong(httpStatus: nat, data: KeyValResponse)
    requires data.status == STATUS_TOO_LONG
    ensures SetKeyOutcome(Reply(true, httpStatus, Success(data))) ==
      Failure(SET_KEY_FAILED + TOO_LONG_MESSAGE)
  {
  }

  // ---------------------------------------------------------------------
  // Keys of the posts list and of single posts

  /** `dnt` followed by `n` padded with zeros to at least four digits. */
  function SaveKey(n: nat): (r: string)
    ensures |r| >= 7 && r[..3] == POSTS_KEY_PREFIX
  {
    POSTS_KEY_PREFIX + PadStart(ToRadix(n, 10), 4, '0')
  }

  /** `dnt03012001_` followed by the hash suffix, unchanged. */
  function PostKey(postHash: string): (r: string)
    ensures |r| == 12 + |postHash|
    ensures r[..12] == POST_KEY_PREFIX && r[12..] == postHash
  {
    POST_KEY_PREFIX + postHash
  }

  /** The padded decimal digits of a number from 1 to 999999: four to six
      digits that read back as the number. */
  lemma PaddedDigits(n: nat)
    requires 1 <= n <= 999999
    ensures 4 <= |PadStart(ToRadix(n, 10), 4, '0')| <= 6
    ensures AllDigits(PadStart(ToRadix(n, 10), 4, '0'), 10)
    ensures FromRadix(PadStart(ToRadix(n, 10), 4, '0'), 10) == n
  {
    var digits := ToRadix(n, 10);
    assert n < Pow(10, 6);
    ToRadixLength(n, 10, 6);
    var padded := PadStart(digits, 4, '0');
    FromRadixLeadingZeros(|padded| - |digits|, digits, 10);
    RadixRoundTrip(n, 10);
  }

  lemma SaveKeyIsBmp(n: nat)
    ensures IsBmp(SaveKey(n))
  {
    var padded := PadStart(ToRadix(n, 10), 4, '0');
    PadStartBmp(ToRadix(n, 10), 4, '0');
    assert IsBmp(POSTS_KEY_PREFIX);
    BmpAppend(POSTS_KEY_PREFIX, padded);
  }

  /** The save key of a drawn number is short enough to be sent as it is. */
  lemma SaveKeyUnshortened(n: nat)
    requires 1 <= n <= 999999
    ensures 7 <= |SaveKey(n)| <= 9
    ensures GetShortKey(SaveKey(n)) == SaveKey(n)
  {
    PaddedDigits(n);
    SaveKeyIsBmp(n);
    Utf16OfBmp(SaveKey(n));
  }

  /** For the numbers `savePosts` draws (1 to 999999) the key has 7 to 9
      characters, so it is sent unshortened, and its digits read back as
      the number drawn. */
  lemma SaveKeyShape(n: nat)
    requires 1 <= n <= 999999
    ensures 7 <= |SaveKey(n)| <= 9
    ensures SaveKey(n)[..3] == POSTS_KEY_PREFIX
    ensures GetShortKey(SaveKey(n)) == SaveKey(n)
    ensures AllDigits(SaveKey(n)[3..], 10) && FromRadix(SaveKey(n)[3..], 10) == n
  {
    SaveKeyUnshortened(n);
    PaddedDigits(n);
    assert SaveKey(n)[3..] == PadStart(ToRadix(n, 10), 4, '0');
  }

  /** Different numbers give different keys. */
  lemma SaveKeyInjective(n: nat, m: nat)
    requires 1 <= n <= 999999 && 1 <= m <= 999999
    requires SaveKey(n) == SaveKey(m)
    ensures n == m
  {
    SaveKeyShape(n);
    SaveKeyShape(m);
  }

  /** A single-post key has twelve code units more than its hash part. */
  lemma PostKeyLength(postHash: string)
    ensures |Utf16(PostKey(postHash))| == 12 + |Utf16(postHash)|
  {
    PostKeyPrefixLength();
    Utf16Append(POST_KEY_PREFIX, postHash);
  }

  lemma PostKeyPrefixLength()
    ensures |Utf16(POST_KEY_PREFIX)| == 12
  {
    assert IsBmp(POST_KEY_PREFIX);
    Utf16OfBmp(POST_KEY_PREFIX);
  }

  /** A single-post key keeps its form when the hash part has at most 8
      code units, and is replaced by its hash otherwise. */
  lemma PostKeyShortening(postHash: string)
    ensures |Utf16(postHash)| <= 8 ==> GetShortKey(PostKey(postHash)) == PostKey(postHash)
    ensures |Utf16(postHash)| > 8 ==> GetShortKey(PostKey(postHash)) == Hash(PostKey(postHash))
  {
    PostKeyLength(postHash);
  }

  // ---------------------------------------------------------------------
  // Operations on posts

  /** The response carries posts: status SUCCESS and a non-empty value. */
  predicate Delivered(data: KeyValResponse) {
    data.status == STATUS_SUCCESS && data.val != ""
  }

  /** The read succeeded, delivered a value and that value parsed. */
  predicate Loaded<T>(reply: HttpReply, parsed: Option<T>) {
    GetKeyOutcome(reply).Success? && Delivered(GetKeyOutcome(reply).value) && parsed.Some?
  }

  /** JavaScript truthiness of an optional string. */
  predicate Truthy(s: Option<string>) {
    s.Some? && s.value != ""
  }

  /** `savePosts`: sends the projected list under `SaveKey(n)`; when `setKey`
      returns, whatever the status, that key is recorded locally under
      `KEY_POSTS`; when it throws, nothing is recorded. */
  method SavePosts(local: LocalStore, posts: seq<Post>, n: nat, reply: HttpReply)
    returns (r: Result<KeyValResponse, string>, sent: Request)
    requires 1 <= n <= 999999
    modifies local
    ensures sent == SetRequest(SaveKey(n), PostsJson(ToServerAll(posts)))
    ensures r == SetKeyOutcome(reply)
    ensures local.entries ==
      if r.Success? then old(local.entries)[KEY_POSTS := SaveKey(n)] else old(local.entries)
  {
    var postsForServer := ToServerAll(posts);
    var key := SaveKey(n);
    SaveKeyUnshortened(n);
    sent := SetRequest(GetShortKey(key), PostsJson(postsForServer));
    r := SetKeyOutcome(reply);
    if r.Failure? {
      return;
    }
    local.Set(KEY_POSTS, key);
  }

  /** `loadPosts`: a non-empty explicit key wins over the stored one; with
      neither nothing is requested. Posts come back, in server order, only
      when the read delivered a value that parsed; every other outcome,
      thrown errors included, gives the empty list. */
  method LoadPosts(local: LocalStore, key: Option<string>, reply: HttpReply,
                   parsed: Option<seq<PostForServer>>, clock: nat -> string)
    returns (posts: seq<Post>, sent: Option<Request>)
    ensures sent.Some? <==> Truthy(key) || Truthy(local.Get(KEY_POSTS))
    ensures Truthy(key) ==> sent == Some(GetRequest(GetShortKey(key.value)))
    ensures !Truthy(key) && Truthy(local.Get(KEY_POSTS)) ==>
      sent == Some(GetRequest(GetShortKey(local.Get(KEY_POSTS).value)))
    ensures posts == if sent.Some? && Loaded(reply, parsed) then FromServerAll(parsed.value, clock) else []
  {
    var keyToUse := key;
    if !Truthy(keyToUse) {
      keyToUse := local.Get(KEY_POSTS);
    }
    if !Truthy(keyToUse) {
      return [], None;
    }
    sent := Some(GetRequest(GetShortKey(keyToUse.value)));
    var response := GetKeyOutcome(reply);
    if response.Failure? {
      return [], sent;
    }
    if Delivered(response.value) {
      match parsed
      case None =>
        posts := [];
      case Some(serverPosts) =>
        posts := FromServerAll(serverPosts, clock);
    } else {
      posts := [];
    }
  }

  /** `savePost`: sends one projected post under `PostKey(postHash)`. */
  method SavePost(post: Post, postHash: string, reply: HttpReply)
    returns (r: Result<KeyValResponse, string>, sent: Request)
    ensures sent == SetRequest(GetShortKey(PostKey(postHash)), PostJson(ToServerFormat(post)))
    ensures r == SetKeyOutcome(reply)
  {
    var postForServer := ToServerFormat(post);
    var key := PostKey(postHash);
    sent := SetRequest(GetShortKey(key), PostJson(postForServer));
    r := SetKeyOutcome(reply);
  }

  /** `loadPost`: reads the key `postHash` itself (no prefix is added); an
      empty `postHash` requests nothing. A post comes back only when the
      read delivered a value that parsed; otherwise null, never an error. */
  method LoadPost(postHash: string, reply: HttpReply, parsed: Option<PostForServer>, now: string)
    returns (post: Option<Post>, sent: Option<Request>)
    ensures sent == if postHash == "" then None else Some(GetRequest(GetShortKey(postHash)))
    ensures post.Some? <==> postHash != "" && Loaded(reply, parsed)
    ensures post.Some? ==> post.value == FromServerFormat(parsed.value, now)
  {
    if postHash == "" {
      return None, None;
    }
    sent := Some(GetRequest(GetShortKey(postHash)));
    var response := GetKeyOutcome(reply);
    if response.Failure? {
      return None, sent;
    }
    if Delivered(response.value) && parsed.Some? {
      post := Some(FromServerFormat(parsed.value, now));
    } else {
      post := None;
    }
  }

  /** `deletePost`: overwrites `PostKey(postHash)` with the empty string and
      reports whether `setKey` returned; it never throws. */
  method DeletePost(postHash: string, reply: HttpReply) returns (ok: bool, sent: Request)
    ensures sent == SetRequest(GetShortKey(PostKey(postHash)), Text(""))
    ensures ok <==> reply.Reply? && reply.ok && reply.json.Success? && reply.json.value.status != STATUS_TOO_LONG
  {
    sent := SetRequest(GetShortKey(PostKey(postHash)), Text(""));
    var result := SetKeyOutcome(reply);
    ok := result.Success?;
  }
}
