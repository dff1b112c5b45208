/**
 * The Firestore client: the encoder from PHP values into Firestore REST
 * `Value` objects, the document paths, the configuration guard, the
 * "success iff HTTP 200" rule and the transient-backed access-token cache.
 */
module Firestore {
  import opened Php
  import WordPress
  import Options

  /** A Firestore REST `Value`, in the shapes the encoder produces. */
  datatype FsValue =
    | NullValue
    | BooleanValue(b: bool)
    | IntegerValue(i: int)
    | DoubleValue(d: Double)
    | StringValue(s: string)
    | ArrayValue(values: seq<FsValue>)
    | MapValue(fields: seq<(Key, FsValue)>)

  /** The `{fields: ...}` body of a document write. */
  datatype Document = Document(fields: seq<(Key, FsValue)>)

  // ---------------------------------------------------------------------
  // is_assoc
  // ---------------------------------------------------------------------

  /** PHP's `range($lo, $hi)` with step 1: counts down when `lo > hi`. */
  function PhpRange(lo: int, hi: int): seq<int>
    decreases if lo <= hi then hi - lo else lo - hi
  {
    if lo == hi then [lo]
    else if lo < hi then [lo] + PhpRange(lo + 1, hi)
    else [lo] + PhpRange(lo - 1, hi)
  }

  lemma {:induction false} RangeAscending(lo: int, hi: int)
    requires lo <= hi
    ensures |PhpRange(lo, hi)| == hi - lo + 1
    ensures forall i :: 0 <= i < |PhpRange(lo, hi)| ==> PhpRange(lo, hi)[i] == lo + i
    decreases hi - lo
  {
    if lo < hi {
      RangeAscending(lo + 1, hi);
    }
  }

  /** `range(0, -1)` is `[0, -1]`, not the empty list. */
  lemma EmptyRange()
    ensures PhpRange(0, -1) == [0, -1]
  {
  }

  function IntKeys(r: seq<int>): (ks: seq<Key>)
    ensures |ks| == |r| && forall i :: 0 <= i < |r| ==> ks[i] == IntKey(r[i])
  {
    seq(|r|, i requires 0 <= i < |r| => IntKey(r[i]))
  }

  /**
   * `is_assoc`: an array whose keys differ from `range(0, count - 1)`;
   * false for anything that is not an array.
   */
  predicate IsAssoc(v: Value) {
    v.Arr? && Keys(v.entries) != IntKeys(PhpRange(0, |v.entries| - 1))
  }

  /** A non-empty array whose keys are exactly 0, 1, ..., n-1 in order. */
  predicate IsList(es: seq<(Key, Value)>) {
    es != [] && forall i :: 0 <= i < |es| ==> es[i].0 == IntKey(i)
  }

  /** An array is associative exactly when it is not a non-empty list. */
  lemma {:induction false} IsAssocIffNotList(es: seq<(Key, Value)>)
    ensures IsAssoc(Arr(es)) <==> !IsList(es)
  {
    if es == [] {
      EmptyRange();
      assert |IntKeys(PhpRange(0, -1))| == 2;
    } else {
      RangeAscending(0, |es| - 1);
      var ks, rs := Keys(es), IntKeys(PhpRange(0, |es| - 1));
      if IsList(es) {
        assert ks == rs;
      } else {
        var i :| 0 <= i < |es| && es[i].0 != IntKey(i);
        assert ks[i] != rs[i];
      }
    }
  }

  // ---------------------------------------------------------------------
  // prepare_firestore_value / prepare_firestore_document
  // ---------------------------------------------------------------------

  /** `prepare_firestore_value`: the Firestore encoding of a PHP value. */
  function PrepareValue(v: Value): FsValue
    decreases v
  {
    match v
    case Null => NullValue
    case Bool(b) => BooleanValue(b)
    case Int(i) => IntegerValue(i)
    case Float(d) => DoubleValue(d)
    case Str(s) => StringValue(s)
    case Arr(es) =>
      if IsAssoc(v) then MapValue(seq(|es|, i requires 0 <= i < |es| => (es[i].0, PrepareValue(es[i].1))))
      else ArrayValue(seq(|es|, i requires 0 <= i < |es| => PrepareValue(es[i].1)))
  }

  /** Scalars keep their payload under the tag of their own PHP type. */
  lemma ScalarEncoding(v: Value)
    requires !v.Arr?
    ensures v.Null? <==> PrepareValue(v) == NullValue
    ensures v.Bool? <==> PrepareValue(v).BooleanValue?
    ensures v.Bool? ==> PrepareValue(v).b == v.b
    ensures v.Int? <==> PrepareValue(v).IntegerValue?
    ensures v.Int? ==> PrepareValue(v).i == v.i
    ensures v.Float? <==> PrepareValue(v).DoubleValue?
    ensures v.Str? <==> PrepareValue(v).StringValue?
    ensures v.Str? ==> PrepareValue(v).s == v.s
  {
  }

  /** A list encodes as `arrayValue.values`, element by element in order. */
  lemma ListEncoding(es: seq<(Key, Value)>)
    requires IsList(es)
    ensures PrepareValue(Arr(es)).ArrayValue?
    ensures |PrepareValue(Arr(es)).values| == |es|
    ensures forall i :: 0 <= i < |es| ==> PrepareValue(Arr(es)).values[i] == PrepareValue(es[i].1)
  {
    IsAssocIffNotList(es);
  }

  /**
   * Every other array, the empty one included, encodes as
   * `mapValue.fields` with the same keys in the same order.
   */
  lemma MapEncoding(es: seq<(Key, Value)>)
    requires !IsList(es)
    ensures PrepareValue(Arr(es)).MapValue?
    ensures Keys(PrepareValue(Arr(es)).fields) == Keys(es)
    ensures forall i :: 0 <= i < |es| ==> PrepareValue(Arr(es)).fields[i].1 == PrepareValue(es[i].1)
  {
    IsAssocIffNotList(es);
  }

  /** The empty array becomes an empty `mapValue`. */
  lemma EmptyArrayEncoding()
    ensures PrepareValue(Arr([])) == MapValue([])
  {
    IsAssocIffNotList([]);
  }

  /** No PHP value encodes as an empty `arrayValue`. */
  lemma NeverEmptyArrayValue(v: Value)
    ensures PrepareValue(v) != ArrayValue([])
  {
    if v.Arr? {
      IsAssocIffNotList(v.entries);
    }
  }

  /**
   * Reading an encoded value back into PHP: an `arrayValue` becomes a list
   * keyed 0, 1, ..., a `mapValue` an array with the field keys.
   */
  function Decode(f: FsValue): Value
    decreases f
  {
    match f
    case NullValue => Null
    case BooleanValue(b) => Bool(b)
    case IntegerValue(i) => Int(i)
    case DoubleValue(d) => Float(d)
    case StringValue(s) => Str(s)
    case ArrayValue(vs) => Arr(seq(|vs|, i requires 0 <= i < |vs| => (IntKey(i), Decode(vs[i]))))
    case MapValue(fs) => Arr(seq(|fs|, i requires 0 <= i < |fs| => (fs[i].0, Decode(fs[i].1))))
  }

  /** The encoding loses nothing: decoding gives back the original value. */
  lemma {:induction false} DecodePrepare(v: Value)
    ensures Decode(PrepareValue(v)) == v
    decreases v
  {
    match v
    case Arr(es) =>
      forall i | 0 <= i < |es| ensures Decode(PrepareValue(es[i].1)) == es[i].1 {
        DecodePrepare(es[i].1);
      }
      IsAssocIffNotList(es);
      var d := Decode(PrepareValue(v));
      assert d.entries == es;
    case _ =>
  }

  /** Different PHP values have different encodings. */
  lemma PrepareInjective(v: Value, w: Value)
    requires PrepareValue(v) == PrepareValue(w)
    ensures v == w
  {
    DecodePrepare(v);
    DecodePrepare(w);
  }

  /** `prepare_firestore_document`: `{fields: {key => encoded value}}`. */
  function PrepareDocument(data: seq<(Key, Value)>): Document {
    Document(seq(|data|, i requires 0 <= i < |data| => (data[i].0, PrepareValue(data[i].1))))
  }

  /** The document has the data's keys, in order, each with its value encoded. */
  lemma PrepareDocumentFields(data: seq<(Key, Value)>)
    ensures Keys(PrepareDocument(data).fields) == Keys(data)
    ensures forall i :: 0 <= i < |data| ==> PrepareDocument(data).fields[i].1 == PrepareValue(data[i].1)
  {
  }

  /** Decoding the document's fields gives back the data it was built from. */
  lemma DocumentRoundTrip(data: seq<(Key, Value)>)
    ensures |PrepareDocument(data).fields| == |data|
    ensures forall i :: 0 <= i < |data| ==>
      PrepareDocument(data).fields[i].0 == data[i].0 && Decode(PrepareDocument(data).fields[i].1) == data[i].1
  {
    forall i | 0 <= i < |data| ensures Decode(PrepareValue(data[i].1)) == data[i].1 {
      DecodePrepare(data[i].1);
    }
  }

  // ---------------------------------------------------------------------
  // Paths and URLs
  // ---------------------------------------------------------------------

  /** The collection root: production host and the `(default)` database. */
  function BaseUrl(projectId: string): string {
    "https://firestore.googleapis.com/v1/projects/" + projectId + "/databases/(default)/documents"
  }

  function DocumentUrl(projectId: string, path: string): string {
    BaseUrl(projectId) + "/" + path
  }

  function TaxonomyPath(taxonomy: string): string {
    "taxonomies/" + taxonomy
  }

  function PostPath(postType: string, id: int): string {
    "post_types/" + postType + "/posts/" + IntToString(id)
  }

  /** Different taxonomies are written to different documents. */
  lemma TaxonomyPathInjective(t1: string, t2: string)
    requires TaxonomyPath(t1) == TaxonomyPath(t2)
    ensures t1 == t2
  {
    assert t1 == TaxonomyPath(t1)[11..];
  }

  /** Different posts are written to different documents. */
  lemma PostPathInjective(type1: string, id1: int, type2: string, id2: int)
    requires PostPath(type1, id1) == PostPath(type2, id2)
    ensures type1 == type2 && id1 == id2
  {
    var d1, d2 := IntToString(id1), IntToString(id2);
    NoSlashInInt(id1);
    NoSlashInInt(id2);
    var p1, p2 := "post_types/" + type1 + "/posts", "post_types/" + type2 + "/posts";
    assert PostPath(type1, id1) == p1 + "/" + d1;
    assert PostPath(type2, id2) == p2 + "/" + d2;
    SplitAtLastSlash(p1, d1, p2, d2);
    IntToStringInjective(id1, id2);
    assert type1 == p1[11..|p1| - 6];
  }

  lemma NoSlashInInt(i: int)
    ensures '/' !in IntToString(i)
  {
    var s := IntToString(i);
    NatToStringDigits(if i < 0 then -i else i);
    if i < 0 {
      assert s == "-" + NatToString(-i);
      assert forall k :: 1 <= k < |s| ==> s[k] == NatToString(-i)[k - 1];
    }
  }

  /** `a/b == c/d` with no `/` in `b` or `d` splits the same way. */
  lemma SplitAtLastSlash(a: string, b: string, c: string, d: string)
    requires a + "/" + b == c + "/" + d
    requires '/' !in b && '/' !in d
    ensures a == c && b == d
  {
    var s := a + "/" + b;
    var n := |s|;
    assert s[n - |b| - 1] == '/' && s[n - |d| - 1] == '/';
    assert b == s[n - |b|..] == d;
    assert a == s[..|a|] == c;
  }

  lemma {:induction false} NatToStringInjective(m: nat, n: nat)
    requires NatToString(m) == NatToString(n)
    ensures m == n
    decreases m
  {
    var s := NatToString(m);
    assert m >= 10 ==> |NatToString(m)| == |NatToString(m / 10)| + 1 >= 2;
    assert n >= 10 ==> |NatToString(n)| == |NatToString(n / 10)| + 1 >= 2;
    if m < 10 && n < 10 {
      DigitInjective(m, n);
    } else if m >= 10 && n >= 10 {
      assert NatToString(m / 10) == s[..|s| - 1] == NatToString(n / 10);
      DigitInjective(m % 10, n % 10);
      NatToStringInjective(m / 10, n / 10);
    }
  }

  lemma DigitInjective(d1: nat, d2: nat)
    requires d1 < 10 && d2 < 10 && Digit(d1) == Digit(d2)
    ensures d1 == d2
  {
  }

  /**
   * For every value but a float or an array, the converted string is
   * `empty()` exactly when the value itself is.
   */
  lemma StringCastEmpty(v: Value)
    requires !v.Float? && !v.Arr?
    ensures EmptyString(StringCast(v)) <==> !ToBool(v)
  {
    if v.Int? {
      assert IntToString(0) == "0";
      if EmptyString(IntToString(v.i)) {
        assert IntToString(v.i) == IntToString(0);
        IntToStringInjective(v.i, 0);
      }
    }
  }

  /**
   * The request guard on the configuration read from the options is the
   * `empty()` test of the two raw option values, unless one is a float
   * or an array.
   */
  lemma ConfiguredFromOptions(values: map<string, Value>, isJson: string -> bool)
    requires var k := WordPress.GetOption(values, Options.FirebaseApiKey, Str("")); !k.Float? && !k.Arr?
    requires var p := WordPress.GetOption(values, Options.FirebaseProjectId, Str("")); !p.Float? && !p.Arr?
    ensures Configured(ConfigOf(values, isJson)) <==>
      ToBool(WordPress.GetOption(values, Options.FirebaseApiKey, Str(""))) &&
      ToBool(WordPress.GetOption(values, Options.FirebaseProjectId, Str("")))
  {
    StringCastEmpty(WordPress.GetOption(values, Options.FirebaseApiKey, Str("")));
    StringCastEmpty(WordPress.GetOption(values, Options.FirebaseProjectId, Str("")));
  }

  lemma IntToStringInjective(i: int, j: int)
    requires IntToString(i) == IntToString(j)
    ensures i == j
  {
    var a, b := if i < 0 then -i else i, if j < 0 then -j else j;
    var pi, pj := if i < 0 then "-" else "", if j < 0 then "-" else "";
    NatToStringDigits(a);
    NatToStringDigits(b);
    var s := IntToString(i);
    assert s == pi + NatToString(a) && s == pj + NatToString(b);
    assert s[0] == (if i < 0 then '-' else NatToString(a)[0]);
    assert s[0] == (if j < 0 then '-' else NatToString(b)[0]);
    assert (i < 0) == (j < 0);
    assert NatToString(a) == s[|pi|..] == NatToString(b);
    NatToStringInjective(a, b);
  }

  // ---------------------------------------------------------------------
  // Requests and responses
  // ---------------------------------------------------------------------

  datatype Verb = GET | PATCH | DELETE

  /** An HTTP request: method, URL, `Authorization` header and JSON body. */
  datatype Request = Request(verb: Verb, url: string, authorization: string, body: Option<Document>)

  /** What `wp_remote_*` returns: a `WP_Error`, or a response with its status code. */
  datatype Response = TransportError | Http(code: int)

  /** A request succeeded iff it was answered with status code exactly 200. */
  predicate Succeeded(r: Response) {
    r.Http? && r.code == 200
  }

  // ---------------------------------------------------------------------
  // Configuration and the access token
  // ---------------------------------------------------------------------

  /**
   * What the constructor reads from the options store. Whether the
   * service-account text parses as JSON is given with it.
   */
  datatype Config = Config(
    apiKey: string,
    authDomain: string,
    projectId: string,
    storageBucket: string,
    messagingSenderId: string,
    appId: string,
    serviceAccount: string,
    serviceAccountIsJson: bool)

  /** The guard of every request: neither the API key nor the project ID is `empty()`. */
  predicate Configured(c: Config) {
    !EmptyString(c.apiKey) && !EmptyString(c.projectId)
  }

  /**
   * What the constructor reads: seven `get_option` calls with default `''`,
   * each kept as the string PHP makes of it. `isJson` is whether
   * `json_decode` accepts a text; it is asked of the service account.
   */
  function ConfigOf(values: map<string, Value>, isJson: string -> bool): Config {
    var serviceAccount := OptionText(values, Options.FirebaseServiceAccount);
    Config(
      OptionText(values, Options.FirebaseApiKey),
      OptionText(values, Options.FirebaseAuthDomain),
      OptionText(values, Options.FirebaseProjectId),
      OptionText(values, Options.FirebaseStorageBucket),
      OptionText(values, Options.FirebaseMessagingSenderId),
      OptionText(values, Options.FirebaseAppId),
      serviceAccount,
      isJson(serviceAccount))
  }

  /** `get_option($name, '')` as a string. */
  function OptionText(values: map<string, Value>, name: string): string {
    StringCast(WordPress.GetOption(values, name, Str("")))
  }

  /** The seven options the client reads. */
  predicate ClientOption(name: string) {
    name == Options.FirebaseApiKey || name == Options.FirebaseAuthDomain || name == Options.FirebaseProjectId ||
    name == Options.FirebaseStorageBucket || name == Options.FirebaseMessagingSenderId ||
    name == Options.FirebaseAppId || name == Options.FirebaseServiceAccount
  }

  /** Writing or deleting any other option leaves the client's configuration as it was. */
  lemma ConfigOfFrame(values: map<string, Value>, isJson: string -> bool, name: string, v: Value)
    requires !ClientOption(name)
    ensures ConfigOf(values[name := v], isJson) == ConfigOf(values, isJson)
    ensures ConfigOf(values - {name}, isJson) == ConfigOf(values, isJson)
  {
  }

  /** A stored string option is read as that string; a missing one as `''`. */
  lemma ConfigOfReads(values: map<string, Value>, isJson: string -> bool, s: string)
    ensures values == map[] ==> ConfigOf(values, isJson) == Config("", "", "", "", "", "", "", isJson(""))
    ensures Options.FirebaseProjectId in values && values[Options.FirebaseProjectId] == Str(s) ==> ConfigOf(values, isJson).projectId == s
    ensures Options.FirebaseApiKey in values && values[Options.FirebaseApiKey] == Str(s) ==> ConfigOf(values, isJson).apiKey == s
    ensures Options.FirebaseServiceAccount in values && values[Options.FirebaseServiceAccount] == Str(s) ==>
      ConfigOf(values, isJson).serviceAccount == s && ConfigOf(values, isJson).serviceAccountIsJson == isJson(s)
  {
  }

  datatype TokenData = TokenData(accessToken: string, expiresIn: int)

  /** The `syncfire_firebase_token` transient: its value and the instant it expires. */
  datatype CachedToken = CachedToken(data: TokenData, expiresAt: int)

  /** The token `get_access_token` makes up when the cache is empty. */
  const PlaceholderToken: TokenData := TokenData("placeholder_token", 3600)

  /** `get_transient`: the cached value until its expiry instant has passed. */
  function CacheRead(cache: Option<CachedToken>, now: int): (r: Option<TokenData>)
    ensures r.Some? <==> cache.Some? && now <= cache.value.expiresAt
    ensures r.Some? ==> r.value == cache.value.data
  {
    if cache.Some? && now <= cache.value.expiresAt then Some(cache.value.data) else None
  }

  /** Whether `get_access_token` gives up before looking at the cache. */
  predicate NoServiceAccount(c: Config) {
    EmptyString(c.serviceAccount) || !c.serviceAccountIsJson
  }

  /** What `get_access_token` returns at `now`; `None` stands for `false`. */
  function TokenFor(c: Config, cache: Option<CachedToken>, now: int): Option<string> {
    if NoServiceAccount(c) then None
    else match CacheRead(cache, now)
      case Some(d) => Some(d.accessToken)
      case None => Some(PlaceholderToken.accessToken)
  }

  /** The transient after `get_access_token` at `now`. */
  function CacheAfter(c: Config, cache: Option<CachedToken>, now: int): Option<CachedToken> {
    if NoServiceAccount(c) || CacheRead(cache, now).Some? then cache
    else Some(CachedToken(PlaceholderToken, now + PlaceholderToken.expiresIn - 300))
  }

  /** `'Bearer ' . $token`; `false` concatenates as the empty string. */
  function AuthHeader(token: Option<string>): string {
    "Bearer " + (if token.Some? then token.value else "")
  }

  /**
   * The token cache: a fresh token is cached for 3300 seconds and is handed
   * out unchanged for that whole time; a call at the same instant always
   * sees the token the previous call returned.
   */
  lemma TokenCaching(c: Config, cache: Option<CachedToken>, now: int, later: int)
    requires !NoServiceAccount(c) && CacheRead(cache, now).None?
    ensures CacheAfter(c, cache, now) == Some(CachedToken(TokenData("placeholder_token", 3600), now + 3300))
    ensures now <= later <= now + 3300 ==> CacheRead(CacheAfter(c, cache, now), later) == Some(PlaceholderToken)
    ensures later > now + 3300 ==> CacheRead(CacheAfter(c, cache, now), later).None?
    ensures TokenFor(c, cache, now) == Some("placeholder_token")
  {
  }

  /** A cached token that has not expired is returned as it is, and the cache is left alone. */
  lemma TokenCacheHit(c: Config, cache: Option<CachedToken>, now: int)
    requires !NoServiceAccount(c) && CacheRead(cache, now).Some?
    ensures TokenFor(c, cache, now) == Some(cache.value.data.accessToken)
    ensures CacheAfter(c, cache, now) == cache
  {
  }

  /** Without a usable service account there is no token and the cache is not touched. */
  lemma TokenWithoutServiceAccount(c: Config, cache: Option<CachedToken>, now: int)
    requires NoServiceAccount(c)
    ensures TokenFor(c, cache, now).None? && CacheAfter(c, cache, now) == cache
  {
  }

  /** Calling `get_access_token` again at the same instant returns the same token. */
  lemma TokenStable(c: Config, cache: Option<CachedToken>, now: int)
    ensures TokenFor(c, CacheAfter(c, cache, now), now) == TokenFor(c, cache, now)
  {
  }

  // ---------------------------------------------------------------------
  // Writes as seen by callers
  // ---------------------------------------------------------------------

  /**
   * Everything a write depends on for one call: the configuration, the
   * remote service (a fixed function from request to response) and the
   * `Authorization` header in force.
   */
  datatype Env = Env(config: Config, remote: Request -> Response, authorization: string)

  /** A document write: a PATCH of data or a DELETE, at a document path. */
  datatype Write = Save(path: string, data: seq<(Key, Value)>) | Remove(path: string)

  function WriteRequest(e: Env, w: Write): Request {
    match w
    case Save(p, data) => Request(PATCH, DocumentUrl(e.config.projectId, p), e.authorization, Some(PrepareDocument(data)))
    case Remove(p) => Request(DELETE, DocumentUrl(e.config.projectId, p), e.authorization, None)
  }

  /** The requests a guarded write sends: none when the client is not configured. */
  function WriteRequests(e: Env, w: Write): (rs: seq<Request>)
    ensures |rs| <= 1
    ensures rs == [] <==> !Configured(e.config)
  {
    if Configured(e.config) then [WriteRequest(e, w)] else []
  }

  /** What a guarded write returns. */
  predicate WriteAccepted(e: Env, w: Write) {
    Configured(e.config) && Succeeded(e.remote(WriteRequest(e, w)))
  }

  /** The save and the delete of one post address the same document. */
  lemma SaveAndDeleteSameUrl(e: Env, postType: string, id: int, data: seq<(Key, Value)>)
    ensures WriteRequest(e, Save(PostPath(postType, id), data)).url == WriteRequest(e, Remove(PostPath(postType, id))).url
  {
  }

  /** The transient store (shared by every client in one request). */
  class Transients {
    var token: Option<CachedToken>

    constructor (token: Option<CachedToken>)
      ensures this.token == token
    {
      this.token := token;
    }
  }

  /** The network: the remote service and every request sent so far. */
  class Network {
    const remote: Request -> Response
    var sent: seq<Request>

    constructor (remote: Request -> Response)
      ensures this.remote == remote && sent == []
    {
      this.remote := remote;
      sent := [];
    }
  }

  /** `SyncFire_Firestore`. */
  class Client {
    const config: Config
    const transients: Transients
    const network: Network

    /** `__construct`: the configuration is read from the option table `values`. */
    constructor (values: map<string, Value>, isJson: string -> bool, transients: Transients, network: Network)
      ensures config == ConfigOf(values, isJson) && this.transients == transients && this.network == network
    {
      config := ConfigOf(values, isJson);
      this.transients := transients;
      this.network := network;
    }

    /** The environment writes see at `now`. */
    function EnvAt(now: int): Env
      reads transients
    {
      Env(config, network.remote, AuthHeader(TokenFor(config, transients.token, now)))
    }

    /** `get_access_token`. */
    method GetAccessToken(now: int) returns (token: Option<string>)
      modifies transients
      ensures token == TokenFor(config, old(transients.token), now)
      ensures transients.token == CacheAfter(config, old(transients.token), now)
    {
      if EmptyString(config.serviceAccount) {
        return None;
      }
      if !config.serviceAccountIsJson {
        return None;
      }
      var cached := CacheRead(transients.token, now);
      if cached.Some? {
        return Some(cached.value.accessToken);
      }
      var data := PlaceholderToken;
      transients.token := Some(CachedToken(data, now + data.expiresIn - 300));
      return Some(data.accessToken);
    }

    /** `test_connection`: a GET of the collection root. */
    method TestConnection(now: int) returns (ok: bool)
      modifies transients, network
      ensures var req := Request(GET, BaseUrl(config.projectId), old(EnvAt(now)).authorization, None);
        ok == (Configured(config) && Succeeded(network.remote(req))) &&
        network.sent == old(network.sent) + (if Configured(config) then [req] else [])
      ensures transients.token == if Configured(config) then CacheAfter(config, old(transients.token), now) else old(transients.token)
    {
      if EmptyString(config.apiKey) || EmptyString(config.projectId) {
        return false;
      }
      var url := BaseUrl(config.projectId);
      var token := GetAccessToken(now);
      var req := Request(GET, url, AuthHeader(token), None);
      network.sent := network.sent + [req];
      var response := network.remote(req);
      if response.TransportError? {
        return false;
      }
      ok := response.code == 200;
    }

    /** `save_document`: PATCH the encoded data at `path`. */
    method SaveDocument(path: string, data: seq<(Key, Value)>, now: int) returns (ok: bool)
      modifies transients, network
      ensures network.sent == old(network.sent) + [WriteRequest(old(EnvAt(now)), Save(path, data))]
      ensures ok == Succeeded(network.remote(WriteRequest(old(EnvAt(now)), Save(path, data))))
      ensures transients.token == CacheAfter(config, old(transients.token), now)
    {
      var document := PrepareDocument(data);
      var url := DocumentUrl(config.projectId, path);
      var token := GetAccessToken(now);
      var req := Request(PATCH, url, AuthHeader(token), Some(document));
      network.sent := network.sent + [req];
      var response := network.remote(req);
      if response.TransportError? {
        return false;
      }
      ok := response.code == 200;
    }

    /** `delete_document`: DELETE the document at `path`. */
    method DeleteDocument(path: string, now: int) returns (ok: bool)
      modifies transients, network
      ensures network.sent == old(network.sent) + [WriteRequest(old(EnvAt(now)), Remove(path))]
      ensures ok == Succeeded(network.remote(WriteRequest(old(EnvAt(now)), Remove(path))))
      ensures transients.token == CacheAfter(config, old(transients.token), now)
    {
      var url := DocumentUrl(config.projectId, path);
      var token := GetAccessToken(now);
      var req := Request(DELETE, url, AuthHeader(token), None);
      network.sent := network.sent + [req];
      var response := network.remote(req);
      if response.TransportError? {
        return false;
      }
      ok := response.code == 200;
    }

    /** The shared shape of the three guarded writes. */
    method GuardedWrite(w: Write, now: int) returns (ok: bool)
      modifies transients, network
      ensures ok == WriteAccepted(old(EnvAt(now)), w)
      ensures network.sent == old(network.sent) + WriteRequests(old(EnvAt(now)), w)
      ensures transients.token == if Configured(config) then CacheAfter(config, old(transients.token), now) else old(transients.token)
      ensures EnvAt(now) == old(EnvAt(now))
    {
      if EmptyString(config.apiKey) || EmptyString(config.projectId) {
        return false;
      }
      match w
      case Save(path, data) => ok := SaveDocument(path, data, now);
      case Remove(path) => ok := DeleteDocument(path, now);
    }

    /** `save_taxonomy`. */
    method SaveTaxonomy(taxonomy: string, data: seq<(Key, Value)>, now: int) returns (ok: bool)
      modifies transients, network
      ensures ok == WriteAccepted(old(EnvAt(now)), Save(TaxonomyPath(taxonomy), data))
      ensures network.sent == old(network.sent) + WriteRequests(old(EnvAt(now)), Save(TaxonomyPath(taxonomy), data))
      ensures transients.token == if Configured(config) then CacheAfter(config, old(transients.token), now) else old(transients.token)
      ensures EnvAt(now) == old(EnvAt(now))
    {
      ok := GuardedWrite(Save(TaxonomyPath(taxonomy), data), now);
    }

    /** `save_post`. */
    method SavePost(postType: string, id: int, data: seq<(Key, Value)>, now: int) returns (ok: bool)
      modifies transients, network
      ensures ok == WriteAccepted(old(EnvAt(now)), Save(PostPath(postType, id), data))
      ensures network.sent == old(network.sent) + WriteRequests(old(EnvAt(now)), Save(PostPath(postType, id), data))
      ensures transients.token == if Configured(config) then CacheAfter(config, old(transients.token), now) else old(transients.token)
      ensures EnvAt(now) == old(EnvAt(now))
    {
      ok := GuardedWrite(Save(PostPath(postType, id), data), now);
    }

    /** `delete_post`. */
    method DeletePost(postType: string, id: int, now: int) returns (ok: bool)
      modifies transients, network
      ensures ok == WriteAccepted(old(EnvAt(now)), Remove(PostPath(postType, id)))
      ensures network.sent == old(network.sent) + WriteRequests(old(EnvAt(now)), Remove(PostPath(postType, id)))
      ensures transients.token == if Configured(config) then CacheAfter(config, old(transients.token), now) else old(transients.token)
      ensures EnvAt(now) == old(EnvAt(now))
    {
      ok := GuardedWrite(Remove(PostPath(postType, id)), now);
    }
  }
}
