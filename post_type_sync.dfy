/**
 * Post synchronisation: how a post's selected fields are read and renamed
 * into a Firestore document, and which WordPress events write or delete
 * that document.
 */
module PostTypeSync {
  import opened Php
  import opened WordPress
  import opened Firestore

  // ---------------------------------------------------------------------
  // get_post_field_value
  // ---------------------------------------------------------------------

  /** `{term_id, name, slug}` for one attached term. */
  function TermSummary(t: Term): Value {
    Arr([(StrKey("term_id"), Int(t.termId)), (StrKey("name"), Str(t.name)), (StrKey("slug"), Str(t.slug))])
  }

  /** A taxonomy field: the attached terms as a list, `[]` on an error or when there are none. */
  function TermsValue(r: TermsResult): Value {
    match r
    case Terms(ts) => Arr(seq(|ts|, i requires 0 <= i < |ts| => (IntKey(i), TermSummary(ts[i]))))
    case _ => Arr([])
  }

  /** The `featured_image` field: `{id, url, width, height}` of the full-size image, or null. */
  function FeaturedImage(site: Site, postId: int): Value {
    var imageId := site.thumbnailId(postId);
    if imageId == 0 then Null
    else match site.imageSource(imageId)
      case None => Null
      case Some(img) =>
        Arr([(StrKey("id"), Int(imageId)), (StrKey("url"), Str(img.url)),
             (StrKey("width"), Int(img.width)), (StrKey("height"), Int(img.height))])
  }

  /** The taxonomy named by a `tax_` or `taxonomy_` field. */
  function FieldTaxonomy(field: string): string
    requires StartsWith(field, "tax_") || StartsWith(field, "taxonomy_")
  {
    if StartsWith(field, "tax_") then field[4..] else field[9..]
  }

  /** `get_post_field_value`: the value of one selected field of a post. */
  function FieldValue(site: Site, post: Post, field: string): Value {
    if field in post.properties then post.properties[field]
    else if StartsWith(field, "meta_") then site.postMeta(post.id, field[5..])
    else if StartsWith(field, "acf_") && site.acfAvailable then site.acfField(field[4..], post.id)
    else if StartsWith(field, "tax_") || StartsWith(field, "taxonomy_") then TermsValue(site.postTerms(post.id, FieldTaxonomy(field)))
    else if field == "featured_image" then FeaturedImage(site, post.id)
    else Null
  }

  /** The dispatch order of `get_post_field_value`, one source per field. */
  lemma FieldDispatch(site: Site, post: Post, field: string)
    ensures field in post.properties ==> FieldValue(site, post, field) == post.properties[field]
    ensures field !in post.properties && StartsWith(field, "meta_") ==>
      FieldValue(site, post, field) == site.postMeta(post.id, field[5..])
    ensures field !in post.properties && !StartsWith(field, "meta_") && StartsWith(field, "acf_") && site.acfAvailable ==>
      FieldValue(site, post, field) == site.acfField(field[4..], post.id)
    ensures field !in post.properties && !StartsWith(field, "meta_") && !(StartsWith(field, "acf_") && site.acfAvailable) ==>
      (StartsWith(field, "tax_") ==> FieldValue(site, post, field) == TermsValue(site.postTerms(post.id, field[4..]))) &&
      (StartsWith(field, "taxonomy_") ==> FieldValue(site, post, field) == TermsValue(site.postTerms(post.id, field[9..])))
    ensures field !in post.properties && field == "featured_image" ==> FieldValue(site, post, field) == FeaturedImage(site, post.id)
    ensures (field !in post.properties && !StartsWith(field, "meta_") && !StartsWith(field, "acf_") &&
             !StartsWith(field, "tax_") && !StartsWith(field, "taxonomy_") && field != "featured_image") ==>
      FieldValue(site, post, field) == Null
  {
    if StartsWith(field, "taxonomy_") {
      assert field[3] == 'o';
    }
    if field == "featured_image" {
      assert field[0] == 'f';
    }
  }

  /** A taxonomy field is always a list of `{term_id, name, slug}`, never null. */
  lemma TaxonomyFieldShape(r: TermsResult)
    ensures TermsValue(r).Arr?
    ensures r.TermsError? || r.NoTerms? || r == Terms([]) ==> TermsValue(r) == Arr([])
    ensures r.Terms? ==> |TermsValue(r).entries| == |r.terms|
    ensures r.Terms? ==> forall i :: 0 <= i < |r.terms| ==> TermsValue(r).entries[i] == (IntKey(i), TermSummary(r.terms[i]))
  {
  }

  /** `featured_image` is null without a thumbnail id or image source, and the image record otherwise. */
  lemma FeaturedImageShape(site: Site, postId: int)
    ensures FeaturedImage(site, postId) == Null <==>
      site.thumbnailId(postId) == 0 || site.imageSource(site.thumbnailId(postId)).None?
    ensures FeaturedImage(site, postId) != Null ==>
      Keys(FeaturedImage(site, postId).entries) == [StrKey("id"), StrKey("url"), StrKey("width"), StrKey("height")]
  {
  }

  // ---------------------------------------------------------------------
  // prepare_post_data
  // ---------------------------------------------------------------------

  /** The Firestore name of a field: its mapping when set, else the field name. */
  function Destination(mapping: map<string, string>, field: string): string {
    if field in mapping then mapping[field] else field
  }

  /**
   * The data `prepare_post_data` builds: for each field in turn,
   * `$post_data[$destination] = $value`.
   */
  function PostData(site: Site, post: Post, fields: seq<string>, mapping: map<string, string>): seq<(Key, Value)>
    decreases |fields|
  {
    if fields == [] then []
    else
      var n := |fields| - 1;
      Assign(PostData(site, post, fields[..n], mapping), StrKey(Destination(mapping, fields[n])), FieldValue(site, post, fields[n]))
  }

  /** The destination names, first occurrences only, in order. */
  function Dedup(s: seq<string>): (r: seq<string>)
    ensures forall x :: x in r <==> x in s
    decreases |s|
  {
    if s == [] then []
    else
      var n := |s| - 1;
      var d := Dedup(s[..n]);
      assert forall x :: x in s <==> x in s[..n] || x == s[n];
      if s[n] in d then d else d + [s[n]]
  }

  function Destinations(mapping: map<string, string>, fields: seq<string>): (ds: seq<string>)
    ensures |ds| == |fields| && forall i :: 0 <= i < |fields| ==> ds[i] == Destination(mapping, fields[i])
  {
    seq(|fields|, i requires 0 <= i < |fields| => Destination(mapping, fields[i]))
  }

  function StrKeys(s: seq<string>): (ks: seq<Key>)
    ensures |ks| == |s| && forall i :: 0 <= i < |s| ==> ks[i] == StrKey(s[i])
  {
    seq(|s|, i requires 0 <= i < |s| => StrKey(s[i]))
  }

  /**
   * The post data has one entry per distinct destination name, in the
   * order the names first occur, and no other keys.
   */
  lemma {:induction false} PostDataKeys(site: Site, post: Post, fields: seq<string>, mapping: map<string, string>)
    ensures Keys(PostData(site, post, fields, mapping)) == StrKeys(Dedup(Destinations(mapping, fields)))
    ensures DistinctKeys(PostData(site, post, fields, mapping))
    decreases |fields|
  {
    if fields != [] {
      var n := |fields| - 1;
      PostDataKeys(site, post, fields[..n], mapping);
      var ds := Destinations(mapping, fields);
      assert ds[..n] == Destinations(mapping, fields[..n]);
      KeysAfterAssign(PostData(site, post, fields[..n], mapping), Dedup(ds[..n]), ds[n], FieldValue(site, post, fields[n]));
    }
  }

  lemma KeysAfterAssign(a: seq<(Key, Value)>, d: seq<string>, x: string, v: Value)
    requires Keys(a) == StrKeys(d)
    ensures Keys(Assign(a, StrKey(x), v)) == StrKeys(if x in d then d else d + [x])
  {
    if x in d {
      var j :| 0 <= j < |d| && d[j] == x;
      assert a[j].0 == Keys(a)[j] == StrKey(x);
    } else {
      forall j | 0 <= j < |a| ensures a[j].0 != StrKey(x) {
        assert a[j].0 == StrKey(d[j]);
      }
      assert StrKeys(d + [x]) == StrKeys(d) + [StrKey(x)];
    }
  }

  /**
   * A field's value is stored under its destination name unless a later
   * field has the same destination: the last writer wins.
   */
  lemma {:induction false} PostDataLastWins(site: Site, post: Post, fields: seq<string>, mapping: map<string, string>, i: nat)
    requires i < |fields|
    requires forall j :: i < j < |fields| ==> Destination(mapping, fields[j]) != Destination(mapping, fields[i])
    ensures Lookup(PostData(site, post, fields, mapping), StrKey(Destination(mapping, fields[i]))) == Some(FieldValue(site, post, fields[i]))
    decreases |fields|
  {
    var n := |fields| - 1;
    var prev := fields[..n];
    var key := StrKey(Destination(mapping, fields[i]));
    var last := StrKey(Destination(mapping, fields[n]));
    var before := PostData(site, post, prev, mapping);
    assert PostData(site, post, fields, mapping) == Assign(before, last, FieldValue(site, post, fields[n]));
    AssignLookup(before, last, FieldValue(site, post, fields[n]), key);
    if i < n {
      assert prev[i] == fields[i];
      assert forall j :: i < j < |prev| ==> prev[j] == fields[j];
      PostDataLastWins(site, post, prev, mapping, i);
      assert key != last;
    }
  }

  /** One more field of the list: its value assigned under its destination. */
  lemma PostDataNext(site: Site, post: Post, fields: seq<string>, i: nat, mapping: map<string, string>)
    requires i < |fields|
    ensures PostData(site, post, fields[..i + 1], mapping) ==
      Assign(PostData(site, post, fields[..i], mapping), StrKey(Destination(mapping, fields[i])), FieldValue(site, post, fields[i]))
  {
    assert fields[..i + 1][..i] == fields[..i];
  }

  /** `prepare_post_data`. */
  method PreparePostData(site: Site, post: Post, fields: seq<string>, mapping: map<string, string>) returns (data: seq<(Key, Value)>)
    ensures data == PostData(site, post, fields, mapping)
  {
    data := [];
    var i := 0;
    while i < |fields|
      invariant 0 <= i <= |fields|
      invariant data == PostData(site, post, fields[..i], mapping)
    {
      var field := fields[i];
      var value := FieldValue(site, post, field);
      var firestoreField := if field in mapping then mapping[field] else field;
      PostDataNext(site, post, fields, i, mapping);
      data := Assign(data, StrKey(firestoreField), value);
      i := i + 1;
    }
    assert fields[..|fields|] == fields;
  }

  // ---------------------------------------------------------------------
  // What each operation writes
  // ---------------------------------------------------------------------

  function FieldsFor(settings: Settings, postType: string): seq<string> {
    if postType in settings.postTypeFields then settings.postTypeFields[postType] else []
  }

  function MappingFor(settings: Settings, postType: string): map<string, string> {
    if postType in settings.postTypeFieldMapping then settings.postTypeFieldMapping[postType] else map[]
  }

  /** The write `sync_single_post` makes, if any. */
  function SingleWrite(settings: Settings, site: Site, post: Post): Option<Write> {
    if post.postType !in settings.postTypesToSync then None
    else if FieldsFor(settings, post.postType) == [] then None
    else Some(Save(PostPath(post.postType, post.id),
                   PostData(site, post, FieldsFor(settings, post.postType), MappingFor(settings, post.postType))))
  }

  function SingleRequests(settings: Settings, site: Site, post: Post, e: Env): seq<Request> {
    match SingleWrite(settings, site, post)
    case None => []
    case Some(w) => WriteRequests(e, w)
  }

  /** What `sync_single_post` returns: true when it has nothing to write. */
  predicate SingleSynced(settings: Settings, site: Site, post: Post, e: Env) {
    match SingleWrite(settings, site, post)
    case None => true
    case Some(w) => WriteAccepted(e, w)
  }

  /** An unconfigured type or an empty field list means success without a request. */
  lemma SingleSyncNoWrite(settings: Settings, site: Site, post: Post, e: Env)
    requires post.postType !in settings.postTypesToSync || FieldsFor(settings, post.postType) == []
    ensures SingleSynced(settings, site, post, e) && SingleRequests(settings, site, post, e) == []
  {
  }

  /** Otherwise the result is that of saving the post's document. */
  lemma SingleSyncWrites(settings: Settings, site: Site, post: Post, e: Env)
    requires post.postType in settings.postTypesToSync && FieldsFor(settings, post.postType) != []
    ensures var w := Save(PostPath(post.postType, post.id), PostData(site, post, FieldsFor(settings, post.postType), MappingFor(settings, post.postType)));
      SingleSynced(settings, site, post, e) == WriteAccepted(e, w) &&
      SingleRequests(settings, site, post, e) == WriteRequests(e, w)
  {
  }

  /** The requests `sync_single_post` sends for the first `n` posts, in order. */
  function PostsRequests(settings: Settings, site: Site, posts: seq<Post>, n: nat, e: Env): seq<Request>
    requires n <= |posts|
    decreases n
  {
    if n == 0 then [] else PostsRequests(settings, site, posts, n - 1, e) + SingleRequests(settings, site, posts[n - 1], e)
  }

  /** The conjunction of the results of `sync_single_post` over the first `n` posts. */
  predicate AllSynced(settings: Settings, site: Site, posts: seq<Post>, n: nat, e: Env)
    requires n <= |posts|
    decreases n
  {
    n == 0 || (AllSynced(settings, site, posts, n - 1, e) && SingleSynced(settings, site, posts[n - 1], e))
  }

  /** The batch succeeds exactly when every post's sync succeeds. */
  lemma {:induction false} AllSyncedEvery(settings: Settings, site: Site, posts: seq<Post>, n: nat, e: Env)
    requires n <= |posts|
    ensures AllSynced(settings, site, posts, n, e) <==> forall i :: 0 <= i < n ==> SingleSynced(settings, site, posts[i], e)
    decreases n
  {
    if n > 0 {
      AllSyncedEvery(settings, site, posts, n - 1, e);
    }
  }

  /** The requests `sync_post_type` sends for each of the first `n` types, in order. */
  function TypesRequests(settings: Settings, site: Site, types: seq<string>, n: nat, e: Env): seq<Request>
    requires n <= |types|
    decreases n
  {
    if n == 0 then []
    else
      var posts := PublishedPosts(site.posts, types[n - 1]);
      TypesRequests(settings, site, types, n - 1, e) + PostsRequests(settings, site, posts, |posts|, e)
  }

  /** The conjunction of the results of `sync_post_type` over the first `n` types. */
  predicate AllTypesSynced(settings: Settings, site: Site, types: seq<string>, n: nat, e: Env)
    requires n <= |types|
    decreases n
  {
    n == 0 ||
    (AllTypesSynced(settings, site, types, n - 1, e) &&
     var posts := PublishedPosts(site.posts, types[n - 1]); AllSynced(settings, site, posts, |posts|, e))
  }

  /** Syncing all types succeeds exactly when every type's sync succeeds. */
  lemma {:induction false} AllTypesSyncedEvery(settings: Settings, site: Site, types: seq<string>, n: nat, e: Env)
    requires n <= |types|
    ensures AllTypesSynced(settings, site, types, n, e) <==>
      forall i :: 0 <= i < n ==> AllSynced(settings, site, PublishedPosts(site.posts, types[i]), |PublishedPosts(site.posts, types[i])|, e)
    decreases n
  {
    if n > 0 {
      AllTypesSyncedEvery(settings, site, types, n - 1, e);
    }
  }

  /** The `save_post` hook syncs only a saved, published post of a configured type. */
  predicate SaveTriggersSync(settings: Settings, site: Site, postId: int, post: Post) {
    !site.isRevision(postId) && !site.isAutosave(postId) &&
    post.postStatus == "publish" && post.postType in settings.postTypesToSync
  }

  /** The `before_delete_post` hook: the document to delete, if any. */
  function DeleteTarget(settings: Settings, site: Site, postId: int): Option<string> {
    match GetPost(site.posts, postId)
    case None => None
    case Some(p) => if p.postType in settings.postTypesToSync then Some(PostPath(p.postType, postId)) else None
  }

  datatype StatusAction = NoAction | SyncAction | DeleteAction

  /** What `post_status_changed` does for a transition. */
  function StatusChange(settings: Settings, newStatus: string, oldStatus: string, post: Post): StatusAction {
    if post.postType !in settings.postTypesToSync then NoAction
    else if newStatus == "publish" then SyncAction
    else if oldStatus == "publish" then DeleteAction
    else NoAction
  }

  /** Publishing syncs, unpublishing deletes, and nothing else does either. */
  lemma StatusChangeRules(settings: Settings, newStatus: string, oldStatus: string, post: Post)
    ensures StatusChange(settings, newStatus, oldStatus, post) == SyncAction <==>
      post.postType in settings.postTypesToSync && newStatus == "publish"
    ensures StatusChange(settings, newStatus, oldStatus, post) == DeleteAction <==>
      post.postType in settings.postTypesToSync && oldStatus == "publish" && newStatus != "publish"
  {
  }

  function StatusChangeRequests(settings: Settings, site: Site, newStatus: string, oldStatus: string, post: Post, e: Env): seq<Request> {
    match StatusChange(settings, newStatus, oldStatus, post)
    case NoAction => []
    case SyncAction => SingleRequests(settings, site, post, e)
    case DeleteAction => WriteRequests(e, Remove(PostPath(post.postType, post.id)))
  }

  /** A meta or thumbnail hook re-syncs a published, configured post that selects `field`. */
  function ResyncTarget(settings: Settings, site: Site, postId: int, field: string): Option<Post> {
    match GetPost(site.posts, postId)
    case None => None
    case Some(p) =>
      if p.postType in settings.postTypesToSync && p.postStatus == "publish" && field in FieldsFor(settings, p.postType)
      then Some(p) else None
  }

  function ResyncRequests(settings: Settings, site: Site, postId: int, field: string, e: Env): seq<Request> {
    match ResyncTarget(settings, site, postId, field)
    case None => []
    case Some(p) => SingleRequests(settings, site, p, e)
  }

  lemma AppendAssoc<T>(a: seq<T>, b: seq<T>, c: seq<T>)
    ensures (a + b) + c == a + (b + c)
  {
  }

  /** One more post: its requests follow the earlier ones, its result joins theirs. */
  lemma PostsStep(settings: Settings, site: Site, posts: seq<Post>, i: nat, e: Env, sent: seq<Request>)
    requires i < |posts|
    ensures sent + PostsRequests(settings, site, posts, i + 1, e) ==
      (sent + PostsRequests(settings, site, posts, i, e)) + SingleRequests(settings, site, posts[i], e)
    ensures AllSynced(settings, site, posts, i + 1, e) ==
      (AllSynced(settings, site, posts, i, e) && SingleSynced(settings, site, posts[i], e))
  {
    AppendAssoc(sent, PostsRequests(settings, site, posts, i, e), SingleRequests(settings, site, posts[i], e));
  }

  /** One more post type: its requests follow the earlier ones, its result joins theirs. */
  lemma TypesStep(settings: Settings, site: Site, types: seq<string>, i: nat, e: Env, sent: seq<Request>)
    requires i < |types|
    ensures var posts := PublishedPosts(site.posts, types[i]);
      sent + TypesRequests(settings, site, types, i + 1, e) ==
        (sent + TypesRequests(settings, site, types, i, e)) + PostsRequests(settings, site, posts, |posts|, e) &&
      AllTypesSynced(settings, site, types, i + 1, e) ==
        (AllTypesSynced(settings, site, types, i, e) && AllSynced(settings, site, posts, |posts|, e))
  {
    var posts := PublishedPosts(site.posts, types[i]);
    AppendAssoc(sent, TypesRequests(settings, site, types, i, e), PostsRequests(settings, site, posts, |posts|, e));
  }

  /** `SyncFire_Post_Type_Sync`. */
  class PostTypeSync {
    const firestore: Client

    /** `__construct`: a client on the option table `values`. */
    constructor (values: map<string, Value>, isJson: string -> bool, transients: Transients, network: Network)
      ensures firestore.config == ConfigOf(values, isJson) && firestore.transients == transients && firestore.network == network
    {
      firestore := new Client(values, isJson, transients, network);
    }

    /**
     * The object built by `__construct` when the option table it would
     * read is the one `client` was built from: `client` holds exactly the
     * configuration a second client would read, on the same transients
     * and network.
     */
    constructor OnClient(client: Client)
      ensures firestore == client
    {
      firestore := client;
    }

    /** `sync_single_post`. */
    method SyncSinglePost(settings: Settings, site: Site, post: Post, now: int) returns (ok: bool)
      modifies firestore.transients, firestore.network
      ensures ok == SingleSynced(settings, site, post, old(firestore.EnvAt(now)))
      ensures firestore.network.sent == old(firestore.network.sent) + SingleRequests(settings, site, post, old(firestore.EnvAt(now)))
      ensures firestore.EnvAt(now) == old(firestore.EnvAt(now))
    {
      var postType := post.postType;
      if postType !in settings.postTypesToSync {
        return true;
      }
      var fields := if postType in settings.postTypeFields then settings.postTypeFields[postType] else [];
      if fields == [] {
        return true;
      }
      var mapping := if postType in settings.postTypeFieldMapping then settings.postTypeFieldMapping[postType] else map[];
      var data := PreparePostData(site, post, fields, mapping);
      assert SingleWrite(settings, site, post) == Some(Save(PostPath(postType, post.id), data));
      ok := firestore.SavePost(postType, post.id, data, now);
    }

    /** `sync_post_type`: every published post of the type, all attempted. */
    method SyncPostType(settings: Settings, site: Site, postType: string, now: int) returns (ok: bool)
      modifies firestore.transients, firestore.network
      ensures var posts := PublishedPosts(site.posts, postType);
        ok == AllSynced(settings, site, posts, |posts|, old(firestore.EnvAt(now))) &&
        firestore.network.sent == old(firestore.network.sent) + PostsRequests(settings, site, posts, |posts|, old(firestore.EnvAt(now)))
      ensures firestore.EnvAt(now) == old(firestore.EnvAt(now))
    {
      var posts := PublishedPosts(site.posts, postType);
      if posts == [] {
        return true;
      }
      ok := SyncPosts(settings, site, posts, now);
    }

    /** The `foreach` of `sync_post_type`: `sync_single_post` on each post in turn, all attempted. */
    method SyncPosts(settings: Settings, site: Site, posts: seq<Post>, now: int) returns (ok: bool)
      modifies firestore.transients, firestore.network
      ensures ok == AllSynced(settings, site, posts, |posts|, old(firestore.EnvAt(now)))
      ensures firestore.network.sent == old(firestore.network.sent) + PostsRequests(settings, site, posts, |posts|, old(firestore.EnvAt(now)))
      ensures firestore.EnvAt(now) == old(firestore.EnvAt(now))
    {
      ghost var e := firestore.EnvAt(now);
      ghost var sent := firestore.network.sent;
      ok := true;
      var i := 0;
      while i < |posts|
        invariant 0 <= i <= |posts|
        invariant firestore.EnvAt(now) == e
        invariant firestore.network.sent == sent + PostsRequests(settings, site, posts, i, e)
        invariant ok == AllSynced(settings, site, posts, i, e)
      {
        PostsStep(settings, site, posts, i, e, sent);
        var result := SyncSinglePost(settings, site, posts[i], now);
        ok := ok && result;
        i := i + 1;
      }
    }

    /** `sync_all_post_types`: every configured type, all attempted. */
    method SyncAllPostTypes(settings: Settings, site: Site, now: int) returns (ok: bool)
      modifies firestore.transients, firestore.network
      ensures ok == AllTypesSynced(settings, site, settings.postTypesToSync, |settings.postTypesToSync|, old(firestore.EnvAt(now)))
      ensures firestore.network.sent == old(firestore.network.sent) + TypesRequests(settings, site, settings.postTypesToSync, |settings.postTypesToSync|, old(firestore.EnvAt(now)))
      ensures firestore.EnvAt(now) == old(firestore.EnvAt(now))
    {
      var types := settings.postTypesToSync;
      if types == [] {
        return true;
      }
      ghost var e := firestore.EnvAt(now);
      ghost var sent := firestore.network.sent;
      ok := true;
      var i := 0;
      while i < |types|
        invariant 0 <= i <= |types|
        invariant firestore.EnvAt(now) == e
        invariant firestore.network.sent == sent + TypesRequests(settings, site, types, i, e)
        invariant ok == AllTypesSynced(settings, site, types, i, e)
      {
        var result := SyncPostType(settings, site, types[i], now);
        TypesStep(settings, site, types, i, e, sent);
        ok := ok && result;
        i := i + 1;
      }
    }

    /** `sync_post`, the `save_post` hook. */
    method SyncPost(settings: Settings, site: Site, postId: int, post: Post, update: bool, now: int)
      modifies firestore.transients, firestore.network
      ensures firestore.network.sent == old(firestore.network.sent) +
        if SaveTriggersSync(settings, site, postId, post) then SingleRequests(settings, site, post, old(firestore.EnvAt(now))) else []
      ensures firestore.EnvAt(now) == old(firestore.EnvAt(now))
    {
      if site.isRevision(postId) || site.isAutosave(postId) {
        return;
      }
      if post.postStatus != "publish" {
        return;
      }
      if post.postType !in settings.postTypesToSync {
        return;
      }
      var _ := SyncSinglePost(settings, site, post, now);
    }

    /** `delete_post`, the `before_delete_post` hook. */
    method DeletePost(settings: Settings, site: Site, postId: int, now: int)
      modifies firestore.transients, firestore.network
      ensures firestore.network.sent == old(firestore.network.sent) +
        match DeleteTarget(settings, site, postId)
        case None => []
        case Some(path) => WriteRequests(old(firestore.EnvAt(now)), Remove(path))
      ensures firestore.EnvAt(now) == old(firestore.EnvAt(now))
    {
      var post := GetPost(site.posts, postId);
      if post.None? {
        return;
      }
      if post.value.postType !in settings.postTypesToSync {
        return;
      }
      var _ := firestore.DeletePost(post.value.postType, postId, now);
    }

    /** `post_status_changed`, the `transition_post_status` hook. */
    method PostStatusChanged(settings: Settings, site: Site, newStatus: string, oldStatus: string, post: Post, now: int)
      modifies firestore.transients, firestore.network
      ensures firestore.network.sent == old(firestore.network.sent) +
        StatusChangeRequests(settings, site, newStatus, oldStatus, post, old(firestore.EnvAt(now)))
      ensures firestore.EnvAt(now) == old(firestore.EnvAt(now))
    {
      if post.postType !in settings.postTypesToSync {
        return;
      }
      if newStatus == "publish" {
        var _ := SyncSinglePost(settings, site, post, now);
      }
      if oldStatus == "publish" && newStatus != "publish" {
        var _ := firestore.DeletePost(post.postType, post.id, now);
      }
    }

    /** `sync_post_meta`, the post-meta hooks; the meta id and value are not used. */
    method SyncPostMeta(settings: Settings, site: Site, postId: int, metaKey: string, now: int)
      modifies firestore.transients, firestore.network
      ensures firestore.network.sent == old(firestore.network.sent) +
        ResyncRequests(settings, site, postId, "meta_" + metaKey, old(firestore.EnvAt(now)))
      ensures firestore.EnvAt(now) == old(firestore.EnvAt(now))
    {
      var post := GetPost(site.posts, postId);
      if post.None? {
        return;
      }
      var p := post.value;
      if p.postType !in settings.postTypesToSync {
        return;
      }
      if p.postStatus != "publish" {
        return;
      }
      var fields := if p.postType in settings.postTypeFields then settings.postTypeFields[p.postType] else [];
      var metaField := "meta_" + metaKey;
      if metaField in fields {
        var _ := SyncSinglePost(settings, site, p, now);
      }
    }

    /** `sync_featured_image`, the thumbnail hooks; the attachment id is not used. */
    method SyncFeaturedImage(settings: Settings, site: Site, postId: int, now: int)
      modifies firestore.transients, firestore.network
      ensures firestore.network.sent == old(firestore.network.sent) +
        ResyncRequests(settings, site, postId, "featured_image", old(firestore.EnvAt(now)))
      ensures firestore.EnvAt(now) == old(firestore.EnvAt(now))
    {
      var post := GetPost(site.posts, postId);
      if post.None? {
        return;
      }
      var p := post.value;
      if p.postType !in settings.postTypesToSync {
        return;
      }
      if p.postStatus != "publish" {
        return;
      }
      var fields := if p.postType in settings.postTypeFields then settings.postTypeFields[p.postType] else [];
      if "featured_image" in fields {
        var _ := SyncSinglePost(settings, site, p, now);
      }
    }
  }
}
