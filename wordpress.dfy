/**
 * The WordPress collaborators the plugin talks to, as inputs: the options
 * table, posts, terms and their metadata. Site lookups that WordPress
 * computes (`get_post_meta`, `get_the_terms`, ...) are given as functions.
 */
module WordPress {
  import opened Php

  /**
   * The options table (`wp_options`), name to stored value. An option that
   * is not in the map does not exist.
   */
  class OptionStore {
    var values: map<string, Value>

    constructor (values: map<string, Value>)
      ensures this.values == values
    {
      this.values := values;
    }

    /** `update_option($name, $value)`; see `UpdatedStore`. */
    method Update(name: string, value: Value) returns (changed: bool)
      modifies this
      ensures changed == UpdateChanges(old(values), name, value)
      ensures values == UpdatedStore(old(values), name, value)
    {
      changed := UpdateChanges(values, name, value);
      if changed {
        values := values[name := value];
      }
    }

    /** `delete_option($name)`. */
    method Delete(name: string)
      modifies this
      ensures values == old(values) - {name}
    {
      values := values - {name};
    }
  }

  /** `get_option($name, $default)`. */
  function GetOption(values: map<string, Value>, name: string, default: Value): (v: Value)
    ensures name in values ==> v == values[name]
    ensures name !in values ==> v == default
  {
    if name in values then values[name] else default
  }

  /**
   * `update_option` compares the new value with `get_option($name)`, which
   * reads `false` for a missing option, and reports failure without
   * writing when they are identical.
   */
  predicate UpdateChanges(values: map<string, Value>, name: string, value: Value) {
    value != GetOption(values, name, Bool(false))
  }

  function UpdatedStore(values: map<string, Value>, name: string, value: Value): (r: map<string, Value>)
    ensures UpdateChanges(values, name, value) ==> r == values[name := value]
    ensures !UpdateChanges(values, name, value) ==> r == values
    ensures GetOption(r, name, Bool(false)) == value
  {
    if UpdateChanges(values, name, value) then values[name := value] else values
  }

  /**
   * The sync options the synchronisation code reads, with the defaults the
   * code passes to `get_option` already applied.
   */
  datatype Settings = Settings(
    taxonomiesToSync: seq<string>,
    taxonomyOrderField: string,
    taxonomySortOrder: string,
    postTypesToSync: seq<string>,
    postTypeFields: map<string, seq<string>>,
    postTypeFieldMapping: map<string, map<string, string>>)

  /** A `WP_Term`. */
  datatype Term = Term(
    termId: int,
    name: string,
    slug: string,
    termGroup: int,
    termTaxonomyId: int,
    taxonomy: string,
    description: string,
    parent: int,
    count: int,
    filter: string)

  /** A `WP_Post`: `properties` holds every property the object declares. */
  datatype Post = Post(id: int, postType: string, postStatus: string, properties: map<string, Value>)

  /** What `get_the_terms` returns: a `WP_Error`, `false`, or the attached terms. */
  datatype TermsResult = TermsError | NoTerms | Terms(terms: seq<Term>)

  /** The `[url, width, height]` triple from `wp_get_attachment_image_src`. */
  datatype Image = Image(url: string, width: int, height: int)

  /** The site content and the WordPress functions the sync code calls. */
  datatype Site = Site(
    posts: seq<Post>,                              // get_post / get_posts
    isRevision: int -> bool,                       // wp_is_post_revision
    isAutosave: int -> bool,                       // wp_is_post_autosave
    postMeta: (int, string) -> Value,              // get_post_meta($id, $key, true)
    acfAvailable: bool,                            // function_exists('get_field')
    acfField: (string, int) -> Value,              // get_field($name, $id)
    postTerms: (int, string) -> TermsResult,       // get_the_terms($id, $taxonomy)
    thumbnailId: int -> int,                       // get_post_thumbnail_id, 0 for none
    imageSource: int -> Option<Image>,             // wp_get_attachment_image_src($id, 'full')
    taxonomyTerms: string -> Option<seq<Term>>,    // get_terms, None for a WP_Error
    termMeta: int -> seq<(string, seq<Value>)>)    // get_term_meta($term_id)

  /** `get_post($id)`: the post with that ID, if any. */
  function GetPost(posts: seq<Post>, id: int): (r: Option<Post>)
    ensures r.Some? ==> r.value in posts && r.value.id == id
    ensures r.None? ==> forall i :: 0 <= i < |posts| ==> posts[i].id != id
    decreases |posts|
  {
    if posts == [] then None
    else if posts[0].id == id then Some(posts[0])
    else GetPost(posts[1..], id)
  }

  /**
   * `get_posts(['post_type' => $t, 'post_status' => 'publish',
   * 'numberposts' => -1])`: the published posts of one type, in the order
   * the site lists them.
   */
  function PublishedPosts(posts: seq<Post>, postType: string): seq<Post>
    decreases |posts|
  {
    if posts == [] then []
    else
      var rest := PublishedPosts(posts[1..], postType);
      if posts[0].postType == postType && posts[0].postStatus == "publish" then [posts[0]] + rest else rest
  }

  /** Exactly the published posts of the type are returned. */
  lemma {:induction false} PublishedPostsMembers(posts: seq<Post>, postType: string)
    ensures forall p :: p in PublishedPosts(posts, postType) <==> p in posts && p.postType == postType && p.postStatus == "publish"
    decreases |posts|
  {
    if posts != [] {
      PublishedPostsMembers(posts[1..], postType);
      assert posts == [posts[0]] + posts[1..];
    }
  }
}
