/**
 * `SyncFire_Tester`: the five self-tests behind the plugin's test page
 * and their tally. `$wp_filter` is seen as the set of hook names that
 * have callbacks; the messages the tests write to the plugin log are not
 * part of this model.
 */
module Tester {
  import opened Php
  import opened WordPress
  import opened Options
  import opened Firestore
  import TaxonomySync
  import PostTypeSync
  import Functions

  /** The hooks real-time synchronisation needs, in the order they are checked. */
  const RequiredHooks := ["save_post", "before_delete_post", "transition_post_status",
                          "created_term", "edited_term", "delete_term"]

  /** The admin hooks the security test looks for. */
  const AdminHooks := ["admin_menu", "wp_ajax_syncfire_resync_all",
                       "wp_ajax_syncfire_resync_taxonomy", "wp_ajax_syncfire_test_firebase_connection"]

  // ---------------------------------------------------------------------
  // The tally of run_all_tests
  // ---------------------------------------------------------------------

  /** `count(array_filter($results))`. */
  function CountTrue(s: seq<bool>): (c: nat)
    ensures c <= |s|
    decreases |s|
  {
    if s == [] then 0 else (if s[0] then 1 else 0) + CountTrue(s[1..])
  }

  /** Every result counts exactly when all of them are true. */
  lemma {:induction false} CountTrueAll(s: seq<bool>)
    ensures CountTrue(s) == |s| <==> forall i :: 0 <= i < |s| ==> s[i]
    decreases |s|
  {
    if s != [] {
      CountTrueAll(s[1..]);
      assert forall i :: 1 <= i < |s| ==> s[i] == s[1..][i - 1];
    }
  }

  datatype TestResults = TestResults(
    firebaseConnection: bool,
    taxonomySync: bool,
    postTypeSync: bool,
    realTimeSync: bool,
    security: bool)

  /** `$results` in its declaration order. */
  function ResultList(r: TestResults): seq<bool> {
    [r.firebaseConnection, r.taxonomySync, r.postTypeSync, r.realTimeSync, r.security]
  }

  /** All five tests passed exactly when the tally reaches five. */
  lemma AllPassedIff(r: TestResults)
    ensures CountTrue(ResultList(r)) == 5 <==>
      r.firebaseConnection && r.taxonomySync && r.postTypeSync && r.realTimeSync && r.security
  {
    var s := ResultList(r);
    CountTrueAll(s);
    if CountTrue(s) == 5 {
      assert s[0] && s[1] && s[2] && s[3] && s[4];
    }
  }

  // ---------------------------------------------------------------------
  // The hook and security checks
  // ---------------------------------------------------------------------

  /** A problem `test_security` reports. */
  datatype Issue = ApiKeyNotSet | ServiceAccountNotSet | AdminHookMissing(hook: string)

  function HookIssues(missing: seq<string>): (r: seq<Issue>)
    ensures |r| == |missing|
  {
    seq(|missing|, i requires 0 <= i < |missing| => AdminHookMissing(missing[i]))
  }

  /** The issues of the stored credentials: the API key first, then the service account. */
  function CredentialIssues(values: map<string, Value>): seq<Issue> {
    (if !ToBool(GetOption(values, FirebaseApiKey, Str(""))) then [ApiKeyNotSet] else []) +
    (if !ToBool(GetOption(values, FirebaseServiceAccount, Str(""))) then [ServiceAccountNotSet] else [])
  }

  /** A list of names is all present exactly when none of it is missing. */
  lemma NoneMissing(names: seq<string>, hooks: set<string>)
    ensures Functions.NotIn(names, hooks, |names|) == [] <==> forall h :: h in names ==> h in hooks
  {
    Functions.NotInMembers(names, hooks, |names|);
    assert names[..|names|] == names;
    if forall h :: h in names ==> h in hooks {
      Functions.NotInEmpty(names, hooks);
    }
  }

  // ---------------------------------------------------------------------
  // The tester
  // ---------------------------------------------------------------------

  class Tester {
    const firestore: Client
    /** The option table the tester reads. */
    const options: map<string, Value>

    /** `__construct`: a client on the option table `options`. */
    constructor (options: map<string, Value>, isJson: string -> bool, transients: Transients, network: Network)
      ensures this.options == options
      ensures firestore.config == ConfigOf(options, isJson) && firestore.transients == transients && firestore.network == network
    {
      this.options := options;
      firestore := new Client(options, isJson, transients, network);
    }

    /** `test_firebase_connection`: the result of `test_connection`. */
    method TestFirebaseConnection(now: int) returns (ok: bool)
      modifies firestore.transients, firestore.network
      ensures var req := Request(GET, BaseUrl(firestore.config.projectId), old(firestore.EnvAt(now)).authorization, None);
        ok == (Configured(firestore.config) && Succeeded(firestore.network.remote(req))) &&
        firestore.network.sent == old(firestore.network.sent) + (if Configured(firestore.config) then [req] else [])
      ensures firestore.EnvAt(now) == old(firestore.EnvAt(now))
    {
      ok := firestore.TestConnection(now);
      TokenStable(firestore.config, old(firestore.transients.token), now);
    }

    /** A fresh `SyncFire_Taxonomy_Sync`, whose client reads what the tester's did, syncing one taxonomy. */
    method SyncOneTaxonomy(settings: Settings, site: Site, taxonomy: string, now: int) returns (ok: bool)
      modifies firestore.transients, firestore.network
      ensures ok == TaxonomySync.TaxonomySynced(settings, site, taxonomy, old(firestore.EnvAt(now)))
      ensures firestore.network.sent == old(firestore.network.sent) + TaxonomySync.TaxonomyRequests(settings, site, taxonomy, old(firestore.EnvAt(now)))
      ensures firestore.EnvAt(now) == old(firestore.EnvAt(now))
    {
      var sync := new TaxonomySync.TaxonomySync.OnClient(firestore);
      ok := sync.SyncTaxonomy(settings, site, taxonomy, now);
    }

    /** A fresh `SyncFire_Post_Type_Sync`, whose client reads what the tester's did, syncing one post type. */
    method SyncOnePostType(settings: Settings, site: Site, postType: string, now: int) returns (ok: bool)
      modifies firestore.transients, firestore.network
      ensures var posts := PublishedPosts(site.posts, postType);
        ok == PostTypeSync.AllSynced(settings, site, posts, |posts|, old(firestore.EnvAt(now))) &&
        firestore.network.sent == old(firestore.network.sent) + PostTypeSync.PostsRequests(settings, site, posts, |posts|, old(firestore.EnvAt(now)))
      ensures firestore.EnvAt(now) == old(firestore.EnvAt(now))
    {
      var sync := new PostTypeSync.PostTypeSync.OnClient(firestore);
      ok := sync.SyncPostType(settings, site, postType, now);
    }

    /**
     * `test_taxonomy_sync`: fails when no taxonomy is configured, and
     * otherwise syncs every configured taxonomy, passing only when all
     * of them synced.
     */
    method TestTaxonomySync(settings: Settings, site: Site, now: int) returns (ok: bool)
      modifies firestore.transients, firestore.network
      ensures ok == (settings.taxonomiesToSync != [] &&
        TaxonomySync.AllTaxonomiesSynced(settings, site, settings.taxonomiesToSync, |settings.taxonomiesToSync|, old(firestore.EnvAt(now))))
      ensures firestore.network.sent == old(firestore.network.sent) +
        TaxonomySync.TaxonomiesRequests(settings, site, settings.taxonomiesToSync, |settings.taxonomiesToSync|, old(firestore.EnvAt(now)))
      ensures firestore.EnvAt(now) == old(firestore.EnvAt(now))
    {
      var taxonomies := settings.taxonomiesToSync;
      if taxonomies == [] {
        return false;
      }
      ghost var e := firestore.EnvAt(now);
      ghost var sent := firestore.network.sent;
      ok := true;
      var i := 0;
      while i < |taxonomies|
        invariant 0 <= i <= |taxonomies|
        invariant firestore.EnvAt(now) == e
        invariant firestore.network.sent == sent + TaxonomySync.TaxonomiesRequests(settings, site, taxonomies, i, e)
        invariant ok == TaxonomySync.AllTaxonomiesSynced(settings, site, taxonomies, i, e)
      {
        var result := SyncOneTaxonomy(settings, site, taxonomies[i], now);
        TaxonomySync.TaxonomiesStep(settings, site, taxonomies, i, e, sent);
        ok := ok && result;
        i := i + 1;
      }
    }

    /**
     * `test_post_type_sync`: fails when no post type is configured, and
     * otherwise syncs every configured type, passing only when all of
     * them synced.
     */
    method TestPostTypeSync(settings: Settings, site: Site, now: int) returns (ok: bool)
      modifies firestore.transients, firestore.network
      ensures ok == (settings.postTypesToSync != [] &&
        PostTypeSync.AllTypesSynced(settings, site, settings.postTypesToSync, |settings.postTypesToSync|, old(firestore.EnvAt(now))))
      ensures firestore.network.sent == old(firestore.network.sent) +
        PostTypeSync.TypesRequests(settings, site, settings.postTypesToSync, |settings.postTypesToSync|, old(firestore.EnvAt(now)))
      ensures firestore.EnvAt(now) == old(firestore.EnvAt(now))
    {
      var types := settings.postTypesToSync;
      if types == [] {
        return false;
      }
      ghost var e := firestore.EnvAt(now);
      ghost var sent := firestore.network.sent;
      ok := true;
      var i := 0;
      while i < |types|
        invariant 0 <= i <= |types|
        invariant firestore.EnvAt(now) == e
        invariant firestore.network.sent == sent + PostTypeSync.TypesRequests(settings, site, types, i, e)
        invariant ok == PostTypeSync.AllTypesSynced(settings, site, types, i, e)
      {
        var result := SyncOnePostType(settings, site, types[i], now);
        PostTypeSync.TypesStep(settings, site, types, i, e, sent);
        ok := ok && result;
        i := i + 1;
      }
    }

    /**
     * `test_real_time_sync`: passes when every required hook is
     * registered; `missing` is the list of absent hooks it logs.
     */
    method TestRealTimeSync(hooks: set<string>) returns (ok: bool, missing: seq<string>)
      ensures missing == Functions.NotIn(RequiredHooks, hooks, |RequiredHooks|)
      ensures ok <==> missing == []
    {
      var required := RequiredHooks;
      missing := [];
      var i := 0;
      while i < |required|
        invariant 0 <= i <= |required|
        invariant missing == Functions.NotIn(required, hooks, i)
      {
        if required[i] !in hooks {
          missing := missing + [required[i]];
        }
        i := i + 1;
      }
      ok := missing == [];
    }

    /**
     * `test_security`: the credential issues, then one issue per missing
     * admin hook; it passes when there is none.
     */
    method TestSecurity(values: map<string, Value>, hooks: set<string>) returns (ok: bool, issues: seq<Issue>)
      ensures issues == CredentialIssues(values) + HookIssues(Functions.NotIn(AdminHooks, hooks, |AdminHooks|))
      ensures ok <==> issues == []
    {
      issues := [];
      var apiKey := GetOption(values, "syncfire_firebase_api_key", Str(""));
      if !ToBool(apiKey) {
        issues := issues + [ApiKeyNotSet];
      }
      var serviceAccount := GetOption(values, "syncfire_firebase_service_account", Str(""));
      if !ToBool(serviceAccount) {
        issues := issues + [ServiceAccountNotSet];
      }
      ghost var credentials := issues;
      var admin := AdminHooks;
      var i := 0;
      while i < |admin|
        invariant 0 <= i <= |admin|
        invariant credentials == CredentialIssues(values)
        invariant issues == credentials + HookIssues(Functions.NotIn(admin, hooks, i))
      {
        if admin[i] !in hooks {
          assert HookIssues(Functions.NotIn(admin, hooks, i + 1)) ==
            HookIssues(Functions.NotIn(admin, hooks, i)) + [AdminHookMissing(admin[i])];
          issues := issues + [AdminHookMissing(admin[i])];
        }
        i := i + 1;
      }
      ok := issues == [];
    }

    /**
     * `run_all_tests`: the five tests in order; all passed when the
     * tally of passing tests equals the number of tests.
     */
    method RunAllTests(settings: Settings, site: Site, hooks: set<string>, now: int)
      returns (results: TestResults, allPassed: bool)
      modifies firestore.transients, firestore.network
      ensures var e := old(firestore.EnvAt(now));
        var ts := settings.taxonomiesToSync;
        var ps := settings.postTypesToSync;
        var req := Request(GET, BaseUrl(firestore.config.projectId), e.authorization, None);
        results.firebaseConnection == (Configured(firestore.config) && Succeeded(firestore.network.remote(req))) &&
        results.taxonomySync == (ts != [] && TaxonomySync.AllTaxonomiesSynced(settings, site, ts, |ts|, e)) &&
        results.postTypeSync == (ps != [] && PostTypeSync.AllTypesSynced(settings, site, ps, |ps|, e)) &&
        firestore.network.sent == old(firestore.network.sent) + (if Configured(firestore.config) then [req] else []) +
          TaxonomySync.TaxonomiesRequests(settings, site, ts, |ts|, e) + PostTypeSync.TypesRequests(settings, site, ps, |ps|, e)
      ensures results.realTimeSync <==> forall h :: h in RequiredHooks ==> h in hooks
      ensures results.security <==> CredentialIssues(options) == [] && forall h :: h in AdminHooks ==> h in hooks
      ensures allPassed <==> CountTrue(ResultList(results)) == |ResultList(results)|
      ensures allPassed <==>
        results.firebaseConnection && results.taxonomySync && results.postTypeSync && results.realTimeSync && results.security
    {
      var connection := TestFirebaseConnection(now);
      var taxonomy := TestTaxonomySync(settings, site, now);
      var postType := TestPostTypeSync(settings, site, now);
      var realTime, missing := TestRealTimeSync(hooks);
      var security, issues := TestSecurity(options, hooks);
      NoneMissing(RequiredHooks, hooks);
      NoneMissing(AdminHooks, hooks);
      results := TestResults(connection, taxonomy, postType, realTime, security);
      var successCount := CountTrue(ResultList(results));
      allPassed := successCount == |ResultList(results)|;
      AllPassedIff(results);
    }
  }
}
