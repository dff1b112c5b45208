# SyncFire for WordPress, modelled in Dafny

SyncFire is a WordPress plugin that mirrors WordPress content into Google
Cloud Firestore. What it mirrors:

- each synchronised taxonomy, as one document holding its sorted terms;
- each published post of a synchronised post type, as one document holding
  the post's selected and renamed fields.

It keeps those documents current from WordPress hooks: saving, deleting or
unpublishing a post, changing its meta or featured image, and saving or
deleting a term. Its other parts:

- a WP-CLI command that configures the plugin;
- a logger with admin notices;
- a migration of renamed options;
- option helpers and sanitisers;
- two self-test suites.

This project models that core and proves properties of the model.

| module (file) | models |
|---|---|
| `Php` (php.dfy) | PHP values, ordered arrays, `$a[$k] = $v`, `(bool)`, `explode`/`implode`, `strcmp`, integer-to-string |
| `Sorting` (sorting.dfy) | `usort` as an insertion sort over a total preorder |
| `WordPress` (wordpress.dfy) | the WordPress API the plugin calls: the option table (`get_option`, `update_option`, `delete_option`), posts, terms, images |
| `Options` (options.dfy) | `includes/class-syncfire-options.php` |
| `Firestore` (firestore.dfy) | `includes/class-syncfire-firestore.php` |
| `TaxonomySync` (taxonomy_sync.dfy) | `includes/class-syncfire-taxonomy-sync.php` |
| `PostTypeSync` (post_type_sync.dfy) | `includes/class-syncfire-post-type-sync.php` |
| `Logger` (logger.dfy) | `includes/class-syncfire-logger.php` |
| `Migration` (migration.dfy) | `includes/class-syncfire-migration.php` |
| `Functions` (functions.dfy) | `includes/syncfire-functions.php` |
| `Plugin` (plugin.dfy) | the `SyncFire` class of `sync-fire.php` |
| `SettingsTest` (settings_test.dfy) | `includes/class-syncfire-settings-test.php` |
| `Tester` (tester.dfy) | `includes/class-syncfire-tester.php` |
| `CliCommand` (cli_command.dfy) | `cli/class-syncfire-command.php` |

How the model is built:

- **Objects whose state the plugin changes are classes.** These are:
  - the option table (`WordPress.OptionStore`);
  - the token transient and the network (`Firestore.Transients`, `Firestore.Network`);
  - the Firestore client and the sync classes;
  - the logger, the migration tables and the CLI command.

  Their methods have `modifies` clauses. Each method is proved against a
  function of the old state, and the properties the plugin promises are
  proved about those functions.
- **The network is a function from request to response.** Whatever the
  server would answer is a parameter, and `sent` records every request in
  order.
- **Time is an input.** The current time `now` is fixed for the length of
  one operation.
- **WordPress queries are inputs.** The posts, terms, meta, ACF fields and
  images the plugin asks WordPress for are fields of `WordPress.Site`.

## Model

| member | source | states |
|---|---|---|
| Options.AllOptionsDistinct | sync-fire-wp/includes/class-syncfire-options.php:57-77 | the option list has 17 entries, none repeated |
| Options.ArrayOptionsListed | sync-fire-wp/includes/class-syncfire-options.php:84-91 | every array option is one of the listed options, none repeated |
| Options.UnlistedConstants | sync-fire-wp/includes/class-syncfire-options.php:19-77 | the maps API key, the migration flag, the sync-settings name and the group are not in the option list |
| Options.ConstantsPrefixed | sync-fire-wp/includes/class-syncfire-options.php:19-50 | every option constant starts with `syncfire_` |
| Options.OptionsDeclared | sync-fire-wp/includes/class-syncfire-options.php:19-77 | every listed option is one of the declared constants |
| WordPress.UpdatedStore | sync-fire-wp/includes/syncfire-functions.php:69-71 | `update_option` writes only when the value differs from the current one (a missing option counts as `false`); afterwards the option reads as the new value |
| WordPress.OptionStore.Update | sync-fire-wp/includes/syncfire-functions.php:69-71 | reports whether the table changed, and leaves it as `UpdatedStore` says |
| WordPress.OptionStore.Delete | sync-fire-wp/includes/syncfire-functions.php:79-81 | the option is gone and every other option is untouched |
| WordPress.GetPost | sync-fire-wp/includes/class-syncfire-post-type-sync.php:170-187 | a found post is in the site and has the id asked for; nothing is found only when no post has that id |
| WordPress.PublishedPostsMembers | sync-fire-wp/includes/class-syncfire-post-type-sync.php:73-95 | the posts queried are exactly the site's published posts of the type |
| Sorting.SortSorted | sync-fire-wp/includes/class-syncfire-taxonomy-sync.php:108-117 | `usort` with a total-preorder comparison yields a sorted list |
| Sorting.SortPermutation | sync-fire-wp/includes/class-syncfire-taxonomy-sync.php:108-117 | `usort` returns a permutation of its input |
| Php.ReplaceNone | sync-fire-wp/includes/class-syncfire-migration.php:176 | `str_replace` leaves a text with no occurrence of the pattern unchanged |
| Php.ReplaceFirst | sync-fire-wp/includes/class-syncfire-migration.php:176 | `str_replace` keeps the text before the first occurrence, puts the replacement in its place and goes on scanning after it |
| Php.FirstAtSpec | sync-fire-wp/includes/class-syncfire-migration.php:176 | `FirstAt(s, pat, i)` holds exactly when an occurrence starts at `i` and none starts earlier |
| Php.FirstOccurrence | sync-fire-wp/includes/class-syncfire-migration.php:176 | a text that contains the pattern has a first occurrence |
| Php.JoinExplode | sync-fire-wp/cli/class-syncfire-command.php:489-533 | `implode` undoes `explode` on one separator |
| Php.StrCmpAntisymmetric | sync-fire-wp/includes/class-syncfire-taxonomy-sync.php:112-116 | swapping the arguments of `strcmp` negates its result |
| Php.StrCmpTransitive | sync-fire-wp/includes/class-syncfire-taxonomy-sync.php:112-116 | `strcmp(a,b) <= 0` and `strcmp(b,c) <= 0` give `strcmp(a,c) <= 0` |
| Php.AssignSpec | sync-fire-wp/includes/class-syncfire-post-type-sync.php:316 | after `$a[$k] = $v`, `k` reads `v`, every other key reads as before, a new key is appended at the end and an existing one keeps its place |
| Firestore.RangeAscending | sync-fire-wp/includes/class-syncfire-firestore.php:335 | `range(0, n-1)` counts up from 0 when `n >= 1` |
| Firestore.EmptyRange | sync-fire-wp/includes/class-syncfire-firestore.php:335 | `range(0, -1)` is `[0, -1]`, not empty |
| Firestore.IsAssocIffNotList | sync-fire-wp/includes/class-syncfire-firestore.php:330-336 | an array is associative exactly when its keys are not `0, 1, …, n-1` in order; the empty array counts as associative |
| Firestore.ScalarEncoding | sync-fire-wp/includes/class-syncfire-firestore.php:286-295 | null, booleans, integers, floats and strings become the Firestore value of the matching type, carrying the same content |
| Firestore.ListEncoding | sync-fire-wp/includes/class-syncfire-firestore.php:307-315 | a list becomes an `arrayValue` of its encoded elements, in order |
| Firestore.MapEncoding | sync-fire-wp/includes/class-syncfire-firestore.php:298-306 | an associative array becomes a `mapValue` with the same keys, in order, each value encoded |
| Firestore.EmptyArrayEncoding | sync-fire-wp/includes/class-syncfire-firestore.php:296-306 | the empty array is encoded as an empty map |
| Firestore.NeverEmptyArrayValue | sync-fire-wp/includes/class-syncfire-firestore.php:285-321 | no value is ever encoded as an empty `arrayValue` |
| Firestore.DecodePrepare | sync-fire-wp/includes/class-syncfire-firestore.php:285-321 | decoding the encoding gives the original value back |
| Firestore.PrepareInjective | sync-fire-wp/includes/class-syncfire-firestore.php:285-321 | two different values never get the same encoding |
| Firestore.PrepareDocumentFields | sync-fire-wp/includes/class-syncfire-firestore.php:266-276 | a document has the data's keys, in order, each value encoded |
| Firestore.DocumentRoundTrip | sync-fire-wp/includes/class-syncfire-firestore.php:266-276 | each document field decodes back to the data entry it came from |
| Firestore.TaxonomyPathInjective | sync-fire-wp/includes/class-syncfire-firestore.php:134-145 | different taxonomies are stored at different document paths |
| Firestore.PostPathInjective | sync-fire-wp/includes/class-syncfire-firestore.php:156-167 | different (post type, id) pairs are stored at different document paths |
| Firestore.IntToStringInjective | sync-fire-wp/includes/class-syncfire-firestore.php:156-167 | different post ids give different path segments |
| Firestore.TokenCacheHit | sync-fire-wp/includes/class-syncfire-firestore.php:364-367 | with a service account, an unexpired cached token is returned as it is and the cache is left unchanged |
| Firestore.TokenWithoutServiceAccount | sync-fire-wp/includes/class-syncfire-firestore.php:346-361 | with an empty or non-JSON service account no token is returned, and the cache is left unchanged |
| Firestore.TokenCaching | sync-fire-wp/includes/class-syncfire-firestore.php:344-387 | with a service account and no valid cached token, the placeholder token is returned and cached with a 3600-second lifetime less 300 seconds; a read of that cache at any later time up to the expiry returns it, and any read after the expiry finds nothing |
| Firestore.TokenStable | sync-fire-wp/includes/class-syncfire-firestore.php:344-387 | fetching the token again at the same time gives the same token: the cache it leaves behind answers as it did |
| Firestore.WriteRequests | sync-fire-wp/includes/class-syncfire-firestore.php:134-188 | a write sends one request when the client is configured and none otherwise |
| Firestore.SaveAndDeleteSameUrl | sync-fire-wp/includes/class-syncfire-firestore.php:156-188 | saving and deleting a post address the same document URL |
| Firestore.Client.constructor | sync-fire-wp/includes/class-syncfire-firestore.php:81-90 | the client's configuration is `ConfigOf` of the option table: the seven options, each read with default `''` |
| Firestore.ConfigOfReads | sync-fire-wp/includes/class-syncfire-firestore.php:81-90 | an empty option table gives an all-empty configuration; a stored project id, API key or service account is read back as stored, with its JSON flag |
| Firestore.ConfigOfFrame | sync-fire-wp/includes/class-syncfire-firestore.php:81-90 | storing or deleting any option other than the seven leaves the configuration unchanged |
| Firestore.StringCastEmpty | sync-fire-wp/includes/class-syncfire-firestore.php:100 | for a non-float, non-array option, the string it is read as is empty exactly when the option is falsy |
| Firestore.ConfiguredFromOptions | sync-fire-wp/includes/class-syncfire-firestore.php:100 | a client built from the options is configured exactly when the stored API key and project id are both truthy |
| Firestore.Client.GetAccessToken | sync-fire-wp/includes/class-syncfire-firestore.php:344-387 | returns the token `TokenFor` gives (none without a service account or with invalid JSON) and leaves the cache as `CacheAfter` says |
| Firestore.Client.TestConnection | sync-fire-wp/includes/class-syncfire-firestore.php:98-124 | unconfigured: fails and sends nothing; otherwise sends one GET to the database URL and succeeds exactly when the answer is HTTP 200 |
| Firestore.Client.SaveDocument | sync-fire-wp/includes/class-syncfire-firestore.php:198-225 | sends one PATCH of the encoded document to its URL, and succeeds exactly when the answer is HTTP 200 |
| Firestore.Client.DeleteDocument | sync-fire-wp/includes/class-syncfire-firestore.php:234-257 | sends one DELETE to the document URL, and succeeds exactly when the answer is HTTP 200 |
| Firestore.Client.GuardedWrite | sync-fire-wp/includes/class-syncfire-firestore.php:134-188 | refuses every write, sending nothing, when unconfigured; the token header is the same before and after |
| Firestore.Client.SaveTaxonomy | sync-fire-wp/includes/class-syncfire-firestore.php:134-145 | a taxonomy is saved at `taxonomies/<taxonomy>` with the requests and result of `GuardedWrite` |
| Firestore.Client.SavePost | sync-fire-wp/includes/class-syncfire-firestore.php:156-167 | a post is saved at `<type>/<id>` with the requests and result of `GuardedWrite` |
| Firestore.Client.DeletePost | sync-fire-wp/includes/class-syncfire-firestore.php:177-188 | a post's document is deleted at `<type>/<id>` with the requests and result of `GuardedWrite` |
| TaxonomySync.TermLeTotalPreorder | sync-fire-wp/includes/class-syncfire-taxonomy-sync.php:108-117 | the term comparison used by `usort` is a total preorder in either sort order |
| TaxonomySync.SortTermsOrder | sync-fire-wp/includes/class-syncfire-taxonomy-sync.php:104-117 | the sorted terms are a permutation of the terms, ascending by the order field under `ASC` and descending under any other order |
| TaxonomySync.MetaFirstValues | sync-fire-wp/includes/class-syncfire-taxonomy-sync.php:200-211 | each meta key is stored with its first value |
| TaxonomySync.NoMetaIsEmpty | sync-fire-wp/includes/class-syncfire-taxonomy-sync.php:200-211 | a term without meta gets an empty meta array |
| TaxonomySync.GetTermMeta | sync-fire-wp/includes/class-syncfire-taxonomy-sync.php:200-211 | the loop builds the meta array `TermMeta` describes |
| TaxonomySync.TermValueEncoding | sync-fire-wp/includes/class-syncfire-taxonomy-sync.php:181-191 | a term is sent as a map with the keys `term_id`, `name`, `slug`, `description`, `parent`, `count`, `meta`, in that order |
| TaxonomySync.PrepareTermData | sync-fire-wp/includes/class-syncfire-taxonomy-sync.php:181-191 | builds the term record `TermValue` describes, with its meta |
| TaxonomySync.TermsListElements | sync-fire-wp/includes/class-syncfire-taxonomy-sync.php:124-126 | the `terms` list holds one prepared term per term, indexed from 0 in sorted order |
| TaxonomySync.TaxonomyDocumentShape | sync-fire-wp/includes/class-syncfire-taxonomy-sync.php:119-130 | the taxonomy document has the fields `taxonomy` and `terms`; with no terms, `terms` is an empty map, otherwise a list of the encoded terms in order |
| TaxonomySync.TermsErrorFails | sync-fire-wp/includes/class-syncfire-taxonomy-sync.php:99-101 | when the term query fails, the sync fails without any request |
| TaxonomySync.AllTaxonomiesSyncedEvery | sync-fire-wp/includes/class-syncfire-taxonomy-sync.php:65-83 | syncing all taxonomies succeeds exactly when every one of them syncs |
| TaxonomySync.TaxonomySync.SyncTaxonomy | sync-fire-wp/includes/class-syncfire-taxonomy-sync.php:92-131 | returns whether the sorted taxonomy document was accepted, and sends exactly its requests |
| TaxonomySync.TaxonomySync.SyncTerm | sync-fire-wp/includes/class-syncfire-taxonomy-sync.php:141-151 | saving a term re-syncs its whole taxonomy when the taxonomy is synchronised, and sends nothing otherwise |
| TaxonomySync.TaxonomySync.DeleteTerm | sync-fire-wp/includes/class-syncfire-taxonomy-sync.php:162-172 | deleting a term re-syncs its whole taxonomy when the taxonomy is synchronised, and sends nothing otherwise |
| TaxonomySync.TaxonomySync.SyncAllTaxonomies | sync-fire-wp/includes/class-syncfire-taxonomy-sync.php:65-83 | every configured taxonomy is attempted in order, even after a failure; the result is the conjunction of their results |
| PostTypeSync.FieldDispatch | sync-fire-wp/includes/class-syncfire-post-type-sync.php:330-390 | the field sources are tried in order: post property, `meta_`, `acf_` when ACF is active, `tax_`/`taxonomy_`, `featured_image`; anything else is null. Beyond the definition, it proves the two taxonomy prefixes never clash (a `taxonomy_` field is not read as `tax_`) and `featured_image` starts with none of the prefixes |
| PostTypeSync.TaxonomyFieldShape | sync-fire-wp/includes/class-syncfire-post-type-sync.php:348-364 | a taxonomy field is always a list of `{term_id, name, slug}`, one per attached term; it is empty on an error or when there are no terms |
| PostTypeSync.FeaturedImageShape | sync-fire-wp/includes/class-syncfire-post-type-sync.php:366-386 | `featured_image` is null exactly when there is no thumbnail or no image source; otherwise it has the keys `id`, `url`, `width`, `height` |
| PostTypeSync.PostDataKeys | sync-fire-wp/includes/class-syncfire-post-type-sync.php:305-320 | the post data has one key per distinct destination name, in order of first occurrence, and no repeated key |
| PostTypeSync.PostDataLastWins | sync-fire-wp/includes/class-syncfire-post-type-sync.php:305-320 | a field's value is stored under its mapped name unless a later field maps to the same name |
| PostTypeSync.PreparePostData | sync-fire-wp/includes/class-syncfire-post-type-sync.php:305-320 | the loop builds the post data `PostData` describes |
| PostTypeSync.SingleSyncNoWrite | sync-fire-wp/includes/class-syncfire-post-type-sync.php:104-121 | a post of an unsynchronised type, or one with no fields selected, counts as synced and sends nothing |
| PostTypeSync.SingleSyncWrites | sync-fire-wp/includes/class-syncfire-post-type-sync.php:122-132 | otherwise the result is that of saving the post's document |
| PostTypeSync.AllSyncedEvery | sync-fire-wp/includes/class-syncfire-post-type-sync.php:73-95 | syncing a post type succeeds exactly when every post of it syncs |
| PostTypeSync.AllTypesSyncedEvery | sync-fire-wp/includes/class-syncfire-post-type-sync.php:46-64 | syncing all post types succeeds exactly when every type syncs |
| PostTypeSync.StatusChangeRules | sync-fire-wp/includes/class-syncfire-post-type-sync.php:197-214 | in a synchronised type, a post becoming published is synced and a post leaving `publish` is deleted; nothing else happens |
| PostTypeSync.PostTypeSync.SyncSinglePost | sync-fire-wp/includes/class-syncfire-post-type-sync.php:104-132 | returns whether the post is synced and sends exactly its requests |
| PostTypeSync.PostTypeSync.SyncPostType | sync-fire-wp/includes/class-syncfire-post-type-sync.php:73-95 | every published post of the type is attempted in order, even after a failure; the result is the conjunction |
| PostTypeSync.PostTypeSync.SyncPosts | sync-fire-wp/includes/class-syncfire-post-type-sync.php:85-94 | the requests of the posts follow each other in list order, the result is the conjunction of the posts' results, and the token each request carries is the same before and after (the cache itself may gain the placeholder token) |
| PostTypeSync.PostTypeSync.SyncAllPostTypes | sync-fire-wp/includes/class-syncfire-post-type-sync.php:46-64 | every configured type is attempted in order; the result is the conjunction |
| PostTypeSync.PostTypeSync.SyncPost | sync-fire-wp/includes/class-syncfire-post-type-sync.php:142-162 | only a published post of a synchronised type that is neither a revision nor an autosave is synced |
| PostTypeSync.PostTypeSync.DeletePost | sync-fire-wp/includes/class-syncfire-post-type-sync.php:170-187 | a post of a synchronised type has its document deleted; an unknown post or an unsynchronised type sends nothing |
| PostTypeSync.PostTypeSync.PostStatusChanged | sync-fire-wp/includes/class-syncfire-post-type-sync.php:197-214 | sends the sync or the delete that `StatusChange` chooses, or nothing |
| PostTypeSync.PostTypeSync.SyncPostMeta | sync-fire-wp/includes/class-syncfire-post-type-sync.php:225-256 | a meta change re-syncs a published post of a synchronised type only when its `meta_<key>` field is selected |
| PostTypeSync.PostTypeSync.SyncFeaturedImage | sync-fire-wp/includes/class-syncfire-post-type-sync.php:265-294 | a thumbnail change re-syncs a published post of a synchronised type only when `featured_image` is selected |
| Logger.CappedKeepsNewest | sync-fire-wp/includes/class-syncfire-logger.php:91-109 | a stored log keeps the last 100 entries, the new entry last |
| Logger.CappedShort | sync-fire-wp/includes/class-syncfire-logger.php:103-105 | a log of at most 100 entries is kept as it is |
| Logger.OfLevelMembers | sync-fire-wp/includes/class-syncfire-logger.php:197-201 | the level filter keeps exactly the entries of that level, and keeps everything when no level is given |
| Logger.NewestFirstTotalPreorder | sync-fire-wp/includes/class-syncfire-logger.php:204-206 | the newest-first comparison is a total preorder |
| Logger.QueryProperties | sync-fire-wp/includes/class-syncfire-logger.php:192-214 | `get_logs` returns entries of the log, only of the asked level, newest first, at most `limit` of them when `limit > 0`, and all of them otherwise |
| Logger.QueryKeepsNewest | sync-fire-wp/includes/class-syncfire-logger.php:203-211 | the result is the head of the newest-first sorted entries of the level, drawn from them, and no entry the limit drops is newer than an entry kept |
| Logger.ShownMembers | sync-fire-wp/includes/class-syncfire-logger.php:149-178 | exactly the notices younger than 24 hours are displayed, with their classes |
| Logger.Logger.StoreLog | sync-fire-wp/includes/class-syncfire-logger.php:91-109 | appends the entry and caps the log at 100; notices are untouched |
| Logger.Logger.AddAdminNotice | sync-fire-wp/includes/class-syncfire-logger.php:118-131 | appends the notice stamped with the current time; the log is untouched |
| Logger.Logger.Log | sync-fire-wp/includes/class-syncfire-logger.php:68-82 | stores the entry, and adds a notice only when `display` is set |
| Logger.Logger.DisplayAdminNotices | sync-fire-wp/includes/class-syncfire-logger.php:138-182 | off a SyncFire screen nothing is shown or cleared; on one, the fresh notices are shown and all notices are cleared |
| Logger.Logger.GetLogs | sync-fire-wp/includes/class-syncfire-logger.php:192-214 | returns only stored entries |
| Logger.Logger.ClearLogs | sync-fire-wp/includes/class-syncfire-logger.php:221-223 | empties the log and keeps the notices |
| Migration.MigrateOptionRules | sync-fire-wp/includes/class-syncfire-migration.php:101-141 | fails without a change when the old option is unset or the new one is already set. On success the value moves to the new name, the old option is deleted and every other option is untouched. Because `update_option` skips an unchanged value, moving a `false` value fails |
| Migration.SameNameNeverMigrates | sync-fire-wp/includes/class-syncfire-migration.php:101-141 | an option cannot be migrated onto its own name, and the table is not changed |
| Migration.NewNameKeeps | sync-fire-wp/includes/class-syncfire-migration.php:176 | a name that does not contain `<old>_` keeps its name |
| Migration.NewNameReplacesFirst | sync-fire-wp/includes/class-syncfire-migration.php:176 | in a name whose first `<old>_` starts at `i`, the text before `i` is kept, that occurrence becomes `<new>_`, and the rest of the name is renamed the same way. So every occurrence is replaced, not only a leading prefix |
| Migration.NewNameEveryOccurrence | sync-fire-wp/includes/class-syncfire-migration.php:176 | worked instance only: renaming group `ab` to `cd` turns `ab_x_ab_y` into `cd_x_cd_y` |
| Migration.GroupStepListsSuccesses | sync-fire-wp/includes/class-syncfire-migration.php:150-194 | the group result lists exactly the matching options that migrated, with their new names |
| Migration.MigrateGroupRules | sync-fire-wp/includes/class-syncfire-migration.php:150-194 | a group with no matching options fails and changes nothing; otherwise it succeeds, whatever its options' results |
| Migration.RunMigrationCounts | sync-fire-wp/includes/class-syncfire-migration.php:50-92 | the run succeeds exactly when no error was recorded, and each mapping yields either one migrated entry or one error |
| Migration.EmptyTablesMigrateNothing | sync-fire-wp/includes/class-syncfire-migration.php:29-43 | with the shipped empty tables, the run changes nothing and reports success |
| Migration.PartsLessIrreflexive | sync-fire-wp/includes/class-syncfire-migration.php:296 | no version is below itself |
| Migration.VersionOneZero | sync-fire-wp/includes/class-syncfire-migration.php:293-296 | `1.0` parses as `[1, 0]`; the default `0` is below it and `1.0` is not |
| Migration.RunsOnce | sync-fire-wp/includes/class-syncfire-migration.php:291-307 | after a run has stored version `1.0`, the migration does not run again |
| Migration.Migration.AddOptionMapping | sync-fire-wp/includes/class-syncfire-migration.php:271-273 | sets one entry of the option mapping; the group mapping is untouched |
| Migration.Migration.AddGroupMapping | sync-fire-wp/includes/class-syncfire-migration.php:281-283 | sets one entry of the group mapping; the option mapping is untouched |
| Migration.Migration.MigrateOption | sync-fire-wp/includes/class-syncfire-migration.php:101-141 | result and option table as `MigrateOptionSpec` describes |
| Migration.Migration.MigrateGroup | sync-fire-wp/includes/class-syncfire-migration.php:150-194 | result and option table as `MigrateGroupSpec` describes |
| Migration.Migration.RunMigration | sync-fire-wp/includes/class-syncfire-migration.php:50-92 | the options are migrated, then the groups; report and table as `RunMigrationSpec` describes |
| Migration.Migration.MaybeRunMigration | sync-fire-wp/includes/class-syncfire-migration.php:291-307 | runs only when the stored version is below `1.0`; a run then records `1.0` and raises a notice exactly when it failed; otherwise nothing changes |
| Functions.SanitizeTreeShape | sync-fire-wp/includes/syncfire-functions.php:97-105 | sanitising keeps every nested array and key in place and replaces the scalars, in order, by their sanitised strings |
| Functions.SanitizeArrayResult | sync-fire-wp/includes/syncfire-functions.php:89-106 | the result is always an array: empty for a non-array, and for an array the same shape with every scalar sanitised |
| Functions.SanitizeBooleanFalsy | sync-fire-wp/includes/syncfire-functions.php:114-116 | the cast is false exactly for null, `false`, `0`, `0.0`, `""`, `"0"` and the empty array |
| Functions.Registry.RegisterOption | sync-fire-wp/includes/syncfire-functions.php:47-49 | registers the option in the `syncfire_settings` group with the given arguments; every other registration is untouched |
| Functions.NotInMembers | sync-fire-wp/includes/syncfire-functions.php:153-158 | the missing names are exactly the unregistered ones, in list order; registered plus missing is the whole list |
| Functions.NotInEmpty | sync-fire-wp/includes/syncfire-functions.php:153-158 | nothing is missing when every name is registered |
| Functions.TestSettings | sync-fire-wp/includes/syncfire-functions.php:148-163 | returns the listed options that are not registered, in list order |
| Functions.TestEmulatorConnection | sync-fire-wp/includes/syncfire-functions.php:195-221 | with the emulator off, fails at once and sends nothing; otherwise it is the connection test of a client built from the same option table, sending one GET exactly when that configuration is complete |
| Plugin.SanitizeArrayCases | sync-fire-wp/sync-fire.php:357-377 | an empty non-array becomes `[]` and any other non-array is wrapped as `[$input]`; an array keeps its shape with every scalar sanitised |
| Plugin.SanitizersAgree | sync-fire-wp/sync-fire.php:357-377 | the two array sanitisers give the same result exactly on arrays and empty values |
| Plugin.WrappedScalarUnsanitized | sync-fire-wp/sync-fire.php:363 | a wrapped scalar is returned without passing through `sanitize_text_field` |
| Plugin.SanitizeArrayCorrectedLeaves | sync-fire-wp/sync-fire.php:357-377 | with the fix, every stored scalar is a sanitised string, the input's scalars in order |
| Plugin.HasNestedArray | sync-fire-wp/sync-fire.php:482-494 | true exactly when the value is an array holding some array |
| Plugin.SanitizeKeepsNesting | sync-fire-wp/sync-fire.php:367-374 | sanitising an array leaves it nested exactly when it was |
| Plugin.ClearedSpec | sync-fire-wp/sync-fire.php:580-595 | each listed option that is unset, `false` or `''` holds its initial value (`[]` for an array option, otherwise `''`); every other option is untouched |
| Plugin.ClearIdempotent | sync-fire-wp/sync-fire.php:567-598 | clearing the cache twice leaves the table as clearing it once does |
| Plugin.SyncFire.LogUpdatedOption | sync-fire-wp/sync-fire.php:418-439 | records an update exactly when the option name starts with `syncfire_` |
| Plugin.SyncFire.ClearOptionsCache | sync-fire-wp/sync-fire.php:567-598 | leaves the option table as `Cleared` describes |
| Plugin.Instance.GetInstance | sync-fire-wp/sync-fire.php:64-69 | the first call creates the plugin object, and every later call returns that same object |
| SettingsTest.WrongGroupMembers | sync-fire-wp/includes/class-syncfire-settings-test.php:38-52 | the misgrouped options are exactly the registered ones whose group is missing or not `syncfire_settings` |
| SettingsTest.FailureMessage | sync-fire-wp/includes/class-syncfire-settings-test.php:55-78 | a failure message names the missing options first, then the misgrouped ones, each part only when it is non-empty |
| SettingsTest.TestSettingsRegistration | sync-fire-wp/includes/class-syncfire-settings-test.php:25-81 | reports the missing and misgrouped options in list order, the total and registered counts, success exactly when both lists are empty, and the matching message |
| SettingsTest.RegistrationCounts | sync-fire-wp/includes/class-syncfire-settings-test.php:38-52 | for any option list (the plugin's 17 options included), registered plus missing is its length, the missing options keep list order, and a misgrouped option is registered and not missing |
| SettingsTest.RegisteredOptionsPass | sync-fire-wp/includes/class-syncfire-settings-test.php:38-52 | registering each option in the plugin's group makes the test report nothing missing or misgrouped |
| SettingsTest.TestFormSubmission | sync-fire-wp/includes/class-syncfire-settings-test.php:88-117 | the option page is always the plugin's group, so the test fails exactly when the form action is empty |
| SettingsTest.RunAllTests | sync-fire-wp/includes/class-syncfire-settings-test.php:124-139 | passes exactly when both tests pass: every option registered in the group and a non-empty form action |
| Tester.CountTrueAll | sync-fire-wp/includes/class-syncfire-tester.php:66-69 | all tests passed exactly when the passed count equals the number of tests |
| Tester.AllPassedIff | sync-fire-wp/includes/class-syncfire-tester.php:66-69 | five passes out of five means every one of the five tests passed |
| Tester.NoneMissing | sync-fire-wp/includes/class-syncfire-tester.php:188-213 | no hook is reported missing exactly when every required hook is registered |
| Tester.Tester.TestFirebaseConnection | sync-fire-wp/includes/class-syncfire-tester.php:92-104 | its result and requests are those of the client's connection test; the token header is the same afterwards |
| Tester.Tester.TestTaxonomySync | sync-fire-wp/includes/class-syncfire-tester.php:112-138 | fails with nothing configured; otherwise every taxonomy is synced in order, and the result is their conjunction |
| Tester.Tester.TestPostTypeSync | sync-fire-wp/includes/class-syncfire-tester.php:146-172 | fails with nothing configured; otherwise every post type is synced in order, and the result is their conjunction |
| Tester.Tester.TestRealTimeSync | sync-fire-wp/includes/class-syncfire-tester.php:180-214 | lists the missing required hooks in order, and passes exactly when none is missing |
| Tester.Tester.TestSecurity | sync-fire-wp/includes/class-syncfire-tester.php:222-263 | reports a missing API key, then a missing service account, then each missing admin hook, and passes exactly when there is no issue |
| Tester.Tester.RunAllTests | sync-fire-wp/includes/class-syncfire-tester.php:56-84 | runs the five tests in order, each meaning what its method states, the security test reading the tester's own option table, and passes exactly when all five pass |
| CliCommand.AddIfAbsentSpec | sync-fire-wp/cli/class-syncfire-command.php:640-653 | adding a slug keeps the list as its prefix, adds the slug at most once and keeps it repeat-free |
| CliCommand.EnabledProperties | sync-fire-wp/cli/class-syncfire-command.php:232-257 | enabling keeps the previous list as a prefix, adds every existing requested name and nothing else, and keeps the list repeat-free |
| CliCommand.RemoveFirstMultiset | sync-fire-wp/cli/class-syncfire-command.php:262-277 | disabling a name removes one occurrence of it and nothing else |
| CliCommand.RemoveFirstDistinct | sync-fire-wp/cli/class-syncfire-command.php:262-277 | in a repeat-free list, a disabled name is gone afterwards |
| CliCommand.DisabledMultiset | sync-fire-wp/cli/class-syncfire-command.php:262-277 | disabling several names removes one occurrence of each |
| CliCommand.DisabledDistinct | sync-fire-wp/cli/class-syncfire-command.php:409-424 | in a repeat-free list, every disabled name is gone and the list stays repeat-free |
| CliCommand.WithFieldsLookup | sync-fire-wp/cli/class-syncfire-command.php:367-404 | with `--fields`, each requested post type gets those fields, whether it exists or not, and the other types keep theirs |
| CliCommand.UniqueSpec | sync-fire-wp/cli/class-syncfire-command.php:489-533 | `array_unique` keeps each field once, and all of them |
| CliCommand.AddFieldsKeepsOrder | sync-fire-wp/cli/class-syncfire-command.php:489-533 | adding fields keeps the existing fields first, in order, with no repeats |
| CliCommand.DiffSpec | sync-fire-wp/cli/class-syncfire-command.php:489-533 | removing fields keeps exactly the fields not removed |
| CliCommand.FieldsAfterSpec | sync-fire-wp/cli/class-syncfire-command.php:489-533 | set replaces a type's fields, add unions them, remove subtracts them, list changes nothing; other post types are untouched |
| CliCommand.FieldsActionOf | sync-fire-wp/cli/class-syncfire-command.php:501-520 | `--set` is obeyed when given, `--add` only without `--set`, `--remove` only without both, and the fields are listed when none is given |
| CliCommand.ConfigOrderComplete | sync-fire-wp/cli/class-syncfire-command.php:74-128 | the command handles every one of its nine arguments |
| CliCommand.ConfigOrderDistinct | sync-fire-wp/cli/class-syncfire-command.php:74-128 | no argument is handled twice |
| CliCommand.ConfigOptionApart | sync-fire-wp/cli/class-syncfire-command.php:74-128 | two different blocks of the command write two different options |
| CliCommand.ConfigOptionsDistinct | sync-fire-wp/cli/class-syncfire-command.php:74-128 | different arguments store different options |
| CliCommand.ConfigErrorStops | sync-fire-wp/cli/class-syncfire-command.php:100-109 | once an error is raised, nothing more is stored |
| CliCommand.ConfigStores | sync-fire-wp/cli/class-syncfire-command.php:74-128 | without an error, every given argument is stored under its option |
| CliCommand.GivenArgsSpec | sync-fire-wp/cli/class-syncfire-command.php:74-128 | the given arguments, in command order, are exactly the arguments passed, each once |
| CliCommand.ConfigLabels | sync-fire-wp/cli/class-syncfire-command.php:74-128 | without an error, the updated labels are one per given argument, in the order of the command's blocks, none repeated |
| CliCommand.ArgReadBack | sync-fire-wp/cli/class-syncfire-command.php:74-128 | without an error, a given argument's value (the file text for the service account) is what its option holds afterwards |
| CliCommand.ArgUnchanged | sync-fire-wp/cli/class-syncfire-command.php:74-128 | an argument not given leaves its option as it was |
| CliCommand.ConfigReadBack | sync-fire-wp/cli/class-syncfire-command.php:74-98 | a client built after the command reads the given project id, API key, auth domain and storage bucket |
| CliCommand.ServiceAccountReadBack | sync-fire-wp/cli/class-syncfire-command.php:100-111 | after a successful command given `--service-account`, the file was read and parsed as JSON, and a client built afterwards holds its text as the service account |
| CliCommand.ConfigKeepsOtherFields | sync-fire-wp/cli/class-syncfire-command.php:70-140 | the command never changes the messaging sender id or the app id a client reads |
| CliCommand.EmulatorReadBack | sync-fire-wp/includes/syncfire-functions.php:181-187 | after a successful command, `syncfire_get_emulator_config` reports the emulator enabled, and the given host and port; options not given read as before, and as off, `localhost` and `8080` when they were never stored |
| CliCommand.ConfigTouchesOnlyItsOptions | sync-fire-wp/cli/class-syncfire-command.php:70-140 | the command changes no option except those of the arguments given |
| CliCommand.ConfigErrorSource | sync-fire-wp/cli/class-syncfire-command.php:100-109 | only the service-account file can raise an error, and the options stored before it stay stored |
| CliCommand.ConfigFailure | sync-fire-wp/cli/class-syncfire-command.php:100-109 | the command fails exactly when the service-account file is missing or not JSON; the options before it are still stored |
| CliCommand.ConfigNoOptions | sync-fire-wp/cli/class-syncfire-command.php:130-133 | with an empty argument map, nothing is stored and nothing is reported updated. WP-CLI itself never passes one, because it fills in `--database-id` |
| CliCommand.Command.StoreArg | sync-fire-wp/cli/class-syncfire-command.php:75-128 | handles one argument as `ConfigStep` describes |
| CliCommand.Command.StoreNext | sync-fire-wp/cli/class-syncfire-command.php:75-128 | one block of the command is one more step of `ConfigFold`, and only the service-account block can fail |
| CliCommand.Command.StoreFirebaseConfig | sync-fire-wp/cli/class-syncfire-command.php:74-98 | the five plain Firebase blocks leave the state `ConfigFold` gives after five steps, without an error |
| CliCommand.Command.StoreEmulatorConfig | sync-fire-wp/cli/class-syncfire-command.php:113-127 | the three emulator blocks take the state after six steps to the state after all nine, without an error |
| CliCommand.Command.Config | sync-fire-wp/cli/class-syncfire-command.php:70-140 | outcome and option table as `ConfigFold` over all arguments describes |
| CliCommand.Command.TaxonomyEnable | sync-fire-wp/cli/class-syncfire-command.php:232-257 | the synchronised taxonomies become `Enabled` of the requested (or all public) taxonomies; post types are untouched |
| CliCommand.Command.TaxonomyDisable | sync-fire-wp/cli/class-syncfire-command.php:262-277 | the synchronised taxonomies lose the requested names |
| CliCommand.Command.PostTypeEnable | sync-fire-wp/cli/class-syncfire-command.php:367-404 | the synchronised post types become `Enabled` of the requested ones, and `--fields` sets their field lists |
| CliCommand.Command.PostTypeDisable | sync-fire-wp/cli/class-syncfire-command.php:409-424 | the synchronised post types lose the requested names; field lists are kept |
| CliCommand.Command.PostTypeFieldsCommand | sync-fire-wp/cli/class-syncfire-command.php:489-533 | a missing or unknown post type is an error with no change; otherwise the field lists become `FieldsAfter` of the action the flags choose, with the matching outcome |
| CliCommand.Command.Import | sync-fire-wp/cli/class-syncfire-command.php:615-670 | rejects a bad type, an inactive schema plugin and a missing schema with no change; an import with `--auto-sync` adds the slug to the taxonomies or post types once, and one with `--sync-now` starts the sync subcommand of its type on the slug alone. A taxonomy sync, or a post-type sync that finds no posts, ends in "Import complete". A post-type sync that finds a post aborts before it (`SyncAborted`), with the `--auto-sync` change already stored |

## Left out

- HTTP transport and OAuth are not part of this model. Whatever the service answers is the `remote` function of `Firestore.Network`. The JWT exchange `get_access_token` leaves unfinished is modelled as its placeholder token.
- Wall-clock time is an integer input. So are the MySQL timestamps of log entries and `strtotime`.
- Floating-point numbers are opaque 64-bit patterns with a zero test. Their arithmetic and string formatting are not modelled.
- The PHP integer width is not modelled: a PHP int is a Dafny `int`. No plugin arithmetic comes near the bounds.
- Numeric-string keys are not normalised to integer keys. The loose comparisons of `in_array` and of `array_search` (in `taxonomy disable` and `post_type disable`, lines 266 and 413 of the command) are modelled as equality of strings. Every name they compare is a string, and for strings loose equality differs only on numeric strings such as `"1"` and `"01"`.
- `error_log` output, WP-CLI output and table formatting, `printf` of notices and the tester's own log messages are left out. The model returns the text or list they would print.
- Of the CLI subcommands, the model covers `config`, `taxonomy enable|disable`, `post_type enable|disable|fields` and `import`. `status`, `taxonomy list`, `post_type list` and `stats` only read and print. `taxonomy sync` calls `sync_taxonomy`, which is modelled. `post_type sync` calls `sync_post($post->ID, $post)` without the third required argument `$update` (class-syncfire-command.php:476, class-syncfire-post-type-sync.php:142), so under PHP 8 it ends in an uncaught `ArgumentCountError` at the first post; only that outcome is modelled, through `Import`. `test` calls `set_document` (class-syncfire-command.php:579), a method the Firestore client does not define, so the command ends in a fatal error and is not modelled.
- `register_settings`, the admin menus and pages, `activate`/`deactivate`, `load_dependencies` and `init_hooks` of `sync-fire.php` register callbacks with WordPress and are left out. So are the hook wiring of `class-syncfire-hooks.php` and the admin class.
- `log_option_update`, `log_option_changes` and `debug_form_submission` in `sync-fire.php`, and `syncfire_log_form_submission`, only write diagnostics to the log.
- `log_test_results` and `log_migration_results` only write to the log.
- `syncfire_display_migration_notice` and `syncfire_display_settings_test_notice` only print.
- `syncfire_run_settings_tests` is `SettingsTest.RunAllTests` run only on admin-area requests (`is_admin()`, which tests where the request goes, not the user's capabilities). The request kind is not modelled.
- `syncfire_get_option`, `syncfire_update_option` and `syncfire_delete_option` are the WordPress calls they wrap: `WordPress.GetOption`, `WordPress.OptionStore.Update` and `WordPress.OptionStore.Delete`.
- The ACF Google Maps key helpers call ACF, which is not part of this model.
- `wp_cache_delete` in `clear_options_cache` only drops WordPress's object cache, which the model does not have.
- Migration.Migration.RunMigration: the SQL `LIKE` query that finds a group's options is the parameter `query`, not a model of SQL matching.
- Migration.Migration.MaybeRunMigration: `version_compare` is modelled for dotted-decimal versions only. Any other stored version (`1.0-beta`, say) counts as below `1.0`.
- Functions.TestEmulatorConnection: the exception handler is left out. The modelled connection test cannot throw.
- Firestore.ConfigOf: a float option reads as `''`, because float formatting is not modelled; an array option reads as `"Array"`. Whether a text is JSON (`json_decode`) is the input `isJson`.
- CliCommand.Command.Import: `--sync-now` is modelled as the sync subcommand it starts (`taxonomy sync` or `post_type sync` on the slug), not as that subcommand's requests. The number of posts the post-type sync finds is the parameter `slugPosts`. For a post type with posts, `--sync-now` aborts at class-syncfire-command.php:476 with an `ArgumentCountError`. That is a PHP `Error`, which the `catch (\Exception $e)` at line 667 does not catch, so "Import complete" is never reached.
- Tester.Tester.SyncOneTaxonomy: the fresh `SyncFire_Taxonomy_Sync` shares the tester's client (`TaxonomySync.TaxonomySync.OnClient`), rather than building a second client from the same option table. The two clients would hold the same configuration, on the same transients and network. `Tester.Tester.SyncOnePostType` does the same with `PostTypeSync.PostTypeSync.OnClient`.
- Functions.Registry.RegisterOption: `register_setting`'s merging of default arguments is not modelled. The registration records the group and the arguments as given.
- Tester.Tester.TestSecurity: the hooks are a set of names, so the priority at which a callback is registered is not modelled.
- Logger.Logger.GetLogs: its own contract only promises entries of the log. The filter, the order and the limit are stated about `Query`, which it returns, in `Logger.QueryProperties` and `Logger.QueryKeepsNewest`.
- The CLI `config` command stores the earlier options before it stops at a bad service-account file. Their values stay stored, although the command's description suggests that errors come before any change. The model follows the code (`CliCommand.ConfigFailure`).
- CliCommand.Command.Config: the arguments are the `$assoc_args` map as the method receives it. WP-CLI's handling of the docblock synopsis is not modelled. WP-CLI would fill in `--database-id` with its default `(default)` (class-syncfire-command.php:30-34). So from the command line the "No configuration options provided" branch (`CliCommand.ConfigNoOptions`) is unreachable, and `database-id` is never an argument left unchanged.
- CliCommand.Command.PostTypeFieldsCommand: `--set`, `--add` and `--remove` are taken as the method reads them. The `post_type` synopsis does not declare them, and WP-CLI's validation of undeclared flags is not modelled.
- Firestore.Client.GetAccessToken: the service account is the one read when the client was built. The source reads `syncfire_firebase_service_account` again on every call (class-syncfire-firestore.php:346). The two agree as long as the option is not changed after the client is built.
- WordPress.Settings: the settings the sync classes read are an input, not read from the option table. So the model does not show that `clear_options_cache` writes `''` into an unset `syncfire_taxonomy_sort_order` (sync-fire.php:588-593). That stored `''` overrides the `'ASC'` default of class-syncfire-taxonomy-sync.php:105, and terms then sort in descending order.
- Sorting.Sort: the lemmas state that the result is ordered and a permutation. They do not state stability (PHP 8 `usort` keeps equal elements in their original order), so the order of terms that compare equal is not claimed to match.

## Findings

| source | as written | input that shows it | evidently intended | confidence | as-written member | corrected member |
|---|---|---|---|---|---|---|
| sync-fire-wp/sync-fire.php:363 | `sanitize_array` wraps a non-empty non-array as `array($input)` without calling `sanitize_text_field`, while every scalar inside an array is sanitised | `$plugin->sanitize_array("<b>x</b>")` returns `["<b>x</b>"]` with its markup intact. The method is public but unused: no setting registers it as its sanitize callback, since the array settings use `syncfire_sanitize_array` | the wrapped scalar is sanitised like every other scalar, as `syncfire_sanitize_array` never returns unsanitised text | low (the method is unused), not executed | Plugin.WrappedScalarUnsanitized | Plugin.SanitizeArrayCorrectedLeaves |
