/**
 * `SyncFire_Options`: the option names the plugin stores its settings
 * under, the list of all of them and the list of those holding arrays.
 */
module Options {
  import opened Php

  /** The settings group every option is registered in. */
  const Group := "syncfire_settings"
  const SyncSettings := "syncfire_sync_settings"

  const FirebaseApiKey := "syncfire_firebase_api_key"
  const FirebaseAuthDomain := "syncfire_firebase_auth_domain"
  const FirebaseProjectId := "syncfire_firebase_project_id"
  const FirebaseStorageBucket := "syncfire_firebase_storage_bucket"
  const FirebaseMessagingSenderId := "syncfire_firebase_messaging_sender_id"
  const FirebaseAppId := "syncfire_firebase_app_id"
  const FirebaseServiceAccount := "syncfire_firebase_service_account"
  const FirebaseDatabaseId := "syncfire_firebase_database_id"

  const GoogleMapApiKey := "syncfire_google_maps_api_key"

  const TaxonomiesToSync := "syncfire_taxonomies_to_sync"
  const TaxonomyOrderField := "syncfire_taxonomy_order_field"
  const TaxonomySortOrder := "syncfire_taxonomy_sort_order"

  const PostTypesToSync := "syncfire_post_types_to_sync"
  const PostTypeFields := "syncfire_post_type_fields"
  const PostTypeFieldMapping := "syncfire_post_type_field_mapping"

  const FirestoreEmulatorEnabled := "syncfire_firestore_emulator_enabled"
  const FirestoreEmulatorHost := "syncfire_firestore_emulator_host"
  const FirestoreEmulatorPort := "syncfire_firestore_emulator_port"

  const MigrationComplete := "syncfire_migration_complete"

  /** The prefix every name of the plugin's options carries. */
  const Prefix := "syncfire_"

  /** Every name constant the class declares, the group names included. */
  function Constants(): seq<string> {
    [Group, SyncSettings, FirebaseApiKey, FirebaseAuthDomain, FirebaseProjectId,
     FirebaseStorageBucket, FirebaseMessagingSenderId, FirebaseAppId,
     FirebaseServiceAccount, FirebaseDatabaseId, GoogleMapApiKey, TaxonomiesToSync,
     TaxonomyOrderField, TaxonomySortOrder, PostTypesToSync, PostTypeFields,
     PostTypeFieldMapping, FirestoreEmulatorEnabled, FirestoreEmulatorHost,
     FirestoreEmulatorPort, MigrationComplete]
  }

  /** `get_all_options`. */
  function AllOptions(): seq<string> {
    [FirebaseApiKey, FirebaseAuthDomain, FirebaseProjectId, FirebaseStorageBucket,
     FirebaseMessagingSenderId, FirebaseAppId, FirebaseServiceAccount, FirebaseDatabaseId,
     FirestoreEmulatorEnabled, FirestoreEmulatorHost, FirestoreEmulatorPort,
     TaxonomiesToSync, TaxonomyOrderField, TaxonomySortOrder,
     PostTypesToSync, PostTypeFields, PostTypeFieldMapping]
  }

  /** `get_array_options`. */
  function ArrayOptions(): seq<string> {
    [TaxonomiesToSync, PostTypesToSync, PostTypeFields, PostTypeFieldMapping]
  }

  /** Seventeen options, no name listed twice. */
  lemma AllOptionsDistinct()
    ensures |AllOptions()| == 17
    ensures Distinct(AllOptions())
  {
    FirebaseNamesDistinct();
    LaterNamesDistinct();
    FirebaseNamesApart();
    DistinctAppend(FirebaseNames(), LaterNames());
    assert FirebaseNames() + LaterNames() == AllOptions();
  }

  /** The first eight listed options, the Firebase configuration. */
  function FirebaseNames(): seq<string> {
    [FirebaseApiKey, FirebaseAuthDomain, FirebaseProjectId, FirebaseStorageBucket,
     FirebaseMessagingSenderId, FirebaseAppId, FirebaseServiceAccount, FirebaseDatabaseId]
  }

  /** The other nine listed options: the emulator, the taxonomies and the post types. */
  function LaterNames(): seq<string> {
    [FirestoreEmulatorEnabled, FirestoreEmulatorHost, FirestoreEmulatorPort,
     TaxonomiesToSync, TaxonomyOrderField, TaxonomySortOrder,
     PostTypesToSync, PostTypeFields, PostTypeFieldMapping]
  }

  /** No Firebase configuration name is listed twice. */
  lemma FirebaseNamesDistinct()
    ensures Distinct(FirebaseNames())
  {
  }

  /** No emulator, taxonomy or post type name is listed twice. */
  lemma LaterNamesDistinct()
    ensures Distinct(LaterNames())
  {
  }

  /** The Firebase names and the other listed names have none in common. */
  lemma FirebaseNamesApart()
    ensures forall x :: x in FirebaseNames() ==> x !in LaterNames()
  {
  }

  /** Two lists without repeats and without a common element join into one without repeats. */
  lemma DistinctAppend(a: seq<string>, b: seq<string>)
    requires Distinct(a) && Distinct(b)
    requires forall x :: x in a ==> x !in b
    ensures Distinct(a + b)
  {
    forall i, j | 0 <= i < j < |a + b|
      ensures (a + b)[i] != (a + b)[j]
    {
      if i < |a| && |a| <= j {
        assert (a + b)[i] in a && (a + b)[j] in b;
      }
    }
  }

  /** Every array option is one of all the options. */
  lemma ArrayOptionsListed()
    ensures forall o :: o in ArrayOptions() ==> o in AllOptions()
    ensures Distinct(ArrayOptions())
  {
  }

  /** The Maps key and the migration flag are declared but not listed. */
  lemma UnlistedConstants()
    ensures GoogleMapApiKey !in AllOptions()
    ensures MigrationComplete !in AllOptions()
    ensures SyncSettings !in AllOptions() && Group !in AllOptions()
  {
  }

  /** The group names and the Firebase configuration names start with `syncfire_`. */
  lemma GroupNamesPrefixed()
    ensures StartsWith(Group, Prefix)
    ensures StartsWith(SyncSettings, Prefix)
    ensures StartsWith(FirebaseApiKey, Prefix)
    ensures StartsWith(FirebaseAuthDomain, Prefix)
    ensures StartsWith(FirebaseProjectId, Prefix)
    ensures StartsWith(FirebaseStorageBucket, Prefix)
    ensures StartsWith(FirebaseMessagingSenderId, Prefix)
    ensures StartsWith(FirebaseAppId, Prefix)
    ensures StartsWith(FirebaseServiceAccount, Prefix)
    ensures StartsWith(FirebaseDatabaseId, Prefix)
  {
    assert Group[..9] == Prefix;
    assert SyncSettings[..9] == Prefix;
    assert FirebaseApiKey[..9] == Prefix;
    assert FirebaseAuthDomain[..9] == Prefix;
    assert FirebaseProjectId[..9] == Prefix;
    assert FirebaseStorageBucket[..9] == Prefix;
    assert FirebaseMessagingSenderId[..9] == Prefix;
    assert FirebaseAppId[..9] == Prefix;
    assert FirebaseServiceAccount[..9] == Prefix;
    assert FirebaseDatabaseId[..9] == Prefix;
  }

  /** The Maps key, the taxonomy and the post type names start with `syncfire_`. */
  lemma SyncNamesPrefixed()
    ensures StartsWith(GoogleMapApiKey, Prefix)
    ensures StartsWith(TaxonomiesToSync, Prefix)
    ensures StartsWith(TaxonomyOrderField, Prefix)
    ensures StartsWith(TaxonomySortOrder, Prefix)
    ensures StartsWith(PostTypesToSync, Prefix)
    ensures StartsWith(PostTypeFields, Prefix)
    ensures StartsWith(PostTypeFieldMapping, Prefix)
  {
    assert GoogleMapApiKey[..9] == Prefix;
    assert TaxonomiesToSync[..9] == Prefix;
    assert TaxonomyOrderField[..9] == Prefix;
    assert TaxonomySortOrder[..9] == Prefix;
    assert PostTypesToSync[..9] == Prefix;
    assert PostTypeFields[..9] == Prefix;
    assert PostTypeFieldMapping[..9] == Prefix;
  }

  /** The emulator names and the migration flag start with `syncfire_`. */
  lemma EmulatorNamesPrefixed()
    ensures StartsWith(FirestoreEmulatorEnabled, Prefix)
    ensures StartsWith(FirestoreEmulatorHost, Prefix)
    ensures StartsWith(FirestoreEmulatorPort, Prefix)
    ensures StartsWith(MigrationComplete, Prefix)
  {
    assert FirestoreEmulatorEnabled[..9] == Prefix;
    assert FirestoreEmulatorHost[..9] == Prefix;
    assert FirestoreEmulatorPort[..9] == Prefix;
    assert MigrationComplete[..9] == Prefix;
  }

  /** Every name constant starts with `syncfire_`. */
  lemma ConstantsPrefixed()
    ensures forall c :: c in Constants() ==> StartsWith(c, Prefix)
  {
    GroupNamesPrefixed();
    SyncNamesPrefixed();
    EmulatorNamesPrefixed();
  }

  /** Every listed option is one of the declared names. */
  lemma OptionsDeclared()
    ensures forall o :: o in AllOptions() ==> o in Constants()
  {
  }
}
