/**
 * Taxonomy synchronisation: a taxonomy's terms, sorted by the configured
 * field and direction, written as one Firestore document per taxonomy.
 */
module TaxonomySync {
  import opened Php
  import opened WordPress
  import opened Firestore
  import Sorting

  // ---------------------------------------------------------------------
  // The usort comparator
  // ---------------------------------------------------------------------

  /**
   * `$term->$order_field` as `strcmp` sees it: integer properties in
   * decimal, and an undeclared property (null) as the empty string.
   */
  function OrderKey(t: Term, field: string): string {
    match field
    case "term_id" => IntToString(t.termId)
    case "name" => t.name
    case "slug" => t.slug
    case "term_group" => IntToString(t.termGroup)
    case "term_taxonomy_id" => IntToString(t.termTaxonomyId)
    case "taxonomy" => t.taxonomy
    case "description" => t.description
    case "parent" => IntToString(t.parent)
    case "count" => IntToString(t.count)
    case "filter" => t.filter
    case _ => ""
  }

  /** The comparator: `strcmp` of the keys, reversed unless the order is exactly `ASC`. */
  function TermCmp(field: string, sortOrder: string, a: Term, b: Term): int {
    if sortOrder == "ASC" then StrCmp(OrderKey(a, field), OrderKey(b, field))
    else StrCmp(OrderKey(b, field), OrderKey(a, field))
  }

  function TermLe(field: string, sortOrder: string): (Term, Term) -> bool {
    (a: Term, b: Term) => TermCmp(field, sortOrder, a, b) <= 0
  }

  /** The comparator orders every pair of terms consistently. */
  lemma TermLeTotalPreorder(field: string, sortOrder: string)
    ensures Sorting.TotalPreorder(TermLe(field, sortOrder))
  {
    var le := TermLe(field, sortOrder);
    forall x: Term, y: Term ensures le(x, y) || le(y, x) {
      StrCmpAntisymmetric(OrderKey(x, field), OrderKey(y, field));
    }
    forall x: Term, y: Term, z: Term | le(x, y) && le(y, z) ensures le(x, z) {
      if sortOrder == "ASC" {
        StrCmpTransitive(OrderKey(x, field), OrderKey(y, field), OrderKey(z, field));
      } else {
        StrCmpTransitive(OrderKey(z, field), OrderKey(y, field), OrderKey(x, field));
      }
    }
  }

  /** `usort($terms, ...)`. */
  function SortTerms(terms: seq<Term>, field: string, sortOrder: string): seq<Term> {
    Sorting.Sort(terms, TermLe(field, sortOrder))
  }

  /**
   * The sorted terms are the same terms, ascending by `strcmp` of the order
   * field when the order is `ASC` and descending for any other order.
   */
  lemma SortTermsOrder(terms: seq<Term>, field: string, sortOrder: string)
    ensures multiset(SortTerms(terms, field, sortOrder)) == multiset(terms)
    ensures var r := SortTerms(terms, field, sortOrder);
      sortOrder == "ASC" ==> forall i, j :: 0 <= i < j < |r| ==> StrCmp(OrderKey(r[i], field), OrderKey(r[j], field)) <= 0
    ensures var r := SortTerms(terms, field, sortOrder);
      sortOrder != "ASC" ==> forall i, j :: 0 <= i < j < |r| ==> StrCmp(OrderKey(r[j], field), OrderKey(r[i], field)) <= 0
  {
    TermLeTotalPreorder(field, sortOrder);
    Sorting.SortSorted(terms, TermLe(field, sortOrder));
    Sorting.SortPermutation(terms, TermLe(field, sortOrder));
  }

  // ---------------------------------------------------------------------
  // get_term_meta and prepare_term_data
  // ---------------------------------------------------------------------

  /** `$values[0]`: null when a key has no stored value. */
  function FirstValue(values: seq<Value>): Value {
    if values == [] then Null else values[0]
  }

  /** `$meta[$key] = $values[0]` for the first `n` rows of `get_term_meta`. */
  function MetaEntries(rows: seq<(string, seq<Value>)>, n: nat): seq<(Key, Value)>
    requires n <= |rows|
    decreases n
  {
    if n == 0 then []
    else Assign(MetaEntries(rows, n - 1), StrKey(rows[n - 1].0), FirstValue(rows[n - 1].1))
  }

  /**
   * The term meta holds one entry per stored key, in order, and each
   * entry is the key's first stored value.
   */
  lemma {:induction false} MetaFirstValues(rows: seq<(string, seq<Value>)>, n: nat)
    requires n <= |rows| && DistinctKeys(rows)
    ensures |MetaEntries(rows, n)| == n
    ensures forall i :: 0 <= i < n ==> MetaEntries(rows, n)[i] == (StrKey(rows[i].0), FirstValue(rows[i].1))
    decreases n
  {
    if n > 0 {
      MetaFirstValues(rows, n - 1);
      var prev := MetaEntries(rows, n - 1);
      var k := StrKey(rows[n - 1].0);
      forall j | 0 <= j < |prev| ensures prev[j].0 != k {
        assert rows[j].0 != rows[n - 1].0;
      }
      assert IndexOf(prev, k).None?;
    }
  }

  /** `get_term_meta` of the plugin: the first value of every meta key. */
  function TermMeta(site: Site, termId: int): Value {
    var rows := site.termMeta(termId);
    Arr(MetaEntries(rows, |rows|))
  }

  /** `prepare_term_data`: the seven fields of a term record. */
  function TermValue(site: Site, t: Term): Value {
    Arr([(StrKey("term_id"), Int(t.termId)), (StrKey("name"), Str(t.name)), (StrKey("slug"), Str(t.slug)),
         (StrKey("description"), Str(t.description)), (StrKey("parent"), Int(t.parent)),
         (StrKey("count"), Int(t.count)), (StrKey("meta"), TermMeta(site, t.termId))])
  }

  /** A term record encodes as a `mapValue` with exactly the seven term fields. */
  lemma TermValueEncoding(site: Site, t: Term)
    ensures PrepareValue(TermValue(site, t)).MapValue?
    ensures Keys(PrepareValue(TermValue(site, t)).fields) ==
      [StrKey("term_id"), StrKey("name"), StrKey("slug"), StrKey("description"), StrKey("parent"), StrKey("count"), StrKey("meta")]
  {
    assert TermValue(site, t).entries[0].0 == StrKey("term_id");
    MapEncoding(TermValue(site, t).entries);
  }

  /** A term without metadata gets an empty `meta` array. */
  lemma NoMetaIsEmpty(site: Site, termId: int)
    requires site.termMeta(termId) == []
    ensures TermMeta(site, termId) == Arr([])
  {
  }

  /** `get_term_meta`. */
  method GetTermMeta(site: Site, termId: int) returns (meta: Value)
    ensures meta == TermMeta(site, termId)
  {
    var rows := site.termMeta(termId);
    var entries: seq<(Key, Value)> := [];
    if rows != [] {
      var i := 0;
      while i < |rows|
        invariant 0 <= i <= |rows|
        invariant entries == MetaEntries(rows, i)
      {
        entries := Assign(entries, StrKey(rows[i].0), FirstValue(rows[i].1));
        i := i + 1;
      }
    }
    meta := Arr(entries);
  }

  /** `prepare_term_data`. */
  method PrepareTermData(site: Site, t: Term) returns (v: Value)
    ensures v == TermValue(site, t)
  {
    var meta := GetTermMeta(site, t.termId);
    v := Arr([(StrKey("term_id"), Int(t.termId)), (StrKey("name"), Str(t.name)), (StrKey("slug"), Str(t.slug)),
              (StrKey("description"), Str(t.description)), (StrKey("parent"), Int(t.parent)),
              (StrKey("count"), Int(t.count)), (StrKey("meta"), meta)]);
  }

  // ---------------------------------------------------------------------
  // The taxonomy document
  // ---------------------------------------------------------------------

  /**
   * `$taxonomy_data['terms'][] = ...` for the first `n` terms in turn:
   * each record is appended under the next integer key.
   */
  function TermsList(site: Site, terms: seq<Term>, n: nat): seq<(Key, Value)>
    requires n <= |terms|
    decreases n
  {
    if n == 0 then [] else TermsList(site, terms, n - 1) + [(IntKey(n - 1), TermValue(site, terms[n - 1]))]
  }

  /** The terms list holds the records in order, keyed 0, 1, .... */
  lemma {:induction false} TermsListElements(site: Site, terms: seq<Term>, n: nat)
    requires n <= |terms|
    ensures |TermsList(site, terms, n)| == n
    ensures forall i :: 0 <= i < n ==> TermsList(site, terms, n)[i] == (IntKey(i), TermValue(site, terms[i]))
    decreases n
  {
    if n > 0 {
      TermsListElements(site, terms, n - 1);
    }
  }

  /** `{taxonomy: slug, terms: [...]}`. */
  function TaxonomyData(site: Site, taxonomy: string, sorted: seq<Term>): seq<(Key, Value)> {
    [(StrKey("taxonomy"), Str(taxonomy)), (StrKey("terms"), Arr(TermsList(site, sorted, |sorted|)))]
  }

  /**
   * In the written document `terms` is an `arrayValue` of the term records
   * in sorted order, except that a taxonomy without terms gets an empty
   * `mapValue`, because the encoder treats the empty array as associative.
   */
  lemma TaxonomyDocumentShape(site: Site, taxonomy: string, sorted: seq<Term>)
    ensures var d := PrepareDocument(TaxonomyData(site, taxonomy, sorted));
      Keys(d.fields) == [StrKey("taxonomy"), StrKey("terms")] &&
      d.fields[0].1 == StringValue(taxonomy) &&
      (sorted == [] ==> d.fields[1].1 == MapValue([])) &&
      (sorted != [] ==>
         d.fields[1].1.ArrayValue? && |d.fields[1].1.values| == |sorted| &&
         forall i :: 0 <= i < |sorted| ==> d.fields[1].1.values[i] == PrepareValue(TermValue(site, sorted[i])))
  {
    var es := TermsList(site, sorted, |sorted|);
    var data := TaxonomyData(site, taxonomy, sorted);
    var d := PrepareDocument(data);
    PrepareDocumentFields(data);
    assert Keys(data) == [StrKey("taxonomy"), StrKey("terms")];
    assert d.fields[0].1 == PrepareValue(Str(taxonomy));
    assert d.fields[1].1 == PrepareValue(Arr(es));
    TermsListElements(site, sorted, |sorted|);
    if sorted == [] {
      EmptyArrayEncoding();
    } else {
      assert IsList(es);
      ListEncoding(es);
      forall i | 0 <= i < |sorted|
        ensures d.fields[1].1.values[i] == PrepareValue(TermValue(site, sorted[i]))
      {
        assert es[i].1 == TermValue(site, sorted[i]);
      }
    }
  }

  /** The write `sync_taxonomy` makes: none when `get_terms` fails. */
  function TaxonomyWrite(settings: Settings, site: Site, taxonomy: string): Option<Write> {
    match site.taxonomyTerms(taxonomy)
    case None => None
    case Some(terms) =>
      var sorted := SortTerms(terms, settings.taxonomyOrderField, settings.taxonomySortOrder);
      Some(Save(TaxonomyPath(taxonomy), TaxonomyData(site, taxonomy, sorted)))
  }

  /** What `sync_taxonomy` returns: false on a `get_terms` error, else the save's result. */
  predicate TaxonomySynced(settings: Settings, site: Site, taxonomy: string, e: Env) {
    match TaxonomyWrite(settings, site, taxonomy)
    case None => false
    case Some(w) => WriteAccepted(e, w)
  }

  function TaxonomyRequests(settings: Settings, site: Site, taxonomy: string, e: Env): seq<Request> {
    match TaxonomyWrite(settings, site, taxonomy)
    case None => []
    case Some(w) => WriteRequests(e, w)
  }

  /** A `get_terms` error means failure with nothing written. */
  lemma TermsErrorFails(settings: Settings, site: Site, taxonomy: string, e: Env)
    requires site.taxonomyTerms(taxonomy).None?
    ensures !TaxonomySynced(settings, site, taxonomy, e) && TaxonomyRequests(settings, site, taxonomy, e) == []
  {
  }

  /** The requests `sync_taxonomy` sends for each of the first `n` taxonomies. */
  function TaxonomiesRequests(settings: Settings, site: Site, taxonomies: seq<string>, n: nat, e: Env): seq<Request>
    requires n <= |taxonomies|
    decreases n
  {
    if n == 0 then []
    else TaxonomiesRequests(settings, site, taxonomies, n - 1, e) + TaxonomyRequests(settings, site, taxonomies[n - 1], e)
  }

  /** The conjunction of the results of `sync_taxonomy` over the first `n` taxonomies. */
  predicate AllTaxonomiesSynced(settings: Settings, site: Site, taxonomies: seq<string>, n: nat, e: Env)
    requires n <= |taxonomies|
    decreases n
  {
    n == 0 || (AllTaxonomiesSynced(settings, site, taxonomies, n - 1, e) && TaxonomySynced(settings, site, taxonomies[n - 1], e))
  }

  /** Syncing all taxonomies succeeds exactly when each one's sync succeeds. */
  lemma {:induction false} AllTaxonomiesSyncedEvery(settings: Settings, site: Site, taxonomies: seq<string>, n: nat, e: Env)
    requires n <= |taxonomies|
    ensures AllTaxonomiesSynced(settings, site, taxonomies, n, e) <==>
      forall i :: 0 <= i < n ==> TaxonomySynced(settings, site, taxonomies[i], e)
    decreases n
  {
    if n > 0 {
      AllTaxonomiesSyncedEvery(settings, site, taxonomies, n - 1, e);
    }
  }

  /** One more taxonomy: its requests follow the earlier ones, its result joins theirs. */
  lemma TaxonomiesStep(settings: Settings, site: Site, taxonomies: seq<string>, i: nat, e: Env, sent: seq<Request>)
    requires i < |taxonomies|
    ensures sent + TaxonomiesRequests(settings, site, taxonomies, i + 1, e) ==
      (sent + TaxonomiesRequests(settings, site, taxonomies, i, e)) + TaxonomyRequests(settings, site, taxonomies[i], e)
    ensures AllTaxonomiesSynced(settings, site, taxonomies, i + 1, e) ==
      (AllTaxonomiesSynced(settings, site, taxonomies, i, e) && TaxonomySynced(settings, site, taxonomies[i], e))
  {
    AppendAssoc(sent, TaxonomiesRequests(settings, site, taxonomies, i, e), TaxonomyRequests(settings, site, taxonomies[i], e));
  }

  lemma AppendAssoc<T>(a: seq<T>, b: seq<T>, c: seq<T>)
    ensures (a + b) + c == a + (b + c)
  {
  }

  /** `SyncFire_Taxonomy_Sync`. */
  class TaxonomySync {
    const firestore: Client

    /** `__construct`: a client on the option table `values`. */
    constructor (values: map<string, Value>, isJson: string -> bool, transients: Transients, network: Network)
      ensures firestore.config == ConfigOf(values, isJson) && firestore.transients == transients && firestore.network == network
    {
      firestore := new Client(values, isJson, transients, network);
    }

    /**
     * The object built by `__construct` when the option table it would
     * read is the one `client` was built from: `client` holds exactly the
     * configuration a second client would read, on the same transients
     * and network.
     */
    constructor OnClient(client: Client)
      ensures firestore == client
    {
      firestore := client;
    }

    /** `sync_taxonomy`. */
    method SyncTaxonomy(settings: Settings, site: Site, taxonomy: string, now: int) returns (ok: bool)
      modifies firestore.transients, firestore.network
      ensures ok == TaxonomySynced(settings, site, taxonomy, old(firestore.EnvAt(now)))
      ensures firestore.network.sent == old(firestore.network.sent) + TaxonomyRequests(settings, site, taxonomy, old(firestore.EnvAt(now)))
      ensures firestore.EnvAt(now) == old(firestore.EnvAt(now))
    {
      var terms := site.taxonomyTerms(taxonomy);
      if terms.None? {
        return false;
      }
      var sorted := SortTerms(terms.value, settings.taxonomyOrderField, settings.taxonomySortOrder);
      var list: seq<(Key, Value)> := [];
      var i := 0;
      while i < |sorted|
        invariant 0 <= i <= |sorted|
        invariant list == TermsList(site, sorted, i)
        modifies {}
      {
        var term := PrepareTermData(site, sorted[i]);
        list := list + [(IntKey(i), term)];
        i := i + 1;
      }
      var data := [(StrKey("taxonomy"), Str(taxonomy)), (StrKey("terms"), Arr(list))];
      assert TaxonomyWrite(settings, site, taxonomy) == Some(Save(TaxonomyPath(taxonomy), data));
      ok := firestore.SaveTaxonomy(taxonomy, data, now);
    }

    /** `sync_term`, the term create and edit hooks: resync a configured taxonomy. */
    method SyncTerm(settings: Settings, site: Site, termId: int, ttId: int, taxonomy: string, now: int)
      modifies firestore.transients, firestore.network
      ensures firestore.network.sent == old(firestore.network.sent) +
        if taxonomy in settings.taxonomiesToSync then TaxonomyRequests(settings, site, taxonomy, old(firestore.EnvAt(now))) else []
      ensures firestore.EnvAt(now) == old(firestore.EnvAt(now))
    {
      if taxonomy !in settings.taxonomiesToSync {
        return;
      }
      var _ := SyncTaxonomy(settings, site, taxonomy, now);
    }

    /** `delete_term`, the term delete hook: resync a configured taxonomy. */
    method DeleteTerm(settings: Settings, site: Site, termId: int, ttId: int, taxonomy: string, now: int)
      modifies firestore.transients, firestore.network
      ensures firestore.network.sent == old(firestore.network.sent) +
        if taxonomy in settings.taxonomiesToSync then TaxonomyRequests(settings, site, taxonomy, old(firestore.EnvAt(now))) else []
      ensures firestore.EnvAt(now) == old(firestore.EnvAt(now))
    {
      if taxonomy !in settings.taxonomiesToSync {
        return;
      }
      var _ := SyncTaxonomy(settings, site, taxonomy, now);
    }

    /** `sync_all_taxonomies`: every configured taxonomy, all attempted. */
    method SyncAllTaxonomies(settings: Settings, site: Site, now: int) returns (ok: bool)
      modifies firestore.transients, firestore.network
      ensures ok == AllTaxonomiesSynced(settings, site, settings.taxonomiesToSync, |settings.taxonomiesToSync|, old(firestore.EnvAt(now)))
      ensures firestore.network.sent == old(firestore.network.sent) +
        TaxonomiesRequests(settings, site, settings.taxonomiesToSync, |settings.taxonomiesToSync|, old(firestore.EnvAt(now)))
      ensures firestore.EnvAt(now) == old(firestore.EnvAt(now))
    {
      var taxonomies := settings.taxonomiesToSync;
      if taxonomies == [] {
        return true;
      }
      ghost var e := firestore.EnvAt(now);
      ghost var sent := firestore.network.sent;
      ok := true;
      var i := 0;
      while i < |taxonomies|
        invariant 0 <= i <= |taxonomies|
        invariant firestore.EnvAt(now) == e
        invariant firestore.network.sent == sent + TaxonomiesRequests(settings, site, taxonomies, i, e)
        invariant ok == AllTaxonomiesSynced(settings, site, taxonomies, i, e)
      {
        var result := SyncTaxonomy(settings, site, taxonomies[i], now);
        TaxonomiesStep(settings, site, taxonomies, i, e, sent);
        ok := ok && result;
        i := i + 1;
      }
    }
  }
}
