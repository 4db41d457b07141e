// The training server's store: consents, admission receipts, samples, lineage,
// tombstones and deliveries.
module Server {
  import opened Options
  import opened Lineage

  const MAX_ARCHIVE_BYTES: nat := 33 * 1024 * 1024
  const SAMPLE_RETENTION_SECONDS: nat := 30 * 24 * 3600

  datatype ServerConsent = ServerConsent(current: bool, personalization: bool, expiresAt: int, withdrawn: bool)
  {
    predicate Active(now: int) { current && personalization && expiresAt > now && !withdrawn }
  }

  datatype StoredReceipt = StoredReceipt(receiptId: string, accepted: bool, reason: string, sampleId: string)

  datatype Receipt = Receipt(receiptId: string, accepted: bool, reason: string, duplicate: bool)

  datatype Sample = Sample(tenant: string, consentId: string, size: nat, expiresAt: int)

  datatype Kind = SampleNode | DatasetNode | JobNode | BuildNode | DeliveryNode

  datatype Node = Node(kind: Kind, tenant: string, deleted: bool)

  datatype Delivery = Delivery(tenant: string, revoked: bool)

  datatype Tenant = Tenant(id: string, maxSamples: nat, maxStorageBytes: nat)

  // An uploaded archive: its bytes as measured, and what decoding and package
  // validation make of them.
  datatype Content = Malformed(code: string) | Package(sampleId: string, consentId: string)

  datatype Archive = Archive(size: nat, digest: string, content: Content)

  type Key = (string, string)

  datatype Store = Store(
    consents: map<Key, ServerConsent>,
    receipts: map<Key, StoredReceipt>,
    samples: map<string, Sample>,
    tombstones: set<string>,
    nodes: map<string, Node>,
    edges: Edges,
    deliveries: map<string, Delivery>,
    objects: set<Key>)

  const EMPTY_STORE := Store(map[], map[], map[], {}, map[], {}, map[], {})

  // ----- admission ----------------------------------------------------------------------

  predicate KeyCharacter(c: char) {
    'a' <= c <= 'z' || 'A' <= c <= 'Z' || '0' <= c <= '9' || c == '-' || c == '_'
  }

  predicate ValidKey(key: string) {
    8 <= |key| <= 128 && forall k :: 0 <= k < |key| ==> KeyCharacter(key[k])
  }

  function ToReceipt(stored: StoredReceipt, duplicate: bool): Receipt {
    Receipt(stored.receiptId, stored.accepted, stored.reason, duplicate)
  }

  function IdsOf(s: Store, tenant: string): set<string> {
    set id | id in s.samples && s.samples[id].tenant == tenant
  }

  ghost function BytesOf(samples: map<string, Sample>, ids: set<string>): nat
    requires ids <= samples.Keys
  {
    if ids == {} then 0
    else
      var id :| id in ids;
      samples[id].size + BytesOf(samples, ids - {id})
  }

  predicate ConsentActive(s: Store, tenant: string, consentId: string, now: int) {
    (tenant, consentId) in s.consents && s.consents[(tenant, consentId)].Active(now)
  }

  // Why a new archive is refused, in the order of the checks.
  ghost function RefusalOf(s: Store, tenant: Tenant, declared: string, archive: Archive, now: int): Option<string> {
    if archive.size > MAX_ARCHIVE_BYTES then Some("package_too_large")
    else if archive.digest != declared then Some("declared_checksum_mismatch")
    else
      match archive.content
      case Malformed(code) => Some("invalid_package:" + code)
      case Package(sampleId, consentId) =>
        if !ConsentActive(s, tenant.id, consentId, now) then Some("consent_not_active")
        else if sampleId in s.tombstones then Some("sample_previously_deleted")
        else if sampleId in s.samples then Some("sample_id_conflict")
        else if |IdsOf(s, tenant.id)| >= tenant.maxSamples
             || BytesOf(s.samples, IdsOf(s, tenant.id)) + archive.size > tenant.maxStorageBytes then
          Some("tenant_storage_cap_reached")
        else None
  }

  function RecordRefusal(s: Store, key: Key, reason: string, receiptId: string): (Store, Receipt) {
    var stored := StoredReceipt(receiptId, false, reason, "");
    var receipts := if key in s.receipts then s.receipts else s.receipts[key := stored];
    (s.(receipts := receipts), ToReceipt(receipts[key], false))
  }

  // The sample, its receipt and its lineage node appear together, or, when a
  // node of that name exists, not at all.
  function AdmitSample(s: Store, key: Key, sampleId: string, sample: Sample, receiptId: string): (Store, Option<Receipt>) {
    if sampleId in s.nodes || key in s.receipts then (s, None)
    else
      var stored := StoredReceipt(receiptId, true, "", sampleId);
      (s.(samples := s.samples[sampleId := sample], receipts := s.receipts[key := stored],
          nodes := s.nodes[sampleId := Node(SampleNode, key.0, false)], objects := s.objects + {(key.0, sampleId)}),
       Some(ToReceipt(stored, false)))
  }

  // `None` is a server error. `receiptId` is random.
  ghost function Admit(
    s: Store, tenant: Tenant, key: string, declared: string, archive: Archive, receiptId: string, now: int)
    : (Store, Option<Receipt>)
  {
    if !ValidKey(key) then (s, Some(Receipt("", false, "invalid_idempotency_key", false)))
    else if (tenant.id, key) in s.receipts then (s, Some(ToReceipt(s.receipts[(tenant.id, key)], true)))
    else
      var refusal := RefusalOf(s, tenant, declared, archive, now);
      if refusal.Some? then
        var (after, receipt) := RecordRefusal(s, (tenant.id, key), refusal.value, receiptId);
        (after, Some(receipt))
      else
        var sample := Sample(tenant.id, archive.content.consentId, archive.size, now + SAMPLE_RETENTION_SECONDS);
        AdmitSample(s, (tenant.id, key), archive.content.sampleId, sample, receiptId)
  }

  // ----- deletion ------------------------------------------------------------------------

  function MarkDeleted(nodes: map<string, Node>, gone: set<string>): map<string, Node> {
    map n | n in nodes :: if n in gone then nodes[n].(deleted := true) else nodes[n]
  }

  function Revoked(deliveries: map<string, Delivery>, gone: set<string>): map<string, Delivery> {
    map d | d in deliveries :: if d in gone then deliveries[d].(revoked := true) else deliveries[d]
  }

  function Owned(s: Store, tenant: string, ids: set<string>): set<string> {
    set id | id in ids && id in s.samples && s.samples[id].tenant == tenant
  }

  // The samples go, everything derived from them is revoked, and tombstones
  // stay; `derived` is what the lineage graph derives from them.
  function Remove(s: Store, tenant: string, ids: set<string>, derived: set<string>): Store {
    s.(samples := s.samples - Owned(s, tenant, ids),
       tombstones := s.tombstones + ids,
       nodes := MarkDeleted(s.nodes, ids + derived),
       deliveries := Revoked(s.deliveries, derived),
       objects := s.objects - set id | id in ids :: (tenant, id))
  }

  ghost function DeleteSamples(s: Store, tenant: string, ids: set<string>): Store {
    Remove(s, tenant, ids, DerivedFrom(s.edges, ids))
  }

  function DeliveriesOf(s: Store, tenant: string): set<string> {
    set d | d in s.deliveries && s.deliveries[d].tenant == tenant
  }

  ghost function DeleteEverything(s: Store, tenant: string): Store {
    var after := DeleteSamples(s, tenant, IdsOf(s, tenant));
    after.(deliveries := Revoked(after.deliveries, DeliveriesOf(after, tenant)),
           consents := map k | k in s.consents ::
             if k.0 == tenant then s.consents[k].(withdrawn := true) else s.consents[k])
  }

  function Expired(s: Store, now: int): set<string> {
    set id | id in s.samples && s.samples[id].expiresAt <= now
  }

  // Stored objects are kept for existing samples only; a backup may restore others.
  function WithoutStrays(s: Store): Store {
    s.(objects := set o | o in s.objects && o.1 in s.samples)
  }

  ghost function Sweep(s: Store, now: int): Store {
    var ids := Expired(s, now);
    var derived := DerivedFrom(s.edges, ids);
    WithoutStrays(
      s.(samples := s.samples - ids, tombstones := s.tombstones + ids,
         nodes := MarkDeleted(s.nodes, ids + derived), deliveries := Revoked(s.deliveries, derived)))
  }

  class ServerStore {
    var consents: map<Key, ServerConsent>
    var receipts: map<Key, StoredReceipt>
    var samples: map<string, Sample>
    var tombstones: set<string>
    var nodes: map<string, Node>
    var edges: Edges
    var deliveries: map<string, Delivery>
    var objects: set<Key>

    function View(): Store
      reads this
    {
      Store(consents, receipts, samples, tombstones, nodes, edges, deliveries, objects)
    }

    constructor ()
      ensures View() == EMPTY_STORE
    {
      consents, receipts, samples, tombstones := map[], map[], map[], {};
      nodes, edges, deliveries, objects := map[], {}, map[], {};
    }

    method Usage(tenant: string) returns (count: nat, bytes: nat)
      ensures count == |IdsOf(View(), tenant)| && bytes == BytesOf(samples, IdsOf(View(), tenant))
    {
      var ids := set id | id in samples && samples[id].tenant == tenant;
      count, bytes := |ids|, 0;
      assert ids == IdsOf(View(), tenant);
      var open := ids;
      while open != {}
        invariant open <= ids <= samples.Keys
        invariant bytes + BytesOf(samples, open) == BytesOf(samples, ids)
        decreases |open|
      {
        var id :| id in open;
        BytesWithout(samples, open, id);
        bytes := bytes + samples[id].size;
        open := open - {id};
      }
    }

    method AdmitArchive(tenant: Tenant, key: string, declared: string, archive: Archive, receiptId: string, now: int)
      returns (receipt: Option<Receipt>)
      modifies this
      ensures (View(), receipt) == Admit(old(View()), tenant, key, declared, archive, receiptId, now)
    {
      if !ValidKey(key) {
        return Some(Receipt("", false, "invalid_idempotency_key", false));
      }
      // Keys are looked up among this tenant's receipts only.
      if (tenant.id, key) in receipts {
        return Some(ToReceipt(receipts[(tenant.id, key)], true));
      }
      var refusal := Screen(tenant, declared, archive, now);
      if refusal.Some? {
        var stored := StoredReceipt(receiptId, false, refusal.value, "");
        receipts := receipts[(tenant.id, key) := stored];
        return Some(ToReceipt(stored, false));
      }
      var sampleId := archive.content.sampleId;
      if sampleId in nodes {
        return None;
      }
      var stored := StoredReceipt(receiptId, true, "", sampleId);
      samples := samples[sampleId := Sample(tenant.id, archive.content.consentId, archive.size, now + SAMPLE_RETENTION_SECONDS)];
      receipts := receipts[(tenant.id, key) := stored];
      nodes := nodes[sampleId := Node(SampleNode, tenant.id, false)];
      objects := objects + {(tenant.id, sampleId)};
      receipt := Some(ToReceipt(stored, false));
    }

    method Screen(tenant: Tenant, declared: string, archive: Archive, now: int) returns (refusal: Option<string>)
      ensures refusal == RefusalOf(View(), tenant, declared, archive, now)
    {
      if archive.size > MAX_ARCHIVE_BYTES {
        return Some("package_too_large");
      }
      if archive.digest != declared {
        return Some("declared_checksum_mismatch");
      }
      if archive.content.Malformed? {
        return Some("invalid_package:" + archive.content.code);
      }
      var sampleId, consentId := archive.content.sampleId, archive.content.consentId;
      if (tenant.id, consentId) !in consents || !consents[(tenant.id, consentId)].Active(now) {
        return Some("consent_not_active");
      }
      if sampleId in tombstones {
        // The tombstone outlives the sample, so a deleted one cannot come back.
        return Some("sample_previously_deleted");
      }
      if sampleId in samples {
        return Some("sample_id_conflict");
      }
      var count, bytes := Usage(tenant.id);
      if count >= tenant.maxSamples || bytes + archive.size > tenant.maxStorageBytes {
        return Some("tenant_storage_cap_reached");
      }
      refusal := None;
    }

    method Delete(tenant: string, ids: seq<string>) returns (removed: nat)
      modifies this`samples, this`tombstones, this`nodes, this`deliveries, this`objects
      ensures View() == DeleteSamples(old(View()), tenant, set id | id in ids)
      ensures removed == |Owned(old(View()), tenant, set id | id in ids)|
    {
      var derived := Descendants(edges, ids);
      removed := RemoveRows(tenant, ids);
      nodes := MarkDeleted(nodes, derived);
      deliveries := Revoked(deliveries, derived);
      ghost var gone := set id | id in ids;
      assert nodes == MarkDeleted(old(nodes), gone + derived);
      assert objects == old(objects) - set id | id in gone :: (tenant, id);
    }

    // One row at a time: the sample, its tombstone, its node, its object.
    method RemoveRows(tenant: string, ids: seq<string>) returns (removed: nat)
      modifies this`samples, this`tombstones, this`nodes, this`objects
      ensures removed == |Owned(old(View()), tenant, set id | id in ids)|
      ensures samples == old(samples) - Owned(old(View()), tenant, set id | id in ids)
      ensures tombstones == old(tombstones) + set id | id in ids
      ensures nodes == MarkDeleted(old(nodes), set id | id in ids)
      ensures objects == old(objects) - set id | id in ids :: (tenant, id)
    {
      removed := 0;
      ghost var before := View();
      assert RowsGone(before, tenant, Taken(ids, 0), 0, samples, tombstones, nodes, objects);
      for k := 0 to |ids|
        invariant RowsGone(before, tenant, Taken(ids, k), removed, samples, tombstones, nodes, objects)
      {
        TakeOne(ids, k);
        OneMoreRow(before, tenant, Taken(ids, k), removed, samples, tombstones, nodes, objects, ids[k]);
        if ids[k] in samples && samples[ids[k]].tenant == tenant {
          samples := samples - {ids[k]};
          removed := removed + 1;
        }
        tombstones := tombstones + {ids[k]};
        nodes := MarkDeleted(nodes, {ids[k]});
        objects := objects - {(tenant, ids[k])};
      }
      assert Taken(ids, |ids|) == set id | id in ids;
    }

    method DeleteAll(tenant: string) returns (removed: nat)
      modifies this
      ensures View() == DeleteEverything(old(View()), tenant)
    {
      var ids := SequenceOf(set id | id in samples && samples[id].tenant == tenant);
      ghost var before := View();
      assert (set id | id in ids) == IdsOf(before, tenant);
      removed := Delete(tenant, ids);
      deliveries := Revoked(deliveries, set d | d in deliveries && deliveries[d].tenant == tenant);
      consents := map k | k in consents :: if k.0 == tenant then consents[k].(withdrawn := true) else consents[k];
    }

    method SweepExpired(now: int)
      modifies this
      ensures View() == Sweep(old(View()), now)
    {
      ghost var before := View();
      var expired := SequenceOf(set id | id in samples && samples[id].expiresAt <= now);
      assert (set id | id in expired) == Expired(before, now);
      SweepRows(expired);
      SweepEnds(before, View(), now);
      objects := set o | o in objects && o.1 in samples;
    }

    method SweepRows(expired: seq<string>)
      requires Distinct(expired) && (set id | id in expired) <= samples.Keys
      modifies this`samples, this`tombstones, this`nodes, this`deliveries, this`objects
      ensures SweptUpTo(old(View()), View(), set id | id in expired)
    {
      ghost var before := View();
      assert Taken(expired, 0) == {};
      SweepBegins(before);
      for k := 0 to |expired|
        invariant SweptUpTo(before, View(), Taken(expired, k))
      {
        TakeOne(expired, k);
        NotTaken(expired, k);
        assert expired[k] in set id | id in expired;
        StillThere(before, View(), Taken(expired, k), expired[k]);
        SweepRow(before, Taken(expired, k), expired[k]);
      }
      assert Taken(expired, |expired|) == set id | id in expired;
    }

    method SweepRow(ghost before: Store, ghost done: set<string>, id: string)
      requires SweptUpTo(before, View(), done) && id in samples
      modifies this`samples, this`tombstones, this`nodes, this`deliveries, this`objects
      ensures SweptUpTo(before, View(), done + {id})
    {
      SweepOne(before, View(), done, id);
      assert (set x | x in [id]) == {id};
      var removed := Delete(samples[id].tenant, [id]);
    }
  }

  // `before` with the rows of `ids` gone.
  ghost predicate RowsGone(
    before: Store, tenant: string, ids: set<string>, removed: nat, samples: map<string, Sample>,
    tombstones: set<string>, nodes: map<string, Node>, objects: set<Key>)
  {
    && removed == |Owned(before, tenant, ids)|
    && samples == before.samples - Owned(before, tenant, ids)
    && tombstones == before.tombstones + ids
    && nodes == MarkDeleted(before.nodes, ids)
    && objects == before.objects - set id | id in ids :: (tenant, id)
  }

  lemma OneMoreRow(
    before: Store, tenant: string, ids: set<string>, removed: nat, samples: map<string, Sample>,
    tombstones: set<string>, nodes: map<string, Node>, objects: set<Key>, id: string)
    requires RowsGone(before, tenant, ids, removed, samples, tombstones, nodes, objects)
    ensures var mine := id in samples && samples[id].tenant == tenant;
      RowsGone(before, tenant, ids + {id}, if mine then removed + 1 else removed, if mine then samples - {id} else samples,
               tombstones + {id}, MarkDeleted(nodes, {id}), objects - {(tenant, id)})
  {
    var owned, mine := Owned(before, tenant, ids), id in samples && samples[id].tenant == tenant;
    assert Owned(before, tenant, ids + {id}) == if mine then owned + {id} else owned;
    assert MarkDeleted(before.nodes, ids + {id}) == MarkDeleted(nodes, {id});
  }

  lemma StillThere(before: Store, s: Store, ids: set<string>, id: string)
    requires SweptUpTo(before, s, ids) && id in before.samples && id !in ids
    ensures id in s.samples
  {
  }

  lemma SweepBegins(s: Store)
    ensures SweptUpTo(s, s, {})
  {
    assert DerivedFrom(s.edges, {}) == {};
    assert MarkDeleted(s.nodes, {}) == s.nodes && Revoked(s.deliveries, {}) == s.deliveries;
  }

  lemma SweepEnds(before: Store, s: Store, now: int)
    requires SweptUpTo(before, s, Expired(before, now))
    ensures WithoutStrays(s) == Sweep(before, now)
  {
    var strays := set o | o in s.objects && o.1 in s.samples;
    assert strays == set o | o in before.objects && o.1 in s.samples;
  }

  function Taken(ids: seq<string>, n: nat): set<string>
    requires n <= |ids|
  {
    set k | 0 <= k < n :: ids[k]
  }

  lemma TakeOne(ids: seq<string>, k: nat)
    requires k < |ids|
    ensures Taken(ids, k + 1) == Taken(ids, k) + {ids[k]}
  {
  }

  ghost predicate Distinct(ids: seq<string>) {
    forall i, j :: 0 <= i < j < |ids| ==> ids[i] != ids[j]
  }

  lemma NotTaken(ids: seq<string>, k: nat)
    requires Distinct(ids) && k < |ids|
    ensures ids[k] !in Taken(ids, k)
  {
  }

  method SequenceOf(ids: set<string>) returns (order: seq<string>)
    ensures (set id | id in order) == ids && Distinct(order)
  {
    order := [];
    var open := ids;
    while open != {}
      invariant open <= ids && (forall id :: id in order <==> id in ids && id !in open)
      invariant Distinct(order)
      decreases |open|
    {
      var id :| id in open;
      order, open := order + [id], open - {id};
    }
  }

  lemma {:induction false} BytesWithout(samples: map<string, Sample>, ids: set<string>, id: string)
    requires ids <= samples.Keys && id in ids
    ensures BytesOf(samples, ids) == samples[id].size + BytesOf(samples, ids - {id})
    decreases |ids|
  {
    var first :| first in ids && BytesOf(samples, ids) == samples[first].size + BytesOf(samples, ids - {first});
    if first != id {
      BytesWithout(samples, ids - {first}, id);
      BytesWithout(samples, ids - {id}, first);
      assert ids - {first} - {id} == ids - {id} - {first};
    }
  }

  // `s` is `before` with the samples `ids` swept, up to stray objects.
  ghost predicate SweptUpTo(before: Store, s: Store, ids: set<string>) {
    var derived := DerivedFrom(before.edges, ids);
    && s.edges == before.edges && s.consents == before.consents && s.receipts == before.receipts
    && s.samples == before.samples - ids && s.tombstones == before.tombstones + ids
    && s.nodes == MarkDeleted(before.nodes, ids + derived) && s.deliveries == Revoked(before.deliveries, derived)
    && s.objects <= before.objects && (forall o :: o in before.objects && o.1 in s.samples ==> o in s.objects)
  }

  lemma SweepOne(before: Store, s: Store, ids: set<string>, id: string)
    requires SweptUpTo(before, s, ids) && id in s.samples
    ensures SweptUpTo(before, DeleteSamples(s, s.samples[id].tenant, {id}), ids + {id})
  {
    var derived, more := DerivedFrom(before.edges, ids), DerivedFrom(before.edges, {id});
    assert DerivedFrom(before.edges, ids + {id}) == derived + more;
    assert Owned(s, s.samples[id].tenant, {id}) == {id};
    MarkTwice(before, ids + derived, {id} + more, derived, more);
    assert (ids + derived) + ({id} + more) == (ids + {id}) + (derived + more);
    assert s.samples - {id} == before.samples - (ids + {id});
  }

  lemma MarkTwice(s: Store, a: set<string>, b: set<string>, c: set<string>, d: set<string>)
    ensures MarkDeleted(MarkDeleted(s.nodes, a), b) == MarkDeleted(s.nodes, a + b)
    ensures Revoked(Revoked(s.deliveries, c), d) == Revoked(s.deliveries, c + d)
  {
  }
}
