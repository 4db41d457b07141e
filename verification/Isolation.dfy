// One tenant's operations never reach what another tenant has on the server.
module Isolation {
  import opened Lineage
  import opened Server
  import opened Retention

  // ----- whose is what ---------------------------------------------------------------

  ghost predicate SameSamples(a: map<string, Sample>, b: map<string, Sample>, tenant: string) {
    forall x :: (x in a && a[x].tenant == tenant) || (x in b && b[x].tenant == tenant) ==> x in a && x in b && a[x] == b[x]
  }

  ghost predicate SameDeliveries(a: map<string, Delivery>, b: map<string, Delivery>, tenant: string) {
    forall x :: (x in a && a[x].tenant == tenant) || (x in b && b[x].tenant == tenant) ==> x in a && x in b && a[x] == b[x]
  }

  ghost predicate SameNodes(a: map<string, Node>, b: map<string, Node>, tenant: string) {
    forall x :: (x in a && a[x].tenant == tenant) || (x in b && b[x].tenant == tenant) ==> x in a && x in b && a[x] == b[x]
  }

  ghost predicate SameRows<V(!new)>(a: map<Key, V>, b: map<Key, V>, tenant: string) {
    forall k: Key :: k.0 == tenant && (k in a || k in b) ==> k in a && k in b && a[k] == b[k]
  }

  ghost predicate SameObjects(a: set<Key>, b: set<Key>, tenant: string) {
    forall o: Key :: o.0 == tenant ==> (o in a <==> o in b)
  }

  // Everything the server holds for one tenant is the same in `a` and `b`.
  ghost predicate SameShare(a: Store, b: Store, tenant: string) {
    && SameSamples(a.samples, b.samples, tenant) && SameDeliveries(a.deliveries, b.deliveries, tenant)
    && SameNodes(a.nodes, b.nodes, tenant) && SameRows(a.receipts, b.receipts, tenant)
    && SameRows(a.consents, b.consents, tenant) && SameObjects(a.objects, b.objects, tenant)
  }

  // Samples and deliveries belong to the tenant of their nodes.
  ghost predicate Owners(s: Store) {
    && (forall x :: x in s.samples ==> x in s.nodes && s.nodes[x].tenant == s.samples[x].tenant && !s.nodes[x].deleted)
    && (forall d :: d in s.deliveries ==> d in s.nodes && s.nodes[d].tenant == s.deliveries[d].tenant)
  }

  // Edges stay within a tenant, and what derives from a deleted node is deleted.
  ghost predicate EdgesWithin(edges: Edges, nodes: map<string, Node>) {
    forall e :: e in edges ==>
      && e.0 in nodes && e.1 in nodes && nodes[e.0].tenant == nodes[e.1].tenant
      && (nodes[e.0].deleted ==> nodes[e.1].deleted)
  }

  // What derives from a deleted node is no longer delivered.
  ghost predicate RevokedBelow(s: Store) {
    forall n, d :: n in s.nodes && s.nodes[n].deleted && d in s.deliveries && Reaches(s.edges, n, d) ==>
      s.deliveries[d].revoked
  }

  ghost predicate Apart(s: Store) {
    Consistent(s) && Owners(s) && EdgesWithin(s.edges, s.nodes) && RevokedBelow(s)
  }

  lemma {:induction false} PathWithin(edges: Edges, nodes: map<string, Node>, path: seq<string>)
    requires EdgesWithin(edges, nodes) && IsPath(edges, path)
    ensures var a, b := path[0], path[|path| - 1];
      a in nodes && b in nodes && nodes[a].tenant == nodes[b].tenant && (nodes[a].deleted ==> nodes[b].deleted)
    decreases |path|
  {
    assert (path[0], path[1]) in edges;
    if |path| > 2 {
      PathWithin(edges, nodes, path[1..]);
    }
  }

  lemma ReachWithin(edges: Edges, nodes: map<string, Node>, a: string, b: string)
    requires EdgesWithin(edges, nodes) && Reaches(edges, a, b)
    ensures a in nodes && b in nodes && nodes[a].tenant == nodes[b].tenant && (nodes[a].deleted ==> nodes[b].deleted)
  {
    var path :| PathBetween(edges, path, a, b);
    PathWithin(edges, nodes, path);
  }

  // ----- deletion --------------------------------------------------------------------------

  // No identifier names a live node of another tenant.
  ghost predicate NamesOwn(s: Store, tenant: string, ids: set<string>) {
    forall id :: id in ids && id in s.nodes && s.nodes[id].tenant != tenant ==> s.nodes[id].deleted
  }

  lemma GoneIsOwn(s: Store, tenant: string, ids: set<string>, n: string)
    requires Apart(s) && NamesOwn(s, tenant, ids)
    requires n in s.nodes && s.nodes[n].tenant != tenant && (n in ids || n in DerivedFrom(s.edges, ids))
    ensures s.nodes[n].deleted
  {
    if n !in ids {
      var root :| root in ids && Reaches(s.edges, root, n);
      ReachWithin(s.edges, s.nodes, root, n);
    }
  }

  // A deletion leaves every other tenant's share alone if and only if it names
  // no live node of another tenant.
  lemma DeletionIsolated(s: Store, tenant: string, ids: set<string>)
    requires Apart(s)
    ensures (forall other :: other != tenant ==> SameShare(s, DeleteSamples(s, tenant, ids), other))
      <==> NamesOwn(s, tenant, ids)
  {
    var after := DeleteSamples(s, tenant, ids);
    if NamesOwn(s, tenant, ids) {
      forall other | other != tenant ensures SameShare(s, after, other) {
        OwnDeletionIsolated(s, tenant, ids, other);
      }
    } else {
      var id :| id in ids && id in s.nodes && s.nodes[id].tenant != tenant && !s.nodes[id].deleted;
      assert after.nodes[id].deleted && !SameNodes(s.nodes, after.nodes, s.nodes[id].tenant);
      assert !SameShare(s, after, s.nodes[id].tenant);
    }
  }

  lemma OwnDeletionIsolated(s: Store, tenant: string, ids: set<string>, other: string)
    requires Apart(s) && NamesOwn(s, tenant, ids) && other != tenant
    ensures SameShare(s, DeleteSamples(s, tenant, ids), other)
  {
    var after := DeleteSamples(s, tenant, ids);
    forall n | n in s.nodes && s.nodes[n].tenant == other ensures after.nodes[n] == s.nodes[n] {
      if n in ids || n in DerivedFrom(s.edges, ids) {
        GoneIsOwn(s, tenant, ids, n);
      }
    }
    forall d | d in s.deliveries && s.deliveries[d].tenant == other ensures after.deliveries[d] == s.deliveries[d] {
      if d in DerivedFrom(s.edges, ids) {
        DerivedIsRevoked(s, tenant, ids, d);
      }
    }
    assert SameNodes(s.nodes, after.nodes, other) && SameDeliveries(s.deliveries, after.deliveries, other);
    assert SameSamples(s.samples, after.samples, other) && SameObjects(s.objects, after.objects, other);
  }

  lemma DerivedIsRevoked(s: Store, tenant: string, ids: set<string>, d: string)
    requires Apart(s) && NamesOwn(s, tenant, ids)
    requires d in s.deliveries && s.deliveries[d].tenant != tenant && d in DerivedFrom(s.edges, ids)
    ensures s.deliveries[d].revoked
  {
    var root :| root in ids && Reaches(s.edges, root, d);
    ReachWithin(s.edges, s.nodes, root, d);
  }

  // ----- every operation ------------------------------------------------------------------------

  // The tenant on whose behalf the server acts; sweeps and restored backups
  // concern all.
  predicate ActsFor(op: Op, tenant: string) {
    match op
    case RecordConsent(grant, _) => grant.0 == tenant
    case WithdrawConsent(owner, _) => owner == tenant
    case Upload(uploader, _, _, _, _, _) => uploader.id == tenant
    case Delete(owner, _) => owner == tenant
    case DeleteAll(owner) => owner == tenant
    case Train(owner, _, _, _) => owner == tenant
    case SweepAt(_) | RestoreBackup(_) => false
  }

  ghost predicate Guarded(s: Store, op: Op) {
    op.Delete? ==> NamesOwn(s, op.owner, op.ids)
  }

  lemma OwnSamplesAreOwn(s: Store, tenant: string, ids: set<string>)
    requires Apart(s) && forall id :: id in ids ==> id in s.samples && s.samples[id].tenant == tenant
    ensures NamesOwn(s, tenant, ids)
  {
  }

  lemma WithdrawalIsolated(s: Store, tenant: string, consentId: string, other: string)
    requires Apart(s) && other != tenant
    ensures SameShare(s, Do(s, WithdrawConsent(tenant, consentId)), other)
  {
    var ended := WithConsentEnded(s, tenant, consentId);
    ConsentKeepsApart(s, ended);
    OwnSamplesAreOwn(ended, tenant, SamplesUnder(s, tenant, consentId));
    OwnDeletionIsolated(ended, tenant, SamplesUnder(s, tenant, consentId), other);
    assert Do(s, WithdrawConsent(tenant, consentId)) == DeleteSamples(ended, tenant, SamplesUnder(s, tenant, consentId));
    ConsentEndIsolated(s, tenant, consentId, Do(s, WithdrawConsent(tenant, consentId)), other);
  }

  lemma ConsentEndIsolated(s: Store, tenant: string, consentId: string, after: Store, other: string)
    requires other != tenant && SameShare(WithConsentEnded(s, tenant, consentId), after, other)
    ensures SameShare(s, after, other)
  {
  }

  lemma ConsentKeepsApart(s: Store, after: Store)
    requires Apart(s) && after == s.(consents := after.consents)
    ensures Apart(after)
  {
    assert LineageLive(after) && RevokedBelow(after);
  }

  lemma EverythingIsolated(s: Store, tenant: string, other: string)
    requires Apart(s) && other != tenant
    ensures SameShare(s, DeleteEverything(s, tenant), other)
  {
    OwnSamplesAreOwn(s, tenant, IdsOf(s, tenant));
    OwnDeletionIsolated(s, tenant, IdsOf(s, tenant), other);
  }

  lemma UploadIsolated(
    s: Store, tenant: Tenant, key: string, declared: string, archive: Archive, receiptId: string, at: int, other: string)
    requires Apart(s) && other != tenant.id
    ensures SameShare(s, Admit(s, tenant, key, declared, archive, receiptId, at).0, other)
  {
    if ValidKey(key) && (tenant.id, key) !in s.receipts && RefusalOf(s, tenant, declared, archive, at).None? {
      var sample := Sample(tenant.id, archive.content.consentId, archive.size, at + SAMPLE_RETENTION_SECONDS);
      AdmissionIsolated(s, (tenant.id, key), archive.content.sampleId, sample, receiptId, other);
    }
  }

  lemma AdmissionIsolated(s: Store, key: Key, sampleId: string, sample: Sample, receiptId: string, other: string)
    requires Apart(s) && sample.tenant == key.0 != other
    ensures SameShare(s, AdmitSample(s, key, sampleId, sample, receiptId).0, other)
  {
  }

  lemma TrainingIsolated(s: Store, tenant: string, names: Build, delivered: bool, at: int, other: string)
    requires Apart(s) && FreshNames(s, names) && other != tenant
    ensures SameShare(s, TrainOn(s, tenant, names, delivered, at), other)
  {
  }

  // An operation for one tenant changes nothing another tenant has.
  lemma OperationIsolated(s: Store, op: Op, tenant: string, other: string)
    requires Apart(s) && Allowed(s, op) && Guarded(s, op) && ActsFor(op, tenant) && other != tenant
    ensures SameShare(s, Do(s, op), other)
  {
    match op {
      case RecordConsent(_, _) =>
      case WithdrawConsent(_, consentId) => WithdrawalIsolated(s, tenant, consentId, other);
      case Upload(uploader, key, declared, archive, receiptId, at) =>
        UploadIsolated(s, uploader, key, declared, archive, receiptId, at, other);
      case Delete(_, ids) => OwnDeletionIsolated(s, tenant, ids, other);
      case DeleteAll(_) => EverythingIsolated(s, tenant, other);
      case Train(_, names, delivered, at) => TrainingIsolated(s, tenant, names, delivered, at, other);
      case SweepAt(_) =>
      case RestoreBackup(_) =>
    }
  }

  // ----- what every operation keeps --------------------------------------------------------------

  // From `s` to `after` the samples `ids` are deleted, and what derives from them.
  ghost predicate Deletes(s: Store, after: Store, ids: set<string>) {
    && after.edges == s.edges
    && after.nodes == MarkDeleted(s.nodes, ids + DerivedFrom(s.edges, ids))
    && after.deliveries == Revoked(s.deliveries, DerivedFrom(s.edges, ids))
    && (forall x :: x in after.samples ==> x in s.samples && after.samples[x] == s.samples[x] && x !in ids)
  }

  lemma DeletionKeepsEdges(s: Store, ids: set<string>)
    requires EdgesWithin(s.edges, s.nodes)
    ensures EdgesWithin(s.edges, MarkDeleted(s.nodes, ids + DerivedFrom(s.edges, ids)))
  {
    forall e | e in s.edges && (e.0 in ids || e.0 in DerivedFrom(s.edges, ids)) ensures e.1 in DerivedFrom(s.edges, ids) {
      ChildIsDerived(s.edges, ids, e.0, e.1);
    }
  }

  // Derivation goes on through what is derived.
  lemma {:induction false} DerivedFurther(edges: Edges, roots: set<string>, path: seq<string>)
    requires IsPath(edges, path) && (path[0] in roots || path[0] in DerivedFrom(edges, roots))
    ensures path[|path| - 1] in DerivedFrom(edges, roots)
    decreases |path|
  {
    ChildIsDerived(edges, roots, path[0], path[1]);
    if |path| > 2 {
      DerivedFurther(edges, roots, path[1..]);
    }
  }

  lemma DeletionKeepsRevoked(s: Store, after: Store, ids: set<string>)
    requires RevokedBelow(s) && Deletes(s, after, ids)
    ensures RevokedBelow(after)
  {
    forall n, d | n in after.nodes && after.nodes[n].deleted && d in after.deliveries && Reaches(after.edges, n, d)
      ensures after.deliveries[d].revoked
    {
      if n in ids || n in DerivedFrom(s.edges, ids) {
        var path :| PathBetween(s.edges, path, n, d);
        DerivedFurther(s.edges, ids, path);
      }
    }
  }

  lemma DeletionKeepsApart(s: Store, after: Store, ids: set<string>)
    requires Apart(s) && Consistent(after) && Deletes(s, after, ids)
    ensures Apart(after)
  {
    DeletionKeepsEdges(s, ids);
    DeletionKeepsRevoked(s, after, ids);
    assert forall x :: x in after.samples ==> x !in Targets(s.edges);
  }

  lemma SamplesDeleted(s: Store, tenant: string, ids: set<string>)
    requires forall id :: id in ids && id in s.samples ==> s.samples[id].tenant == tenant
    ensures Deletes(s, DeleteSamples(s, tenant, ids), ids)
  {
  }

  lemma AdmissionKeepsApart(s: Store, key: Key, sampleId: string, sample: Sample, receiptId: string)
    requires Apart(s) && sample.tenant == key.0 && Consistent(AdmitSample(s, key, sampleId, sample, receiptId).0)
    ensures Apart(AdmitSample(s, key, sampleId, sample, receiptId).0)
  {
    var after := AdmitSample(s, key, sampleId, sample, receiptId).0;
    forall n, d | n in after.nodes && after.nodes[n].deleted && d in after.deliveries && Reaches(after.edges, n, d)
      ensures after.deliveries[d].revoked
    {
      assert n in s.nodes && s.nodes[n].deleted;
    }
  }

  lemma UploadKeepsApart(
    s: Store, tenant: Tenant, key: string, declared: string, archive: Archive, receiptId: string, at: int)
    requires Apart(s)
    ensures Apart(Admit(s, tenant, key, declared, archive, receiptId, at).0)
  {
    UploadKeeps(s, tenant, key, declared, archive, receiptId, at);
    if ValidKey(key) && (tenant.id, key) !in s.receipts && RefusalOf(s, tenant, declared, archive, at).None? {
      var sample := Sample(tenant.id, archive.content.consentId, archive.size, at + SAMPLE_RETENTION_SECONDS);
      AdmissionKeepsApart(s, (tenant.id, key), archive.content.sampleId, sample, receiptId);
    }
  }

  lemma TrainingKeepsApart(s: Store, tenant: string, names: Build, delivered: bool, at: int)
    requires Apart(s) && FreshNames(s, names)
    ensures Apart(TrainOn(s, tenant, names, delivered, at))
  {
    TrainingKeeps(s, tenant, names, delivered, at);
    TrainingKeepsEdges(s, tenant, names, delivered, at);
    TrainingKeepsRevoked(s, tenant, names, delivered, at);
    TrainingKeepsOwners(s, tenant, names, delivered, at);
  }

  lemma TrainingKeepsOwners(s: Store, tenant: string, names: Build, delivered: bool, at: int)
    requires Owners(s) && FreshNames(s, names)
    ensures Owners(TrainOn(s, tenant, names, delivered, at))
  {
    OldNodesStay(s, tenant, names, delivered, at);
  }

  lemma TrainingKeepsRevoked(s: Store, tenant: string, names: Build, delivered: bool, at: int)
    requires Apart(s) && FreshNames(s, names)
    ensures RevokedBelow(TrainOn(s, tenant, names, delivered, at))
  {
    var after := TrainOn(s, tenant, names, delivered, at);
    TrainingKeepsEdges(s, tenant, names, delivered, at);
    forall n, d | n in after.nodes && after.nodes[n].deleted && d in after.deliveries && Reaches(after.edges, n, d)
      ensures after.deliveries[d].revoked
    {
      ReachWithin(after.edges, after.nodes, n, d);
      if d in s.deliveries {
        OldReach(s, names, delivered, tenant, at, n, d);
      }
    }
  }

  lemma TrainingKeepsEdges(s: Store, tenant: string, names: Build, delivered: bool, at: int)
    requires Apart(s) && FreshNames(s, names)
    ensures EdgesWithin(TrainOn(s, tenant, names, delivered, at).edges, TrainOn(s, tenant, names, delivered, at).nodes)
  {
    var after := TrainOn(s, tenant, names, delivered, at);
    forall e | e in after.edges
      ensures e.0 in after.nodes && e.1 in after.nodes && after.nodes[e.0].tenant == after.nodes[e.1].tenant
      ensures after.nodes[e.0].deleted ==> after.nodes[e.1].deleted
    {
      assert e in s.edges || e in TrainingEdges(s, tenant, names, delivered, at);
    }
  }

  lemma OperationKeepsApart(s: Store, op: Op)
    requires Apart(s) && Allowed(s, op)
    ensures Apart(Do(s, op))
  {
    DoKeepsConsistent(s, op);
    match op {
      case RecordConsent(_, _) => ConsentKeepsApart(s, Do(s, op));
      case WithdrawConsent(tenant, consentId) =>
        var ended := WithConsentEnded(s, tenant, consentId);
        ConsentKeepsApart(s, ended);
        SamplesDeleted(ended, tenant, SamplesUnder(s, tenant, consentId));
        DeletionKeepsApart(ended, Do(s, op), SamplesUnder(s, tenant, consentId));
      case Upload(tenant, key, declared, archive, receiptId, at) =>
        UploadKeepsApart(s, tenant, key, declared, archive, receiptId, at);
      case Delete(owner, ids) =>
        SamplesDeleted(s, owner, ids);
        DeletionKeepsApart(s, Do(s, op), ids);
      case DeleteAll(owner) => EverythingKeepsApart(s, owner);
      case SweepAt(at) => DeletionKeepsApart(s, Do(s, op), Expired(s, at));
      case Train(owner, names, delivered, at) => TrainingKeepsApart(s, owner, names, delivered, at);
      case RestoreBackup(_) => assert RevokedBelow(Do(s, op));
    }
  }

  lemma EverythingKeepsApart(s: Store, tenant: string)
    requires Apart(s) && Consistent(DeleteEverything(s, tenant))
    ensures Apart(DeleteEverything(s, tenant))
  {
    var ids := IdsOf(s, tenant);
    var mid, after := DeleteSamples(s, tenant, ids), DeleteEverything(s, tenant);
    SamplesDeleted(s, tenant, ids);
    DeletionKeeps(s, tenant, ids);
    DeletionKeepsApart(s, mid, ids);
    assert RevokedBelow(after);
  }

  // ----- whole runs ----------------------------------------------------------------------------------

  lemma AllowedFront(s: Store, ops: seq<Op>)
    requires AllowedRun(s, ops) && ops != []
    ensures AllowedRun(s, ops[..|ops| - 1]) && Allowed(Run(s, ops[..|ops| - 1]), ops[|ops| - 1])
  {
    var before := ops[..|ops| - 1];
    forall k | 0 <= k < |before| ensures Allowed(Run(s, before[..k]), before[k]) {
      assert before[..k] == ops[..k] && Allowed(Run(s, ops[..k]), ops[k]);
    }
    assert Allowed(Run(s, ops[..|before|]), ops[|before|]);
  }

  lemma {:induction false} RunsStayApart(s: Store, ops: seq<Op>)
    requires Apart(s) && AllowedRun(s, ops)
    ensures Apart(Run(s, ops))
  {
    if ops != [] {
      AllowedFront(s, ops);
      RunsStayApart(s, ops[..|ops| - 1]);
      OperationKeepsApart(Run(s, ops[..|ops| - 1]), ops[|ops| - 1]);
    }
  }

  ghost predicate ForOthers(s: Store, op: Op, tenant: string) {
    Guarded(s, op) && exists other :: other != tenant && ActsFor(op, other)
  }

  ghost predicate RunForOthers(s: Store, ops: seq<Op>, tenant: string) {
    forall k :: 0 <= k < |ops| ==> ForOthers(Run(s, ops[..k]), ops[k], tenant)
  }

  lemma SameShareAgain(a: Store, b: Store, c: Store, tenant: string)
    requires SameShare(a, b, tenant) && SameShare(b, c, tenant)
    ensures SameShare(a, c, tenant)
  {
  }

  lemma {:induction false} OthersRunIsolated(s: Store, ops: seq<Op>, tenant: string)
    requires Apart(s) && AllowedRun(s, ops) && RunForOthers(s, ops, tenant)
    ensures SameShare(s, Run(s, ops), tenant)
  {
    if ops != [] {
      var before := ops[..|ops| - 1];
      AllowedFront(s, ops);
      forall k | 0 <= k < |before| ensures ForOthers(Run(s, before[..k]), before[k], tenant) {
        assert before[..k] == ops[..k] && ForOthers(Run(s, ops[..k]), ops[k], tenant);
      }
      OthersRunIsolated(s, before, tenant);
      RunsStayApart(s, before);
      assert ForOthers(Run(s, ops[..|before|]), ops[|before|], tenant);
      var other :| other != tenant && ActsFor(ops[|before|], other);
      OperationIsolated(Run(s, before), ops[|before|], other, tenant);
      SameShareAgain(s, Run(s, before), Run(s, ops), tenant);
    }
  }

  // After any run of the server, whatever other tenants do next, over any number
  // of operations, leaves a tenant's samples, receipts, consents, deliveries and
  // stored objects exactly as they are.
  lemma TenantsAreIsolated(before: seq<Op>, later: seq<Op>, tenant: string)
    requires AllowedRun(EMPTY_STORE, before)
    requires AllowedRun(Run(EMPTY_STORE, before), later) && RunForOthers(Run(EMPTY_STORE, before), later, tenant)
    ensures SameShare(Run(EMPTY_STORE, before), Run(Run(EMPTY_STORE, before), later), tenant)
  {
    assert Apart(EMPTY_STORE);
    RunsStayApart(EMPTY_STORE, before);
    OthersRunIsolated(Run(EMPTY_STORE, before), later, tenant);
  }
}
