// What the training server keeps, over every run of its operations.
module Retention {
  import opened Options
  import opened Lineage
  import opened Server

  // The nodes a training run adds, under random names.
  datatype Build = Build(dataset: string, job: string, build: string, version: string)

  datatype Op =
    | RecordConsent(grant: Key, consent: ServerConsent)
    | WithdrawConsent(owner: string, consentId: string)
    | Upload(tenant: Tenant, key: string, declared: string, archive: Archive, receiptId: string, at: int)
    | Delete(owner: string, ids: set<string>)
    | DeleteAll(owner: string)
    | SweepAt(at: int)
    | Train(owner: string, names: Build, delivered: bool, at: int)
    | RestoreBackup(objects: set<Key>)

  function Trainable(s: Store, tenant: string, now: int): set<string> {
    set id | id in s.samples && s.samples[id].tenant == tenant && s.samples[id].expiresAt > now
      && ConsentActive(s, tenant, s.samples[id].consentId, now)
  }

  function SamplesUnder(s: Store, tenant: string, consentId: string): set<string> {
    set id | id in s.samples && s.samples[id].tenant == tenant && s.samples[id].consentId == consentId
  }

  function TrainingEdges(s: Store, tenant: string, names: Build, delivered: bool, now: int): Edges {
    (set id | id in Trainable(s, tenant, now) :: (id, names.dataset)) + {(names.dataset, names.job)}
      + if delivered then {(names.job, names.build), (names.build, names.version)} else {}
  }

  // One training run, as a single step: its lineage, and a delivery if the
  // candidate passed.
  function TrainOn(s: Store, tenant: string, names: Build, delivered: bool, now: int): Store {
    var nodes := s.nodes[names.dataset := Node(DatasetNode, tenant, false)][names.job := Node(JobNode, tenant, false)];
    var edges := s.edges + TrainingEdges(s, tenant, names, delivered, now);
    if delivered then
      s.(nodes := nodes[names.build := Node(BuildNode, tenant, false)][names.version := Node(DeliveryNode, tenant, false)],
         edges := edges, deliveries := s.deliveries[names.version := Delivery(tenant, false)])
    else
      s.(nodes := nodes, edges := edges)
  }

  function WithConsentEnded(s: Store, tenant: string, consentId: string): Store {
    if (tenant, consentId) in s.consents
    then s.(consents := s.consents[(tenant, consentId) := s.consents[(tenant, consentId)].(withdrawn := true)])
    else s
  }

  ghost function Do(s: Store, op: Op): Store {
    match op
    case RecordConsent(key, consent) =>
      if key in s.consents then s else s.(consents := s.consents[key := consent])
    case WithdrawConsent(tenant, consentId) =>
      DeleteSamples(WithConsentEnded(s, tenant, consentId), tenant, SamplesUnder(s, tenant, consentId))
    case Upload(tenant, key, declared, archive, receiptId, at) =>
      Admit(s, tenant, key, declared, archive, receiptId, at).0
    case Delete(owner, ids) => DeleteSamples(s, owner, ids)
    case DeleteAll(owner) => DeleteEverything(s, owner)
    case SweepAt(at) => Sweep(s, at)
    case Train(owner, names, delivered, at) => TrainOn(s, owner, names, delivered, at)
    case RestoreBackup(objects) => s.(objects := s.objects + objects)
  }

  // The sample a receipt was given for. Receipt identifiers are unique, so
  // there is at most one.
  function SamplesOfReceipt(s: Store, tenant: string, receiptId: string): set<string> {
    set k | k in s.receipts && k.0 == tenant && s.receipts[k].accepted && s.receipts[k].receiptId == receiptId
      :: s.receipts[k].sampleId
  }

  ghost function Run(s: Store, ops: seq<Op>): Store {
    if ops == [] then s else Do(Run(s, ops[..|ops| - 1]), ops[|ops| - 1])
  }

  // ----- what operations change ----------------------------------------------------------

  // Nothing is added: samples may go, nodes and deliveries may end.
  ghost predicate OnlyEnds(s: Store, after: Store) {
    && after.receipts == s.receipts && after.edges == s.edges && s.tombstones <= after.tombstones
    && (forall x :: x in after.samples ==> x in s.samples && after.samples[x] == s.samples[x])
    && after.nodes.Keys == s.nodes.Keys
    && (forall n :: n in s.nodes ==> after.nodes[n].kind == s.nodes[n].kind && after.nodes[n].tenant == s.nodes[n].tenant)
    && after.deliveries.Keys == s.deliveries.Keys
    && (forall d :: d in s.deliveries && s.deliveries[d].revoked ==> after.deliveries[d].revoked)
  }

  lemma DeletionOnlyEnds(s: Store, tenant: string, ids: set<string>)
    ensures OnlyEnds(s, DeleteSamples(s, tenant, ids))
  {
  }

  lemma EverythingOnlyEnds(s: Store, tenant: string)
    ensures OnlyEnds(s, DeleteEverything(s, tenant))
  {
    DeletionOnlyEnds(s, tenant, IdsOf(s, tenant));
  }

  lemma SweepOnlyEnds(s: Store, at: int)
    ensures OnlyEnds(s, Sweep(s, at))
  {
  }

  // Only uploads and training runs add anything but consents and objects.
  lemma OthersOnlyEnd(s: Store, op: Op)
    requires !op.Upload? && !op.Train?
    ensures OnlyEnds(s, Do(s, op))
  {
    match op {
      case WithdrawConsent(tenant, consentId) =>
        DeletionOnlyEnds(WithConsentEnded(s, tenant, consentId), tenant, SamplesUnder(s, tenant, consentId));
      case Delete(owner, ids) => DeletionOnlyEnds(s, owner, ids);
      case DeleteAll(owner) => EverythingOnlyEnds(s, owner);
      case SweepAt(at) => SweepOnlyEnds(s, at);
      case _ =>
    }
  }

  // ----- nothing deleted comes back ------------------------------------------------------

  lemma UploadKeepsTombstones(
    s: Store, tenant: Tenant, key: string, declared: string, archive: Archive, receiptId: string, at: int, id: string)
    requires id in s.tombstones && id !in s.samples
    ensures var after := Admit(s, tenant, key, declared, archive, receiptId, at).0;
      id in after.tombstones && id !in after.samples
  {
  }

  lemma DoKeepsTombstones(s: Store, op: Op, id: string)
    requires id in s.tombstones && id !in s.samples
    ensures id in Do(s, op).tombstones && id !in Do(s, op).samples
  {
    if op.Upload? {
      UploadKeepsTombstones(s, op.tenant, op.key, op.declared, op.archive, op.receiptId, op.at, id);
    } else if !op.Train? {
      OthersOnlyEnd(s, op);
    }
  }

  // Deleted, replayed, restored or swept: a tombstoned sample never becomes live.
  lemma {:induction false} TombstonedStaysGone(s: Store, ops: seq<Op>, id: string)
    requires id in s.tombstones && id !in s.samples
    ensures id in Run(s, ops).tombstones && id !in Run(s, ops).samples
  {
    if ops != [] {
      TombstonedStaysGone(s, ops[..|ops| - 1], id);
      DoKeepsTombstones(Run(s, ops[..|ops| - 1]), ops[|ops| - 1], id);
    }
  }

  // A sweep leaves no stored object without a live sample.
  lemma SweptObjectsAreLive(s: Store, at: int)
    ensures forall o :: o in Sweep(s, at).objects ==> o.1 in Sweep(s, at).samples
    ensures forall id :: id in Sweep(s, at).samples ==> s.samples[id].expiresAt > at
  {
  }

  // ----- deletion follows the lineage --------------------------------------------------------

  lemma DeletionRevokes(s: Store, tenant: string, ids: set<string>, version: string)
    requires version in s.deliveries && Derived(s.edges, ids, version)
    ensures DeleteSamples(s, tenant, ids).deliveries[version].revoked
  {
    var root :| root in ids && Reaches(s.edges, root, version);
    ReachedIsTarget(s.edges, root, version);
  }

  // Deleting a tenant's own samples, or unknown ones, keeps live and tombstoned
  // samples apart; with another tenant's live sample it does not.
  lemma DisjointIffOwn(s: Store, tenant: string, ids: set<string>)
    requires s.samples.Keys !! s.tombstones
    ensures var after := DeleteSamples(s, tenant, ids);
      after.samples.Keys !! after.tombstones <==> forall id :: id in ids && id in s.samples ==> s.samples[id].tenant == tenant
  {
    var after := DeleteSamples(s, tenant, ids);
    if id :| id in ids && id in s.samples && s.samples[id].tenant != tenant {
      assert id in after.samples && id in after.tombstones;
    }
  }

  // Naming another tenant's live sample does break it.
  lemma ForeignSampleBreaks(mine: string, theirs: string, x: string, sample: Sample) returns (s: Store)
    requires mine != theirs && sample.tenant == theirs
    ensures s == EMPTY_STORE.(samples := map[x := sample], nodes := map[x := Node(SampleNode, theirs, false)])
    ensures s.samples.Keys !! s.tombstones
    ensures x in DeleteSamples(s, mine, {x}).samples && x in DeleteSamples(s, mine, {x}).tombstones
  {
    s := EMPTY_STORE.(samples := map[x := sample], nodes := map[x := Node(SampleNode, theirs, false)]);
    assert x in {x};
  }

  lemma DoKeepsRevoked(s: Store, op: Op, version: string)
    requires version in s.deliveries && s.deliveries[version].revoked
    requires op.Train? ==> op.names.version !in s.deliveries
    ensures version in Do(s, op).deliveries && Do(s, op).deliveries[version].revoked
  {
    if !op.Upload? && !op.Train? {
      OthersOnlyEnd(s, op);
    }
  }

  // After "delete everything" the tenant has no samples, no usable delivery and
  // no active consent.
  lemma EverythingIsGone(s: Store, tenant: string, consentId: string, at: int)
    ensures var after := DeleteEverything(s, tenant);
      && IdsOf(after, tenant) == {}
      && (forall d :: d in after.deliveries && after.deliveries[d].tenant == tenant ==> after.deliveries[d].revoked)
      && !ConsentActive(after, tenant, consentId, at)
      && IdsOf(s, tenant) <= after.tombstones
  {
  }

  // ----- receipts ------------------------------------------------------------------------------

  lemma UploadKeepsReceipts(
    s: Store, tenant: Tenant, name: string, declared: string, archive: Archive, receiptId: string, at: int, key: Key)
    requires key in s.receipts
    ensures var after := Admit(s, tenant, name, declared, archive, receiptId, at).0;
      key in after.receipts && after.receipts[key] == s.receipts[key]
  {
  }

  lemma DoKeepsReceipts(s: Store, op: Op, key: Key)
    requires key in s.receipts
    ensures key in Do(s, op).receipts && Do(s, op).receipts[key] == s.receipts[key]
  {
    if op.Upload? {
      UploadKeepsReceipts(s, op.tenant, op.key, op.declared, op.archive, op.receiptId, op.at, key);
    } else if !op.Train? {
      OthersOnlyEnd(s, op);
    }
  }

  lemma {:induction false} ReceiptsAreFinal(s: Store, ops: seq<Op>, key: Key)
    requires key in s.receipts
    ensures key in Run(s, ops).receipts && Run(s, ops).receipts[key] == s.receipts[key]
  {
    if ops != [] {
      ReceiptsAreFinal(s, ops[..|ops| - 1], key);
      DoKeepsReceipts(Run(s, ops[..|ops| - 1]), ops[|ops| - 1], key);
    }
  }

  // Once answered, an idempotency key is answered the same way ever after, as a
  // duplicate and without any change, whatever is uploaded under it.
  lemma UploadIsIdempotent(
    s: Store, tenant: Tenant, key: string, declared: string, archive: Archive, receiptId: string, at: int,
    ops: seq<Op>, declared': string, archive': Archive, receiptId': string, at': int)
    requires ValidKey(key) && Admit(s, tenant, key, declared, archive, receiptId, at).1.Some?
    ensures var (after, first) := Admit(s, tenant, key, declared, archive, receiptId, at);
      var later := Run(after, ops);
      Admit(later, tenant, key, declared', archive', receiptId', at')
        == (later, Some(first.value.(duplicate := true)))
  {
    var after := Admit(s, tenant, key, declared, archive, receiptId, at).0;
    ReceiptsAreFinal(after, ops, (tenant.id, key));
  }

  // ----- the store's invariant -----------------------------------------------------------------

  ghost predicate ReceiptsNameSamples(s: Store) {
    && (forall k :: k in s.receipts && s.receipts[k].accepted ==>
          s.receipts[k].sampleId in s.samples || s.receipts[k].sampleId in s.tombstones)
    && (forall j, k :: j in s.receipts && k in s.receipts && j != k && s.receipts[j].accepted && s.receipts[k].accepted ==>
          s.receipts[j].sampleId != s.receipts[k].sampleId)
  }

  // Samples are root nodes, deliveries are nodes, and edges join nodes.
  ghost predicate GraphFormed(s: Store) {
    && (forall x :: x in s.samples ==> x in s.nodes && s.nodes[x].kind.SampleNode?)
    && (forall d :: d in s.deliveries ==> d in s.nodes && s.nodes[d].kind.DeliveryNode?)
    && (forall e :: e in s.edges ==> e.0 in s.nodes && e.1 in s.nodes && !s.nodes[e.1].kind.SampleNode?)
  }

  // Whatever sample a usable delivery derives from still exists.
  ghost predicate LineageLive(s: Store) {
    forall x, d ::
      (x in s.nodes && s.nodes[x].kind.SampleNode? && d in s.deliveries && !s.deliveries[d].revoked
       && Reaches(s.edges, x, d)) ==> x in s.samples
  }

  ghost predicate Consistent(s: Store) {
    && s.samples.Keys !! s.tombstones && ReceiptsNameSamples(s) && GraphFormed(s) && LineageLive(s)
  }

  ghost predicate FreshNames(s: Store, names: Build) {
    && names.dataset !in s.nodes && names.job !in s.nodes && names.build !in s.nodes && names.version !in s.nodes
    && names.dataset != names.job && names.dataset != names.build && names.dataset != names.version
    && names.job != names.build && names.job != names.version && names.build != names.version
  }

  // Deletions name the tenant's own or unknown samples; random names are fresh.
  ghost predicate Allowed(s: Store, op: Op) {
    && (op.Delete? ==> forall id :: id in op.ids && id in s.samples ==> s.samples[id].tenant == op.owner)
    && (op.Train? ==> FreshNames(s, op.names))
  }

  lemma DeletionKeeps(s: Store, tenant: string, ids: set<string>)
    requires Consistent(s) && forall id :: id in ids && id in s.samples ==> s.samples[id].tenant == tenant
    ensures Consistent(DeleteSamples(s, tenant, ids))
  {
    var after := DeleteSamples(s, tenant, ids);
    forall x, d | x in after.nodes && after.nodes[x].kind.SampleNode? && d in after.deliveries
        && !after.deliveries[d].revoked && Reaches(after.edges, x, d)
      ensures x in after.samples
    {
      ReachedIsTarget(s.edges, x, d);
      assert x !in ids;
    }
  }

  lemma SweepKeeps(s: Store, at: int)
    requires Consistent(s)
    ensures Consistent(Sweep(s, at))
  {
    var after := Sweep(s, at);
    forall x, d | x in after.nodes && after.nodes[x].kind.SampleNode? && d in after.deliveries
        && !after.deliveries[d].revoked && Reaches(after.edges, x, d)
      ensures x in after.samples
    {
      ReachedIsTarget(s.edges, x, d);
      assert x !in Expired(s, at);
    }
  }

  lemma AdmittedKeeps(s: Store, key: Key, sampleId: string, sample: Sample, receiptId: string)
    requires Consistent(s) && sampleId !in s.tombstones
    ensures Consistent(AdmitSample(s, key, sampleId, sample, receiptId).0)
  {
    var after := AdmitSample(s, key, sampleId, sample, receiptId).0;
    assert LineageLive(after) by {
      forall x, d | x in after.nodes && after.nodes[x].kind.SampleNode? && d in after.deliveries
          && !after.deliveries[d].revoked && Reaches(after.edges, x, d)
        ensures x in after.samples
      {
        if x !in s.nodes {
          assert x in after.samples;
        }
      }
    }
  }

  lemma RefusalKeeps(s: Store, key: Key, reason: string, receiptId: string)
    requires Consistent(s)
    ensures Consistent(RecordRefusal(s, key, reason, receiptId).0)
  {
    var after := RecordRefusal(s, key, reason, receiptId).0;
    assert GraphFormed(after) && LineageLive(after);
  }

  lemma UploadKeeps(
    s: Store, tenant: Tenant, key: string, declared: string, archive: Archive, receiptId: string, at: int)
    requires Consistent(s)
    ensures Consistent(Admit(s, tenant, key, declared, archive, receiptId, at).0)
  {
    if ValidKey(key) && (tenant.id, key) !in s.receipts {
      var refusal := RefusalOf(s, tenant, declared, archive, at);
      if refusal.Some? {
        RefusalKeeps(s, (tenant.id, key), refusal.value, receiptId);
      } else {
        var sample := Sample(tenant.id, archive.content.consentId, archive.size, at + SAMPLE_RETENTION_SECONDS);
        AdmittedKeeps(s, (tenant.id, key), archive.content.sampleId, sample, receiptId);
      }
    }
  }

  // A path into an old node uses old edges only.
  lemma OldReach(s: Store, names: Build, delivered: bool, tenant: string, at: int, x: string, d: string)
    requires GraphFormed(s) && FreshNames(s, names) && d in s.nodes
    requires Reaches(TrainOn(s, tenant, names, delivered, at).edges, x, d)
    ensures Reaches(s.edges, x, d)
  {
    var added := TrainingEdges(s, tenant, names, delivered, at);
    var path :| PathBetween(s.edges + added, path, x, d);
    OldPathStays(s.edges, added, path);
    assert PathBetween(s.edges, path, x, d);
  }

  // What a new delivery derives from, among samples, was trained on.
  lemma NewReach(s: Store, names: Build, tenant: string, at: int, x: string)
    requires GraphFormed(s) && FreshNames(s, names) && x in s.nodes && s.nodes[x].kind.SampleNode?
    requires Reaches(TrainOn(s, tenant, names, true, at).edges, x, names.version)
    ensures x in Trainable(s, tenant, at)
  {
    var edges := TrainOn(s, tenant, names, true, at).edges;
    var a := LastStep(edges, x, names.version);
    assert a == names.build;
    var b := LastStep(edges, x, names.build);
    assert b == names.job;
    var c := LastStep(edges, x, names.job);
    assert c == names.dataset;
    var root := LastStep(edges, x, names.dataset);
    assert root in Trainable(s, tenant, at);
    if root != x {
      var before := LastStep(edges, x, root);
      assert false;
    }
  }

  lemma TrainingKeepsLive(s: Store, tenant: string, names: Build, delivered: bool, at: int)
    requires Consistent(s) && FreshNames(s, names)
    ensures LineageLive(TrainOn(s, tenant, names, delivered, at))
  {
    var after := TrainOn(s, tenant, names, delivered, at);
    forall x, d | x in after.nodes && after.nodes[x].kind.SampleNode? && d in after.deliveries
        && !after.deliveries[d].revoked && Reaches(after.edges, x, d)
      ensures x in after.samples
    {
      if d in s.deliveries {
        OldReach(s, names, delivered, tenant, at, x, d);
      } else {
        NewReach(s, names, tenant, at, x);
      }
    }
  }

  lemma TrainingKeeps(s: Store, tenant: string, names: Build, delivered: bool, at: int)
    requires Consistent(s) && FreshNames(s, names)
    ensures Consistent(TrainOn(s, tenant, names, delivered, at))
  {
    TrainingKeepsLive(s, tenant, names, delivered, at);
    TrainingKeepsGraph(s, tenant, names, delivered, at);
    var after := TrainOn(s, tenant, names, delivered, at);
    assert after.samples == s.samples && after.tombstones == s.tombstones && after.receipts == s.receipts;
    assert ReceiptsNameSamples(after);
  }

  lemma TrainingKeepsGraph(s: Store, tenant: string, names: Build, delivered: bool, at: int)
    requires GraphFormed(s) && FreshNames(s, names)
    ensures GraphFormed(TrainOn(s, tenant, names, delivered, at))
  {
    var after := TrainOn(s, tenant, names, delivered, at);
    OldNodesStay(s, tenant, names, delivered, at);
    forall e | e in after.edges
      ensures e.0 in after.nodes && e.1 in after.nodes && !after.nodes[e.1].kind.SampleNode?
    {
      if e !in s.edges {
        NewEdgeFormed(s, tenant, names, delivered, at, e);
      }
    }
  }

  lemma OldNodesStay(s: Store, tenant: string, names: Build, delivered: bool, at: int)
    requires FreshNames(s, names)
    ensures var after := TrainOn(s, tenant, names, delivered, at);
      forall n :: n in s.nodes ==> n in after.nodes && after.nodes[n] == s.nodes[n]
  {
  }

  lemma NewEdgeFormed(s: Store, tenant: string, names: Build, delivered: bool, at: int, e: (string, string))
    requires GraphFormed(s) && FreshNames(s, names) && e in TrainingEdges(s, tenant, names, delivered, at)
    ensures var after := TrainOn(s, tenant, names, delivered, at);
      e.0 in after.nodes && e.1 in after.nodes && !after.nodes[e.1].kind.SampleNode?
  {
  }

  lemma DoKeepsConsistent(s: Store, op: Op)
    requires Consistent(s) && Allowed(s, op)
    ensures Consistent(Do(s, op))
  {
    match op {
      case RecordConsent(_, _) =>
      case WithdrawConsent(tenant, consentId) =>
        DeletionKeeps(WithConsentEnded(s, tenant, consentId), tenant, SamplesUnder(s, tenant, consentId));
      case Upload(tenant, key, declared, archive, receiptId, at) =>
        UploadKeeps(s, tenant, key, declared, archive, receiptId, at);
      case Delete(owner, ids) => DeletionKeeps(s, owner, ids);
      case DeleteAll(owner) => DeletionKeeps(s, owner, IdsOf(s, owner));
      case SweepAt(at) => SweepKeeps(s, at);
      case Train(owner, names, delivered, at) => TrainingKeeps(s, owner, names, delivered, at);
      case RestoreBackup(_) =>
    }
  }

  ghost predicate AllowedRun(s: Store, ops: seq<Op>) {
    forall k :: 0 <= k < |ops| ==> Allowed(Run(s, ops[..k]), ops[k])
  }

  // Over every allowed run from an empty store: live and deleted samples are
  // apart, each accepted receipt names a sample of its own, and every usable
  // delivery derives only from samples that still exist.
  lemma {:induction false} RunsAreConsistent(ops: seq<Op>)
    requires AllowedRun(EMPTY_STORE, ops)
    ensures Consistent(Run(EMPTY_STORE, ops))
  {
    if ops != [] {
      var before := ops[..|ops| - 1];
      forall k | 0 <= k < |before| ensures Allowed(Run(EMPTY_STORE, before[..k]), before[k]) {
        assert before[..k] == ops[..k] && Allowed(Run(EMPTY_STORE, ops[..k]), ops[k]);
      }
      RunsAreConsistent(before);
      assert Allowed(Run(EMPTY_STORE, ops[..|before|]), ops[|before|]);
      DoKeepsConsistent(Run(EMPTY_STORE, before), ops[|before|]);
    }
  }
}
