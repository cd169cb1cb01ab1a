/**
 * The hourly billing run of `ssc-billing-logger`: a gate on the persisted
 * hour, the inventory fetched from OpenStack, one pass over servers that
 * records which volumes are operating-system disks (the discount ledger), one
 * pass over volumes that bills them minus that discount, one pass over images,
 * the object-bucket costs, and the report and state written at the end.
 */
module Billing {
  import opened Wrappers
  import opened Collections
  import opened Clock
  import opened XmlEvents
  import opened Records
  import opened OpenStack

  // ---- Status categories ----

  datatype BillingCategory = Active | Inactive | Unbilled

  const InactiveStatuses: set<string> := {"PAUSED", "SUSPENDED", "SOFT_SUSPENDED", "SOFT_DELETED", "SHUTOFF"}
  const UnbilledStatuses: set<string> := {"DELETED", "SHELVED", "SHELVED_OFFLOADED"}

  /** `BillingCategory::from_status`. */
  function FromStatus(s: string): (c: BillingCategory)
    ensures c == Inactive <==> s in InactiveStatuses
    ensures c == Unbilled <==> s in UnbilledStatuses
    ensures c == Active <==> s !in InactiveStatuses && s !in UnbilledStatuses
  {
    if s == "PAUSED" || s == "SUSPENDED" || s == "SOFT_SUSPENDED" || s == "SOFT_DELETED" || s == "SHUTOFF" then Inactive
    else if s == "DELETED" || s == "SHELVED" || s == "SHELVED_OFFLOADED" then Unbilled
    else Active
  }

  // ---- What every record of a run shares ----

  /** The configuration fields the records take. */
  datatype Config = Config(site: string, resource: string, region: string)

  /** The billed hour: `start_time`, `end_time` and `duration`. */
  datatype Window = Window(start: Instant, end: Instant, duration: Span)

  /** The window read off the `Utc::now()` that sets `start_time`: the current hour, whole. */
  function BillingWindow(now: Instant): (w: Window)
    ensures w.start % Hour == 0 && w.start <= now < w.start + Hour
    ensures w.duration == Hour && w.end == w.start + w.duration
  {
    var start := HourFloor(now);
    Window(start, start + Hour, Hour)
  }

  /** The rate under `key`, or 0 when the region's table has none (`unwrap_or(0)`). */
  function Rate(costs: map<string, real>, key: string): real {
    if key in costs then costs[key] else 0.0
  }

  /** The tables every pass looks names and rates up in. */
  datatype Lookups = Lookups(users: NameMapping, projects: NameMapping, flavors: map<string, Flavor>, costs: map<string, real>)

  /** The clock readings of a run: the gate, the window, and the creation time of each record. */
  datatype Clocks = Clocks(
    gate: Instant,
    window: Instant,
    serverCreated: nat -> Instant,
    volumeCreated: nat -> Instant,
    imageCreated: nat -> Instant)

  /** A record carries the run's site, region and resource, and the billed window. */
  predicate InRun(cfg: Config, w: Window, c: CloudRecordCommon) {
    && c.site == cfg.site && c.region == cfg.region && c.resource == cfg.resource
    && c.startTime == w.start && c.endTime == w.end && c.duration == w.duration
  }

  function Common(cfg: Config, w: Window, createTime: Instant, project: string, user: string, instanceId: string,
                  zone: string, cost: real, allocatedDisk: nat): CloudRecordCommon {
    CloudRecordCommon(createTime, cfg.site, project, user, instanceId, w.start, w.end, w.duration,
      cfg.region, cfg.resource, zone, cost, allocatedDisk)
  }

  // ---- The server pass ----

  predicate ServerResolves(lk: Lookups, s: Server) {
    lk.users.Get(s.userId).Some? && lk.projects.Get(s.tenantId).Some? && s.flavorId in lk.flavors
  }

  /** Booted from a volume: no image reference under either form, and some volume attached. */
  predicate VolumeBacked(s: Server) {
    ImageRef(s.image) == "" && |s.attachedVolumes| > 0
  }

  /**
   * The compute record of one server: present iff its user, project and
   * flavor resolve, whatever its status and whatever its cost.
   */
  function ServerRecord(cfg: Config, w: Window, lk: Lookups, s: Server, createTime: Instant): (r: Option<CloudComputeRecord>)
    ensures r.Some? <==> ServerResolves(lk, s)
    ensures r.Some? ==>
      var f := lk.flavors[s.flavorId];
      && r.value.common.instanceId == s.id
      && r.value.common.zone == s.zone.GetOr("")
      && r.value.common.user == lk.users.Get(s.userId).value
      && r.value.common.project == lk.projects.Get(s.tenantId).value
      && r.value.flavour == f.name
      && r.value.common.cost == Rate(lk.costs, f.name)
      && r.value.common.allocatedDisk == f.disk * GiB
      && r.value.allocatedCpu == f.vcpus as real && r.value.allocatedMemory == f.ram
      && ComputeOptionalChildren(r.value) == []
      && r.value.common.createTime == createTime
      && InRun(cfg, w, r.value.common)
  {
    var user := lk.users.Get(s.userId);
    var project := lk.projects.Get(s.tenantId);
    if user.Some? && project.Some? && s.flavorId in lk.flavors then
      var f := lk.flavors[s.flavorId];
      Some(CloudComputeRecord(
        Common(cfg, w, createTime, project.value, user.value, s.id, s.zone.GetOr(""), Rate(lk.costs, f.name), f.disk * GiB),
        f.name, f.vcpus as real, f.ram, None, None, None, None, None))
    else None
  }

  function ServerOutcomes(cfg: Config, w: Window, lk: Lookups, servers: seq<Server>, created: nat -> Instant)
    : (os: seq<Option<CloudComputeRecord>>)
    ensures |os| == |servers|
    ensures forall i :: 0 <= i < |servers| ==> os[i] == ServerRecord(cfg, w, lk, servers[i], created(i))
  {
    seq(|servers|, i requires 0 <= i < |servers| => ServerRecord(cfg, w, lk, servers[i], created(i)))
  }

  /** The ledger write of one server: its first attached volume, and its flavor's disk in GiB. */
  function LedgerWrite(lk: Lookups, s: Server): (e: Option<(string, nat)>)
    ensures e.Some? <==> ServerResolves(lk, s) && VolumeBacked(s)
    ensures e.Some? ==> e.value == (s.attachedVolumes[0], lk.flavors[s.flavorId].disk)
  {
    if ServerResolves(lk, s) && VolumeBacked(s) then Some((s.attachedVolumes[0], lk.flavors[s.flavorId].disk)) else None
  }

  function LedgerWrites(lk: Lookups, servers: seq<Server>): (ws: seq<Option<(string, nat)>>)
    ensures |ws| == |servers| && forall i :: 0 <= i < |servers| ==> ws[i] == LedgerWrite(lk, servers[i])
  {
    seq(|servers|, i requires 0 <= i < |servers| => LedgerWrite(lk, servers[i]))
  }

  /** `used_os_volume_discount` after the server pass. */
  function DiscountLedger(lk: Lookups, servers: seq<Server>): map<string, nat> {
    Collect(Somes(LedgerWrites(lk, servers)))
  }

  /** One step of the server pass: what server `i` adds to the records. */
  lemma ServerStep(cfg: Config, w: Window, lk: Lookups, servers: seq<Server>, created: nat -> Instant, i: nat)
    requires i < |servers|
    ensures var os := ServerOutcomes(cfg, w, lk, servers, created);
      Somes(os[..i + 1]) == Somes(os[..i])
        + (if ServerResolves(lk, servers[i]) then [ServerRecord(cfg, w, lk, servers[i], created(i)).value] else [])
  {
    var os := ServerOutcomes(cfg, w, lk, servers, created);
    SomesSnoc(os, i);
    assert os[i] == ServerRecord(cfg, w, lk, servers[i], created(i));
  }

  /** One step of the server pass: what server `i` writes to the ledger. */
  lemma LedgerStep(lk: Lookups, servers: seq<Server>, i: nat)
    requires i < |servers|
    ensures var ws := LedgerWrites(lk, servers);
      Collect(Somes(ws[..i + 1])) == (if ServerResolves(lk, servers[i]) && VolumeBacked(servers[i])
        then Collect(Somes(ws[..i]))[servers[i].attachedVolumes[0] := lk.flavors[servers[i].flavorId].disk]
        else Collect(Somes(ws[..i])))
  {
    var ws := LedgerWrites(lk, servers);
    SomesSnoc(ws, i);
    assert ws[i] == LedgerWrite(lk, servers[i]);
    if ws[i].Some? {
      CollectAppendOne(Somes(ws[..i]), ws[i].value);
    } else {
      assert Somes(ws[..i]) + [] == Somes(ws[..i]);
    }
  }

  /** Proof-cost helper: the server record unfolded, for the loop proof, once the lookups resolve. */
  lemma ServerRecordOf(cfg: Config, w: Window, lk: Lookups, s: Server, createTime: Instant)
    requires ServerResolves(lk, s)
    ensures var f := lk.flavors[s.flavorId];
      ServerRecord(cfg, w, lk, s, createTime) == Some(CloudComputeRecord(
        Common(cfg, w, createTime, lk.projects.Get(s.tenantId).value, lk.users.Get(s.userId).value, s.id,
          s.zone.GetOr(""), Rate(lk.costs, f.name), f.disk * GiB),
        f.name, f.vcpus as real, f.ram, None, None, None, None, None))
  {
  }

  /** The `for server in &servers` loop of `main`. */
  method ServerPass(cfg: Config, w: Window, lk: Lookups, servers: seq<Server>, created: nat -> Instant)
    returns (computes: seq<CloudComputeRecord>, ledger: map<string, nat>)
    ensures computes == Somes(ServerOutcomes(cfg, w, lk, servers, created))
    ensures ledger == DiscountLedger(lk, servers)
  {
    ghost var outcomes := ServerOutcomes(cfg, w, lk, servers, created);
    ghost var writes := LedgerWrites(lk, servers);
    computes, ledger := [], map[];
    for i := 0 to |servers|
      invariant computes == Somes(outcomes[..i])
      invariant ledger == Collect(Somes(writes[..i]))
    {
      var server := servers[i];
      var user := lk.users.Get(server.userId);
      var project := lk.projects.Get(server.tenantId);
      var imageBacked := ImageRef(server.image) != "";
      var volumeBacked := !imageBacked && |server.attachedVolumes| > 0;
      ServerStep(cfg, w, lk, servers, created, i);
      LedgerStep(lk, servers, i);
      if user.Some? && project.Some? && server.flavorId in lk.flavors {
        var flavor := lk.flavors[server.flavorId];
        var cost := Rate(lk.costs, flavor.name);
        if volumeBacked {
          ledger := ledger[server.attachedVolumes[0] := flavor.disk];
        }
        var createTime := created(i);
        var cr := CloudComputeRecord(
          Common(cfg, w, createTime, project.value, user.value, server.id, server.zone.GetOr(""), cost, flavor.disk * GiB),
          flavor.name, flavor.vcpus as real, flavor.ram, None, None, None, None, None);
        ServerRecordOf(cfg, w, lk, server, createTime);
        computes := computes + [cr];
      }
    }
    assert outcomes[..|servers|] == outcomes;
    assert writes[..|servers|] == writes;
  }

  /**
   * Exactly one compute record per server whose user, project and flavor
   * resolve, in server order: the k-th record is the record of the k-th such
   * server.
   */
  lemma ServerRecordsExact(cfg: Config, w: Window, lk: Lookups, servers: seq<Server>, created: nat -> Instant)
    ensures var os := ServerOutcomes(cfg, w, lk, servers, created);
      var ix := SomeIndices(os);
      && |Somes(os)| == |ix|
      && (forall k :: 0 <= k < |ix| ==>
            (ix[k] < |servers| && ServerResolves(lk, servers[ix[k]])
             && Somes(os)[k] == ServerRecord(cfg, w, lk, servers[ix[k]], created(ix[k])).value))
      && (forall k, l :: 0 <= k < l < |ix| ==> ix[k] < ix[l])
      && (forall i :: 0 <= i < |servers| && ServerResolves(lk, servers[i]) ==> i in ix)
  {
    SomesExact(ServerOutcomes(cfg, w, lk, servers, created));
  }

  /**
   * The ledger holds an entry for a volume iff it is the first attached volume
   * of a resolved volume-backed server, and the entry is the flavor disk of the
   * last such server.
   */
  lemma DiscountLedgerExact(lk: Lookups, servers: seq<Server>)
    ensures forall v :: v in DiscountLedger(lk, servers) <==>
      exists i :: (0 <= i < |servers| && ServerResolves(lk, servers[i]) && VolumeBacked(servers[i])
        && servers[i].attachedVolumes[0] == v)
    ensures forall v :: v in DiscountLedger(lk, servers) ==>
      exists i :: (LastSomeWithKey(LedgerWrites(lk, servers), i, v)
        && DiscountLedger(lk, servers)[v] == lk.flavors[servers[i].flavorId].disk)
  {
    var ws := LedgerWrites(lk, servers);
    CollectSomesLastWins(ws);
    forall v | v in DiscountLedger(lk, servers)
      ensures exists i :: (0 <= i < |servers| && ServerResolves(lk, servers[i]) && VolumeBacked(servers[i])
        && servers[i].attachedVolumes[0] == v)
    {
      var i :| 0 <= i < |ws| && ws[i].Some? && ws[i].value.0 == v;
    }
    forall v | exists i :: (0 <= i < |servers| && ServerResolves(lk, servers[i]) && VolumeBacked(servers[i])
        && servers[i].attachedVolumes[0] == v)
      ensures v in DiscountLedger(lk, servers)
    {
      var i :| 0 <= i < |servers| && ServerResolves(lk, servers[i]) && VolumeBacked(servers[i])
        && servers[i].attachedVolumes[0] == v;
      assert ws[i].Some? && ws[i].value.0 == v;
    }
  }

  // ---- The volume pass ----

  /** `usize::saturating_sub`: the difference, or 0 when `b` exceeds `a`. */
  function SaturatingSub(a: nat, b: nat): (r: nat)
    ensures r <= a
    ensures b <= a ==> r + b == a
    ensures b > a ==> r == 0
  {
    if b <= a then a - b else 0
  }

  /** The ledger entry of a volume, or 0 when it has none. */
  function Discount(ledger: map<string, nat>, id: string): nat {
    if id in ledger then ledger[id] else 0
  }

  /** The billable GiB of a volume: its size less the operating-system discount, never negative. */
  function BillableGigs(ledger: map<string, nat>, v: Volume): nat {
    SaturatingSub(v.size, Discount(ledger, v.id))
  }

  /** `Decimal::from(gigs) * gig_rate`. */
  function GigsCost(gigs: nat, rate: real): real {
    gigs as real * rate
  }

  /** `Decimal::from(bytes) / Decimal::from(1024^3) * gig_rate`, exact. */
  function BytesCost(bytes: nat, rate: real): real {
    bytes as real / GiB as real * rate
  }

  function VolumeCost(lk: Lookups, ledger: map<string, nat>, v: Volume): real {
    GigsCost(BillableGigs(ledger, v), Rate(lk.costs, "storage.block"))
  }

  predicate VolumeResolves(lk: Lookups, v: Volume) {
    lk.users.Get(v.userId).Some? && lk.projects.Get(v.tenantId).Some?
  }

  /** The storage record of one volume: present iff its user and project resolve. */
  function VolumeRecord(cfg: Config, w: Window, lk: Lookups, ledger: map<string, nat>, v: Volume, createTime: Instant)
    : (r: Option<CloudStorageRecord>)
    ensures r.Some? <==> VolumeResolves(lk, v)
    ensures r.Some? ==>
      && r.value.common.instanceId == v.id
      && r.value.common.user == lk.users.Get(v.userId).value
      && r.value.common.project == lk.projects.Get(v.tenantId).value
      && r.value.common.zone == v.availabilityZone
      && r.value.common.cost == VolumeCost(lk, ledger, v)
      && r.value.common.allocatedDisk == v.size * GiB
      && r.value.storageType == "Block" && r.value.fileCount == 0
      && r.value.common.createTime == createTime
      && InRun(cfg, w, r.value.common)
  {
    var user := lk.users.Get(v.userId);
    var project := lk.projects.Get(v.tenantId);
    if user.Some? && project.Some? then
      Some(CloudStorageRecord(
        Common(cfg, w, createTime, project.value, user.value, v.id, v.availabilityZone, VolumeCost(lk, ledger, v), v.size * GiB),
        "Block", 0))
    else None
  }

  function VolumeOutcomes(cfg: Config, w: Window, lk: Lookups, ledger: map<string, nat>, volumes: seq<Volume>,
                          created: nat -> Instant): (os: seq<Option<CloudStorageRecord>>)
    ensures |os| == |volumes|
    ensures forall i :: 0 <= i < |volumes| ==> os[i] == VolumeRecord(cfg, w, lk, ledger, volumes[i], created(i))
  {
    seq(|volumes|, i requires 0 <= i < |volumes| => VolumeRecord(cfg, w, lk, ledger, volumes[i], created(i)))
  }

  /** What `volume_costs_by_project` receives: every volume's cost, under its tenant. */
  function VolumeCostEntries(lk: Lookups, ledger: map<string, nat>, volumes: seq<Volume>)
    : (es: seq<(string, (real, Volume))>)
    ensures |es| == |volumes|
    ensures forall i :: 0 <= i < |volumes| ==> es[i] == (volumes[i].tenantId, (VolumeCost(lk, ledger, volumes[i]), volumes[i]))
  {
    seq(|volumes|, i requires 0 <= i < |volumes| => (volumes[i].tenantId, (VolumeCost(lk, ledger, volumes[i]), volumes[i])))
  }

  lemma VolumeStep(cfg: Config, w: Window, lk: Lookups, ledger: map<string, nat>, volumes: seq<Volume>,
                   created: nat -> Instant, i: nat)
    requires i < |volumes|
    ensures var os := VolumeOutcomes(cfg, w, lk, ledger, volumes, created);
      Somes(os[..i + 1]) == Somes(os[..i])
        + (if VolumeResolves(lk, volumes[i]) then [VolumeRecord(cfg, w, lk, ledger, volumes[i], created(i)).value] else [])
  {
    var os := VolumeOutcomes(cfg, w, lk, ledger, volumes, created);
    SomesSnoc(os, i);
    assert os[i] == VolumeRecord(cfg, w, lk, ledger, volumes[i], created(i));
  }

  lemma VolumeCostStep(lk: Lookups, ledger: map<string, nat>, volumes: seq<Volume>, i: nat)
    requires i < |volumes|
    ensures var m := GroupBy(VolumeCostEntries(lk, ledger, volumes)[..i]);
      var t := volumes[i].tenantId;
      GroupBy(VolumeCostEntries(lk, ledger, volumes)[..i + 1])
        == m[t := (if t in m then m[t] else []) + [(VolumeCost(lk, ledger, volumes[i]), volumes[i])]]
  {
    GroupBySnoc(VolumeCostEntries(lk, ledger, volumes), i);
  }

  /** Proof-cost helper: the volume record unfolded, for the loop proof, once the lookups resolve. */
  lemma VolumeRecordOf(cfg: Config, w: Window, lk: Lookups, ledger: map<string, nat>, v: Volume, createTime: Instant)
    requires VolumeResolves(lk, v)
    ensures VolumeRecord(cfg, w, lk, ledger, v, createTime) == Some(CloudStorageRecord(
      Common(cfg, w, createTime, lk.projects.Get(v.tenantId).value, lk.users.Get(v.userId).value, v.id,
        v.availabilityZone, VolumeCost(lk, ledger, v), v.size * GiB),
      "Block", 0))
  {
  }

  /**
   * The `for volume in &volumes` loop of `main`. The ledger is only read: it is a
   * parameter of the pass, and no output is derived from it but the costs.
   */
  method VolumePass(cfg: Config, w: Window, lk: Lookups, ledger: map<string, nat>, volumes: seq<Volume>,
                    created: nat -> Instant)
    returns (storages: seq<CloudStorageRecord>, volumeCosts: map<string, seq<(real, Volume)>>)
    ensures storages == Somes(VolumeOutcomes(cfg, w, lk, ledger, volumes, created))
    ensures volumeCosts == GroupBy(VolumeCostEntries(lk, ledger, volumes))
  {
    ghost var outcomes := VolumeOutcomes(cfg, w, lk, ledger, volumes, created);
    ghost var entries := VolumeCostEntries(lk, ledger, volumes);
    storages, volumeCosts := [], map[];
    for i := 0 to |volumes|
      invariant storages == Somes(outcomes[..i])
      invariant volumeCosts == GroupBy(entries[..i])
    {
      var volume := volumes[i];
      var gigRate := Rate(lk.costs, "storage.block");
      var discount := Discount(ledger, volume.id);
      var actualGigs := volume.size;
      var discountGigs := SaturatingSub(volume.size, discount);
      var cost := GigsCost(discountGigs, gigRate);
      assert cost == VolumeCost(lk, ledger, volume);
      VolumeCostStep(lk, ledger, volumes, i);
      volumeCosts := volumeCosts[volume.tenantId :=
        (if volume.tenantId in volumeCosts then volumeCosts[volume.tenantId] else []) + [(cost, volume)]];
      var user := lk.users.Get(volume.userId);
      var project := lk.projects.Get(volume.tenantId);
      var createTime := created(i);
      var allocatedDisk := actualGigs * GiB;
      VolumeStep(cfg, w, lk, ledger, volumes, created, i);
      if user.Some? && project.Some? {
        var sr := CloudStorageRecord(
          Common(cfg, w, createTime, project.value, user.value, volume.id, volume.availabilityZone, cost, allocatedDisk),
          "Block", 0);
        VolumeRecordOf(cfg, w, lk, ledger, volume, createTime);
        storages := storages + [sr];
      }
    }
    assert outcomes[..|volumes|] == outcomes;
    assert entries[..|volumes|] == entries;
  }

  /**
   * The billed GiB of a volume never exceed its size; without a ledger entry
   * it is billed in full, and a discount at least its size makes it free.
   */
  lemma VolumeCostBounds(lk: Lookups, ledger: map<string, nat>, v: Volume)
    ensures BillableGigs(ledger, v) <= v.size
    ensures v.id !in ledger ==> VolumeCost(lk, ledger, v) == v.size as real * Rate(lk.costs, "storage.block")
    ensures v.id in ledger && ledger[v.id] >= v.size ==> VolumeCost(lk, ledger, v) == 0.0
    ensures v.id in ledger && ledger[v.id] <= v.size ==> BillableGigs(ledger, v) == v.size - ledger[v.id]
    ensures "storage.block" !in lk.costs ==> VolumeCost(lk, ledger, v) == 0.0
  {
  }

  /**
   * Exactly one storage record per volume whose user and project resolve, in
   * volume order; every volume's cost is in the list under its tenant, record
   * or no record.
   */
  lemma VolumeRecordsExact(cfg: Config, w: Window, lk: Lookups, ledger: map<string, nat>, volumes: seq<Volume>,
                           created: nat -> Instant)
    ensures var os := VolumeOutcomes(cfg, w, lk, ledger, volumes, created);
      var ix := SomeIndices(os);
      && |Somes(os)| == |ix|
      && (forall k :: 0 <= k < |ix| ==>
            (ix[k] < |volumes| && VolumeResolves(lk, volumes[ix[k]])
             && Somes(os)[k] == VolumeRecord(cfg, w, lk, ledger, volumes[ix[k]], created(ix[k])).value))
      && (forall k, l :: 0 <= k < l < |ix| ==> ix[k] < ix[l])
      && (forall i :: 0 <= i < |volumes| && VolumeResolves(lk, volumes[i]) ==> i in ix)
    ensures var m := GroupBy(VolumeCostEntries(lk, ledger, volumes));
      forall i :: 0 <= i < |volumes| ==>
        (volumes[i].tenantId in m && (VolumeCost(lk, ledger, volumes[i]), volumes[i]) in m[volumes[i].tenantId])
  {
    SomesExact(VolumeOutcomes(cfg, w, lk, ledger, volumes, created));
    var es := VolumeCostEntries(lk, ledger, volumes);
    GroupByHoldsEvery(es);
    assert forall i :: 0 <= i < |volumes| ==> es[i] == (volumes[i].tenantId, (VolumeCost(lk, ledger, volumes[i]), volumes[i]));
  }

  // ---- The image pass ----

  /** An image is priced and may be recorded only when it has a size and an owner. */
  predicate ImageBillable(img: Image) {
    img.size.Some? && img.owner.Some?
  }

  /** The user id looked up for an image: its `user_id`, else "default". */
  function ImageUser(img: Image): string {
    img.userId.GetOr("default")
  }

  /** The project id looked up for an image: its `owner_id`, else its `owner`, else "default". */
  function ImageProject(img: Image): string {
    img.ownerId.Or(img.owner).GetOr("default")
  }

  function ImageCost(lk: Lookups, img: Image): real
    requires ImageBillable(img)
  {
    BytesCost(img.size.value, Rate(lk.costs, "storage.block"))
  }

  predicate ImageResolves(lk: Lookups, img: Image) {
    ImageBillable(img) && lk.users.Get(ImageUser(img)).Some? && lk.projects.Get(ImageProject(img)).Some?
  }

  /** The storage record of one image: present iff it is billable and its user and project resolve. */
  function ImageRecord(cfg: Config, w: Window, lk: Lookups, img: Image, createTime: Instant): (r: Option<CloudStorageRecord>)
    ensures r.Some? <==> ImageResolves(lk, img)
    ensures r.Some? ==>
      && r.value.common.instanceId == img.id
      && r.value.common.user == lk.users.Get(ImageUser(img)).value
      && r.value.common.project == lk.projects.Get(ImageProject(img)).value
      && r.value.common.zone == "default"
      && r.value.common.cost == ImageCost(lk, img)
      && r.value.common.allocatedDisk == img.size.value
      && r.value.storageType == "Block" && r.value.fileCount == 0
      && r.value.common.createTime == createTime
      && InRun(cfg, w, r.value.common)
  {
    if ImageBillable(img) then
      var user := lk.users.Get(ImageUser(img));
      var project := lk.projects.Get(ImageProject(img));
      if user.Some? && project.Some? then
        Some(CloudStorageRecord(
          Common(cfg, w, createTime, project.value, user.value, img.id, "default", ImageCost(lk, img), img.size.value),
          "Block", 0))
      else None
    else None
  }

  function ImageOutcomes(cfg: Config, w: Window, lk: Lookups, images: seq<Image>, created: nat -> Instant)
    : (os: seq<Option<CloudStorageRecord>>)
    ensures |os| == |images|
    ensures forall i :: 0 <= i < |images| ==> os[i] == ImageRecord(cfg, w, lk, images[i], created(i))
  {
    seq(|images|, i requires 0 <= i < |images| => ImageRecord(cfg, w, lk, images[i], created(i)))
  }

  /** What `image_costs_by_project` receives from one image: its cost under its owner, when billable. */
  function ImageCostEntry(lk: Lookups, img: Image): (e: Option<(string, (real, Image))>)
    ensures e.Some? <==> ImageBillable(img)
    ensures e.Some? ==> e.value == (img.owner.value, (ImageCost(lk, img), img))
  {
    if ImageBillable(img) then Some((img.owner.value, (ImageCost(lk, img), img))) else None
  }

  function ImageCostEntries(lk: Lookups, images: seq<Image>): (es: seq<Option<(string, (real, Image))>>)
    ensures |es| == |images| && forall i :: 0 <= i < |images| ==> es[i] == ImageCostEntry(lk, images[i])
  {
    seq(|images|, i requires 0 <= i < |images| => ImageCostEntry(lk, images[i]))
  }

  lemma ImageStep(cfg: Config, w: Window, lk: Lookups, images: seq<Image>, created: nat -> Instant, i: nat)
    requires i < |images|
    ensures var os := ImageOutcomes(cfg, w, lk, images, created);
      Somes(os[..i + 1]) == Somes(os[..i])
        + (if ImageResolves(lk, images[i]) then [ImageRecord(cfg, w, lk, images[i], created(i)).value] else [])
  {
    var os := ImageOutcomes(cfg, w, lk, images, created);
    SomesSnoc(os, i);
    assert os[i] == ImageRecord(cfg, w, lk, images[i], created(i));
  }

  lemma ImageCostStep(lk: Lookups, images: seq<Image>, i: nat)
    requires i < |images|
    ensures var es := ImageCostEntries(lk, images);
      var m := GroupBy(Somes(es[..i]));
      GroupBy(Somes(es[..i + 1])) == if ImageBillable(images[i])
        then m[images[i].owner.value :=
          (if images[i].owner.value in m then m[images[i].owner.value] else []) + [(ImageCost(lk, images[i]), images[i])]]
        else m
  {
    var es := ImageCostEntries(lk, images);
    SomesSnoc(es, i);
    assert es[i] == ImageCostEntry(lk, images[i]);
    if es[i].Some? {
      GroupByAppendOne(Somes(es[..i]), es[i].value);
    } else {
      assert Somes(es[..i]) + [] == Somes(es[..i]);
    }
  }

  /** Proof-cost helper: the image record unfolded, for the loop proof, once the lookups resolve. */
  lemma ImageRecordOf(cfg: Config, w: Window, lk: Lookups, img: Image, createTime: Instant)
    requires ImageResolves(lk, img)
    ensures ImageRecord(cfg, w, lk, img, createTime) == Some(CloudStorageRecord(
      Common(cfg, w, createTime, lk.projects.Get(ImageProject(img)).value, lk.users.Get(ImageUser(img)).value, img.id,
        "default", ImageCost(lk, img), img.size.value),
      "Block", 0))
  {
  }

  /** The `for image in &images` loop of `main`. */
  method ImagePass(cfg: Config, w: Window, lk: Lookups, images: seq<Image>, created: nat -> Instant)
    returns (storages: seq<CloudStorageRecord>, imageCosts: map<string, seq<(real, Image)>>)
    ensures storages == Somes(ImageOutcomes(cfg, w, lk, images, created))
    ensures imageCosts == GroupBy(Somes(ImageCostEntries(lk, images)))
  {
    ghost var outcomes := ImageOutcomes(cfg, w, lk, images, created);
    ghost var entries := ImageCostEntries(lk, images);
    storages, imageCosts := [], map[];
    for i := 0 to |images|
      invariant storages == Somes(outcomes[..i])
      invariant imageCosts == GroupBy(Somes(entries[..i]))
    {
      var image := images[i];
      var gigRate := Rate(lk.costs, "storage.block");
      ImageStep(cfg, w, lk, images, created, i);
      ImageCostStep(lk, images, i);
      if image.size.Some? && image.owner.Some? {
        var bytes, owner := image.size.value, image.owner.value;
        var cost := BytesCost(bytes, gigRate);
        assert cost == ImageCost(lk, image);
        imageCosts := imageCosts[owner := (if owner in imageCosts then imageCosts[owner] else []) + [(cost, image)]];
        var user := lk.users.Get(image.userId.GetOr("default"));
        var project := lk.projects.Get(image.ownerId.Or(image.owner).GetOr("default"));
        var createTime := created(i);
        var allocatedDisk := bytes;
        if user.Some? && project.Some? {
          var sr := CloudStorageRecord(
            Common(cfg, w, createTime, project.value, user.value, image.id, "default", cost, allocatedDisk),
            "Block", 0);
          ImageRecordOf(cfg, w, lk, image, createTime);
          storages := storages + [sr];
        }
      }
    }
    assert outcomes[..|images|] == outcomes;
    assert entries[..|images|] == entries;
  }

  /**
   * For a recorded image the project id is its `owner_id` when present and its
   * `owner` otherwise (the "default" fallback cannot apply); its cost is
   * its size in GiB at the block rate.
   */
  lemma ImageProjectOfBillable(lk: Lookups, img: Image)
    requires ImageBillable(img)
    ensures ImageProject(img) == if img.ownerId.Some? then img.ownerId.value else img.owner.value
    ensures ImageCost(lk, img) == (img.size.value as real / GiB as real) * Rate(lk.costs, "storage.block")
    ensures img.size.value == GiB ==> ImageCost(lk, img) == Rate(lk.costs, "storage.block")
  {
  }

  /**
   * Exactly one storage record per image that is billable and whose user and
   * project resolve, in image order; every billable image's cost is in the
   * list under its owner, record or no record.
   */
  lemma ImageRecordsExact(cfg: Config, w: Window, lk: Lookups, images: seq<Image>, created: nat -> Instant)
    ensures var os := ImageOutcomes(cfg, w, lk, images, created);
      var ix := SomeIndices(os);
      && |Somes(os)| == |ix|
      && (forall k :: 0 <= k < |ix| ==>
            (ix[k] < |images| && ImageResolves(lk, images[ix[k]])
             && Somes(os)[k] == ImageRecord(cfg, w, lk, images[ix[k]], created(ix[k])).value))
      && (forall k, l :: 0 <= k < l < |ix| ==> ix[k] < ix[l])
      && (forall i :: 0 <= i < |images| && ImageResolves(lk, images[i]) ==> i in ix)
    ensures var m := GroupBy(Somes(ImageCostEntries(lk, images)));
      forall i :: 0 <= i < |images| && ImageBillable(images[i]) ==>
        (images[i].owner.value in m && (ImageCost(lk, images[i]), images[i]) in m[images[i].owner.value])
  {
    SomesExact(ImageOutcomes(cfg, w, lk, images, created));
    var es := ImageCostEntries(lk, images);
    var entries := Somes(es);
    SomesExact(es);
    GroupByHoldsEvery(entries);
    forall i | 0 <= i < |images| && ImageBillable(images[i])
      ensures var m := GroupBy(entries);
        images[i].owner.value in m && (ImageCost(lk, images[i]), images[i]) in m[images[i].owner.value]
    {
      assert es[i].Some?;
      var ix := SomeIndices(es);
      assert i in ix;
      var k :| 0 <= k < |ix| && ix[k] == i;
      assert entries[k] == es[i].value;
    }
  }

  // ---- Object buckets ----

  /** One usage category of a bucket, as `radosgw-admin bucket stats` reports it. */
  datatype BucketUsage = BucketUsage(sizeKb: nat, sizeKbActual: nat, numObjects: nat)

  /** One bucket: its id, its owner, and its usage categories in the order they are listed. */
  datatype BucketStats = BucketStats(id: string, owner: string, usage: seq<(string, BucketUsage)>)

  /** `1 / 1024^2`: kibibytes to gibibytes. */
  const KbToGb: real := 1.0 / 1048576.0

  /** The `gb_sum` fold: the usage sizes summed in GiB. */
  function GbSum(usage: seq<(string, BucketUsage)>): real
    decreases |usage|
  {
    if usage == [] then 0.0 else GbSum(usage[..|usage| - 1]) + usage[|usage| - 1].1.sizeKb as real * KbToGb
  }

  function TotalKb(usage: seq<(string, BucketUsage)>): nat
    decreases |usage|
  {
    if usage == [] then 0 else TotalKb(usage[..|usage| - 1]) + usage[|usage| - 1].1.sizeKb
  }

  /** The fold is the total size of the bucket in KiB, over 1024^2. */
  lemma {:induction false} GbSumIsTotal(usage: seq<(string, BucketUsage)>)
    ensures GbSum(usage) == TotalKb(usage) as real / 1048576.0
    decreases |usage|
  {
    if usage != [] {
      GbSumIsTotal(usage[..|usage| - 1]);
    }
  }

  /** `gig_rate * gb_sum`. */
  function ObjectCost(rate: real, gb: real): real {
    rate * gb
  }

  /** The cost of one bucket, kept only when some usage is listed. */
  function BucketEntry(rate: real, s: BucketStats): (e: Option<(string, (real, BucketStats))>)
    ensures e.Some? <==> |s.usage| > 0
    ensures e.Some? ==> e.value == (s.id, (ObjectCost(rate, GbSum(s.usage)), s))
  {
    if |s.usage| > 0 then Some((s.id, (ObjectCost(rate, GbSum(s.usage)), s))) else None
  }

  function BucketEntries(rate: real, stats: seq<BucketStats>): (es: seq<Option<(string, (real, BucketStats))>>)
    ensures |es| == |stats| && forall i :: 0 <= i < |stats| ==> es[i] == BucketEntry(rate, stats[i])
  {
    seq(|stats|, i requires 0 <= i < |stats| => BucketEntry(rate, stats[i]))
  }

  /**
   * `object_bucket_costs`: when the statistics could be read,
   * every bucket with some usage, by id, with its cost at the object rate.
   * Nothing else is derived from it.
   */
  method BucketCosts<E>(stats: Result<seq<BucketStats>, E>, costs: map<string, real>)
    returns (m: map<string, (real, BucketStats)>)
    ensures stats.Err? ==> m == map[]
    ensures stats.Ok? ==> m == Collect(Somes(BucketEntries(Rate(costs, "storage.object"), stats.value)))
  {
    m := map[];
    if stats.Ok? {
      var gigRate := Rate(costs, "storage.object");
      ghost var entries := BucketEntries(gigRate, stats.value);
      for i := 0 to |stats.value|
        invariant m == Collect(Somes(entries[..i]))
      {
        var s := stats.value[i];
        SomesSnoc(entries, i);
        if |s.usage| > 0 {
          var gbSum := GbSum(s.usage);
          var cost := ObjectCost(gigRate, gbSum);
          CollectAppendOne(Somes(entries[..i]), (s.id, (cost, s)));
          m := m[s.id := (cost, s)];
        } else {
          assert Somes(entries[..i + 1]) == Somes(entries[..i]);
        }
      }
      assert entries[..|stats.value|] == entries;
    }
  }

  /** A bucket id has a cost iff some listed bucket with that id has usage. */
  lemma BucketCostsKeys(rate: real, stats: seq<BucketStats>)
    ensures forall id :: id in Collect(Somes(BucketEntries(rate, stats))) <==>
      exists i :: 0 <= i < |stats| && stats[i].id == id && |stats[i].usage| > 0
  {
    var es := BucketEntries(rate, stats);
    CollectSomesLastWins(es);
    forall id | exists i :: 0 <= i < |stats| && stats[i].id == id && |stats[i].usage| > 0
      ensures id in Collect(Somes(es))
    {
      var i :| 0 <= i < |stats| && stats[i].id == id && |stats[i].usage| > 0;
      assert es[i].Some? && es[i].value.0 == id;
    }
  }

  /**
   * The cost under a bucket id is that of the last listed bucket with that id
   * and some usage: the object rate times its total KiB over 1024^2.
   */
  lemma BucketCostsValue(rate: real, stats: seq<BucketStats>, id: string)
    requires id in Collect(Somes(BucketEntries(rate, stats)))
    ensures exists i :: (LastSomeWithKey(BucketEntries(rate, stats), i, id)
      && Collect(Somes(BucketEntries(rate, stats)))[id] == (ObjectCost(rate, TotalKb(stats[i].usage) as real / 1048576.0), stats[i]))
  {
    var es := BucketEntries(rate, stats);
    CollectSomesLastWins(es);
    var i :| LastSomeWithKey(es, i, id) && es[i].value.1 == Collect(Somes(es))[id];
    GbSumIsTotal(stats[i].usage);
    assert es[i] == BucketEntry(rate, stats[i]);
  }

  // ---- The run ----

  /** `PersistentState`: the hour of the last completed run. */
  datatype PersistentState = PersistentState(lastTimepoint: Option<Instant>)

  /**
   * `PersistentStateFile`: the state in memory, and what `logger-state/state.json`
   * holds (`None` when the file is missing or does not parse).
   */
  class PersistentStateFile {
    var state: PersistentState
    var stored: Option<PersistentState>

    /** `open`: a missing or unreadable file gives the default state. */
    constructor Open(onDisk: Option<PersistentState>)
      ensures stored == onDisk
      ensures state == onDisk.GetOr(PersistentState(None))
    {
      stored := onDisk;
      state := onDisk.GetOr(PersistentState(None));
    }

    /** `write`: the file takes the state in memory, unless it cannot be written. */
    method Write(writable: bool) returns (ok: bool)
      modifies this
      ensures ok == writable
      ensures state == old(state)
      ensures stored == if writable then Some(state) else old(stored)
    {
      ok := writable;
      if writable {
        stored := Some(state);
      }
    }
  }

  /** Why a run stops before it completes. */
  datatype RunError =
    | UnknownRegion(region: string)
    | AuthFailed(cause: OsError)
    | NoEndpoint(missing: SessionError)
    | FetchFailed(cause: OsError)
    | ReportNotWritten
    | StateNotWritten

  /**
   * The replies of the listings `main` requests, in the order it requests
   * them; bucket statistics may fail without failing the run.
   */
  datatype Inventory = Inventory(
    servers: Result<seq<Server>, OsError>,
    flavors: Result<seq<Flavor>, OsError>,
    images: Result<seq<Image>, OsError>,
    volumes: Result<seq<Volume>, OsError>,
    buckets: Result<seq<BucketStats>, string>,
    users: Result<seq<Identity>, OsError>,
    projects: Result<seq<Identity>, OsError>)

  /** The first listing that failed, in request order. */
  function FetchFailure(inv: Inventory): (f: Option<OsError>)
    ensures f.None? <==> (inv.servers.Ok? && inv.flavors.Ok? && inv.images.Ok? && inv.volumes.Ok?
      && inv.users.Ok? && inv.projects.Ok?)
  {
    if inv.servers.Err? then Some(inv.servers.error)
    else if inv.flavors.Err? then Some(inv.flavors.error)
    else if inv.images.Err? then Some(inv.images.error)
    else if inv.volumes.Err? then Some(inv.volumes.error)
    else if inv.users.Err? then Some(inv.users.error)
    else if inv.projects.Err? then Some(inv.projects.error)
    else None
  }

  /** The lookup tables built from the listings, with the region's rates. */
  function LookupsOf(inv: Inventory, regionCosts: map<string, real>): Lookups
    requires FetchFailure(inv).None?
  {
    Lookups(
      NameMapping(Collect(IdNamePairs(inv.users.value))),
      NameMapping(Collect(IdNamePairs(inv.projects.value))),
      Collect(FlavorEntries(inv.flavors.value)),
      regionCosts)
  }

  /** The records of a run: every compute record, then the volume records followed by the image records. */
  function BilledRecords(cfg: Config, w: Window, lk: Lookups, inv: Inventory, clocks: Clocks)
    : (seq<CloudComputeRecord>, seq<CloudStorageRecord>)
    requires FetchFailure(inv).None?
  {
    var ledger := DiscountLedger(lk, inv.servers.value);
    (Somes(ServerOutcomes(cfg, w, lk, inv.servers.value, clocks.serverCreated)),
     Somes(VolumeOutcomes(cfg, w, lk, ledger, inv.volumes.value, clocks.volumeCreated))
       + Somes(ImageOutcomes(cfg, w, lk, inv.images.value, clocks.imageCreated)))
  }

  /** The report of a run: the records document of its records. */
  function ReportOf(fmt: Formats, cfg: Config, inv: Inventory, regionCosts: map<string, real>, clocks: Clocks): seq<XmlEvent>
    requires FetchFailure(inv).None?
  {
    var records := BilledRecords(cfg, BillingWindow(clocks.window), LookupsOf(inv, regionCosts), inv, clocks);
    DocumentEvents(fmt, records.0, records.1)
  }

  /**
   * The body of `main` from the listings to the image loop: the flavor, user and project
   * tables, the bucket costs, and the three record passes, the volume pass
   * reading the ledger the server pass wrote.
   */
  method Gather(cfg: Config, inv: Inventory, regionCosts: map<string, real>, clocks: Clocks)
    returns (computes: seq<CloudComputeRecord>, storages: seq<CloudStorageRecord>)
    requires FetchFailure(inv).None?
    ensures (computes, storages) == BilledRecords(cfg, BillingWindow(clocks.window), LookupsOf(inv, regionCosts), inv, clocks)
  {
    var flavors := Flavors(inv.flavors.value);
    var users := CollectNameMapping(inv.users.value);
    var projects := CollectNameMapping(inv.projects.value);
    var objectBucketCosts := BucketCosts(inv.buckets, regionCosts);

    var w := BillingWindow(clocks.window);
    var lk := Lookups(users, projects, flavors, regionCosts);
    assert lk == LookupsOf(inv, regionCosts);
    var ledger;
    computes, ledger := ServerPass(cfg, w, lk, inv.servers.value, clocks.serverCreated);
    var volumeRecords, volumeCosts := VolumePass(cfg, w, lk, ledger, inv.volumes.value, clocks.volumeCreated);
    var imageRecords, imageCosts := ImagePass(cfg, w, lk, inv.images.value, clocks.imageCreated);
    storages := volumeRecords + imageRecords;
  }

  /** Whether a run that got past the gate and the fetches writes its report. */
  predicate Reaches(cfg: Config, keystoneUrl: Url, rewriteHost: bool, costs: map<string, map<string, real>>,
                    last: PersistentState, gate: Instant, auth: Result<(string, seq<Service>), OsError>, inv: Inventory)
  {
    && cfg.region in costs
    && last.lastTimepoint != Some(HourFloor(gate))
    && auth.Ok?
    && NewSession(auth.value.0, keystoneUrl, auth.value.1, cfg.region, rewriteHost).Ok?
    && FetchFailure(inv).None?
  }

  /**
   * The end of `main`, from `write_xml_to` to `persistent_state.write()`:
   * once the listings are in, the records are gathered and the report
   * written; only then is the hour stored.
   */
  method Publish(fmt: Formats, cfg: Config, inv: Inventory, regionCosts: map<string, real>, clocks: Clocks,
                 file: PersistentStateFile, reportWritable: bool, stateWritable: bool)
    returns (outcome: Result<(), RunError>, report: Option<(Instant, seq<XmlEvent>)>)
    requires FetchFailure(inv).None?
    modifies file
    ensures report.Some? <==> reportWritable
    ensures report.Some? ==> report.value == (HourFloor(clocks.gate), ReportOf(fmt, cfg, inv, regionCosts, clocks))
    ensures outcome == if !reportWritable then Err(ReportNotWritten) else if !stateWritable then Err(StateNotWritten) else Ok(())
    ensures !reportWritable ==> file.stored == old(file.stored)
    ensures reportWritable ==>
      file.stored == if stateWritable then Some(PersistentState(Some(HourFloor(clocks.gate)))) else old(file.stored)
  {
    var thisRun := HourFloor(clocks.gate);
    var computes, storages := Gather(cfg, inv, regionCosts, clocks);
    if !reportWritable {
      return Err(ReportNotWritten), None;
    }
    var writer := new EventWriter();
    WriteXmlTo(writer, fmt, computes, storages);
    ghost var document := ReportOf(fmt, cfg, inv, regionCosts, clocks);
    assert writer.events == document;
    report := Some((thisRun, writer.events));
    file.state := PersistentState(Some(thisRun));
    var written := file.Write(stateWritable);
    if !written {
      return Err(StateNotWritten), report;
    }
    outcome := Ok(());
  }

  /**
   * `main` after its configuration is loaded. `auth` is the token request's
   * reply (the token and its catalog), `inv` the listings' replies; the report
   * is returned with the hour that names its file.
   */
  method Run(cfg: Config, keystoneUrl: Url, rewriteHost: bool, costs: map<string, map<string, real>>,
             file: PersistentStateFile, clocks: Clocks, auth: Result<(string, seq<Service>), OsError>,
             inv: Inventory, fmt: Formats, reportWritable: bool, stateWritable: bool)
    returns (outcome: Result<(), RunError>, report: Option<(Instant, seq<XmlEvent>)>)
    modifies file
    ensures cfg.region !in costs ==> outcome == Err(UnknownRegion(cfg.region))
    ensures outcome.Ok? && report.None? <==>
      cfg.region in costs && old(file.state).lastTimepoint == Some(HourFloor(clocks.gate))
    ensures cfg.region in costs && old(file.state).lastTimepoint != Some(HourFloor(clocks.gate)) && auth.Err? ==>
      outcome == Err(AuthFailed(auth.error))
    ensures (cfg.region in costs && old(file.state).lastTimepoint != Some(HourFloor(clocks.gate)) && auth.Ok?
      && NewSession(auth.value.0, keystoneUrl, auth.value.1, cfg.region, rewriteHost).Err?) ==>
      outcome == Err(NoEndpoint(NewSession(auth.value.0, keystoneUrl, auth.value.1, cfg.region, rewriteHost).error))
    ensures (cfg.region in costs && old(file.state).lastTimepoint != Some(HourFloor(clocks.gate)) && auth.Ok?
      && NewSession(auth.value.0, keystoneUrl, auth.value.1, cfg.region, rewriteHost).Ok? && FetchFailure(inv).Some?) ==>
      outcome == Err(FetchFailed(FetchFailure(inv).value))
    ensures report.Some? <==>
      Reaches(cfg, keystoneUrl, rewriteHost, costs, old(file.state), clocks.gate, auth, inv) && reportWritable
    ensures report.Some? ==>
      report.value == (HourFloor(clocks.gate), ReportOf(fmt, cfg, inv, costs[cfg.region], clocks))
    ensures Reaches(cfg, keystoneUrl, rewriteHost, costs, old(file.state), clocks.gate, auth, inv) ==>
      outcome == if !reportWritable then Err(ReportNotWritten) else if !stateWritable then Err(StateNotWritten) else Ok(())
    ensures file.stored != old(file.stored) ==>
      report.Some? && file.stored == Some(PersistentState(Some(HourFloor(clocks.gate))))
    ensures outcome.Ok? && report.Some? ==> file.stored == Some(PersistentState(Some(HourFloor(clocks.gate))))
    ensures !stateWritable ==> file.stored == old(file.stored)
  {
    report := None;
    if cfg.region !in costs {
      return Err(UnknownRegion(cfg.region)), None;
    }
    var regionCosts := costs[cfg.region];
    var thisRun := HourFloor(clocks.gate);
    if file.state.lastTimepoint == Some(thisRun) {
      return Ok(()), None;
    }
    if auth.Err? {
      return Err(AuthFailed(auth.error)), None;
    }
    var session := NewSession(auth.value.0, keystoneUrl, auth.value.1, cfg.region, rewriteHost);
    if session.Err? {
      return Err(NoEndpoint(session.error)), None;
    }
    if FetchFailure(inv).Some? {
      return Err(FetchFailed(FetchFailure(inv).value)), None;
    }
    outcome, report := Publish(fmt, cfg, inv, regionCosts, clocks, file, reportWritable, stateWritable);
  }

  /**
   * Every record of a run carries the configured site, region and resource,
   * and the same whole hour: it starts on the hour of the window clock and
   * lasts one hour.
   */
  lemma RecordsShareWindow(cfg: Config, inv: Inventory, regionCosts: map<string, real>, clocks: Clocks)
    requires FetchFailure(inv).None?
    ensures var w := BillingWindow(clocks.window);
      var records := BilledRecords(cfg, w, LookupsOf(inv, regionCosts), inv, clocks);
      && (forall k :: 0 <= k < |records.0| ==> InRun(cfg, w, records.0[k].common))
      && (forall k :: 0 <= k < |records.1| ==> InRun(cfg, w, records.1[k].common))
      && w.start == HourFloor(clocks.window) && w.end == w.start + Hour && w.duration == Hour
  {
    var w := BillingWindow(clocks.window);
    var lk := LookupsOf(inv, regionCosts);
    var ledger := DiscountLedger(lk, inv.servers.value);
    SomesHold(ServerOutcomes(cfg, w, lk, inv.servers.value, clocks.serverCreated),
      (r: CloudComputeRecord) => InRun(cfg, w, r.common));
    var vs := Somes(VolumeOutcomes(cfg, w, lk, ledger, inv.volumes.value, clocks.volumeCreated));
    var ims := Somes(ImageOutcomes(cfg, w, lk, inv.images.value, clocks.imageCreated));
    SomesHold(VolumeOutcomes(cfg, w, lk, ledger, inv.volumes.value, clocks.volumeCreated),
      (r: CloudStorageRecord) => InRun(cfg, w, r.common));
    SomesHold(ImageOutcomes(cfg, w, lk, inv.images.value, clocks.imageCreated),
      (r: CloudStorageRecord) => InRun(cfg, w, r.common));
    assert forall k :: 0 <= k < |vs + ims| ==> (vs + ims)[k] == if k < |vs| then vs[k] else ims[k - |vs|];
  }
}
