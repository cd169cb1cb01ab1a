/**
 * The legacy Python logger, `ssc-billing-logger.py`: it chooses a reporting
 * period after the last one it reported, turns the ceilometer measurements of
 * that period into compute and storage records, and writes them with the new
 * last timepoint unless it is a dry run.
 */
module LegacyLogger {
  import opened Wrappers
  import opened Clock
  import opened DecimalText
  import opened Collections

  // ---- Small helpers ----

  /** `http_category`: the status class of an HTTP status code (Python's `//` floors, as Dafny's `/` does here). */
  function HttpCategory(code: int): (r: int)
    ensures r % 100 == 0
    ensures r <= code && code - r < 100
  {
    code / 100 * 100
  }

  /** The class is the only multiple of 100 within 100 below the code. */
  lemma HttpCategoryUnique(code: int, r: int)
    requires r % 100 == 0 && r <= code < r + 100
    ensures HttpCategory(code) == r
  {
    var c := HttpCategory(code);
    assert (c - r) % 100 == 0 by {
      assert c == (c / 100) * 100;
      assert r == (r / 100) * 100;
      assert c - r == (c / 100 - r / 100) * 100;
    }
  }

  /** `CostDefinition`: the rates of the configured region. */
  datatype CostDefinition = CostDefinition(flavorCosts: map<string, real>) {
    /** `lookup_compute`: the flavour's rate, or 0 when it is not defined. */
    function LookupCompute(flavorName: string): (r: real)
      ensures flavorName in flavorCosts ==> r == flavorCosts[flavorName]
      ensures flavorName !in flavorCosts ==> r == 0.0
    {
      if flavorName in flavorCosts then flavorCosts[flavorName] else 0.0
    }

    /** `lookup_block_storage`: the block rate times the size, or 0 when there is no block rate. */
    function LookupBlockStorage(gigabytes: real): (r: real)
      ensures "storage.block" in flavorCosts ==> r == flavorCosts["storage.block"] * gigabytes
      ensures "storage.block" !in flavorCosts ==> r == 0.0
    {
      if "storage.block" in flavorCosts then flavorCosts["storage.block"] * gigabytes else 0.0
    }
  }

  /** The block-storage cost is linear in the size: the cost of two sizes is the sum of their costs. */
  lemma LookupBlockStorageLinear(cd: CostDefinition, a: real, b: real)
    ensures cd.LookupBlockStorage(a + b) == cd.LookupBlockStorage(a) + cd.LookupBlockStorage(b)
    ensures cd.LookupBlockStorage(0.0) == 0.0
  {
    if "storage.block" in cd.flavorCosts {
      var rate := cd.flavorCosts["storage.block"];
      assert rate * (a + b) == rate * a + rate * b;
    }
  }

  /** Python's `int()` of a float: the integer part, truncated toward zero. */
  function TruncateToInt(x: real): (n: int)
    ensures x >= 0.0 ==> n as real <= x < n as real + 1.0
    ensures x < 0.0 ==> n as real - 1.0 < x <= n as real
  {
    if x >= 0.0 then x.Floor else -((-x).Floor)
  }

  /** `2**30` */
  const BytesPerGiB: int := 1_073_741_824

  // ---- Reporting period ----

  /** The outcome of the window logic in `main`: no run, or the period to report. */
  datatype Period = NoRun | Run(start: Instant, end: Instant)

  /**
   * The period selection of `main`. `stored` is the persisted last timepoint;
   * `now1` and `now2` are the two `arrow.utcnow()` readings, for the
   * three-weeks-back default start and for `period_end`.
   */
  function SelectWindow(stored: Option<Instant>, now1: Instant, now2: Instant, singleStep: bool): (p: Period)
    ensures var start := if stored.Some? then stored.value else HourFloor(now1 - 3 * Week);
      var end := HourFloor(now2);
      && (p.NoRun? <==> end <= start || (singleStep && end < start + Hour))
      && (p.Run? ==> p.start == start)
      && (p.Run? && singleStep ==> p.end == start + Hour)
      && (p.Run? && !singleStep ==> p.end == if start + Day < end then start + Day else end)
  {
    var lastFullReport := if stored.None? then HourFloor(now1 - 3 * Week) else stored.value;
    var periodStart := lastFullReport;
    var periodEnd := HourFloor(now2);
    if periodEnd <= periodStart then NoRun
    else if singleStep then
      var succ := periodStart + Hour;
      if periodEnd < succ then NoRun else Run(periodStart, succ)
    else
      var succ := periodStart + Day;
      Run(periodStart, if succ < periodEnd then succ else periodEnd)
  }

  /**
   * A period that runs is non-empty, at most a day long, and does not go past
   * the current hour; from an hour-aligned start it ends on the hour, and the
   * first run without a stored timepoint starts three weeks back.
   */
  lemma SelectWindowBounds(stored: Option<Instant>, now1: Instant, now2: Instant, singleStep: bool)
    ensures var p := SelectWindow(stored, now1, now2, singleStep);
      p.Run? ==> p.start < p.end <= p.start + Day && p.end <= HourFloor(now2)
    ensures var p := SelectWindow(stored, now1, now2, singleStep);
      p.Run? && stored.None? ==> p.start == HourFloor(now1 - 3 * Week) && p.start % Hour == 0 && p.end % Hour == 0
    ensures var p := SelectWindow(stored, now1, now2, singleStep);
      p.Run? && stored.Some? && stored.value % Hour == 0 ==> p.end % Hour == 0
  {
  }

  // ---- Measurements and records ----

  /**
   * One entry of `instance_measurements`: the resource, its project and user,
   * the statistics period, and whichever of the allocation meters were given.
   */
  datatype Measurement = Measurement(
    resourceId: string,
    projectId: string,
    userId: string,
    startTime: Instant,
    endTime: Instant,
    duration: string,
    zone: string,
    flavor: Option<string>,
    allocatedCpu: Option<real>,
    allocatedMemory: Option<real>,
    allocatedDisk: Option<real>)

  /** `'PT%dS' % (duration_seconds,)` with `duration_seconds = 3600`. */
  function DurationIso(durationSeconds: nat): string {
    "PT" + NatToString(durationSeconds) + "S"
  }

  /**
   * The fields `populate_instances` sets when it first sees a resource in a
   * period: the zone falls back to "default" and the duration is one hour.
   * A resource first seen by the `vcpus` or `memory` statistics carries the
   * `instance_type` of its metadata as its flavour; one seen by the
   * `volume.size` statistics carries none (`flavor` is `None` there).
   */
  function NewMeasurement(resourceId: string, projectId: string, userId: string, start: Instant, end: Instant,
                          flavor: Option<string>, availabilityZone: Option<string>): (m: Measurement)
    ensures m.zone == if availabilityZone.Some? then availabilityZone.value else "default"
    ensures m.duration == "PT3600S"
    ensures m.flavor == flavor
    ensures m.allocatedCpu.None? && m.allocatedMemory.None? && m.allocatedDisk.None?
    ensures m.resourceId == resourceId && m.projectId == projectId && m.userId == userId
    ensures m.startTime == start && m.endTime == end
  {
    assert NatToString(3600) == "3600" by {
      assert NatToString(3) == "3";
      assert NatToString(36) == NatToString(3) + [DigitChar(6)];
      assert NatToString(360) == NatToString(36) + [DigitChar(0)];
    }
    Measurement(resourceId, projectId, userId, start, end, DurationIso(3600), availabilityZone.GetOr("default"),
      flavor, None, None, None)
  }

  /** What `CloudRecord` takes from the configuration. */
  datatype PyConfig = PyConfig(site: Option<string>, resource: string, region: string)

  datatype PyCommon = PyCommon(
    site: Option<string>,
    resource: string,
    region: string,
    project: string,
    user: string,
    instanceId: string,
    startTime: Instant,
    endTime: Instant,
    duration: string,
    zone: string,
    cost: real)

  datatype PyRecord =
    | ComputeRecord(common: PyCommon, flavour: string, allocatedCpu: real, allocatedMemory: real)
    | StorageRecord(common: PyCommon, storageType: string, allocatedDisk: int)

  /** `"%s" % (site,)`: a missing site prints as `None`. */
  function SiteText(site: Option<string>): string {
    if site.Some? then site.value else "None"
  }

  /** `recordid` of both record classes: "/cr/" for compute, "/sr/" for storage. */
  function PyRecordId(r: PyRecord): (id: string)
    ensures var kind := if r.ComputeRecord? then "cr" else "sr";
      id == "ssc/" + SiteText(r.common.site) + "/" + kind + "/" + r.common.instanceId + "/"
        + IntToString(Timestamp(r.common.endTime))
  {
    var kind := if r.ComputeRecord? then "/cr/" else "/sr/";
    "ssc/" + SiteText(r.common.site) + kind + r.common.instanceId + "/" + IntToString(Timestamp(r.common.endTime))
  }

  /**
   * The id ends in the end time's epoch seconds, which read back from it: the
   * digits of their magnitude come last, after a "-" exactly when the time
   * lies before the epoch and after the "/" that closes the instance id otherwise.
   */
  lemma PyRecordIdEndsInTimestamp(r: PyRecord)
    ensures var id := PyRecordId(r); var ts := Timestamp(r.common.endTime);
      var digits := NatToString(if ts < 0 then -ts else ts);
      && |digits| < |id|
      && id[|id| - |digits|..] == digits
      && ParseNat(digits) == (if ts < 0 then -ts else ts)
      && id[|id| - |digits| - 1] == (if ts < 0 then '-' else '/')
  {
    var ts := Timestamp(r.common.endTime);
    var digits := NatToString(if ts < 0 then -ts else ts);
    var kind := if r.ComputeRecord? then "/cr/" else "/sr/";
    var prefix := "ssc/" + SiteText(r.common.site) + kind + r.common.instanceId + "/";
    var tail := if ts < 0 then "-" + digits else digits;
    assert PyRecordId(r) == prefix + tail;
    var id := prefix + tail;
    assert id[|id| - |digits|..] == digits;
    assert id[|id| - |digits| - 1] == (if ts < 0 then '-' else '/');
    NatToStringRoundTrip(if ts < 0 then -ts else ts);
  }

  /** For the same site a compute record and a storage record never share a record id. */
  lemma PyRecordIdsDistinct(c: PyRecord, s: PyRecord)
    requires c.ComputeRecord? && s.StorageRecord? && c.common.site == s.common.site
    ensures PyRecordId(c) != PyRecordId(s)
  {
    var n := |"ssc/" + SiteText(c.common.site)|;
    assert PyRecordId(c)[n + 1] == 'c';
    assert PyRecordId(s)[n + 1] == 's';
  }

  /** Why `gather_cloud_records` raises. */
  datatype GatherError =
    | NeitherComputeNorStorage(resourceId: string)
    | MissingFlavor(resourceId: string)
    | UnresolvedIdentity(resourceId: string)

  /** What one measurement contributes: nothing, a record, or an exception that ends the run. */
  datatype Step = Skip | Keep(record: PyRecord) | Fail(error: GatherError)

  /** The inputs `gather_cloud_records` looks things up in. */
  datatype Tables = Tables(
    cfg: PyConfig,
    costs: CostDefinition,
    users: map<string, string>,
    projects: map<string, string>,
    deletedAt: map<string, Instant>)

  /** `volume_deletion_time(id) < StartTime`: the resource was deleted before the period began. */
  predicate DeletedBefore(t: Tables, m: Measurement) {
    m.resourceId in t.deletedAt && t.deletedAt[m.resourceId] < m.startTime
  }

  predicate IsCompute(m: Measurement) {
    m.allocatedCpu.Some? && m.allocatedMemory.Some?
  }

  predicate Resolves(t: Tables, m: Measurement) {
    m.userId in t.users && m.projectId in t.projects
  }

  /**
   * The body of the measurement loop of `gather_cloud_records`, as written:
   * the `next` under `if user is None or proj is None` is an expression, not
   * a `continue`, so an unknown user or project is only noticed at
   * `cr.Project = proj['project']['name']`, where indexing `None` raises.
   */
  function StepAsWritten(t: Tables, m: Measurement): (s: Step)
    ensures s.Skip? <==> DeletedBefore(t, m)
    ensures s.Keep? <==> (!DeletedBefore(t, m) && Resolves(t, m)
      && (if IsCompute(m) then m.flavor.Some? else m.allocatedDisk.Some?))
    ensures !DeletedBefore(t, m) && IsCompute(m) && m.flavor.None? ==> s == Fail(MissingFlavor(m.resourceId))
    ensures !DeletedBefore(t, m) && !IsCompute(m) && m.allocatedDisk.None? ==>
      s == Fail(NeitherComputeNorStorage(m.resourceId))
    ensures !DeletedBefore(t, m) && !Resolves(t, m) && (if IsCompute(m) then m.flavor.Some? else m.allocatedDisk.Some?) ==>
      s == Fail(UnresolvedIdentity(m.resourceId))
  {
    if DeletedBefore(t, m) then Skip
    else
      var made: Result<PyRecord, GatherError> :=
        if IsCompute(m) then
          if m.flavor.None? then Err(MissingFlavor(m.resourceId))
          else Ok(ComputeRecord(Fill(t, m, t.costs.LookupCompute(m.flavor.value)), m.flavor.value,
            m.allocatedCpu.value, m.allocatedMemory.value))
        else if m.allocatedDisk.Some? then
          var gigabytes := m.allocatedDisk.value;
          Ok(StorageRecord(Fill(t, m, t.costs.LookupBlockStorage(gigabytes)), "Block",
            TruncateToInt(gigabytes * BytesPerGiB as real)))
        else Err(NeitherComputeNorStorage(m.resourceId));
      if made.Err? then Fail(made.error)
      else if !Resolves(t, m) then Fail(UnresolvedIdentity(m.resourceId))
      else Keep(made.value)
  }

  /** The fields the `cr.Project = …` to `cr.Zone = …` assignments copy onto a record, with its cost. */
  function Fill(t: Tables, m: Measurement, cost: real): PyCommon {
    PyCommon(t.cfg.site, t.cfg.resource, t.cfg.region,
      if m.projectId in t.projects then t.projects[m.projectId] else "",
      if m.userId in t.users then t.users[m.userId] else "",
      m.resourceId, m.startTime, m.endTime, m.duration, m.zone, cost)
  }

  /** The evidently intended behaviour of that `next`: a measurement whose user or project is unknown is skipped. */
  function StepCorrected(t: Tables, m: Measurement): (s: Step)
    ensures s.Skip? <==> !Resolves(t, m) || DeletedBefore(t, m)
    ensures !s.Skip? ==> s == StepAsWritten(t, m)
  {
    if !Resolves(t, m) then Skip else StepAsWritten(t, m)
  }

  /** The record list built so far, or the first exception. */
  function Fold(steps: seq<Step>): Result<seq<PyRecord>, GatherError>
    decreases |steps|
  {
    if steps == [] then Ok([])
    else
      var prior := Fold(steps[..|steps| - 1]);
      var last := steps[|steps| - 1];
      if prior.Err? then prior
      else if last.Fail? then Err(last.error)
      else if last.Keep? then Ok(prior.value + [last.record])
      else prior
  }

  /** The record of a step, when it keeps one. */
  function Kept(s: Step): Option<PyRecord> {
    if s.Keep? then Some(s.record) else None
  }

  function KeptAll(steps: seq<Step>): (ks: seq<Option<PyRecord>>)
    ensures |ks| == |steps| && forall i :: 0 <= i < |steps| ==> ks[i] == Kept(steps[i])
  {
    seq(|steps|, i requires 0 <= i < |steps| => Kept(steps[i]))
  }

  /**
   * The fold succeeds iff no step fails, and then holds the kept records in
   * order; otherwise it reports the first failure.
   */
  lemma {:induction false} FoldExact(steps: seq<Step>)
    ensures Fold(steps).Ok? <==> forall i :: 0 <= i < |steps| ==> !steps[i].Fail?
    ensures Fold(steps).Ok? ==> Fold(steps).value == Somes(KeptAll(steps))
    ensures Fold(steps).Err? ==> exists i :: (0 <= i < |steps| && steps[i].Fail? && Fold(steps).error == steps[i].error
      && forall j :: 0 <= j < i ==> !steps[j].Fail?)
    decreases |steps|
  {
    if steps != [] {
      var n := |steps| - 1;
      var prefix := steps[..n];
      FoldExact(prefix);
      assert forall i :: 0 <= i < n ==> prefix[i] == steps[i];
      assert KeptAll(steps)[..n] == KeptAll(prefix);
      SomesSnoc(KeptAll(steps), n);
      if Fold(prefix).Ok? && steps[n].Fail? {
        assert forall j :: 0 <= j < n ==> !steps[j].Fail?;
      }
    }
  }

  lemma FoldSnoc(steps: seq<Step>, i: nat)
    requires i < |steps|
    ensures var prior := Fold(steps[..i]);
      Fold(steps[..i + 1]) == if prior.Err? then prior else if steps[i].Fail? then Err(steps[i].error)
        else if steps[i].Keep? then Ok(prior.value + [steps[i].record]) else prior
  {
    assert steps[..i + 1][..i] == steps[..i];
  }

  /** Once the fold has failed, later steps do not change it. */
  lemma {:induction false} FoldFailSticks(steps: seq<Step>, i: nat)
    requires i <= |steps| && Fold(steps[..i]).Err?
    ensures Fold(steps) == Fold(steps[..i])
    decreases |steps| - i
  {
    if i < |steps| {
      FoldSnoc(steps, i);
      FoldFailSticks(steps, i + 1);
    } else {
      assert steps[..i] == steps;
    }
  }

  function StepsAsWritten(t: Tables, ms: seq<Measurement>): (steps: seq<Step>)
    ensures |steps| == |ms| && forall i :: 0 <= i < |ms| ==> steps[i] == StepAsWritten(t, ms[i])
  {
    seq(|ms|, i requires 0 <= i < |ms| => StepAsWritten(t, ms[i]))
  }

  function StepsCorrected(t: Tables, ms: seq<Measurement>): (steps: seq<Step>)
    ensures |steps| == |ms| && forall i :: 0 <= i < |ms| ==> steps[i] == StepCorrected(t, ms[i])
  {
    seq(|ms|, i requires 0 <= i < |ms| => StepCorrected(t, ms[i]))
  }

  /** `gather_cloud_records` as written. */
  function GatherAsWritten(t: Tables, ms: seq<Measurement>): Result<seq<PyRecord>, GatherError> {
    Fold(StepsAsWritten(t, ms))
  }

  /** `gather_cloud_records` with the `next` skipping the measurement. */
  function Gather(t: Tables, ms: seq<Measurement>): Result<seq<PyRecord>, GatherError> {
    Fold(StepsCorrected(t, ms))
  }

  /**
   * As written, one storage measurement with an unknown user ends the whole
   * run with an exception, where skipping it was evidently meant.
   */
  lemma UnresolvedAbortsAsWritten()
    ensures var t := Tables(PyConfig(Some("site"), "res", "reg"), CostDefinition(map[]), map[], map["p" := "P"], map[]);
      var m := Measurement("vol", "p", "u", 0, Hour, "PT3600S", "default", None, None, None, Some(1.0));
      && GatherAsWritten(t, [m]) == Err(UnresolvedIdentity("vol"))
      && Gather(t, [m]) == Ok([])
  {
    var t := Tables(PyConfig(Some("site"), "res", "reg"), CostDefinition(map[]), map[], map["p" := "P"], map[]);
    var m := Measurement("vol", "p", "u", 0, Hour, "PT3600S", "default", None, None, None, Some(1.0));
    assert StepAsWritten(t, m) == Fail(UnresolvedIdentity("vol"));
    assert StepsAsWritten(t, [m]) == [Fail(UnresolvedIdentity("vol"))];
    assert StepsCorrected(t, [m]) == [Skip];
    assert [Fail(UnresolvedIdentity("vol"))][..0] == [];
    assert [Skip][..0] == [];
  }

  /**
   * With the correction every kept measurement has a known user and project and
   * is not deleted, a compute record comes from a measurement with CPU and
   * memory that is costed by flavour, and a storage record is "Block" with its
   * size in bytes and costed by size.
   */
  lemma StepCorrectedRecord(t: Tables, m: Measurement)
    requires StepCorrected(t, m).Keep?
    ensures Resolves(t, m) && !DeletedBefore(t, m)
    ensures var r := StepCorrected(t, m).record;
      && r.common.project == t.projects[m.projectId] && r.common.user == t.users[m.userId]
      && r.common.instanceId == m.resourceId && r.common.zone == m.zone && r.common.duration == m.duration
      && r.common.startTime == m.startTime && r.common.endTime == m.endTime
      && (r.ComputeRecord? <==> IsCompute(m))
      && (r.ComputeRecord? ==>
            (r.flavour == m.flavor.value && r.common.cost == t.costs.LookupCompute(m.flavor.value)
             && r.allocatedCpu == m.allocatedCpu.value && r.allocatedMemory == m.allocatedMemory.value))
      && (r.StorageRecord? ==>
            (r.storageType == "Block"
             && r.allocatedDisk == TruncateToInt(m.allocatedDisk.value * BytesPerGiB as real)
             && r.common.cost == t.costs.LookupBlockStorage(m.allocatedDisk.value)))
  {
  }

  /** `gather_cloud_records`, with the measurement loop and its early exits, on the corrected `next`. */
  method GatherCloudRecords(t: Tables, ms: seq<Measurement>) returns (r: Result<seq<PyRecord>, GatherError>)
    ensures r == Gather(t, ms)
  {
    ghost var steps := StepsCorrected(t, ms);
    var crs: seq<PyRecord> := [];
    for i := 0 to |ms|
      invariant Fold(steps[..i]) == Ok(crs)
    {
      var inst := ms[i];
      FoldSnoc(steps, i);
      if inst.userId !in t.users || inst.projectId !in t.projects {
        continue;
      }
      if inst.resourceId in t.deletedAt && t.deletedAt[inst.resourceId] < inst.startTime {
        continue;
      }
      var cr: PyRecord;
      if inst.allocatedCpu.Some? && inst.allocatedMemory.Some? {
        if inst.flavor.None? {
          r := Err(MissingFlavor(inst.resourceId));
          FoldFailSticks(steps, i + 1);
          return;
        }
        var flavorName := inst.flavor.value;
        cr := ComputeRecord(Fill(t, inst, t.costs.LookupCompute(flavorName)), flavorName,
          inst.allocatedCpu.value, inst.allocatedMemory.value);
      } else if inst.allocatedDisk.Some? {
        var gigabytes := inst.allocatedDisk.value;
        cr := StorageRecord(Fill(t, inst, t.costs.LookupBlockStorage(gigabytes)), "Block",
          TruncateToInt(gigabytes * BytesPerGiB as real));
      } else {
        r := Err(NeitherComputeNorStorage(inst.resourceId));
        FoldFailSticks(steps, i + 1);
        return;
      }
      crs := crs + [cr];
    }
    assert steps[..|ms|] == steps;
    r := Ok(crs);
  }

  // ---- Writing ----

  function Computes(records: seq<PyRecord>): (cs: seq<PyRecord>)
    ensures forall k :: 0 <= k < |cs| ==> cs[k].ComputeRecord?
    decreases |records|
  {
    if records == [] then []
    else Computes(records[..|records| - 1]) + (if records[|records| - 1].ComputeRecord? then [records[|records| - 1]] else [])
  }

  function Storages(records: seq<PyRecord>): (ss: seq<PyRecord>)
    ensures forall k :: 0 <= k < |ss| ==> ss[k].StorageRecord?
    decreases |records|
  {
    if records == [] then []
    else Storages(records[..|records| - 1]) + (if records[|records| - 1].StorageRecord? then [records[|records| - 1]] else [])
  }

  /** Splitting by kind loses and duplicates nothing: together the two lists are the records, rearranged. */
  lemma {:induction false} SplitIsPermutation(records: seq<PyRecord>)
    ensures multiset(Computes(records)) + multiset(Storages(records)) == multiset(records)
    decreases |records|
  {
    if records != [] {
      var n := |records| - 1;
      SplitIsPermutation(records[..n]);
      assert records == records[..n] + [records[n]];
    }
  }

  /**
   * `write_cloud_records`: the children of the root, every
   * compute record first, then every storage record, each kind in list order.
   */
  method WriteCloudRecords(records: seq<PyRecord>) returns (root: seq<PyRecord>)
    ensures root == Computes(records) + Storages(records)
  {
    root := [];
    for i := 0 to |records|
      invariant root == Computes(records[..i])
    {
      assert records[..i + 1][..i] == records[..i];
      if records[i].ComputeRecord? {
        root := root + [records[i]];
      }
    }
    assert records[..|records|] == records;
    ghost var computes := root;
    for i := 0 to |records|
      invariant root == computes + Storages(records[..i])
    {
      assert records[..i + 1][..i] == records[..i];
      if records[i].StorageRecord? {
        root := root + [records[i]];
      }
    }
    assert records[..|records|] == records;
  }

  /** The written document holds the records, rearranged, with no storage record before a compute record. */
  lemma WrittenOrder(records: seq<PyRecord>)
    ensures var root := Computes(records) + Storages(records);
      && multiset(root) == multiset(records)
      && forall k, l :: 0 <= k < |root| && 0 <= l < |root| && root[k].StorageRecord? && root[l].ComputeRecord? ==> l < k
  {
    SplitIsPermutation(records);
    var cs, ss := Computes(records), Storages(records);
    var root := cs + ss;
    assert forall i :: 0 <= i < |cs| ==> root[i] == cs[i];
    assert forall i :: |cs| <= i < |root| ==> root[i] == ss[i - |cs|];
  }

  // ---- The run ----

  /** `PersistentState`: the last timepoint in memory, and the one `state.json` holds. */
  class PersistentState {
    var lastTimepoint: Option<Instant>
    var stored: Option<Instant>

    /** Reading the file: no file, or no timepoint in it, leaves the timepoint unset. */
    constructor Load(onDisk: Option<Instant>)
      ensures lastTimepoint == onDisk && stored == onDisk
    {
      lastTimepoint := onDisk;
      stored := onDisk;
    }

    method Write()
      modifies this
      ensures stored == lastTimepoint && lastTimepoint == old(lastTimepoint)
    {
      stored := lastTimepoint;
    }
  }

  /** Why `main` raises. */
  datatype PyError = MeasurementsFailed | FlavorsFailed | GatherFailed(cause: GatherError)

  /**
   * `main` after the configuration and cost files are read. `measure` answers
   * the ceilometer queries for a period; `flavorsFetched` says whether the
   * flavor listing `gather_cloud_records` requests first succeeded. The
   * written report carries the period end that names its file.
   */
  method PyMain(t: Tables, state: PersistentState, now1: Instant, now2: Instant, singleStep: bool, dryRun: bool,
                measure: (Instant, Instant) -> Option<seq<Measurement>>, flavorsFetched: bool)
    returns (outcome: Result<(), PyError>, written: Option<(Instant, seq<PyRecord>)>)
    modifies state
    ensures var p := SelectWindow(old(state.lastTimepoint), now1, now2, singleStep);
      p.NoRun? ==> (outcome.Ok? && written.None? && state.stored == old(state.stored)
        && state.lastTimepoint == old(state.lastTimepoint))
    ensures var p := SelectWindow(old(state.lastTimepoint), now1, now2, singleStep);
      p.Run? && measure(p.start, p.end).None? ==> outcome == Err(MeasurementsFailed) && written.None?
    ensures var p := SelectWindow(old(state.lastTimepoint), now1, now2, singleStep);
      p.Run? && measure(p.start, p.end).Some? && !flavorsFetched ==> outcome == Err(FlavorsFailed) && written.None?
    ensures var p := SelectWindow(old(state.lastTimepoint), now1, now2, singleStep);
      p.Run? && measure(p.start, p.end).Some? && flavorsFetched && Gather(t, measure(p.start, p.end).value).Err? ==>
        outcome == Err(GatherFailed(Gather(t, measure(p.start, p.end).value).error)) && written.None?
    ensures outcome.Err? ==> state.stored == old(state.stored)
    ensures var p := SelectWindow(old(state.lastTimepoint), now1, now2, singleStep);
      outcome.Ok? <==> (p.NoRun? || (measure(p.start, p.end).Some? && flavorsFetched
        && Gather(t, measure(p.start, p.end).value).Ok?))
    ensures var p := SelectWindow(old(state.lastTimepoint), now1, now2, singleStep);
      outcome.Ok? && p.Run? ==>
        var records := Gather(t, measure(p.start, p.end).value).value;
        && state.lastTimepoint == Some(p.end)
        && written == (if dryRun then None else Some((p.end, Computes(records) + Storages(records))))
        && state.stored == (if dryRun then old(state.stored) else Some(p.end))
  {
    written := None;
    var period := SelectWindow(state.lastTimepoint, now1, now2, singleStep);
    if period.NoRun? {
      return Ok(()), None;
    }
    var instanceMeasurements := measure(period.start, period.end);
    if instanceMeasurements.None? {
      return Err(MeasurementsFailed), None;
    }
    if !flavorsFetched {
      return Err(FlavorsFailed), None;
    }
    var cloudRecords := GatherCloudRecords(t, instanceMeasurements.value);
    if cloudRecords.Err? {
      return Err(GatherFailed(cloudRecords.error)), None;
    }
    if !dryRun {
      var root := WriteCloudRecords(cloudRecords.value);
      written := Some((period.end, root));
    }
    state.lastTimepoint := Some(period.end);
    if !dryRun {
      state.Write();
    }
    outcome := Ok(());
  }
}
