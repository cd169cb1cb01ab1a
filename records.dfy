/**
 * The version-1 cloud billing records and their fixed-schema XML form: one
 * `cr:CloudComputeRecord` or `cr:CloudStorageRecord` element per record, all
 * inside a `cr:CloudRecords` root in the SAMS cloud-records namespace.
 */
module Records {
  import opened Wrappers
  import opened Clock
  import opened DecimalText
  import opened XmlEvents

  /**
   * Text renderings that belong to libraries: chrono's `to_rfc3339` and
   * `Duration` display, and rust_decimal's display. They are taken as given.
   */
  datatype Formats = Formats(rfc3339: Instant -> string, duration: Span -> string, decimal: real -> string)

  datatype CloudRecordCommon = CloudRecordCommon(
    createTime: Instant,
    site: string,
    project: string,
    user: string,
    instanceId: string,
    startTime: Instant,
    endTime: Instant,
    duration: Span,
    region: string,
    resource: string,
    zone: string,
    cost: real,
    allocatedDisk: nat)

  datatype CloudComputeRecord = CloudComputeRecord(
    common: CloudRecordCommon,
    flavour: string,
    allocatedCpu: real,
    allocatedMemory: nat,
    usedCpu: Option<real>,
    usedMemory: Option<nat>,
    usedNetworkUp: Option<nat>,
    usedNetworkDown: Option<nat>,
    iops: Option<nat>)

  datatype CloudStorageRecord = CloudStorageRecord(
    common: CloudRecordCommon,
    storageType: string,
    fileCount: nat)

  const CrNamespace: string := "http://sams.snic.se/namespaces/2016/04/cloudrecords"
  const GiB: nat := 1_073_741_824

  /** The `cr:recordId` attribute: site, instance and the end of the window in epoch seconds. */
  function RecordId(c: CloudRecordCommon): string {
    "ssc/" + c.site + "/cr/" + c.instanceId + "/" + IntToString(Timestamp(c.endTime))
  }

  function RecordIdentityStart(fmt: Formats, c: CloudRecordCommon): XmlEvent {
    StartElement("cr:RecordIdentity",
      [Attribute("cr:createTime", fmt.rfc3339(c.createTime)), Attribute("cr:recordId", RecordId(c))],
      [])
  }

  /** An element emitted only when the field holds a value. */
  function OptionalElement(name: string, value: Option<string>): seq<XmlEvent> {
    if value.Some? then SimpleElement(name, value.value) else []
  }

  function OptionalName(name: string, value: Option<string>): seq<string> {
    if value.Some? then [name] else []
  }

  function RealText(fmt: Formats, v: Option<real>): Option<string> {
    if v.Some? then Some(fmt.decimal(v.value)) else None
  }

  function NatText(v: Option<nat>): Option<string> {
    if v.Some? then Some(NatToString(v.value)) else None
  }

  const RecordHeadNames: seq<string> := ["cr:RecordIdentity", "cr:Site", "cr:Project", "cr:User", "cr:InstanceId"]
  const RecordWindowNames: seq<string> := ["cr:StartTime", "cr:EndTime", "cr:Duration", "cr:Region", "cr:Resource", "cr:Zone"]
  const ComputeAllocationNames: seq<string> := ["cr:Flavour", "cr:Cost", "cr:AllocatedCPU", "cr:AllocatedDisk", "cr:AllocatedMemory"]
  const StorageAllocationNames: seq<string> := ["cr:Cost", "cr:AllocatedDisk", "cr:FileCount"]

  /**
   * The children of a compute record that are always present, in schema order:
   * RecordIdentity, Site, Project, User, InstanceId, StartTime, EndTime,
   * Duration, Region, Resource, Zone, Flavour, Cost, AllocatedCPU,
   * AllocatedDisk, AllocatedMemory.
   */
  const ComputeFixedChildren: seq<string> := RecordHeadNames + RecordWindowNames + ComputeAllocationNames

  /**
   * The children of a storage record, in schema order: RecordIdentity, Site,
   * Project, User, InstanceId, StorageType, StartTime, EndTime, Duration,
   * Region, Resource, Zone, Cost, AllocatedDisk, FileCount.
   */
  const StorageChildren: seq<string> := RecordHeadNames + ["cr:StorageType"] + RecordWindowNames + StorageAllocationNames

  /** The usage children of a compute record that are written, in schema order. */
  function ComputeOptionalChildren(r: CloudComputeRecord): seq<string> {
    (if r.usedCpu.Some? then ["cr:UsedCPU"] else [])
    + OptionalName("cr:UsedMemory", NatText(r.usedMemory))
    + OptionalName("cr:UsedNetworkUp", NatText(r.usedNetworkUp))
    + OptionalName("cr:UsedNetworkDown", NatText(r.usedNetworkDown))
    + OptionalName("cr:IOPS", NatText(r.iops))
  }

  /** The usage elements of a compute record, each present iff its field is. */
  function ComputeUsage(fmt: Formats, r: CloudComputeRecord): seq<XmlEvent> {
    OptionalElement("cr:UsedCPU", RealText(fmt, r.usedCpu))
    + OptionalElement("cr:UsedMemory", NatText(r.usedMemory))
    + OptionalElement("cr:UsedNetworkUp", NatText(r.usedNetworkUp))
    + OptionalElement("cr:UsedNetworkDown", NatText(r.usedNetworkDown))
    + OptionalElement("cr:IOPS", NatText(r.iops))
  }

  /** The identity element and the four fields every record starts with. */
  function RecordHead(fmt: Formats, c: CloudRecordCommon): seq<XmlEvent> {
    [RecordIdentityStart(fmt, c), EndElement]
    + SimpleElement("cr:Site", c.site)
    + SimpleElement("cr:Project", c.project)
    + SimpleElement("cr:User", c.user)
    + SimpleElement("cr:InstanceId", c.instanceId)
  }

  /** The billing window and where the resource lives. */
  function RecordWindow(fmt: Formats, c: CloudRecordCommon): seq<XmlEvent> {
    SimpleElement("cr:StartTime", fmt.rfc3339(c.startTime))
    + SimpleElement("cr:EndTime", fmt.rfc3339(c.endTime))
    + SimpleElement("cr:Duration", fmt.duration(c.duration))
    + SimpleElement("cr:Region", c.region)
    + SimpleElement("cr:Resource", c.resource)
    + SimpleElement("cr:Zone", c.zone)
  }

  /** Flavour, cost and the allocated resources of a compute record. */
  function ComputeAllocation(fmt: Formats, r: CloudComputeRecord): seq<XmlEvent> {
    SimpleElement("cr:Flavour", r.flavour)
    + SimpleElement("cr:Cost", fmt.decimal(r.common.cost))
    + SimpleElement("cr:AllocatedCPU", fmt.decimal(r.allocatedCpu))
    + SimpleElement("cr:AllocatedDisk", NatToString(r.common.allocatedDisk))
    + SimpleElement("cr:AllocatedMemory", NatToString(r.allocatedMemory))
  }

  /** The content of a `cr:CloudComputeRecord` element, as `write_to` emits it. */
  function ComputeContent(fmt: Formats, r: CloudComputeRecord): seq<XmlEvent> {
    RecordHead(fmt, r.common) + RecordWindow(fmt, r.common) + ComputeAllocation(fmt, r) + ComputeUsage(fmt, r)
  }

  function ComputeRecordEvents(fmt: Formats, r: CloudComputeRecord): seq<XmlEvent> {
    [Start("cr:CloudComputeRecord")] + ComputeContent(fmt, r) + [EndElement]
  }

  /** Cost, size and file count of a storage record. */
  function StorageAllocation(fmt: Formats, r: CloudStorageRecord): seq<XmlEvent> {
    SimpleElement("cr:Cost", fmt.decimal(r.common.cost))
    + SimpleElement("cr:AllocatedDisk", NatToString(r.common.allocatedDisk))
    + SimpleElement("cr:FileCount", NatToString(r.fileCount))
  }

  /** The content of a `cr:CloudStorageRecord` element, as `write_to` emits it. */
  function StorageContent(fmt: Formats, r: CloudStorageRecord): seq<XmlEvent> {
    RecordHead(fmt, r.common) + SimpleElement("cr:StorageType", r.storageType)
    + RecordWindow(fmt, r.common) + StorageAllocation(fmt, r)
  }

  function StorageRecordEvents(fmt: Formats, r: CloudStorageRecord): seq<XmlEvent> {
    [Start("cr:CloudStorageRecord")] + StorageContent(fmt, r) + [EndElement]
  }

  function ComputeRecordsEvents(fmt: Formats, rs: seq<CloudComputeRecord>): seq<XmlEvent>
    decreases |rs|
  {
    if rs == [] then [] else ComputeRecordsEvents(fmt, rs[..|rs| - 1]) + ComputeRecordEvents(fmt, rs[|rs| - 1])
  }

  function StorageRecordsEvents(fmt: Formats, rs: seq<CloudStorageRecord>): seq<XmlEvent>
    decreases |rs|
  {
    if rs == [] then [] else StorageRecordsEvents(fmt, rs[..|rs| - 1]) + StorageRecordEvents(fmt, rs[|rs| - 1])
  }

  const RootStart: XmlEvent := StartElement("cr:CloudRecords", [], [Namespace("cr", CrNamespace)])

  /** The whole document `write_xml_to` emits. */
  function DocumentEvents(fmt: Formats, computes: seq<CloudComputeRecord>, storages: seq<CloudStorageRecord>): seq<XmlEvent> {
    [RootStart] + (ComputeRecordsEvents(fmt, computes) + StorageRecordsEvents(fmt, storages)) + [EndElement]
  }

  function Repeat(name: string, n: nat): (r: seq<string>)
    ensures |r| == n && forall i :: 0 <= i < n ==> r[i] == name
    decreases n
  {
    if n == 0 then [] else Repeat(name, n - 1) + [name]
  }

  /**
   * The id's end is the window's end in epoch seconds, and can be read back:
   * the id is the site/instance prefix followed by exactly that number.
   */
  lemma RecordIdEndsInTimestamp(c: CloudRecordCommon)
    requires c.endTime >= 0
    ensures RecordId(c) == "ssc/" + c.site + "/cr/" + c.instanceId + "/" + NatToString(Timestamp(c.endTime))
    ensures ParseNat(RecordId(c)[|RecordId(c)| - |NatToString(Timestamp(c.endTime))|..]) == Timestamp(c.endTime)
  {
    var prefix := "ssc/" + c.site + "/cr/" + c.instanceId + "/";
    var digits := NatToString(Timestamp(c.endTime));
    assert RecordId(c) == prefix + digits;
    assert (prefix + digits)[|prefix + digits| - |digits|..] == digits;
    NatToStringRoundTrip(Timestamp(c.endTime));
  }

  /** In epoch seconds, for the example records. */
  function Seconds(s: int): Instant {
    s * NanosPerSecond
  }

  /**
   * `CloudComputeRecord::example()`: an hour-long ssc.small window ending at
   * 1550059200, with no usage fields. The creation time is the caller's clock.
   */
  function ComputeExample(createTime: Instant): (r: CloudComputeRecord)
    ensures r.common.endTime - r.common.startTime == r.common.duration == Seconds(3600)
    ensures Timestamp(r.common.endTime) == 1550059200
    ensures r.common.createTime == createTime
    ensures ComputeOptionalChildren(r) == []
  {
    CloudComputeRecord(
      CloudRecordCommon(createTime, "HPC2N", "SNIC 2018/10-30", "s11778", "1161cbd4-4c31-4052-8154-0c98881a1a69",
        Seconds(1550055600), Seconds(1550059200), Seconds(3600), "HPC2N", "SE-SNIC-SSC", "nova", 0.125, 0),
      "ssc.small", 1.0, 2048, None, None, None, None, None)
  }

  /** `CloudStorageRecord::example()`: ten GiB of block storage over the same hour. */
  function StorageExample(createTime: Instant): (r: CloudStorageRecord)
    ensures r.common.endTime - r.common.startTime == r.common.duration == Seconds(3600)
    ensures Timestamp(r.common.endTime) == 1550059200
    ensures r.common.createTime == createTime
    ensures r.common.allocatedDisk == 10 * GiB && r.fileCount == 0 && r.storageType == "Block"
  {
    CloudStorageRecord(
      CloudRecordCommon(createTime, "HPC2N", "SNIC 2018/10-20", "s3245", "41d169a8-e2e8-4e81-a8d0-6fda07316251",
        Seconds(1550055600), Seconds(1550059200), Seconds(3600), "HPC2N", "SE-SNIC-SSC", "nova", 0.001, 10737418240),
      "Block", 0)
  }

  // ---- The schema, read back from the events ----

  lemma RecordHeadForest(fmt: Formats, c: CloudRecordCommon)
    ensures Forest(RecordHead(fmt, c), RecordHeadNames)
  {
    var ri := RecordIdentityStart(fmt, c);
    Wrap(ri, []);
    assert [ri] + [] + [EndElement] == [ri, EndElement];
    var e, n := [ri, EndElement], ["cr:RecordIdentity"];
    e, n := Extend(e, n, "cr:Site", c.site);
    e, n := Extend(e, n, "cr:Project", c.project);
    e, n := Extend(e, n, "cr:User", c.user);
    e, n := Extend(e, n, "cr:InstanceId", c.instanceId);
  }

  lemma RecordWindowForest(fmt: Formats, c: CloudRecordCommon)
    ensures Forest(RecordWindow(fmt, c), RecordWindowNames)
  {
    SimpleElementForest("cr:StartTime", fmt.rfc3339(c.startTime));
    var e, n := SimpleElement("cr:StartTime", fmt.rfc3339(c.startTime)), ["cr:StartTime"];
    e, n := Extend(e, n, "cr:EndTime", fmt.rfc3339(c.endTime));
    e, n := Extend(e, n, "cr:Duration", fmt.duration(c.duration));
    e, n := Extend(e, n, "cr:Region", c.region);
    e, n := Extend(e, n, "cr:Resource", c.resource);
    e, n := Extend(e, n, "cr:Zone", c.zone);
  }

  lemma ComputeAllocationForest(fmt: Formats, r: CloudComputeRecord)
    ensures Forest(ComputeAllocation(fmt, r), ComputeAllocationNames)
  {
    SimpleElementForest("cr:Flavour", r.flavour);
    var e, n := SimpleElement("cr:Flavour", r.flavour), ["cr:Flavour"];
    e, n := Extend(e, n, "cr:Cost", fmt.decimal(r.common.cost));
    e, n := Extend(e, n, "cr:AllocatedCPU", fmt.decimal(r.allocatedCpu));
    e, n := Extend(e, n, "cr:AllocatedDisk", NatToString(r.common.allocatedDisk));
    e, n := Extend(e, n, "cr:AllocatedMemory", NatToString(r.allocatedMemory));
  }

  lemma OptionalElementForest(name: string, value: Option<string>)
    ensures Forest(OptionalElement(name, value), OptionalName(name, value))
  {
    if value.Some? {
      SimpleElementForest(name, value.value);
    }
  }

  lemma ComputeUsageForest(fmt: Formats, r: CloudComputeRecord)
    ensures Forest(ComputeUsage(fmt, r), ComputeOptionalChildren(r))
  {
    OptionalElementForest("cr:UsedCPU", RealText(fmt, r.usedCpu));
    OptionalElementForest("cr:UsedMemory", NatText(r.usedMemory));
    OptionalElementForest("cr:UsedNetworkUp", NatText(r.usedNetworkUp));
    OptionalElementForest("cr:UsedNetworkDown", NatText(r.usedNetworkDown));
    OptionalElementForest("cr:IOPS", NatText(r.iops));
    ForestAppend(OptionalElement("cr:UsedCPU", RealText(fmt, r.usedCpu)), OptionalName("cr:UsedCPU", RealText(fmt, r.usedCpu)),
      OptionalElement("cr:UsedMemory", NatText(r.usedMemory)), OptionalName("cr:UsedMemory", NatText(r.usedMemory)));
    var e := OptionalElement("cr:UsedCPU", RealText(fmt, r.usedCpu)) + OptionalElement("cr:UsedMemory", NatText(r.usedMemory));
    var n := OptionalName("cr:UsedCPU", RealText(fmt, r.usedCpu)) + OptionalName("cr:UsedMemory", NatText(r.usedMemory));
    ForestAppend(e, n, OptionalElement("cr:UsedNetworkUp", NatText(r.usedNetworkUp)), OptionalName("cr:UsedNetworkUp", NatText(r.usedNetworkUp)));
    e := e + OptionalElement("cr:UsedNetworkUp", NatText(r.usedNetworkUp));
    n := n + OptionalName("cr:UsedNetworkUp", NatText(r.usedNetworkUp));
    ForestAppend(e, n, OptionalElement("cr:UsedNetworkDown", NatText(r.usedNetworkDown)), OptionalName("cr:UsedNetworkDown", NatText(r.usedNetworkDown)));
    e := e + OptionalElement("cr:UsedNetworkDown", NatText(r.usedNetworkDown));
    n := n + OptionalName("cr:UsedNetworkDown", NatText(r.usedNetworkDown));
    ForestAppend(e, n, OptionalElement("cr:IOPS", NatText(r.iops)), OptionalName("cr:IOPS", NatText(r.iops)));
  }

  /**
   * A compute record is one `cr:CloudComputeRecord` element whose children are
   * the sixteen fixed fields in schema order, followed by the usage fields that
   * hold a value, in schema order.
   */
  lemma ComputeRecordShape(fmt: Formats, r: CloudComputeRecord)
    ensures IsElement(ComputeRecordEvents(fmt, r))
    ensures ComputeRecordEvents(fmt, r)[0] == Start("cr:CloudComputeRecord")
    ensures ChildNames(ComputeRecordEvents(fmt, r)) == ComputeFixedChildren + ComputeOptionalChildren(r)
    ensures Forest(ComputeRecordEvents(fmt, r), ["cr:CloudComputeRecord"])
  {
    RecordHeadForest(fmt, r.common);
    RecordWindowForest(fmt, r.common);
    ComputeAllocationForest(fmt, r);
    ComputeUsageForest(fmt, r);
    var h, wn, an := RecordHeadNames, RecordWindowNames, ComputeAllocationNames;
    ForestAppend(RecordHead(fmt, r.common), h, RecordWindow(fmt, r.common), wn);
    ForestAppend(RecordHead(fmt, r.common) + RecordWindow(fmt, r.common), h + wn, ComputeAllocation(fmt, r), an);
    ForestAppend(RecordHead(fmt, r.common) + RecordWindow(fmt, r.common) + ComputeAllocation(fmt, r), h + wn + an,
      ComputeUsage(fmt, r), ComputeOptionalChildren(r));
    Wrap(Start("cr:CloudComputeRecord"), ComputeContent(fmt, r));
  }

  /** A storage record is one `cr:CloudStorageRecord` element whose fifteen children come in schema order. */
  lemma StorageRecordShape(fmt: Formats, r: CloudStorageRecord)
    ensures IsElement(StorageRecordEvents(fmt, r))
    ensures StorageRecordEvents(fmt, r)[0] == Start("cr:CloudStorageRecord")
    ensures ChildNames(StorageRecordEvents(fmt, r)) == StorageChildren
    ensures Forest(StorageRecordEvents(fmt, r), ["cr:CloudStorageRecord"])
  {
    RecordHeadForest(fmt, r.common);
    RecordWindowForest(fmt, r.common);
    SimpleElementForest("cr:StorageType", r.storageType);
    var h, wn := RecordHeadNames, RecordWindowNames;
    SimpleElementForest("cr:Cost", fmt.decimal(r.common.cost));
    var e, n := SimpleElement("cr:Cost", fmt.decimal(r.common.cost)), ["cr:Cost"];
    e, n := Extend(e, n, "cr:AllocatedDisk", NatToString(r.common.allocatedDisk));
    e, n := Extend(e, n, "cr:FileCount", NatToString(r.fileCount));
    ForestAppend(RecordHead(fmt, r.common), h, SimpleElement("cr:StorageType", r.storageType), ["cr:StorageType"]);
    var head := RecordHead(fmt, r.common) + SimpleElement("cr:StorageType", r.storageType);
    ForestAppend(head, h + ["cr:StorageType"], RecordWindow(fmt, r.common), wn);
    ForestAppend(head + RecordWindow(fmt, r.common), h + ["cr:StorageType"] + wn, StorageAllocation(fmt, r), n);
    Wrap(Start("cr:CloudStorageRecord"), StorageContent(fmt, r));
  }

  /**
   * The record identity is the first child and carries the creation time and
   * the record id; compute and storage records built on the same common part
   * get the same id, under "/cr/" in both cases.
   */
  lemma RecordIdentityShared(fmt: Formats, cr: CloudComputeRecord, sr: CloudStorageRecord)
    requires cr.common == sr.common
    ensures ComputeRecordEvents(fmt, cr)[1] == RecordIdentityStart(fmt, cr.common)
    ensures StorageRecordEvents(fmt, sr)[1] == RecordIdentityStart(fmt, sr.common)
    ensures ComputeRecordEvents(fmt, cr)[1] == StorageRecordEvents(fmt, sr)[1]
    ensures ComputeRecordEvents(fmt, cr)[1].attributes[1].value
         == "ssc/" + cr.common.site + "/cr/" + cr.common.instanceId + "/" + IntToString(Timestamp(cr.common.endTime))
  {
  }

  lemma {:induction false} ComputeRecordsForest(fmt: Formats, rs: seq<CloudComputeRecord>)
    ensures Forest(ComputeRecordsEvents(fmt, rs), Repeat("cr:CloudComputeRecord", |rs|))
    decreases |rs|
  {
    if rs != [] {
      var prefix := rs[..|rs| - 1];
      ComputeRecordsForest(fmt, prefix);
      ComputeRecordShape(fmt, rs[|rs| - 1]);
      ForestAppend(ComputeRecordsEvents(fmt, prefix), Repeat("cr:CloudComputeRecord", |prefix|),
        ComputeRecordEvents(fmt, rs[|rs| - 1]), ["cr:CloudComputeRecord"]);
    }
  }

  lemma {:induction false} StorageRecordsForest(fmt: Formats, rs: seq<CloudStorageRecord>)
    ensures Forest(StorageRecordsEvents(fmt, rs), Repeat("cr:CloudStorageRecord", |rs|))
    decreases |rs|
  {
    if rs != [] {
      var prefix := rs[..|rs| - 1];
      StorageRecordsForest(fmt, prefix);
      StorageRecordShape(fmt, rs[|rs| - 1]);
      ForestAppend(StorageRecordsEvents(fmt, prefix), Repeat("cr:CloudStorageRecord", |prefix|),
        StorageRecordEvents(fmt, rs[|rs| - 1]), ["cr:CloudStorageRecord"]);
    }
  }

  /** The root around two forests is one element whose children are theirs, in order. */
  lemma RootShape(c: seq<XmlEvent>, nc: seq<string>, s: seq<XmlEvent>, ns: seq<string>)
    requires Forest(c, nc) && Forest(s, ns)
    ensures WellNested([RootStart] + (c + s) + [EndElement])
    ensures IsElement([RootStart] + (c + s) + [EndElement])
    ensures ChildNames([RootStart] + (c + s) + [EndElement]) == nc + ns
  {
    ForestAppend(c, nc, s, ns);
    Wrap(RootStart, c + s);
  }

  /**
   * The document is one well-nested `cr:CloudRecords` element declaring the
   * `cr` namespace, whose children are one element per compute record followed
   * by one element per storage record.
   */
  lemma DocumentShape(fmt: Formats, computes: seq<CloudComputeRecord>, storages: seq<CloudStorageRecord>)
    ensures WellNested(DocumentEvents(fmt, computes, storages))
    ensures IsElement(DocumentEvents(fmt, computes, storages))
    ensures DocumentEvents(fmt, computes, storages)[0].name == "cr:CloudRecords"
    ensures DocumentEvents(fmt, computes, storages)[0].namespaces == [Namespace("cr", CrNamespace)]
    ensures ChildNames(DocumentEvents(fmt, computes, storages))
         == Repeat("cr:CloudComputeRecord", |computes|) + Repeat("cr:CloudStorageRecord", |storages|)
  {
    ComputeRecordsForest(fmt, computes);
    StorageRecordsForest(fmt, storages);
    RootShape(ComputeRecordsEvents(fmt, computes), Repeat("cr:CloudComputeRecord", |computes|),
      StorageRecordsEvents(fmt, storages), Repeat("cr:CloudStorageRecord", |storages|));
  }

  // ---- The writers ----

  // The re-bracketing steps below let the writer loops' invariants name the
  // event sequence built so far without the solver searching for the grouping.

  lemma AppendAssoc5(e: seq<XmlEvent>, a: seq<XmlEvent>, b: seq<XmlEvent>, c: seq<XmlEvent>, d: seq<XmlEvent>, f: seq<XmlEvent>)
    ensures e + a + b + c + d + f == e + (a + b + c + d + f)
  {
  }

  lemma WrapAssoc(e: seq<XmlEvent>, start: XmlEvent, content: seq<XmlEvent>)
    ensures e + [start] + content + [EndElement] == e + ([start] + content + [EndElement])
  {
  }

  lemma ComputeRecordsEventsSnoc(fmt: Formats, rs: seq<CloudComputeRecord>, i: nat)
    requires i < |rs|
    ensures ComputeRecordsEvents(fmt, rs[..i + 1]) == ComputeRecordsEvents(fmt, rs[..i]) + ComputeRecordEvents(fmt, rs[i])
  {
    assert rs[..i + 1][..i] == rs[..i];
  }

  lemma StorageRecordsEventsSnoc(fmt: Formats, rs: seq<CloudStorageRecord>, i: nat)
    requires i < |rs|
    ensures StorageRecordsEvents(fmt, rs[..i + 1]) == StorageRecordsEvents(fmt, rs[..i]) + StorageRecordEvents(fmt, rs[i])
  {
    assert rs[..i + 1][..i] == rs[..i];
  }

  lemma DocumentAssoc(e: seq<XmlEvent>, a: seq<XmlEvent>, b: seq<XmlEvent>)
    ensures e + [RootStart] + a + b + [EndElement] == e + ([RootStart] + (a + b) + [EndElement])
  {
  }

  lemma AppendAssoc3(a: seq<XmlEvent>, b: seq<XmlEvent>, c: seq<XmlEvent>)
    ensures a + b + c == a + (b + c)
  {
  }

  lemma AppendAssoc(e: seq<XmlEvent>, a: seq<XmlEvent>, b: seq<XmlEvent>, c: seq<XmlEvent>, d: seq<XmlEvent>)
    ensures e + a + b + c + d == e + (a + b + c + d)
  {
  }

  method WriteRecordHead(w: EventWriter, fmt: Formats, c: CloudRecordCommon)
    modifies w
    ensures w.events == old(w.events) + RecordHead(fmt, c)
  {
    w.Write(RecordIdentityStart(fmt, c));
    w.Write(EndElement);
    WriteSimpleElement(w, "cr:Site", c.site);
    WriteSimpleElement(w, "cr:Project", c.project);
    WriteSimpleElement(w, "cr:User", c.user);
    WriteSimpleElement(w, "cr:InstanceId", c.instanceId);
  }

  method WriteRecordWindow(w: EventWriter, fmt: Formats, c: CloudRecordCommon)
    modifies w
    ensures w.events == old(w.events) + RecordWindow(fmt, c)
  {
    WriteSimpleElement(w, "cr:StartTime", fmt.rfc3339(c.startTime));
    WriteSimpleElement(w, "cr:EndTime", fmt.rfc3339(c.endTime));
    WriteSimpleElement(w, "cr:Duration", fmt.duration(c.duration));
    WriteSimpleElement(w, "cr:Region", c.region);
    WriteSimpleElement(w, "cr:Resource", c.resource);
    WriteSimpleElement(w, "cr:Zone", c.zone);
  }

  method WriteComputeAllocation(w: EventWriter, fmt: Formats, r: CloudComputeRecord)
    modifies w
    ensures w.events == old(w.events) + ComputeAllocation(fmt, r)
  {
    WriteSimpleElement(w, "cr:Flavour", r.flavour);
    WriteSimpleElement(w, "cr:Cost", fmt.decimal(r.common.cost));
    WriteSimpleElement(w, "cr:AllocatedCPU", fmt.decimal(r.allocatedCpu));
    WriteSimpleElement(w, "cr:AllocatedDisk", NatToString(r.common.allocatedDisk));
    WriteSimpleElement(w, "cr:AllocatedMemory", NatToString(r.allocatedMemory));
  }

  method WriteComputeUsage(w: EventWriter, fmt: Formats, r: CloudComputeRecord)
    modifies w
    ensures w.events == old(w.events) + ComputeUsage(fmt, r)
  {
    ghost var e0 := w.events;
    if r.usedCpu.Some? {
      WriteSimpleElement(w, "cr:UsedCPU", fmt.decimal(r.usedCpu.value));
    }
    ghost var e1 := w.events;
    assert e1 == e0 + OptionalElement("cr:UsedCPU", RealText(fmt, r.usedCpu));
    if r.usedMemory.Some? {
      WriteSimpleElement(w, "cr:UsedMemory", NatToString(r.usedMemory.value));
    }
    ghost var e2 := w.events;
    assert e2 == e1 + OptionalElement("cr:UsedMemory", NatText(r.usedMemory));
    if r.usedNetworkUp.Some? {
      WriteSimpleElement(w, "cr:UsedNetworkUp", NatToString(r.usedNetworkUp.value));
    }
    ghost var e3 := w.events;
    assert e3 == e2 + OptionalElement("cr:UsedNetworkUp", NatText(r.usedNetworkUp));
    if r.usedNetworkDown.Some? {
      WriteSimpleElement(w, "cr:UsedNetworkDown", NatToString(r.usedNetworkDown.value));
    }
    ghost var e4 := w.events;
    assert e4 == e3 + OptionalElement("cr:UsedNetworkDown", NatText(r.usedNetworkDown));
    if r.iops.Some? {
      WriteSimpleElement(w, "cr:IOPS", NatToString(r.iops.value));
    }
    assert w.events == e4 + OptionalElement("cr:IOPS", NatText(r.iops));
    AppendAssoc5(e0,
      OptionalElement("cr:UsedCPU", RealText(fmt, r.usedCpu)),
      OptionalElement("cr:UsedMemory", NatText(r.usedMemory)),
      OptionalElement("cr:UsedNetworkUp", NatText(r.usedNetworkUp)),
      OptionalElement("cr:UsedNetworkDown", NatText(r.usedNetworkDown)),
      OptionalElement("cr:IOPS", NatText(r.iops)));
  }

  method WriteComputeRecord(w: EventWriter, fmt: Formats, r: CloudComputeRecord)
    modifies w
    ensures w.events == old(w.events) + ComputeRecordEvents(fmt, r)
  {
    w.Write(Start("cr:CloudComputeRecord"));
    ghost var e0 := w.events;
    WriteRecordHead(w, fmt, r.common);
    WriteRecordWindow(w, fmt, r.common);
    WriteComputeAllocation(w, fmt, r);
    WriteComputeUsage(w, fmt, r);
    AppendAssoc(e0, RecordHead(fmt, r.common), RecordWindow(fmt, r.common), ComputeAllocation(fmt, r), ComputeUsage(fmt, r));
    w.Write(EndElement);
    WrapAssoc(old(w.events), Start("cr:CloudComputeRecord"), ComputeContent(fmt, r));
  }

  method WriteStorageAllocation(w: EventWriter, fmt: Formats, r: CloudStorageRecord)
    modifies w
    ensures w.events == old(w.events) + StorageAllocation(fmt, r)
  {
    WriteSimpleElement(w, "cr:Cost", fmt.decimal(r.common.cost));
    WriteSimpleElement(w, "cr:AllocatedDisk", NatToString(r.common.allocatedDisk));
    WriteSimpleElement(w, "cr:FileCount", NatToString(r.fileCount));
  }

  method WriteStorageRecord(w: EventWriter, fmt: Formats, r: CloudStorageRecord)
    modifies w
    ensures w.events == old(w.events) + StorageRecordEvents(fmt, r)
  {
    w.Write(Start("cr:CloudStorageRecord"));
    ghost var e0 := w.events;
    WriteRecordHead(w, fmt, r.common);
    WriteSimpleElement(w, "cr:StorageType", r.storageType);
    WriteRecordWindow(w, fmt, r.common);
    WriteStorageAllocation(w, fmt, r);
    AppendAssoc(e0, RecordHead(fmt, r.common), SimpleElement("cr:StorageType", r.storageType), RecordWindow(fmt, r.common), StorageAllocation(fmt, r));
    w.Write(EndElement);
    WrapAssoc(old(w.events), Start("cr:CloudStorageRecord"), StorageContent(fmt, r));
  }

  /** The first loop of `write_xml_to`: every compute record, in order. */
  method WriteComputeRecords(w: EventWriter, fmt: Formats, computes: seq<CloudComputeRecord>)
    modifies w
    ensures w.events == old(w.events) + ComputeRecordsEvents(fmt, computes)
  {
    for i := 0 to |computes|
      invariant w.events == old(w.events) + ComputeRecordsEvents(fmt, computes[..i])
    {
      WriteComputeRecord(w, fmt, computes[i]);
      ComputeRecordsEventsSnoc(fmt, computes, i);
      AppendAssoc3(old(w.events), ComputeRecordsEvents(fmt, computes[..i]), ComputeRecordEvents(fmt, computes[i]));
    }
    assert computes[..|computes|] == computes;
  }

  /** The second loop of `write_xml_to`: every storage record, in order. */
  method WriteStorageRecords(w: EventWriter, fmt: Formats, storages: seq<CloudStorageRecord>)
    modifies w
    ensures w.events == old(w.events) + StorageRecordsEvents(fmt, storages)
  {
    for i := 0 to |storages|
      invariant w.events == old(w.events) + StorageRecordsEvents(fmt, storages[..i])
    {
      WriteStorageRecord(w, fmt, storages[i]);
      StorageRecordsEventsSnoc(fmt, storages, i);
      AppendAssoc3(old(w.events), StorageRecordsEvents(fmt, storages[..i]), StorageRecordEvents(fmt, storages[i]));
    }
    assert storages[..|storages|] == storages;
  }

  /** `write_xml_to`: the root with its namespace, every compute record, every storage record, the closing root. */
  method WriteXmlTo(w: EventWriter, fmt: Formats, computes: seq<CloudComputeRecord>, storages: seq<CloudStorageRecord>)
    modifies w
    ensures w.events == old(w.events) + DocumentEvents(fmt, computes, storages)
  {
    w.Write(RootStart);
    WriteComputeRecords(w, fmt, computes);
    WriteStorageRecords(w, fmt, storages);
    w.Write(EndElement);
    DocumentAssoc(old(w.events), ComputeRecordsEvents(fmt, computes), StorageRecordsEvents(fmt, storages));
  }
}
