# ssc-billing-logger, modelled in Dafny

A model of an accounting logger for an OpenStack cloud. Once an hour, the
binary `ssc-billing-logger` does the following:

- it reads the servers, flavors, images, volumes, users and projects of one
  region;
- it prices each resource from the region's rate table;
- it writes one SAMS cloud-record XML document holding a compute record per
  server and a storage record per volume and per image;
- it remembers the hour it reported, so that a second run in the same hour
  does nothing.

The older Python logger, `ssc-billing-logger.py`, is modelled too. It chooses
a reporting period after the last one it reported. It turns ceilometer
measurements into records and writes them, unless it is a dry run.

The modules follow the program:

- `Clock`: instants and spans in nanoseconds, truncation to the hour, and
  epoch seconds.
- `DecimalText`: decimal rendering of numbers.
- `Collections`: the shapes of the program's collection code on sequences:
  - `filter_map`;
  - insertion into a `HashMap`, where the last write wins;
  - `entry().or_default().push`;
  - `find`.
- `XmlEvents`: the xml-rs event stream and a writer that accumulates it.
- `Records`: the `v1` cloud records and their serialisation.
- `OpenStack`: the catalog and session, the name mappings, the flavor table,
  and the paged listings.
- `Billing`: the Rust binary, from the hour gate to the persisted state.
- `LegacyLogger`: the Python logger.

Money is an exact `real`. Byte and GiB quantities are `nat`. Every clock
reading is a parameter: the run gate and the billed window are read
separately, and every record has its own creation time. Replies from
OpenStack, and from the radosgw statistics command, are inputs given as
results. Library formatting is passed in as a `Formats` value of string
functions:

- chrono's RFC 3339 and duration text;
- `Decimal::to_string`.

The imperative code is kept imperative:

- the record passes of `main` are `for` loops that push records, write the
  discount ledger and group costs by project;
- the map builders and the paging loops are methods;
- the serialiser appends to an `EventWriter` object;
- the state files are classes whose `Write` changes what is stored.

Each loop method is proved equal to a specification function, and the lemmas
state what the source promises about that function. The methods that change
state (`Billing.Run`, `Billing.Publish`, `LegacyLogger.PyMain` and the `Write`
methods of the state and record files) state their outcome and the new state
in their own ensures.

The Rust storage record id is built under "/cr/", the same as a compute record
(`Records.RecordIdentityShared`). The Python logger uses "/sr/" for storage
(`LegacyLogger.PyRecordId`). Each is modelled as its code writes it.

## Model

| member | source | states |
|---|---|---|
| Clock.HourFloor | src/bin/ssc-billing-logger.rs:121-122 | the hour of an instant is hour-aligned and lies at most one hour below it |
| Clock.HourFloorUnique | src/bin/ssc-billing-logger.rs:171-177 | zeroing minute, second and nanosecond gives the only hour-aligned instant within the hour below `t` |
| Clock.HourFloorShift | ssc-billing-logger.py:586-589 | flooring to the hour is idempotent and commutes with whole-hour shifts |
| Clock.Timestamp | src/records.rs:159-165 | whole epoch seconds rounded down: `s` seconds is at most the instant, which is less than `s + 1` seconds |
| DecimalText.NatToStringRoundTrip | src/records.rs:159-165 | the decimal text of a timestamp reads back as the same number |
| DecimalText.NatToStringInjective | src/records.rs:159-165 | different numbers have different decimal texts |
| XmlEvents.WriteSimpleElement | src/records.rs:13-18 | `write_simple_element` appends exactly a start, the text and an end to the writer's stream |
| XmlEvents.Wrap | src/records.rs:150-205 | a start, well-nested content and an end make one element whose children are the content's top-level elements |
| Records.RecordIdEndsInTimestamp | src/records.rs:159-165 | the record id is "ssc/" + site + "/cr/" + instance id + "/" + the end time in epoch seconds, and the trailing number parses back to that timestamp |
| Records.RecordIdentityShared | src/records.rs:250-264 | the record identity is the first child of both kinds of record; a compute record and a storage record on the same common part get the same "/cr/" id |
| Records.ComputeRecordShape | src/records.rs:150-205 | a compute record is one `cr:CloudComputeRecord` element; its children are the sixteen fixed fields in schema order, then each usage field that is present, in order |
| Records.StorageRecordShape | src/records.rs:245-284 | a storage record is one `cr:CloudStorageRecord` element with its fifteen children in schema order |
| Records.ComputeRecordsForest | src/records.rs:304-306 | the compute records in a row are one `cr:CloudComputeRecord` element per record, and nothing else |
| Records.StorageRecordsForest | src/records.rs:307-309 | the storage records in a row are one `cr:CloudStorageRecord` element per record, and nothing else |
| Records.DocumentShape | src/records.rs:286-311 | the document is one well-nested `cr:CloudRecords` element that declares the `cr` namespace; its children are one element per compute record, then one per storage record |
| Records.ComputeExample | src/records.rs:116-148 | the example compute window lasts 3600 s, ends at epoch 1550059200 and has no usage fields |
| Records.StorageExample | src/records.rs:219-243 | the example storage window lasts 3600 s and ends at 1550059200; it is 10 GiB of "Block" storage with file count 0 |
| Records.WriteComputeRecord | src/records.rs:150-205 | the writer's stream grows by exactly the compute record's events |
| Records.WriteStorageRecord | src/records.rs:245-284 | the writer's stream grows by exactly the storage record's events |
| Records.WriteComputeRecords | src/records.rs:304-306 | the loop appends the compute records' events in iteration order |
| Records.WriteStorageRecords | src/records.rs:307-309 | the loop appends the storage records' events in iteration order |
| Records.WriteXmlTo | src/records.rs:286-311 | the stream grows by the root start, the compute records, the storage records and the root end: the document of `DocumentShape` |
| OpenStack.EnsureTrailingSlash | src/openstack.rs:106-110 | `pop_if_empty().push("")` leaves a path ending in an empty segment, keeps every earlier segment, and adds at most one segment |
| OpenStack.EnsureTrailingSlashIdempotent | src/openstack.rs:106-110 | normalising twice is normalising once; the result ends in exactly one empty segment unless the path already ended in two |
| OpenStack.RegionEndpointsKeys | src/openstack.rs:130-144 | a (name, type) key is in the endpoint map iff some service under it has an admin endpoint in the region |
| OpenStack.RegionEndpointsSelect | src/openstack.rs:130-144 | the URL under a key is the normalised URL of the first admin endpoint in the region, taken from the last service under that key that has one |
| OpenStack.RegionEndpointsEndInSlash | src/openstack.rs:139-140 | every URL taken from the catalog ends in a slash |
| OpenStack.Rewrite | src/openstack.rs:160-167 | with `rewrite_host` the host becomes "localhost"; without it the URL is unchanged; scheme, port, path and query are always kept |
| OpenStack.NewSession | src/openstack.rs:146-176 | a session exists iff Nova, Cinder and Glance have endpoints; the error names the first missing one in that order; Swift is present iff its key is; Nova, Cinder, Glance and Swift hold their catalog endpoint with the host rewritten (or not); the keystone URL is normalised |
| OpenStack.SessionUrls | src/openstack.rs:146-176 | with rewrite every service URL, Swift's included, points at "localhost" and keeps its scheme, port, path and query; without rewrite they are the catalog's URLs; every URL ends in a slash |
| OpenStack.NameMapping.Get | src/openstack.rs:258-260 | `get(id)` is `Some(name)` iff `id` is a key, and then it is the name stored under it |
| OpenStack.CollectNameMapping | src/openstack.rs:283-292 | the loop's map is the (id, name) pairs of the listing inserted in order |
| OpenStack.NameMappingLookup | src/openstack.rs:309-314 | the mapping knows exactly the listed ids, and for a duplicated id the last listed name wins |
| OpenStack.Flavors | src/openstack.rs:334-338 | the loop's map is the flavors inserted by id in listing order |
| OpenStack.FlavorsKeyedById | src/openstack.rs:334-338 | every key of the flavor table is the id of the flavor under it, and the keys are exactly the listed ids |
| OpenStack.Containers | src/openstack.rs:537-538 | `containers()` returns an empty listing |
| OpenStack.FetchAllPages | src/openstack.rs:236-246 | the paging loop returns what the paged-listing specification gives for the replies, and requests the URLs it predicts |
| OpenStack.AllPagesUpToFinal | src/openstack.rs:406-417 | the loop stops at the first reply that fails or has no next page, requesting one URL per reply up to it, each the previous page's next link; it returns that failure or every page's items in fetch order |
| OpenStack.VolumePage | src/openstack.rs:238-243 | a cinder page lists its volumes and has a next page iff one of its links has `rel == "next"`, the first such link being followed |
| OpenStack.Volumes | src/openstack.rs:231-250 | `volumes()` pages from `volumes/detail?all_tenants=1` under the Cinder URL; a bad join fails before any request |
| OpenStack.ImagePage | src/openstack.rs:409-414 | a glance page's next reference is joined onto `v2/images`, and a join that fails is an error |
| OpenStack.Images | src/openstack.rs:401-418 | `images()` pages from `v2/images` under the Glance URL; a bad join fails before any request |
| Billing.FromStatus | src/bin/ssc-billing-logger.rs:63-73 | PAUSED, SUSPENDED, SOFT_SUSPENDED, SOFT_DELETED and SHUTOFF are Inactive; DELETED, SHELVED and SHELVED_OFFLOADED are Unbilled; every other string is Active (each an iff) |
| Billing.BillingWindow | src/bin/ssc-billing-logger.rs:171-179 | the billed window starts on the hour of the clock reading, contains it, and lasts one hour |
| Billing.ServerRecord | src/bin/ssc-billing-logger.rs:215-268 | a server has a compute record iff its user, project and flavor resolve, whatever its status or cost; the record holds the server's zone (or ""), the rate of the flavor name (or 0), disk × 1024^3, vcpus, ram, no usage fields, and the run's site, region, resource and window |
| Billing.LedgerWrite | src/bin/ssc-billing-logger.rs:203-232 | a server writes the ledger iff it resolves and is volume-backed (empty image reference under either form, some volume attached); it writes its flavor's disk under its first attached volume |
| Billing.ServerPass | src/bin/ssc-billing-logger.rs:186-271 | the server loop pushes exactly the records of the resolving servers in order, and leaves the ledger the last-writer-wins map of their writes |
| Billing.ServerRecordsExact | src/bin/ssc-billing-logger.rs:196-271 | one compute record per resolving server, in server order, and none for any other server |
| Billing.DiscountLedgerExact | src/bin/ssc-billing-logger.rs:203-232 | a volume has a ledger entry iff it is the first attached volume of a resolving volume-backed server; the entry is the flavor disk of the last such server |
| Billing.SaturatingSub | src/bin/ssc-billing-logger.rs:283 | `saturating_sub` is the difference when the discount fits, 0 otherwise, and never more than the size |
| Billing.VolumeRecord | src/bin/ssc-billing-logger.rs:285-317 | a volume has a storage record iff its user and project resolve; the record holds the availability zone, the discounted cost, size × 1024^3 undiscounted, "Block" and file count 0 |
| Billing.VolumePass | src/bin/ssc-billing-logger.rs:273-319 | the volume loop pushes exactly the records of the resolving volumes in order and groups every volume's cost under its tenant; it only reads the ledger |
| Billing.VolumeCostBounds | src/bin/ssc-billing-logger.rs:277-284 | billed GiB never exceed the size; no ledger entry means full price; a discount at least the size means cost 0; a missing block rate means cost 0 |
| Billing.VolumeRecordsExact | src/bin/ssc-billing-logger.rs:276-319 | one storage record per resolving volume, in order; every volume's cost is grouped under its tenant, with or without a record |
| Billing.ImageRecord | src/bin/ssc-billing-logger.rs:329-363 | an image has a record iff it has a size and an owner and its user (default "default") and project (`owner_id`, else `owner`) resolve; zone "default", `allocated_disk` = size in bytes, cost = bytes / 2^30 × block rate |
| Billing.ImagePass | src/bin/ssc-billing-logger.rs:321-366 | the image loop pushes exactly the records of the resolving images in order and groups every billable image's cost under its owner |
| Billing.ImageProjectOfBillable | src/bin/ssc-billing-logger.rs:329-337 | for a billable image the project id is `owner_id` when present, else `owner`; its cost is its size in GiB at the block rate |
| Billing.ImageRecordsExact | src/bin/ssc-billing-logger.rs:324-366 | one storage record per resolving image, in order; every billable image's cost is grouped under its owner |
| Billing.GbSumIsTotal | src/bin/ssc-billing-logger.rs:158-163 | the bucket fold is the bucket's total KiB over 1024^2 |
| Billing.BucketEntry | src/bin/ssc-billing-logger.rs:160-166 | a bucket is costed iff it lists some usage, at the object rate times its GB sum |
| Billing.BucketCosts | src/bin/ssc-billing-logger.rs:152-168 | failed statistics give no costs; otherwise the map is the costed buckets inserted by id in order |
| Billing.BucketCostsKeys | src/bin/ssc-billing-logger.rs:159-166 | a bucket id has a cost iff some listed bucket with that id has usage |
| Billing.BucketCostsValue | src/bin/ssc-billing-logger.rs:159-166 | the cost under an id is that of the last listed bucket with it: the object rate times its total KiB over 1024^2 |
| Billing.PersistentStateFile.Open | src/bin/ssc-billing-logger.rs:87-95 | a missing or unreadable state file gives the default state, with no last timepoint |
| Billing.PersistentStateFile.Write | src/bin/ssc-billing-logger.rs:97-101 | writing stores the state in memory when the file is writable, and reports whether it was |
| Billing.FetchFailure | src/bin/ssc-billing-logger.rs:143-150 | no listing failed iff servers, flavors, images, volumes, users and projects all succeeded; the bucket statistics may fail |
| Billing.Gather | src/bin/ssc-billing-logger.rs:143-366 | the tables and the three record passes give the run's records, the volume pass reading the ledger the server pass wrote |
| Billing.Publish | src/bin/ssc-billing-logger.rs:452-458 | a report is written iff the file can be created, and it is the records document of the run's hour; the state then stores that hour iff it can be written; otherwise it is unchanged |
| Billing.Run | src/bin/ssc-billing-logger.rs:108-462 | an unknown region is an error; the run does nothing iff the stored timepoint is the current hour; auth, endpoint and listing failures come in that order; a report is written iff the run gets that far and the file can be created, and holds the records document; the stored state changes only after the report is written, and then holds that hour; a state file that cannot be written keeps its old contents |
| Billing.RecordsShareWindow | src/bin/ssc-billing-logger.rs:171-179 | every record of a run carries the configured site, region and resource and the same whole hour, read from the window clock |
| LegacyLogger.HttpCategory | ssc-billing-logger.py:252-253 | the class of a status code is a multiple of 100, at most the code, and less than 100 below it |
| LegacyLogger.HttpCategoryUnique | ssc-billing-logger.py:252-253 | the class is the only multiple of 100 that satisfies those bounds |
| LegacyLogger.CostDefinition.LookupCompute | ssc-billing-logger.py:58-63 | the flavour's rate, or 0 when it is not defined |
| LegacyLogger.CostDefinition.LookupBlockStorage | ssc-billing-logger.py:65-70 | the block rate times the size, or 0 when there is no block rate |
| LegacyLogger.LookupBlockStorageLinear | ssc-billing-logger.py:65-70 | the block-storage cost is additive in the size, and 0 for size 0 |
| LegacyLogger.TruncateToInt | ssc-billing-logger.py:524 | `int()` of a float truncates toward zero |
| LegacyLogger.SelectWindow | ssc-billing-logger.py:584-600 | start is the stored timepoint, else now − 3 weeks floored; end is now floored; no run iff end ≤ start, or stepping one hour would pass end; single step ends at start + 1 h, otherwise at the earlier of start + 24 h and end |
| LegacyLogger.SelectWindowBounds | ssc-billing-logger.py:584-600 | a period that runs is non-empty, at most a day long, and not past the current hour; from an hour-aligned start it ends on the hour |
| LegacyLogger.NewMeasurement | ssc-billing-logger.py:396-436 | a new measurement carries the given resource, project and user ids and window; its flavour is the given one (the instance type on the vcpus/memory path, none on the volume path); its zone falls back to "default", its duration is "PT3600S" and no allocation is set |
| LegacyLogger.PyRecordId | ssc-billing-logger.py:184-185 | the id is "ssc/" + site + "/cr/" or "/sr/" by kind + instance id + "/" + the end time in epoch seconds |
| LegacyLogger.PyRecordIdEndsInTimestamp | ssc-billing-logger.py:184-185 | the id ends in the digits of the end time's epoch seconds, which parse back to their magnitude, preceded by "-" exactly when the time lies before the epoch and by "/" otherwise |
| LegacyLogger.PyRecordIdsDistinct | ssc-billing-logger.py:225-226 | on the same site a compute record and a storage record never share an id |
| LegacyLogger.StepAsWritten | ssc-billing-logger.py:491-535 | as written: skipped iff deleted before its start; a record iff it resolves and has CPU and memory (with a flavour) or a disk; otherwise the exception is named: a missing flavour, neither compute nor storage, or (with the kind's field present) the unresolved identity that the bare `next` lets through |
| LegacyLogger.StepCorrected | ssc-billing-logger.py:498-502 | skipped iff unresolved or deleted before its start; otherwise the same as written |
| LegacyLogger.FoldExact | ssc-billing-logger.py:491-546 | the fold succeeds iff no measurement raises, and then keeps the records in order; otherwise it reports the first exception |
| LegacyLogger.FoldFailSticks | ssc-billing-logger.py:491-546 | once a measurement has raised, later measurements change nothing |
| LegacyLogger.UnresolvedAbortsAsWritten | ssc-billing-logger.py:498-502 | one storage measurement with an unknown user ends the run with an exception as written, and yields no records when corrected |
| LegacyLogger.StepCorrectedRecord | ssc-billing-logger.py:504-535 | a kept measurement resolves and is not deleted; a compute record costs its flavour's rate; a storage record is "Block", `int(gigabytes * 2**30)` bytes, at the block rate |
| LegacyLogger.GatherCloudRecords | ssc-billing-logger.py:473-546 | the measurement loop, with its early exits, returns the corrected gather |
| LegacyLogger.SplitIsPermutation | ssc-billing-logger.py:548-557 | splitting by kind loses and duplicates nothing |
| LegacyLogger.WriteCloudRecords | ssc-billing-logger.py:548-557 | the root's children are every compute record, then every storage record, each kind in list order |
| LegacyLogger.WrittenOrder | ssc-billing-logger.py:548-557 | the written children are the records rearranged, with no storage record before a compute record |
| LegacyLogger.PersistentState.Load | ssc-billing-logger.py:72-83 | a missing file, or no timepoint in it, leaves the timepoint unset |
| LegacyLogger.PersistentState.Write | ssc-billing-logger.py:85-90 | the file takes the timepoint in memory |
| LegacyLogger.PyMain | ssc-billing-logger.py:565-617 | runs the corrected gather (`LegacyLogger.Gather`; `LegacyLogger.GatherAsWritten` is the loop as written); no period means nothing changes; a failed query or gather raises and nothing is written; the run succeeds iff there is no period or the query, the flavor listing and the gather all succeed; on success the new timepoint is the period end, and records and state are written iff it is not a dry run |

## Left out

- HTTP and authentication are not modelled. This covers the token request of `Session::new`, the `fetch_*` calls, `servers()`, `users()` and the reqwest client. In the Python logger it covers `OpenStack`, `MeterSet`, `IdentityCache` and the ceilometer queries of `populate_instances`. Their replies are inputs: `Billing.Run` takes the token reply and the listings as results, `LegacyLogger.PyMain` takes the measurements per period, and identities are maps.
- `Billing.Run` takes the listings as finished results. The paging loops that produce them are modelled separately, by `OpenStack.Volumes` and `OpenStack.Images`.
- `OpenStack.FetchAllPages`: it requires the replies to end in a last page or a failure. A service that links pages forever makes the loop run forever, and that is not modelled.
- The `radosgw-admin` subprocess (src/radosgw.rs) is not modelled. The bucket statistics are an input result.
- File I/O is not modelled. This covers reading the configuration and `costs.json`, creating the XML file, and the Python `DeletedVolumes` file. The state files are the objects `Billing.PersistentStateFile` and `LegacyLogger.PersistentState`, whose stored content is a field. The XML document is returned as its event sequence, with the hour or period end that names its file.
- The clock is not modelled: every reading is a parameter. Rust reads it separately for the gate and the window, and for each record's creation time. Python reads it twice for the window.
- Library formatting is not modelled: chrono's RFC 3339 and duration text, `Decimal::to_string`, and the xml-rs emitter with its indentation. They are the string functions of `Records.Formats`, and xml-rs write errors are not modelled.
- Python's XML text conversions (`add_sub_element*`) and ElementTree are not modelled. `LegacyLogger.WriteCloudRecords` builds the root's list of records, not their XML.
- The model uses exact arithmetic. It does not capture `rust_decimal`'s 28-digit rounding of the image cost division, Python float arithmetic, or u64 overflow in `disk * 1024^3`. Money is `real` and sizes are `nat`.
- `LegacyLogger.TruncateToInt`: it is stated on an exact `real`, not on a float, so rounding in `gigabytes * 2**30` is not modelled.
- `categorized_server_costs_by_project` and `project_breakdowns` (src/bin/ssc-billing-logger.rs:186-192, 374-450) are not modelled. They only feed log output. The unused `_op_servers` filter is left out too.
- `Billing.ServerRecord`: the zone is the server's availability zone, or "" when it has none. The source puts the `Option` itself into a `String` field at src/bin/ssc-billing-logger.rs:255.
- `OpenStack.EnsureTrailingSlashIdempotent`: "exactly one trailing empty segment" is stated only for paths that do not already end in two. `pop_if_empty` removes one empty segment only, so a path ending in two keeps both.
- The Swift container paging after the early `return` in `containers()` is not modelled, because it is unreachable.
- The panics on `unwrap()` of a malformed endpoint URL or token header are not modelled. Endpoint URLs are given parsed.
- src/main.rs is not part of this model. It is a prototype that writes one fixed record.
- src/lib.rs is not part of this model. It holds only module declarations.

## Findings

| source | as written | input that shows it | evidently intended | confidence | as-written member | corrected member |
|---|---|---|---|---|---|---|
| ssc-billing-logger.py:502 | `next` is an expression, not `continue`, so a measurement with an unknown user or project goes on, and indexing `None` at line 529 raises and ends the run | one storage measurement "vol" whose user "u" is unknown: the result is `UnresolvedIdentity("vol")` | the measurement is skipped and the run goes on, with no record for it | not executed | LegacyLogger.UnresolvedAbortsAsWritten | LegacyLogger.StepCorrected |
