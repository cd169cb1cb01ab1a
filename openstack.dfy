/**
 * The OpenStack side of the billing logger: the inventory it reads (servers,
 * flavors, volumes, images, users, projects), the service catalog it picks its
 * endpoints from, the name mappings and flavor table it builds, and the paged
 * listings it accumulates. Replies from the services are inputs.
 */
module OpenStack {
  import opened Wrappers
  import opened Collections

  // ---- URLs ----

  /** What the model needs of a parsed, base-capable URL: its parts, the path as segments. */
  datatype Url = Url(scheme: string, host: Option<string>, port: Option<nat>, path: seq<string>, query: Option<string>)

  /** Joining a relative reference onto a URL belongs to the `url` crate; it is given, and may fail. */
  type Join = (Url, string) -> Option<Url>

  /** A failure of one of the service calls, or of a URL join. */
  datatype OsError = RequestFailed(message: string) | BadUrl(reference: string)

  function DropTrailingEmpty(path: seq<string>): seq<string> {
    if path != [] && path[|path| - 1] == "" then path[..|path| - 1] else path
  }

  /** `path_segments_mut().pop_if_empty().push("")`: make the path end in a slash. */
  function EnsureTrailingSlash(path: seq<string>): (p: seq<string>)
    ensures |p| >= 1 && p[|p| - 1] == ""
    ensures |path| <= |p| <= |path| + 1
    ensures forall i :: 0 <= i < |p| - 1 ==> p[i] == path[i]
  {
    DropTrailingEmpty(path) + [""]
  }

  function NormaliseUrl(u: Url): Url {
    u.(path := EnsureTrailingSlash(u.path))
  }

  /**
   * Normalising twice is normalising once; and the result ends in exactly one
   * empty segment unless the path already ended in two.
   */
  lemma EnsureTrailingSlashIdempotent(path: seq<string>)
    ensures EnsureTrailingSlash(EnsureTrailingSlash(path)) == EnsureTrailingSlash(path)
    ensures EnsureTrailingSlash(path) == (if path != [] && path[|path| - 1] == "" then path else path + [""])
    ensures !(|path| >= 2 && path[|path| - 2] == "" && path[|path| - 1] == "") ==>
      |EnsureTrailingSlash(path)| == 1 || EnsureTrailingSlash(path)[|EnsureTrailingSlash(path)| - 2] != ""
  {
    var p := EnsureTrailingSlash(path);
    assert p[..|p| - 1] + [""] == p;
    if path != [] && path[|path| - 1] == "" {
      assert path[..|path| - 1] + [""] == path;
    }
  }

  // ---- Session::new: the service catalog ----

  datatype Endpoint = Endpoint(region: string, interface: string, url: Url)
  datatype Service = Service(name: string, typ: string, endpoints: seq<Endpoint>)

  /** A service is known by its name and its type. */
  type ServiceKey = (string, string)

  const NovaKey: ServiceKey := ("nova", "compute")
  const CinderKey: ServiceKey := ("cinderv3", "volumev3")
  const GlanceKey: ServiceKey := ("glance", "image")
  const SwiftKey: ServiceKey := ("swiftv1", "object-store")

  predicate IsRegionAdmin(ep: Endpoint, region: string) {
    ep.region == region && ep.interface == "admin"
  }

  /** The first admin endpoint of the region that a service lists, normalised, under the service's key. */
  function CatalogEntry(svc: Service, region: string): Option<(ServiceKey, Url)> {
    var i := FirstIndex(svc.endpoints, ep => IsRegionAdmin(ep, region));
    if i.Some? then Some(((svc.name, svc.typ), NormaliseUrl(svc.endpoints[i.value].url))) else None
  }

  function CatalogEntries(catalog: seq<Service>, region: string): (es: seq<Option<(ServiceKey, Url)>>)
    ensures |es| == |catalog| && forall i :: 0 <= i < |catalog| ==> es[i] == CatalogEntry(catalog[i], region)
  {
    seq(|catalog|, i requires 0 <= i < |catalog| => CatalogEntry(catalog[i], region))
  }

  /** The `filter_map` and `collect` of the catalog into a map from service key to URL. */
  function RegionEndpoints(catalog: seq<Service>, region: string): map<ServiceKey, Url> {
    Collect(Somes(CatalogEntries(catalog, region)))
  }

  predicate HasRegionAdmin(svc: Service, region: string) {
    exists j :: 0 <= j < |svc.endpoints| && IsRegionAdmin(svc.endpoints[j], region)
  }

  /**
   * Service `i` is the last in the catalog under key `k` that has an admin
   * endpoint in the region, so its endpoint is the one kept.
   */
  ghost predicate LastServiceWithEndpoint(catalog: seq<Service>, region: string, i: int, k: ServiceKey) {
    0 <= i < |catalog| && (catalog[i].name, catalog[i].typ) == k && HasRegionAdmin(catalog[i], region)
    && forall j :: i < j < |catalog| && (catalog[j].name, catalog[j].typ) == k ==> !HasRegionAdmin(catalog[j], region)
  }

  lemma CatalogEntriesPresent(catalog: seq<Service>, region: string)
    ensures forall i :: 0 <= i < |catalog| ==>
      (CatalogEntries(catalog, region)[i].Some? <==> HasRegionAdmin(catalog[i], region))
    ensures forall i :: 0 <= i < |catalog| && CatalogEntries(catalog, region)[i].Some? ==>
      CatalogEntries(catalog, region)[i].value.0 == (catalog[i].name, catalog[i].typ)
  {
    var es := CatalogEntries(catalog, region);
    forall i | 0 <= i < |catalog|
      ensures es[i].Some? <==> HasRegionAdmin(catalog[i], region)
    {
      var f := FirstIndex(catalog[i].endpoints, ep => IsRegionAdmin(ep, region));
      if f.Some? {
        assert IsRegionAdmin(catalog[i].endpoints[f.value], region);
      }
    }
  }

  /** A service key is present iff some service under it has an admin endpoint in the region. */
  lemma RegionEndpointsKeys(catalog: seq<Service>, region: string)
    ensures forall k :: k in RegionEndpoints(catalog, region) <==>
      exists i :: 0 <= i < |catalog| && (catalog[i].name, catalog[i].typ) == k && HasRegionAdmin(catalog[i], region)
  {
    var es := CatalogEntries(catalog, region);
    CollectSomesLastWins(es);
    CatalogEntriesPresent(catalog, region);
    forall k ensures k in RegionEndpoints(catalog, region) ==>
      exists i :: 0 <= i < |catalog| && (catalog[i].name, catalog[i].typ) == k && HasRegionAdmin(catalog[i], region)
    {
      if k in RegionEndpoints(catalog, region) {
        var i :| 0 <= i < |es| && es[i].Some? && es[i].value.0 == k;
        assert HasRegionAdmin(catalog[i], region);
      }
    }
  }

  /**
   * The URL under a present key is the normalised URL of the FIRST admin
   * endpoint in the region of the LAST service under that key that has one.
   */
  lemma RegionEndpointsSelect(catalog: seq<Service>, region: string, k: ServiceKey)
    requires k in RegionEndpoints(catalog, region)
    ensures exists i, j :: (LastServiceWithEndpoint(catalog, region, i, k)
      && 0 <= j < |catalog[i].endpoints| && IsRegionAdmin(catalog[i].endpoints[j], region)
      && (forall j' :: 0 <= j' < j ==> !IsRegionAdmin(catalog[i].endpoints[j'], region))
      && RegionEndpoints(catalog, region)[k] == NormaliseUrl(catalog[i].endpoints[j].url))
  {
    var es := CatalogEntries(catalog, region);
    CollectSomesLastWins(es);
    CatalogEntriesPresent(catalog, region);
    var i :| LastSomeWithKey(es, i, k) && es[i].value.1 == Collect(Somes(es))[k];
    assert LastServiceWithEndpoint(catalog, region, i, k);
    var j := FirstIndex(catalog[i].endpoints, ep => IsRegionAdmin(ep, region)).value;
    assert IsRegionAdmin(catalog[i].endpoints[j], region);
  }

  /** Every URL taken from the catalog ends in a slash. */
  lemma RegionEndpointsEndInSlash(catalog: seq<Service>, region: string)
    ensures forall k :: k in RegionEndpoints(catalog, region) ==> EndsInSlash(RegionEndpoints(catalog, region)[k])
  {
    var es := CatalogEntries(catalog, region);
    CollectSomesValues(es, (e: (ServiceKey, Url)) => EndsInSlash(e.1));
  }

  datatype Session = Session(
    authToken: string,
    keystoneUrl: Url,
    novaUrl: Url,
    cinderUrl: Url,
    glanceUrl: Url,
    swiftUrl: Option<Url>)

  datatype SessionError = MissingNova | MissingCinder | MissingGlance

  /** `--rewrite-host`: the host becomes "localhost", everything else stays. */
  function Rewrite(u: Url, rewriteHost: bool): (r: Url)
    ensures rewriteHost ==> r.host == Some("localhost")
    ensures !rewriteHost ==> r == u
    ensures r.scheme == u.scheme && r.port == u.port && r.path == u.path && r.query == u.query
  {
    if rewriteHost then u.(host := Some("localhost")) else u
  }

  /**
   * `Session::new` after the token request: the ticket and its catalog are
   * given. Nova, then Cinder, then Glance must have an endpoint in the region;
   * Swift is optional.
   */
  function NewSession(authToken: string, keystoneUrl: Url, catalog: seq<Service>, region: string, rewriteHost: bool)
    : (r: Result<Session, SessionError>)
    ensures r.Ok? <==> (NovaKey in RegionEndpoints(catalog, region) && CinderKey in RegionEndpoints(catalog, region)
      && GlanceKey in RegionEndpoints(catalog, region))
    ensures r.Err? && NovaKey !in RegionEndpoints(catalog, region) ==> r.error == MissingNova
    ensures r.Err? && NovaKey in RegionEndpoints(catalog, region) && CinderKey !in RegionEndpoints(catalog, region) ==>
      r.error == MissingCinder
    ensures r.Err? && NovaKey in RegionEndpoints(catalog, region) && CinderKey in RegionEndpoints(catalog, region) ==>
      r.error == MissingGlance
    ensures r.Ok? ==> r.value.authToken == authToken && r.value.keystoneUrl == NormaliseUrl(keystoneUrl)
    ensures r.Ok? ==> (r.value.swiftUrl.Some? <==> SwiftKey in RegionEndpoints(catalog, region))
    ensures r.Ok? ==> var eps := RegionEndpoints(catalog, region);
      && r.value.novaUrl == Rewrite(eps[NovaKey], rewriteHost)
      && r.value.cinderUrl == Rewrite(eps[CinderKey], rewriteHost)
      && r.value.glanceUrl == Rewrite(eps[GlanceKey], rewriteHost)
      && (SwiftKey in eps ==> r.value.swiftUrl == Some(Rewrite(eps[SwiftKey], rewriteHost)))
  {
    var eps := RegionEndpoints(catalog, region);
    if NovaKey !in eps then Err(MissingNova)
    else if CinderKey !in eps then Err(MissingCinder)
    else if GlanceKey !in eps then Err(MissingGlance)
    else
      Ok(Session(authToken, NormaliseUrl(keystoneUrl),
        Rewrite(eps[NovaKey], rewriteHost), Rewrite(eps[CinderKey], rewriteHost), Rewrite(eps[GlanceKey], rewriteHost),
        if SwiftKey in eps then Some(Rewrite(eps[SwiftKey], rewriteHost)) else None))
  }

  /**
   * With `rewrite_host` every service URL of the session, Swift's included,
   * points at "localhost" and keeps its scheme, port, path and query; without it the session holds the
   * catalog's URLs unchanged. Every service URL ends in a slash.
   */
  lemma SessionUrls(authToken: string, keystoneUrl: Url, catalog: seq<Service>, region: string, rewriteHost: bool)
    requires NewSession(authToken, keystoneUrl, catalog, region, rewriteHost).Ok?
    ensures var s := NewSession(authToken, keystoneUrl, catalog, region, rewriteHost).value;
      var eps := RegionEndpoints(catalog, region);
      && (rewriteHost ==> s.novaUrl.host == s.cinderUrl.host == s.glanceUrl.host == Some("localhost"))
      && (rewriteHost && s.swiftUrl.Some? ==> s.swiftUrl.value.host == Some("localhost"))
      && (!rewriteHost ==> s.novaUrl == eps[NovaKey] && s.cinderUrl == eps[CinderKey] && s.glanceUrl == eps[GlanceKey])
      && (!rewriteHost && s.swiftUrl.Some? ==> s.swiftUrl.value == eps[SwiftKey])
      && SameButHost(s.novaUrl, eps[NovaKey]) && SameButHost(s.cinderUrl, eps[CinderKey])
      && SameButHost(s.glanceUrl, eps[GlanceKey])
      && (s.swiftUrl.Some? ==> SameButHost(s.swiftUrl.value, eps[SwiftKey]))
      && EndsInSlash(s.novaUrl) && EndsInSlash(s.cinderUrl) && EndsInSlash(s.glanceUrl) && EndsInSlash(s.keystoneUrl)
      && (s.swiftUrl.Some? ==> EndsInSlash(s.swiftUrl.value))
  {
    RegionEndpointsEndInSlash(catalog, region);
  }

  /** `a` is `b` apart, perhaps, from its host: same scheme, port, path and query. */
  predicate SameButHost(a: Url, b: Url) {
    a.scheme == b.scheme && a.port == b.port && a.path == b.path && a.query == b.query
  }

  predicate EndsInSlash(u: Url) {
    |u.path| >= 1 && u.path[|u.path| - 1] == ""
  }

  // ---- Identity and flavor tables ----

  /** A keystone user or project: an id and a display name. */
  datatype Identity = Identity(id: string, name: string)

  datatype NameMapping = NameMapping(idToName: map<string, string>) {
    /** `NameMapping::get`. */
    function Get(id: string): (r: Option<string>)
      ensures r.Some? <==> id in idToName
      ensures r.Some? ==> r.value == idToName[id]
    {
      if id in idToName then Some(idToName[id]) else None
    }
  }

  function IdNamePairs(xs: seq<Identity>): (es: seq<(string, string)>)
    ensures |es| == |xs| && forall i :: 0 <= i < |xs| ==> es[i] == (xs[i].id, xs[i].name)
  {
    seq(|xs|, i requires 0 <= i < |xs| => (xs[i].id, xs[i].name))
  }

  /** `user_mappings` and `project_mappings`: insert every (id, name) of the listing in order. */
  method CollectNameMapping(xs: seq<Identity>) returns (m: NameMapping)
    ensures m.idToName == Collect(IdNamePairs(xs))
  {
    var idToName: map<string, string> := map[];
    for i := 0 to |xs|
      invariant idToName == Collect(IdNamePairs(xs)[..i])
    {
      CollectSnoc(IdNamePairs(xs), i);
      idToName := idToName[xs[i].id := xs[i].name];
    }
    assert IdNamePairs(xs)[..|xs|] == IdNamePairs(xs);
    m := NameMapping(idToName);
  }

  /**
   * The mapping knows exactly the listed ids, and answers for an id the name of
   * the last listed entry with that id.
   */
  lemma NameMappingLookup(xs: seq<Identity>)
    ensures forall id :: NameMapping(Collect(IdNamePairs(xs))).Get(id).Some? <==>
      exists i :: 0 <= i < |xs| && xs[i].id == id
    ensures forall id :: NameMapping(Collect(IdNamePairs(xs))).Get(id).Some? ==>
      exists i :: (0 <= i < |xs| && xs[i].id == id && NameMapping(Collect(IdNamePairs(xs))).Get(id).value == xs[i].name
        && forall j :: i < j < |xs| ==> xs[j].id != id)
  {
    var es := IdNamePairs(xs);
    CollectLastWins(es);
    forall id | NameMapping(Collect(es)).Get(id).Some?
      ensures exists i :: (0 <= i < |xs| && xs[i].id == id && NameMapping(Collect(es)).Get(id).value == xs[i].name
        && forall j :: i < j < |xs| ==> xs[j].id != id)
    {
      var i :| LastWithKey(es, i, id) && es[i].1 == Collect(es)[id];
      assert forall j :: i < j < |xs| ==> es[j].0 == xs[j].id;
    }
    forall id ensures NameMapping(Collect(es)).Get(id).Some? <==> exists i :: 0 <= i < |xs| && xs[i].id == id {
      if exists i :: 0 <= i < |xs| && xs[i].id == id {
        var i :| 0 <= i < |xs| && xs[i].id == id;
        assert es[i].0 == id;
      }
    }
  }

  datatype Flavor = Flavor(id: string, name: string, vcpus: nat, ram: nat, disk: nat)

  function FlavorEntries(fs: seq<Flavor>): (es: seq<(string, Flavor)>)
    ensures |es| == |fs| && forall i :: 0 <= i < |fs| ==> es[i] == (fs[i].id, fs[i])
  {
    seq(|fs|, i requires 0 <= i < |fs| => (fs[i].id, fs[i]))
  }

  /** `flavors()`: the flavor listing keyed by id. */
  method Flavors(fs: seq<Flavor>) returns (m: map<string, Flavor>)
    ensures m == Collect(FlavorEntries(fs))
  {
    m := map[];
    for i := 0 to |fs|
      invariant m == Collect(FlavorEntries(fs)[..i])
    {
      CollectSnoc(FlavorEntries(fs), i);
      m := m[fs[i].id := fs[i]];
    }
    assert FlavorEntries(fs)[..|fs|] == FlavorEntries(fs);
  }

  /** Every key of the flavor table is the id of the flavor stored under it, and every listed id is a key. */
  lemma FlavorsKeyedById(fs: seq<Flavor>)
    ensures forall k :: k in Collect(FlavorEntries(fs)) ==> Collect(FlavorEntries(fs))[k].id == k
    ensures forall k :: k in Collect(FlavorEntries(fs)) <==> exists i :: 0 <= i < |fs| && fs[i].id == k
  {
    var es := FlavorEntries(fs);
    CollectLastWins(es);
    forall k | k in Collect(es) ensures Collect(es)[k].id == k {
      var i :| LastWithKey(es, i, k) && es[i].1 == Collect(es)[k];
    }
    forall k ensures k in Collect(es) <==> exists i :: 0 <= i < |fs| && fs[i].id == k {
      if exists i :: 0 <= i < |fs| && fs[i].id == k {
        var i :| 0 <= i < |fs| && fs[i].id == k;
        assert es[i].0 == k;
      }
    }
  }

  // ---- Inventory records ----

  /** `nova::Image`: the image reference of a server, as a bare string or as an object with an id. */
  datatype ServerImage = StringRep(reference: string) | ObjectRep(id: string)

  function ImageRef(img: ServerImage): string {
    match img
    case StringRep(x) => x
    case ObjectRep(id) => id
  }

  datatype Server = Server(
    id: string,
    userId: string,
    tenantId: string,
    flavorId: string,
    image: ServerImage,
    status: string,
    zone: Option<string>,
    attachedVolumes: seq<string>)

  datatype Volume = Volume(id: string, size: nat, userId: string, tenantId: string, availabilityZone: string)

  /** The fields of a Glance image that billing reads. */
  datatype Image = Image(id: string, owner: Option<string>, size: Option<nat>, ownerId: Option<string>, userId: Option<string>)

  datatype Container = Container(count: nat, bytes: nat, name: string)

  /** `containers()` returns before it does anything: the listing is always empty. */
  function Containers(project: string): (r: Result<seq<Container>, OsError>)
    ensures r.Ok? && r.value == []
  {
    Ok([])
  }

  // ---- Paged listings ----

  /** One page of a listing, read: its items and the URL of the next page, if any. */
  datatype Page<T> = Page(items: seq<T>, next: Option<Url>)

  /** The response that ends the loop: a failure, or a page without a next page. */
  predicate Final<T>(r: Result<Page<T>, OsError>) {
    r.Err? || r.value.next.None?
  }

  /** The service eventually answers with a last page or a failure. */
  predicate ChainEnds<T>(rs: seq<Result<Page<T>, OsError>>) {
    exists i :: 0 <= i < |rs| && Final(rs[i])
  }

  lemma ChainEndsTail<T>(rs: seq<Result<Page<T>, OsError>>)
    requires ChainEnds(rs) && !Final(rs[0])
    ensures |rs| >= 2 && ChainEnds(rs[1..])
  {
    var i :| 0 <= i < |rs| && Final(rs[i]);
    assert rs[1..][i - 1] == rs[i];
  }

  /** The result of the paging loop when the i-th request is answered by `rs[i]`. */
  function AllPages<T>(rs: seq<Result<Page<T>, OsError>>): Result<seq<T>, OsError>
    requires ChainEnds(rs)
    decreases |rs|
  {
    if rs[0].Err? then Err(rs[0].error)
    else if rs[0].value.next.None? then Ok(rs[0].value.items)
    else
      ChainEndsTail(rs);
      var rest := AllPages(rs[1..]);
      if rest.Err? then rest else Ok(rs[0].value.items + rest.value)
  }

  /** The URLs the paging loop requests, starting from `first`. */
  function Requests<T>(first: Url, rs: seq<Result<Page<T>, OsError>>): seq<Url>
    requires ChainEnds(rs)
    decreases |rs|
  {
    if Final(rs[0]) then [first]
    else
      ChainEndsTail(rs);
      [first] + Requests(rs[0].value.next.value, rs[1..])
  }

  function Prepend<T>(items: seq<T>, r: Result<seq<T>, OsError>): Result<seq<T>, OsError> {
    if r.Err? then r else Ok(items + r.value)
  }

  lemma PrependAssoc<T>(a: seq<T>, b: seq<T>, r: Result<seq<T>, OsError>)
    ensures Prepend(a + b, r) == Prepend(a, Prepend(b, r))
  {
    if r.Ok? {
      assert a + b + r.value == a + (b + r.value);
    }
  }

  /**
   * The loop of `volumes()` and `images()`: fetch, append the page's items,
   * follow the next link until there is none; a failed fetch ends it with the
   * failure.
   */
  method FetchAllPages<T>(first: Url, responses: seq<Result<Page<T>, OsError>>)
    returns (r: Result<seq<T>, OsError>, requested: seq<Url>)
    requires ChainEnds(responses)
    ensures r == AllPages(responses) && requested == Requests(first, responses)
  {
    var ret: seq<T> := [];
    var url := first;
    var i := 0;
    requested := [];
    PagesStart(first, responses);
    while true
      invariant 0 <= i < |responses| && ChainEnds(responses[i..])
      invariant Prepend(ret, AllPages(responses[i..])) == AllPages(responses)
      invariant requested + Requests(url, responses[i..]) == Requests(first, responses)
      decreases |responses| - i
    {
      ghost var rest := responses[i..];
      PagesStep(url, rest);
      ghost var done := requested;
      requested := requested + [url];
      var response := responses[i];
      if response.Err? {
        r := Err(response.error);
        return;
      }
      ghost var before := ret;
      ret := ret + response.value.items;
      if response.value.next.None? {
        r := Ok(ret);
        return;
      }
      assert rest[1..] == responses[i + 1..];
      PrependAssoc(before, response.value.items, AllPages(rest[1..]));
      SeqAssoc(done, [url], Requests(response.value.next.value, rest[1..]));
      url := response.value.next.value;
      i := i + 1;
    }
  }

  lemma PagesStart<T>(first: Url, rs: seq<Result<Page<T>, OsError>>)
    requires ChainEnds(rs)
    ensures rs[0..] == rs && ChainEnds(rs[0..])
    ensures Prepend([], AllPages(rs)) == AllPages(rs)
    ensures [] + Requests(first, rs) == Requests(first, rs)
  {
    assert rs[0..] == rs;
    if AllPages(rs).Ok? {
      assert [] + AllPages(rs).value == AllPages(rs).value;
    }
  }

  /** One turn of the paging loop, read off the specification. */
  lemma PagesStep<T>(url: Url, rs: seq<Result<Page<T>, OsError>>)
    requires ChainEnds(rs)
    ensures rs[0].Err? ==> AllPages(rs) == Err(rs[0].error) && Requests(url, rs) == [url]
    ensures rs[0].Ok? && rs[0].value.next.None? ==> AllPages(rs) == Ok(rs[0].value.items) && Requests(url, rs) == [url]
    ensures !Final(rs[0]) ==> (|rs| >= 2 && ChainEnds(rs[1..])
      && AllPages(rs) == Prepend(rs[0].value.items, AllPages(rs[1..]))
      && Requests(url, rs) == [url] + Requests(rs[0].value.next.value, rs[1..]))
  {
    if !Final(rs[0]) {
      ChainEndsTail(rs);
    }
  }

  lemma SeqAssoc<T>(a: seq<T>, b: seq<T>, c: seq<T>)
    ensures a + b + c == a + (b + c)
  {
  }

  /**
   * Whatever the answers, the loop stops at the first final response: it
   * requests one URL per response up to and including that one, each next URL
   * being the previous page's next link, and returns that response's failure
   * or the items of every page fetched, in fetch order.
   */
  lemma {:induction false} AllPagesUpToFinal<T>(first: Url, rs: seq<Result<Page<T>, OsError>>, k: nat)
    requires k < |rs| && Final(rs[k]) && forall j :: 0 <= j < k ==> !Final(rs[j])
    ensures ChainEnds(rs)
    ensures |Requests(first, rs)| == k + 1 && Requests(first, rs)[0] == first
    ensures forall j :: 0 <= j < k ==> Requests(first, rs)[j + 1] == rs[j].value.next.value
    ensures rs[k].Err? ==> AllPages(rs) == Err(rs[k].error)
    ensures rs[k].Ok? ==> AllPages(rs) == Ok(ItemsOf(rs[..k + 1]))
    decreases k
  {
    assert Final(rs[k]);
    ItemsOfCons(rs[..k + 1]);
    if k > 0 {
      assert !Final(rs[0]);
      ChainEndsTail(rs);
      var tail := rs[1..];
      assert forall j :: 0 <= j < k - 1 ==> tail[j] == rs[j + 1];
      AllPagesUpToFinal(rs[0].value.next.value, tail, k - 1);
      assert rs[..k + 1][1..] == tail[..k];
    } else if rs[0].Ok? {
      assert rs[0].value.next.None?;
      assert AllPages(rs) == Ok(rs[0].value.items);
      assert rs[..1][0] == rs[0] && rs[..1][1..] == [];
      assert ItemsOf(rs[..1]) == rs[0].value.items + ItemsOf([]);
      assert rs[0].value.items + [] == rs[0].value.items;
    }
  }

  /** The items of a run of successful pages, concatenated in order. */
  function ItemsOf<T>(rs: seq<Result<Page<T>, OsError>>): seq<T>
    decreases |rs|
  {
    if rs == [] then [] else (if rs[0].Ok? then rs[0].value.items else []) + ItemsOf(rs[1..])
  }

  lemma ItemsOfCons<T>(rs: seq<Result<Page<T>, OsError>>)
    requires rs != []
    ensures ItemsOf(rs) == (if rs[0].Ok? then rs[0].value.items else []) + ItemsOf(rs[1..])
  {
  }

  /** A cinder listing page: volumes and links, of which the first `rel == "next"` is followed. */
  datatype Link = Link(rel: string, href: Url)
  datatype VolumeSet = VolumeSet(volumes: seq<Volume>, links: seq<Link>)

  function VolumePage(reply: VolumeSet): (p: Page<Volume>)
    ensures p.items == reply.volumes
    ensures p.next.Some? <==> exists i :: 0 <= i < |reply.links| && reply.links[i].rel == "next"
    ensures p.next.Some? ==> exists i :: (0 <= i < |reply.links| && reply.links[i].rel == "next"
      && p.next.value == reply.links[i].href && forall j :: 0 <= j < i ==> reply.links[j].rel != "next")
  {
    var i := FirstIndex(reply.links, (l: Link) => l.rel == "next");
    Page(reply.volumes, if i.Some? then Some(reply.links[i.value].href) else None)
  }

  function VolumePages(responses: seq<Result<VolumeSet, OsError>>): (ps: seq<Result<Page<Volume>, OsError>>)
    ensures |ps| == |responses|
    ensures forall i :: 0 <= i < |responses| ==>
      ps[i] == if responses[i].Ok? then Ok(VolumePage(responses[i].value)) else Err(responses[i].error)
  {
    seq(|responses|, i requires 0 <= i < |responses| =>
      if responses[i].Ok? then Ok(VolumePage(responses[i].value)) else Err(responses[i].error))
  }

  /** `volumes()`: the paged cinder listing, from `volumes/detail?all_tenants=1` under the Cinder URL. */
  method Volumes(session: Session, join: Join, responses: seq<Result<VolumeSet, OsError>>)
    returns (r: Result<seq<Volume>, OsError>, requested: seq<Url>)
    requires join(session.cinderUrl, "volumes/detail?all_tenants=1").Some? ==> ChainEnds(VolumePages(responses))
    ensures join(session.cinderUrl, "volumes/detail?all_tenants=1").None? ==>
      r == Err(BadUrl("volumes/detail?all_tenants=1")) && requested == []
    ensures join(session.cinderUrl, "volumes/detail?all_tenants=1").Some? ==>
      r == AllPages(VolumePages(responses))
      && requested == Requests(join(session.cinderUrl, "volumes/detail?all_tenants=1").value, VolumePages(responses))
  {
    var first := join(session.cinderUrl, "volumes/detail?all_tenants=1");
    if first.None? {
      return Err(BadUrl("volumes/detail?all_tenants=1")), [];
    }
    r, requested := FetchAllPages(first.value, VolumePages(responses));
  }

  /** A glance listing page: images and, when there are more, a next reference relative to `v2/images`. */
  datatype ImageSet = ImageSet(images: seq<Image>, next: Option<string>)

  function ImagePage(reply: ImageSet, base: Url, join: Join): (p: Result<Page<Image>, OsError>)
    ensures reply.next.None? ==> p == Ok(Page(reply.images, None))
    ensures reply.next.Some? && join(base, reply.next.value).None? ==> p == Err(BadUrl(reply.next.value))
    ensures reply.next.Some? && join(base, reply.next.value).Some? ==>
      p == Ok(Page(reply.images, Some(join(base, reply.next.value).value)))
  {
    if reply.next.None? then Ok(Page(reply.images, None))
    else
      var u := join(base, reply.next.value);
      if u.None? then Err(BadUrl(reply.next.value)) else Ok(Page(reply.images, u))
  }

  function ImagePages(responses: seq<Result<ImageSet, OsError>>, base: Url, join: Join): (ps: seq<Result<Page<Image>, OsError>>)
    ensures |ps| == |responses|
    ensures forall i :: 0 <= i < |responses| ==>
      ps[i] == if responses[i].Ok? then ImagePage(responses[i].value, base, join) else Err(responses[i].error)
  {
    seq(|responses|, i requires 0 <= i < |responses| =>
      if responses[i].Ok? then ImagePage(responses[i].value, base, join) else Err(responses[i].error))
  }

  /** `images()`: the paged glance listing from `v2/images`, each next reference joined onto that base. */
  method Images(session: Session, join: Join, responses: seq<Result<ImageSet, OsError>>)
    returns (r: Result<seq<Image>, OsError>, requested: seq<Url>)
    requires join(session.glanceUrl, "v2/images").Some? ==>
      ChainEnds(ImagePages(responses, join(session.glanceUrl, "v2/images").value, join))
    ensures join(session.glanceUrl, "v2/images").None? ==> r == Err(BadUrl("v2/images")) && requested == []
    ensures join(session.glanceUrl, "v2/images").Some? ==>
      var base := join(session.glanceUrl, "v2/images").value;
      r == AllPages(ImagePages(responses, base, join)) && requested == Requests(base, ImagePages(responses, base, join))
  {
    var base := join(session.glanceUrl, "v2/images");
    if base.None? {
      return Err(BadUrl("v2/images")), [];
    }
    r, requested := FetchAllPages(base.value, ImagePages(responses, base.value, join));
  }
}
