/**
 * Shapes shared by the App Store Connect resource managers: the client (its base URL and its
 * paginator), the requests a manager issues, the JSON:API payloads it sends, the resources it
 * wraps, and the resource URLs it builds or reads from a resource's embedded links.
 *
 * HTTP is not part of this model: a single request is returned as a `Request` value, and
 * `client.paginate` (page-following) is a function from a page request to the items it yields.
 */
module AppStoreConnect {

  import opened Wrappers
  import opened Json

  datatype PageSize = DefaultPageSize | Unpaged   // `page_size=None` asks for no paging size

  /** A call to `client.paginate(url, params=…, page_size=…)`. */
  datatype PageRequest = PageRequest(url: string, params: map<string, string>, pageSize: PageSize)

  /** The client: `API_URL` and what `paginate` yields for a request. */
  datatype Client = Client(apiUrl: string, paginate: PageRequest -> seq<Json>)

  /** `ResourceType` members, as this model needs them. */
  datatype ResourceType = BundleIdType | CertificatesType | DevicesType | ProfilesType

  /**
   * The body handed to `_get_create_payload` / `_get_update_payload`. Those helpers are not
   * part of this model; the payload records what they are given.
   */
  datatype Payload =
    | CreatePayload(resourceType: ResourceType, attributes: map<string, Json>, relationships: map<string, Json>)
    | UpdatePayload(resourceId: string, resourceType: ResourceType, attributes: map<string, Json>)

  datatype HttpMethod = GET | POST | PATCH | DELETE

  /** A single `client.session.<method>(url, json=body)` call. */
  datatype Request = Request(verb: HttpMethod, url: string, body: Option<Payload>)

  /** The resource wrappers (`Profile`, `BundleId`, `Certificate`, `Device`,
      `LinkedResourceData`, `BundleIdCapability`) by kind; each wraps the JSON it was given. */
  datatype ResourceKind = ProfileKind | BundleIdKind | CertificateKind | DeviceKind | LinkedDataKind | CapabilityKind

  datatype Wrapped = Wrapped(kind: ResourceKind, data: Json)

  /** `Union[<Resource>, ResourceId]`: a bare id, or a resource object given by its JSON. */
  datatype ResourceRef = ById(id: string) | ByResource(data: Json)

  /** `[Kind(item) for item in items]`: one wrapper per item, in order. */
  function WrapAll(kind: ResourceKind, items: seq<Json>): (r: seq<Wrapped>)
    ensures |r| == |items|
    ensures forall i :: 0 <= i < |items| ==> r[i].kind == kind && r[i].data == items[i]
  {
    if items == [] then [] else [Wrapped(kind, items[0])] + WrapAll(kind, items[1..])
  }

  /** The JSON each wrapper holds. */
  function Unwrap(resources: seq<Wrapped>): seq<Json>
  {
    if resources == [] then [] else [resources[0].data] + Unwrap(resources[1..])
  }

  /** Wrapping loses nothing: unwrapping gives back the paginated items, in order. */
  lemma {:induction false} UnwrapWrapAll(kind: ResourceKind, items: seq<Json>)
    ensures Unwrap(WrapAll(kind, items)) == items
  {
    if items != [] {
      UnwrapWrapAll(kind, items[1..]);
      assert [items[0]] + items[1..] == items;
    }
  }

  /** A listing: the paginated items for `request`, each wrapped as `kind`. */
  function Listing(client: Client, kind: ResourceKind, request: PageRequest): (r: seq<Wrapped>)
    ensures |r| == |client.paginate(request)|
    ensures forall i :: 0 <= i < |r| ==> r[i] == Wrapped(kind, client.paginate(request)[i])
  {
    WrapAll(kind, client.paginate(request))
  }

  // ---------------------------------------------------------------------------------------
  // Resource URLs.

  predicate NoSlash(s: string) { '/' !in s }

  /** `"/".join(segments)`. */
  function Path(segments: seq<string>): string
  {
    if segments == [] then []
    else if |segments| == 1 then segments[0]
    else segments[0] + "/" + Path(segments[1..])
  }

  /** `s.split("/")`. */
  function Segments(s: string): (r: seq<string>)
    ensures r != []
  {
    if s == [] then [[]]
    else
      var rest := Segments(s[1..]);
      if s[0] == '/' then [[]] + rest else [[s[0]] + rest[0]] + rest[1..]
  }

  /** `f'{API_URL}/{segment}/{segment}…'`. */
  function ResourceUrl(apiUrl: string, segments: seq<string>): string
  {
    apiUrl + "/" + Path(segments)
  }

  /** The path segments of a URL under the API base, if it is under it. */
  function UrlSegments(apiUrl: string, url: string): Option<seq<string>>
  {
    if apiUrl + "/" <= url then Some(Segments(url[|apiUrl| + 1..])) else None
  }

  lemma {:induction false} SegmentsOfPlain(w: string, t: string)
    requires NoSlash(w)
    ensures Segments(w + t) == [w + Segments(t)[0]] + Segments(t)[1..]
    decreases |w|
  {
    if w != [] {
      assert (w + t)[1..] == w[1..] + t;
      SegmentsOfPlain(w[1..], t);
      assert [w[0]] + (w[1..] + Segments(t)[0]) == w + Segments(t)[0];
    } else {
      assert w + t == t;
      assert w + Segments(t)[0] == Segments(t)[0];
      assert [Segments(t)[0]] + Segments(t)[1..] == Segments(t);
    }
  }

  /** Splitting a path at its slashes gives back its segments, when none holds a slash. */
  lemma {:induction false} SegmentsOfPath(segments: seq<string>)
    requires segments != []
    requires forall i :: 0 <= i < |segments| ==> NoSlash(segments[i])
    ensures Segments(Path(segments)) == segments
    decreases |segments|
  {
    var w := segments[0];
    if |segments| == 1 {
      SegmentsOfPlain(w, []);
      assert w + [] == w;
    } else {
      SegmentsOfPath(segments[1..]);
      var tail := "/" + Path(segments[1..]);
      assert Path(segments) == w + tail;
      assert tail[1..] == Path(segments[1..]);
      assert Segments(tail) == [[]] + segments[1..];
      SegmentsOfPlain(w, tail);
      assert w + [] == w;
      assert [w] + segments[1..] == segments;
    }
  }

  /** A resource URL built from slash-free segments is read back as those segments: the
      collection, the id and the endpoint can all be recovered from it. */
  lemma ResourceUrlSegments(apiUrl: string, segments: seq<string>)
    requires segments != []
    requires forall i :: 0 <= i < |segments| ==> NoSlash(segments[i])
    ensures UrlSegments(apiUrl, ResourceUrl(apiUrl, segments)) == Some(segments)
  {
    var url := ResourceUrl(apiUrl, segments);
    assert apiUrl + "/" <= url;
    assert url[|apiUrl| + 1..] == Path(segments);
    SegmentsOfPath(segments);
  }

  /** `{collection}/{id}` reads back as those two segments when neither holds a slash. */
  lemma ResourceUrlSegmentsOf(apiUrl: string, collection: string, id: string)
    ensures NoSlash(collection) && NoSlash(id) ==>
              UrlSegments(apiUrl, ResourceUrl(apiUrl, [collection, id])) == Some([collection, id])
  {
    if NoSlash(collection) && NoSlash(id) {
      ResourceUrlSegments(apiUrl, [collection, id]);
    }
  }

  // ---------------------------------------------------------------------------------------
  // Embedded relationship links.

  /** `links.self` (the linkage of related ids) or `links.related` (the related resources). */
  datatype LinkKind = SelfLink | RelatedLink

  function LinkName(link: LinkKind): string
  {
    match link
    case SelfLink => "self"
    case RelatedLink => "related"
  }

  /** An attribute lookup that raises `AttributeError` on a missing name. */
  datatype MissingAttribute = MissingAttribute(name: string)

  function Field(j: Json, key: string): Result<Json, MissingAttribute>
  {
    if j.JObject? && key in j.fields then Ok(j.fields[key]) else Err(MissingAttribute(key))
  }

  /** The JSON value reached by following `keys` through nested objects, when every step is
      there. */
  function Lookup(j: Json, keys: seq<string>): Option<Json>
    decreases |keys|
  {
    if keys == [] then Some(j)
    else if j.JObject? && keys[0] in j.fields then Lookup(j.fields[keys[0]], keys[1..])
    else None
  }

  /**
   * `resource.relationships.<relationship>.links.<self|related>`: the URL a resource embeds for
   * one of its relationships. The wrapper classes are not part of this model; attribute access
   * is read as the same path in the resource's JSON.
   */
  function RelationshipLink(resource: Json, relationship: string, link: LinkKind): (r: Result<string, MissingAttribute>)
    ensures var found := Lookup(resource, ["relationships", relationship, "links", LinkName(link)]);
            (r.Ok? <==> found.Some? && found.value.JString?) && (r.Ok? ==> found.value.s == r.value)
    ensures r.Err? ==> r.error.name in {"relationships", relationship, "links", LinkName(link)}
  {
    var path := ["relationships", relationship, "links", LinkName(link)];
    assert path[1..] == [relationship, "links", LinkName(link)];
    assert path[1..][1..] == ["links", LinkName(link)] && path[1..][1..][1..] == [LinkName(link)];
    assert forall j: Json :: (Lookup(j, [LinkName(link)]) ==
                              if j.JObject? && LinkName(link) in j.fields then Some(j.fields[LinkName(link)]) else None);
    assert forall j: Json :: (Lookup(j, ["links", LinkName(link)]) ==
                              if j.JObject? && "links" in j.fields then Lookup(j.fields["links"], [LinkName(link)]) else None);
    match Field(resource, "relationships")
    case Err(e) => Err(e)
    case Ok(relationships) =>
      match Field(relationships, relationship)
      case Err(e) => Err(e)
      case Ok(entry) =>
        match Field(entry, "links")
        case Err(e) => Err(e)
        case Ok(links) =>
          match Field(links, LinkName(link))
          case Err(e) => Err(e)
          case Ok(url) => if url.JString? then Ok(url.s) else Err(MissingAttribute(LinkName(link)))
  }

  /** A resource JSON that embeds `url` as the given link of `relationship`. */
  function WithLink(relationship: string, link: LinkKind, url: string): Json
  {
    JObject(map["relationships" := JObject(map[relationship := JObject(map["links" :=
      JObject(map[LinkName(link) := JString(url)])])])])
  }

  /** Reading a link finds what the resource embeds. */
  lemma LinkRead(relationship: string, link: LinkKind, url: string)
    ensures RelationshipLink(WithLink(relationship, link, url), relationship, link) == Ok(url)
  {
  }

  /** The URL of a relationship endpoint for a bare id: `{collection}/{id}/{relationship}` for
      the related resources, `{collection}/{id}/relationships/{relationship}` for their ids. */
  function EndpointSegments(collection: string, id: string, relationship: string, link: LinkKind): seq<string>
  {
    match link
    case RelatedLink => [collection, id, relationship]
    case SelfLink => [collection, id, "relationships", relationship]
  }

  /** Relationship-URL selection: the embedded link for a resource object, the conventional URL
      for a bare id. */
  function RelationshipUrl(apiUrl: string, collection: string, ref: ResourceRef, relationship: string, link: LinkKind)
    : (r: Result<string, MissingAttribute>)
    ensures ref.ByResource? ==> r == RelationshipLink(ref.data, relationship, link)
    ensures ref.ById? && NoSlash(collection) && NoSlash(ref.id) && NoSlash(relationship) ==>
              r.Ok? && UrlSegments(apiUrl, r.value) == Some(EndpointSegments(collection, ref.id, relationship, link))
  {
    match ref
    case ByResource(data) => RelationshipLink(data, relationship, link)
    case ById(id) =>
      EndpointUrlSegments(apiUrl, collection, id, relationship, link);
      Ok(ResourceUrl(apiUrl, EndpointSegments(collection, id, relationship, link)))
  }

  /** A relationship endpoint's URL reads back as its segments when none holds a slash. */
  lemma EndpointUrlSegments(apiUrl: string, collection: string, id: string, relationship: string, link: LinkKind)
    ensures NoSlash(collection) && NoSlash(id) && NoSlash(relationship) ==>
              var segments := EndpointSegments(collection, id, relationship, link);
              UrlSegments(apiUrl, ResourceUrl(apiUrl, segments)) == Some(segments)
  {
    if NoSlash(collection) && NoSlash(id) && NoSlash(relationship) {
      ResourceUrlSegments(apiUrl, EndpointSegments(collection, id, relationship, link));
    }
  }

  /** The same relationship reached either way gives the same URL when the resource embeds the
      conventional one. */
  lemma BothRoutesAgree(apiUrl: string, collection: string, id: string, relationship: string, link: LinkKind)
    ensures var url := RelationshipUrl(apiUrl, collection, ById(id), relationship, link);
            && url.Ok?
            && RelationshipUrl(apiUrl, collection, ByResource(WithLink(relationship, link, url.value)), relationship, link) == url
  {
  }

  /** The JSON list under `relationships[name]["data"]`, when it is there. */
  function DataItems(relationships: map<string, Json>, name: string): Option<seq<Json>>
  {
    if name in relationships && relationships[name].JObject? && "data" in relationships[name].fields
       && relationships[name].fields["data"].JArray?
    then Some(relationships[name].fields["data"].items)
    else None
  }

  /** `_get_attribute_data` over a list: the given linkage per element, in order. */
  function AttributeDataList(attributeData: (ResourceRef, ResourceType) -> Json, refs: seq<ResourceRef>, t: ResourceType)
    : (r: seq<Json>)
    ensures |r| == |refs|
    ensures forall i :: 0 <= i < |refs| ==> r[i] == attributeData(refs[i], t)
  {
    if refs == [] then [] else [attributeData(refs[0], t)] + AttributeDataList(attributeData, refs[1..], t)
  }

  // ---------------------------------------------------------------------------------------
  // Relationship calls.

  /** A paginated listing: the request handed to `paginate` and the wrapped items. */
  datatype Listed = Listed(request: PageRequest, resources: seq<Wrapped>)

  /** `[Kind(item) for item in client.paginate(url, page_size=…)]`, without query parameters. */
  predicate IsListing(client: Client, kind: ResourceKind, pageSize: PageSize, l: Listed)
  {
    && l.request.params == map[]
    && l.request.pageSize == pageSize
    && l.resources == Listing(client, kind, l.request)
  }

  function ListAt(client: Client, url: Result<string, MissingAttribute>, kind: ResourceKind, pageSize: PageSize)
    : (r: Result<Listed, MissingAttribute>)
    ensures r.Ok? <==> url.Ok?
    ensures r.Ok? ==> r.value.request.url == url.value && IsListing(client, kind, pageSize, r.value)
  {
    match url
    case Err(e) => Err(e)
    case Ok(u) =>
      var request := PageRequest(u, map[], pageSize);
      Ok(Listed(request, Listing(client, kind, request)))
  }

  function GetAt(url: Result<string, MissingAttribute>): (r: Result<Request, MissingAttribute>)
    ensures r.Ok? <==> url.Ok?
    ensures r.Ok? ==> r.value.verb == GET && r.value.url == url.value && r.value.body.None?
  {
    match url
    case Err(e) => Err(e)
    case Ok(u) => Ok(Request(GET, u, None))
  }
}
