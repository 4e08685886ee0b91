/**
 * `BundleIds`: the bundle-identifier resource manager. Each operation is modelled by the
 * request it issues (or the page request it hands to the paginator) and what it returns.
 */
module BundleIds {

  import opened Wrappers
  import opened Json
  import opened AppStoreConnect

  /** `BundleIdPlatform` members, by their values. */
  datatype BundleIdPlatform = BundleIdPlatform(value: string)

  /** `BundleIdOrdering`. */
  datatype BundleIdOrdering = ById | ByName | ByPlatform | BySeedId
  {
    function Value(): string
    {
      match this
      case ById => "id"
      case ByName => "name"
      case ByPlatform => "platform"
      case BySeedId => "seedId"
    }
  }

  /**
   * `register`: a POST to `/bundleIds` whose attributes are the name, identifier and platform,
   * plus the seed id exactly when one is given and it is not empty (the check is on truthiness).
   */
  method Register(client: Client, identifier: string, name: string, platform: BundleIdPlatform,
                  seedId: Option<string> := None)
    returns (r: Request)
    ensures r.verb == POST && r.url == client.apiUrl + "/bundleIds"
    ensures r.body.Some? && r.body.value.CreatePayload? && r.body.value.resourceType == BundleIdType
    ensures r.body.value.relationships == map[]
    ensures var attributes := r.body.value.attributes;
            && attributes.Keys == {"name", "identifier", "platform"}
                                  + (if seedId.Some? && seedId.value != "" then {"seedId"} else {})
            && attributes["name"] == JString(name)
            && attributes["identifier"] == JString(identifier)
            && attributes["platform"] == JString(platform.value)
            && (seedId.Some? && seedId.value != "" ==> attributes["seedId"] == JString(seedId.value))
  {
    var attributes := map["name" := JString(name), "identifier" := JString(identifier), "platform" := JString(platform.value)];
    if seedId.Some? && seedId.value != "" {
      attributes := attributes["seedId" := JString(seedId.value)];
    }
    r := Request(POST, client.apiUrl + "/bundleIds", Some(CreatePayload(BundleIdType, attributes, map[])));
  }

  /** `/bundleIds/{id}`. */
  function BundleIdUrl(apiUrl: string, bundleIdResourceId: string): (url: string)
    ensures NoSlash(bundleIdResourceId) ==> UrlSegments(apiUrl, url) == Some(["bundleIds", bundleIdResourceId])
  {
    ResourceUrlSegmentsOf(apiUrl, "bundleIds", bundleIdResourceId);
    ResourceUrl(apiUrl, ["bundleIds", bundleIdResourceId])
  }

  /** `modify`: a PATCH of `/bundleIds/{id}` whose update carries only the new name; the id is
      what `_get_resource_id` gave. */
  function Modify(client: Client, bundleIdResourceId: string, name: string): (r: Request)
    ensures r.verb == PATCH && r.url == BundleIdUrl(client.apiUrl, bundleIdResourceId)
    ensures r.body.Some? && r.body.value.UpdatePayload?
    ensures r.body.value.resourceId == bundleIdResourceId && r.body.value.resourceType == BundleIdType
    ensures r.body.value.attributes.Keys == {"name"} && r.body.value.attributes["name"] == JString(name)
  {
    Request(PATCH, BundleIdUrl(client.apiUrl, bundleIdResourceId),
            Some(UpdatePayload(bundleIdResourceId, BundleIdType, map["name" := JString(name)])))
  }

  /** `delete`: a DELETE of `/bundleIds/{id}`. */
  function Delete(client: Client, bundleIdResourceId: string): (r: Request)
    ensures r.verb == DELETE && r.body.None?
    ensures NoSlash(bundleIdResourceId) ==> UrlSegments(client.apiUrl, r.url) == Some(["bundleIds", bundleIdResourceId])
  {
    Request(DELETE, BundleIdUrl(client.apiUrl, bundleIdResourceId), None)
  }

  /** `read`: a GET of `/bundleIds/{id}`, the URL `modify` and `delete` use. */
  function Read(client: Client, bundleIdResourceId: string): (r: Request)
    ensures r.verb == GET && r.body.None?
    ensures NoSlash(bundleIdResourceId) ==> UrlSegments(client.apiUrl, r.url) == Some(["bundleIds", bundleIdResourceId])
    ensures r.url == Delete(client, bundleIdResourceId).url == Modify(client, bundleIdResourceId, "").url
  {
    Request(GET, BundleIdUrl(client.apiUrl, bundleIdResourceId), None)
  }

  /** `list`: the sort parameter is the only query parameter; the result is one `BundleId` per
      paginated item, in order. */
  function List(client: Client, asParam: (string, bool) -> string,
                ordering: BundleIdOrdering := ByName, reverse: bool := false): (r: Listed)
    ensures r.request.url == client.apiUrl + "/bundleIds" && r.request.pageSize == DefaultPageSize
    ensures r.request.params.Keys == {"sort"} && r.request.params["sort"] == asParam(ordering.Value(), reverse)
    ensures |r.resources| == |client.paginate(r.request)|
    ensures forall i :: 0 <= i < |r.resources| ==> r.resources[i] == Wrapped(BundleIdKind, client.paginate(r.request)[i])
  {
    var request := PageRequest(client.apiUrl + "/bundleIds", map["sort" := asParam(ordering.Value(), reverse)], DefaultPageSize);
    Listed(request, Listing(client, BundleIdKind, request))
  }

  /** `list_profile_ids`: one `LinkedResourceData` per profile linkage, default page size. */
  function ListProfileIds(client: Client, bundleId: ResourceRef): (r: Result<Listed, MissingAttribute>)
    ensures bundleId.ById? && NoSlash(bundleId.id) ==>
              r.Ok? && UrlSegments(client.apiUrl, r.value.request.url) == Some(["bundleIds", bundleId.id, "relationships", "profiles"])
    ensures bundleId.ByResource? ==> (r.Ok? <==> RelationshipLink(bundleId.data, "profiles", SelfLink).Ok?)
    ensures bundleId.ByResource? && r.Ok? ==> r.value.request.url == RelationshipLink(bundleId.data, "profiles", SelfLink).value
    ensures r.Ok? ==> IsListing(client, LinkedDataKind, DefaultPageSize, r.value)
  {
    ListAt(client, RelationshipUrl(client.apiUrl, "bundleIds", bundleId, "profiles", SelfLink), LinkedDataKind, DefaultPageSize)
  }

  /** `list_profiles`: one `Profile` per related profile, default page size. */
  function ListProfiles(client: Client, bundleId: ResourceRef): (r: Result<Listed, MissingAttribute>)
    ensures bundleId.ById? && NoSlash(bundleId.id) ==>
              r.Ok? && UrlSegments(client.apiUrl, r.value.request.url) == Some(["bundleIds", bundleId.id, "profiles"])
    ensures bundleId.ByResource? ==> (r.Ok? <==> RelationshipLink(bundleId.data, "profiles", RelatedLink).Ok?)
    ensures bundleId.ByResource? && r.Ok? ==> r.value.request.url == RelationshipLink(bundleId.data, "profiles", RelatedLink).value
    ensures r.Ok? ==> IsListing(client, ProfileKind, DefaultPageSize, r.value)
  {
    ListAt(client, RelationshipUrl(client.apiUrl, "bundleIds", bundleId, "profiles", RelatedLink), ProfileKind, DefaultPageSize)
  }

  /** `list_capabilility_ids`: one `LinkedResourceData` per capability linkage, unpaged. */
  function ListCapabilityIds(client: Client, bundleId: ResourceRef): (r: Result<Listed, MissingAttribute>)
    ensures bundleId.ById? && NoSlash(bundleId.id) ==>
              r.Ok? && UrlSegments(client.apiUrl, r.value.request.url) == Some(["bundleIds", bundleId.id, "relationships", "bundleIdCapabilities"])
    ensures bundleId.ByResource? ==> (r.Ok? <==> RelationshipLink(bundleId.data, "bundleIdCapabilities", SelfLink).Ok?)
    ensures bundleId.ByResource? && r.Ok? ==> r.value.request.url == RelationshipLink(bundleId.data, "bundleIdCapabilities", SelfLink).value
    ensures r.Ok? ==> IsListing(client, LinkedDataKind, Unpaged, r.value)
  {
    ListAt(client, RelationshipUrl(client.apiUrl, "bundleIds", bundleId, "bundleIdCapabilities", SelfLink), LinkedDataKind, Unpaged)
  }

  /** `list_capabilities`: one `BundleIdCapability` per related capability, unpaged. */
  function ListCapabilities(client: Client, bundleId: ResourceRef): (r: Result<Listed, MissingAttribute>)
    ensures bundleId.ById? && NoSlash(bundleId.id) ==>
              r.Ok? && UrlSegments(client.apiUrl, r.value.request.url) == Some(["bundleIds", bundleId.id, "bundleIdCapabilities"])
    ensures bundleId.ByResource? ==> (r.Ok? <==> RelationshipLink(bundleId.data, "bundleIdCapabilities", RelatedLink).Ok?)
    ensures bundleId.ByResource? && r.Ok? ==> r.value.request.url == RelationshipLink(bundleId.data, "bundleIdCapabilities", RelatedLink).value
    ensures r.Ok? ==> IsListing(client, CapabilityKind, Unpaged, r.value)
  {
    ListAt(client, RelationshipUrl(client.apiUrl, "bundleIds", bundleId, "bundleIdCapabilities", RelatedLink), CapabilityKind, Unpaged)
  }
}
