/**
 * `Profiles`: the provisioning-profile resource manager. Each operation is modelled by the
 * request it issues (or the page request it hands to the paginator) and what it returns.
 */
module Profiles {

  import opened Wrappers
  import opened Json
  import opened AppStoreConnect

  /** `ProfileType` and `ProfileState` members, by their values. */
  datatype ProfileType = ProfileType(value: string)
  datatype ProfileState = ProfileState(value: string)

  /** `ProfileOrdering`. */
  datatype ProfileOrdering = ById | ByName | ByProfileState | ByProfileType
  {
    function Value(): string
    {
      match this
      case ById => "id"
      case ByName => "name"
      case ByProfileState => "profileState"
      case ByProfileType => "profileType"
    }
  }

  /** `create`: a POST to `/profiles` with exactly the name and profile-type attributes and the
      bundle-id, certificate and device relationships; a missing device list is an empty one. */
  function Create(client: Client, attributeData: (ResourceRef, ResourceType) -> Json, name: string,
                  profileType: ProfileType, bundleId: ResourceRef, certificates: seq<ResourceRef>,
                  devices: Option<seq<ResourceRef>>): (r: Request)
    ensures r.verb == POST && r.url == client.apiUrl + "/profiles"
    ensures r.body.Some? && r.body.value.CreatePayload? && r.body.value.resourceType == ProfilesType
    ensures var attributes := r.body.value.attributes;
            && attributes.Keys == {"name", "profileType"}
            && attributes["name"] == JString(name)
            && attributes["profileType"] == JString(profileType.value)
    ensures var relationships := r.body.value.relationships;
            && relationships.Keys == {"bundleId", "certificates", "devices"}
            && relationships["bundleId"] == JObject(map["data" := attributeData(bundleId, BundleIdType)])
    ensures var data := DataItems(r.body.value.relationships, "certificates");
            && data.Some? && |data.value| == |certificates|
            && forall i :: 0 <= i < |certificates| ==> data.value[i] == attributeData(certificates[i], CertificatesType)
    ensures var data := DataItems(r.body.value.relationships, "devices");
            && data.Some?
            && (devices.None? ==> data.value == [])
            && (devices.Some? ==> && |data.value| == |devices.value|
                                  && forall i :: 0 <= i < |devices.value| ==> data.value[i] == attributeData(devices.value[i], DevicesType))
  {
    var deviceRefs := if devices.None? then [] else devices.value;
    var attributes := map["name" := JString(name), "profileType" := JString(profileType.value)];
    var relationships := map[
      "bundleId" := JObject(map["data" := attributeData(bundleId, BundleIdType)]),
      "certificates" := JObject(map["data" := JArray(AttributeDataList(attributeData, certificates, CertificatesType))]),
      "devices" := JObject(map["data" := JArray(AttributeDataList(attributeData, deviceRefs, DevicesType))])];
    Request(POST, client.apiUrl + "/profiles", Some(CreatePayload(ProfilesType, attributes, relationships)))
  }

  /** `delete`: a DELETE of `/profiles/{id}`, the id being what `_get_resource_id` gave. */
  function Delete(client: Client, profileId: string): (r: Request)
    ensures r.verb == DELETE && r.body.None?
    ensures NoSlash(profileId) ==> UrlSegments(client.apiUrl, r.url) == Some(["profiles", profileId])
  {
    ResourceUrlSegmentsOf(client.apiUrl, "profiles", profileId);
    Request(DELETE, ResourceUrl(client.apiUrl, ["profiles", profileId]), None)
  }

  /** `read`: a GET of `/profiles/{id}`. */
  function Read(client: Client, profileId: string): (r: Request)
    ensures r.verb == GET && r.body.None?
    ensures NoSlash(profileId) ==> UrlSegments(client.apiUrl, r.url) == Some(["profiles", profileId])
    ensures r.url == Delete(client, profileId).url
  {
    ResourceUrlSegmentsOf(client.apiUrl, "profiles", profileId);
    Request(GET, ResourceUrl(client.apiUrl, ["profiles", profileId]), None)
  }

  /**
   * `list`: the sort parameter always, and each filter exactly when its argument is given;
   * the result is one `Profile` per paginated item, in order. `Ordering.as_param` is not part of
   * this model and is passed in.
   */
  method List(client: Client, asParam: (string, bool) -> string,
              filterId: Option<string> := None, filterName: Option<string> := None,
              filterProfileState: Option<ProfileState> := None, filterProfileType: Option<ProfileType> := None,
              ordering: ProfileOrdering := ByName, reverse: bool := false)
    returns (request: PageRequest, profiles: seq<Wrapped>)
    ensures request.url == client.apiUrl + "/profiles" && request.pageSize == DefaultPageSize
    ensures request.params.Keys == {"sort"}
              + (if filterId.Some? then {"filter[id]"} else {})
              + (if filterProfileState.Some? then {"filter[profileState]"} else {})
              + (if filterProfileType.Some? then {"filter[profileType]"} else {})
              + (if filterName.Some? then {"filter[name]"} else {})
    ensures request.params["sort"] == asParam(ordering.Value(), reverse)
    ensures filterId.Some? ==> request.params["filter[id]"] == filterId.value
    ensures filterProfileState.Some? ==> request.params["filter[profileState]"] == filterProfileState.value.value
    ensures filterProfileType.Some? ==> request.params["filter[profileType]"] == filterProfileType.value.value
    ensures filterName.Some? ==> request.params["filter[name]"] == filterName.value
    ensures |profiles| == |client.paginate(request)|
    ensures forall i :: 0 <= i < |profiles| ==> profiles[i] == Wrapped(ProfileKind, client.paginate(request)[i])
  {
    var params := map["sort" := asParam(ordering.Value(), reverse)];
    if filterId.Some? {
      params := params["filter[id]" := filterId.value];
    }
    if filterProfileState.Some? {
      params := params["filter[profileState]" := filterProfileState.value.value];
    }
    if filterProfileType.Some? {
      params := params["filter[profileType]" := filterProfileType.value.value];
    }
    if filterName.Some? {
      params := params["filter[name]" := filterName.value];
    }
    request := PageRequest(client.apiUrl + "/profiles", params, DefaultPageSize);
    profiles := Listing(client, ProfileKind, request);
  }

  // ---------------------------------------------------------------------------------------
  // Relationships of a profile.

  /** A profile's relationships, each with its JSON:API name. */
  datatype ProfileRelationship = BundleIdRelationship | CertificatesRelationship | DevicesRelationship
  {
    function Name(): string
    {
      match this
      case BundleIdRelationship => "bundleId"
      case CertificatesRelationship => "certificates"
      case DevicesRelationship => "devices"
    }
  }

  /** The URL of a relationship endpoint of a profile: for a bare id the conventional URL, for a
      `Profile` the link it embeds for that relationship. */
  function ProfileRelationshipUrl(apiUrl: string, profile: ResourceRef, relationship: ProfileRelationship, link: LinkKind)
    : (r: Result<string, MissingAttribute>)
    ensures profile.ById? && NoSlash(profile.id) ==>
              r.Ok? && UrlSegments(apiUrl, r.value) == Some(EndpointSegments("profiles", profile.id, relationship.Name(), link))
    ensures profile.ByResource? ==> r == RelationshipLink(profile.data, relationship.Name(), link)
  {
    RelationshipUrl(apiUrl, "profiles", profile, relationship.Name(), link)
  }

  /** The relationship-URL selection as the source writes it: for a `Profile` object, the
      certificate and device endpoints read the embedded `profiles` relationship. */
  function ProfileRelationshipUrlAsWritten(apiUrl: string, profile: ResourceRef, relationship: ProfileRelationship, link: LinkKind)
    : (r: Result<string, MissingAttribute>)
    ensures profile.ById? ==> r == ProfileRelationshipUrl(apiUrl, profile, relationship, link)
    ensures profile.ByResource? && !relationship.BundleIdRelationship? ==> r == RelationshipLink(profile.data, "profiles", link)
  {
    match profile
    case ById(_) => RelationshipUrl(apiUrl, "profiles", profile, relationship.Name(), link)
    case ByResource(data) =>
      RelationshipLink(data, if relationship.BundleIdRelationship? then "bundleId" else "profiles", link)
  }

  /** A profile as App Store Connect returns it: `bundleId`, `certificates` and `devices`
      relationships, each with both links, and no `profiles` relationship. */
  function ProfileWithLinks(related: string, self: string): Json
  {
    var links := JObject(map["links" := JObject(map["self" := JString(self), "related" := JString(related)])]);
    JObject(map["relationships" := JObject(map["bundleId" := links, "certificates" := links, "devices" := links])])
  }

  /** Written as the source writes it, listing the certificates or devices of a `Profile`
      object fails on a profile that embeds both links, where the intended reading finds them. */
  lemma AsWrittenMissesProfileLinks(apiUrl: string, relationship: ProfileRelationship, link: LinkKind)
    requires !relationship.BundleIdRelationship?
    ensures var profile := ByResource(ProfileWithLinks("https://related", "https://self"));
            && ProfileRelationshipUrlAsWritten(apiUrl, profile, relationship, link) == Err(MissingAttribute("profiles"))
            && ProfileRelationshipUrl(apiUrl, profile, relationship, link)
               == Ok(if link.SelfLink? then "https://self" else "https://related")
  {
    var data := ProfileWithLinks("https://related", "https://self");
    assert "profiles" !in data.fields["relationships"].fields;
    assert relationship.Name() in data.fields["relationships"].fields;
  }

  /** `read_bundle_id`: a GET of the profile's related bundle id. */
  function ReadBundleId(client: Client, profile: ResourceRef): (r: Result<Request, MissingAttribute>)
    ensures profile.ById? && NoSlash(profile.id) ==>
              r.Ok? && UrlSegments(client.apiUrl, r.value.url) == Some(["profiles", profile.id, "bundleId"])
    ensures profile.ByResource? ==> (r.Ok? <==> RelationshipLink(profile.data, "bundleId", RelatedLink).Ok?)
    ensures profile.ByResource? && r.Ok? ==> r.value.url == RelationshipLink(profile.data, "bundleId", RelatedLink).value
    ensures r.Ok? ==> r.value.verb == GET && r.value.body.None?
  {
    GetAt(ProfileRelationshipUrl(client.apiUrl, profile, BundleIdRelationship, RelatedLink))
  }

  /** `get_bundle_id_resource_id`: a GET of the profile's bundle-id linkage. */
  function GetBundleIdResourceId(client: Client, profile: ResourceRef): (r: Result<Request, MissingAttribute>)
    ensures profile.ById? && NoSlash(profile.id) ==>
              r.Ok? && UrlSegments(client.apiUrl, r.value.url) == Some(["profiles", profile.id, "relationships", "bundleId"])
    ensures profile.ByResource? ==> (r.Ok? <==> RelationshipLink(profile.data, "bundleId", SelfLink).Ok?)
    ensures profile.ByResource? && r.Ok? ==> r.value.url == RelationshipLink(profile.data, "bundleId", SelfLink).value
    ensures r.Ok? ==> r.value.verb == GET && r.value.body.None?
  {
    GetAt(ProfileRelationshipUrl(client.apiUrl, profile, BundleIdRelationship, SelfLink))
  }

  /** `list_certificates`: one `Certificate` per paginated item of the related certificates. */
  function ListCertificates(client: Client, profile: ResourceRef): (r: Result<Listed, MissingAttribute>)
    ensures profile.ById? && NoSlash(profile.id) ==>
              r.Ok? && UrlSegments(client.apiUrl, r.value.request.url) == Some(["profiles", profile.id, "certificates"])
    ensures profile.ByResource? ==> (r.Ok? <==> RelationshipLink(profile.data, "certificates", RelatedLink).Ok?)
    ensures profile.ByResource? && r.Ok? ==> r.value.request.url == RelationshipLink(profile.data, "certificates", RelatedLink).value
    ensures r.Ok? ==> IsListing(client, CertificateKind, DefaultPageSize, r.value)
  {
    ListAt(client, ProfileRelationshipUrl(client.apiUrl, profile, CertificatesRelationship, RelatedLink), CertificateKind, DefaultPageSize)
  }

  /** `list_certificate_ids`: one `LinkedResourceData` per certificate linkage. */
  function ListCertificateIds(client: Client, profile: ResourceRef): (r: Result<Listed, MissingAttribute>)
    ensures profile.ById? && NoSlash(profile.id) ==>
              r.Ok? && UrlSegments(client.apiUrl, r.value.request.url) == Some(["profiles", profile.id, "relationships", "certificates"])
    ensures profile.ByResource? ==> (r.Ok? <==> RelationshipLink(profile.data, "certificates", SelfLink).Ok?)
    ensures profile.ByResource? && r.Ok? ==> r.value.request.url == RelationshipLink(profile.data, "certificates", SelfLink).value
    ensures r.Ok? ==> IsListing(client, LinkedDataKind, DefaultPageSize, r.value)
  {
    ListAt(client, ProfileRelationshipUrl(client.apiUrl, profile, CertificatesRelationship, SelfLink), LinkedDataKind, DefaultPageSize)
  }

  /** `list_devices`: one `Device` per paginated item of the related devices. */
  function ListDevices(client: Client, profile: ResourceRef): (r: Result<Listed, MissingAttribute>)
    ensures profile.ById? && NoSlash(profile.id) ==>
              r.Ok? && UrlSegments(client.apiUrl, r.value.request.url) == Some(["profiles", profile.id, "devices"])
    ensures profile.ByResource? ==> (r.Ok? <==> RelationshipLink(profile.data, "devices", RelatedLink).Ok?)
    ensures profile.ByResource? && r.Ok? ==> r.value.request.url == RelationshipLink(profile.data, "devices", RelatedLink).value
    ensures r.Ok? ==> IsListing(client, DeviceKind, DefaultPageSize, r.value)
  {
    ListAt(client, ProfileRelationshipUrl(client.apiUrl, profile, DevicesRelationship, RelatedLink), DeviceKind, DefaultPageSize)
  }

  /** `list_device_ids`: one `LinkedResourceData` per device linkage. */
  function ListDeviceIds(client: Client, profile: ResourceRef): (r: Result<Listed, MissingAttribute>)
    ensures profile.ById? && NoSlash(profile.id) ==>
              r.Ok? && UrlSegments(client.apiUrl, r.value.request.url) == Some(["profiles", profile.id, "relationships", "devices"])
    ensures profile.ByResource? ==> (r.Ok? <==> RelationshipLink(profile.data, "devices", SelfLink).Ok?)
    ensures profile.ByResource? && r.Ok? ==> r.value.request.url == RelationshipLink(profile.data, "devices", SelfLink).value
    ensures r.Ok? ==> IsListing(client, LinkedDataKind, DefaultPageSize, r.value)
  {
    ListAt(client, ProfileRelationshipUrl(client.apiUrl, profile, DevicesRelationship, SelfLink), LinkedDataKind, DefaultPageSize)
  }
}
