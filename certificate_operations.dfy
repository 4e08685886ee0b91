/**
 * `CertificateOperations`: creating, listing, reading and revoking signing certificates,
 * each modelled by the request it issues (or the page request it hands to the paginator).
 */
module CertificateOperations {

  import opened Wrappers
  import opened Json
  import opened PyBytes
  import opened AppStoreConnect

  /** `CertificateType` members, by their values. */
  datatype CertificateType = CertificateType(value: string)

  /** `CertificateOrdering`. */
  datatype CertificateOrdering = ByCertificateType | ByDisplayName | ById | BySerialNumber
  {
    function Value(): string
    {
      match this
      case ByCertificateType => "certificateType"
      case ByDisplayName => "displayName"
      case ById => "id"
      case BySerialNumber => "serialNumber"
    }
  }

  /** A certificate signing request, as text or as bytes. */
  datatype Csr = CsrText(text: string) | CsrBytes(bytes: seq<byte>)

  /** `UnicodeDecodeError` from `bytes.decode()`. */
  datatype CreateError = UndecodableCsr

  /** The CSR text: bytes are decoded (`decode` stands for `bytes.decode()`, `None` for the
      error it raises), text is taken unchanged. */
  function CsrContent(csr: Csr, decode: seq<byte> -> Option<string>): (r: Result<string, CreateError>)
    ensures csr.CsrText? ==> r == Ok(csr.text)
    ensures csr.CsrBytes? && decode(csr.bytes).Some? ==> r == Ok(decode(csr.bytes).value)
    ensures csr.CsrBytes? && decode(csr.bytes).None? ==> r == Err(UndecodableCsr)
  {
    match csr
    case CsrText(text) => Ok(text)
    case CsrBytes(bytes) =>
      match decode(bytes)
      case None => Err(UndecodableCsr)
      case Some(text) => Ok(text)
  }

  /** `create`: a POST to `/certificates` whose attributes are exactly the certificate type's
      value and the CSR text. */
  function Create(client: Client, certificateType: CertificateType, csr: Csr, decode: seq<byte> -> Option<string>)
    : (r: Result<Request, CreateError>)
    ensures r.Ok? <==> CsrContent(csr, decode).Ok?
    ensures r.Ok? ==>
              && r.value.verb == POST && r.value.url == client.apiUrl + "/certificates"
              && r.value.body.Some? && r.value.body.value.CreatePayload?
              && r.value.body.value.resourceType == CertificatesType
              && r.value.body.value.relationships == map[]
              && r.value.body.value.attributes.Keys == {"certificateType", "csrContent"}
              && r.value.body.value.attributes["certificateType"] == JString(certificateType.value)
              && r.value.body.value.attributes["csrContent"] == JString(CsrContent(csr, decode).value)
  {
    match CsrContent(csr, decode)
    case Err(e) => Err(e)
    case Ok(content) =>
      var attributes := map["certificateType" := JString(certificateType.value), "csrContent" := JString(content)];
      Ok(Request(POST, client.apiUrl + "/certificates", Some(CreatePayload(CertificatesType, attributes, map[]))))
  }

  /**
   * `list`: the sort parameter always (by display name, ascending, unless told otherwise), and
   * each filter exactly when its argument is given; the result is one `Certificate` per
   * paginated item, in order.
   */
  method List(client: Client, asParam: (string, bool) -> string,
              filterCertificateType: Option<CertificateType> := None, filterDisplayName: Option<string> := None,
              ordering: CertificateOrdering := ByDisplayName, reverse: bool := false)
    returns (request: PageRequest, certificates: seq<Wrapped>)
    ensures request.url == client.apiUrl + "/certificates" && request.pageSize == DefaultPageSize
    ensures request.params.Keys == {"sort"}
              + (if filterCertificateType.Some? then {"filter[certificateType]"} else {})
              + (if filterDisplayName.Some? then {"filter[displayName]"} else {})
    ensures request.params["sort"] == asParam(ordering.Value(), reverse)
    ensures filterCertificateType.Some? ==> request.params["filter[certificateType]"] == filterCertificateType.value.value
    ensures filterDisplayName.Some? ==> request.params["filter[displayName]"] == filterDisplayName.value
    ensures |certificates| == |client.paginate(request)|
    ensures forall i :: 0 <= i < |certificates| ==> certificates[i] == Wrapped(CertificateKind, client.paginate(request)[i])
  {
    var params := map["sort" := asParam(ordering.Value(), reverse)];
    if filterCertificateType.Some? {
      params := params["filter[certificateType]" := filterCertificateType.value.value];
    }
    if filterDisplayName.Some? {
      params := params["filter[displayName]" := filterDisplayName.value];
    }
    request := PageRequest(client.apiUrl + "/certificates", params, DefaultPageSize);
    certificates := Listing(client, CertificateKind, request);
  }

  /** `LinkedResourceData`: a resource linkage; only its `id` is read here. */
  datatype LinkedResourceData = LinkedResourceData(id: string, data: Json)

  /** `Union[LinkedResourceData, ResourceId]`. */
  datatype CertificateRef = Linked(resource: LinkedResourceData) | Id(id: string)

  /** The id of the certificate meant: the linkage's id, or the value itself. */
  function ResourceIdOf(ref: CertificateRef): (id: string)
    ensures ref.Linked? ==> id == ref.resource.id
    ensures ref.Id? ==> id == ref.id
  {
    match ref
    case Linked(resource) => resource.id
    case Id(id) => id
  }

  function CertificateUrl(apiUrl: string, ref: CertificateRef): (url: string)
    ensures NoSlash(ResourceIdOf(ref)) ==> UrlSegments(apiUrl, url) == Some(["certificates", ResourceIdOf(ref)])
  {
    ResourceUrlSegmentsOf(apiUrl, "certificates", ResourceIdOf(ref));
    ResourceUrl(apiUrl, ["certificates", ResourceIdOf(ref)])
  }

  /** `read`: a GET of `/certificates/{id}`. */
  function Read(client: Client, resource: CertificateRef): (r: Request)
    ensures r.verb == GET && r.body.None?
    ensures NoSlash(ResourceIdOf(resource)) ==> UrlSegments(client.apiUrl, r.url) == Some(["certificates", ResourceIdOf(resource)])
  {
    Request(GET, CertificateUrl(client.apiUrl, resource), None)
  }

  /** `revoke`: a DELETE of `/certificates/{id}`. */
  function Revoke(client: Client, resource: CertificateRef): (r: Request)
    ensures r.verb == DELETE && r.body.None?
    ensures NoSlash(ResourceIdOf(resource)) ==> UrlSegments(client.apiUrl, r.url) == Some(["certificates", ResourceIdOf(resource)])
  {
    Request(DELETE, CertificateUrl(client.apiUrl, resource), None)
  }

  /** A linkage and its bare id name the same certificate: reading or revoking either targets
      the same URL. */
  lemma LinkedAndBareIdAgree(client: Client, resource: LinkedResourceData)
    ensures Read(client, Linked(resource)).url == Read(client, Id(resource.id)).url
    ensures Revoke(client, Linked(resource)).url == Revoke(client, Id(resource.id)).url
    ensures Read(client, Linked(resource)).url == Revoke(client, Id(resource.id)).url
  {
  }
}
