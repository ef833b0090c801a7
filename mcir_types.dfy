/** The records of the cloud-resource package that the snapshot workflow reads and
    builds: the provider layer's image request and image description, and the
    catalog's custom-image record. Only the fields the workflow touches are kept. */
module McirTypes {

  /** A resource's identifiers on the provider side: the name the provider layer
      knows it by and the id the cloud assigned to it. */
  datatype IID = IID(nameId: string, systemId: string)

  datatype KeyValue = KeyValue(key: string, value: string)

  /** The nested part of an image-creation request: the image's name and the
      provider-side name of the machine to capture. */
  datatype SpiderMyImageReqInfo = SpiderMyImageReqInfo(name: string, sourceVM: string)

  /** The body of an image-creation request to the provider layer. */
  datatype SpiderMyImageReq = SpiderMyImageReq(connectionName: string, reqInfo: SpiderMyImageReqInfo)

  /** The provider layer's description of a created image. */
  datatype SpiderMyImageInfo = SpiderMyImageInfo(
    iid: IID,
    createdTime: string,
    status: string,
    keyValueList: seq<KeyValue>)

  /** A custom image as the catalog stores it. */
  datatype TbCustomImageInfo = TbCustomImageInfo(
    namespace: string,
    id: string,
    name: string,
    connectionName: string,
    sourceVmId: string,
    cspCustomImageId: string,
    cspCustomImageName: string,
    description: string,
    creationDate: string,
    guestOS: string,
    status: string,
    keyValueList: seq<KeyValue>,
    associatedObjectList: seq<string>,
    isAutoGenerated: bool,
    systemLabel: string)

  /** The zero value of the record: every string empty, every list empty, the flag off. */
  const ZeroCustomImage: TbCustomImageInfo :=
    TbCustomImageInfo("", "", "", "", "", "", "", "", "", "", "", [], [], false, "")
}
