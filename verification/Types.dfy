// The entities of the validator (src/entities/types.hpp). A pair of an existence flag and a
// value that is read only under the flag is an Option; a flag that the rules or the encoder read
// apart from its value stays a field of its own.
module Types {
  import opened JsonModel
  import opened OrderedMaps

  type Int32 = n: int | -0x8000_0000 <= n < 0x8000_0000

  type VendorSpecific = seq<Entry<Json>>

  const CREATE := "CREATE"
  const UPDATE := "UPDATE"
  const DELETE := "DELETE"

  const HTTP_OK := 200
  const HTTP_CONFLICT := 409
  const HTTP_UNPROCESSABLE_ENTITY := 422

  datatype Message = ConstraintViolation | UnprocessableEntity

  // The attributes that descriptions name, by their constants in JsonConstants.hpp.
  datatype Attribute =
    | JSON_PLMN_ID_SETS | JSON_PLMN_ID_SET_IDENTIFIER
    | JSON_NSSAI | JSON_DEFAULT_SINGLE_NSSAIS | JSON_SINGLE_NSSAIS | JSON_SST | JSON_SD
    | JSON_DNN_LISTS | JSON_DNN_LIST_ID | JSON_DNN_DATA_LIST | JSON_DNN
    | JSON_DEFAULT_DNN_INDICATOR | JSON_LBO_ROAMING_ALLOWED | JSON_IWK_EPS_IND | JSON_LADN_INDICATOR
    | JSON_PDU_SESSION_TYPES | JSON_DEFAULT_SESSION_TYPE | JSON_ALLOWED_SESSION_TYPES
    | JSON_SSC_MODES | JSON_DEFAULT_SSC_MODE | JSON_ALLOWED_SSC_MODES
    | JSON_5G_QOS_PROFILE | JSON_5QI | JSON_ARP | JSON_PRIORITY_LEVEL | JSON_PREEMPTCAP | JSON_PREEMPTVULN
    | JSON_SESSION_AMBR | JSON_UPLINK | JSON_DOWNLINK
    | JSON_3GPP_CHARGING_CHARACTERISTICS
    | JSON_UP_SECURITY | JSON_UP_INTEGR | JSON_UP_CONFID
    | JSON_SMF_LIST | JSON_SAME_SMF_IND
    | JSON_UDM_SLICE_PROFILE_ID
    | JSON_UDM_ROAMING_AREA_ID | JSON_AREA_LIST | JSON_AREA_CODE | JSON_TACS

  // What an error description says, without its wording.
  datatype Description =
    | InvalidValue(field: Attribute, parent: Attribute)
    | InvalidFormat(field: Attribute, parent: Attribute)
    | InvalidSize(field: Attribute, parent: Attribute)
    | RequiredField(field: Attribute, parent: Attribute)
    | DefaultOnWildcard
    | NoDefaultDnn
    | NoDefaultDnnList
    | NoDefaultPlmnIdSet
    | UnresolvedDnnListId
    | EmptySmfList
    | RepeatedSscMode
    | RepeatedSessionType
    | RepeatedNssai
    | RepeatedDnn
    | DeletedDnnList(dnnListId: string, plmn: string)
    | UnknownDnnList(dnnListId: string, plmn: string, profileId: string)
    | NoImsi(mscId: string)
    | NoProvJournal(mscId: string, path: string)
    | NoSliceProfile(profileId: string, mscId: string)
    | NoRelatedResource(path: string)
    | NotValidated
    | SmsSubscribedNeeded
    | MtSmsSubscribedNeeded
    | MoSmsSubscribedNeeded
    | EmptyAreaList
    | EmptyTacs
    | InvalidTac
    | NotString(field: Attribute)
    | NotInt(field: Attribute)
    | NotBool(field: Attribute)
    | NotArray(field: Attribute)
    | NotObject(field: Attribute)
    | MissingField(field: Attribute, parent: Attribute)
    | NoDefaultSingleNssai
    | NoAreaCodeNorTacs
    | Scalar(code: nat)

  datatype Error = Error(message: Message, resourcePath: string, description: Description)

  datatype Snssai = Snssai(sst: Int32, sd: string, vendorSpecific: VendorSpecific)

  datatype NssaiDetails = NssaiDetails(
    nssai: Snssai,
    dnnListId: string,
    chargingCharacteristics: string,
    vendorSpecific: VendorSpecific)

  datatype SliceInfoNssai = SliceInfoNssai(
    defaultSingleNssais: seq<NssaiDetails>,
    singleNssais: seq<NssaiDetails>,
    vendorSpecific: VendorSpecific)

  datatype PduSessionTypes = PduSessionTypes(
    defaultSessionType: string,
    allowedSessionTypes: seq<string>,
    hasAllowedSessionTypes: bool,
    vendorSpecific: VendorSpecific)

  datatype SscModes = SscModes(
    defaultSscMode: string,
    allowedSscModes: seq<string>,
    vendorSpecific: VendorSpecific)

  datatype Arp = Arp(
    priorityLevel: Int32,
    preemptCap: string,
    preemptVuln: string,
    vendorSpecific: VendorSpecific)

  datatype FivegQosProfile = FivegQosProfile(
    fiveqi: Int32,
    arp: Arp,
    priorityLevel: Option<Int32>,
    vendorSpecific: VendorSpecific)

  datatype Ambr = Ambr(uplink: string, downlink: string, vendorSpecific: VendorSpecific)

  datatype UpSecurity = UpSecurity(upIntegr: string, upConfid: string, vendorSpecific: VendorSpecific)

  datatype DnnData = DnnData(
    dnn: string,
    defaultDnnIndicator: Option<bool>,
    lboRoamingAllowed: Option<bool>,
    iwkEpsInd: Option<bool>,
    ladnIndicator: Option<bool>,
    pduSessionTypes: Option<PduSessionTypes>,
    sscModes: Option<SscModes>,
    fivegQosProfile: Option<FivegQosProfile>,
    sessionAmbr: Option<Ambr>,
    chargingCharacteristics: string,
    upSecurity: Option<UpSecurity>,
    smfList: Option<seq<string>>,
    sameSmfInd: Option<bool>,
    vendorSpecific: VendorSpecific)

  datatype DnnList = DnnList(dnnListId: string, dnnDataList: seq<DnnData>, vendorSpecific: VendorSpecific)

  datatype PlmnIdSet = PlmnIdSet(
    plmnIdSetIdentifier: string,
    nssai: SliceInfoNssai,
    dnnLists: seq<DnnList>,
    hasNssai: bool,
    hasAnyNssai: bool,
    vendorSpecific: VendorSpecific)

  datatype UdmSliceProfile = UdmSliceProfile(
    udmSliceProfileId: string,
    plmnIdSets: seq<PlmnIdSet>,
    vendorSpecific: VendorSpecific)

  // The subscription rules of lines 219-483 settle each scalar attribute by itself; scalarFaults
  // lists the descriptions they give, in order, for the attributes not kept here.
  datatype UdmStaticData = UdmStaticData(
    scalarFaults: seq<Description>,
    udmSliceProfileId: string,
    hasUdmSliceData: bool,
    sliceDataPlmnIdSets: seq<PlmnIdSet>)

  datatype Area = AreaCode(code: string) | Tacs(tacs: seq<string>)

  datatype AreaListElement = AreaListElement(area: Area, vendorSpecific: VendorSpecific)

  datatype UdmRoamingArea = UdmRoamingArea(
    udmRoamingAreaId: string,
    areaList: seq<AreaListElement>,
    vendorSpecific: VendorSpecific)

  datatype SmsStaticData = SmsStaticData(
    smsSubscribed: Option<bool>,
    mtSmsSubscribed: Option<bool>,
    mtSmsBarringAll: Option<bool>,
    mtSmsBarringRoaming: Option<bool>,
    moSmsSubscribed: Option<bool>,
    moSmsBarringAll: Option<bool>,
    moSmsBarringRoaming: Option<bool>)

  datatype Change = Change(
    operation: string,
    resourcePath: string,
    udmStaticData: UdmStaticData,
    udmSliceProfile: UdmSliceProfile,
    udmRoamingArea: UdmRoamingArea,
    smsStaticData: SmsStaticData)

  // boost::variant of the related resources; the rules read nothing of a stored UdmStaticData or
  // SmsStaticData and only the imsi of a provJournal.
  datatype Resource =
    | StaticDataResource
    | ProvJournalResource(imsi: string)
    | SliceProfileResource(profile: UdmSliceProfile)
    | RoamingAreaResource(roamingArea: UdmRoamingArea)
    | SmsDataResource

  type RelatedResources = seq<Entry<Resource>>

  datatype ValidationResponse = ValidationResponse(valid: bool, code: int)

  function Violation(path: string, d: Description): Error {
    Error(ConstraintViolation, path, d)
  }

  function Unprocessable(path: string, d: Description): Error {
    Error(UnprocessableEntity, path, d)
  }

  // Every error of es is a constraint violation of the resource at path.
  predicate Violations(es: seq<Error>, path: string) {
    forall e :: e in es ==> e.message == ConstraintViolation && e.resourcePath == path
  }
}
