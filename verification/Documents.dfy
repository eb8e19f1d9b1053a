/** Option, and the JSON values the service stores. */
module Values {
  datatype Option<+T> = None | Some(value: T)

  datatype Json =
    | Null
    | Bool(b: bool)
    | Number(digits: string)
    | String(s: string)
    | Array(items: seq<Json>)
    | Object(fields: map<string, Json>)

  type byte = x: int | 0 <= x < 256

  /** Stored JSON text: nothing stored, text no decoder accepts, or a document. */
  datatype RawJson = NoText | Malformed(text: string) | Parsed(value: Json)
}

/**
  The registration document of the ts5 library (not part of this repository): the
  fields the wizard fills in.
 */
module Ts5 {
  import opened Values

  datatype MultiLangString = MultiLangString(lang: string, content: string)

  datatype Policy = Policy(kind: string, policyUri: string)

  datatype Identifier = Identifier(kind: string, identifier: string)

  datatype SupervisoryAuthority = SupervisoryAuthority(
    name: string, country: string, email: seq<string>, phone: seq<string>, formUri: seq<string>)

  type ClaimPath = seq<string>

  /** claims is absent, never an empty list, when every claim is registered. */
  datatype Credential = Credential(format: string, meta: Json, claims: Option<seq<ClaimPath>>)

  datatype IntendedUse = IntendedUse(
    purpose: seq<MultiLangString>,
    privacyPolicy: seq<Policy>,
    identifier: string,
    createdAt: string,
    credentials: seq<Credential>)

  datatype LegalPerson = LegalPerson(legalName: seq<string>)

  datatype NaturalPerson = NaturalPerson(givenName: string, familyName: string)

  datatype WrpDocument = WrpDocument(
    tradeName: string,
    supportUri: seq<string>,
    isPsb: bool,
    country: string,
    email: seq<string>,
    phone: seq<string>,
    infoUri: seq<string>,
    srvDescription: seq<seq<MultiLangString>>,
    legalPerson: Option<LegalPerson>,
    naturalPerson: Option<NaturalPerson>,
    identifiers: seq<Identifier>,
    supervisoryAuthority: SupervisoryAuthority,
    intendedUses: seq<IntendedUse>)
}
