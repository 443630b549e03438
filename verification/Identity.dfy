/**
 * Identities from certificates (messages/identity.go) and the NATS subjects built from
 * them (datastore/nats/nats.go).
 */
module Identity {
  import opened Wrappers

  datatype IdentityError = Unauthorized | Excluded

  /** What the identity is built from. */
  datatype Cert = Cert(issuer: string, commonName: string, organizationalUnits: seq<string>, oids: seq<string>)

  const KNOWN_ISSUERS: map<string, string> :=
    map["TeslaMotors" := "vehicle_device",
        "Tesla Issuing CA" := "vehicle_device",
        "Tesla Motors Products CA" := "vehicle_device"]

  const KNOWN_OID_ISSUERS: set<string> :=
    {"Tesla Motors Product Issuing CA",
     "Tesla Motors Product RSA Issuing CA",
     "Tesla Motors GF3 Product Issuing CA",
     "Tesla Motors GF3 Product RSA Issuing CA",
     "Tesla Energy Product Issuing CA",
     "Tesla Energy GF0 Product Issuing CA",
     "Tesla Motors GF0 Product Issuing CA",
     "Tesla Motors GF Austin Product Issuing CA",
     "Tesla Motors GF Berlin Product Issuing CA",
     "Tesla Product Access Issuing CA",
     "Tesla China Product Access Issuing CA",
     "Tesla GF0 Product Access Issuing CA",
     "Tesla GF3 Product Access Issuing CA",
     "Tesla GF Austin Product Access Issuing CA",
     "Tesla GF Berlin Product Access Issuing CA"}

  const OID_MAP: map<string, string> :=
    map["1.3.6.1.4.1.49279.2.4.1" := "vehicle_device",
        "1.3.6.1.4.1.49279.2.4.11" := "vehicle_board_device",
        "1.3.6.1.4.1.49279.2.4.2" := "energy_device",
        "1.3.6.1.4.1.49279.2.4.12" := "das_device",
        "1.3.6.1.4.1.49279.2.4.14" := "vehicle_service",
        "1.3.6.1.4.1.49279.2.4.15" := "das_service",
        "1.3.6.1.4.1.49279.2.4.16" := "energy_service",
        "1.3.6.1.4.1.49279.2.4.28" := "robotics_device",
        "1.3.6.1.4.1.49279.2.5.1" := "vehicle_device",
        "1.3.6.1.4.1.49279.2.5.11" := "vehicle_board_device",
        "1.3.6.1.4.1.49279.2.5.2" := "energy_device",
        "1.3.6.1.4.1.49279.2.5.12" := "das_device",
        "1.3.6.1.4.1.49279.2.5.14" := "vehicle_service",
        "1.3.6.1.4.1.49279.2.5.15" := "das_service",
        "1.3.6.1.4.1.49279.2.5.16" := "energy_service",
        "1.3.6.1.4.1.49279.2.5.28" := "robotics_device"]

  const OU_MAP: map<string, string> :=
    map["Solar Inverter" := "solar_inverter_device", "Gen3 Wall Connector" := "wall_connector_device"]

  const EXCLUDED_OIDS: set<string> := {"1.3.6.1.4.1.49279.2.5.1.1"}

  // ----- Strings -----

  /** strings.ReplaceAll(s, ".", "-"). */
  function ReplaceDots(s: string): string {
    seq(|s|, i requires 0 <= i < |s| => if s[i] == '.' then '-' else s[i])
  }

  /** The index of the first dot, or the length if there is none. */
  function FirstDot(s: string): (i: nat)
    ensures i <= |s| && '.' !in s[..i] && (i < |s| ==> s[i] == '.')
  {
    if s == [] || s[0] == '.' then 0
    else
      var i := FirstDot(s[1..]);
      assert s[..i + 1] == [s[0]] + s[1..][..i];
      i + 1
  }

  lemma {:induction false} FirstDotIs(s: string, i: nat)
    requires i < |s| && s[i] == '.' && '.' !in s[..i]
    ensures FirstDot(s) == i
  {
    if i > 0 {
      assert s[..i][0] == s[0];
      assert s[1..][..i - 1] == s[..i][1..];
      FirstDotIs(s[1..], i - 1);
    }
  }

  function BuildClientID(clientType: string, deviceID: string): string {
    clientType + "." + deviceID
  }

  /** Splits at the first dot only. */
  function ParseSenderID(senderID: string): (string, string) {
    var i := FirstDot(senderID);
    if i == |senderID| then (senderID, "") else (senderID[..i], senderID[i + 1..])
  }

  // ----- Certificates -----

  function CreateIdentityFromCert(cert: Cert): Result<(string, string), IdentityError> {
    var deviceID := ReplaceDots(cert.commonName);
    if cert.issuer in KNOWN_OID_ISSUERS then CreateIdentityFromOID(cert.oids, cert.organizationalUnits, deviceID)
    else if cert.issuer !in KNOWN_ISSUERS then Err(Unauthorized)
    else if cert.issuer == "Tesla Motors Products CA" && cert.organizationalUnits != []
            && cert.organizationalUnits[0] == "Tesla Motors SN" then Ok(("vehicle_board_device", deviceID))
    else Ok((KNOWN_ISSUERS[cert.issuer], deviceID))
  }

  /** The first extended key usage either table knows decides. */
  function CreateIdentityFromOID(oids: seq<string>, ous: seq<string>, deviceID: string)
    : Result<(string, string), IdentityError>
  {
    if oids == [] then Err(Unauthorized)
    else if oids[0] in EXCLUDED_OIDS then Err(Excluded)
    else if oids[0] in OID_MAP then
      match ClientTypeFromOU(ous)
      case Some(clientType) => Ok((clientType, deviceID))
      case None => Ok((OID_MAP[oids[0]], deviceID))
    else CreateIdentityFromOID(oids[1..], ous, deviceID)
  }

  function ClientTypeFromOU(ous: seq<string>): Option<string> {
    if ous == [] then None
    else if ous[0] in OU_MAP then Some(OU_MAP[ous[0]])
    else ClientTypeFromOU(ous[1..])
  }

  predicate Recognised(oid: string) {
    oid in EXCLUDED_OIDS || oid in OID_MAP
  }

  /** Accepted exactly if some usage is recognised and the first one that is, is not excluded. */
  lemma {:induction false} FirstRecognisedDecides(oids: seq<string>, ous: seq<string>, deviceID: string, i: nat)
    requires i <= |oids| && forall j :: 0 <= j < i ==> !Recognised(oids[j])
    requires i < |oids| ==> Recognised(oids[i])
    ensures
      var r := CreateIdentityFromOID(oids, ous, deviceID);
      && (r == Err(Unauthorized) <==> i == |oids|)
      && (r == Err(Excluded) <==> i < |oids| && oids[i] in EXCLUDED_OIDS)
      && (r.Ok? ==>
            var fromOU := ClientTypeFromOU(ous);
            r.value == (if fromOU.Some? then fromOU.value else OID_MAP[oids[i]], deviceID))
  {
    if i > 0 {
      assert forall j :: 0 <= j < i - 1 ==> oids[1..][j] == oids[j + 1];
      FirstRecognisedDecides(oids[1..], ous, deviceID, i - 1);
    }
  }

  /** Every client type of the tables. */
  const CLIENT_TYPES: set<string> :=
    {"vehicle_device", "vehicle_board_device", "energy_device", "das_device", "vehicle_service", "das_service",
     "energy_service", "robotics_device", "solar_inverter_device", "wall_connector_device"}

  lemma ClientTypesHaveNoDot()
    ensures forall c :: c in CLIENT_TYPES ==> '.' !in c
  {
  }

  lemma TablesListClientTypes()
    ensures forall k :: k in KNOWN_ISSUERS ==> KNOWN_ISSUERS[k] in CLIENT_TYPES
    ensures forall k :: k in OID_MAP ==> OID_MAP[k] in CLIENT_TYPES
    ensures forall k :: k in OU_MAP ==> OU_MAP[k] in CLIENT_TYPES
  {
  }

  lemma TableClientTypesHaveNoDot()
    ensures forall k :: k in KNOWN_ISSUERS ==> '.' !in KNOWN_ISSUERS[k]
    ensures forall k :: k in OID_MAP ==> '.' !in OID_MAP[k]
    ensures forall k :: k in OU_MAP ==> '.' !in OU_MAP[k]
    ensures '.' !in "vehicle_board_device"
  {
    ClientTypesHaveNoDot();
    TablesListClientTypes();
  }

  /** Neither half of an identity contains the separator. */
  lemma IdentityHasNoDot(cert: Cert)
    requires CreateIdentityFromCert(cert).Ok?
    ensures
      var id := CreateIdentityFromCert(cert).value;
      '.' !in id.0 && '.' !in id.1 && id.1 == ReplaceDots(cert.commonName)
  {
    TableClientTypesHaveNoDot();
    if cert.issuer in KNOWN_OID_ISSUERS {
      OidIdentityHasNoDot(cert.oids, cert.organizationalUnits, ReplaceDots(cert.commonName));
    }
  }

  /**
   * The device id is the common name, character by character, with a dash for every dot;
   * without dots it is the common name itself.
   */
  lemma DeviceIdIsCommonName(cert: Cert)
    requires CreateIdentityFromCert(cert).Ok?
    ensures
      var id := CreateIdentityFromCert(cert).value.1;
      && |id| == |cert.commonName|
      && (forall i :: 0 <= i < |id| ==> (id[i] == '-' <==> cert.commonName[i] in {'.', '-'}))
      && (forall i :: 0 <= i < |id| && cert.commonName[i] != '.' ==> id[i] == cert.commonName[i])
      && ('.' !in cert.commonName ==> id == cert.commonName)
  {
    IdentityHasNoDot(cert);
  }

  /** Vehicles whose common names have no dot never share a device id. */
  lemma DeviceIdsAreDistinct(a: Cert, b: Cert)
    requires CreateIdentityFromCert(a).Ok? && CreateIdentityFromCert(b).Ok?
    requires '.' !in a.commonName && '.' !in b.commonName
    ensures CreateIdentityFromCert(a).value.1 == CreateIdentityFromCert(b).value.1 <==> a.commonName == b.commonName
  {
    DeviceIdIsCommonName(a);
    DeviceIdIsCommonName(b);
  }

  /**
   * An issuer that does not go by usages names a vehicle, or its board if the first unit
   * says so; any other issuer is refused.
   */
  lemma IssuerDecides(cert: Cert)
    requires cert.issuer !in KNOWN_OID_ISSUERS
    ensures
      var r := CreateIdentityFromCert(cert);
      var board := cert.organizationalUnits != [] && cert.organizationalUnits[0] == "Tesla Motors SN";
      && (cert.issuer == "TeslaMotors" || cert.issuer == "Tesla Issuing CA" ==> r.Ok? && r.value.0 == "vehicle_device")
      && (cert.issuer == "Tesla Motors Products CA" ==>
            r.Ok? && r.value.0 == if board then "vehicle_board_device" else "vehicle_device")
      && (cert.issuer !in {"TeslaMotors", "Tesla Issuing CA", "Tesla Motors Products CA"} ==> r == Err(Unauthorized))
  {
  }

  /** The first organizational unit the table knows names the client type. */
  lemma {:induction false} FirstKnownUnitDecides(ous: seq<string>, i: nat)
    requires i <= |ous| && forall j :: 0 <= j < i ==> ous[j] !in {"Solar Inverter", "Gen3 Wall Connector"}
    requires i < |ous| ==> ous[i] in {"Solar Inverter", "Gen3 Wall Connector"}
    ensures ClientTypeFromOU(ous) ==
            if i == |ous| then None
            else if ous[i] == "Solar Inverter" then Some("solar_inverter_device")
            else Some("wall_connector_device")
  {
    if i > 0 {
      assert forall j :: 0 <= j < i - 1 ==> ous[1..][j] == ous[j + 1];
      FirstKnownUnitDecides(ous[1..], i - 1);
    }
  }

  lemma {:induction false} OidIdentityHasNoDot(oids: seq<string>, ous: seq<string>, deviceID: string)
    requires CreateIdentityFromOID(oids, ous, deviceID).Ok?
    ensures
      var id := CreateIdentityFromOID(oids, ous, deviceID).value;
      '.' !in id.0 && id.1 == deviceID
  {
    TableClientTypesHaveNoDot();
    OuClientTypeHasNoDot(ous);
    if !Recognised(oids[0]) { OidIdentityHasNoDot(oids[1..], ous, deviceID); }
  }

  lemma OuClientTypeHasNoDot(ous: seq<string>)
    ensures ClientTypeFromOU(ous).Some? ==> '.' !in ClientTypeFromOU(ous).value
  {
    TableClientTypesHaveNoDot();
  }

  /** The sender id of a connection splits into exactly the identity it was built from. */
  lemma SenderIdRoundTrip(cert: Cert)
    requires CreateIdentityFromCert(cert).Ok?
    ensures
      var id := CreateIdentityFromCert(cert).value;
      ParseSenderID(BuildClientID(id.0, id.1)) == id
  {
    IdentityHasNoDot(cert);
    var id := CreateIdentityFromCert(cert).value;
    ParseBuilt(id.0, id.1);
  }

  /** Splitting undoes building exactly when the client type has no dot. */
  lemma ParseBuilt(clientType: string, deviceID: string)
    ensures ParseSenderID(BuildClientID(clientType, deviceID)) == (clientType, deviceID) <==> '.' !in clientType
  {
    var s := BuildClientID(clientType, deviceID);
    if '.' !in clientType {
      assert s[..|clientType|] == clientType;
      FirstDotIs(s, |clientType|);
      assert s[|clientType| + 1..] == deviceID;
    }
  }

  /** Building undoes splitting exactly when there is a dot to split at. */
  lemma BuildParsed(senderID: string)
    ensures var parts := ParseSenderID(senderID);
            BuildClientID(parts.0, parts.1) == senderID <==> '.' in senderID
  {
    var i := FirstDot(senderID);
    if i < |senderID| {
      assert senderID == senderID[..i] + "." + senderID[i + 1..];
    } else {
      assert senderID[..i] == senderID;
    }
  }

  // ----- NATS subjects -----

  function NormalizeTopic(txType: string): string {
    if txType == "V" then "data" else txType
  }

  function BuildSubject(namespace: string, vin: string, txType: string): string {
    namespace + "." + vin + "." + NormalizeTopic(txType)
  }

  /** Two record types share a NATS topic. */
  predicate SameTopic(a: string, b: string) {
    a == b || (a in {"V", "data"} && b in {"V", "data"})
  }

  /** In one namespace a subject determines the vehicle and the topic, as vehicle ids have no dot. */
  lemma SubjectsAreDistinct(namespace: string, vin: string, a: string, vin': string, b: string)
    requires '.' !in vin && '.' !in vin'
    ensures BuildSubject(namespace, vin, a) == BuildSubject(namespace, vin', b) <==> vin == vin' && SameTopic(a, b)
  {
    var s, s' := BuildSubject(namespace, vin, a), BuildSubject(namespace, vin', b);
    var n := |namespace| + 1;
    assert s[n..] == BuildClientID(vin, NormalizeTopic(a));
    assert s'[n..] == BuildClientID(vin', NormalizeTopic(b));
    ParseBuilt(vin, NormalizeTopic(a));
    ParseBuilt(vin', NormalizeTopic(b));
  }

  /** The subject names the namespace, the vehicle and the topic, in that order. */
  lemma SubjectNamesAll(namespace: string, vin: string, txType: string)
    requires '.' !in vin
    ensures
      var subject := BuildSubject(namespace, vin, txType);
      && namespace + "." <= subject
      && ParseSenderID(subject[|namespace| + 1..]) == (vin, if txType == "V" then "data" else txType)
  {
    var topic := NormalizeTopic(txType);
    assert BuildSubject(namespace, vin, txType) == namespace + "." + BuildClientID(vin, topic);
    ParseBuilt(vin, topic);
  }

  /** With dots in vehicle ids two vehicles could share a subject. */
  lemma DottedVinsCollide(namespace: string, x: string, y: string, z: string)
    requires y + "." + z != "V" && z != "V"
    ensures BuildSubject(namespace, x, y + "." + z) == BuildSubject(namespace, x + "." + y, z)
  {
    assert namespace + "." + x + "." + (y + "." + z) == namespace + "." + (x + "." + y) + "." + z;
  }
}
