/** The receipt contract of `agent/charter_receipt.py`: which JSON objects the executor's caller
    accepts for an immutable request. */
module Receipt {
  import opened Basics
  import G = ResponseGuard
  import RS = RequestStore

  datatype Field =
    | SchemaVersion | RequestId | Status | Bytes | ReceiptDigest | PostExpected4xx
    | PreviewText | PreviewTruncated | Quarantine | OtherField(name: string)

  /** JSON values; `Hex` is a string of 64 hexadecimal digits. */
  datatype Json =
    | Text(text: string) | Number(n: int) | Flag(b: bool) | Hex(digest: Digest)
    | Counts(counts: map<G.Reason, int>) | OtherJson

  type Dict = map<Field, Json>

  const V1 := Text("sentinel-charter-receipt/v1")
  const V2 := Text("sentinel-charter-receipt/v2")

  const RESULT_FIELDS := {RequestId, Status, Bytes, ReceiptDigest, PostExpected4xx}
  const V1_FIELDS := {SchemaVersion, RequestId, Status, Bytes, ReceiptDigest}
  const V2_ACCEPTED_FIELDS := V1_FIELDS + {PreviewText, PreviewTruncated}
  const V2_QUARANTINE_FIELDS := V1_FIELDS + {Quarantine}

  predicate StatusMatchesPolicy(verb: RS.Verb, status: int) {
    (verb == RS.GET && 200 <= status < 300) || (verb == RS.POST && 400 <= status < 500)
  }

  /** `_validate_common`. */
  predicate CommonOk(value: Dict, fields: set<Field>, spec: RS.RequestSpec)
    requires {RequestId, Status, Bytes, ReceiptDigest} <= fields
  {
    && spec.requestId.text != "" && value.Keys == fields
    && value[RequestId] == Text(spec.requestId.text)
    && value[Status].Number? && value[Bytes].Number? && 0 <= value[Bytes].n <= G.RESPONSE_CAP
    && value[ReceiptDigest].Hex?
    && StatusMatchesPolicy(spec.verb, value[Status].n)
  }

  predicate QuarantineOk(value: Json) {
    && value.Counts? && value.counts != map[]
    && forall r :: r in value.counts ==> !r.OtherReason? && 1 <= value.counts[r] <= 65536
  }

  function Common(value: Dict): Dict
    requires {RequestId, Status, Bytes, ReceiptDigest} <= value.Keys
  {
    map[RequestId := value[RequestId], Status := value[Status], Bytes := value[Bytes],
        ReceiptDigest := value[ReceiptDigest]]
  }

  function ValidateV2(value: Dict, spec: RS.RequestSpec): Option<Dict> {
    if value.Keys == V2_ACCEPTED_FIELDS then
      if CommonOk(value, V2_ACCEPTED_FIELDS, spec) && spec.verb == RS.GET
         && value[PreviewText].Text? && G.PreviewFits(value[PreviewText].text) && value[PreviewTruncated].Flag? then
        Some(Common(value)[SchemaVersion := V2][PreviewText := value[PreviewText]]
                          [PreviewTruncated := value[PreviewTruncated]])
      else None
    else if value.Keys == V2_QUARANTINE_FIELDS then
      if CommonOk(value, V2_QUARANTINE_FIELDS, spec) && spec.verb == RS.GET && QuarantineOk(value[Quarantine]) then
        Some(Common(value)[SchemaVersion := V2][Quarantine := value[Quarantine]])
      else None
    else None
  }

  predicate IsV2(value: Dict) {
    SchemaVersion in value && value[SchemaVersion] == V2
  }

  /** `validate_adapter_result`: a GET v2 receipt or the legacy POST result, rebuilt field by field. */
  function ValidateAdapterResult(value: Dict, spec: RS.RequestSpec): Option<Dict> {
    if IsV2(value) then ValidateV2(value, spec)
    else if CommonOk(value, RESULT_FIELDS, spec) && spec.verb == RS.POST && value[PostExpected4xx] == Flag(true) then
      Some(Common(value)[PostExpected4xx := Flag(spec.verb == RS.POST)])
    else None
  }

  /** `validate_receipt`: a v1 receipt of either method or a GET v2 receipt. */
  function ValidateReceipt(value: Dict, spec: RS.RequestSpec): Option<Dict> {
    if IsV2(value) then ValidateV2(value, spec)
    else if CommonOk(value, V1_FIELDS, spec) && value[SchemaVersion] == V1 then
      Some(Common(value)[SchemaVersion := V1])
    else None
  }

  /** Validation never alters what it accepts, so validating twice is validating once. */
  lemma AcceptedUnchanged(value: Dict, spec: RS.RequestSpec)
    ensures ValidateAdapterResult(value, spec).Some? ==> ValidateAdapterResult(value, spec).value == value
    ensures ValidateReceipt(value, spec).Some? ==> ValidateReceipt(value, spec).value == value
  {
    assert {RequestId, Status, Bytes, ReceiptDigest} + {SchemaVersion} == V1_FIELDS;
  }

  /** Whatever either validator accepts names the request, has a status its method allows and a size
      within the cap; a v2 object is a GET's and shows either a fitting preview or positive counts,
      never both; any other result is a POST's. */
  lemma AcceptedMeans(value: Dict, spec: RS.RequestSpec)
    requires ValidateAdapterResult(value, spec).Some? || ValidateReceipt(value, spec).Some?
    ensures {RequestId, Status, Bytes, ReceiptDigest} <= value.Keys && spec.requestId.text != ""
    ensures value[RequestId] == Text(spec.requestId.text) && value[ReceiptDigest].Hex?
    ensures value[Bytes].Number? && 0 <= value[Bytes].n <= 65536
    ensures value[Status].Number? &&
            if spec.verb == RS.GET then 200 <= value[Status].n < 300 else 400 <= value[Status].n < 500
    ensures IsV2(value) ==>
              && spec.verb == RS.GET && (PreviewText in value <==> Quarantine !in value)
              && (PreviewText in value ==> value[PreviewText].Text? && G.PreviewFits(value[PreviewText].text)
                                           && PreviewTruncated in value && value[PreviewTruncated].Flag?)
              && (Quarantine in value ==> value[Quarantine].Counts? && value[Quarantine].counts != map[]
                                          && forall r :: r in value[Quarantine].counts ==>
                                               value[Quarantine].counts[r] >= 1)
    ensures !IsV2(value) && ValidateAdapterResult(value, spec).Some? ==>
              spec.verb == RS.POST && PostExpected4xx in value && value[PostExpected4xx] == Flag(true)
  {
  }

  /** The executor's result and the stored receipt agree on exactly the GET v2 receipts. */
  lemma BothAcceptExactlyV2(value: Dict, spec: RS.RequestSpec)
    ensures ValidateAdapterResult(value, spec).Some? && ValidateReceipt(value, spec).Some?
       <==> IsV2(value) && ValidateV2(value, spec).Some?
    ensures ValidateV2(value, spec).Some? ==> spec.verb == RS.GET
  {
    assert PostExpected4xx in RESULT_FIELDS && PostExpected4xx !in V1_FIELDS;
  }

  /** A guarded preview as receipt fields. */
  function PreviewFields(p: G.Preview): Dict {
    match p
    case Accepted(preview, truncated) => map[PreviewText := Text(preview), PreviewTruncated := Flag(truncated)]
    case Quarantined(reasons) => map[Quarantine := Counts(map r | r in reasons :: reasons[r])]
  }

  /** Every decision the guard makes about a capped body fits the receipt. */
  ghost predicate PreviewReceivable(p: G.Preview) {
    match p
    case Accepted(preview, _) => G.PreviewFits(preview)
    case Quarantined(reasons) => reasons != map[] && forall r :: r in reasons ==>
      !r.OtherReason? && 1 <= reasons[r] <= 65536
  }

  predicate MediaReason(r: G.Reason) {
    r.MediaMissing? || r.MediaDuplicate? || r.MediaMalformed? || r.MediaUnsupported?
  }

  lemma GuardReceivable(d: G.Detectors, body: G.Body, media: Option<G.Reason>, p: G.Preview)
    requires G.DetectorsOk(d) && G.SizeOf(body) <= G.RESPONSE_CAP && (media.Some? ==> MediaReason(media.value))
    requires G.Verdict(d, body, media, p)
    ensures PreviewReceivable(p)
  {
    hide G.DetectorsOk, G.PreviewFits, G.Redact;
    if media.Some? {
      assert media.value in p.reasons;
    } else if body.Malformed? {
      assert G.DecodeInvalidUtf8 in p.reasons;
    }
    if media.None? && body.Utf8? && p.Quarantined? {
      G.SizeGrows(body.text, 0, |body.text|);
      var r :| G.Tally(d, body.text, r) > 0;
      assert r in p.reasons;
      forall r | r in p.reasons ensures !r.OtherReason? && 1 <= p.reasons[r] <= 65536 {
        G.TallyBounded(d, body.text, r);
      }
    }
  }
}
