/** `execute` of `agent/charter_requests.py`: one request from authorization to receipt. */
module CharterExecutor {
  import opened Basics
  import G = ResponseGuard
  import R = Receipt
  import RS = RequestStore

  datatype Result<T> = Ok(value: T) | Err(error: Error)

  datatype Error =
    | PolicyRefused | ApiKeyRequired | RecoveryRequired
    | NotPrepared(outcome: RS.PrepareOutcome)
    | NotDispatched(dispatch: RS.DispatchOutcome)
    | MintFailed | OutcomeUnknown | InvalidTransportResponse | ResponseExceedsCap
    | InvalidTransportStatus | ResponseOutsidePolicy

  /** What comes back from the target, if anything: an exception, an object of the wrong type, or an
      observation whose status may fail to be an integer. */
  datatype Response =
    | Raised
    | WrongType
    | Observation(status: Option<int>, body: G.Body, media: Option<G.Reason>)

  /** Everything outside the store that one execution meets. */
  datatype World = World(specValid: bool, apiKey: bool, verified: bool, now: real, mintOk: bool, response: Response,
                   receipt: Digest)

  /** `validate_spec` refuses an empty request id. */
  predicate WorldOk(w: World, spec: RS.RequestSpec) {
    && (w.specValid ==> spec.requestId.text != "")
    && (w.response.Observation? && w.response.media.Some? ==> R.MediaReason(w.response.media.value))
  }

  // ---------------------------------------------------------------- the effect of one execution

  /** The committed store, the calls made, and the refusal if there was one. */
  datatype Ending = Ending(db: RS.Db, mints: nat, requests: nat, error: Option<Error>)

  function Executed(db: RS.Db, spec: RS.RequestSpec, approval: RS.Approval, w: World): Ending {
    if !w.specValid then Ending(db, 0, 0, Some(PolicyRefused))
    else if !w.apiKey then Ending(db, 0, 0, Some(ApiKeyRequired))
    else if RS.InState(db, spec.requestId, RS.Observed) then Ending(db, 0, 0, Some(RecoveryRequired))
    else
      var (prepared, outcome) := RS.Authorized(db, spec, approval, w.verified, w.now);
      if outcome != RS.Reserved then Ending(prepared, 0, 0, Some(NotPrepared(outcome))) else
      var (dispatched, dispatch) := RS.DispatchedUnlessRevoked(prepared, spec.requestId);
      if dispatch != RS.DispatchCommitted then Ending(dispatched, 0, 0, Some(NotDispatched(dispatch))) else
      Called(dispatched, spec, w)
  }

  /** Without a token the request ends before any target contact. */
  function Called(db: RS.Db, spec: RS.RequestSpec, w: World): Ending {
    if !w.mintOk then Ending(RS.Moved(db, spec.requestId, RS.Terminal), 1, 0, Some(MintFailed))
    else Answered(db, spec, w)
  }

  /** After the token is minted the target is called once, whatever it answers. */
  function Answered(db: RS.Db, spec: RS.RequestSpec, w: World): Ending {
    var unknown := RS.Moved(db, spec.requestId, RS.Unknown);
    match w.response
    case Raised => Ending(unknown, 1, 1, Some(OutcomeUnknown))
    case WrongType => Ending(unknown, 1, 1, Some(InvalidTransportResponse))
    case Observation(status, body, _) =>
      if G.SizeOf(body) > G.RESPONSE_CAP then Ending(unknown, 1, 1, Some(ResponseExceedsCap)) else
      var settled := RS.TerminalizedFrom(db, spec.requestId, w.receipt, RS.Dispatched);
      if settled.None? then Ending(db, 1, 1, Some(NotDispatched(RS.IllegalTransition))) else
      Ending(settled.value, 1, 1,
             if status.None? then Some(InvalidTransportStatus)
             else if !R.StatusMatchesPolicy(spec.verb, status.value) then Some(ResponseOutsidePolicy) else None)
  }

  /** The target is called only for a fresh request id with a new approval nonce that no revocation
      precedes, and then the request is settled: unknown, or terminal with its receipt. */
  lemma CallSettles(db: RS.Db, spec: RS.RequestSpec, approval: RS.Approval, w: World)
    ensures var e := Executed(db, spec, approval, w);
            && e.requests <= e.mints <= 1
            && (e.mints == 1 ==> spec.requestId !in db.requests && spec.requestId !in db.revocations
                                 && approval.nonce !in db.decisions && approval.decision == RS.Approve)
            && (e.mints == 1 ==> approval.nonce in e.db.decisions && spec.requestId in e.db.requests)
            && (e.mints == 1 ==> RS.InState(e.db, spec.requestId, RS.Unknown)
                                 || RS.InState(e.db, spec.requestId, RS.Terminal))
            && (e.error.None? ==> e.requests == 1 && RS.InState(e.db, spec.requestId, RS.Terminal)
                                  && e.db.requests[spec.requestId].receipt == Some(w.receipt))
            && (e.requests == 1 && RS.InState(e.db, spec.requestId, RS.Terminal) <==>
                  e.requests == 1 && w.response.Observation? && G.SizeOf(w.response.body) <= G.RESPONSE_CAP)
  {
  }

  /** An answer of the right type within the cap arrived. */
  predicate Capped(w: World) {
    w.response.Observation? && G.SizeOf(w.response.body) <= G.RESPONSE_CAP
  }

  /** When exactly a token is minted and the target called, and how the row tells what happened:
      unknown for a call without a capped answer, terminal with the receipt for one with it, terminal
      without a receipt when nothing was sent. */
  lemma CalledExactly(db: RS.Db, spec: RS.RequestSpec, approval: RS.Approval, w: World)
    ensures var e := Executed(db, spec, approval, w); var id := spec.requestId;
            && (e.mints == 1 <==> w.specValid && w.apiKey && RS.Reservable(db, spec, approval, w.verified, w.now))
            && (e.requests == 1 <==> e.mints == 1 && w.mintOk)
            && (e.mints == 0 ==> e.db.requests == db.requests)
            && (e.mints == 1 ==>
                  && id in e.db.requests
                  && (RS.InState(e.db, id, RS.Unknown) <==> e.requests == 1 && !Capped(w))
                  && (RS.InState(e.db, id, RS.Terminal) <==> e.requests == 0 || Capped(w))
                  && e.db.requests[id].receipt == if e.requests == 1 && Capped(w) then Some(w.receipt) else None)
  {
    RS.ReservedExactly(db, spec, approval, w.verified, w.now);
    hide RS.Recent, RS.PostTaken;
  }

  /** Each error says truthfully why there is no result, and there is a result exactly for a capped
      answer with a status the policy allows: 2xx for a GET, 4xx for a POST. */
  lemma ErrorsExactly(db: RS.Db, spec: RS.RequestSpec, approval: RS.Approval, w: World)
    ensures var e := Executed(db, spec, approval, w);
            var outcome := RS.Authorized(db, spec, approval, w.verified, w.now).1;
            var asked := w.specValid && w.apiKey && !RS.InState(db, spec.requestId, RS.Observed);
            var status := if w.response.Observation? then w.response.status else None;
            var (low, high) := if spec.verb == RS.GET then (200, 300) else (400, 500);
            var ok := status.Some? && low <= status.value < high;
            && (e.error == Some(PolicyRefused) <==> !w.specValid)
            && (e.error == Some(ApiKeyRequired) <==> w.specValid && !w.apiKey)
            && (e.error == Some(RecoveryRequired) <==>
                  w.specValid && w.apiKey && RS.InState(db, spec.requestId, RS.Observed))
            && (forall o :: e.error == Some(NotPrepared(o)) <==> asked && o == outcome && o != RS.Reserved)
            && (forall o :: e.error != Some(NotDispatched(o)))
            && (e.error == Some(MintFailed) <==> e.mints == 1 && e.requests == 0)
            && (e.error == Some(OutcomeUnknown) <==> e.requests == 1 && w.response.Raised?)
            && (e.error == Some(InvalidTransportResponse) <==> e.requests == 1 && w.response.WrongType?)
            && (e.error == Some(ResponseExceedsCap) <==> e.requests == 1 && w.response.Observation? && !Capped(w))
            && (e.error == Some(InvalidTransportStatus) <==> e.requests == 1 && Capped(w) && status.None?)
            && (e.error == Some(ResponseOutsidePolicy) <==> e.requests == 1 && Capped(w) && status.Some? && !ok)
            && (e.error.None? <==> e.requests == 1 && Capped(w) && ok)
  {
    RS.ReservedExactly(db, spec, approval, w.verified, w.now);
    RS.RevocationsExactly(db, spec, approval, w.verified, w.now);
    hide RS.Recent, RS.PostTaken, RS.Authorized;
  }

  /** Executing the same request again, with whatever approval, calls nothing. */
  lemma NeverTwice(db: RS.Db, spec: RS.RequestSpec, approval: RS.Approval, w: World, approval': RS.Approval, w': World)
    requires Executed(db, spec, approval, w).mints == 1
    ensures Executed(Executed(db, spec, approval, w).db, spec, approval', w').mints == 0
  {
    CallSettles(db, spec, approval, w);
    CallSettles(Executed(db, spec, approval, w).db, spec, approval', w');
  }

  // ---------------------------------------------------------------- the method

  /** The transport counts its calls and answers as the world decides. */
  class Transport {
    var mints: nat
    var requests: nat

    constructor ()
      ensures mints == 0 && requests == 0
    {
      mints, requests := 0, 0;
    }

    method Mint(w: World) returns (ok: bool)
      modifies this
      ensures mints == old(mints) + 1 && requests == old(requests) && ok == w.mintOk
    {
      mints, ok := mints + 1, w.mintOk;
    }

    method Request(w: World) returns (response: Response)
      modifies this
      ensures requests == old(requests) + 1 && mints == old(mints) && response == w.response
    {
      requests, response := requests + 1, w.response;
    }
  }

  /** The fields every result has, from the immutable request, the response and the stored receipt. */
  function Common(spec: RS.RequestSpec, status: int, body: G.Body, receipt: Digest): R.Dict {
    map[R.RequestId := R.Text(spec.requestId.text), R.Status := R.Number(status),
        R.Bytes := R.Number(G.SizeOf(body)), R.ReceiptDigest := R.Hex(receipt)]
  }

  /** The caller's contract accepts the result unchanged; beside the common fields it holds the legacy
      POST flag, or for a GET the guard's verdict on the body. */
  ghost predicate Acceptable(value: R.Dict, spec: RS.RequestSpec, w: World, d: G.Detectors)
    requires G.DetectorsOk(d)
  {
    && R.ValidateAdapterResult(value, spec) == Some(value)
    && w.response.Observation? && w.response.status.Some?
    && var common := Common(spec, w.response.status.value, w.response.body, w.receipt);
       match spec.verb
       case POST => value == common[R.PostExpected4xx := R.Flag(true)]
       case GET => exists p :: G.Verdict(d, w.response.body, w.response.media, p)
                               && value == common[R.SchemaVersion := R.V2] + R.PreviewFields(p)
  }

  /** An acceptable result tells the truth about this very response: its request, status, size and
      stored receipt; a POST's is marked as such, and a GET's shows the body or the exact counts. */
  lemma AcceptableMeans(value: R.Dict, spec: RS.RequestSpec, w: World, d: G.Detectors)
    requires G.DetectorsOk(d) && Acceptable(value, spec, w, d)
    ensures {R.RequestId, R.Status, R.Bytes, R.ReceiptDigest} <= value.Keys
    ensures w.response.Observation? && w.response.status.Some?
    ensures value[R.RequestId] == R.Text(spec.requestId.text)
    ensures value[R.Status] == R.Number(w.response.status.value)
    ensures value[R.Bytes] == R.Number(G.SizeOf(w.response.body))
    ensures value[R.ReceiptDigest] == R.Hex(w.receipt)
    ensures spec.verb == RS.POST ==> R.PostExpected4xx in value && R.PreviewText !in value && R.Quarantine !in value
    ensures spec.verb == RS.GET ==>
              (R.PreviewText in value <==>
                 w.response.media.None? && w.response.body.Utf8? && G.Clean(d, w.response.body.text))
    ensures spec.verb == RS.GET && R.PreviewText in value ==>
              && value[R.PreviewText].Text? && w.response.body.Utf8?
              && value[R.PreviewText].text <= w.response.body.text
  {
    hide G.DetectorsOk, G.Clean, G.Tally, G.Tallied, G.PreviewFits, R.ValidateAdapterResult;
    if spec.verb == RS.GET {
      var p :| G.Verdict(d, w.response.body, w.response.media, p)
               && value == Common(spec, w.response.status.value, w.response.body, w.receipt)[R.SchemaVersion := R.V2]
                           + R.PreviewFields(p);
      G.AcceptedExactly(d, w.response.body, w.response.media, p);
    }
  }

  /** `execute`.  Every result it returns is one its caller's contract accepts unchanged. */
  method Execute(spec: RS.RequestSpec, approval: RS.Approval, w: World, d: G.Detectors, store: RS.Store,
                 transport: Transport)
    returns (result: Result<R.Dict>)
    requires WorldOk(w, spec) && G.DetectorsOk(d)
    modifies store, transport
    ensures var e := Executed(old(store.Snapshot()), spec, approval, w);
            && store.Snapshot() == e.db
            && transport.mints == old(transport.mints) + e.mints
            && transport.requests == old(transport.requests) + e.requests
            && (match e.error case Some(error) => result == Err(error) case None => result.Ok?)
    ensures result.Ok? ==> Acceptable(result.value, spec, w, d)
  {
    hide RS.Authorized, RS.DispatchedUnlessRevoked, G.DetectorsOk, Acceptable, Called;
    if !w.specValid {
      return Err(PolicyRefused);
    }
    if !w.apiKey {
      return Err(ApiKeyRequired);
    }
    if spec.requestId in store.requests && store.requests[spec.requestId].state == RS.Observed {
      return Err(RecoveryRequired);
    }
    var prepared := store.AuthorizePrepare(spec, approval, w.verified, w.now);
    if prepared != RS.Reserved {
      return Err(NotPrepared(prepared));
    }
    var dispatched := store.DispatchIfNotRevoked(spec.requestId);
    if dispatched != RS.DispatchCommitted {
      return Err(NotDispatched(dispatched));
    }
    DispatchedRow(old(store.Snapshot()), spec, approval, w);
    result := CallTarget(spec, w, d, store, transport);
  }

  /** The part of `execute` after the linearization point. */
  method CallTarget(spec: RS.RequestSpec, w: World, d: G.Detectors, store: RS.Store, transport: Transport)
    returns (result: Result<R.Dict>)
    requires WorldOk(w, spec) && w.specValid && G.DetectorsOk(d)
    requires RS.InState(store.Snapshot(), spec.requestId, RS.Dispatched)
    modifies store, transport
    ensures var e := Called(old(store.Snapshot()), spec, w);
            && store.Snapshot() == e.db
            && transport.mints == old(transport.mints) + e.mints
            && transport.requests == old(transport.requests) + e.requests
            && (match e.error case Some(error) => result == Err(error) case None => result.Ok?)
    ensures result.Ok? ==> Acceptable(result.value, spec, w, d)
  {
    hide G.DetectorsOk, Acceptable;
    var minted := transport.Mint(w);
    if !minted {
      var settled := store.Transition(spec.requestId, RS.Terminal);
      return Err(MintFailed);
    }
    var response := transport.Request(w);
    if !response.Observation? {
      var settled := store.Transition(spec.requestId, RS.Unknown);
      return Err(if response.Raised? then OutcomeUnknown else InvalidTransportResponse);
    }
    if G.SizeOf(response.body) > G.RESPONSE_CAP {
      var settled := store.Transition(spec.requestId, RS.Unknown);
      return Err(ResponseExceedsCap);
    }
    var settled := store.TerminalizeFrom(spec.requestId, w.receipt, RS.Dispatched);
    if !settled {
      return Err(NotDispatched(RS.IllegalTransition));
    }
    if response.status.None? {
      return Err(InvalidTransportStatus);
    }
    if !R.StatusMatchesPolicy(spec.verb, response.status.value) {
      return Err(ResponseOutsidePolicy);
    }
    var value := Describe(spec, w, d, response);
    return Ok(value);
  }

  /** After a committed dispatch the row may be settled either way. */
  lemma DispatchedRow(db: RS.Db, spec: RS.RequestSpec, approval: RS.Approval, w: World)
    requires RS.Authorized(db, spec, approval, w.verified, w.now).1 == RS.Reserved
    requires RS.DispatchedUnlessRevoked(RS.Authorized(db, spec, approval, w.verified, w.now).0, spec.requestId).1
             == RS.DispatchCommitted
    ensures var after := RS.DispatchedUnlessRevoked(RS.Authorized(db, spec, approval, w.verified, w.now).0,
                                                    spec.requestId).0;
            RS.InState(after, spec.requestId, RS.Dispatched)
  {
  }

  /** The result of a response within policy: the legacy POST object or a v2 receipt candidate. */
  method Describe(spec: RS.RequestSpec, w: World, d: G.Detectors, response: Response) returns (value: R.Dict)
    requires WorldOk(w, spec) && w.specValid && G.DetectorsOk(d)
    requires response == w.response && response.Observation? && response.status.Some?
    requires G.SizeOf(response.body) <= G.RESPONSE_CAP && R.StatusMatchesPolicy(spec.verb, response.status.value)
    ensures Acceptable(value, spec, w, d)
  {
    hide G.DetectorsOk, G.Verdict;
    var common := Common(spec, response.status.value, response.body, w.receipt);
    if spec.verb == RS.POST {
      value := common[R.PostExpected4xx := R.Flag(true)];
      return;
    }
    var guarded := G.GuardResponsePreview(d, response.body, response.media);
    R.GuardReceivable(d, response.body, response.media, guarded);
    value := common[R.SchemaVersion := R.V2] + R.PreviewFields(guarded);
    ReceivableIsAccepted(spec, common, guarded);
  }

  lemma ReceivableIsAccepted(spec: RS.RequestSpec, common: R.Dict, guarded: G.Preview)
    requires common.Keys == {R.RequestId, R.Status, R.Bytes, R.ReceiptDigest} && spec.verb == RS.GET
    requires R.CommonOk(common, common.Keys, spec) && R.PreviewReceivable(guarded)
    ensures var value := common[R.SchemaVersion := R.V2] + R.PreviewFields(guarded);
            R.ValidateAdapterResult(value, spec) == Some(value)
  {
    hide G.PreviewFits, R.ValidateAdapterResult, R.ValidateV2, R.CommonOk;
    match guarded
    case Accepted(preview, truncated) => TextIsAccepted(spec, common, preview, truncated);
    case Quarantined(reasons) => CountsAreAccepted(spec, common, reasons);
  }

  lemma TextIsAccepted(spec: RS.RequestSpec, common: R.Dict, preview: string, truncated: bool)
    requires common.Keys == {R.RequestId, R.Status, R.Bytes, R.ReceiptDigest} && spec.verb == RS.GET
    requires R.CommonOk(common, common.Keys, spec) && G.PreviewFits(preview)
    ensures var value := common[R.SchemaVersion := R.V2] + R.PreviewFields(G.Accepted(preview, truncated));
            R.ValidateAdapterResult(value, spec) == Some(value)
  {
    hide G.PreviewFits;
    var value := common[R.SchemaVersion := R.V2] + R.PreviewFields(G.Accepted(preview, truncated));
    assert value.Keys == R.V2_ACCEPTED_FIELDS;
    R.AcceptedUnchanged(value, spec);
  }

  lemma CountsAreAccepted(spec: RS.RequestSpec, common: R.Dict, reasons: map<G.Reason, nat>)
    requires common.Keys == {R.RequestId, R.Status, R.Bytes, R.ReceiptDigest} && spec.verb == RS.GET
    requires R.CommonOk(common, common.Keys, spec) && R.PreviewReceivable(G.Quarantined(reasons))
    ensures var value := common[R.SchemaVersion := R.V2] + R.PreviewFields(G.Quarantined(reasons));
            R.ValidateAdapterResult(value, spec) == Some(value)
  {
    var value := common[R.SchemaVersion := R.V2] + R.PreviewFields(G.Quarantined(reasons));
    assert value.Keys == R.V2_QUARANTINE_FIELDS;
    var r :| r in reasons;
    assert r in value[R.Quarantine].counts;
    R.AcceptedUnchanged(value, spec);
  }
}
