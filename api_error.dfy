/** The error envelope (main/services/api-error.service.js). */
module ApiErrorService {
  import opened Resources
  import opened Http

  /** `returnError`: the catalogue entry's status becomes the response status,
      and the body holds that status and the entry's message, nothing else. */
  function ReturnError(errorObject: ErrorObject): (r: Response)
    ensures r.httpStatus == errorObject.status
    ensures r.body.ErrorBody?
    ensures r.body.status == errorObject.status && r.body.message == errorObject.message
  {
    Response(errorObject.status, ErrorBody(errorObject.status, errorObject.message))
  }

  /** A response is an error envelope when its body is `{status, message}`
      and its HTTP status is the body's status. */
  predicate IsErrorEnvelope(r: Response) {
    r.body.ErrorBody? && r.body.status == r.httpStatus
  }

  /** The responses `returnError` can send are exactly the error
      envelopes. */
  lemma ReturnErrorSendsEnvelopes(r: Response)
    ensures IsErrorEnvelope(r) <==> exists o :: ReturnError(o) == r
  {
    if IsErrorEnvelope(r) {
      assert ReturnError(ErrorObject(r.httpStatus, r.body.message, map[])) == r;
    }
  }

  /** The fields of a catalogue entry other than `status` and `message` never
      reach the response. */
  lemma ReturnErrorDropsOtherFields(errorObject: ErrorObject, otherFields: map<string, string>)
    ensures ReturnError(errorObject) == ReturnError(errorObject.(otherFields := otherFields))
  {
  }
}
