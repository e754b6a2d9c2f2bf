/**
 * The payment confirmation page: the `status` query parameter decides between the
 * success view and the failure view.
 */
module PaymentConfirmation {
  import opened Wrappers

  /** `searchParams.get('status') || 'success'`: a missing or empty parameter reads as "success". */
  function ReadStatus(param: Option<string>): (status: string)
    ensures param.None? || param.value == "" ==> status == "success"
    ensures param.Some? && param.value != "" ==> status == param.value
  {
    if param.Some? && param.value != "" then param.value else "success"
  }

  /** `isSuccess`. */
  predicate IsSuccess(param: Option<string>)
  {
    ReadStatus(param) == "success"
  }

  /** The success view shows exactly when the parameter is missing, empty or "success". */
  lemma SuccessIff(param: Option<string>)
    ensures IsSuccess(param) <==> param.None? || param.value == "" || param.value == "success"
  {
  }
}
