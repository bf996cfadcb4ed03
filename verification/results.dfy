/** NotificationResult: a success flag plus an optional error message. The
    constructor is private, so the only values are those of the two
    factories; a datatype with one constructor per factory makes that
    structural. */
module Results {
  import opened Wrappers

  datatype NotificationResult = Succeeded | Failed(error: Option<string>) {

    function IsSuccess(): bool {
      Succeeded?
    }

    function ErrorMessage(): Option<string> {
      if Succeeded? then None else error
    }
  }

  /** `NotificationResult.success()` */
  function Success(): (r: NotificationResult)
    ensures r.IsSuccess() && r.ErrorMessage() == None
  {
    Succeeded
  }

  /** `NotificationResult.failure(error)`; Java allows a null error here. */
  function Failure(error: Option<string>): (r: NotificationResult)
    ensures !r.IsSuccess() && r.ErrorMessage() == error
  {
    Failed(error)
  }

  /** The getters return what the factory fixed: a result is rebuilt exactly
      from its two getters, so two results with equal getters are equal. */
  lemma GettersDetermineResult(r: NotificationResult, r': NotificationResult)
    ensures r == (if r.IsSuccess() then Success() else Failure(r.ErrorMessage()))
    ensures r.IsSuccess() == r'.IsSuccess() && r.ErrorMessage() == r'.ErrorMessage() ==> r == r'
  {
  }
}
