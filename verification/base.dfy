/** Small value types shared by the modules of this model. */
module Base {

  /** An optional value: JavaScript's `null`/`undefined` versus a present value. */
  datatype Option<+T> = None | Some(value: T)

  /** The verdict of a form validator: go on, or stop with the text shown to the user. */
  datatype Check = Pass | Fail(message: string)

  /**
   * What pressing a form's submit button leads to: nothing while the button is disabled,
   * an alert when the form's check fails, or the context call with what it reported.
   */
  datatype Press<+N> = Ignored | Refused(alert: string) | Submitted(notice: N)
}
