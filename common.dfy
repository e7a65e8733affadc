/** Values shared by the portal's components: optional values (JavaScript's
    null/undefined), settled promises, and the notification log that the
    `toast` side channel appends to. */
module Common {

  /** A value that may be absent (`null` or `undefined` in JavaScript). */
  datatype Option<+T> = None | Some(value: T)

  /** A schema validation issue: the field it is reported on and its message. */
  datatype Issue = Issue(path: string, message: string)

  /** The issue a rule reports: none when the rule holds, else `issue`. */
  function Check(ok: bool, issue: Issue): seq<Issue> {
    if ok then [] else [issue]
  }

  /** The way a promise settles: with a value or with a rejection reason. */
  datatype Settled<+T, +E> = Fulfilled(value: T) | Rejected(reason: E)

  datatype ToastKind = SuccessToast | ErrorToast

  /** One notification shown by `toast.success` or `toast.error`. */
  datatype Toast = Toast(kind: ToastKind, message: string)

  /** The notification side channel: every call appends one toast to `log`. */
  class Toaster {
    var log: seq<Toast>

    constructor ()
      ensures log == []
    {
      log := [];
    }

    /** `toast.error(message)` */
    method Error(message: string)
      modifies this
      ensures log == old(log) + [Toast(ErrorToast, message)]
    {
      log := log + [Toast(ErrorToast, message)];
    }

    /** `toast.success(message)` */
    method Success(message: string)
      modifies this
      ensures log == old(log) + [Toast(SuccessToast, message)]
    {
      log := log + [Toast(SuccessToast, message)];
    }
  }
}
