/** The notification a handler raises through the `toast` helper of the sonner
    library, reduced to its kind and its text. */
module Toasts {
  datatype Toast = NoToast | ErrorToast(text: string) | SuccessToast(text: string)
}
