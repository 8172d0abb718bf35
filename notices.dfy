/** The snackbar messages the knowledge-base tabs enqueue (notistack). */
module Notices {

  datatype Variant = Success | Info | Warning | Error

  datatype Notice = Notice(message: string, variant: Variant)
}
