/** A desktop notification, as an event the core emits: the endpoint or
    dependency name it is about, the icon that marks its severity, and the
    message text. Showing it is outside the model. */
module Notify {

  datatype Notification = Notification(name: string, icon: string, message: string)

  const ErrorIcon: string := "dialog-error"
  const InfoIcon: string := "dialog-information"
}
