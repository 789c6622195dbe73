/**
 * The message boxes the windows show (`QMessageBox.warning`, `.critical`,
 * `.information`), recorded as values in the order they appear.
 */
module Messages {
  datatype Notice =
    | Warning(title: string, text: string)
    | Critical(title: string, text: string)
    | Information(title: string, text: string)
}
