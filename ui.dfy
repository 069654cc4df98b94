/** What a screen shows the user besides its own state: `Alert.alert` calls and navigation. */
module Ui {
  /** One `Alert.alert(title, message)`. */
  datatype Alert = Alert(title: string, message: string)

  /** `router.back()` and `router.push(path)`. */
  datatype Navigation = Back | Push(path: string)
}
