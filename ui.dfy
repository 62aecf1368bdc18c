/** What the screens show through `Alert.alert(title, message)`. */
module Ui {
  datatype Alert = Alert(title: string, message: string)
}
