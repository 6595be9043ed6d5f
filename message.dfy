/** What the global notification service shows: a kind, a title and an optional description. */
module Message {

  import opened Wrappers

  datatype Kind = SuccessKind | InfoKind | WarningKind | ErrorKind

  datatype Notification = Notification(kind: Kind, title: string, description: Option<string>)

  function Success(title: string): Notification
  {
    Notification(SuccessKind, title, None)
  }

  function Warning(title: string): Notification
  {
    Notification(WarningKind, title, None)
  }

  function Error(title: string): Notification
  {
    Notification(ErrorKind, title, None)
  }

  function ErrorWith(title: string, description: string): Notification
  {
    Notification(ErrorKind, title, Some(description))
  }
}
