/** The notification store of matcher.py: `save_notification` appends one
    unread record to notifications.json. */
module Notifications {
  import opened Models

  datatype Notification = Notification(userId: string, message: string, read: bool, timestamp: Timestamp)

  /** The notifications collection; records are only ever appended. */
  class NotificationStore {
    var notifications: seq<Notification>

    constructor ()
      ensures notifications == []
    {
      notifications := [];
    }

    /** save_notification: append exactly one unread record for `userId`,
        stamped `now`, leaving the records already stored untouched. */
    method SaveNotification(userId: string, message: string, now: Timestamp)
      modifies this
      ensures notifications == old(notifications) + [Notification(userId, message, false, now)]
    {
      notifications := notifications + [Notification(userId, message, false, now)];
    }
  }
}
