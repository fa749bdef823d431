/** Values shared by every component: notification rows and their life cycle. */
module Domain {
  datatype Option<+T> = None | Some(value: T) {
    function UnwrapOr(fallback: T): T {
      if Some? then value else fallback
    }
  }

  datatype Result<+T, +E> = Ok(value: T) | Err(error: E)

  type Id = nat

  datatype Channel = Email | Sms | Push | Webhook | WebSocket

  datatype Status = Pending | Processing | Sent | Delivered | Failed | PermanentFailure

  /** A JSON value as the service looks at it: a string, or anything else in compact form. */
  datatype Json = Text(text: string) | Other(text: string)

  type Variables = map<string, Json>

  /** One row of the `notifications` table. Times are milliseconds. */
  datatype Row = Row(
    userId: Option<Id>,
    channel: Channel,
    status: Status,
    recipient: string,
    template: string,
    variables: Variables,
    providerRef: Option<string>,
    retryCount: int,
    nextRetryAt: int,
    errorMessage: Option<string>,
    key: Option<string>,
    createdAt: int,
    updatedAt: int,
    sentAt: Option<int>,
    readAt: Option<int>)

  /** The two statuses `dispatch` still works on. */
  predicate Active(row: Row) {
    row.status == Pending || row.status == Processing
  }

  function Lookup(rows: map<Id, Row>, id: Id): Option<Row> {
    if id in rows then Some(rows[id]) else None
  }
}
