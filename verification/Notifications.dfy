/** Push notifications for completed charges. */
module Notifications {
  import opened Results
  import opened Packages
  import opened TransactionTables

  datatype Push = Push(status: string, userRef: string, transactionId: nat, coinName: string, coinValue: string)

  datatype PushError = InvalidEventType | NoTagFound | PostFailed

  /** Nothing can be built for a message without a user. */
  function ChargeCompletePayload(status: string, item: SqsMessage): Option<Push> {
    if item.userRef == "" then None
    else Some(Push(status, item.userRef, item.transactionId, item.tokenSymbol, item.packageCoins))
  }

  function BuildNotificationPayload(status: string, data: SqsMessage): Result<Option<Push>, PushError> {
    if status != SUCCESSFUL && status != FAILED then Err(InvalidEventType)
    else Ok(ChargeCompletePayload(status, data))
  }

  /** Building the payload and refusing a null one. */
  function PreparePush(status: string, data: SqsMessage): Result<Push, PushError> {
    var built := BuildNotificationPayload(status, data);
    if built.Err? then Err(built.error)
    else if built.value.None? then Err(NoTagFound)
    else Ok(built.value.value)
  }
}
