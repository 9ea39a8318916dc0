/** The records the chat screen displays: a message's direction (`SOR`, for
    "sent or received") and the `ChatObject` that carries one message. */
module ChatModel {

  datatype Option<T> = None | Some(value: T)

  /** Whether the viewing user sent the message or received it. */
  datatype SOR = Sent | Received

  /** One chat message. `postedDate` is a point in time in whole seconds. */
  datatype ChatObject = ChatObject(
    postedDate: int,
    userName: string,
    message: string,
    sentOrReceived: SOR)

  /** Timestamps that rise strictly from each message to every later one. */
  ghost predicate StrictlyIncreasing(data: seq<ChatObject>) {
    forall i, j :: 0 <= i < j < |data| ==> data[i].postedDate < data[j].postedDate
  }

  /** Timestamps that never go down along the list. */
  ghost predicate NonDecreasing(data: seq<ChatObject>) {
    forall i, j :: 0 <= i <= j < |data| ==> data[i].postedDate <= data[j].postedDate
  }
}
