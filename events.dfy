/**
 * Change notifications of the observable collections (the collections under Core/Collections and
 * Core/Models/TransactionMessage.cs): every change is published as a message holding the
 * action, the previous and the next value.
 */
module Events {
  import opened Wrappers

  /** ActionEnum. */
  datatype Action = Create | Update | Delete | Clear

  /** TransactionMessage: `previous` and `next` are null unless the publisher sets them. */
  datatype Message<V> = Message(action: Action, previous: Option<V>, next: Option<V>)

  /**
   * One publication, on the item stream or on the collection stream of a collection.
   * The two streams of one collection are kept in a single log so that their relative
   * order is visible. A collection message carries the contents as they were when it
   * was published.
   */
  datatype Emission<I, C> = OnItem(item: Message<I>) | OnCollection(collection: Message<C>)
}
