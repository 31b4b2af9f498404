/** The part of the host's order record that the gateway reads and changes:
    its status, its transaction id, its metadata and its notes. The host's
    operations (`update_status`, `payment_complete`, `add_order_note`,
    `update_meta_data`) are modelled as plain updates of that state. */
module Orders {
  import opened Wrappers
  import opened Php

  /** Paid stands for whatever paid status the host's `payment_complete` picks. */
  datatype OrderStatus = Pending | Paid | Failed | Other(name: string)

  datatype OrderState = OrderState(
    status: OrderStatus,
    transactionId: string,
    meta: map<string, string>,
    notes: seq<string>)

  /** The metadata key under which the processor's payment id is kept. */
  const PaymentIdKey := "_grateful_payment_id"

  /** `get_meta(key)`: the stored text, or "" when there is none. */
  function MetaOf(s: OrderState, key: string): string {
    if key in s.meta then s.meta[key] else ""
  }

  /** `update_status(status, note)`. */
  function WithStatus(s: OrderState, status: OrderStatus, note: string): OrderState {
    s.(status := status, notes := s.notes + [note])
  }

  /** `payment_complete(txn)`: paid, recording the transaction id when it is truthy. */
  function PaymentCompleted(s: OrderState, txn: string): OrderState {
    s.(status := Paid, transactionId := if TruthyText(txn) then txn else s.transactionId)
  }

  /** `add_order_note(note)`. */
  function WithNote(s: OrderState, note: string): OrderState {
    s.(notes := s.notes + [note])
  }

  /** `update_meta_data(key, value)`. */
  function WithMeta(s: OrderState, key: string, value: string): OrderState {
    s.(meta := s.meta[key := value])
  }

  class Order {
    const total: real
    var status: OrderStatus
    var transactionId: string
    var meta: map<string, string>
    var notes: seq<string>

    constructor (total: real, s: OrderState)
      ensures this.total == total && State() == s
    {
      this.total := total;
      status, transactionId, meta, notes := s.status, s.transactionId, s.meta, s.notes;
    }

    function State(): OrderState
      reads this
    {
      OrderState(status, transactionId, meta, notes)
    }

    /** `get_meta(key)`: the stored text, or "" for a key never set, so an
        order never handed to the processor reads as having no payment id. */
    function GetMeta(key: string): (r: string)
      reads this
      ensures key in meta ==> r == meta[key]
      ensures key !in meta ==> r == "" && !TruthyText(r)
    {
      MetaOf(State(), key)
    }

    method UpdateStatus(newStatus: OrderStatus, note: string)
      modifies this
      ensures State() == WithStatus(old(State()), newStatus, note)
    {
      status := newStatus;
      notes := notes + [note];
    }

    method PaymentComplete(txn: string)
      modifies this
      ensures State() == PaymentCompleted(old(State()), txn)
    {
      status := Paid;
      if TruthyText(txn) {
        transactionId := txn;
      }
    }

    method AddOrderNote(note: string)
      modifies this
      ensures State() == WithNote(old(State()), note)
    {
      notes := notes + [note];
    }

    method UpdateMetaData(key: string, value: string)
      modifies this
      ensures State() == WithMeta(old(State()), key, value)
    {
      meta := meta[key := value];
    }
  }

  /** `wc_get_order(id)` seen as a state: the order's state, or none. */
  function StateOf(store: map<int, Order>, id: int): Option<OrderState>
    reads store.Values
  {
    if id in store then Some(store[id].State()) else None
  }
}
