/**
 * Easy Digital Downloads' and WordPress's persistence, reduced to what the
 * plugin reads and writes: order statuses, order meta, the order-note log,
 * the cart, transaction ids, session errors, the gateway-error log and the
 * inserted orders.
 */
module Store {
  import opened Wrappers
  import opened Php
  import opened Statuses

  /** What an order note says. */
  datatype NoteBody =
    | Text(text: string)
      // "Refunded <amount> for payment #<id>." with " (gateway reference `<ref>`)" when a reference is known
    | RefundNote(amount: int, paymentId: int, reference: Option<string>)
      // "Payment #<id> pending."
    | PendingNote(paymentId: int)

  /** A note attached to an order (`edd_insert_payment_note`). */
  datatype Note = Note(orderId: int, body: NoteBody)

  /** An entry of the gateway-error log (`edd_record_gateway_error`). */
  datatype GatewayError = GatewayError(title: string, paymentId: int)

  /** The whole store as a value, to state what a method changes. */
  datatype State = State(
    statuses: map<int, OrderStatus>,
    meta: map<(int, string), Value>,
    notes: seq<Note>,
    cartEmptied: bool,
    transactionIds: map<int, string>,
    errors: Entries,
    gatewayErrors: seq<GatewayError>,
    orders: map<int, Entries>,
    nextId: int)

  /** `get_post_meta( $id, $key, true )`: the empty string when nothing is stored. */
  function MetaOf(meta: map<(int, string), Value>, id: int, key: string): Value {
    if (id, key) in meta then meta[(id, key)] else Str("")
  }

  /** `edd_get_payment_transaction_id( $id )`: None when the order has none. */
  function TransactionIdOf(transactionIds: map<int, string>, id: int): Option<string> {
    if id in transactionIds then Some(transactionIds[id]) else None
  }

  class Store {
    var statuses: map<int, OrderStatus>    // `edd_get_payment_status` / `edd_update_payment_status`
    var meta: map<(int, string), Value>    // order meta / post meta, by order id and meta key
    var notes: seq<Note>                   // append-only note log
    var cartEmptied: bool                  // `edd_empty_cart` was called
    var transactionIds: map<int, string>   // `edd_set_payment_transaction_id`
    var errors: Entries                    // checkout errors set by `edd_set_error`
    var gatewayErrors: seq<GatewayError>   // `edd_record_gateway_error`
    var orders: map<int, Entries>          // payment data recorded by `edd_insert_payment`
    var nextId: int                        // the id the next inserted order receives

    /** Every recorded order has a positive id below the next one. */
    ghost predicate Valid()
      reads this
    {
      0 < nextId && forall id :: id in orders ==> 0 < id < nextId
    }

    ghost function Snapshot(): State
      reads this
    {
      State(statuses, meta, notes, cartEmptied, transactionIds, errors, gatewayErrors, orders, nextId)
    }

    constructor ()
      ensures Valid()
      ensures Snapshot() == State(map[], map[], [], false, map[], [], [], map[], 1)
    {
      statuses, meta, notes, cartEmptied := map[], map[], [], false;
      transactionIds, errors, gatewayErrors, orders, nextId := map[], [], [], map[], 1;
    }

    /** `edd_get_payment_status( $id )`: None where EDD answers false. */
    function Status(id: int): Option<OrderStatus>
      reads this
    {
      if id in statuses then Some(statuses[id]) else None
    }

    function Meta(id: int, key: string): Value
      reads this
    {
      MetaOf(meta, id, key)
    }

    function TransactionId(id: int): Option<string>
      reads this
    {
      TransactionIdOf(transactionIds, id)
    }

    method UpdateStatus(id: int, status: OrderStatus)
      modifies this
      ensures Snapshot() == old(Snapshot()).(statuses := old(statuses)[id := status])
    {
      statuses := statuses[id := status];
    }

    method InsertNote(id: int, body: NoteBody)
      modifies this
      ensures Snapshot() == old(Snapshot()).(notes := old(notes) + [Note(id, body)])
    {
      notes := notes + [Note(id, body)];
    }

    method EmptyCart()
      modifies this
      ensures Snapshot() == old(Snapshot()).(cartEmptied := true)
    {
      cartEmptied := true;
    }

    method UpdateMeta(id: int, key: string, v: Value)
      modifies this
      ensures Snapshot() == old(Snapshot()).(meta := old(meta)[(id, key) := v])
    {
      meta := meta[(id, key) := v];
    }

    method SetTransactionId(id: int, transactionId: string)
      modifies this
      ensures Snapshot() == old(Snapshot()).(transactionIds := old(transactionIds)[id := transactionId])
    {
      transactionIds := transactionIds[id := transactionId];
    }

    /** `edd_set_error( $key, $message )`. */
    method SetError(key: string, message: string)
      modifies this
      ensures Snapshot() == old(Snapshot()).(errors := Put(old(errors), StrKey(key), Str(message)))
    {
      errors := Put(errors, StrKey(key), Str(message));
    }

    method RecordGatewayError(title: string, paymentId: int)
      modifies this
      ensures Snapshot() == old(Snapshot()).(gatewayErrors := old(gatewayErrors) + [GatewayError(title, paymentId)])
    {
      gatewayErrors := gatewayErrors + [GatewayError(title, paymentId)];
    }

    /**
     * `edd_insert_payment( $data )`: a new order with the given status, or 0
     * when the database refuses the insert (`accepted` is false).
     */
    method InsertPayment(data: Entries, status: OrderStatus, accepted: bool) returns (id: int)
      requires Valid()
      modifies this
      ensures Valid()
      ensures !accepted ==> id == 0 && Snapshot() == old(Snapshot())
      ensures accepted ==> id == old(nextId) && 0 < id && id !in old(orders) && Snapshot() == old(Snapshot()).(
        orders := old(orders)[id := data],
        statuses := old(statuses)[id := status],
        nextId := old(nextId) + 1)
    {
      if !accepted {
        return 0;
      }
      id := nextId;
      orders := orders[id := data];
      statuses := statuses[id := status];
      nextId := nextId + 1;
    }
  }
}
