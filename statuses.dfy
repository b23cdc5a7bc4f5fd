/** The two status vocabularies the plugin translates between. */
module Statuses {

  /**
   * Easy Digital Downloads order statuses: the ORDER_STATUS_* constants of
   * the EasyDigitalDownloads helper class plus `partially_refunded`.
   */
  datatype OrderStatus =
    | Pending
    | Publish
    | Refunded
    | Failed
    | Abandoned
    | Revoked
    | PartiallyRefunded
  {
    /** The status string EDD stores. */
    function Name(): string {
      match this
      case Pending => "pending"
      case Publish => "publish"
      case Refunded => "refunded"
      case Failed => "failed"
      case Abandoned => "abandoned"
      case Revoked => "revoked"
      case PartiallyRefunded => "partially_refunded"
    }
  }

  /** Different statuses are stored as different strings. */
  lemma NameInjective(a: OrderStatus, b: OrderStatus)
    requires a.Name() == b.Name()
    ensures a == b
  {
  }

  /** Pronamic payment statuses; every other status string is `Other`. */
  datatype PaymentStatus =
    | Open
    | Success
    | Failure
    | Cancelled
    | Expired
    | Other(name: string)
}
