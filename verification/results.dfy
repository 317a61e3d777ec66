/** Small value types shared by the ledger model: optional values, request
    fields that may be left out, and the outcome of a repository or route call. */
module Results {

  /** A nullable column or an optional payload field. */
  datatype Option<T> = None | Some(value: T)

  /** A request-body field that the client either left out (so the schema's
      default applies) or supplied, possibly as an explicit null. */
  datatype Supplied<T> = Omitted | Given(value: T)

  /** The value a schema field takes: the supplied one, else the default. */
  function OrDefault<T>(f: Supplied<T>, default: T): T
  {
    match f
    case Omitted => default
    case Given(v) => v
  }

  /** Why a request was refused.
      EmailTaken: the register handler's own pre-check;
      ConstraintViolation: the store refused the commit (unique, foreign key,
      column width or numeric precision);
      InvalidKeyword: the mapped class refused a constructor keyword. */
  datatype Reason = EmailTaken | ConstraintViolation | InvalidKeyword

  /** Result of a repository or route call: the row, "not found", or a refusal. */
  datatype Outcome<T> = Ok(value: T) | NotFound | Rejected(reason: Reason)
}
