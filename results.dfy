/** Outcomes of operations that can fail, and the failures the database layer raises. */
module Results {

  datatype Result<+T, +E> = Ok(value: T) | Err(error: E)

  /** The exceptions the ORM and its validators raise for the operations modelled here. */
  datatype DbError =
    | ValidationError   // a field validator rejected a value
    | DoesNotExist      // a looked-up row is absent
    | IntegrityError    // a unique or foreign-key constraint was violated
    | ProtectedError    // a delete was refused by an on_delete=PROTECT reference
}
