/** The database outcomes the services tell apart. */
module Storage {
  datatype DbError =
    | RecordNotFound        // gorm.ErrRecordNotFound
    | DuplicateKey          // a primary-key or unique-index violation
    | ForeignKeyViolation   // a row referring to a missing parent
    | Unavailable           // any other database failure
}
