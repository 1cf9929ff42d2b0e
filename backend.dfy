/** What a call to the hosted datastore can come back with. The datastore
    itself is not part of this model: each call becomes a parameter that
    says how it ended. */
module Backend {
  import opened Wrappers

  /** An insert that returns the new row's id, or fails with an optional
      error message. */
  datatype InsertResult = Inserted(id: string) | InsertFailed(message: Option<string>)

  /** An update or a delete. */
  datatype WriteResult = Written | WriteFailed(message: Option<string>)

  /** `error?.message ?? fallback` */
  function ErrorText(message: Option<string>, fallback: string): string {
    message.GetOr(fallback)
  }
}
