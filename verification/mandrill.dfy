/**
 * The records of the external email-service client library that the test
 * double reads and writes. Only the fields the double looks at are named;
 * every other field of the library's struct is folded into one opaque
 * `rest` value, so that two records with the same key can still differ.
 */
module Mandrill {

  /** One recipient of a message; the double reads only the address. */
  datatype Recipient = Recipient(email: string, rest: string)

  /** An outgoing message: its ordered recipient list and everything else. */
  datatype Message = Message(to: seq<Recipient>, rest: string)

  /** A stored template, filed under its key. */
  datatype Template = Template(key: string, rest: string)

  /** A stored subaccount, filed under its id. */
  datatype Subaccount = Subaccount(id: string, rest: string)

  /**
   * The per-recipient acknowledgement. The double fills in only the
   * address; every other field keeps the library's zero value, so the
   * address is all there is to model.
   */
  datatype MessagesResponse = MessagesResponse(email: string)
}
