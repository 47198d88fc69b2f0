/** Types shared by the records the server sends to both UI components. */
module Records {

  /** A database id as sent over the wire (the JSON field `_id`, compared with `===`). */
  type ObjectId = string
}
