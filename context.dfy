/** A context groups the tasks of one program that are meant to run together. */
module Context {

  /** The program or job group (`token_id`) and the user who submitted it. */
  datatype QPUExecutionContext = QPUExecutionContext(tokenId: string, userId: string)
}
