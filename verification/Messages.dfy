/** The messages that travel through the service, as far as the code looks at them. */
module Messages {
  import opened Options

  datatype Message = Message(source: string, destination: string, sessionID: string,
                             contentType: string, transactionUUID: string, payload: string)

  /** json.Marshal, which may fail on a message. */
  type Codec = Message -> Option<seq<char>>
}
