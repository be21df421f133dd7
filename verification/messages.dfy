/** Chat messages as exchanged between the lesson page, the proxy and the model gateway. */
module Messages {

  /** The role tag of a chat message; `System` only appears in what the proxy forwards. */
  datatype Role = System | User | Assistant

  datatype Message = Message(role: Role, content: string)
}
