/** The chat-completion message format (`{"role": ..., "content": ...}`) and a
    mutable message list, for the places where a list is handed to a function
    that appends to it in place. */
module Messages {

  datatype Role = System | User | Assistant

  datatype Message = Message(role: Role, content: string)

  /** A Python list of messages that is shared by reference between caller and
      callee. */
  class MessageList {
    var items: seq<Message>

    constructor (items: seq<Message>)
      ensures this.items == items
    {
      this.items := items;
    }

    /** `list.append(m)` */
    method Append(m: Message)
      modifies this
      ensures items == old(items) + [m]
    {
      items := items + [m];
    }

    /** `list[:]`: a shallow copy that later appends to either list do not share. */
    method Copy() returns (c: MessageList)
      ensures fresh(c) && c.items == items
    {
      c := new MessageList(items);
    }
  }
}
