/** The data shapes the core passes around: the user record of
    lib/types/auth.ts and the chat shapes of lib/types/chat.ts. Optional
    fields are `Option`s; fields the core never reads are left out. */
module Types {
  import opened Js

  /** `User` of lib/types/auth.ts. `role` is one of 'user', 'admin',
      'superadmin' in the type, but values arrive from the server and from
      cookies as plain strings, so it is kept a string. */
  datatype User = User(
    id: string,
    name: Option<string>,
    email: string,
    mobile: Option<string>,
    aadhaarNumber: Option<string>,
    role: string,
    isVerified: bool,
    isActive: bool,
    isDeleted: bool,
    picture: Option<string>,
    provider: Option<string>)

  /** `ChatUser`: the sender or recipient carried inside a message. */
  datatype ChatUser = ChatUser(id: string, name: Option<string>, email: string, picture: Option<string>)

  /** `ChatMessage`: `tempId` is present on optimistic copies and on server
      echoes of them. */
  datatype ChatMessage = ChatMessage(
    id: string,
    tempId: Option<string>,
    sender: ChatUser,
    recipient: ChatUser,
    content: string,
    createdAt: string)

  /** `OnlineUser`: one entry of the presence list. */
  datatype OnlineUser = OnlineUser(userId: string, userName: string, userEmail: string)

  /** The sender/recipient view of a user that ChatWindow builds for its
      optimistic message. */
  function AsChatUser(u: User): ChatUser {
    ChatUser(u.id, u.name, u.email, u.picture)
  }
}
