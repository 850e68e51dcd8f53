/** The session's value object DeepSeekSession.Message: a role tag and a text. */
module Messages {
  import opened Wrappers
  import opened JavaText

  /** The three roles the session ever writes into a history. */
  datatype Role = System | User | Assistant

  datatype Message = Message(role: Role, content: string)

  /** The Message constructor: a null content is stored as "". */
  function NewMessage(role: Role, content: Option<string>): Message {
    Message(role, OrEmpty(content))
  }

  /** The role's name on the wire. */
  function RoleName(role: Role): string {
    match role
    case System => "system"
    case User => "user"
    case Assistant => "assistant"
  }

  /** Reads a role name back; any other text names no role. */
  function ParseRole(name: string): Option<Role> {
    if name == "system" then Some(System)
    else if name == "user" then Some(User)
    else if name == "assistant" then Some(Assistant)
    else None
  }

  /** Role names are read back as the role they name, and only role names are. */
  lemma ParseRoleInvertsRoleName(role: Role, name: string)
    ensures ParseRole(RoleName(role)) == Some(role)
    ensures ParseRole(name) == Some(role) ==> name == RoleName(role)
  {
  }
}
