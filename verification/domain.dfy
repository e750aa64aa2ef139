/**
 * Entities shared by the use cases: the per-request identity, chats, members,
 * messages and audit entries.
 */
module Domain {
  import opened Wrappers

  /** JavaScript truthiness of an optional string: both `undefined` and `""` are falsy. */
  predicate Truthy(s: Option<string>) {
    s.Some? && s.value != ""
  }

  /** The per-request identity; `userId` is absent for tenant-level API keys. */
  datatype AuthContext = AuthContext(tenantId: string, userId: Option<string>, roles: seq<string>)

  datatype Visibility = Public | Private

  /** The role a message is created with ('user' or 'assistant'). */
  datatype AuthorRole = UserAuthor | AssistantAuthor

  /** Who may read a message, as computed by the visibility builders. */
  datatype AccessScope = AccessScope(users: seq<string>, roles: seq<string>)

  /** A stored message; `id` is assigned by the message store. */
  datatype Message = Message(
    id: nat,
    chatId: nat,
    authorId: string,
    content: string,
    visibility: Visibility,
    accessScope: AccessScope,
    role: AuthorRole,
    parentId: Option<nat>,
    modelUsed: Option<string>)

  datatype ChatRole = Owner | Admin | Member | Guest

  /** A value of a free-form settings record. */
  datatype Value = Bool(b: bool) | Text(s: string) | Number(n: int) | Null | Undefined

  type Settings = map<string, Value>

  /** A member's capability bag, as returned by the default-permission table. */
  type Permissions = map<string, bool>

  datatype Chat = Chat(
    id: nat,
    tenantId: string,
    ownerId: string,
    title: string,
    systemPrompt: Option<string>,
    settings: Settings)

  datatype ChatMember = ChatMember(id: nat, chatId: nat, userId: string, role: ChatRole, permissions: Permissions)

  datatype AuditAction = MessageCreate | AssistantResponse | ChatCreate

  /** The action names written to the audit log. */
  function ActionName(a: AuditAction): string {
    match a
    case MessageCreate => "message.create"
    case AssistantResponse => "message.assistant_response"
    case ChatCreate => "chat.create"
  }

  /** Each audit action is logged under its own name. */
  lemma ActionNamesDistinct(a: AuditAction, b: AuditAction)
    requires ActionName(a) == ActionName(b)
    ensures a == b
  {
  }

  datatype ResourceType = MessageResource | ChatResource

  datatype AuditDetails =
    | MessageDetails(chatId: nat, visibility: Visibility, length: nat)
    | ResponseDetails(chatId: nat, userMessageId: nat, modelUsed: string, ragUsed: Option<bool>, ragResultsCount: nat)
    | ChatDetails(title: string)

  /** One append-only audit record (the timestamp is assigned by the audit store and not modelled). */
  datatype AuditEntry = AuditEntry(
    tenantId: string,
    userId: string,
    action: AuditAction,
    resource: nat,
    resourceType: ResourceType,
    details: AuditDetails)
}
