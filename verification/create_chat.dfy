/**
 * The chat-creation use case: an authenticated user whom the policy engine
 * allows to create chats gets a new chat (default settings overlaid with the
 * caller's), becomes its owner member, and the creation is audited.
 *
 * The policy engine and the default-permission table are the fields of
 * `ChatPorts`; the chat repository and the audit log are the fields of the
 * class `CreateChat`.
 */
module CreateChatUseCase {
  import opened Wrappers
  import opened Domain

  datatype CreateChatInput = CreateChatInput(title: string, systemPrompt: Option<string>, settings: Option<Settings>)

  datatype CreateChatOutput = CreateChatOutput(chat: Chat, membershipId: nat)

  datatype CreateChatError = Unauthenticated | CreateForbidden

  /** The message each failure is raised with. */
  function Describe(e: CreateChatError): string {
    match e
    case Unauthenticated =>
      "User must be authenticated to create a chat. " +
      "You are using a TENANT API key which does not have user context. " +
      "Please use a USER API key instead."
    case CreateForbidden => "User does not have permission to create chats"
  }

  /** Collaborators whose answers are inputs of the model. */
  datatype ChatPorts = ChatPorts(
    isAllowed: (AuthContext, string, string) -> bool,
    defaultPermissions: ChatRole -> Permissions)

  const AllowMultiUser := "allowMultiUser"
  const AllowPrivateMessages := "allowPrivateMessages"
  const DefaultVisibility := "defaultVisibility"

  /** The settings every new chat starts from. */
  function DefaultSettings(): Settings {
    map[AllowMultiUser := Bool(true), AllowPrivateMessages := Bool(true), DefaultVisibility := Text("public")]
  }

  /**
   * The defaults overlaid with the caller's settings, as an object spread does:
   * every key the caller supplies wins (even one set to `undefined`), every
   * other default is kept, and an absent settings object adds nothing.
   */
  function MergeSettings(overrides: Option<Settings>): (r: Settings)
    ensures overrides.None? ==> r == DefaultSettings()
    ensures overrides.Some? ==> r.Keys == DefaultSettings().Keys + overrides.value.Keys
    ensures overrides.Some? ==> forall k :: k in overrides.value ==> r[k] == overrides.value[k]
    ensures forall k :: k in DefaultSettings() && (overrides.None? || k !in overrides.value) ==>
      k in r && r[k] == DefaultSettings()[k]
  {
    if overrides.None? then DefaultSettings() else DefaultSettings() + overrides.value
  }

  /** The failure `Execute` raises, if any; `None` when the chat may be created. */
  function Authorize(ctx: AuthContext, ports: ChatPorts): (r: Option<CreateChatError>)
    ensures r == Some(Unauthenticated) <==> !Truthy(ctx.userId)
    ensures r == Some(CreateForbidden) <==> Truthy(ctx.userId) && !ports.isAllowed(ctx, "chat", "create")
    ensures r.None? <==> Truthy(ctx.userId) && ports.isAllowed(ctx, "chat", "create")
  {
    if !Truthy(ctx.userId) then Some(Unauthenticated)
    else if !ports.isAllowed(ctx, "chat", "create") then Some(CreateForbidden)
    else None
  }

  /** The chat stored under id `id`. */
  function ChatAt(ctx: AuthContext, input: CreateChatInput, id: nat): Chat
    requires Truthy(ctx.userId)
  {
    Chat(id, ctx.tenantId, ctx.userId.value, input.title, input.systemPrompt, MergeSettings(input.settings))
  }

  /** The owner membership stored under id `id` for chat `chatId`. */
  function OwnerMemberAt(ctx: AuthContext, ports: ChatPorts, id: nat, chatId: nat): ChatMember
    requires Truthy(ctx.userId)
  {
    ChatMember(id, chatId, ctx.userId.value, Owner, ports.defaultPermissions(Owner))
  }

  function ChatCreateEntry(ctx: AuthContext, chat: Chat): AuditEntry
    requires Truthy(ctx.userId)
  {
    AuditEntry(ctx.tenantId, ctx.userId.value, ChatCreate, chat.id, ChatResource, ChatDetails(chat.title))
  }

  /** Member `j` is an owner membership of chat `i` held by the chat's owner. */
  predicate OwnedBy(chats: seq<Chat>, members: seq<ChatMember>, i: nat, j: nat)
    requires i < |chats| && j < |members|
  {
    members[j].chatId == i && members[j].role == Owner && members[j].userId == chats[i].ownerId
  }

  /** Chat `i` has an owner membership held by its owner. */
  ghost predicate HasOwner(chats: seq<Chat>, members: seq<ChatMember>, i: nat)
    requires i < |chats|
  {
    exists j :: 0 <= j < |members| && OwnedBy(chats, members, i, j)
  }

  class CreateChat {
    /** The chat store; the store assigns each chat its position as id. */
    var chats: seq<Chat>
    /** The membership store; ids are positions as well. */
    var members: seq<ChatMember>
    /** The audit log (append-only). */
    var auditLog: seq<AuditEntry>

    /**
     * Ids are positions, every membership refers to a stored chat, and every
     * stored chat has its owner as an owner member.
     */
    ghost predicate Valid()
      reads this
    {
      (forall i :: 0 <= i < |chats| ==> chats[i].id == i) &&
      (forall j :: 0 <= j < |members| ==> members[j].id == j && members[j].chatId < |chats|) &&
      (forall i :: 0 <= i < |chats| ==> HasOwner(chats, members, i))
    }

    constructor ()
      ensures Valid()
      ensures chats == [] && members == [] && auditLog == []
    {
      chats := [];
      members := [];
      auditLog := [];
    }

    /** The repository's createChat: assigns the next id and appends. */
    method StoreChat(tenantId: string, ownerId: string, title: string, systemPrompt: Option<string>,
                     settings: Settings)
      returns (chat: Chat)
      modifies this`chats
      ensures chat == Chat(old(|chats|), tenantId, ownerId, title, systemPrompt, settings)
      ensures chats == old(chats) + [chat]
    {
      chat := Chat(|chats|, tenantId, ownerId, title, systemPrompt, settings);
      chats := chats + [chat];
    }

    /** The repository's addMember: assigns the next id and appends. */
    method AddMember(chatId: nat, userId: string, role: ChatRole, permissions: Permissions)
      returns (member: ChatMember)
      modifies this`members
      ensures member == ChatMember(old(|members|), chatId, userId, role, permissions)
      ensures members == old(members) + [member]
    {
      member := ChatMember(|members|, chatId, userId, role, permissions);
      members := members + [member];
    }

    method AppendAudit(e: AuditEntry)
      modifies this`auditLog
      ensures auditLog == old(auditLog) + [e]
    {
      auditLog := auditLog + [e];
    }

    /**
     * Creates a chat. On either failure nothing is stored or audited; on
     * success the chat, its owner membership and one audit entry are appended,
     * and the new chat is returned with the membership id.
     */
    method Execute(ctx: AuthContext, input: CreateChatInput, ports: ChatPorts)
      returns (r: Result<CreateChatOutput, CreateChatError>)
      requires Valid()
      modifies this
      ensures Valid()
      ensures Authorize(ctx, ports).Some? ==>
        r == Failure(Authorize(ctx, ports).value) &&
        chats == old(chats) && members == old(members) && auditLog == old(auditLog)
      ensures Authorize(ctx, ports).None? ==>
        var chat := ChatAt(ctx, input, old(|chats|));
        r == Success(CreateChatOutput(chat, old(|members|))) &&
        chats == old(chats) + [chat] &&
        members == old(members) + [OwnerMemberAt(ctx, ports, old(|members|), chat.id)] &&
        auditLog == old(auditLog) + [ChatCreateEntry(ctx, chat)]
    {
      if !Truthy(ctx.userId) {
        return Failure(Unauthenticated);
      }
      if !ports.isAllowed(ctx, "chat", "create") {
        return Failure(CreateForbidden);
      }
      var userId := ctx.userId.value;
      var chat := StoreChat(ctx.tenantId, userId, input.title, input.systemPrompt, MergeSettings(input.settings));
      var member := AddMember(chat.id, userId, Owner, ports.defaultPermissions(Owner));
      AppendAudit(ChatCreateEntry(ctx, chat));
      assert OwnedBy(chats, members, chat.id, member.id);
      forall i | 0 <= i < |chats| - 1
        ensures HasOwner(chats, members, i)
      {
        assert HasOwner(old(chats), old(members), i);
        var j :| 0 <= j < |old(members)| && OwnedBy(old(chats), old(members), i, j);
        assert OwnedBy(chats, members, i, j);
      }
      r := Success(CreateChatOutput(chat, member.id));
    }
  }

  /** Without caller settings a chat allows several users and private messages, and defaults to public. */
  lemma DefaultSettingsWithoutOverrides(input: CreateChatInput)
    requires input.settings.None? || input.settings == Some(map[])
    ensures MergeSettings(input.settings)[AllowMultiUser] == Bool(true)
    ensures MergeSettings(input.settings)[AllowPrivateMessages] == Bool(true)
    ensures MergeSettings(input.settings)[DefaultVisibility] == Text("public")
    ensures |MergeSettings(input.settings).Keys| == 3
  {
  }
}
