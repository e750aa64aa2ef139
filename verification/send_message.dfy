/**
 * The message-send orchestrator: authorisation, persisting the user message,
 * optional policy-gated retrieval, model selection, budget admission, the
 * (placeholder) assistant reply, usage accounting and auditing.
 *
 * Collaborators whose logic lives elsewhere (chat permissions, the policy
 * engine, the visibility builders, the retrieval query builder, the chat
 * repository, the retrieval port, the model router and the budget port's
 * lookups) are the fields of `Ports`: their answers are inputs of the model.
 * The stores the use case writes to (messages, audit log, budget usage) are
 * the fields of the class `SendMessage`, together with a trace of every call
 * made to an I/O port.
 */
module SendMessageUseCase {
  import opened Wrappers
  import opened Domain
  import opened Rag

  type BudgetId = string

  /** Tokens charged to each budget per completed exchange. */
  const TokenCharge := 100

  /** Prefix of the placeholder assistant reply. */
  const ReplyPrefix := "Response to: "

  /** The identity that authors assistant replies. */
  const SystemAuthor := "system"

  datatype VisibleTo = VisibleTo(users: Option<seq<string>>, roles: Option<seq<string>>)

  datatype SendMessageInput = SendMessageInput(
    chatId: nat,
    content: string,
    visibility: Option<Visibility>,
    visibleTo: Option<VisibleTo>,
    parentId: Option<nat>,
    useRag: Option<bool>,
    model: Option<string>)

  datatype SendMessageOutput = SendMessageOutput(
    userMessage: Message,
    assistantMessage: Message,
    ragResults: seq<RagResult>)

  /** One constructor per distinct failure the use case raises. */
  datatype SendError =
    | Unauthenticated
    | ChatNotFound
    | SendForbidden
    | PrivateSendForbidden
    | PrivateDeniedByPolicy
    | ModelNotAllowed(model: string)
    | NoSuitableModel
    | TenantBudgetExceeded
    | UserBudgetExceeded

  /** The text around the model id in a model rejection's message. */
  const ModelRejectionPrefix := "Model "
  const ModelRejectionSuffix := " is not allowed by policy"

  /** The message each failure is raised with. */
  function Describe(e: SendError): string {
    match e
    case Unauthenticated => "User must be authenticated"
    case ChatNotFound => "Chat not found"
    case SendForbidden => "User does not have permission to send messages"
    case PrivateSendForbidden => "User does not have permission to send private messages"
    case PrivateDeniedByPolicy => "Private messages are not allowed by policy"
    case ModelNotAllowed(m) => ModelRejectionPrefix + m + ModelRejectionSuffix
    case NoSuitableModel => "No suitable model found"
    case TenantBudgetExceeded => "Tenant token budget exceeded"
    case UserBudgetExceeded => "User token budget exceeded"
  }

  /**
   * The shape of a model rejection's message, read from its end: at least as
   * long as prefix and suffix together, ending in the suffix's last character,
   * with the suffix's leading space where the suffix starts.
   */
  predicate ShapedLikeModelRejection(m: string) {
    |m| >= |ModelRejectionPrefix| + |ModelRejectionSuffix| &&
    m[|m| - 1] == ModelRejectionSuffix[|ModelRejectionSuffix| - 1] &&
    m[|m| - |ModelRejectionSuffix|] == ModelRejectionSuffix[0]
  }

  /** No fixed message has the shape of a model rejection's message. */
  lemma FixedMessagesDoNotNameAModel(e: SendError)
    requires !e.ModelNotAllowed?
    ensures !ShapedLikeModelRejection(Describe(e))
  {
  }

  /** The message a failure is raised with identifies it, down to the rejected model. */
  lemma {:induction false} DescribeDistinguishes(a: SendError, b: SendError)
    requires Describe(a) == Describe(b)
    ensures a == b
  {
    if a.ModelNotAllowed? && b.ModelNotAllowed? {
      var m := Describe(a);
      assert a.model == m[|ModelRejectionPrefix|..|m| - |ModelRejectionSuffix|];
      assert b.model == m[|ModelRejectionPrefix|..|m| - |ModelRejectionSuffix|];
    } else if a.ModelNotAllowed? || b.ModelNotAllowed? {
      var model := if a.ModelNotAllowed? then a else b;
      var other := if a.ModelNotAllowed? then b else a;
      assert ShapedLikeModelRejection(Describe(model));
      FixedMessagesDoNotNameAModel(other);
    }
  }

  datatype ModelRequest = ModelRequest(toolCall: bool, preferFree: bool)

  datatype Model = Model(id: string)

  /** The request the router is asked to satisfy when no model is pinned. */
  const DefaultModelRequest := ModelRequest(true, true)

  /** The answers of the collaborators, as functions of what they are asked. */
  datatype Ports = Ports(
    findChatById: nat -> Option<Chat>,
    listMembers: nat -> seq<ChatMember>,
    canSendMessages: (Chat, seq<ChatMember>, AuthContext) -> bool,
    canSendPrivateMessages: (Chat, seq<ChatMember>, AuthContext) -> bool,
    isAllowed: (AuthContext, string, string) -> bool,
    publicScope: (nat, string, string, AuthContext, AuthorRole) -> AccessScope,
    privateScope: (nat, string, string, AuthContext, VisibleTo, AuthorRole) -> AccessScope,
    fromMessageScope: (string, AccessScope) -> RagQuery,
    search: (string, RagQuery) -> seq<RagResult>,
    selectModel: (AuthContext, ModelRequest) -> Option<Model>,
    isModelAllowed: (AuthContext, string) -> bool,
    findTenantBudget: (string, string) -> Option<BudgetId>,
    findUserBudget: (string, string) -> Option<BudgetId>,
    isExceeded: BudgetId -> bool)

  /** A call to an I/O port, in the order the use case makes them. */
  datatype PortCall =
    | FindChatById(chatId: nat)
    | ListMembers(chatId: nat)
    | CreateMessage(messageId: nat)
    | AuditLog(action: AuditAction)
    | Search(tenantId: string)
    | SelectModel
    | IsModelAllowed(model: string)
    | FindTenantBudget(tenantId: string)
    | FindUserBudget(userId: string)
    | IsExceeded(budget: BudgetId)
    | IncrementUsage(budget: BudgetId, amount: int)

  // ---------------------------------------------------------------------------
  // Steps 1-2: authentication and authorisation
  // ---------------------------------------------------------------------------

  predicate IsPrivate(input: SendMessageInput) {
    input.visibility == Some(Private)
  }

  function ChatOf(input: SendMessageInput, ports: Ports): Option<Chat> {
    ports.findChatById(input.chatId)
  }

  predicate MemberMaySend(ctx: AuthContext, input: SendMessageInput, ports: Ports) {
    ChatOf(input, ports).Some? &&
    ports.canSendMessages(ChatOf(input, ports).value, ports.listMembers(input.chatId), ctx)
  }

  predicate MemberMaySendPrivate(ctx: AuthContext, input: SendMessageInput, ports: Ports) {
    ChatOf(input, ports).Some? &&
    ports.canSendPrivateMessages(ChatOf(input, ports).value, ports.listMembers(input.chatId), ctx)
  }

  predicate PolicyAllowsPrivate(ctx: AuthContext, ports: Ports) {
    ports.isAllowed(ctx, "chat", "sendPrivateMessage")
  }

  /** The outcome of the checks that precede any write: None when the send may go ahead. */
  function Authorize(ctx: AuthContext, input: SendMessageInput, ports: Ports): (r: Option<SendError>)
    ensures r == Some(Unauthenticated) <==> !Truthy(ctx.userId)
    ensures r == Some(ChatNotFound) <==> Truthy(ctx.userId) && ChatOf(input, ports).None?
    ensures r == Some(SendForbidden) <==>
      Truthy(ctx.userId) && ChatOf(input, ports).Some? && !MemberMaySend(ctx, input, ports)
    ensures r == Some(PrivateSendForbidden) <==>
      Truthy(ctx.userId) && MemberMaySend(ctx, input, ports) && IsPrivate(input) &&
      !MemberMaySendPrivate(ctx, input, ports)
    ensures r == Some(PrivateDeniedByPolicy) <==>
      Truthy(ctx.userId) && MemberMaySend(ctx, input, ports) && IsPrivate(input) &&
      MemberMaySendPrivate(ctx, input, ports) && !PolicyAllowsPrivate(ctx, ports)
    ensures r.None? <==>
      Truthy(ctx.userId) && MemberMaySend(ctx, input, ports) &&
      (IsPrivate(input) ==> MemberMaySendPrivate(ctx, input, ports) && PolicyAllowsPrivate(ctx, ports))
  {
    if !Truthy(ctx.userId) then Some(Unauthenticated)
    else
      match ports.findChatById(input.chatId)
      case None => Some(ChatNotFound)
      case Some(chat) =>
        var members := ports.listMembers(input.chatId);
        if !ports.canSendMessages(chat, members, ctx) then Some(SendForbidden)
        else if input.visibility == Some(Private) then
          if !ports.canSendPrivateMessages(chat, members, ctx) then Some(PrivateSendForbidden)
          else if !ports.isAllowed(ctx, "chat", "sendPrivateMessage") then Some(PrivateDeniedByPolicy)
          else None
        else None
  }

  /** A public send consults neither the private-send capability nor the private-send policy. */
  lemma PublicSendIgnoresPrivateChecks(
    ctx: AuthContext, input: SendMessageInput, ports: Ports,
    canPrivate: (Chat, seq<ChatMember>, AuthContext) -> bool,
    allowed: (AuthContext, string, string) -> bool)
    requires !IsPrivate(input)
    ensures Authorize(ctx, input, ports.(canSendPrivateMessages := canPrivate, isAllowed := allowed))
         == Authorize(ctx, input, ports)
  {
  }

  // ---------------------------------------------------------------------------
  // Step 3: the user message and its audit entry
  // ---------------------------------------------------------------------------

  /** `input.visibleTo || {}` */
  function VisibleToOrEmpty(input: SendMessageInput): VisibleTo {
    if input.visibleTo.Some? then input.visibleTo.value else VisibleTo(None, None)
  }

  /** The user message as stored under id `id`: private iff the input asks for private visibility. */
  function UserMessageAt(ctx: AuthContext, input: SendMessageInput, ports: Ports, id: nat): Message
    requires Truthy(ctx.userId)
  {
    var author := ctx.userId.value;
    if IsPrivate(input) then
      Message(id, input.chatId, author, input.content, Private,
              ports.privateScope(input.chatId, author, input.content, ctx, VisibleToOrEmpty(input), UserAuthor),
              UserAuthor, input.parentId, None)
    else
      Message(id, input.chatId, author, input.content, Public,
              ports.publicScope(input.chatId, author, input.content, ctx, UserAuthor),
              UserAuthor, input.parentId, None)
  }

  /** The `message.create` audit entry; its visibility defaults to public. */
  function MessageCreateEntry(ctx: AuthContext, input: SendMessageInput, messageId: nat): AuditEntry
    requires Truthy(ctx.userId)
  {
    AuditEntry(ctx.tenantId, ctx.userId.value, MessageCreate, messageId, MessageResource,
               MessageDetails(input.chatId, if IsPrivate(input) then Private else Public, |input.content|))
  }

  // ---------------------------------------------------------------------------
  // Step 4: retrieval
  // ---------------------------------------------------------------------------

  predicate RagPermitted(ctx: AuthContext, input: SendMessageInput, ports: Ports) {
    input.useRag == Some(true) && ports.isAllowed(ctx, "rag", "search")
  }

  /** The retrieved chunks: empty unless retrieval was requested and the policy allows it. */
  function RagResults(ctx: AuthContext, input: SendMessageInput, ports: Ports, scope: AccessScope): (r: seq<RagResult>)
    ensures !RagPermitted(ctx, input, ports) ==> r == []
    ensures RagPermitted(ctx, input, ports) ==>
      r == ports.search(ctx.tenantId, ports.fromMessageScope(input.content, scope))
  {
    if input.useRag == Some(true) && ports.isAllowed(ctx, "rag", "search") then
      ports.search(ctx.tenantId, ports.fromMessageScope(input.content, scope))
    else
      []
  }

  // ---------------------------------------------------------------------------
  // Step 5: model selection
  // ---------------------------------------------------------------------------

  /** `model?.id` for the router's pick. */
  function SelectedId(ctx: AuthContext, ports: Ports): Option<string> {
    match ports.selectModel(ctx, DefaultModelRequest)
    case None => None
    case Some(m) => Some(m.id)
  }

  /**
   * The model the reply is tagged with: a pinned model is used as given if the
   * router allows it; otherwise the router's pick, which must be a non-empty id.
   */
  function ResolveModel(ctx: AuthContext, input: SendMessageInput, ports: Ports): (r: Result<string, SendError>)
    ensures r.Success? ==> r.value != ""
    ensures Truthy(input.model) ==>
      (r.Success? <==> ports.isModelAllowed(ctx, input.model.value)) &&
      (r.Success? ==> r.value == input.model.value) &&
      (r.Failure? ==> r.error == ModelNotAllowed(input.model.value))
    ensures !Truthy(input.model) ==>
      (r.Success? <==> Truthy(SelectedId(ctx, ports))) &&
      (r.Success? ==> SelectedId(ctx, ports) == Some(r.value)) &&
      (r.Failure? ==> r.error == NoSuitableModel)
  {
    if Truthy(input.model) then
      if ports.isModelAllowed(ctx, input.model.value) then Success(input.model.value)
      else Failure(ModelNotAllowed(input.model.value))
    else
      var picked := SelectedId(ctx, ports);
      if Truthy(picked) then Success(picked.value) else Failure(NoSuitableModel)
  }

  // ---------------------------------------------------------------------------
  // Step 6: budget admission
  // ---------------------------------------------------------------------------

  function TenantBudgetOf(ctx: AuthContext, ports: Ports): Option<BudgetId> {
    ports.findTenantBudget(ctx.tenantId, "token")
  }

  function UserBudgetOf(ctx: AuthContext, ports: Ports): Option<BudgetId> {
    if Truthy(ctx.userId) then ports.findUserBudget(ctx.userId.value, "token") else None
  }

  /** A budget that exists and is reported exceeded; a missing budget never blocks. */
  predicate Exceeded(ports: Ports, b: Option<BudgetId>) {
    b.Some? && ports.isExceeded(b.value)
  }

  /** The budget check: the tenant budget is consulted first, then the user budget. */
  function CheckBudgets(ctx: AuthContext, ports: Ports): (r: Option<SendError>)
    ensures r == Some(TenantBudgetExceeded) <==> Exceeded(ports, TenantBudgetOf(ctx, ports))
    ensures r == Some(UserBudgetExceeded) <==>
      !Exceeded(ports, TenantBudgetOf(ctx, ports)) && Exceeded(ports, UserBudgetOf(ctx, ports))
    ensures r.None? <==>
      !Exceeded(ports, TenantBudgetOf(ctx, ports)) && !Exceeded(ports, UserBudgetOf(ctx, ports))
  {
    var tenantBudget := ports.findTenantBudget(ctx.tenantId, "token");
    if tenantBudget.Some? && ports.isExceeded(tenantBudget.value) then Some(TenantBudgetExceeded)
    else
      var userBudget := UserBudgetOf(ctx, ports);
      if userBudget.Some? && ports.isExceeded(userBudget.value) then Some(UserBudgetExceeded)
      else None
  }

  // ---------------------------------------------------------------------------
  // Steps 7-9: the assistant reply, usage accounting and the second audit entry
  // ---------------------------------------------------------------------------

  /** The placeholder reply stored under id `id`, answering user message `userMessageId`. */
  function AssistantMessageAt(ctx: AuthContext, input: SendMessageInput, ports: Ports,
                              id: nat, userMessageId: nat, modelId: string): Message
  {
    var content := ReplyPrefix + input.content;
    Message(id, input.chatId, SystemAuthor, content, Public,
            ports.publicScope(input.chatId, SystemAuthor, content, ctx, AssistantAuthor),
            AssistantAuthor, Some(userMessageId), Some(modelId))
  }

  function ResponseEntry(ctx: AuthContext, input: SendMessageInput, assistantId: nat, userMessageId: nat,
                         modelId: string, ragCount: nat): AuditEntry
    requires Truthy(ctx.userId)
  {
    AuditEntry(ctx.tenantId, ctx.userId.value, AssistantResponse, assistantId, MessageResource,
               ResponseDetails(input.chatId, userMessageId, modelId, input.useRag, ragCount))
  }

  /** Recorded usage of a budget; a budget never charged has used nothing. */
  function UsageOf(usage: map<BudgetId, int>, b: BudgetId): int {
    if b in usage then usage[b] else 0
  }

  function Increment(usage: map<BudgetId, int>, b: BudgetId, amount: int): map<BudgetId, int> {
    usage[b := UsageOf(usage, b) + amount]
  }

  /**
   * Usage after a completed exchange: each budget found is charged TokenCharge,
   * in order tenant then user; no other budget changes.
   */
  function Charge(usage: map<BudgetId, int>, tenantBudget: Option<BudgetId>, userBudget: Option<BudgetId>)
    : (r: map<BudgetId, int>)
    ensures forall b :: b in r <==> b in usage || tenantBudget == Some(b) || userBudget == Some(b)
    ensures forall b :: UsageOf(r, b) == UsageOf(usage, b)
                                         + (if tenantBudget == Some(b) then TokenCharge else 0)
                                         + (if userBudget == Some(b) then TokenCharge else 0)
  {
    var afterTenant := if tenantBudget.Some? then Increment(usage, tenantBudget.value, TokenCharge) else usage;
    if userBudget.Some? then Increment(afterTenant, userBudget.value, TokenCharge) else afterTenant
  }

  // ---------------------------------------------------------------------------
  // The order of port calls
  // ---------------------------------------------------------------------------

  function AuthorizeCalls(ctx: AuthContext, input: SendMessageInput, ports: Ports): seq<PortCall> {
    if !Truthy(ctx.userId) then []
    else [FindChatById(input.chatId)] + (if ChatOf(input, ports).None? then [] else [ListMembers(input.chatId)])
  }

  function RagCalls(ctx: AuthContext, input: SendMessageInput, ports: Ports): seq<PortCall> {
    if RagPermitted(ctx, input, ports) then [Search(ctx.tenantId)] else []
  }

  function ModelCalls(input: SendMessageInput): seq<PortCall> {
    if Truthy(input.model) then [IsModelAllowed(input.model.value)] else [SelectModel]
  }

  function LookupCalls(ports: Ports, b: Option<BudgetId>): seq<PortCall> {
    if b.Some? then [IsExceeded(b.value)] else []
  }

  function BudgetCalls(ctx: AuthContext, ports: Ports): seq<PortCall> {
    [FindTenantBudget(ctx.tenantId)] + LookupCalls(ports, TenantBudgetOf(ctx, ports)) +
    if Exceeded(ports, TenantBudgetOf(ctx, ports)) then []
    else (if Truthy(ctx.userId) then [FindUserBudget(ctx.userId.value)] else []) +
         LookupCalls(ports, UserBudgetOf(ctx, ports))
  }

  function ChargeCalls(tenantBudget: Option<BudgetId>, userBudget: Option<BudgetId>): seq<PortCall> {
    (if tenantBudget.Some? then [IncrementUsage(tenantBudget.value, TokenCharge)] else []) +
    (if userBudget.Some? then [IncrementUsage(userBudget.value, TokenCharge)] else [])
  }

  /**
   * `before` extended by the calls made once the send is authorised, when the
   * store holds `n` messages: the user message and its audit entry, retrieval,
   * model resolution, then (unless that failed) budget admission, then (unless
   * a budget is exceeded) the reply.
   */
  function DeliverTrace(before: seq<PortCall>, ctx: AuthContext, input: SendMessageInput, ports: Ports, n: nat)
    : seq<PortCall>
  {
    var pre := before + [CreateMessage(n), AuditLog(MessageCreate)] + RagCalls(ctx, input, ports) + ModelCalls(input);
    if ResolveModel(ctx, input, ports).Failure? then pre
    else if CheckBudgets(ctx, ports).Some? then pre + BudgetCalls(ctx, ports)
    else pre + BudgetCalls(ctx, ports) + [CreateMessage(n + 1)] +
         ChargeCalls(TenantBudgetOf(ctx, ports), UserBudgetOf(ctx, ports)) + [AuditLog(AssistantResponse)]
  }

  /** `before` extended by every port call of one execution. */
  function Trace(before: seq<PortCall>, ctx: AuthContext, input: SendMessageInput, ports: Ports, n: nat)
    : seq<PortCall>
  {
    if Authorize(ctx, input, ports).Some? then before + AuthorizeCalls(ctx, input, ports)
    else DeliverTrace(before + AuthorizeCalls(ctx, input, ports), ctx, input, ports, n)
  }

  /** Every port call of one execution, in order, when the store already holds `n` messages. */
  function Calls(ctx: AuthContext, input: SendMessageInput, ports: Ports, n: nat): seq<PortCall> {
    var auth := AuthorizeCalls(ctx, input, ports);
    if Authorize(ctx, input, ports).Some? then auth else DeliverTrace(auth, ctx, input, ports, n)
  }

  /** An execution appends exactly its own calls to whatever was recorded before. */
  lemma TraceExtends(before: seq<PortCall>, ctx: AuthContext, input: SendMessageInput,
                     ports: Ports, n: nat)
    ensures Trace(before, ctx, input, ports, n) == before + Calls(ctx, input, ports, n)
  {
  }

  /** An unauthenticated caller causes no port call at all. */
  lemma {:induction false} UnauthenticatedCallsNothing(ctx: AuthContext, input: SendMessageInput, ports: Ports, n: nat)
    requires !Truthy(ctx.userId)
    ensures Calls(ctx, input, ports, n) == []
  {
  }

  /** A failed authorisation only reads the chat repository: nothing is written, audited, routed or charged. */
  lemma {:induction false} RejectedSendOnlyReadsChat(ctx: AuthContext, input: SendMessageInput, ports: Ports, n: nat)
    requires Authorize(ctx, input, ports).Some?
    ensures forall c :: c in Calls(ctx, input, ports, n) ==> c == FindChatById(input.chatId) || c == ListMembers(input.chatId)
  {
  }

  /** The retrieval port is called iff authorisation passed, retrieval was requested and the policy allows it. */
  lemma SearchCalledOnlyWhenPermitted(ctx: AuthContext, input: SendMessageInput, ports: Ports, n: nat)
    ensures Search(ctx.tenantId) in Calls(ctx, input, ports, n) <==>
      Authorize(ctx, input, ports).None? && RagPermitted(ctx, input, ports)
  {
    var s := Search(ctx.tenantId);
    var auth := AuthorizeCalls(ctx, input, ports);
    assert s !in auth;
    if Authorize(ctx, input, ports).None? {
      var pre := auth + [CreateMessage(n), AuditLog(MessageCreate)];
      assert s !in pre;
      assert s !in ModelCalls(input);
      assert s in pre + RagCalls(ctx, input, ports) + ModelCalls(input) <==> RagPermitted(ctx, input, ports);
      assert s !in BudgetCalls(ctx, ports);
      assert s !in ChargeCalls(TenantBudgetOf(ctx, ports), UserBudgetOf(ctx, ports));
    }
  }

  /** The tenant budget is looked up before the user budget. */
  lemma {:induction false} TenantBudgetLookedUpFirst(ctx: AuthContext, input: SendMessageInput, ports: Ports, n: nat, j: nat)
    requires j < |Calls(ctx, input, ports, n)| && Calls(ctx, input, ports, n)[j].FindUserBudget?
    ensures exists i :: 0 <= i < j && Calls(ctx, input, ports, n)[i] == FindTenantBudget(ctx.tenantId)
  {
    var calls := Calls(ctx, input, ports, n);
    var pre := AuthorizeCalls(ctx, input, ports);
    if Authorize(ctx, input, ports).None? {
      pre := pre + [CreateMessage(n), AuditLog(MessageCreate)] + RagCalls(ctx, input, ports) + ModelCalls(input);
    }
    assert forall c :: c in pre ==> !c.FindUserBudget?;
    assert calls[..|pre|] == pre;
    if j < |pre| {
      assert false;
    }
    assert calls[|pre|] == FindTenantBudget(ctx.tenantId);
  }

  /** The assistant reply is created only after the model was resolved and both budgets admitted the call. */
  lemma ReplyOnlyWhenAdmitted(ctx: AuthContext, input: SendMessageInput, ports: Ports, n: nat)
    requires CreateMessage(n + 1) in Calls(ctx, input, ports, n)
    ensures Authorize(ctx, input, ports).None?
    ensures ResolveModel(ctx, input, ports).Success?
    ensures CheckBudgets(ctx, ports).None?
  {
  }

  // ---------------------------------------------------------------------------
  // The orchestrator and its stores
  // ---------------------------------------------------------------------------

  class SendMessage {
    /** The message store; the store assigns each message its position as id. */
    var messages: seq<Message>
    /** The audit log (append-only). */
    var auditLog: seq<AuditEntry>
    /** Recorded usage per budget id. */
    var usage: map<BudgetId, int>
    /** Every I/O port call made so far, in order. */
    var calls: seq<PortCall>

    /**
     * Ids are positions in the store, and every assistant reply answers an
     * earlier user message of the same chat.
     */
    ghost predicate Valid()
      reads this
    {
      (forall i :: 0 <= i < |messages| ==> messages[i].id == i) &&
      (forall i :: 0 <= i < |messages| && messages[i].role == AssistantAuthor ==>
         messages[i].parentId.Some? && messages[i].parentId.value < i &&
         messages[messages[i].parentId.value].role == UserAuthor &&
         messages[messages[i].parentId.value].chatId == messages[i].chatId)
    }

    constructor (initialUsage: map<BudgetId, int>)
      ensures Valid()
      ensures messages == [] && auditLog == [] && usage == initialUsage && calls == []
    {
      messages := [];
      auditLog := [];
      usage := initialUsage;
      calls := [];
    }

    /** The message store's create: assigns the next id and appends. */
    method StoreMessage(chatId: nat, authorId: string, content: string, visibility: Visibility,
                        scope: AccessScope, role: AuthorRole, parentId: Option<nat>, modelUsed: Option<string>)
      returns (m: Message)
      modifies this`messages, this`calls
      ensures m == Message(old(|messages|), chatId, authorId, content, visibility, scope, role, parentId, modelUsed)
      ensures messages == old(messages) + [m]
      ensures calls == old(calls) + [CreateMessage(m.id)]
    {
      m := Message(|messages|, chatId, authorId, content, visibility, scope, role, parentId, modelUsed);
      messages := messages + [m];
      calls := calls + [CreateMessage(m.id)];
    }

    /** The audit port: appends one entry. */
    method AppendAudit(e: AuditEntry)
      modifies this`auditLog, this`calls
      ensures auditLog == old(auditLog) + [e]
      ensures calls == old(calls) + [AuditLog(e.action)]
    {
      auditLog := auditLog + [e];
      calls := calls + [AuditLog(e.action)];
    }

    /** The budget port's increment. */
    method AddUsage(b: BudgetId, amount: int)
      modifies this`usage, this`calls
      ensures usage == Increment(old(usage), b, amount)
      ensures calls == old(calls) + [IncrementUsage(b, amount)]
    {
      usage := usage[b := UsageOf(usage, b) + amount];
      calls := calls + [IncrementUsage(b, amount)];
    }

    /** Steps 1-2: reads the chat and its members and applies the permission and policy checks. */
    method CheckAccess(ctx: AuthContext, input: SendMessageInput, ports: Ports) returns (denied: Option<SendError>)
      modifies this`calls
      ensures denied == Authorize(ctx, input, ports)
      ensures calls == old(calls) + AuthorizeCalls(ctx, input, ports)
    {
      if !Truthy(ctx.userId) {
        return Some(Unauthenticated);
      }
      calls := calls + [FindChatById(input.chatId)];
      var chat := ports.findChatById(input.chatId);
      if chat.None? {
        return Some(ChatNotFound);
      }
      calls := calls + [ListMembers(input.chatId)];
      var members := ports.listMembers(input.chatId);
      if !ports.canSendMessages(chat.value, members, ctx) {
        return Some(SendForbidden);
      }
      if input.visibility == Some(Private) {
        if !ports.canSendPrivateMessages(chat.value, members, ctx) {
          return Some(PrivateSendForbidden);
        }
        if !ports.isAllowed(ctx, "chat", "sendPrivateMessage") {
          return Some(PrivateDeniedByPolicy);
        }
      }
      return None;
    }

    /** Step 3: builds the user message with the requested visibility, stores it and audits it. */
    method PersistUserMessage(ctx: AuthContext, input: SendMessageInput, ports: Ports) returns (userMessage: Message)
      requires Valid() && Truthy(ctx.userId)
      modifies this`messages, this`auditLog, this`calls
      ensures Valid()
      ensures userMessage == UserMessageAt(ctx, input, ports, old(|messages|))
      ensures messages == old(messages) + [userMessage]
      ensures auditLog == old(auditLog) + [MessageCreateEntry(ctx, input, userMessage.id)]
      ensures calls == old(calls) + [CreateMessage(userMessage.id), AuditLog(MessageCreate)]
    {
      var author := ctx.userId.value;
      if input.visibility == Some(Private) {
        var scope := ports.privateScope(input.chatId, author, input.content, ctx, VisibleToOrEmpty(input), UserAuthor);
        userMessage := StoreMessage(input.chatId, author, input.content, Private, scope, UserAuthor, input.parentId, None);
      } else {
        var scope := ports.publicScope(input.chatId, author, input.content, ctx, UserAuthor);
        userMessage := StoreMessage(input.chatId, author, input.content, Public, scope, UserAuthor, input.parentId, None);
      }
      AppendAudit(MessageCreateEntry(ctx, input, userMessage.id));
    }

    /** Step 4: the retrieval query is built from the stored message's scope; the search is policy-gated. */
    method Retrieve(ctx: AuthContext, input: SendMessageInput, ports: Ports, scope: AccessScope)
      returns (ragResults: seq<RagResult>)
      modifies this`calls
      ensures ragResults == RagResults(ctx, input, ports, scope)
      ensures calls == old(calls) + RagCalls(ctx, input, ports)
    {
      ragResults := [];
      if input.useRag == Some(true) {
        var ragQuery := ports.fromMessageScope(input.content, scope);
        if ports.isAllowed(ctx, "rag", "search") {
          calls := calls + [Search(ctx.tenantId)];
          ragResults := ports.search(ctx.tenantId, ragQuery);
        }
      }
    }

    /** Step 5: a pinned model is checked against the router's allow-list; otherwise the router picks one. */
    method PickModel(ctx: AuthContext, input: SendMessageInput, ports: Ports) returns (r: Result<string, SendError>)
      modifies this`calls
      ensures r == ResolveModel(ctx, input, ports)
      ensures calls == old(calls) + ModelCalls(input)
    {
      var modelId := input.model;
      if !Truthy(modelId) {
        calls := calls + [SelectModel];
        var model := ports.selectModel(ctx, DefaultModelRequest);
        modelId := if model.Some? then Some(model.value.id) else None;
      } else {
        calls := calls + [IsModelAllowed(modelId.value)];
        if !ports.isModelAllowed(ctx, modelId.value) {
          return Failure(ModelNotAllowed(modelId.value));
        }
      }
      if !Truthy(modelId) {
        return Failure(NoSuitableModel);
      }
      r := Success(modelId.value);
    }

    /** Step 6: the tenant budget, then the user budget; a missing budget is skipped. */
    method AdmitBudgets(ctx: AuthContext, ports: Ports)
      returns (exceeded: Option<SendError>, tenantBudget: Option<BudgetId>, userBudget: Option<BudgetId>)
      modifies this`calls
      ensures exceeded == CheckBudgets(ctx, ports)
      ensures tenantBudget == TenantBudgetOf(ctx, ports)
      ensures exceeded.None? ==> userBudget == UserBudgetOf(ctx, ports)
      ensures calls == old(calls) + BudgetCalls(ctx, ports)
    {
      calls := calls + [FindTenantBudget(ctx.tenantId)];
      tenantBudget := ports.findTenantBudget(ctx.tenantId, "token");
      userBudget := None;
      if tenantBudget.Some? {
        calls := calls + [IsExceeded(tenantBudget.value)];
        if ports.isExceeded(tenantBudget.value) {
          return Some(TenantBudgetExceeded), tenantBudget, userBudget;
        }
      }
      if Truthy(ctx.userId) {
        calls := calls + [FindUserBudget(ctx.userId.value)];
        userBudget := ports.findUserBudget(ctx.userId.value, "token");
      }
      if userBudget.Some? {
        calls := calls + [IsExceeded(userBudget.value)];
        if ports.isExceeded(userBudget.value) {
          return Some(UserBudgetExceeded), tenantBudget, userBudget;
        }
      }
      exceeded := None;
    }

    /** Step 8: charges TokenCharge to the tenant budget, then to the user budget, when found. */
    method ChargeBudgets(tenantBudget: Option<BudgetId>, userBudget: Option<BudgetId>)
      modifies this`usage, this`calls
      ensures usage == Charge(old(usage), tenantBudget, userBudget)
      ensures calls == old(calls) + ChargeCalls(tenantBudget, userBudget)
    {
      if tenantBudget.Some? {
        AddUsage(tenantBudget.value, TokenCharge);
      }
      if userBudget.Some? {
        AddUsage(userBudget.value, TokenCharge);
      }
    }

    /** Steps 7-9: stores the placeholder reply, charges each budget found, and audits the reply. */
    method Reply(ctx: AuthContext, input: SendMessageInput, ports: Ports, userMessage: Message, modelId: string,
                 tenantBudget: Option<BudgetId>, userBudget: Option<BudgetId>, ragCount: nat)
      returns (reply: Message)
      requires Valid() && Truthy(ctx.userId)
      requires userMessage.id < |messages| && messages[userMessage.id] == userMessage
      requires userMessage.role == UserAuthor && userMessage.chatId == input.chatId
      modifies this`messages, this`auditLog, this`usage, this`calls
      ensures Valid()
      ensures reply == AssistantMessageAt(ctx, input, ports, old(|messages|), userMessage.id, modelId)
      ensures messages == old(messages) + [reply]
      ensures usage == Charge(old(usage), tenantBudget, userBudget)
      ensures auditLog == old(auditLog) + [ResponseEntry(ctx, input, reply.id, userMessage.id, modelId, ragCount)]
      ensures calls == old(calls) + [CreateMessage(reply.id)] + ChargeCalls(tenantBudget, userBudget) +
                       [AuditLog(AssistantResponse)]
    {
      var content := ReplyPrefix + input.content;
      var scope := ports.publicScope(input.chatId, SystemAuthor, content, ctx, AssistantAuthor);
      reply := StoreMessage(input.chatId, SystemAuthor, content, Public, scope, AssistantAuthor,
                            Some(userMessage.id), Some(modelId));
      ChargeBudgets(tenantBudget, userBudget);
      AppendAudit(ResponseEntry(ctx, input, reply.id, userMessage.id, modelId, ragCount));
    }

    /**
     * Steps 6-9, once the model is known: budget admission, then the reply,
     * the charges and the second audit entry.
     */
    method Answer(ctx: AuthContext, input: SendMessageInput, ports: Ports, userMessage: Message, modelId: string,
                  ragResults: seq<RagResult>)
      returns (r: Result<SendMessageOutput, SendError>)
      requires Valid() && Truthy(ctx.userId)
      requires userMessage.id == |messages| - 1 && messages[userMessage.id] == userMessage
      requires userMessage.role == UserAuthor && userMessage.chatId == input.chatId
      modifies this`messages, this`auditLog, this`usage, this`calls
      ensures Valid()
      ensures CheckBudgets(ctx, ports).Some? ==> calls == old(calls) + BudgetCalls(ctx, ports)
      ensures CheckBudgets(ctx, ports).None? ==>
        calls == old(calls) + BudgetCalls(ctx, ports) + [CreateMessage(userMessage.id + 1)] +
                 ChargeCalls(TenantBudgetOf(ctx, ports), UserBudgetOf(ctx, ports)) + [AuditLog(AssistantResponse)]
      ensures CheckBudgets(ctx, ports).Some? ==>
        r == Failure(CheckBudgets(ctx, ports).value) &&
        messages == old(messages) && auditLog == old(auditLog) && usage == old(usage)
      ensures CheckBudgets(ctx, ports).None? ==>
        var reply := AssistantMessageAt(ctx, input, ports, userMessage.id + 1, userMessage.id, modelId);
        r == Success(SendMessageOutput(userMessage, reply, ragResults)) &&
        messages == old(messages) + [reply] &&
        auditLog == old(auditLog) + [ResponseEntry(ctx, input, userMessage.id + 1, userMessage.id, modelId, |ragResults|)] &&
        usage == Charge(old(usage), TenantBudgetOf(ctx, ports), UserBudgetOf(ctx, ports))
    {
      var exceeded, tenantBudget, userBudget := AdmitBudgets(ctx, ports);
      if exceeded.Some? {
        return Failure(exceeded.value);
      }
      var reply := Reply(ctx, input, ports, userMessage, modelId, tenantBudget, userBudget, |ragResults|);
      r := Success(SendMessageOutput(userMessage, reply, ragResults));
    }

    /** Steps 3-9, once the send is authorised. */
    method Deliver(ctx: AuthContext, input: SendMessageInput, ports: Ports)
      returns (r: Result<SendMessageOutput, SendError>)
      requires Valid() && Authorize(ctx, input, ports).None?
      modifies this`messages, this`auditLog, this`usage, this`calls
      ensures Valid()
      ensures calls == DeliverTrace(old(calls), ctx, input, ports, old(|messages|))
      ensures ResolveModel(ctx, input, ports).Failure? ==>
        r == Failure(ResolveModel(ctx, input, ports).error) &&
        messages == old(messages) + [UserMessageAt(ctx, input, ports, old(|messages|))] &&
        auditLog == old(auditLog) + [MessageCreateEntry(ctx, input, old(|messages|))] &&
        usage == old(usage)
      ensures ResolveModel(ctx, input, ports).Success? && CheckBudgets(ctx, ports).Some? ==>
        r == Failure(CheckBudgets(ctx, ports).value) &&
        messages == old(messages) + [UserMessageAt(ctx, input, ports, old(|messages|))] &&
        auditLog == old(auditLog) + [MessageCreateEntry(ctx, input, old(|messages|))] &&
        usage == old(usage)
      ensures ResolveModel(ctx, input, ports).Success? && CheckBudgets(ctx, ports).None? ==>
        var n := old(|messages|);
        var modelId := ResolveModel(ctx, input, ports).value;
        var userMessage := UserMessageAt(ctx, input, ports, n);
        var reply := AssistantMessageAt(ctx, input, ports, n + 1, n, modelId);
        var ragResults := RagResults(ctx, input, ports, userMessage.accessScope);
        r == Success(SendMessageOutput(userMessage, reply, ragResults)) &&
        messages == old(messages) + [userMessage, reply] &&
        auditLog == old(auditLog) + [MessageCreateEntry(ctx, input, n),
                                     ResponseEntry(ctx, input, n + 1, n, modelId, |ragResults|)] &&
        usage == Charge(old(usage), TenantBudgetOf(ctx, ports), UserBudgetOf(ctx, ports))
    {
      var userMessage := PersistUserMessage(ctx, input, ports);
      var ragResults := Retrieve(ctx, input, ports, userMessage.accessScope);
      var model := PickModel(ctx, input, ports);
      if model.Failure? {
        return Failure(model.error);
      }
      r := Answer(ctx, input, ports, userMessage, model.value, ragResults);
    }

    /**
     * Handles one inbound message. What is committed depends on where it stops:
     * nothing when authorisation fails; the user message and its audit entry when
     * model selection or budget admission fails; on success also the reply, the
     * budget charges and a second audit entry.
     */
    method Execute(ctx: AuthContext, input: SendMessageInput, ports: Ports)
      returns (r: Result<SendMessageOutput, SendError>)
      requires Valid()
      modifies this
      ensures Valid()
      ensures calls == Trace(old(calls), ctx, input, ports, old(|messages|))
      ensures Authorize(ctx, input, ports).Some? ==>
        r == Failure(Authorize(ctx, input, ports).value) &&
        messages == old(messages) && auditLog == old(auditLog) && usage == old(usage)
      ensures Authorize(ctx, input, ports).None? && ResolveModel(ctx, input, ports).Failure? ==>
        r == Failure(ResolveModel(ctx, input, ports).error) &&
        messages == old(messages) + [UserMessageAt(ctx, input, ports, old(|messages|))] &&
        auditLog == old(auditLog) + [MessageCreateEntry(ctx, input, old(|messages|))] &&
        usage == old(usage)
      ensures Authorize(ctx, input, ports).None? && ResolveModel(ctx, input, ports).Success? &&
              CheckBudgets(ctx, ports).Some? ==>
        r == Failure(CheckBudgets(ctx, ports).value) &&
        messages == old(messages) + [UserMessageAt(ctx, input, ports, old(|messages|))] &&
        auditLog == old(auditLog) + [MessageCreateEntry(ctx, input, old(|messages|))] &&
        usage == old(usage)
      ensures Authorize(ctx, input, ports).None? && ResolveModel(ctx, input, ports).Success? &&
              CheckBudgets(ctx, ports).None? ==>
        var n := old(|messages|);
        var modelId := ResolveModel(ctx, input, ports).value;
        var userMessage := UserMessageAt(ctx, input, ports, n);
        var reply := AssistantMessageAt(ctx, input, ports, n + 1, n, modelId);
        var ragResults := RagResults(ctx, input, ports, userMessage.accessScope);
        r == Success(SendMessageOutput(userMessage, reply, ragResults)) &&
        messages == old(messages) + [userMessage, reply] &&
        auditLog == old(auditLog) + [MessageCreateEntry(ctx, input, n),
                                     ResponseEntry(ctx, input, n + 1, n, modelId, |ragResults|)] &&
        usage == Charge(old(usage), TenantBudgetOf(ctx, ports), UserBudgetOf(ctx, ports))
    {
      var denied := CheckAccess(ctx, input, ports);
      if denied.Some? {
        return Failure(denied.value);
      }
      r := Deliver(ctx, input, ports);
    }
  }
}
