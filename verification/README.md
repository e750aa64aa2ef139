# Chat orchestration core, modelled in Dafny

This project models the core of a multi-tenant chat back end:

- **sending a message** (`SendMessage.execute`). The steps run in this order:
  1. authentication, chat lookup and send permission;
  2. the private-send checks;
  3. persisting and auditing the user message;
  4. policy-gated retrieval;
  5. model selection;
  6. the tenant-then-user budget check;
  7. the placeholder assistant reply;
  8. charging both budgets;
  9. the second audit entry.
- **creating a chat** (`CreateChat.execute`): the authentication and policy checks, the default settings overlaid with the caller's, the owner membership, and the audit entry.
- **the vector-store retrieval adapter** (`QdrantRagAdapter`):
  - the per-tenant collection name;
  - the access-control `must` clauses of a search, and the unfiltered search when there are none;
  - the search limit default;
  - the hit-to-result mapping;
  - the points an indexing request writes;
  - the removal selector;
  - the create-if-missing collection set-up.
- **the HTTP authentication middlewares** (`authMiddleware` and `optionalAuthMiddleware`):
  - the API key takes precedence over a Bearer token;
  - three distinct 401 responses;
  - a 500 when a port call throws;
  - the optional variant always calls `next`.

Collaborators whose code is outside the core are fields of arrow type in a datatype passed to the use case: `Ports`, `ChatPorts` and `AuthPort`. Their answers are inputs of the model. This covers:
- chat permissions, the policy engine and the visibility builders;
- the retrieval query builder, the model router and the budget lookups;
- the authentication port.

Each use case is a class. Its fields are the stores it writes:
- `SendMessage`: messages, audit log, budget usage;
- `CreateChat`: chats, members, audit log.

Each store assigns ids as positions. `SendMessage` also keeps a trace of every port call it makes, so that call order and the absence of calls can be stated. The retrieval adapter keeps a transcript of the requests it sends to the vector store. The middlewares act on an `Exchange` object: the request's context slot, the error response sent, and the number of `next` calls.

JavaScript truthiness is written out. An absent string and `""` are both falsy. `limit || 10` gives 10 for an absent limit or 0. A pinned model `""` counts as not pinned.

The model follows the code:
- a retrieval failure is not swallowed;
- the budget check and the increment are two separate steps, not an atomic unit;
- each budget is charged a fixed 100 tokens;
- the assistant reply is the placeholder `"Response to: " + content`;
- errors are the distinct `throw` sites (`SendError`, `CreateChatError`) and the distinct error responses (`Rejection`), each with its exact message; the middlewares record each rejection's status and `error` text in the response they send.

## Model

| member | source | states |
|---|---|---|
| Domain.ActionName | src/application/usecases/SendMessage.ts:110-215 | The action names the audit log records: `message.create` and `message.assistant_response` (SendMessage.ts lines 113 and 205) and `chat.create` (CreateChat.ts line 66). The use cases' contracts name actions by `AuditAction`; this table gives their logged text. |
| Domain.ActionNamesDistinct | src/application/usecases/CreateChat.ts:63-70 | The three action names are pairwise distinct, so a logged entry's action text identifies its `AuditAction`. |
| SendMessageUseCase.Describe | src/application/usecases/SendMessage.ts:57-171 | The nine messages the use case throws, one per failure; the model rejection names the model. The text is documentation: failures are returned as `SendError` values, and `DescribeDistinguishes` states what the messages guarantee. |
| SendMessageUseCase.FixedMessagesDoNotNameAModel | src/application/usecases/SendMessage.ts:57-171 | None of the eight fixed messages ends the way a model rejection does (`… is not allowed by policy` after the model id). |
| SendMessageUseCase.DescribeDistinguishes | src/application/usecases/SendMessage.ts:57-171 | Equal messages come from the same failure: a caller can tell every failure apart by its message, and a model rejection by the model it names. |
| SendMessageUseCase.Authorize | src/application/usecases/SendMessage.ts:57-84 | Each authorisation error holds exactly when its condition holds and every earlier check passed: no user id; unknown chat; send not permitted; private send without the private capability; private send denied by policy. The send proceeds iff the caller is authenticated, may send, and for a private message has both the capability and the policy. |
| SendMessageUseCase.PublicSendIgnoresPrivateChecks | src/application/usecases/SendMessage.ts:74-84 | For a public send, replacing the private-send capability and the policy engine by anything leaves the authorisation outcome unchanged. |
| SendMessageUseCase.UserMessageAt | src/application/usecases/SendMessage.ts:86-107 | Builds the stored user message: the private builder with `visibleTo` or an empty set when visibility is `private`, the public builder otherwise, with the given `parentId`. `PersistUserMessage` and `Execute` state their results through it. |
| SendMessageUseCase.MessageCreateEntry | src/application/usecases/SendMessage.ts:109-121 | Builds the `message.create` entry: tenant, user, the message id, and details with the chat, the visibility (public unless private) and the content length. |
| SendMessageUseCase.RagResults | src/application/usecases/SendMessage.ts:123-136 | The retrieved chunks are empty unless retrieval was requested and the `rag`/`search` policy allows it. Otherwise they are the search over the query built from the stored message's scope. |
| SendMessageUseCase.ResolveModel | src/application/usecases/SendMessage.ts:138-156 | The resolved model id is never empty. A pinned model is used iff the router allows it, and otherwise fails with `ModelNotAllowed` naming it. Without a pin, the router's pick is used iff it has a non-empty id, and otherwise fails with `NoSuitableModel`. |
| SendMessageUseCase.CheckBudgets | src/application/usecases/SendMessage.ts:158-173 | Tenant exceeded iff the tenant budget exists and is exceeded. User exceeded iff the tenant budget passed and the user budget exists and is exceeded. A missing budget never blocks. |
| SendMessageUseCase.AssistantMessageAt | src/application/usecases/SendMessage.ts:175-191 | Builds the reply: author `system`, content `Response to: ` + content, public scope for the assistant role, parent the user message, tagged with the model. |
| SendMessageUseCase.ResponseEntry | src/application/usecases/SendMessage.ts:201-215 | Builds the `message.assistant_response` entry: the reply id, and details with the chat, the user message, the model, the retrieval flag and the result count. |
| SendMessageUseCase.Charge | src/application/usecases/SendMessage.ts:193-199 | Each budget found gains exactly 100, counted twice if the tenant and user budgets coincide. Every other budget keeps its usage. The map's domain grows only by the charged budgets. |
| SendMessageUseCase.TraceExtends | src/application/usecases/SendMessage.ts:56-222 | The trace of an execution is the earlier trace followed by exactly `Calls`, the calls of that execution. |
| SendMessageUseCase.UnauthenticatedCallsNothing | src/application/usecases/SendMessage.ts:57-59 | Without a user id, no port is called at all. |
| SendMessageUseCase.RejectedSendOnlyReadsChat | src/application/usecases/SendMessage.ts:62-84 | A rejected send calls only the chat lookup and the member listing. It makes no write, no audit entry, no retrieval, no model-router call and no budget call. |
| SendMessageUseCase.SearchCalledOnlyWhenPermitted | src/application/usecases/SendMessage.ts:124-136 | The retrieval port is called iff authorisation passed, retrieval was requested and the policy allows it. |
| SendMessageUseCase.TenantBudgetLookedUpFirst | src/application/usecases/SendMessage.ts:159-167 | Every user-budget lookup is preceded by a tenant-budget lookup. |
| SendMessageUseCase.ReplyOnlyWhenAdmitted | src/application/usecases/SendMessage.ts:154-191 | If the reply is created, then authorisation passed, a model was resolved and neither budget was exceeded. |
| SendMessageUseCase.SendMessage.CheckAccess | src/application/usecases/SendMessage.ts:57-84 | Returns exactly the `Authorize` outcome. It records the chat lookup, plus the member listing when the chat exists. |
| SendMessageUseCase.SendMessage.PersistUserMessage | src/application/usecases/SendMessage.ts:86-121 | Appends the user message: private iff visibility is private, with `visibleTo` defaulting to empty and `parentId` as given. Then appends one `message.create` entry: visibility defaults to public and length is the content length. The store invariant is kept. |
| SendMessageUseCase.SendMessage.Retrieve | src/application/usecases/SendMessage.ts:123-136 | Returns `RagResults`. It records a search call only when retrieval is permitted. |
| SendMessageUseCase.SendMessage.PickModel | src/application/usecases/SendMessage.ts:138-156 | Returns `ResolveModel`. It records the allow-check of a pinned model, or else the router's selection. |
| SendMessageUseCase.SendMessage.AdmitBudgets | src/application/usecases/SendMessage.ts:158-173 | Returns `CheckBudgets` and the budgets found. It records the lookups in order, and skips the user-budget lookup when the tenant budget is exceeded. |
| SendMessageUseCase.SendMessage.ChargeBudgets | src/application/usecases/SendMessage.ts:193-199 | Usage becomes `Charge` of the old usage. One increment of 100 is recorded per budget found, tenant first. |
| SendMessageUseCase.SendMessage.Reply | src/application/usecases/SendMessage.ts:175-215 | Appends the reply (author `system`, content `Response to: ` + content, public, parent the user message, tagged with the model), then charges the budgets, then appends the `message.assistant_response` entry. The store invariant is kept. |
| SendMessageUseCase.SendMessage.Answer | src/application/usecases/SendMessage.ts:158-221 | If a budget is exceeded: that error, with stores and usage unchanged. Otherwise: the reply, the charges and the second audit entry. The calls are recorded in order in both cases. |
| SendMessageUseCase.SendMessage.Deliver | src/application/usecases/SendMessage.ts:86-221 | After authorisation, the store contents at each later abort point and at success, and the trace `DeliverTrace`. |
| SendMessageUseCase.SendMessage.Execute | src/application/usecases/SendMessage.ts:56-222 | On an authorisation failure, no store changes. On a model or budget failure, exactly the user message and its audit entry. On success, exactly two messages, two audit entries and usage `Charge`, and the returned output. The store invariant (ids are positions; every reply answers an earlier user message of its chat) is kept, and the trace grows by `Trace`. |
| CreateChatUseCase.Describe | src/application/usecases/CreateChat.ts:26-38 | The two messages the use case throws. The text is documentation: failures are returned as `CreateChatError` values. |
| CreateChatUseCase.DefaultSettings | src/application/usecases/CreateChat.ts:46-49 | The three defaults every new chat starts from: multi-user and private messages allowed, default visibility `public`. `DefaultSettingsWithoutOverrides` states them. |
| CreateChatUseCase.MergeSettings | src/application/usecases/CreateChat.ts:46-51 | Without caller settings, the defaults. With them: the keys are the defaults' plus the caller's, every caller key wins, and every other default is kept. |
| CreateChatUseCase.Authorize | src/application/usecases/CreateChat.ts:26-38 | Unauthenticated iff there is no user id. Forbidden iff authenticated and `chat`/`create` is denied. Proceeds iff both pass. |
| CreateChatUseCase.ChatAt | src/application/usecases/CreateChat.ts:41-52 | Builds the stored chat: the caller's tenant, the caller as owner, title, system prompt and `MergeSettings` of the caller's settings. `CreateChat.Execute` states its result through it. |
| CreateChatUseCase.OwnerMemberAt | src/application/usecases/CreateChat.ts:55-60 | Builds the owner membership: the chat, the caller, role owner and the owner's default permissions. |
| CreateChatUseCase.ChatCreateEntry | src/application/usecases/CreateChat.ts:63-70 | Builds the `chat.create` entry: tenant, user, the chat id, and the chat's title as details. |
| CreateChatUseCase.DefaultSettingsWithoutOverrides | src/application/usecases/CreateChat.ts:46-50 | Without caller settings, a chat has exactly three settings: multi-user true, private messages true, default visibility `public`. |
| CreateChatUseCase.CreateChat.Execute | src/application/usecases/CreateChat.ts:25-76 | On either failure, the error and no change to chats, members or audit log. On success, exactly one chat (tenant, owner, title, system prompt, merged settings), one owner member with owner default permissions, and one `chat.create` entry naming the chat. Returns the chat and the membership id. Every chat keeps an owner member held by its owner. |
| QdrantRagAdapter.CollectionName | src/infrastructure/qdrant/QdrantRagAdapter.ts:22-24 | The name is `tenant_` followed by the tenant id. |
| QdrantRagAdapter.CollectionNameInjective | src/infrastructure/qdrant/QdrantRagAdapter.ts:22-24 | Distinct tenants get distinct collections. |
| QdrantRagAdapter.KeyPathInjective | src/infrastructure/qdrant/QdrantRagAdapter.ts:60-83 | The three payload paths the adapter filters on are distinct, so a condition is fixed by the field it names. |
| QdrantRagAdapter.MustClauses | src/infrastructure/qdrant/QdrantRagAdapter.ts:60-83 | The clause list the search pushes. Its properties are stated by `MustClausesOrdered`, `MustClausesCover` and `MustClausesMatchLists`. |
| QdrantRagAdapter.MustClausesOrdered | src/infrastructure/qdrant/QdrantRagAdapter.ts:60-83 | At most three clauses, in strictly increasing field order: department, tags, document version. |
| QdrantRagAdapter.MustClausesCover | src/infrastructure/qdrant/QdrantRagAdapter.ts:64-83 | A field has a clause iff the query gives it a present, non-empty list. |
| QdrantRagAdapter.MustClausesMatchLists | src/infrastructure/qdrant/QdrantRagAdapter.ts:64-83 | Each clause is a match-any over its field's list. |
| QdrantRagAdapter.SearchFilter | src/infrastructure/qdrant/QdrantRagAdapter.ts:85-88 | The filter is absent iff no list is non-empty. Otherwise its `must` list is the clause list. |
| QdrantRagAdapter.BuildFilter | src/infrastructure/qdrant/QdrantRagAdapter.ts:60-88 | The filter built by pushing clauses in place equals `SearchFilter`. |
| QdrantRagAdapter.SearchLimit | src/infrastructure/qdrant/QdrantRagAdapter.ts:89 | 10 when the limit is missing or 0, else the limit itself; never 0. |
| QdrantRagAdapter.SearchFilterAdmits | src/infrastructure/qdrant/QdrantRagAdapter.ts:60-92 | A search selects a point iff every non-empty list shares a value with the point's field. |
| QdrantRagAdapter.RemoveFilter | src/infrastructure/qdrant/QdrantRagAdapter.ts:141-150 | The selector is one clause on the document version field. |
| QdrantRagAdapter.RemoveFilterSelects | src/infrastructure/qdrant/QdrantRagAdapter.ts:141-150 | A removal selects a point iff its metadata's `documentVersionId` equals the given version. |
| QdrantRagAdapter.ToResult | src/infrastructure/qdrant/QdrantRagAdapter.ts:95-103 | The result's chunk id is the point id. Text, metadata and scope are the payload's. Document and version ids come from the metadata, absent when missing. |
| QdrantRagAdapter.ToResults | src/infrastructure/qdrant/QdrantRagAdapter.ts:95-103 | One result per hit, same length, same order. |
| QdrantRagAdapter.PointOf | src/infrastructure/qdrant/QdrantRagAdapter.ts:120-130 | Builds the point written for one chunk: the chunk id, and a payload of the chunk's text, metadata and scope. `IndexedChunksComeBack` states what a hit on it comes back as. |
| QdrantRagAdapter.PointsOf | src/infrastructure/qdrant/QdrantRagAdapter.ts:120-130 | One point per chunk, in order, whose id is the chunk id and whose payload is the chunk's text, metadata and scope. |
| QdrantRagAdapter.IndexedChunksComeBack | src/infrastructure/qdrant/QdrantRagAdapter.ts:120-135 | A written point that a search hits comes back as a result carrying its chunk's id, text, metadata and scope (and the version id its metadata names). Mapping the written points back, in their order, returns the chunks. Which points a search hits, and in what order, is the store's answer and is not claimed. |
| QdrantRagAdapter.RemovalReachesIndexedChunk | src/infrastructure/qdrant/QdrantRagAdapter.ts:106-151 | Removing a document version reaches an indexed chunk iff that chunk's own metadata names the version. Indexing does not stamp the version it is given. |
| QdrantRagAdapter.EnsureCalls | src/infrastructure/qdrant/QdrantRagAdapter.ts:26-51 | Always a lookup. Then, only when the lookup fails: a cosine collection of 1536 dimensions and keyword indexes on department and tags. Every request names the collection. |
| QdrantRagAdapter.QdrantRagAdapter.EnsureCollection | src/infrastructure/qdrant/QdrantRagAdapter.ts:26-51 | Sends exactly `EnsureCalls` for the tenant's collection. |
| QdrantRagAdapter.QdrantRagAdapter.Search | src/infrastructure/qdrant/QdrantRagAdapter.ts:53-104 | Sends one search to the tenant's collection with `SearchFilter` and `SearchLimit`, and returns `ToResults` of the hits. |
| QdrantRagAdapter.QdrantRagAdapter.IndexDocument | src/infrastructure/qdrant/QdrantRagAdapter.ts:106-136 | Sends the collection set-up, then one upsert of `PointsOf` the chunks, to the tenant's collection. |
| QdrantRagAdapter.QdrantRagAdapter.RemoveDocument | src/infrastructure/qdrant/QdrantRagAdapter.ts:138-151 | Sends one deletion with `RemoveFilter` to the tenant's collection. |
| QdrantRagAdapter.QdrantRagAdapter.UpdateChunkAccessScope | src/infrastructure/qdrant/QdrantRagAdapter.ts:153-165 | Sends one payload update of the access scope, for that chunk only, to the tenant's collection. |
| QdrantRagAdapter.QdrantRagAdapter.DeleteCollection | src/infrastructure/qdrant/QdrantRagAdapter.ts:167-170 | Sends one deletion of the tenant's collection. |
| HttpAuth.Status | src/interfaces/http/middleware/auth.middleware.ts:23-53 | 500 exactly for a thrown port call; 401 for every other rejection. |
| HttpAuth.ErrorText | src/interfaces/http/middleware/auth.middleware.ts:23-53 | The `error` text of each of the four responses. The middlewares record it through `ResponseFor`, and `ResponsesDistinguishRejections` states that the texts tell the rejections apart. |
| HttpAuth.ResponsesDistinguishRejections | src/interfaces/http/middleware/auth.middleware.ts:23-53 | Two rejections with the same status and `error` text are the same rejection. |
| HttpAuth.CredentialOf | src/interfaces/http/middleware/auth.middleware.ts:13-44 | An API key iff the key is truthy. Otherwise a Bearer token iff the header starts with `Bearer `; the token is the header with those 7 characters removed. Otherwise no credential. |
| HttpAuth.Authenticate | src/interfaces/http/middleware/auth.middleware.ts:9-56 | 401 `Authentication required` iff no credential. 401 `Invalid API key` iff a key is unrecognised. 401 `Invalid or expired token` iff a token is unrecognised. 500 iff a port call throws. Otherwise `next` with the context built from the validated tenant and user. |
| HttpAuth.AuthenticateOptional | src/interfaces/http/middleware/auth.middleware.ts:58-97 | Always `next`, with no context when neither header is truthy. A context is attached iff a credential was recognised with a truthy tenant and the context was built, and it is that built context. |
| HttpAuth.ApiKeyShadowsAuthorization | src/interfaces/http/middleware/auth.middleware.ts:19-44 | With a truthy API key, changing the Authorization header changes neither middleware's outcome. |
| HttpAuth.OptionalAgreesWithRequired | src/interfaces/http/middleware/auth.middleware.ts:58-97 | Where the optional middleware attaches a context, the required one admits with the same context. Where the required one admits an identity with a truthy tenant, the optional one agrees. |
| HttpAuth.AuthMiddleware | src/interfaces/http/middleware/auth.middleware.ts:9-56 | An error response records the rejection's status and `error` text, leaves the context untouched and does not call `next`. Success sets the context and calls `next` exactly once. Both follow `Authenticate`. |
| HttpAuth.OptionalAuthMiddleware | src/interfaces/http/middleware/auth.middleware.ts:58-97 | Calls `next` exactly once and never sends a response. It sets the context exactly when `AuthenticateOptional` attaches one. |

## Left out

- Timestamps are not modelled: the messages' `createdAt` and the audit entries' time are assigned by the stores.
- Ids are natural numbers equal to store positions. The stores' own id formats are not modelled.
- Message length is the number of characters in the model, while JavaScript counts UTF-16 code units.
- The message store's check that a `parentId` belongs to the same chat is part of the message repository, which is not part of this model.
- The bodies of the chat-permission rules, the policy engine, the visibility builders and the retrieval query builder are not part of this model. The visibility builders contribute only the access scope; the other message fields are the builder's arguments.
- Failures of the stores, the audit log, the retrieval port and the budget port are left out; only the failures the use cases raise themselves are modelled. A retrieval failure would propagate; it is not swallowed.
- Concurrency is left out. Sends run one at a time, and the budget check and the increment are not claimed to be atomic.
- Embedding generation is left out: the vector-store client and the embedding service are foreign libraries.
- Vectors, scores and the 0.7 score threshold are floating-point values and are left out.
- The adapter's constructor is left out: the environment lookup of the store URL and the embedding API key.
- Payload metadata values are modelled as strings, and access-scope values as string lists.
- `next()` or `res.json` themselves throwing inside the middlewares is not modelled.
- The error logging to the console is not modelled.
- Header values given more than once (arrays) are not modelled.
- QdrantRagAdapter.SearchFilterAdmits: this states the documented meaning of the store's match-any and match-value conditions, not the store's code.
- QdrantRagAdapter.ToResult: every hit is modelled with a payload holding a metadata map. A hit without a payload, or whose payload has no `metadata`, makes the source's search throw a `TypeError`; the model's `ToResult` and `Search` cannot fail.
- CreateChatUseCase.MergeSettings: settings values are booleans, strings, integers, `null` or `undefined`. The source accepts any value, so arrays, nested objects and fractional numbers are not modelled.
- QdrantRagAdapter.SearchLimit: the limit is an integer. The source's limit is a JavaScript number, so `NaN` (which also gives 10) and fractional limits are not modelled.
