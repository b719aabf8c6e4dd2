/** The chat-completion client wrapper (main-app/app/services/gigachat_service.py).

    The remote API is a parameter `api`: given the open session and the chat
    request it answers with the completion's choices or with the error the
    transport raised.  The process environment is a map. */
module GigaChat {
  import opened Wrappers

  type Environment = map<string, string>

  const DefaultScope: string := "GIGACHAT_API_CORP"

  /** `credentials or os.getenv('GC_AUTH_KEY')`. */
  function CredentialsFrom(arg: Option<string>, env: Environment): Option<string> {
    if arg.Some? && arg.value != "" then arg
    else if "GC_AUTH_KEY" in env then Some(env["GC_AUTH_KEY"])
    else None
  }

  /** `scope or os.getenv('GC_SCOPE', 'GIGACHAT_API_CORP')`. */
  function ScopeFrom(arg: Option<string>, env: Environment): string {
    if arg.Some? && arg.value != "" then arg.value
    else if "GC_SCOPE" in env then env["GC_SCOPE"]
    else DefaultScope
  }

  /** The settings `__init__` stores, or the ValueError it raises when no
      non-empty credential is available. */
  function Configure(credentials: Option<string>, scope: Option<string>, env: Environment): (r: Result<(string, string), string>)
    ensures r.Err? <==> (credentials.None? || credentials.value == "")
                        && ("GC_AUTH_KEY" !in env || env["GC_AUTH_KEY"] == "")
    ensures r.Ok? ==> r.value.0 != ""
    ensures r.Ok? && credentials.Some? && credentials.value != "" ==> r.value.0 == credentials.value
    ensures r.Ok? && (credentials.None? || credentials.value == "") ==> r.value.0 == env["GC_AUTH_KEY"]
  {
    var c := CredentialsFrom(credentials, env);
    if c.None? || c.value == "" then
      Err("GigaChat credentials not provided. Set GC_AUTH_KEY environment variable.")
    else Ok((c.value, ScopeFrom(scope, env)))
  }

  /** Where the scope comes from: the argument, then GC_SCOPE (even when empty),
      then the corporate default. */
  lemma ScopeResolution(arg: Option<string>, env: Environment)
    ensures arg.Some? && arg.value != "" ==> ScopeFrom(arg, env) == arg.value
    ensures (arg.None? || arg.value == "") && "GC_SCOPE" in env ==> ScopeFrom(arg, env) == env["GC_SCOPE"]
    ensures (arg.None? || arg.value == "") && "GC_SCOPE" !in env ==> ScopeFrom(arg, env) == "GIGACHAT_API_CORP"
  {
  }

  datatype MessagesRole = User | System | Assistant

  /** A caller's message, the dictionary `{"role": ..., "content": ...}`. */
  datatype ChatMessage = ChatMessage(role: string, content: string)

  /** The transport's message object. */
  datatype Messages = Messages(role: MessagesRole, content: string)

  /** The transport's `Chat` request object. */
  datatype ChatRequest = ChatRequest(messages: seq<Messages>, temperature: real, maxTokens: int, topP: real)

  datatype Session = Session(credentials: string, scope: string, verifySslCerts: bool)

  datatype ApiReply = Completion(choices: seq<string>) | ApiFailure(error: string)

  datatype ChatOutcome = Reply(content: string) | NotInitialized | ApiError(error: string)

  /** `role_map.get(role, MessagesRole.USER)`. */
  function RoleOf(role: string): MessagesRole {
    if role == "user" then User
    else if role == "system" then System
    else if role == "assistant" then Assistant
    else User
  }

  function RoleName(r: MessagesRole): string {
    match r
    case User => "user"
    case System => "system"
    case Assistant => "assistant"
  }

  /** The three known roles map to themselves; every other string maps to USER. */
  lemma RoleMapping(role: string)
    ensures RoleOf(RoleName(User)) == User && RoleOf(RoleName(System)) == System
    ensures RoleOf(RoleName(Assistant)) == Assistant
    ensures RoleOf(role) != User ==> RoleName(RoleOf(role)) == role
    ensures role != "system" && role != "assistant" ==> RoleOf(role) == User
  {
  }

  /** The conversion loop of `chat`: one transport message per caller message,
      in order, content untouched, role mapped. */
  function ToApiMessages(messages: seq<ChatMessage>): (r: seq<Messages>)
    ensures |r| == |messages|
    ensures forall i :: 0 <= i < |r| ==> r[i].content == messages[i].content && r[i].role == RoleOf(messages[i].role)
  {
    seq(|messages|, i requires 0 <= i < |messages| => Messages(RoleOf(messages[i].role), messages[i].content))
  }

  /** `response.choices[0].message.content`; an empty choice list raises
      IndexError, which `chat` logs and re-raises like any API error. */
  function Answer(reply: ApiReply): (r: ChatOutcome)
    ensures reply.ApiFailure? ==> r == ApiError(reply.error)
    ensures reply.Completion? && |reply.choices| > 0 ==> r == Reply(reply.choices[0])
    ensures r != NotInitialized
  {
    match reply
    case ApiFailure(e) => ApiError(e)
    case Completion(choices) =>
      if |choices| > 0 then Reply(choices[0]) else ApiError("list index out of range")
  }

  /** The message list `simple_chat` builds: the system prompt first when it is
      truthy, then the user prompt. */
  function SimpleMessages(prompt: string, systemPrompt: Option<string>): (r: seq<ChatMessage>)
    ensures systemPrompt.Some? && systemPrompt.value != "" ==>
      r == [ChatMessage("system", systemPrompt.value), ChatMessage("user", prompt)]
    ensures (systemPrompt.None? || systemPrompt.value == "") ==> r == [ChatMessage("user", prompt)]
  {
    var messages := if systemPrompt.Some? && systemPrompt.value != "" then [ChatMessage("system", systemPrompt.value)] else [];
    messages + [ChatMessage("user", prompt)]
  }

  /** `simple_chat` sends the system prompt with role SYSTEM and the prompt with
      role USER, in that order. */
  lemma SimpleMessagesRoles(prompt: string, systemPrompt: string)
    requires systemPrompt != ""
    ensures ToApiMessages(SimpleMessages(prompt, Some(systemPrompt)))
            == [Messages(System, systemPrompt), Messages(User, prompt)]
    ensures ToApiMessages(SimpleMessages(prompt, None)) == [Messages(User, prompt)]
  {
  }

  class GigaChatService {
    const credentials: string
    const scope: string
    const verifySslCerts: bool
    var client: Option<Session>
    /** How many times the transport's own `__exit__` has run. */
    ghost var releases: nat

    /** `__init__` once the credentials resolved to a non-empty string. */
    constructor (credentials: string, scope: string, verifySslCerts: bool)
      requires credentials != ""
      ensures this.credentials == credentials && this.scope == scope && this.verifySslCerts == verifySslCerts
      ensures client == None && releases == 0
    {
      this.credentials := credentials;
      this.scope := scope;
      this.verifySslCerts := verifySslCerts;
      client := None;
      releases := 0;
    }

    /** `__enter__`: opens a transport session with the stored settings. */
    method Enter()
      modifies this
      ensures client == Some(Session(credentials, scope, verifySslCerts))
      ensures releases == old(releases)
    {
      client := Some(Session(credentials, scope, verifySslCerts));
    }

    /** `__exit__`: releases the session if there is one; a second exit does nothing. */
    method Exit()
      modifies this
      ensures client == None
      ensures releases == old(releases) + (if old(client).Some? then 1 else 0)
    {
      if client.Some? {
        releases := releases + 1;
        client := None;
      }
    }

    /** `chat`: RuntimeError outside a session; otherwise the converted request
        goes to the API once and its first choice, or its error, comes back. */
    method Chat(messages: seq<ChatMessage>, temperature: real, maxTokens: int, topP: real,
                api: (Session, ChatRequest) -> ApiReply)
      returns (r: ChatOutcome)
      ensures client.None? ==> r == NotInitialized
      ensures client.Some? ==>
        r == Answer(api(client.value, ChatRequest(ToApiMessages(messages), temperature, maxTokens, topP)))
    {
      if client.None? {
        return NotInitialized;
      }
      var gigachatMessages: seq<Messages> := [];
      var i := 0;
      while i < |messages|
        invariant 0 <= i <= |messages|
        invariant gigachatMessages == ToApiMessages(messages[..i])
      {
        var role := RoleOf(messages[i].role);
        gigachatMessages := gigachatMessages + [Messages(role, messages[i].content)];
        i := i + 1;
      }
      assert messages[..i] == messages;
      var chat := ChatRequest(gigachatMessages, temperature, maxTokens, topP);
      var response := api(client.value, chat);
      r := Answer(response);
    }

    /** `simple_chat`: builds [system?, user] and calls `chat` with the default
        temperature 0.7, max_tokens 2000 and top_p 0.95. */
    method SimpleChat(prompt: string, systemPrompt: Option<string>, api: (Session, ChatRequest) -> ApiReply)
      returns (r: ChatOutcome)
      ensures client.None? ==> r == NotInitialized
      ensures client.Some? ==>
        r == Answer(api(client.value, ChatRequest(ToApiMessages(SimpleMessages(prompt, systemPrompt)), 0.7, 2000, 0.95)))
    {
      var messages: seq<ChatMessage> := [];
      if systemPrompt.Some? && systemPrompt.value != "" {
        messages := messages + [ChatMessage("system", systemPrompt.value)];
      }
      messages := messages + [ChatMessage("user", prompt)];
      assert messages == SimpleMessages(prompt, systemPrompt);
      r := Chat(messages, 0.7, 2000, 0.95, api);
    }
  }

  /** `GigaChatService(credentials, scope, verify_ssl_certs)`: a service without
      a session, or the ValueError for missing credentials. */
  method NewService(credentials: Option<string>, scope: Option<string>, verifySslCerts: bool, env: Environment)
    returns (r: Result<GigaChatService, string>)
    ensures r.Err? <==> Configure(credentials, scope, env).Err?
    ensures r.Ok? ==>
      && fresh(r.value)
      && r.value.credentials == Configure(credentials, scope, env).value.0
      && r.value.scope == Configure(credentials, scope, env).value.1
      && r.value.verifySslCerts == verifySslCerts
      && r.value.client == None
  {
    match Configure(credentials, scope, env)
    case Err(e) =>
      r := Err(e);
    case Ok(settings) =>
      var service := new GigaChatService(settings.0, settings.1, verifySslCerts);
      r := Ok(service);
  }

  /** The lifecycle of a `with` block around one `chat` call: a call before
      `__enter__` or after `__exit__` is refused, the call inside reaches the API. */
  method ChatInSession(service: GigaChatService, messages: seq<ChatMessage>, api: (Session, ChatRequest) -> ApiReply)
    returns (before: ChatOutcome, inside: ChatOutcome, after: ChatOutcome)
    modifies service
    ensures old(service.client).None? ==> before == NotInitialized
    ensures inside == Answer(api(Session(service.credentials, service.scope, service.verifySslCerts),
                                 ChatRequest(ToApiMessages(messages), 0.7, 2000, 0.95)))
    ensures after == NotInitialized
    ensures service.client == None
  {
    before := service.Chat(messages, 0.7, 2000, 0.95, api);
    service.Enter();
    inside := service.Chat(messages, 0.7, 2000, 0.95, api);
    service.Exit();
    after := service.Chat(messages, 0.7, 2000, 0.95, api);
  }
}
