/** The MCP.run client of mcprun_client.py: it resolves a session id once, at construction, from an
    explicit argument or the user's config file, then lists the tools of that session and runs a
    named tool. The file system and the HTTP transport are inputs: the config file is given as what
    reading it produced, and every request as the outcome the network gave. Each operation returns
    the request it issued, if any, beside the value the Python method returns. */
module McpRun {
  import opened JsonValues

  const DefaultApiBaseUrl := "https://api.mcp.run/v1"
  /** The key of the session id in ~/.arcee/config.json. */
  const SessionKey := "mcp_session_id"
  const NoSessionMessage := "ID de sessão MCP.run não configurado"
  const StatusErrorPrefix := "Erro ao executar ferramenta: "
  const ExceptionPrefix := "Exceção ao executar ferramenta: "
  const DemoSessionId := "demo-session-id"

  /** What reading ~/.arcee/config.json produced: no file, a read or JSON-parse error, or a document. */
  datatype ConfigFile = Missing | Unreadable(reason: string) | Loaded(contents: Json)

  /** What `response.json()` does: return a value, or raise with the given message. */
  datatype Body = WellFormed(value: Json) | Malformed(reason: string)

  /** What the transport did with one request: a response, or an exception (connection refused,
      timeout, name resolution) with its message. */
  datatype HttpOutcome =
    | Response(status: nat, text: string, body: Body)
    | TransportFailure(message: string)

  datatype Request = HttpGet(url: string) | HttpPost(url: string, json: Json)

  /** The request an operation issued (None: it issued none) and the value it returned. */
  datatype Reply = Reply(sent: Option<Request>, value: Json)

  function ErrorRecord(message: string): (r: Json)
    ensures r.JObj? && r.fields.Keys == {"error"} && r.fields["error"] == JStr(message)
  {
    JObj(map["error" := JStr(message)])
  }

  /** The dict a 200 response's body parsed to; None for any other status, a body that does not
      parse, a body that is not a dict, or a transport failure. */
  function Payload(outcome: HttpOutcome): Option<map<string, Json>> {
    if outcome.Response? && outcome.status == 200 && outcome.body.WellFormed? && outcome.body.value.JObj?
    then Some(outcome.body.value.fields)
    else None
  }

  /** `str(e)` of the exception raised while handling the outcome, if one is raised: the transport's
      own, the parse error of a 200 body, or the AttributeError of `.get` on a 200 body that is not
      a dict. */
  function Raised(outcome: HttpOutcome): Option<string> {
    match outcome
    case TransportFailure(message) => Some(message)
    case Response(status, _, body) =>
      if status != 200 then None
      else match body
        case Malformed(reason) => Some(reason)
        case WellFormed(JObj(_)) => None
        case WellFormed(other) => Some(NoGetMessage(other))
  }

  /** Every outcome is exactly one of: a usable 200 payload, an exception, or a non-200 response. */
  lemma OutcomeClassification(outcome: HttpOutcome)
    ensures Payload(outcome).Some? ==> Raised(outcome).None?
    ensures Payload(outcome).None? && Raised(outcome).None? <==> outcome.Response? && outcome.status != 200
  {
  }

  /** The session value of the explicit constructor argument: the str, or None. */
  function ExplicitSession(arg: Option<string>): Json {
    if arg.Some? then JStr(arg.value) else JNull
  }

  /** The session a client constructed with `arg` and `config` holds. A truthy argument wins and the
      file is not looked at; otherwise a config document that is a dict supplies its
      `mcp_session_id` entry (None when that key is missing); otherwise (no file, a read or parse
      error, or a document that is not a dict, whose `.get` raises) the argument stays. */
  function ResolveSession(arg: Option<string>, config: ConfigFile): (sid: Json)
    ensures arg.Some? && arg.value != "" ==> sid == JStr(arg.value)
    ensures (arg.None? || arg.value == "") && config.Loaded? && config.contents.JObj? ==>
      sid == Get(config.contents.fields, SessionKey, JNull)
    ensures !(config.Loaded? && config.contents.JObj?) ==> sid == ExplicitSession(arg)
  {
    var explicit := ExplicitSession(arg);
    if Truthy(explicit) then explicit
    else match config
      case Loaded(JObj(fields)) => Get(fields, SessionKey, JNull)
      case _ => explicit
  }

  /** A session comes from exactly two places: the argument, or the config dict's entry. */
  lemma SessionProvenance(arg: Option<string>, config: ConfigFile)
    ensures var sid := ResolveSession(arg, config);
      Truthy(sid) ==>
        (arg.Some? && sid == JStr(arg.value)) ||
        (config.Loaded? && config.contents.JObj? && SessionKey in config.contents.fields &&
         sid == config.contents.fields[SessionKey])
  {
  }

  /** With a truthy argument the config file makes no difference. */
  lemma ExplicitSessionIgnoresConfig(arg: string, c1: ConfigFile, c2: ConfigFile)
    requires arg != ""
    ensures ResolveSession(Some(arg), c1) == ResolveSession(Some(arg), c2) == JStr(arg)
  {
  }

  /** `configure_mcprun`: the given id, or the demo id when none (or an empty one) is given. */
  function ConfigureMcpRun(sessionId: Option<string>): (r: string)
    ensures r != ""
    ensures sessionId.Some? && sessionId.value != "" ==> r == sessionId.value
    ensures sessionId.None? || sessionId.value == "" ==> r == DemoSessionId
  {
    StrOr(sessionId, DemoSessionId)
  }

  lemma ConfigureMcpRunIdempotent(sessionId: Option<string>)
    ensures ConfigureMcpRun(Some(ConfigureMcpRun(sessionId))) == ConfigureMcpRun(sessionId)
  {
  }

  /** A client built from a configured id always has that session, whatever the config file holds. */
  lemma ConfiguredClientHasSession(sessionId: Option<string>, config: ConfigFile)
    ensures ResolveSession(Some(ConfigureMcpRun(sessionId)), config) == JStr(ConfigureMcpRun(sessionId))
    ensures Truthy(ResolveSession(Some(ConfigureMcpRun(sessionId)), config))
  {
  }

  /** The list path; `sid` is the session as the f-string renders it. */
  function ToolsUrl(base: string, sid: string): string {
    base + "/session/" + sid + "/tools"
  }

  /** The tool-run path; `sid` is the session as the f-string renders it. */
  function ToolRunUrl(base: string, sid: string, toolName: string): string {
    base + "/session/" + sid + "/tool/" + toolName + "/run"
  }

  /** The `error` text of a non-200 reply to a tool run. */
  function StatusErrorMessage(status: nat, text: string): string {
    StatusErrorPrefix + NatToString(status) + " - " + text
  }

  /** The leading run of digits of `s`, and the rest. */
  function SplitDigits(s: string): (r: (string, string))
    ensures AllDigits(r.0) && r.0 + r.1 == s
    ensures r.1 == [] || !IsDigit(r.1[0])
  {
    if s != [] && IsDigit(s[0]) then
      var (d, rest) := SplitDigits(s[1..]);
      assert s == [s[0]] + s[1..];
      ([s[0]] + d, rest)
    else ([], s)
  }

  lemma {:induction false} SplitDigitsOfDigits(d: string, rest: string)
    requires AllDigits(d)
    requires rest == [] || !IsDigit(rest[0])
    ensures SplitDigits(d + rest) == (d, rest)
  {
    if d != [] {
      assert (d + rest)[1..] == d[1..] + rest;
      SplitDigitsOfDigits(d[1..], rest);
      assert [d[0]] + d[1..] == d;
    } else {
      assert d + rest == rest;
    }
  }

  /** Reads a status code and a response text back out of an `error` text. */
  function ParseStatusError(message: string): Option<(nat, string)> {
    var n := |StatusErrorPrefix|;
    if |message| < n || message[..n] != StatusErrorPrefix then None
    else
      var (digits, rest) := SplitDigits(message[n..]);
      if digits == [] || |rest| < 3 || rest[..3] != " - " then None
      else Some((DigitsValue(digits), rest[3..]))
  }

  /** The `error` text of a non-200 reply carries both the status code and the response text, so
      that each can be recovered from it. */
  lemma StatusErrorRoundTrip(status: nat, text: string)
    ensures ParseStatusError(StatusErrorMessage(status, text)) == Some((status, text))
  {
    var digits := NatToString(status);
    var rest := " - " + text;
    var message := StatusErrorMessage(status, text);
    var n := |StatusErrorPrefix|;
    assert message == StatusErrorPrefix + (digits + rest);
    assert message[..n] == StatusErrorPrefix;
    assert message[n..] == digits + rest;
    SplitDigitsOfDigits(digits, rest);
    assert rest[..3] == " - " && rest[3..] == text;
    DigitsValueOfNatToString(status);
  }

  /** A common prefix cancels. */
  lemma CancelPrefix(h: string, x: string, y: string)
    requires h + x == h + y
    ensures x == y
  {
    assert x == (h + x)[|h|..];
    assert y == (h + y)[|h|..];
  }

  /** The '/' after a shorter `a` falls inside a longer `b`. */
  lemma SlashAfter(a: string, x: string, b: string, y: string)
    requires |a| < |b|
    requires a + "/" + x == b + "/" + y
    ensures '/' in b
  {
    assert (a + "/" + x)[|a|] == '/';
    assert (b + "/" + y)[|a|] == b[|a|];
  }

  /** If `a` and `b` hold no '/', `a + "/" + x` determines `a` and `x`. */
  lemma SplitAtFirstSlash(a: string, x: string, b: string, y: string)
    requires '/' !in a && '/' !in b
    requires a + "/" + x == b + "/" + y
    ensures a == b && x == y
  {
    var u := a + "/" + x;
    if |a| < |b| {
      SlashAfter(a, x, b, y);
      assert false;
    } else if |b| < |a| {
      SlashAfter(b, y, a, x);
      assert false;
    } else {
      assert a == u[..|a|] == b;
      assert x == u[|a| + 1..] == y;
    }
  }

  /** The tool-run path names the session and the tool unambiguously as long as neither holds a
      '/'; nothing is escaped, so with a '/' two different pairs can share a path
      (ToolRunUrlCollision). */
  lemma ToolRunUrlInjective(base: string, s1: string, t1: string, s2: string, t2: string)
    requires '/' !in s1 && '/' !in s2 && '/' !in t1 && '/' !in t2
    requires ToolRunUrl(base, s1, t1) == ToolRunUrl(base, s2, t2)
    ensures s1 == s2 && t1 == t2
  {
    var head := base + "/session/";
    assert ToolRunUrl(base, s1, t1) == head + (s1 + "/" + ("tool/" + (t1 + "/" + "run")));
    assert ToolRunUrl(base, s2, t2) == head + (s2 + "/" + ("tool/" + (t2 + "/" + "run")));
    CancelPrefix(head, s1 + "/" + ("tool/" + (t1 + "/" + "run")), s2 + "/" + ("tool/" + (t2 + "/" + "run")));
    SplitAtFirstSlash(s1, "tool/" + (t1 + "/" + "run"), s2, "tool/" + (t2 + "/" + "run"));
    CancelPrefix("tool/", t1 + "/" + "run", t2 + "/" + "run");
    SplitAtFirstSlash(t1, "run", t2, "run");
  }

  lemma ToolRunUrlCollision()
    ensures ToolRunUrl("b", "x/tool/y", "z") == ToolRunUrl("b", "x", "y/tool/z")
  {
  }

  /** The list path and a tool-run path never coincide, whatever the sessions and the tool name:
      one ends in "tools", the other in "run". */
  lemma ToolsUrlDiffersFromToolRunUrl(base: string, s1: string, s2: string, toolName: string)
    ensures ToolsUrl(base, s1) != ToolRunUrl(base, s2, toolName)
  {
    var u, v := ToolsUrl(base, s1), ToolRunUrl(base, s2, toolName);
    assert u[|u| - 1] == 's';
    assert v[|v| - 1] == 'n';
  }

  class McpRunClient {
    /** The resolved session id; set by the constructor only. */
    var sessionId: Json
    var apiBaseUrl: string

    constructor (sessionIdArg: Option<string>, config: ConfigFile, apiBaseUrl: string := DefaultApiBaseUrl)
      ensures this.sessionId == ResolveSession(sessionIdArg, config)
      ensures this.apiBaseUrl == apiBaseUrl
    {
      this.sessionId := ExplicitSession(sessionIdArg);
      this.apiBaseUrl := apiBaseUrl;
      new;
      if !Truthy(this.sessionId) {
        // The config file is consulted on this path only. A missing file is skipped; a read error,
        // a parse error, or a document without `.get` raises and is caught, leaving the id as is.
        match config
        case Loaded(JObj(fields)) =>
          this.sessionId := Get(fields, SessionKey, JNull);
        case _ =>
      }
    }

    /** `get_tools`. Listing absorbs every failure: without a session it issues no request, and any
        outcome but a 200 dict body yields []. It never returns an error record of its own. */
    function GetTools(outcome: HttpOutcome): (r: Reply)
      reads this
      ensures !Truthy(sessionId) ==> r.sent == None && r.value == JArr([])
      ensures Truthy(sessionId) ==> r.sent == Some(HttpGet(ToolsUrl(apiBaseUrl, PyStr(sessionId))))
      ensures Truthy(sessionId) && Payload(outcome).Some? ==>
        r.value == Get(Payload(outcome).value, "tools", JArr([]))
      ensures Payload(outcome).None? ==> r.value == JArr([])
    {
      if !Truthy(sessionId) then Reply(None, JArr([]))
      else
        var request := HttpGet(ToolsUrl(apiBaseUrl, PyStr(sessionId)));
        match outcome
        case TransportFailure(_) => Reply(Some(request), JArr([]))
        case Response(status, _, body) =>
          if status != 200 then Reply(Some(request), JArr([]))
          else match body
            case WellFormed(JObj(fields)) => Reply(Some(request), Get(fields, "tools", JArr([])))
            case _ => Reply(Some(request), JArr([]))
    }

    /** `run_tool`. Invoking surfaces every failure as a record: without a session it issues no
        request and returns the fixed error record; a non-200 response gives `error` (embedding
        status and text) and `raw_output`; an exception gives `error` alone. */
    function RunTool(toolName: string, outcome: HttpOutcome, params: Json := JNull): (r: Reply)
      reads this
      ensures !Truthy(sessionId) ==> r.sent == None && r.value == ErrorRecord(NoSessionMessage)
      ensures Truthy(sessionId) ==>
        r.sent == Some(HttpPost(ToolRunUrl(apiBaseUrl, PyStr(sessionId), toolName),
                                JObj(map["params" := if params.JNull? then JObj(map[]) else params])))
      ensures Truthy(sessionId) && Payload(outcome).Some? ==>
        r.value == Get(Payload(outcome).value, "result", JObj(map[]))
      ensures Truthy(sessionId) && outcome.Response? && outcome.status != 200 ==>
        r.value.JObj? && r.value.fields.Keys == {"error", "raw_output"} &&
        r.value.fields["error"] == JStr(StatusErrorMessage(outcome.status, outcome.text)) &&
        r.value.fields["raw_output"] == JStr(outcome.text)
      ensures Truthy(sessionId) && Raised(outcome).Some? ==>
        r.value == ErrorRecord(ExceptionPrefix + Raised(outcome).value)
    {
      if !Truthy(sessionId) then Reply(None, ErrorRecord(NoSessionMessage))
      else
        // `params is None`, whether passed or defaulted, becomes `{}`.
        var sentParams := if params.JNull? then JObj(map[]) else params;
        var request := HttpPost(ToolRunUrl(apiBaseUrl, PyStr(sessionId), toolName), JObj(map["params" := sentParams]));
        match outcome
        case TransportFailure(message) => Reply(Some(request), ErrorRecord(ExceptionPrefix + message))
        case Response(status, text, body) =>
          if status == 200 then
            match body
            case Malformed(reason) => Reply(Some(request), ErrorRecord(ExceptionPrefix + reason))
            case WellFormed(JObj(fields)) => Reply(Some(request), Get(fields, "result", JObj(map[])))
            case WellFormed(other) => Reply(Some(request), ErrorRecord(ExceptionPrefix + NoGetMessage(other)))
          else
            Reply(Some(request), JObj(map["error" := JStr(StatusErrorMessage(status, text)), "raw_output" := JStr(text)]))
    }
  }

  /** The list/invoke asymmetry: on every outcome that is not a 200 dict body (and with no session
      at all), listing yields [] while invoking yields a record with an `error` key. */
  lemma ListAbsorbsInvokeSurfaces(client: McpRunClient, outcome: HttpOutcome, toolName: string, params: Json)
    requires !Truthy(client.sessionId) || Payload(outcome).None?
    ensures client.GetTools(outcome).value == JArr([])
    ensures var v := client.RunTool(toolName, outcome, params).value; v.JObj? && "error" in v.fields
  {
  }
}
