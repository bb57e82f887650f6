/**
 Rendering of training samples: the plain renderer, and the second renderer that also
 returns the prompt part for masking.
 */
module SftFormat {
  import opened Options
  import opened Texts

  /** A Python value as far as rendering looks into it; `repr` is what `str` makes of the rest. */
  datatype Value =
    | Null
    | Str(s: string)
    | Scalar(repr: string, truthy: bool)
    | List(items: seq<Value>, repr: string)
    | Dict(entries: map<string, Value>, repr: string)

  type Mapping = map<string, Value>

  datatype Msg = Msg(role: string, content: string)

  /** A tokenizer as rendering sees it: its template call may fail. */
  datatype Tokenizer = Tokenizer(hasApply: bool, hasTemplate: bool, nameOrPath: string,
                                 apply: (seq<Msg>, bool) -> Option<string>)

  /** What surrounds one rendering: the tokenizer, the request and the Modelfile renderer. */
  datatype Env = Env(tokenizer: Option<Tokenizer>, request: Mapping, modelfile: (Mapping, Mapping) -> string)

  function StrOf(v: Value): (r: string)
    ensures v.Null? ==> r == "None"
    ensures v.Str? ==> r == v.s
    ensures !v.Null? && !v.Str? ==> r == v.repr
  {
    match v
    case Null => "None"
    case Str(s) => s
    case Scalar(r, _) => r
    case List(_, r) => r
    case Dict(_, r) => r
  }

  /** False are None, the empty string, list and mapping, and false scalars. */
  predicate Truthy(v: Value)
    ensures !Truthy(v) <==>
            || v in {Null, Str("")} || (v.Scalar? && !v.truthy)
            || (v.List? && v.items == []) || (v.Dict? && v.entries == map[])
  {
    match v
    case Null => false
    case Str(s) => s != ""
    case Scalar(_, t) => t
    case List(items, _) => items != []
    case Dict(entries, _) => |entries| > 0
  }

  function Get(m: Mapping, key: string, default: Value): Value {
    if key in m then m[key] else default
  }

  // ---- String helpers ----

  /** The characters that `str.strip` removes. */
  predicate IsSpace(c: char) {
    var n := c as int;
    9 <= n <= 13 || 28 <= n <= 32 || n == 0x85 || n == 0xa0 || n == 0x1680 || 0x2000 <= n <= 0x200a
    || n == 0x2028 || n == 0x2029 || n == 0x202f || n == 0x205f || n == 0x3000
  }

  function Strip(s: string): string {
    if s == "" then s
    else if IsSpace(s[0]) then Strip(s[1..])
    else if IsSpace(s[|s| - 1]) then Strip(s[..|s| - 1])
    else s
  }

  /** Every letter A to Z in lower case, everything else as it is. */
  function Lower(s: string): (r: string)
    ensures |r| == |s|
    ensures forall i :: 0 <= i < |s| ==> !('A' <= r[i] <= 'Z') && (r[i] == s[i] || r[i] as int == s[i] as int + 32)
  {
    seq(|s|, i requires 0 <= i < |s| => if 'A' <= s[i] <= 'Z' then s[i] - 'A' + 'a' else s[i])
  }

  // ---- Samples as messages ----

  function PromptField(sample: Mapping): Value {
    Get(sample, "prompt", Get(sample, "instruction", Get(sample, "input", Str(""))))
  }

  function ResponseField(sample: Mapping): Value {
    Get(sample, "response", Get(sample, "output", Get(sample, "completion", Str(""))))
  }

  function SystemField(sample: Mapping): Value {
    Get(sample, "system", Null)
  }

  function RoleOf(m: Mapping): string {
    var role := Strip(StrOf(Get(m, "role", Str("user"))));
    if role == "" then "user" else role
  }

  function Turns(items: seq<Value>): seq<Msg> {
    if items == [] then []
    else
      var m := items[|items| - 1];
      Turns(items[..|items| - 1]) + (if m.Dict? then [TurnOf(m.entries)] else [])
  }

  function TurnOf(m: Mapping): Msg {
    Msg(RoleOf(m), StrOf(Get(m, "content", Get(m, "text", Str("")))))
  }

  function MessagesOf(sample: Mapping): seq<Msg> {
    var listed := Get(sample, "messages", Null);
    if listed.List? && listed.items != [] then Turns(listed.items)
    else (if Truthy(SystemField(sample)) then [Msg("system", StrOf(SystemField(sample)))] else [])
         + [Msg("user", StrOf(PromptField(sample))), Msg("assistant", StrOf(ResponseField(sample)))]
  }

  method AsMessages(sample: Mapping) returns (out: seq<Msg>)
    ensures out == MessagesOf(sample)
  {
    out := [];
    var listed := Get(sample, "messages", Null);
    if listed.List? && listed.items != [] {
      for i := 0 to |listed.items|
        invariant out == Turns(listed.items[..i])
      {
        assert listed.items[..i + 1][..i] == listed.items[..i];
        var m := listed.items[i];
        if !m.Dict? {
          continue;
        }
        var role := Strip(StrOf(Get(m.entries, "role", Str("user"))));
        if role == "" {
          role := "user";
        }
        var content := Get(m.entries, "content", Get(m.entries, "text", Str("")));
        out := out + [Msg(role, StrOf(content))];
      }
      assert listed.items[..|listed.items|] == listed.items;
      return;
    }
    var system := SystemField(sample);
    if Truthy(system) {
      out := out + [Msg("system", StrOf(system))];
    }
    out := out + [Msg("user", StrOf(PromptField(sample)))];
    out := out + [Msg("assistant", StrOf(ResponseField(sample)))];
  }

  // ---- The texts of the layouts ----

  const CHATML_ROLES := {"system", "user", "assistant", "tool"}

  function ChatmlHeader(role: string): string {
    "<|im_start|>" + role + "\n"
  }

  function ChatmlPart(m: Msg): string {
    ChatmlHeader(if m.role in CHATML_ROLES then m.role else "user") + m.content + "<|im_end|>"
  }

  function ChatmlParts(msgs: seq<Msg>): (r: seq<string>)
    ensures |r| == |msgs|
    ensures forall i :: 0 <= i < |r| ==> r[i] == ChatmlPart(msgs[i])
  {
    seq(|msgs|, i requires 0 <= i < |msgs| => ChatmlPart(msgs[i]))
  }

  function Llama3Header(role: string): string {
    "<|start_header_id|>" + role + "<|end_header_id|>\n\n"
  }

  function Llama3Role(role: string): string {
    if role == "system" then "system" else if role == "assistant" then "assistant" else "user"
  }

  function Llama3Part(m: Msg): string {
    Llama3Header(Llama3Role(m.role)) + m.content + "<|eot_id|>"
  }

  const BEGIN := "<|begin_of_text|>"

  function Llama3Turns(msgs: seq<Msg>): (r: seq<string>)
    ensures |r| == |msgs|
    ensures forall i :: 0 <= i < |r| ==> r[i] == Llama3Part(msgs[i])
  {
    seq(|msgs|, i requires 0 <= i < |msgs| => Llama3Part(msgs[i]))
  }

  function Llama3Parts(msgs: seq<Msg>): seq<string> {
    [BEGIN] + Llama3Turns(msgs)
  }

  /** Everything of the legacy layout up to the response. */
  function AlpacaHead(sample: Mapping): string {
    if Truthy(SystemField(sample))
    then "### System:\n" + StrOf(SystemField(sample)) + "\n\n"
         + "### Instruction:\n" + StrOf(PromptField(sample)) + "\n\n"
         + "### Response:\n"
    else "### Instruction:\n" + StrOf(PromptField(sample)) + "\n\n### Response:\n"
  }

  /** A tokenizer renders only with a template call and a template, and then as the call gives. */
  function HfText(t: Option<Tokenizer>, msgs: seq<Msg>, generate: bool): (r: Option<string>)
    ensures r.Some? ==> t.Some? && t.value.hasApply && t.value.hasTemplate && r == t.value.apply(msgs, generate)
    ensures r.None? && t.Some? && t.value.hasApply && t.value.hasTemplate ==> t.value.apply(msgs, generate) == None
  {
    if t.Some? && t.value.hasApply && t.value.hasTemplate then t.value.apply(msgs, generate) else None
  }

  // ---- The mode ----

  /** The rendering modes by name; any other name is rendered as ChatML and never split. */
  datatype Mode = Auto | Alpaca | Chatml | Llama3 | Hf | Modelfile | OtherMode(name: string)

  /** The format the request asks for. */
  function Requested(request: Mapping): string {
    Lower(Strip(StrOf(Get(request, "format", Get(request, "chat_format", Str("auto"))))))
  }

  const ALPACA_NAMES := {"alpaca", "instruct", "legacy"}
  const CHATML_NAMES := {"chatml", "qwen", "qwen2", "qwen3"}
  const LLAMA3_NAMES := {"llama3", "llama-3", "llama"}
  const HF_NAMES := {"hf", "tokenizer", "chat_template"}
  const MODELFILE_NAMES := {"modelfile", "gotmpl", "go", "ollama-template", "template"}

  /** The format of that name. */
  function FormatNamed(raw: string): Option<Mode> {
    if raw in ALPACA_NAMES then Some(Alpaca)
    else if raw in CHATML_NAMES then Some(Chatml)
    else if raw in LLAMA3_NAMES then Some(Llama3)
    else if raw in HF_NAMES then Some(Hf)
    else if raw in MODELFILE_NAMES then Some(Modelfile)
    else None
  }

  lemma EachNameNamesItsFormat()
    ensures forall raw :: raw in ["alpaca", "instruct", "legacy"] ==> FormatNamed(raw) == Some(Alpaca)
    ensures forall raw :: raw in ["chatml", "qwen", "qwen2", "qwen3"] ==> FormatNamed(raw) == Some(Chatml)
    ensures forall raw :: raw in ["llama3", "llama-3", "llama"] ==> FormatNamed(raw) == Some(Llama3)
    ensures forall raw :: raw in ["hf", "tokenizer", "chat_template"] ==> FormatNamed(raw) == Some(Hf)
    ensures forall raw :: raw in ["modelfile", "gotmpl", "go", "ollama-template", "template"] ==>
                            FormatNamed(raw) == Some(Modelfile)
  {
  }

  predicate Named(raw: string) {
    FormatNamed(raw).Some?
  }

  predicate HasTemplate(t: Option<Tokenizer>) {
    t.Some? && t.value.hasTemplate
  }

  /** The names of tokenizer and model, which an unnamed format is guessed from. */
  function Blob(env: Env): string {
    (if env.tokenizer.Some? then Lower(env.tokenizer.value.nameOrPath) else "")
    + " " + Lower(StrOf(Get(env.request, "model_name", Str(""))))
  }

  predicate ChatmlLike(blob: string)
    ensures ChatmlLike(blob) <==> exists w :: w in {"qwen", "chatml", "yi-", "internlm"} && Contains(blob, w)
  {
    Contains(blob, "qwen") || Contains(blob, "chatml") || Contains(blob, "yi-") || Contains(blob, "internlm")
  }

  predicate Llama3Like(blob: string)
    ensures Llama3Like(blob) <==> exists w :: w in {"llama-3", "llama3"} && Contains(blob, w)
  {
    Contains(blob, "llama-3") || Contains(blob, "llama3")
  }

  /** A named format is the one of that name; an unnamed one is the tokenizer's template when
      there is one, else Llama 3 when the names look like it and not like ChatML, else ChatML. */
  function ResolveFormatMode(env: Env): (mode: Mode)
    ensures !mode.Auto? && !mode.OtherMode?
    ensures var named := FormatNamed(Requested(env.request));
            if named.Some? then mode == named.value
            else && (mode.Hf? <==> env.tokenizer.Some? && env.tokenizer.value.hasTemplate)
                 && (mode.Llama3? <==> !mode.Hf? && Llama3Like(Blob(env)) && !ChatmlLike(Blob(env)))
                 && (mode.Hf? || mode.Llama3? || mode.Chatml?)
  {
    var named := FormatNamed(Requested(env.request));
    if named.Some? then named.value
    else if HasTemplate(env.tokenizer) then Hf
    else
      var blob := Blob(env);
      if ChatmlLike(blob) then Chatml
      else if Llama3Like(blob) then Llama3
      else Chatml
  }

  /** The rule that the source documents: a format of that name; else the tokenizer's template,
      else ChatML for ChatML-like names, else the legacy layout. */
  function DocumentedMode(env: Env): Mode {
    var named := FormatNamed(Requested(env.request));
    if named.Some? then named.value
    else if HasTemplate(env.tokenizer) then Hf
    else if ChatmlLike(Blob(env)) then Chatml
    else Alpaca
  }

  /** The code keeps to the documented rule exactly when the format is named, or the tokenizer has
      a template, or the names look like ChatML: it never falls back to the legacy layout. */
  lemma DocumentedExactlyWhen(env: Env)
    ensures ResolveFormatMode(env) == DocumentedMode(env) <==>
            Named(Requested(env.request)) || HasTemplate(env.tokenizer) || ChatmlLike(Blob(env))
  {
  }

  /** The documented fallback fails on the empty request without a tokenizer. */
  lemma EmptyRequestIsChatml(env: Env)
    requires env.tokenizer == None && env.request == map[]
    ensures ResolveFormatMode(env) == Chatml && DocumentedMode(env) == Alpaca
  {
    var raw := Requested(env.request);
    assert Strip("auto") == "auto";
    assert |raw| == 4 && raw[0] == 'a';
    assert !Named(raw);
    assert |Blob(env)| == 1;
  }

  function Effective(mode: Mode, env: Env): Mode {
    if mode.Auto? then ResolveFormatMode(env) else mode
  }

  /** The text of the plain renderer. */
  function PlainText(sample: Mapping, mode: Mode, env: Env): string {
    var m := Effective(mode, env);
    var msgs := MessagesOf(sample);
    var chatml := Join(ChatmlParts(msgs), "\n");
    if m.Alpaca? then AlpacaHead(sample) + StrOf(ResponseField(sample))
    else if m.Llama3? then Concat(Llama3Parts(msgs))
    else if m.Modelfile? then env.modelfile(sample, env.request)
    else if m.Hf? then
      var text := HfText(env.tokenizer, msgs, false);
      if text.Some? then text.value else chatml
    else chatml
  }

  // ---- The plain renderer ----

  method FormatAlpaca(sample: Mapping) returns (text: string)
    ensures text == AlpacaHead(sample) + StrOf(ResponseField(sample))
  {
    var prompt, response, system := PromptField(sample), ResponseField(sample), SystemField(sample);
    if Truthy(system) {
      text := "### System:\n" + StrOf(system) + "\n\n"
      + "### Instruction:\n" + StrOf(prompt) + "\n\n"
      + "### Response:\n" + StrOf(response);
    } else {
      text := "### Instruction:\n" + StrOf(prompt) + "\n\n### Response:\n" + StrOf(response);
    }
  }

  method FormatChatml(sample: Mapping) returns (text: string)
    ensures text == Join(ChatmlParts(MessagesOf(sample)), "\n")
  {
    var parts: seq<string> := [];
    var msgs := AsMessages(sample);
    for i := 0 to |msgs|
      invariant parts == ChatmlParts(msgs)[..i]
    {
      var role := msgs[i].role;
      if role !in CHATML_ROLES {
        role := "user";
      }
      parts := parts + [ChatmlHeader(role) + msgs[i].content + "<|im_end|>"];
    }
    assert parts == ChatmlParts(msgs);
    text := Join(parts, "\n");
  }

  method HeaderRole(role: string) returns (hdr: string)
    ensures hdr == Llama3Role(role)
  {
    if role == "system" {
      hdr := "system";
    } else if role == "assistant" {
      hdr := "assistant";
    } else {
      hdr := "user";
    }
  }

  method FormatLlama3(sample: Mapping) returns (text: string)
    ensures text == Concat(Llama3Parts(MessagesOf(sample)))
  {
    var parts: seq<string> := [BEGIN];
    var msgs := AsMessages(sample);
    for i := 0 to |msgs|
      invariant parts == [BEGIN] + Llama3Turns(msgs)[..i]
    {
      var hdr := HeaderRole(msgs[i].role);
      parts := parts + [Llama3Header(hdr) + msgs[i].content + "<|eot_id|>"];
    }
    assert parts == Llama3Parts(msgs);
    text := Concat(parts);
  }

  method FormatSftSample(sample: Mapping, mode: Mode, env: Env) returns (text: string)
    ensures text == PlainText(sample, mode, env)
  {
    var m := Effective(mode, env);
    if m.Alpaca? {
      text := FormatAlpaca(sample);
    } else if m.Chatml? {
      text := FormatChatml(sample);
    } else if m.Llama3? {
      text := FormatLlama3(sample);
    } else if m.Modelfile? {
      text := env.modelfile(sample, env.request);
    } else if m.Hf? {
      var msgs := AsMessages(sample);
      var rendered := HfText(env.tokenizer, msgs, false);
      if rendered.Some? {
        text := rendered.value;
      } else {
        text := FormatChatml(sample);
      }
    } else {
      text := FormatChatml(sample);
    }
  }

  // ---- The masking renderer ----

  predicate EndsWithAssistant(msgs: seq<Msg>) {
    msgs != [] && msgs[|msgs| - 1].role == "assistant"
  }

  /** `full` is the prompt, then the reply that is trained on, then the turn's end mark. */
  predicate Splits(prompt: string, full: string, reply: string, end: string) {
    full == prompt + reply + end
  }

  /** Whether the template's prompt rendering can be used as a prefix of the full text. */
  predicate TemplateSplits(env: Env, msgs: seq<Msg>, full: string)
    requires msgs != []
  {
    var p := HfText(env.tokenizer, msgs[..|msgs| - 1], true);
    p.Some? && p.value <= full
  }

  /** What follows the prompt is exactly the last assistant reply with its end mark; where the
      mode cannot be split the prompt is the whole text. */
  predicate PromptOf(prompt: string, full: string, sample: Mapping, m: Mode, env: Env) {
    var msgs := MessagesOf(sample);
    var n := |msgs| - 1;
    var reply := msgs != [] && msgs[n].role == "assistant";
    if m.Alpaca? then Splits(prompt, full, StrOf(ResponseField(sample)), "")
    else if m.Chatml? && reply then Splits(prompt, full, msgs[n].content, "<|im_end|>")
    else if m.Llama3? && reply then Splits(prompt, full, msgs[n].content, "<|eot_id|>")
    else if m.Hf? && reply && TemplateSplits(env, msgs, full)
    then prompt == HfText(env.tokenizer, msgs[..n], true).value
    else prompt == full
  }

  predicate IsPrompt(prompt: string, sample: Mapping, mode: Mode, env: Env) {
    PromptOf(prompt, PlainText(sample, mode, env), sample, Effective(mode, env), env)
  }

  lemma SplitsOnce(p: string, q: string, full: string, reply: string, end: string)
    requires Splits(p, full, reply, end) && Splits(q, full, reply, end)
    ensures p == q && p <= full
  {
    assert |p| == |full| - |reply| - |end| == |q|;
    assert p == full[..|p|] && q == full[..|q|];
  }

  /** The condition leaves one prompt only, and it is a prefix. */
  lemma PromptIsUnique(p: string, q: string, sample: Mapping, mode: Mode, env: Env)
    requires IsPrompt(p, sample, mode, env) && IsPrompt(q, sample, mode, env)
    ensures p == q && p <= PlainText(sample, mode, env)
  {
    var m, msgs, full := Effective(mode, env), MessagesOf(sample), PlainText(sample, mode, env);
    if m.Alpaca? {
      SplitsOnce(p, q, full, StrOf(ResponseField(sample)), "");
    } else if m.Chatml? && EndsWithAssistant(msgs) {
      SplitsOnce(p, q, full, msgs[|msgs| - 1].content, "<|im_end|>");
    } else if m.Llama3? && EndsWithAssistant(msgs) {
      SplitsOnce(p, q, full, msgs[|msgs| - 1].content, "<|eot_id|>");
    }
  }

  method FormatSftPromptAndFull(sample: Mapping, mode: Mode, env: Env) returns (prompt: string, full: string)
    ensures full == PlainText(sample, mode, env)
    ensures prompt <= full && IsPrompt(prompt, sample, mode, env)
  {
    var m := Effective(mode, env);
    full := FormatSftSample(sample, m, env);
    ghost var plain := full;
    if m.Hf? {
      prompt := SplitHf(sample, env, full);
    } else if m.Chatml? {
      prompt, full := SplitChatml(sample, full);
    } else if m.Llama3? {
      prompt, full := SplitLlama3(sample, full);
    } else if m.Alpaca? {
      prompt, full := SplitAlpaca(sample);
    } else {
      prompt := full;
    }
    assert full == plain && PromptOf(prompt, full, sample, m, env);
  }

  method SplitHf(sample: Mapping, env: Env, full: string) returns (prompt: string)
    ensures prompt <= full && PromptOf(prompt, full, sample, Hf, env)
  {
    var msgs := AsMessages(sample);
    if env.tokenizer.Some? && EndsWithAssistant(msgs) {
      var p := HfText(env.tokenizer, msgs[..|msgs| - 1], true);
      if p.Some? && p.value <= full {
        return p.value;
      }
    }
    return full;
  }

  method SplitAlpaca(sample: Mapping) returns (prompt: string, full: string)
    ensures full == AlpacaHead(sample) + StrOf(ResponseField(sample)) && prompt <= full
    ensures Splits(prompt, full, StrOf(ResponseField(sample)), "")
  {
    var body, response, system := PromptField(sample), ResponseField(sample), SystemField(sample);
    if Truthy(system) {
      prompt := "### System:\n" + StrOf(system) + "\n\n"
      + "### Instruction:\n" + StrOf(body) + "\n\n"
      + "### Response:\n";
    } else {
      prompt := "### Instruction:\n" + StrOf(body) + "\n\n### Response:\n";
    }
    full := prompt + StrOf(response);
    assert full + "" == full;
  }

  method PromptChatml(before: seq<Msg>) returns (prompt: string)
    ensures prompt == (if before == [] then "" else Join(ChatmlParts(before), "\n") + "\n") + ChatmlHeader("assistant")
  {
    var parts: seq<string> := [];
    for i := 0 to |before|
      invariant parts == ChatmlParts(before)[..i]
    {
      var role := if before[i].role in {"system", "user", "assistant", "tool"} then before[i].role else "user";
      parts := parts + [ChatmlHeader(role) + before[i].content + "<|im_end|>"];
    }
    assert parts == ChatmlParts(before);
    prompt := Join(parts, "\n");
    JoinedIsEmpty(before);
    if prompt != "" {
      prompt := prompt + "\n" + ChatmlHeader("assistant");
    } else {
      prompt := ChatmlHeader("assistant");
    }
  }

  method SplitChatml(sample: Mapping, plain: string) returns (prompt: string, full: string)
    requires plain == Join(ChatmlParts(MessagesOf(sample)), "\n")
    ensures full == plain && prompt <= full
    ensures var msgs := MessagesOf(sample);
            if EndsWithAssistant(msgs) then Splits(prompt, full, msgs[|msgs| - 1].content, "<|im_end|>")
            else prompt == full
  {
    var msgs := AsMessages(sample);
    if EndsWithAssistant(msgs) {
      var n := |msgs| - 1;
      prompt := PromptChatml(msgs[..n]);
      full := prompt + msgs[n].content + "<|im_end|>";
      ChatmlLast(msgs);
    } else {
      prompt, full := plain, plain;
    }
  }

  /** The lines joined are empty only when there are none. */
  lemma JoinedIsEmpty(msgs: seq<Msg>)
    ensures Join(ChatmlParts(msgs), "\n") == "" <==> msgs == []
  {
    var parts := ChatmlParts(msgs);
    if msgs != [] {
      assert parts[|parts| - 1] == ChatmlPart(msgs[|msgs| - 1]);
    }
  }

  lemma ChatmlLast(msgs: seq<Msg>)
    requires EndsWithAssistant(msgs)
    ensures var n := |msgs| - 1;
            var head := (if n == 0 then "" else Join(ChatmlParts(msgs[..n]), "\n") + "\n") + ChatmlHeader("assistant");
            Join(ChatmlParts(msgs), "\n") == head + msgs[n].content + "<|im_end|>"
  {
    var n := |msgs| - 1;
    var parts := ChatmlParts(msgs);
    assert parts[..n] == ChatmlParts(msgs[..n]);
    AssistantPart(msgs[n]);
    if n > 0 {
      Regroup(Join(parts[..n], "\n") + "\n", ChatmlHeader("assistant"), msgs[n].content, "<|im_end|>");
    } else {
      assert "" + ChatmlHeader("assistant") == ChatmlHeader("assistant");
    }
  }

  lemma AssistantPart(m: Msg)
    requires m.role == "assistant"
    ensures ChatmlPart(m) == ChatmlHeader("assistant") + m.content + "<|im_end|>"
    ensures Llama3Part(m) == Llama3Header("assistant") + m.content + "<|eot_id|>"
  {
    assert "assistant" in CHATML_ROLES;
  }

  lemma Regroup(a: string, b: string, c: string, d: string)
    ensures a + (b + c + d) == a + b + c + d
  {
  }

  method PromptLlama3(before: seq<Msg>) returns (prompt: string)
    ensures prompt == Concat(Llama3Parts(before)) + Llama3Header("assistant")
  {
    var parts: seq<string> := [BEGIN];
    for i := 0 to |before|
      invariant parts == [BEGIN] + Llama3Turns(before)[..i]
    {
      var role := Llama3Role(before[i].role);
      parts := parts + [Llama3Header(role) + before[i].content + "<|eot_id|>"];
    }
    assert parts == Llama3Parts(before);
    var all := parts + [Llama3Header("assistant")];
    assert all[..|all| - 1] == parts;
    prompt := Concat(all);
  }

  method SplitLlama3(sample: Mapping, plain: string) returns (prompt: string, full: string)
    requires plain == Concat(Llama3Parts(MessagesOf(sample)))
    ensures full == plain && prompt <= full
    ensures var msgs := MessagesOf(sample);
            if EndsWithAssistant(msgs) then Splits(prompt, full, msgs[|msgs| - 1].content, "<|eot_id|>")
            else prompt == full
  {
    var msgs := AsMessages(sample);
    if EndsWithAssistant(msgs) {
      var n := |msgs| - 1;
      prompt := PromptLlama3(msgs[..n]);
      full := prompt + msgs[n].content + "<|eot_id|>";
      Llama3Last(msgs);
    } else {
      prompt, full := plain, plain;
    }
  }

  lemma Llama3Last(msgs: seq<Msg>)
    requires EndsWithAssistant(msgs)
    ensures var n := |msgs| - 1;
            var head := Concat(Llama3Parts(msgs[..n])) + Llama3Header("assistant");
            Concat(Llama3Parts(msgs)) == head + msgs[n].content + "<|eot_id|>"
  {
    var n := |msgs| - 1;
    var parts := Llama3Parts(msgs);
    assert parts[..n + 1] == Llama3Parts(msgs[..n]);
    assert parts[n + 1] == Llama3Turns(msgs)[n] == Llama3Part(msgs[n]);
    AssistantPart(msgs[n]);
    Regroup(Concat(parts[..n + 1]), Llama3Header("assistant"), msgs[n].content, "<|eot_id|>");
  }
}
