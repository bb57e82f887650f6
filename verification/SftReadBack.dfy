/**
 Reading rendered samples back. The readers know the layouts by their marks only; what they
 return is what was rendered, wherever no text holds the mark that ends it.
 */
module SftReadBack {
  import opened Options
  import opened Texts
  import opened SftFormat

  // ---- One turn ----

  /** A role and a content between marks, and what follows them. */
  function ReadTurn(text: string, start: string, header: string, gap: string, end: string): (r: Option<(Msg, string)>)
    requires header != "" && end != ""
    ensures r.Some? ==> |r.value.1| < |text|
  {
    var turn := Drop(text, start);
    if turn.None? then None
    else
      var role := Cut(turn.value, header);
      if role.None? then None
      else
        var body := Drop(role.value.1, gap);
        if body.None? then None
        else
          var content := Cut(body.value, end);
          if content.None? then None else Some((Msg(role.value.0, content.value.0), content.value.1))
  }

  lemma TurnReadsBack(start: string, m: Msg, header: string, gap: string, end: string, rest: string)
    requires IsMark(header) && IsMark(end) && !Contains(m.role, header) && !Contains(m.content, end)
    ensures ReadTurn(start + m.role + (header + gap) + m.content + end + rest, start, header, gap, end)
         == Some((m, rest))
  {
    var body := m.content + end + rest;
    var turn := m.role + header + (gap + body);
    assert start + m.role + (header + gap) + m.content + end + rest == start + turn;
    DropFirst(start, turn);
    CutFirst(m.role, header, gap + body);
    DropFirst(gap, body);
    CutFirst(m.content, end, rest);
  }

  ghost predicate NoneHolds(msgs: seq<Msg>, mark: string) {
    forall i :: 0 <= i < |msgs| ==> !Contains(msgs[i].content, mark)
  }

  function MapTurns(msgs: seq<Msg>, show: Msg -> Msg): (r: seq<Msg>)
    ensures |r| == |msgs| && forall i :: 0 <= i < |r| ==> r[i] == show(msgs[i])
  {
    seq(|msgs|, i requires 0 <= i < |msgs| => show(msgs[i]))
  }

  lemma MapCons(m: Msg, more: seq<Msg>, show: Msg -> Msg)
    ensures MapTurns([m] + more, show) == [show(m)] + MapTurns(more, show)
  {
  }

  // ---- ChatML ----

  /** The turn at the front of a ChatML text. */
  function ReadChatmlTurn(text: string): (r: Option<(Msg, string)>)
    ensures r.Some? ==> |r.value.1| < |text|
  {
    ReadTurn(text, "<|im_start|>", "\n", "", "<|im_end|>")
  }

  /** Turns with a newline between neighbours. */
  function ReadChatml(text: string): Option<seq<Msg>>
    decreases |text|
  {
    if text == "" then Some([])
    else
      var turn := ReadChatmlTurn(text);
      if turn.None? then None
      else if turn.value.1 == "" then Some([turn.value.0])
      else if turn.value.1[0] != '\n' then None
      else
        var more := ReadChatml(turn.value.1[1..]);
        if more.Some? then Some([turn.value.0] + more.value) else None
  }

  /** A turn as ChatML shows it: a role it does not know becomes the user. */
  function InChatml(m: Msg): Msg {
    Msg(if m.role == "system" || m.role == "assistant" || m.role == "tool" then m.role else "user", m.content)
  }

  lemma NoNewline(role: string)
    requires '\n' !in role
    ensures !Contains(role, "\n")
  {
    forall i | 0 <= i <= |role| - 1 ensures role[i..][..1] != "\n" {
      assert role[i..][..1][0] == role[i];
    }
  }

  lemma ChatmlRole(m: Msg)
    ensures '\n' !in InChatml(m).role
    ensures InChatml(m).role == if m.role in CHATML_ROLES then m.role else "user"
  {
  }

  lemma ChatmlTurnReadsBack(m: Msg, rest: string)
    requires !Contains(m.content, "<|im_end|>")
    ensures ReadChatmlTurn(ChatmlPart(m) + rest) == Some((InChatml(m), rest))
  {
    ChatmlRole(m);
    NoNewline(InChatml(m).role);
    TurnReadsBack("<|im_start|>", InChatml(m), "\n", "", "<|im_end|>", rest);
    assert "\n" + "" == "\n";
  }

  lemma {:induction false} ChatmlReadsBack(msgs: seq<Msg>)
    requires NoneHolds(msgs, "<|im_end|>")
    ensures ReadChatml(Join(ChatmlParts(msgs), "\n")) == Some(MapTurns(msgs, InChatml))
  {
    if msgs != [] {
      var m, more := msgs[0], msgs[1..];
      assert msgs == [m] + more && ChatmlParts(msgs) == [ChatmlPart(m)] + ChatmlParts(more);
      assert forall i :: 0 <= i < |more| ==> more[i] == msgs[i + 1];
      MapCons(m, more, InChatml);
      if more == [] {
        LastChatmlTurn(m);
        assert [InChatml(m)] + MapTurns(more, InChatml) == [InChatml(m)];
      } else {
        JoinCons(ChatmlPart(m), ChatmlParts(more), "\n");
        ChatmlReadsBack(more);
        FirstChatmlTurn(m, Join(ChatmlParts(more), "\n"));
      }
    }
  }

  lemma LastChatmlTurn(m: Msg)
    requires !Contains(m.content, "<|im_end|>")
    ensures Join([ChatmlPart(m)] + ChatmlParts([]), "\n") == ChatmlPart(m)
    ensures ReadChatml(ChatmlPart(m)) == Some([InChatml(m)])
  {
    var part := ChatmlPart(m);
    assert [part] + ChatmlParts([]) == [part] && part + "" == part;
    ChatmlTurnReadsBack(m, "");
    PartNotEmpty(m);
  }

  lemma PartNotEmpty(m: Msg)
    ensures ChatmlPart(m) != ""
  {
  }

  lemma FirstChatmlTurn(m: Msg, rest: string)
    requires !Contains(m.content, "<|im_end|>")
    ensures var more := ReadChatml(rest);
            ReadChatml(ChatmlPart(m) + "\n" + rest) ==
            if more.Some? then Some([InChatml(m)] + more.value) else None
  {
    var after := "\n" + rest;
    assert ChatmlPart(m) + "\n" + rest == ChatmlPart(m) + after;
    ChatmlTurnReadsBack(m, after);
    PartNotEmpty(m);
    assert after[0] == '\n' && after[1..] == rest;
  }

  // ---- Llama 3 ----

  function ReadLlama3Turn(text: string): (r: Option<(Msg, string)>)
    ensures r.Some? ==> |r.value.1| < |text|
  {
    ReadTurn(text, "<|start_header_id|>", "<|end_header_id|>", "\n\n", "<|eot_id|>")
  }

  function ReadLlama3Turns(text: string): Option<seq<Msg>>
    decreases |text|
  {
    if text == "" then Some([])
    else
      var turn := ReadLlama3Turn(text);
      if turn.None? then None
      else
        var more := ReadLlama3Turns(turn.value.1);
        if more.Some? then Some([turn.value.0] + more.value) else None
  }

  function ReadLlama3(text: string): Option<seq<Msg>> {
    var turns := Drop(text, "<|begin_of_text|>");
    if turns.Some? then ReadLlama3Turns(turns.value) else None
  }

  /** A turn as Llama 3 shows it: every role but system and assistant becomes the user. */
  function InLlama3(m: Msg): Msg {
    Msg(if m.role == "system" || m.role == "assistant" then m.role else "user", m.content)
  }

  lemma HeaderEnd()
    ensures "<|end_header_id|>\n\n" == "<|end_header_id|>" + "\n\n"
    ensures IsMark("<|end_header_id|>")
  {
  }

  lemma Llama3RoleShown(m: Msg)
    ensures InLlama3(m).role == Llama3Role(m.role) && |Llama3Role(m.role)| <= 9
  {
  }

  lemma Llama3TurnReadsBack(m: Msg, rest: string)
    requires !Contains(m.content, "<|eot_id|>")
    ensures Llama3Part(m) != ""
    ensures ReadLlama3Turn(Llama3Part(m) + rest) == Some((InLlama3(m), rest))
  {
    HeaderEnd();
    Llama3RoleShown(m);
    TurnReadsBack("<|start_header_id|>", InLlama3(m), "<|end_header_id|>", "\n\n", "<|eot_id|>", rest);
  }

  lemma {:induction false} Llama3TurnsReadBack(msgs: seq<Msg>)
    requires NoneHolds(msgs, "<|eot_id|>")
    ensures ReadLlama3Turns(Concat(Llama3Turns(msgs))) == Some(MapTurns(msgs, InLlama3))
  {
    if msgs != [] {
      var m, more := msgs[0], msgs[1..];
      assert msgs == [m] + more && Llama3Turns(msgs) == [Llama3Part(m)] + Llama3Turns(more);
      assert forall i :: 0 <= i < |more| ==> more[i] == msgs[i + 1];
      MapCons(m, more, InLlama3);
      ConcatCons(Llama3Part(m), Llama3Turns(more));
      Llama3TurnsReadBack(more);
      FirstLlama3Turn(m, Concat(Llama3Turns(more)));
    }
  }

  lemma FirstLlama3Turn(m: Msg, rest: string)
    requires !Contains(m.content, "<|eot_id|>")
    ensures var more := ReadLlama3Turns(rest);
            ReadLlama3Turns(Llama3Part(m) + rest) ==
            if more.Some? then Some([InLlama3(m)] + more.value) else None
  {
    Llama3TurnReadsBack(m, rest);
  }

  lemma Llama3ReadsBack(msgs: seq<Msg>)
    requires NoneHolds(msgs, "<|eot_id|>")
    ensures ReadLlama3(Concat(Llama3Parts(msgs))) == Some(MapTurns(msgs, InLlama3))
  {
    ConcatCons("<|begin_of_text|>", Llama3Turns(msgs));
    DropFirst("<|begin_of_text|>", Concat(Llama3Turns(msgs)));
    Llama3TurnsReadBack(msgs);
  }

  // ---- The legacy layout ----

  datatype Fields = Fields(system: Option<string>, prompt: string, response: string)

  /** A prompt up to a mark, a newline, and a response. */
  function ReadBody(system: Option<string>, text: string, mark: string): Option<Fields>
    requires mark != ""
  {
    var prompt := Cut(text, mark);
    if prompt.None? then None
    else
      var response := Drop(prompt.value.1, "\n");
      if response.None? then None else Some(Fields(system, prompt.value.0, response.value))
  }

  function ReadAlpaca(text: string): Option<Fields> {
    var withSystem := Drop(text, "### System:\n");
    if withSystem.None? then
      var body := Drop(text, "### Instruction:\n");
      if body.None? then None else ReadBody(None, body.value, "\n\n### Response:")
    else
      var system := Cut(withSystem.value, "\n\n### Instruction:");
      if system.None? then None
      else
        var body := Drop(system.value.1, "\n");
        if body.None? then None else ReadBody(Some(system.value.0), body.value, "\n\n### Response:")
  }

  lemma BodyReadsBack(system: Option<string>, prompt: string, mark: string, response: string)
    requires IsMark(mark) && !Contains(prompt, mark)
    ensures ReadBody(system, prompt + mark + ("\n" + response), mark) == Some(Fields(system, prompt, response))
  {
    CutFirst(prompt, mark, "\n" + response);
    DropFirst("\n", response);
  }

  lemma AlpacaMarks()
    ensures IsMark("\n\n### Instruction:") && IsMark("\n\n### Response:")
    ensures "\n\n" + "### Instruction:\n" == "\n\n### Instruction:" + "\n"
    ensures "\n\n" + "### Response:\n" == "\n\n### Response:" + "\n"
    ensures "\n\n### Response:\n" == "\n\n### Response:" + "\n"
  {
  }

  lemma Regroup7(a: string, s: string, b1: string, c1: string, p: string, b2: string, c2: string, r: string,
                 m1: string, m2: string, nl: string)
    requires b1 + c1 == m1 + nl && b2 + c2 == m2 + nl
    ensures (a + s + b1 + c1 + p + b2 + c2) + r == a + (s + m1 + (nl + (p + m2 + (nl + r))))
  {
    assert (a + s + b1 + c1 + p + b2 + c2) + r == a + (s + ((b1 + c1) + (p + ((b2 + c2) + r))));
    assert s + ((m1 + nl) + (p + ((m2 + nl) + r))) == s + m1 + (nl + (p + m2 + (nl + r)));
  }

  lemma WithSystemReadsBack(text: string, s: string, p: string, r: string)
    requires !Contains(s, "\n\n### Instruction:") && !Contains(p, "\n\n### Response:")
    requires text == "### System:\n" + (s + "\n\n### Instruction:" + ("\n" + (p + "\n\n### Response:" + ("\n" + r))))
    ensures ReadAlpaca(text) == Some(Fields(Some(s), p, r))
  {
    var body := p + "\n\n### Response:" + ("\n" + r);
    AlpacaMarks();
    DropFirst("### System:\n", s + "\n\n### Instruction:" + ("\n" + body));
    CutFirst(s, "\n\n### Instruction:", "\n" + body);
    DropFirst("\n", body);
    BodyReadsBack(Some(s), p, "\n\n### Response:", r);
  }

  lemma NotSystem(rest: string)
    ensures Drop("### Instruction:\n" + rest, "### System:\n") == None
  {
    var text := "### Instruction:\n" + rest;
    assert text[4] == 'I' && "### System:\n"[4] == 'S';
  }

  lemma WithoutSystemReadsBack(p: string, r: string)
    requires !Contains(p, "\n\n### Response:")
    ensures ReadAlpaca("### Instruction:\n" + (p + "\n\n### Response:" + ("\n" + r))) == Some(Fields(None, p, r))
  {
    var body := p + "\n\n### Response:" + ("\n" + r);
    AlpacaMarks();
    NotSystem(body);
    DropFirst("### Instruction:\n", body);
    BodyReadsBack(None, p, "\n\n### Response:", r);
  }

  /** The fields of a sample as texts; a system field that is false counts as none. */
  function FieldsOf(sample: Mapping): Fields {
    var system := FirstOf(sample, ["system"], Null);
    Fields(if Truthy(system) then Some(StrOf(system)) else None,
           StrOf(FirstOf(sample, ["prompt", "instruction", "input"], Str(""))),
           StrOf(FirstOf(sample, ["response", "output", "completion"], Str(""))))
  }

  lemma AlpacaReadsBack(sample: Mapping)
    requires ClearFields(FieldsOf(sample))
    ensures ReadAlpaca(AlpacaHead(sample) + StrOf(ResponseField(sample))) == Some(FieldsOf(sample))
  {
    FieldsAreFirst(sample);
    var f := FieldsOf(sample);
    AlpacaMarks();
    if f.system.Some? {
      Regroup7("### System:\n", f.system.value, "\n\n", "### Instruction:\n", f.prompt, "\n\n", "### Response:\n",
               f.response, "\n\n### Instruction:", "\n\n### Response:", "\n");
      WithSystemReadsBack(AlpacaHead(sample) + f.response, f.system.value, f.prompt, f.response);
    } else {
      RegroupBody("### Instruction:\n", f.prompt, "\n\n### Response:", "\n", f.response);
      WithoutSystemReadsBack(f.prompt, f.response);
    }
  }

  lemma RegroupBody(a: string, p: string, m: string, nl: string, r: string)
    ensures a + p + (m + nl) + r == a + (p + m + (nl + r))
  {
  }

  /** The tokenizer renders the messages as this text, with a template of its own. */
  predicate RendersAs(t: Option<Tokenizer>, msgs: seq<Msg>, text: string) {
    t.Some? && t.value.hasApply && t.value.hasTemplate && t.value.apply(msgs, false) == Some(text)
  }

  /** No field holds the mark that ends it. */
  ghost predicate ClearFields(f: Fields) {
    !Contains(f.prompt, "\n\n### Response:") && (f.system.Some? ==> !Contains(f.system.value, "\n\n### Instruction:"))
  }

  /** A ChatML text of the messages. */
  ghost predicate IsChatml(text: string, msgs: seq<Msg>) {
    NoneHolds(msgs, "<|im_end|>") ==> ReadChatml(text) == Some(MapTurns(msgs, InChatml))
  }

  /** The rendered text of a sample in each mode: the template's or the Modelfile's own text, else
      a text that reads back as the messages, or the fields, of the sample. */
  lemma RenderedReadsBack(sample: Mapping, mode: Mode, env: Env)
    ensures var m := if mode.Auto? then ResolveFormatMode(env) else mode;
            var text, msgs := PlainText(sample, mode, env), MessagesOf(sample);
            && (m.Alpaca? && ClearFields(FieldsOf(sample)) ==> ReadAlpaca(text) == Some(FieldsOf(sample)))
            && (m.Llama3? && NoneHolds(msgs, "<|eot_id|>") ==> ReadLlama3(text) == Some(MapTurns(msgs, InLlama3)))
            && (m.Modelfile? ==> text == env.modelfile(sample, env.request))
            && (m.Hf? ==> RendersAs(env.tokenizer, msgs, text)
                          || (IsChatml(text, msgs) && forall other :: !RendersAs(env.tokenizer, msgs, other)))
            && (m.Chatml? || m.OtherMode? ==> IsChatml(text, msgs))
  {
    var m := if mode.Auto? then ResolveFormatMode(env) else mode;
    var msgs := MessagesOf(sample);
    if m.Alpaca? {
      if ClearFields(FieldsOf(sample)) {
        AlpacaReadsBack(sample);
      }
    } else if m.Llama3? {
      if NoneHolds(msgs, "<|eot_id|>") {
        Llama3ReadsBack(msgs);
      }
    } else {
      ChatmlIsChatml(msgs);
    }
  }

  lemma ChatmlIsChatml(msgs: seq<Msg>)
    ensures IsChatml(Join(ChatmlParts(msgs), "\n"), msgs)
  {
    if NoneHolds(msgs, "<|im_end|>") {
      ChatmlReadsBack(msgs);
    }
  }

  // ---- The fields of a sample ----

  /** The value of the first key present. */
  function FirstOf(m: Mapping, keys: seq<string>, default: Value): Value {
    if keys == [] then default
    else if keys[0] in m then m[keys[0]]
    else FirstOf(m, keys[1..], default)
  }

  lemma FirstOfThree(m: Mapping, a: string, b: string, c: string, default: Value)
    ensures FirstOf(m, [a, b, c], default) == Get(m, a, Get(m, b, Get(m, c, default)))
  {
    assert [a, b, c][1..] == [b, c] && [b, c][1..] == [c] && [c][1..] == [];
    assert FirstOf(m, [c], default) == Get(m, c, default);
    assert FirstOf(m, [b, c], default) == Get(m, b, Get(m, c, default));
  }

  lemma FieldsAreFirst(sample: Mapping)
    ensures PromptField(sample) == FirstOf(sample, ["prompt", "instruction", "input"], Str(""))
    ensures ResponseField(sample) == FirstOf(sample, ["response", "output", "completion"], Str(""))
    ensures SystemField(sample) == FirstOf(sample, ["system"], Null)
  {
    FirstOfThree(sample, "prompt", "instruction", "input", Str(""));
    FirstOfThree(sample, "response", "output", "completion", Str(""));
  }

  /** The fields of a message, and its role without surrounding space. */
  lemma MessageFields(m: Mapping)
    ensures TurnOf(m).content == StrOf(FirstOf(m, ["content", "text"], Str("")))
    ensures var role := Strip(StrOf(FirstOf(m, ["role"], Str("user"))));
            TurnOf(m).role == if role == "" then "user" else role
  {
    assert ["content", "text"][1..] == ["text"] && ["text"][1..] == [];
    assert FirstOf(m, ["text"], Str("")) == Get(m, "text", Str(""));
  }

  /** The format asked for: the first of two fields, trimmed, in lower case. */
  lemma RequestedField(request: Mapping)
    ensures Requested(request) == Lower(Strip(StrOf(FirstOf(request, ["format", "chat_format"], Str("auto")))))
  {
    assert ["format", "chat_format"][1..] == ["chat_format"] && ["chat_format"][1..] == [];
    assert FirstOf(request, ["chat_format"], Str("auto")) == Get(request, "chat_format", Str("auto"));
  }

  lemma ContainsIn(a: string, w: string, b: string)
    ensures Contains(a + w + b, w)
  {
    assert (a + w + b)[|a|..][..|w|] == w;
  }

  lemma ContainsWider(a: string, s: string, b: string, w: string)
    requires Contains(s, w)
    ensures Contains(a + s + b, w)
  {
    var i :| 0 <= i <= |s| - |w| && s[i..][..|w|] == w;
    CutAt(s, w, i);
    assert a + s + b == (a + s[..i]) + w + (s[i + |w|..] + b);
    ContainsIn(a + s[..i], w, s[i + |w|..] + b);
  }

  lemma InsideOccurrence(s: string, w: string, i: nat, j: nat)
    requires i <= j < i + |w| <= |s| && s[i..][..|w|] == w
    ensures s[j] in w
  {
    assert w[j - i] == s[j];
  }

  /** An occurrence of a word without a space does not reach over the space. */
  lemma OnOneSide(a: string, b: string, w: string, i: nat)
    requires ' ' !in w && i + |w| <= |a + " " + b| && (a + " " + b)[i..][..|w|] == w
    ensures i + |w| <= |a| || i > |a|
  {
    var all := a + " " + b;
    assert all[|a|] == ' ';
    if i <= |a| < i + |w| {
      InsideOccurrence(all, w, i, |a|);
    }
  }

  lemma InOne(a: string, b: string, w: string, i: nat)
    requires ' ' !in w && i + |w| <= |a + " " + b| && (a + " " + b)[i..][..|w|] == w
    ensures Contains(a, w) || Contains(b, w)
  {
    OnOneSide(a, b, w, i);
    if i + |w| <= |a| {
      assert a[i..][..|w|] == w;
    } else {
      assert b[i - |a| - 1..][..|w|] == w;
    }
  }

  /** A word without a space lies in one of two texts with a space between exactly when it lies in
      one of them. */
  lemma InEither(a: string, b: string, w: string)
    requires w != "" && ' ' !in w
    ensures Contains(a + " " + b, w) <==> Contains(a, w) || Contains(b, w)
  {
    var all := a + " " + b;
    if Contains(a, w) {
      ContainsWider("", a, " " + b, w);
      assert "" + a + (" " + b) == all;
    }
    if Contains(b, w) {
      ContainsWider(a + " ", b, "", w);
      assert a + " " + b + "" == all;
    }
    if Contains(all, w) {
      var i :| 0 <= i <= |all| - |w| && all[i..][..|w|] == w;
      InOne(a, b, w, i);
    }
  }

  /** An unnamed format is guessed from the tokenizer's name and the model's name. */
  lemma NamesSearched(env: Env, w: string)
    requires w != "" && ' ' !in w
    ensures var model := Lower(StrOf(FirstOf(env.request, ["model_name"], Str(""))));
            Contains(Blob(env), w) <==>
            (env.tokenizer.Some? && Contains(Lower(env.tokenizer.value.nameOrPath), w)) || Contains(model, w)
  {
    var name := if env.tokenizer.Some? then Lower(env.tokenizer.value.nameOrPath) else "";
    InEither(name, Lower(StrOf(Get(env.request, "model_name", Str("")))), w);
    assert ["model_name"][1..] == [];
  }

  // ---- Surrounding space ----

  const SPACES := "\t\n\U{0B}\U{0C}\r\U{1C}\U{1D}\U{1E}\U{1F} \U{85}\U{A0}\U{1680}\U{2000}\U{2001}\U{2002}\U{2003}"
    + "\U{2004}\U{2005}\U{2006}\U{2007}\U{2008}\U{2009}\U{200A}\U{2028}\U{2029}\U{202F}\U{205F}\U{3000}"

  predicate AllSpace(s: string) {
    forall i :: 0 <= i < |s| ==> IsSpace(s[i])
  }

  /** `inner` is `s` without the space around it. */
  ghost predicate Trims(s: string, inner: string) {
    && (exists a, b :: AllSpace(a) && AllSpace(b) && s == a + inner + b)
    && (inner != "" ==> !IsSpace(inner[0]) && !IsSpace(inner[|inner| - 1]))
  }

  lemma TrimsLeft(c: char, s: string, inner: string)
    requires IsSpace(c) && Trims(s, inner)
    ensures Trims([c] + s, inner)
  {
    var a, b :| AllSpace(a) && AllSpace(b) && s == a + inner + b;
    assert AllSpace([c] + a) && [c] + s == ([c] + a) + inner + b;
  }

  lemma TrimsRight(c: char, s: string, inner: string)
    requires IsSpace(c) && Trims(s, inner)
    ensures Trims(s + [c], inner)
  {
    var a, b :| AllSpace(a) && AllSpace(b) && s == a + inner + b;
    assert AllSpace(b + [c]) && s + [c] == a + inner + (b + [c]);
  }

  lemma {:induction false} StripTrims(s: string)
    ensures Trims(s, Strip(s))
    decreases |s|
  {
    if s == "" {
      assert AllSpace("") && s == "" + "" + "";
    } else if IsSpace(s[0]) {
      assert s == [s[0]] + s[1..];
      StripTrims(s[1..]);
      TrimsLeft(s[0], s[1..], Strip(s));
    } else if IsSpace(s[|s| - 1]) {
      var n := |s| - 1;
      assert s == s[..n] + [s[n]];
      StripTrims(s[..n]);
      TrimsRight(s[n], s[..n], Strip(s));
    } else {
      assert AllSpace("") && s == "" + s + "";
    }
  }

  lemma SpaceIsListed(c: char)
    ensures IsSpace(c) <==> c in SPACES
  {
  }
}
