/** The prompt loader (main-app/app/prompts/__init__.py).

    The YAML files are a map from a file path to its parsed top-level mapping;
    `path not in storage` is `not prompt_path.exists()`. */
module Prompts {
  import opened Wrappers
  import opened Values
  import opened Text

  type Config = map<string, Value>

  type Storage = map<string, Config>

  datatype PromptError =
    | FileNotFound(path: string)
    | KeyError(key: string)
    | IndexError(field: string)
    | FormatError(message: string)
    | AttributeError(message: string)

  /** A loader bound to one prompts directory, fixed at construction. */
  datatype PromptLoader = PromptLoader(promptsDir: string)

  /** The name of the template `load_treatment_plan_prompt` uses. */
  const TreatmentPlanPrompt: string := "extract_treatment_plan"

  /** `self.prompts_dir / f"{prompt_name}.yaml"`. */
  function PromptPath(loader: PromptLoader, name: string): string {
    loader.promptsDir + "/" + name + ".yaml"
  }

  /** `load_prompt`: FileNotFoundError exactly when the file is missing. */
  function LoadPrompt(loader: PromptLoader, storage: Storage, name: string): (r: Result<Config, PromptError>)
    ensures r.Err? <==> PromptPath(loader, name) !in storage
    ensures r.Err? ==> r.error == FileNotFound(PromptPath(loader, name))
    ensures r.Ok? ==> r.value == storage[PromptPath(loader, name)]
  {
    var path := PromptPath(loader, name);
    if path !in storage then Err(FileNotFound(path)) else Ok(storage[path])
  }

  // ----------------------------------------------------------- str.format

  predicate NoBraces(s: string) {
    forall i :: 0 <= i < |s| ==> s[i] != '{' && s[i] != '}'
  }

  predicate AllDigits(s: string) {
    forall i :: 0 <= i < |s| ==> IsDigit(s[i])
  }

  /** Index of the first brace (`{` or `}`) in `t` at or after `from`, or -1:
      where a replacement field's name ends. */
  function FieldEnd(t: string, from: nat): (i: int)
    ensures i == -1 || (from <= i < |t| && (t[i] == '{' || t[i] == '}'))
    ensures forall j :: from <= j < |t| && (i == -1 || j < i) ==> t[j] != '{' && t[j] != '}'
    decreases |t| - from
  {
    if from >= |t| then -1
    else if t[from] == '{' || t[from] == '}' then from
    else FieldEnd(t, from + 1)
  }

  function Prepend(s: string, r: Result<string, PromptError>): Result<string, PromptError> {
    match r
    case Ok(v) => Ok(s + v)
    case Err(e) => Err(e)
  }

  /** `template.format(**kwargs)` for plain replacement fields: `{{` and `}}`
      are literal braces, `{name}` is `kwargs[name]` (KeyError when absent,
      IndexError for a positional field), and an unmatched brace is a
      ValueError. The field name runs to the first brace: a `{` there is
      "unexpected '{' in field name", no brace at all "expected '}' before
      end of string". */
  function Format(t: string, kwargs: map<string, string>): (r: Result<string, PromptError>)
    ensures r.Err? ==> !NoBraces(t)
    ensures r.Err? ==> r.error.KeyError? || r.error.IndexError? || r.error.FormatError?
    ensures r.Err? && r.error.KeyError? ==> r.error.key !in kwargs
    ensures r.Err? && r.error.IndexError? ==> r.error.field == "" || AllDigits(r.error.field)
    decreases |t|
  {
    if t == [] then Ok("")
    else if t[0] == '{' then
      if |t| >= 2 && t[1] == '{' then Prepend("{", Format(t[2..], kwargs))
      else if |t| == 1 then Err(FormatError("Single '{' encountered in format string"))
      else
        var close := FieldEnd(t, 1);
        if close < 0 then Err(FormatError("expected '}' before end of string"))
        else if t[close] == '{' then Err(FormatError("unexpected '{' in field name"))
        else
          var name := t[1..close];
          if name == "" || AllDigits(name) then Err(IndexError(name))
          else if name !in kwargs then Err(KeyError(name))
          else Prepend(kwargs[name], Format(t[close + 1..], kwargs))
    else if t[0] == '}' then
      if |t| >= 2 && t[1] == '}' then Prepend("}", Format(t[2..], kwargs))
      else Err(FormatError("Single '}' encountered in format string"))
    else Prepend([t[0]], Format(t[1..], kwargs))
  }

  /** A template without braces formats to itself. */
  lemma {:induction false} FormatLiteral(s: string, kwargs: map<string, string>)
    requires NoBraces(s)
    ensures Format(s, kwargs) == Ok(s)
    decreases |s|
  {
    if s != [] {
      FormatLiteral(s[1..], kwargs);
      assert [s[0]] + s[1..] == s;
    }
  }

  /** Literal text before the fields is copied through. */
  lemma {:induction false} FormatLiteralPrefix(pre: string, rest: string, kwargs: map<string, string>)
    requires NoBraces(pre)
    ensures Format(pre + rest, kwargs) == Prepend(pre, Format(rest, kwargs))
    decreases |pre|
  {
    if pre != [] {
      assert (pre + rest)[0] == pre[0] && (pre + rest)[1..] == pre[1..] + rest;
      FormatLiteralPrefix(pre[1..], rest, kwargs);
      assert [pre[0]] + pre[1..] == pre;
      match Format(rest, kwargs)
      case Ok(v) => assert [pre[0]] + (pre[1..] + v) == pre + v;
      case Err(e) =>
    } else {
      assert pre + rest == rest;
      match Format(rest, kwargs)
      case Ok(v) => assert "" + v == v;
      case Err(e) =>
    }
  }

  /** A template whose only replacement field is `{name}` formats to the
      template with that field replaced by the value, which then appears
      between the literal parts exactly as given. */
  lemma {:induction false} FormatSingleSlot(pre: string, name: string, post: string, value: string)
    requires NoBraces(pre) && NoBraces(post) && NoBraces(name)
    requires name != "" && !AllDigits(name)
    ensures Format(pre + "{" + name + "}" + post, map[name := value]) == Ok(pre + value + post)
  {
    var kwargs := map[name := value];
    var field := "{" + name + "}" + post;
    assert pre + "{" + name + "}" + post == pre + field;
    FormatLiteralPrefix(pre, field, kwargs);
    FormatField(name, post, kwargs);
    FormatLiteral(post, kwargs);
    assert pre + (value + post) == pre + value + post;
  }

  /** A leading field `{name}` is replaced by its value and formatting
      goes on after the closing brace. */
  lemma FormatField(name: string, post: string, kwargs: map<string, string>)
    requires NoBraces(name) && name != "" && !AllDigits(name) && name in kwargs
    ensures Format("{" + name + "}" + post, kwargs) == Prepend(kwargs[name], Format(post, kwargs))
  {
    var field := "{" + name + "}" + post;
    assert field[0] == '{' && field[1] == name[0];
    assert FieldEnd(field, 1) == |name| + 1 by {
      assert field[|name| + 1] == '}';
      forall j | 1 <= j <= |name| ensures field[j] != '{' && field[j] != '}' {
        assert field[j] == name[j - 1];
      }
      FieldEndIs(field, 1, |name| + 1);
    }
    assert field[1..|name| + 1] == name;
    assert field[|name| + 2..] == post;
  }

  lemma {:induction false} FieldEndIs(t: string, from: nat, at: nat)
    requires from <= at < |t| && (t[at] == '{' || t[at] == '}')
    requires forall j :: from <= j < at ==> t[j] != '{' && t[j] != '}'
    ensures FieldEnd(t, from) == at
    decreases at - from
  {
    if from < at {
      FieldEndIs(t, from + 1, at);
    }
  }

  lemma {:induction false} FieldEndNone(t: string, from: nat)
    requires forall j :: from <= j < |t| ==> t[j] != '{' && t[j] != '}'
    ensures FieldEnd(t, from) == -1
    decreases |t| - from
  {
    if from < |t| {
      FieldEndNone(t, from + 1);
    }
  }

  /** A field name ends at the first brace: a `{` there is "unexpected '{'
      in field name" whatever follows, and a field that never meets a brace
      is "expected '}' before end of string" (`{{` is an escape instead). */
  lemma FieldNameErrors(name: string, rest: string, kwargs: map<string, string>)
    requires NoBraces(name) && name != ""
    ensures Format("{" + name + "{" + rest, kwargs) == Err(FormatError("unexpected '{' in field name"))
    ensures Format("{" + name, kwargs) == Err(FormatError("expected '}' before end of string"))
  {
    var t := "{" + name + "{" + rest;
    assert t[0] == '{' && t[1] == name[0] && t[|name| + 1] == '{';
    forall j | 1 <= j < |name| + 1 ensures t[j] != '{' && t[j] != '}' {
      assert t[j] == name[j - 1];
    }
    FieldEndIs(t, 1, |name| + 1);
    var u := "{" + name;
    assert u[0] == '{' && u[1] == name[0];
    forall j | 1 <= j < |u| ensures u[j] != '{' && u[j] != '}' {
      assert u[j] == name[j - 1];
    }
    FieldEndNone(u, 1);
  }

  // ------------------------------------------------------------- getters

  /** `format_user_prompt`: the stored template, `''` without one, formatted
      with `kwargs`; a non-string template has no `format` (AttributeError). */
  function FormatUserPrompt(loader: PromptLoader, storage: Storage, name: string, kwargs: map<string, string>)
    : (r: Result<string, PromptError>)
    ensures r.Err? && r.error.FileNotFound? <==> PromptPath(loader, name) !in storage
    ensures r.Err? && r.error.AttributeError? <==>
      (&& PromptPath(loader, name) in storage
       && "user_prompt_template" in storage[PromptPath(loader, name)]
       && !storage[PromptPath(loader, name)]["user_prompt_template"].VStr?)
    ensures r.Err? && r.error.KeyError? ==> r.error.key !in kwargs
  {
    match LoadPrompt(loader, storage, name)
    case Err(e) => Err(e)
    case Ok(config) =>
      var template := DictGet(config, "user_prompt_template", VStr(""));
      if !template.VStr? then Err(AttributeError("object has no attribute 'format'"))
      else Format(template.s, kwargs)
  }

  /** The getter shape: load the config afresh, then `config.get(key, default)`. */
  function GetWithDefault(loader: PromptLoader, storage: Storage, name: string, key: string, default: Value)
    : (r: Result<Value, PromptError>)
    ensures r.Err? <==> PromptPath(loader, name) !in storage
    ensures r.Err? ==> r.error == FileNotFound(PromptPath(loader, name))
  {
    match LoadPrompt(loader, storage, name)
    case Err(e) => Err(e)
    case Ok(config) => Ok(DictGet(config, key, default))
  }

  function GetSystemPrompt(loader: PromptLoader, storage: Storage, name: string): (r: Result<Value, PromptError>)
    ensures r.Err? <==> PromptPath(loader, name) !in storage
    ensures r.Err? ==> r.error == FileNotFound(PromptPath(loader, name))
  {
    GetWithDefault(loader, storage, name, "system_prompt", VStr(""))
  }

  function GetResponseSchema(loader: PromptLoader, storage: Storage, name: string): (r: Result<Value, PromptError>)
    ensures r.Err? <==> PromptPath(loader, name) !in storage
    ensures r.Err? ==> r.error == FileNotFound(PromptPath(loader, name))
  {
    GetWithDefault(loader, storage, name, "response_schema", VDict(map[]))
  }

  function GetLlmParameters(loader: PromptLoader, storage: Storage, name: string): (r: Result<Value, PromptError>)
    ensures r.Err? <==> PromptPath(loader, name) !in storage
    ensures r.Err? ==> r.error == FileNotFound(PromptPath(loader, name))
  {
    GetWithDefault(loader, storage, name, "llm_parameters", VDict(map[]))
  }

  function GetExamples(loader: PromptLoader, storage: Storage, name: string): (r: Result<Value, PromptError>)
    ensures r.Err? <==> PromptPath(loader, name) !in storage
    ensures r.Err? ==> r.error == FileNotFound(PromptPath(loader, name))
  {
    GetWithDefault(loader, storage, name, "examples", VList([]))
  }

  /** Each getter returns the stored value, or `''`, `{}`, `{}` and `[]`
      respectively when its key is absent. */
  lemma GetterDefaults(loader: PromptLoader, storage: Storage, name: string)
    requires PromptPath(loader, name) in storage
    ensures var c := storage[PromptPath(loader, name)];
      && GetSystemPrompt(loader, storage, name) == Ok(if "system_prompt" in c then c["system_prompt"] else VStr(""))
      && GetResponseSchema(loader, storage, name) == Ok(if "response_schema" in c then c["response_schema"] else VDict(map[]))
      && GetLlmParameters(loader, storage, name) == Ok(if "llm_parameters" in c then c["llm_parameters"] else VDict(map[]))
      && GetExamples(loader, storage, name) == Ok(if "examples" in c then c["examples"] else VList([]))
  {
  }

  /** Without a `user_prompt_template` key the user prompt is `''`. */
  lemma MissingTemplateFormatsEmpty(loader: PromptLoader, storage: Storage, name: string, kwargs: map<string, string>)
    requires PromptPath(loader, name) in storage
    requires "user_prompt_template" !in storage[PromptPath(loader, name)]
    ensures FormatUserPrompt(loader, storage, name, kwargs) == Ok("")
  {
  }

  /** An unknown prompt name fails with FileNotFoundError in every getter,
      before any substitution. */
  lemma UnknownPromptFails(loader: PromptLoader, storage: Storage, name: string, kwargs: map<string, string>)
    requires PromptPath(loader, name) !in storage
    ensures var e := FileNotFound(PromptPath(loader, name));
      && FormatUserPrompt(loader, storage, name, kwargs) == Err(e)
      && GetSystemPrompt(loader, storage, name) == Err(e)
      && GetResponseSchema(loader, storage, name) == Err(e)
      && GetLlmParameters(loader, storage, name) == Err(e)
      && GetExamples(loader, storage, name) == Err(e)
  {
  }

  /** `load_treatment_plan_prompt`: system prompt, user prompt and LLM
      parameters of 'extract_treatment_plan', in that order; the first failure
      is raised. */
  function LoadTreatmentPlanPrompt(loader: PromptLoader, storage: Storage, text: string)
    : (r: Result<(Value, string, Value), PromptError>)
    ensures r.Ok? ==>
      && GetSystemPrompt(loader, storage, TreatmentPlanPrompt) == Ok(r.value.0)
      && FormatUserPrompt(loader, storage, TreatmentPlanPrompt, map["treatment_plan_text" := text]) == Ok(r.value.1)
      && GetLlmParameters(loader, storage, TreatmentPlanPrompt) == Ok(r.value.2)
    ensures PromptPath(loader, TreatmentPlanPrompt) !in storage ==>
      r == Err(FileNotFound(PromptPath(loader, TreatmentPlanPrompt)))
    ensures r.Ok? <==>
      && GetSystemPrompt(loader, storage, TreatmentPlanPrompt).Ok?
      && FormatUserPrompt(loader, storage, TreatmentPlanPrompt, map["treatment_plan_text" := text]).Ok?
      && GetLlmParameters(loader, storage, TreatmentPlanPrompt).Ok?
    ensures
      (&& PromptPath(loader, TreatmentPlanPrompt) in storage
       && FormatUserPrompt(loader, storage, TreatmentPlanPrompt, map["treatment_plan_text" := text]).Err?) ==>
      r == Err(FormatUserPrompt(loader, storage, TreatmentPlanPrompt, map["treatment_plan_text" := text]).error)
  {
    match GetSystemPrompt(loader, storage, TreatmentPlanPrompt)
    case Err(e) => Err(e)
    case Ok(system) =>
      match FormatUserPrompt(loader, storage, TreatmentPlanPrompt, map["treatment_plan_text" := text])
      case Err(e) => Err(e)
      case Ok(user) =>
        match GetLlmParameters(loader, storage, TreatmentPlanPrompt)
        case Err(e) => Err(e)
        case Ok(params) => Ok((system, user, params))
  }

  /** With a template whose one field is `{treatment_plan_text}`, the user
      prompt is the template with the plan text in place of the field. */
  lemma TreatmentPlanPromptRendersText(loader: PromptLoader, storage: Storage, text: string,
                                       system: string, pre: string, post: string)
    requires PromptPath(loader, TreatmentPlanPrompt) in storage
    requires var c := storage[PromptPath(loader, TreatmentPlanPrompt)];
      && "system_prompt" in c && c["system_prompt"] == VStr(system)
      && "user_prompt_template" in c && c["user_prompt_template"] == VStr(pre + "{treatment_plan_text}" + post)
    requires NoBraces(pre) && NoBraces(post)
    ensures LoadTreatmentPlanPrompt(loader, storage, text).Ok?
    ensures LoadTreatmentPlanPrompt(loader, storage, text).value.0 == VStr(system)
    ensures LoadTreatmentPlanPrompt(loader, storage, text).value.1 == pre + text + post
  {
    var name := "treatment_plan_text";
    assert pre + "{treatment_plan_text}" + post == pre + "{" + name + "}" + post;
    PlainFieldName(name);
    FormatSingleSlot(pre, name, post, text);
    assert FormatUserPrompt(loader, storage, TreatmentPlanPrompt, map[name := text]) == Ok(pre + text + post);
  }

  /** A name of lower-case letters and underscores is a plain keyword field. */
  lemma PlainFieldName(name: string)
    requires name != [] && forall i :: 0 <= i < |name| ==> 'a' <= name[i] <= 'z' || name[i] == '_'
    ensures NoBraces(name) && !AllDigits(name)
  {
    assert !IsDigit(name[0]);
  }
}
