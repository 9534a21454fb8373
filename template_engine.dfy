/**
 * The prompt template engine (prompts/template_engine.py): `{{include:name}}`
 * directives are resolved recursively, at most ten levels deep, and then
 * every `{{key}}` placeholder is replaced by the variable's string form.
 * The profile directory is a map from file name to file text.
 */
module TemplateEngine {
  import opened Wrappers
  import opened Text
  import opened JsonValues

  /** The files a template can name: by name relative to the profile directory, or by absolute path. */
  type Files = map<string, string>

  const IncludeOpen := "{{include:"
  const DepthError := "Include depth exceeded 10 — possible circular reference"
  const MaxDepth := 10

  /** `os.path.join(base, name)` on POSIX: an absolute name replaces the base. */
  function PathJoin(base: string, name: string): string {
    if StartsWith(name, "/") then name
    else if base == [] || EndsWith(base, "/") then base + name
    else base + "/" + name
  }

  // ===========================================================================
  // Variable substitution

  /** The placeholder of a variable. */
  function Placeholder(key: string): (p: string)
    ensures |p| == |key| + 4 && StartsWith(p, "{{")
  {
    "{{" + key + "}}"
  }

  /** Every `{{key}}` replaced by `str(value)`, one key at a time in mapping order. */
  function Substitute(template: string, variables: Dict): string
    decreases |variables|
  {
    if variables == [] then template
    else Substitute(ReplaceAll(template, Placeholder(variables[0].0), PyStr(variables[0].1)), variables[1..])
  }

  /** `render_string`, and the substitution loop of `render`. */
  method RenderString(template: string, variables: Dict) returns (r: string)
    ensures r == Substitute(template, variables)
  {
    r := template;
    var i := 0;
    while i < |variables|
      invariant 0 <= i <= |variables|
      invariant Substitute(r, variables[i..]) == Substitute(template, variables)
    {
      assert variables[i..][1..] == variables[i + 1..];
      r := ReplaceAll(r, Placeholder(variables[i].0), PyStr(variables[i].1));
      i := i + 1;
    }
  }

  lemma OccursPrefix(s: string, a: string, b: string, i: int)
    requires OccursAt(s, a + b, i)
    ensures OccursAt(s, a, i)
  {
    assert s[i..i + |a|] == s[i..i + |a + b|][..|a|];
  }

  /** Text without "{{" has no placeholder, so no variable changes it. */
  lemma {:induction false} SubstituteNoBraces(template: string, variables: Dict)
    requires !Contains(template, "{{")
    ensures Substitute(template, variables) == template
    decreases |variables|
  {
    if variables != [] {
      var p := Placeholder(variables[0].0);
      ContainsIff(template, p);
      ContainsIff(template, "{{");
      if Contains(template, p) {
        var i :| OccursAt(template, p, i);
        assert p == "{{" + (variables[0].0 + "}}");
        OccursPrefix(template, "{{", variables[0].0 + "}}", i);
        assert false;
      }
      ReplaceAbsent(template, p, PyStr(variables[0].1));
      SubstituteNoBraces(template, variables[1..]);
    }
  }

  // ===========================================================================
  // Includes

  /** The first index at or after `q` holding '}', or the length of the text. */
  function CloseFrom(t: string, q: nat): (c: nat)
    requires q <= |t|
    ensures q <= c <= |t| && (c < |t| ==> t[c] == '}')
    ensures forall j :: q <= j < c ==> t[j] != '}'
    decreases |t| - q
  {
    if q == |t| || t[q] == '}' then q else CloseFrom(t, q + 1)
  }

  /**
   * The match of `\{\{include:([^}]+)\}\}` at position `p`, if any: the end
   * of the match and the captured name. The name is every character up to
   * the first '}', which must be followed by a second '}'.
   */
  function MatchInclude(t: string, p: nat): (m: Option<(nat, string)>)
    requires p <= |t|
    ensures m.Some? ==> OccursAt(t, IncludeOpen, p) && p < m.value.0 <= |t|
    ensures m.Some? ==> m.value.1 != [] && forall c :: c in m.value.1 ==> c != '}'
  {
    if !OccursAt(t, IncludeOpen, p) then None
    else
      var q := p + |IncludeOpen|;
      var c := CloseFrom(t, q);
      if c > q && c + 2 <= |t| && t[c + 1] == '}' then
        assert forall k :: 0 <= k < c - q ==> t[q..c][k] == t[q + k];
        Some((c + 2, t[q..c]))
      else None
  }

  /** A directive naming a file without '}' matches exactly. */
  lemma IncludeMatches(name: string)
    requires name != [] && forall c :: c in name ==> c != '}'
    ensures MatchInclude(IncludeOpen + name + "}}", 0) == Some((|IncludeOpen| + |name| + 2, name))
  {
    var t := IncludeOpen + name + "}}";
    var q := |IncludeOpen|;
    assert t[..q] == IncludeOpen;
    forall j | q <= j < q + |name|
      ensures t[j] != '}'
    {
      assert t[j] == name[j - q];
      assert name[j - q] in name;
    }
    assert t[q + |name|] == '}' && t[q + |name| + 1] == '}';
    CloseAfter(t, q, q + |name|);
    assert t[q..q + |name|] == name;
  }

  lemma {:induction false} CloseAfter(t: string, q: nat, c: nat)
    requires q <= c < |t| && t[c] == '}' && forall j :: q <= j < c ==> t[j] != '}'
    ensures CloseFrom(t, q) == c
    decreases c - q
  {
    if q < c {
      CloseAfter(t, q + 1, c);
    }
  }

  /** `Fuel(depth)` falls with each level of inclusion. */
  function Fuel(depth: nat): nat {
    if depth <= MaxDepth + 1 then MaxDepth + 1 - depth else 0
  }

  /** `_resolve_includes(template, variables, depth)`: the variables play no part. */
  function Resolve(files: Files, t: string, depth: nat): Result<string>
    decreases Fuel(depth), 1, 0
  {
    if depth > MaxDepth then Failure(DepthError) else ResolveFrom(files, t, 0, depth)
  }

  /** `re.sub` from position `pos`: each match replaced by the resolved file, or the missing-file note. */
  function ResolveFrom(files: Files, t: string, pos: nat, depth: nat): Result<string>
    requires pos <= |t| && depth <= MaxDepth
    decreases Fuel(depth), 0, |t| - pos
  {
    if pos == |t| then Success("")
    else
      match MatchInclude(t, pos)
      case Some((end, raw)) =>
        var name := Strip(raw);
        var replacement :=
          if name in files then Resolve(files, files[name], depth + 1)
          else Success("[Missing template: " + name + "]");
        if replacement.Failure? then replacement
        else
          var rest := ResolveFrom(files, t, end, depth);
          if rest.Failure? then rest else Success(replacement.value + rest.value)
      case None =>
        var rest := ResolveFrom(files, t, pos + 1, depth);
        if rest.Failure? then rest else Success([t[pos]] + rest.value)
  }

  /** Past ten levels the resolution always fails with the depth error. */
  lemma DepthExceeded(files: Files, t: string, depth: nat)
    requires depth > MaxDepth
    ensures Resolve(files, t, depth) == Failure(DepthError)
  {
  }

  /** Text without an include directive comes back unchanged. */
  lemma {:induction false} ResolveFromPlain(files: Files, t: string, pos: nat, depth: nat)
    requires pos <= |t| && depth <= MaxDepth
    requires forall i :: pos <= i ==> !OccursAt(t, IncludeOpen, i)
    ensures ResolveFrom(files, t, pos, depth) == Success(t[pos..])
    decreases |t| - pos
  {
    if pos < |t| {
      ResolveFromPlain(files, t, pos + 1, depth);
      assert t[pos..] == [t[pos]] + t[pos + 1..];
    }
  }

  lemma ResolvePlain(files: Files, t: string, depth: nat)
    requires depth <= MaxDepth && !Contains(t, IncludeOpen)
    ensures Resolve(files, t, depth) == Success(t)
  {
    ContainsIff(t, IncludeOpen);
    ResolveFromPlain(files, t, 0, depth);
  }

  /** A directive naming a file that does not exist becomes the missing-template note, with the name stripped. */
  lemma MissingInclude(files: Files, name: string, depth: nat)
    requires depth <= MaxDepth
    requires name != [] && (forall c :: c in name ==> c != '}') && Strip(name) !in files
    ensures Resolve(files, IncludeOpen + name + "}}", depth) == Success("[Missing template: " + Strip(name) + "]")
  {
    Directive(files, name, depth);
  }

  /** One directive alone: the named file resolved one level deeper, or the missing-template note. */
  lemma Directive(files: Files, name: string, depth: nat)
    requires depth <= MaxDepth
    requires name != [] && forall c :: c in name ==> c != '}'
    ensures Resolve(files, IncludeOpen + name + "}}", depth)
      == if Strip(name) in files then Resolve(files, files[Strip(name)], depth + 1)
         else Success("[Missing template: " + Strip(name) + "]")
  {
    IncludeMatches(name);
    WholeDirective(files, IncludeOpen + name + "}}", name, depth);
  }

  /** A text that is one directive resolves to the directive's replacement alone. */
  lemma WholeDirective(files: Files, t: string, raw: string, depth: nat)
    requires depth <= MaxDepth && t != [] && MatchInclude(t, 0) == Some((|t|, raw))
    ensures var name := Strip(raw);
      Resolve(files, t, depth)
      == if name in files then Resolve(files, files[name], depth + 1) else Success("[Missing template: " + name + "]")
  {
    assert ResolveFrom(files, t, |t|, depth) == Success("");
    var name := Strip(raw);
    var replacement :=
      if name in files then Resolve(files, files[name], depth + 1) else Success("[Missing template: " + name + "]");
    if replacement.Success? {
      assert replacement.value + "" == replacement.value;
    }
  }

  /** A file that includes itself fails at every depth: the recursion ends in the depth error. */
  lemma {:induction false} SelfIncludeFails(files: Files, name: string, depth: nat)
    requires name != [] && forall c :: c in name ==> c != '}'
    requires Strip(name) in files && files[Strip(name)] == IncludeOpen + name + "}}"
    ensures Resolve(files, IncludeOpen + name + "}}", depth).Failure?
    decreases Fuel(depth)
  {
    if depth <= MaxDepth {
      IncludeMatches(name);
      SelfIncludeFails(files, name, depth + 1);
    }
  }

  // ===========================================================================
  // Rendering

  /** What `render(template_name, variables)` returns or raises. */
  function Rendered(files: Files, baseDir: string, name: string, variables: Dict): Result<string> {
    if name !in files then Failure("Template not found: " + PathJoin(baseDir, name))
    else
      match Resolve(files, files[name], 0)
      case Failure(e) => Failure(e)
      case Success(t) => Success(Substitute(t, variables))
  }

  /** `render`: includes first, then the substitution loop. */
  method Render(files: Files, baseDir: string, name: string, variables: Dict) returns (r: Result<string>)
    ensures r == Rendered(files, baseDir, name, variables)
  {
    if name !in files {
      return Failure("Template not found: " + PathJoin(baseDir, name));
    }
    var resolved := Resolve(files, files[name], 0);
    if resolved.Failure? {
      return Failure(resolved.error);
    }
    var text := RenderString(resolved.value, variables);
    r := Success(text);
  }

  /**
   * Includes are resolved before substitution, so the variables of an
   * included file are filled in as if they were written in place.
   */
  lemma IncludedVariablesFilled(files: Files, baseDir: string, main: string, name: string, variables: Dict)
    requires name != [] && forall c :: c in name ==> c != '}'
    requires main in files && files[main] == IncludeOpen + name + "}}"
    requires Strip(name) in files && !Contains(files[Strip(name)], IncludeOpen)
    ensures Rendered(files, baseDir, main, variables) == Success(Substitute(files[Strip(name)], variables))
  {
    IncludeResolves(files, name, 0);
  }

  /** A directive naming a file without directives resolves to that file's text. */
  lemma IncludeResolves(files: Files, name: string, depth: nat)
    requires depth < MaxDepth
    requires name != [] && forall c :: c in name ==> c != '}'
    requires Strip(name) in files && !Contains(files[Strip(name)], IncludeOpen)
    ensures Resolve(files, IncludeOpen + name + "}}", depth) == Success(files[Strip(name)])
  {
    ResolvePlain(files, files[Strip(name)], depth + 1);
    Directive(files, name, depth);
  }

  /** `get_tool_prompt`: the text of `agent.tool.<name>.md`, or "" when there is none. */
  function ToolPrompt(files: Files, toolName: string): (r: string)
    ensures "agent.tool." + toolName + ".md" in files ==> r == files["agent.tool." + toolName + ".md"]
    ensures "agent.tool." + toolName + ".md" !in files ==> r == ""
  {
    var filename := "agent.tool." + toolName + ".md";
    if filename in files then files[filename] else ""
  }
}
