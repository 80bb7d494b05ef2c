/**
 * `render_template` of app/cardparser/utils.py: every `{key}` placeholder of
 * the template is replaced by the string form of its value, one context entry
 * after the other, in the context's insertion order.
 */
module Templates {
  import opened Wrappers
  import opened Text

  /**
   * One context entry: the key and `str(value)`, or `None` for a `None`
   * value. A dictionary is a sequence of distinct keys in insertion order.
   */
  type Context = seq<(string, Option<string>)>

  function Placeholder(key: string): (p: string)
    ensures |p| == |key| + 2 && p[0] == '{' && p[|p| - 1] == '}'
  {
    "{" + key + "}"
  }

  /** The effect of one context entry on the text rendered so far. */
  function Substitute(text: string, entry: (string, Option<string>)): string {
    match entry.1
    case None => text
    case Some(v) => Replace(text, Placeholder(entry.0), v)
  }

  /** The text after the entries of `ctx` were applied from first to last. */
  function ApplyAll(text: string, ctx: Context): string
    decreases |ctx|
  {
    if ctx == [] then text else ApplyAll(Substitute(text, ctx[0]), ctx[1..])
  }

  /**
   * What `render_template(template, context)` answers. `template == None`
   * stands for `None` and every value that is not a `str`.
   */
  function Render(template: Option<string>, ctx: Context): string {
    match template
    case None => ""
    case Some(t) => if t == "" then "" else ApplyAll(t, ctx)
  }

  /** The loop of `render_template`, reassigning `result` once per entry. */
  method RenderTemplate(template: Option<string>, ctx: Context) returns (result: string)
    ensures result == Render(template, ctx)
  {
    if template.None? || template.value == "" {
      return "";
    }
    result := template.value;
    var i := 0;
    while i < |ctx|
      invariant 0 <= i <= |ctx|
      invariant ApplyAll(result, ctx[i..]) == ApplyAll(template.value, ctx)
    {
      var (key, value) := ctx[i];
      if value.Some? {
        result := Replace(result, Placeholder(key), value.value);
      }
      assert ctx[i..][1..] == ctx[i + 1..];
      i := i + 1;
    }
  }

  /** Applying `a` then `b` is applying their concatenation. */
  lemma {:induction false} ApplyAllAppend(text: string, a: Context, b: Context)
    ensures ApplyAll(text, a + b) == ApplyAll(ApplyAll(text, a), b)
    decreases |a|
  {
    if a != [] {
      assert (a + b)[0] == a[0] && (a + b)[1..] == a[1..] + b;
      ApplyAllAppend(Substitute(text, a[0]), a[1..], b);
    } else {
      assert a + b == b;
    }
  }

  /** The substitution is sequential: the last entry works on the output of all earlier ones. */
  lemma RenderSnoc(t: string, ctx: Context, key: string, value: string)
    requires t != ""
    ensures Render(Some(t), ctx + [(key, Some(value))]) == Replace(Render(Some(t), ctx), Placeholder(key), value)
  {
    ApplyAllAppend(t, ctx, [(key, Some(value))]);
  }

  /** An entry whose value is `None` leaves the text, and so its own placeholder, as it was. */
  lemma RenderNoneEntry(t: Option<string>, a: Context, key: string, b: Context)
    ensures Render(t, a + [(key, None)] + b) == Render(t, a + b)
  {
    if t.Some? && t.value != "" {
      ApplyAllAppend(t.value, a + [(key, None)], b);
      ApplyAllAppend(t.value, a, [(key, None)]);
      ApplyAllAppend(t.value, a, b);
    }
  }

  /** A `None`, empty or non-string template renders as the empty string. */
  lemma RenderNoTemplate(t: Option<string>, ctx: Context)
    requires t.None? || t == Some("")
    ensures Render(t, ctx) == ""
  {
  }

  /** An empty context returns the template unchanged. */
  lemma RenderEmptyContext(t: string)
    ensures Render(Some(t), []) == t
  {
  }

  /** A context whose placeholders the template does not contain leaves it unchanged. */
  lemma {:induction false} ApplyAllAbsent(t: string, ctx: Context)
    requires forall i :: 0 <= i < |ctx| ==> !Contains(t, Placeholder(ctx[i].0))
    ensures ApplyAll(t, ctx) == t
    decreases |ctx|
  {
    if ctx != [] {
      if ctx[0].1.Some? {
        ReplaceAbsent(t, Placeholder(ctx[0].0), ctx[0].1.value);
      }
      assert forall i :: 0 <= i < |ctx[1..]| ==> ctx[1..][i] == ctx[i + 1];
      ApplyAllAbsent(t, ctx[1..]);
    }
  }

  /**
   * The documented example `("Привет, {name}!", {"name": "Анна"})`, for any
   * name without a brace: the placeholder is replaced by the name.
   */
  lemma RenderGreeting(name: string)
    requires '{' !in name
    ensures Render(Some("Привет, {name}!"), [("name", Some(name))]) == "Привет, " + name + "!"
  {
    var ctx := [("name", Some(name))];
    var t := "Привет, {name}!";
    assert t == "Привет, " + Placeholder("name") + "!";
    ReplacePrefix("Привет, ", Placeholder("name"), "!", name);
    assert ApplyAll(t, ctx) == ApplyAll("Привет, " + name + "!", ctx[1..]);
  }

  /** A value that itself contains a later key's placeholder is substituted again. */
  lemma RenderChained()
    ensures Render(Some("{a}"), [("a", Some("{b}")), ("b", Some("x"))]) == "x"
  {
    ReplacePrefix("", "{a}", "", "{b}");
    assert "" + "{a}" + "" == "{a}";
    assert "" + "{b}" + "" == "{b}";
    ReplacePrefix("", "{b}", "", "x");
  }

  /**
   * Replacing in `pre + pattern + post`, where `pattern` does not occur in
   * `pre` or `post` and a match cannot straddle them.
   */
  lemma {:induction false} ReplacePrefix(pre: string, pattern: string, post: string, v: string)
    requires |pattern| > 0 && pattern[0] == '{' && '{' !in pre && '{' !in post
    ensures Replace(pre + pattern + post, pattern, v) == pre + v + post
    decreases |pre|
  {
    var s := pre + pattern + post;
    if pre == [] {
      assert s == pattern + post;
      assert s[..|pattern|] == pattern && s[|pattern|..] == post;
      assert Replace(s, pattern, v) == v + Replace(post, pattern, v);
      NoBraceReplace(post, pattern, v);
    } else {
      var c := pre[0];
      var s' := pre[1..] + pattern + post;
      assert s == [c] + s';
      assert s[..|pattern|] != pattern by {
        assert s[..|pattern|][0] == c;
      }
      assert Replace(s, pattern, v) == [c] + Replace(s', pattern, v);
      ReplacePrefix(pre[1..], pattern, post, v);
      assert [c] + (pre[1..] + v + post) == pre + v + post;
    }
  }

  lemma {:induction false} NoBraceReplace(s: string, pattern: string, v: string)
    requires |pattern| > 0 && pattern[0] == '{' && '{' !in s
    ensures Replace(s, pattern, v) == s
    decreases |s|
  {
    if |s| >= |pattern| {
      assert s[..|pattern|][0] == s[0] != '{';
      NoBraceReplace(s[1..], pattern, v);
      assert [s[0]] + s[1..] == s;
    }
  }
}
