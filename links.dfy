/** The hyperlinks a calculator endpoint advertises (`calc_links` of CTS_REST)
    and the `str.format` call that puts the calculator's name into them. */
module CalcLinks {
  import opened PyValues

  /** A string without braces, which `str.format` copies unchanged. */
  predicate NoBraces(s: string) {
    forall i :: 0 <= i < |s| ==> s[i] != '{' && s[i] != '}'
  }

  /** `t.format(arg)` for templates whose fields are all `{}`: `{{` and `}}`
      stand for single braces, the first `{}` takes `arg`, a second `{}` has no
      argument left (IndexError), and any other brace is malformed (ValueError). */
  function Format(t: string, arg: string): Result<string> {
    FormatFrom(t, arg, false)
  }

  /** Formats `t` after `used` says whether the argument was taken already. */
  function FormatFrom(t: string, arg: string, used: bool): Result<string>
    decreases |t|
  {
    if t == [] then Success([])
    else if |t| >= 2 && t[0] == '{' && t[1] == '{' then
      var rest :- FormatFrom(t[2..], arg, used);
      Success("{" + rest)
    else if |t| >= 2 && t[0] == '}' && t[1] == '}' then
      var rest :- FormatFrom(t[2..], arg, used);
      Success("}" + rest)
    else if |t| >= 2 && t[0] == '{' && t[1] == '}' then
      if used then Failure(IndexError)
      else
        var rest :- FormatFrom(t[2..], arg, true);
        Success(arg + rest)
    else if t[0] == '{' || t[0] == '}' then Failure(ValueError)
    else
      var rest :- FormatFrom(t[1..], arg, used);
      Success([t[0]] + rest)
  }

  /** Formatting a string without braces gives the string back. */
  lemma {:induction false} FormatBraceFree(t: string, arg: string, used: bool)
    requires NoBraces(t)
    ensures FormatFrom(t, arg, used) == Success(t)
    decreases |t|
  {
    if t != [] {
      assert t[0] != '{' && t[0] != '}';
      FormatBraceFree(t[1..], arg, used);
      assert [t[0]] + t[1..] == t;
    }
  }

  /** Formatting a template with one `{}` between brace-free parts puts the
      argument in its place. */
  lemma {:induction false} FormatPlaceholder(p: string, s: string, arg: string)
    requires NoBraces(p) && NoBraces(s)
    ensures FormatFrom(p + "{}" + s, arg, false) == Success(p + arg + s)
    decreases |p|
  {
    if p == [] {
      var t := "{}" + s;
      assert p + "{}" + s == t && p + arg + s == arg + s;
      assert t[0] == '{' && t[1] == '}' && t[2..] == s;
      FormatBraceFree(s, arg, true);
    } else {
      assert (p + "{}" + s)[0] == p[0];
      assert (p + "{}" + s)[1..] == p[1..] + "{}" + s;
      FormatPlaceholder(p[1..], s, arg);
      assert [p[0]] + (p[1..] + arg + s) == p + arg + s;
    }
  }

  lemma NoBracesConcat(a: string, b: string, c: string)
    requires NoBraces(a) && NoBraces(b) && NoBraces(c)
    ensures NoBraces(a + b + c)
  {
    forall i | 0 <= i < |a + b + c|
      ensures (a + b + c)[i] != '{' && (a + b + c)[i] != '}'
    {
      if i < |a| {
        assert (a + b + c)[i] == a[i];
      } else if i < |a| + |b| {
        assert (a + b + c)[i] == b[i - |a|];
      } else {
        assert (a + b + c)[i] == c[i - |a| - |b|];
      }
    }
  }

  /** A link: a dict whose values are all strings. */
  type Link = map<string, string>

  const Base: string := "http://qedinternal.epa.gov/cts/rest/"

  /** The href of the `rel` link of calculator `name`. */
  function Href(name: string, rel: string): string {
    Base + name + "/" + rel
  }

  function LinkTemplate(rel: string, description: string): Link {
    map["rel" := rel, "type" := "application/json", "href" := Href("{}", rel),
        "description" := description, "method" := "POST"]
  }

  /** The calculator links a new CTS_REST holds, with `{}` in each href. */
  function CalcLinkTemplates(): seq<Link> {
    [LinkTemplate("inputs", "ChemAxon input schema"),
     LinkTemplate("outputs", "ChemAxon output schema"),
     LinkTemplate("run", "ChemAxon estimated values")]
  }

  /** One pass of the rewrite loop's body: a link with an href gets it
      formatted with `name`; a link without one is left as it is. */
  function FormatHref(item: Link, name: string): Result<Link> {
    if "href" !in item then Success(item)
    else
      var h :- Format(item["href"], name);
      Success(item["href" := h])
  }

  /** The href rewrite loop run over `links`, formatting each href with `name`:
      the links afterwards, and the exception that stopped the loop, if any.
      The links from the failing one on are left as they were. */
  function FormatLinks(links: seq<Link>, name: string): (seq<Link>, Option<Exc>)
    decreases |links|
  {
    if links == [] then ([], None)
    else
      match FormatHref(links[0], name)
      case Failure(e) => (links, Some(e))
      case Success(x) =>
        var rest := FormatLinks(links[1..], name);
        ([x] + rest.0, rest.1)
  }

  /** One step of the rewrite loop, at position `i` of `links`. */
  lemma FormatLinksAt(links: seq<Link>, i: nat, name: string)
    requires i < |links|
    ensures var rest := FormatLinks(links[i + 1..], name);
            match FormatHref(links[i], name)
            case Success(x) => FormatLinks(links[i..], name) == ([x] + rest.0, rest.1)
            case Failure(e) => FormatLinks(links[i..], name) == (links[i..], Some(e))
  {
    assert links[i..][0] == links[i] && links[i..][1..] == links[i + 1..];
  }

  /** Every href of `links` is free of braces. */
  predicate Formatted(links: seq<Link>) {
    forall i :: 0 <= i < |links| && "href" in links[i] ==> NoBraces(links[i]["href"])
  }

  /** Once every href is free of braces, rewriting the links again leaves them
      as they are, whatever calculator name is passed. */
  lemma {:induction false} FormatLinksFormatted(links: seq<Link>, name: string)
    requires Formatted(links)
    ensures FormatLinks(links, name) == (links, None)
    decreases |links|
  {
    if links != [] {
      FormatLinksFormatted(links[1..], name);
      if "href" in links[0] {
        FormatBraceFree(links[0]["href"], name, false);
        assert links[0]["href" := links[0]["href"]] == links[0];
      }
      assert [links[0]] + links[1..] == links;
    }
  }

  lemma BaseNoBraces(rel: string)
    requires NoBraces(rel)
    ensures NoBraces(Base) && NoBraces("/" + rel)
  {
    assert NoBraces(Base);
    assert forall i :: 0 <= i < |"/" + rel| && i > 0 ==> ("/" + rel)[i] == rel[i - 1];
  }

  /** Formatting one template link puts the calculator name into its href and
      leaves its other entries alone. */
  lemma FormatTemplate(rel: string, description: string, name: string)
    requires NoBraces(rel)
    ensures Format(LinkTemplate(rel, description)["href"], name) == Success(Href(name, rel))
  {
    BaseNoBraces(rel);
    FormatPlaceholder(Base, "/" + rel, name);
    assert Base + "{}" + "/" + rel == Base + "{}" + ("/" + rel);
    assert Base + name + ("/" + rel) == Base + name + "/" + rel;
  }

  lemma {:induction false} FormatLinksCons(l: Link, rest: seq<Link>, name: string)
    requires "href" in l && Format(l["href"], name).Success?
    ensures FormatLinks([l] + rest, name)
         == ([l["href" := Format(l["href"], name).value]] + FormatLinks(rest, name).0, FormatLinks(rest, name).1)
  {
    assert ([l] + rest)[0] == l && ([l] + rest)[1..] == rest;
  }

  lemma RelsNoBraces()
    ensures NoBraces("inputs") && NoBraces("outputs") && NoBraces("run")
  {
  }

  /** Rewriting three links whose hrefs all format. */
  lemma FormatThree(l0: Link, l1: Link, l2: Link, name: string)
    requires "href" in l0 && Format(l0["href"], name).Success?
    requires "href" in l1 && Format(l1["href"], name).Success?
    requires "href" in l2 && Format(l2["href"], name).Success?
    ensures FormatLinks([l0, l1, l2], name)
         == ([l0["href" := Format(l0["href"], name).value],
              l1["href" := Format(l1["href"], name).value],
              l2["href" := Format(l2["href"], name).value]], None)
  {
    var x0 := l0["href" := Format(l0["href"], name).value];
    var x1 := l1["href" := Format(l1["href"], name).value];
    var x2 := l2["href" := Format(l2["href"], name).value];
    FormatLinksCons(l2, [], name);
    assert [l2] + [] == [l2] && [x2] + [] == [x2];
    assert FormatLinks([l2], name) == ([x2], None);
    FormatLinksCons(l1, [l2], name);
    assert [l1] + [l2] == [l1, l2] && [x1] + [x2] == [x1, x2];
    assert FormatLinks([l1, l2], name) == ([x1, x2], None);
    FormatLinksCons(l0, [l1, l2], name);
    assert [l0] + [l1, l2] == [l0, l1, l2] && [x0] + [x1, x2] == [x0, x1, x2];
  }

  /** The links a new CTS_REST gives for `name`: the three templates with the
      calculator's name in their hrefs; the rewrite cannot fail. */
  lemma FormatTemplates(name: string)
    ensures var f := FormatLinks(CalcLinkTemplates(), name);
            && f.1 == None
            && f.0 == [LinkTemplate("inputs", "ChemAxon input schema")["href" := Href(name, "inputs")],
                       LinkTemplate("outputs", "ChemAxon output schema")["href" := Href(name, "outputs")],
                       LinkTemplate("run", "ChemAxon estimated values")["href" := Href(name, "run")]]
  {
    RelsNoBraces();
    FormatTemplate("inputs", "ChemAxon input schema", name);
    FormatTemplate("outputs", "ChemAxon output schema", name);
    FormatTemplate("run", "ChemAxon estimated values", name);
    FormatThree(LinkTemplate("inputs", "ChemAxon input schema"),
                LinkTemplate("outputs", "ChemAxon output schema"),
                LinkTemplate("run", "ChemAxon estimated values"), name);
  }

  lemma HrefNoBraces(name: string, rel: string)
    requires NoBraces(name) && NoBraces(rel)
    ensures NoBraces(Href(name, rel))
  {
    BaseNoBraces(rel);
    NoBracesConcat(Base, name, "/" + rel);
    assert Href(name, rel) == Base + name + ("/" + rel);
  }

  /** Three links whose hrefs have no braces. */
  lemma FormattedThree(l0: Link, l1: Link, l2: Link)
    requires "href" in l0 ==> NoBraces(l0["href"])
    requires "href" in l1 ==> NoBraces(l1["href"])
    requires "href" in l2 ==> NoBraces(l2["href"])
    ensures Formatted([l0, l1, l2])
  {
  }

  /** The hrefs once formatted with a brace-free name have no braces left. */
  lemma FormattedTemplates(name: string)
    requires NoBraces(name)
    ensures Formatted(FormatLinks(CalcLinkTemplates(), name).0)
  {
    FormatTemplates(name);
    RelsNoBraces();
    HrefNoBraces(name, "inputs");
    HrefNoBraces(name, "outputs");
    HrefNoBraces(name, "run");
    FormattedThree(LinkTemplate("inputs", "ChemAxon input schema")["href" := Href(name, "inputs")],
                   LinkTemplate("outputs", "ChemAxon output schema")["href" := Href(name, "outputs")],
                   LinkTemplate("run", "ChemAxon estimated values")["href" := Href(name, "run")]);
  }
}
