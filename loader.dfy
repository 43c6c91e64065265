/** ObjectLoader (lib/loader.js): the loader's state (cache switch, sequence of identifier
    templates, locator registry), the operations that set it, the substitution of an identifier
    into a template, the ordered search through the sequence, and the decision of `require` to
    throw or to fail softly. */
module Loaders {
  import opened Wrappers
  import opened Strings
  import opened Identifiers

  /** What a locator's `locate` returns: the literal `false` (nothing there), another falsy value
      such as `undefined` or `null`, or a truthy object. */
  datatype Located<O> = NotFound | Falsy | Found(obj: O)

  /** A locator: the type it serves and its `locate` method. Locators are objects registered by
      reference, so they are modelled as a class. */
  class Locator<O> {
    const kind: string
    const locate: Fields -> Result<Located<O>>

    constructor (kind: string, locate: Fields -> Result<Located<O>>)
      ensures this.kind == kind && this.locate == locate
    {
      this.kind := kind;
      this.locate := locate;
    }
  }

  /** The argument of `setSequence`: an array of templates, or any other value together with the
      text `typeof` gives for it. */
  datatype SequenceArg = Array(items: seq<string>) | NotArray(typeOf: string)

  /** An identifier as the loader receives it: a string, or an ObjectIdentifier's fields. */
  datatype Ref = Text(raw: string) | Object(fields: Fields)

  /** The check of `setSequence`: a non-empty array is accepted as the new sequence; any other
      value throws a TypeError naming its type, and an empty array throws an Error. (The source's
      final `Undefined Error!` branch cannot be reached: the first three branches cover every
      value.) */
  function ValidateSequence(arg: SequenceArg): (r: Result<seq<string>>)
    ensures r.Ok? <==> arg.Array? && |arg.items| > 0
    ensures r.Ok? ==> r.value == arg.items
    ensures arg.NotArray? ==>
      r == Err(TypeError("The loader sequence is to be an array! (" + arg.typeOf + " given)"))
    ensures arg == Array([]) ==> r == Err(Error("The sequence needs to have at least on entry!"))
  {
    if arg.Array? && |arg.items| > 0 then Ok(arg.items)
    else if !arg.Array? then Err(TypeError("The loader sequence is to be an array! (" + arg.typeOf + " given)"))
    else Err(Error("The sequence needs to have at least on entry!"))
  }

  /** The registry update of `addLocator`: the locator is stored under its type unless a locator
      is already stored there. */
  function Register<O>(registry: map<string, Locator<O>>, locator: Locator<O>): (r: map<string, Locator<O>>)
    ensures r.Keys == registry.Keys + {locator.kind}
    ensures forall k :: k in registry ==> r[k] == registry[k]
    ensures locator.kind !in registry ==> r[locator.kind] == locator
  {
    if locator.kind in registry then registry else registry[locator.kind := locator]
  }

  /** The first registration for a type wins: later locators of the same type are ignored. */
  lemma FirstRegistrationWins<O>(registry: map<string, Locator<O>>, first: Locator<O>, later: Locator<O>)
    requires first.kind == later.kind
    ensures Register(Register(registry, first), later) == Register(registry, first)
    ensures Register(registry, first)[first.kind] == (if first.kind in registry then registry[first.kind] else first)
  {
  }

  /** The identifier a Ref stands for: a string is parsed (and may throw), fields are used as
      they are. */
  function Identify(id: Ref, singularize: Inflect): Result<Fields>
  {
    match id
    case Text(raw) => ParseFields(raw, singularize)
    case Object(f) => Ok(f)
  }

  /** The text `replace` inserts for a name: `undefined` becomes the string "undefined". */
  function NameArg(name: Option<string>): string {
    match name
    case None => "undefined"
    case Some(n) => n
  }

  /** The five replacements of `_parseSequence`, each of the first occurrence only and in this
      order: `<Type>`, `<App>`, `<Package>`, `<Path>` (the path joined by `.`) and `<Name>`. */
  function Substitute(template: string, f: Fields): string {
    var s1 := ReplaceFirst(template, "<Type>", f.kind);
    var s2 := ReplaceFirst(s1, "<App>", f.application);
    var s3 := ReplaceFirst(s2, "<Package>", f.package);
    var s4 := ReplaceFirst(s3, "<Path>", Join(f.path, "."));
    ReplaceFirst(s4, "<Name>", NameArg(f.name))
  }

  /** `_parseSequence`: the identifier is parsed if it is a string, substituted into the template,
      and the result is parsed as a new identifier. */
  function ParseSequence(template: string, id: Ref, singularize: Inflect): Result<Fields> {
    match Identify(id, singularize)
    case Err(e) => Err(e)
    case Ok(f) => ParseFields(Substitute(template, f), singularize)
  }

  // ---- The template of the loader's test, whose `<Application>` is not one of the five tokens.

  /** `<App>` does not occur in the test's template once `<Type>` is filled in. */
  lemma ApplicationSkipsApp(t: string, a: string)
    requires '<' !in t
    ensures var s := t + ("://" + ("<Application>/" + ("<Package>" + ("." + ("<Path>" + ("." + "<Name>"))))));
      ReplaceFirst(s, "<App>", a) == s
  {
    ApplicationGuards();
    GuardFree(t, "<App>");
    var x7 := "." + "<Name>";
    var x6 := "<Path>" + x7;
    var x5 := "." + x6;
    var x4 := "<Package>" + x5;
    var x3 := "<Application>/" + x4;
    var x2 := "://" + x3;
    ReplaceFirstAbsent("", "<App>", a);
    GuardedReplace("<Name>", "", "<App>", a);
    assert "<Name>" + "" == "<Name>";
    GuardedReplace(".", "<Name>", "<App>", a);
    GuardedReplace("<Path>", x7, "<App>", a);
    GuardedReplace(".", x6, "<App>", a);
    GuardedReplace("<Package>", x5, "<App>", a);
    GuardedReplace("<Application>/", x4, "<App>", a);
    GuardedReplace("://", x3, "<App>", a);
    GuardedReplace(t, x2, "<App>", a);
  }

  /** Filling in `<Package>` in the test's template. */
  lemma ApplicationFillsPackage(t: string, p: string)
    requires '<' !in t
    ensures ReplaceFirst(t + ("://" + ("<Application>/" + ("<Package>" + ("." + ("<Path>" + ("." + "<Name>")))))), "<Package>", p)
         == t + ("://" + ("<Application>/" + (p + ("." + ("<Path>" + ("." + "<Name>"))))))
  {
    ApplicationGuards();
    GuardFree(t, "<Package>");
    var x5 := "." + ("<Path>" + ("." + "<Name>"));
    ReplaceFirstHead("<Package>", x5, p);
    GuardedReplace("<Application>/", "<Package>" + x5, "<Package>", p);
    GuardedReplace("://", "<Application>/" + ("<Package>" + x5), "<Package>", p);
    GuardedReplace(t, "://" + ("<Application>/" + ("<Package>" + x5)), "<Package>", p);
  }

  /** Filling in `<Path>` in the test's template. */
  lemma ApplicationFillsPath(t: string, p: string, j: string)
    requires '<' !in t && '<' !in p
    ensures ReplaceFirst(t + ("://" + ("<Application>/" + (p + ("." + ("<Path>" + ("." + "<Name>")))))), "<Path>", j)
         == t + ("://" + ("<Application>/" + (p + ("." + (j + ("." + "<Name>"))))))
  {
    ApplicationGuards();
    GuardFree(t, "<Path>");
    GuardFree(p, "<Path>");
    var x7 := "." + "<Name>";
    ReplaceFirstHead("<Path>", x7, j);
    GuardedReplace(".", "<Path>" + x7, "<Path>", j);
    GuardedReplace(p, "." + ("<Path>" + x7), "<Path>", j);
    GuardedReplace("<Application>/", p + ("." + ("<Path>" + x7)), "<Path>", j);
    GuardedReplace("://", "<Application>/" + (p + ("." + ("<Path>" + x7))), "<Path>", j);
    GuardedReplace(t, "://" + ("<Application>/" + (p + ("." + ("<Path>" + x7)))), "<Path>", j);
  }

  /** Filling in `<Name>` in the test's template. */
  lemma ApplicationFillsName(t: string, p: string, j: string, n: string)
    requires '<' !in t && '<' !in p && '<' !in j
    ensures ReplaceFirst(t + ("://" + ("<Application>/" + (p + ("." + (j + ("." + "<Name>")))))), "<Name>", n)
         == t + ("://" + ("<Application>/" + (p + ("." + (j + ("." + n))))))
  {
    ApplicationGuards();
    GuardFree(t, "<Name>");
    GuardFree(p, "<Name>");
    GuardFree(j, "<Name>");
    ReplaceFirstHead("<Name>", "", n);
    assert "<Name>" + "" == "<Name>" && n + "" == n;
    GuardedReplace(".", "<Name>", "<Name>", n);
    GuardedReplace(j, "." + "<Name>", "<Name>", n);
    GuardedReplace(".", j + ("." + "<Name>"), "<Name>", n);
    GuardedReplace(p, "." + (j + ("." + "<Name>")), "<Name>", n);
    GuardedReplace("<Application>/", p + ("." + (j + ("." + "<Name>"))), "<Name>", n);
    GuardedReplace("://", "<Application>/" + (p + ("." + (j + ("." + "<Name>")))), "<Name>", n);
    GuardedReplace(t, "://" + ("<Application>/" + (p + ("." + (j + ("." + "<Name>"))))), "<Name>", n);
  }

  /** `_parseSequence` with the test's template: `<Application>` is not a token and stays in the
      text, so the new identifier's application is the literal "<Application>", while type,
      package, path and name are filled in. */
  lemma ApplicationTemplateText(f: Fields)
    requires '<' !in f.kind && '<' !in f.package && '<' !in Join(f.path, ".")
    ensures Substitute("<Type>://<Application>/<Package>.<Path>.<Name>", f)
         == f.kind + ("://" + ("<Application>/" + (f.package + ("." + (Join(f.path, ".") + ("." + NameArg(f.name)))))))
  {
    var t, p, j := f.kind, f.package, Join(f.path, ".");
    ApplicationTemplateChunks();
    ReplaceFirstHead("<Type>", "://" + ("<Application>/" + ("<Package>" + ("." + ("<Path>" + ("." + "<Name>"))))), t);
    ApplicationSkipsApp(t, f.application);
    ApplicationFillsPackage(t, p);
    ApplicationFillsPath(t, p, j);
    ApplicationFillsName(t, p, j, NameArg(f.name));
  }

  /** `_parseSequence` with the test's template on canonical fields with a name whose type,
      package and path hold no `<`: the new identifier is the fields read back, with the literal
      "<Application>" as its application. */
  lemma ApplicationTokenStays(f: Fields, singularize: Inflect)
    requires Canonical(f, singularize) && f.name.Some?
    requires '<' !in f.kind && '<' !in f.package && '<' !in Join(f.path, ".")
    ensures ParseSequence("<Type>://<Application>/<Package>.<Path>.<Name>", Object(f), singularize)
         == Ok(Normalize(f).(application := "<Application>"))
  {
    var t, p, j, n := f.kind, f.package, Join(f.path, "."), NameText(f.name);
    ApplicationTemplateText(f);
    ApplicationSlash(p + ("." + (j + ("." + n))));
    Flatten(t, "://", "<Application>", "/", p, ".", j, n);
    var body := p + "." + (j + ".") + n;
    ApplicationTokenPlain();
    BodySegments(f);
    WithApplication(t, "<Application>", body, singularize);
    var segs := [p] + (Normalize(f).path + [n]);
    assert segs[1..|segs| - 1] == Normalize(f).path;
  }

  /** The fields of the loader test's identifier `custom://test/test.test.test2`. */
  lemma CustomTestIdentifier(singularize: Inflect)
    requires singularize("test2") == "test2"
    ensures Identify(Text("custom://test/test.test.test2"), singularize)
         == Ok(Fields("custom", "test", "test", ["test"], Some("test2")))
  {
    var f := Fields("custom", "test", "test", ["test"], Some("test2"));
    CustomTestText();
    CustomTestCanonical(singularize);
    RoundTrip(f, singularize);
  }

  /** The loader test's identifier is canonical. */
  lemma CustomTestCanonical(singularize: Inflect)
    requires singularize("test2") == "test2"
    ensures Canonical(Fields("custom", "test", "test", ["test"], Some("test2")), singularize)
  {
  }

  /** The loader test of `_parseSequence`: the test's template and `custom://test/test.test.test2`
      give an identifier named `test2` (and, since `<Application>` is not a token, the application
      "<Application>"). */
  lemma ParseSequenceTestVector(singularize: Inflect)
    requires singularize("test2") == "test2"
    ensures ParseSequence("<Type>://<Application>/<Package>.<Path>.<Name>", Text("custom://test/test.test.test2"), singularize)
         == Ok(Fields("custom", "<Application>", "test", ["test"], Some("test2")))
  {
    var f := Fields("custom", "test", "test", ["test"], Some("test2"));
    CustomTestIdentifier(singularize);
    CustomTestCanonical(singularize);
    CustomTestFree();
    ApplicationTokenStays(f, singularize);
    ParseSequenceIdentified("<Type>://<Application>/<Package>.<Path>.<Name>",
                            Text("custom://test/test.test.test2"), f, singularize);
    assert Normalize(f) == f;
  }

  // ---- The template that names all five tokens.

  /** Filling in `<App>` in the five-token template. */
  lemma IdentityFillsApp(t: string, a: string, y: string)
    requires '<' !in t
    ensures ReplaceFirst(t + ("://" + ("<App>" + y)), "<App>", a) == t + ("://" + (a + y))
  {
    SeparatorsFree();
    ReplaceFirstHead("<App>", y, a);
    ReplaceFirstPast("://", "<App>" + y, "<App>", a);
    ReplaceFirstPast(t, "://" + ("<App>" + y), "<App>", a);
  }

  /** Filling in `<Package>` in the five-token template. */
  lemma IdentityFillsPackage(t: string, a: string, p: string, z: string)
    requires '<' !in t && '<' !in a
    ensures ReplaceFirst(t + ("://" + (a + ("/" + ("<Package>" + z)))), "<Package>", p)
         == t + ("://" + (a + ("/" + (p + z))))
  {
    SeparatorsFree();
    var pat := "<Package>";
    ReplaceFirstHead(pat, z, p);
    ReplaceFirstPast("/", pat + z, pat, p);
    ReplaceFirstPast(a, "/" + (pat + z), pat, p);
    ReplaceFirstPast("://", a + ("/" + (pat + z)), pat, p);
    ReplaceFirstPast(t, "://" + (a + ("/" + (pat + z))), pat, p);
  }

  /** Filling in `<Path>` in the five-token template. */
  lemma IdentityFillsPath(t: string, a: string, p: string, j: string, z: string)
    requires '<' !in t && '<' !in a && '<' !in p
    ensures ReplaceFirst(t + ("://" + (a + ("/" + (p + ("." + ("<Path>" + z)))))), "<Path>", j)
         == t + ("://" + (a + ("/" + (p + ("." + (j + z))))))
  {
    SeparatorsFree();
    var pat := "<Path>";
    ReplaceFirstHead(pat, z, j);
    ReplaceFirstPast(".", pat + z, pat, j);
    ReplaceFirstPast(p, "." + (pat + z), pat, j);
    ReplaceFirstPast("/", p + ("." + (pat + z)), pat, j);
    ReplaceFirstPast(a, "/" + (p + ("." + (pat + z))), pat, j);
    ReplaceFirstPast("://", a + ("/" + (p + ("." + (pat + z)))), pat, j);
    ReplaceFirstPast(t, "://" + (a + ("/" + (p + ("." + (pat + z))))), pat, j);
  }

  /** Filling in `<Name>` in the five-token template. */
  lemma IdentityFillsName(t: string, a: string, p: string, j: string, n: string)
    requires '<' !in t && '<' !in a && '<' !in p && '<' !in j
    ensures ReplaceFirst(t + ("://" + (a + ("/" + (p + ("." + (j + ("." + "<Name>"))))))), "<Name>", n)
         == t + ("://" + (a + ("/" + (p + ("." + (j + ("." + n)))))))
  {
    SeparatorsFree();
    var pat := "<Name>";
    ReplaceFirstHead(pat, "", n);
    assert pat + "" == pat && n + "" == n;
    var x := "." + pat;
    ReplaceFirstPast(".", pat, pat, n);
    ReplaceFirstPast(j, x, pat, n);
    ReplaceFirstPast(".", j + x, pat, n);
    ReplaceFirstPast(p, "." + (j + x), pat, n);
    ReplaceFirstPast("/", p + ("." + (j + x)), pat, n);
    ReplaceFirstPast(a, "/" + (p + ("." + (j + x))), pat, n);
    ReplaceFirstPast("://", a + ("/" + (p + ("." + (j + x)))), pat, n);
    ReplaceFirstPast(t, "://" + (a + ("/" + (p + ("." + (j + x))))), pat, n);
  }

  /** The five-token template filled in with fields whose type, application, package and path
      hold no `<` is the fields' text up to its type separator: `type://application/body`. */
  lemma IdentityTemplateText(f: Fields)
    requires '<' !in f.kind && '<' !in f.application && '<' !in f.package && '<' !in Join(f.path, ".")
    ensures Substitute("<Type>://<App>/<Package>.<Path>.<Name>", f)
         == f.kind + "://" + f.application + "/" + (f.package + "." + (Join(f.path, ".") + ".") + NameArg(f.name))
  {
    var t, a, p, j, n := f.kind, f.application, f.package, Join(f.path, "."), NameArg(f.name);
    var z3 := "." + "<Name>";
    var z2 := "." + ("<Path>" + z3);
    var z1 := "/" + ("<Package>" + z2);
    IdentityTemplateChunks();
    ReplaceFirstHead("<Type>", "://" + ("<App>" + z1), t);
    IdentityFillsApp(t, a, z1);
    IdentityFillsPackage(t, a, p, z2);
    IdentityFillsPath(t, a, p, j, z3);
    IdentityFillsName(t, a, p, j, n);
    Flatten(t, "://", a, "/", p, ".", j, n);
  }

  /** `_parseSequence` with the five-token template reads the identifier back: canonical fields
      with a name whose parts hold no `<` come back normalized. */
  lemma IdentityTemplate(f: Fields, singularize: Inflect)
    requires Canonical(f, singularize) && f.name.Some?
    requires '<' !in f.kind && '<' !in f.application && '<' !in f.package && '<' !in Join(f.path, ".")
    ensures ParseSequence("<Type>://<App>/<Package>.<Path>.<Name>", Object(f), singularize) == Ok(Normalize(f))
  {
    var n := NameText(f.name);
    var body := f.package + "." + (Join(f.path, ".") + ".") + n;
    IdentityTemplateText(f);
    BodySegments(f);
    WithApplication(f.kind, f.application, body, singularize);
    var segs := [f.package] + (Normalize(f).path + [n]);
    assert segs[1..|segs| - 1] == Normalize(f).path;
  }

  /** The same for the identifier given as its text. */
  lemma IdentityTemplateFromText(f: Fields, singularize: Inflect)
    requires Canonical(f, singularize) && f.name.Some?
    requires '<' !in f.kind && '<' !in f.application && '<' !in f.package && '<' !in Join(f.path, ".")
    ensures ParseSequence("<Type>://<App>/<Package>.<Path>.<Name>", Text(Render(f)), singularize) == Ok(Normalize(f))
  {
    ParseRender(f, singularize);
    var g := Normalize(f);
    assert Join(g.path, ".") == Join(f.path, ".") by {
      assert Join([""], ".") == "";
    }
    assert Canonical(g, singularize);
    IdentityTemplate(g, singularize);
    assert Normalize(g) == g;
  }

  /** `_parseSequence` only depends on the identifier the Ref stands for. */
  lemma ParseSequenceIdentified(template: string, id: Ref, f: Fields, singularize: Inflect)
    requires Identify(id, singularize) == Ok(f)
    ensures ParseSequence(template, id, singularize) == ParseSequence(template, Object(f), singularize)
  {
  }

  /** `_receive`: the locator registered for the identifier's type locates it. The source reads
      a free variable `locators`; the model reads the loader's registry, which is evidently
      meant. Without a locator for the type, reading its `locate` throws. */
  function Receive<O>(locators: map<string, Locator<O>>, f: Fields): Result<Located<O>>
  {
    if f.kind in locators then locators[f.kind].locate(f) else Err(NoLocator(f.kind))
  }

  /** One step of `_resolve`: the template is filled in and the result received. */
  function Attempt<O>(template: string, locators: map<string, Locator<O>>, id: Ref,
                      singularize: Inflect): Result<Located<O>> {
    match ParseSequence(template, id, singularize)
    case Err(e) => Err(e)
    case Ok(f) => Receive(locators, f)
  }

  /** A step that returned the literal `false`, after which `_resolve` goes on to the next
      template. An exception ends the search, and so does any other value, even a falsy one. */
  predicate Miss<O>(a: Result<Located<O>>) {
    a.Ok? && a.value.NotFound?
  }

  /** The search of `_resolve` for any step: the result of the first template whose step is not
      a miss, or `false` when every step misses. */
  function FirstHit<O>(templates: seq<string>, step: string -> Result<Located<O>>): Result<Located<O>>
    decreases |templates|
  {
    if templates == [] then Ok(NotFound)
    else if Miss(step(templates[0])) then FirstHit(templates[1..], step)
    else step(templates[0])
  }

  /** The step `_resolve` takes for each template. */
  function Step<O>(locators: map<string, Locator<O>>, id: Ref, singularize: Inflect): string -> Result<Located<O>> {
    template => Attempt(template, locators, id, singularize)
  }

  /** `_resolve` as a value. */
  function ResolveSpec<O>(templates: seq<string>, locators: map<string, Locator<O>>, id: Ref,
                          singularize: Inflect): Result<Located<O>> {
    FirstHit(templates, Step(locators, id, singularize))
  }

  /** Every template misses. */
  predicate AllMiss<O>(templates: seq<string>, step: string -> Result<Located<O>>) {
    forall i :: 0 <= i < |templates| ==> Miss(step(templates[i]))
  }

  /** The search returns `false` exactly when every template misses. */
  lemma {:induction false} ResolveAllMiss<O>(templates: seq<string>, step: string -> Result<Located<O>>)
    ensures Miss(FirstHit(templates, step)) <==> AllMiss(templates, step)
  {
    if templates != [] {
      var rest := templates[1..];
      ResolveAllMiss(rest, step);
      if Miss(step(templates[0])) {
        if AllMiss(templates, step) {
          forall i | 0 <= i < |rest|
            ensures Miss(step(rest[i]))
          {
            assert rest[i] == templates[i + 1];
          }
        }
        if AllMiss(rest, step) {
          forall i | 0 <= i < |templates|
            ensures Miss(step(templates[i]))
          {
            if i > 0 {
              assert templates[i] == rest[i - 1];
            }
          }
        }
      }
    }
  }

  /** When the templates before index `k` miss and template `k` does not, the search returns the
      result of template `k`; the later templates are not tried. */
  lemma {:induction false} ResolveFirstHit<O>(templates: seq<string>, step: string -> Result<Located<O>>, k: nat)
    requires k < |templates|
    requires forall i :: 0 <= i < k ==> Miss(step(templates[i]))
    requires !Miss(step(templates[k]))
    ensures FirstHit(templates, step) == step(templates[k])
  {
    if k > 0 {
      var rest := templates[1..];
      assert Miss(step(templates[0]));
      forall i | 0 <= i < k - 1
        ensures Miss(step(rest[i]))
      {
        assert rest[i] == templates[i + 1];
      }
      assert rest[k - 1] == templates[k];
      ResolveFirstHit(rest, step, k - 1);
    }
  }

  /** The search only depends on the templates up to the first one that does not miss. */
  lemma {:induction false} ResolveIgnoresLater<O>(templates: seq<string>, later: seq<string>,
                                                  step: string -> Result<Located<O>>, k: nat)
    requires k < |templates|
    requires forall i :: 0 <= i < k ==> Miss(step(templates[i]))
    requires !Miss(step(templates[k]))
    ensures FirstHit(templates + later, step) == FirstHit(templates, step)
  {
    var all := templates + later;
    assert forall i :: 0 <= i <= k ==> all[i] == templates[i];
    ResolveFirstHit(all, step, k);
    ResolveFirstHit(templates, step, k);
  }

  /** Resolution fails fast on a type without a locator: when the templates before index `k`
      miss and template `k` names an unregistered type, `_resolve` throws, and the later
      templates are not tried. */
  lemma UnregisteredStops<O>(templates: seq<string>, locators: map<string, Locator<O>>, id: Ref,
                             singularize: Inflect, k: nat, g: Fields)
    requires k < |templates|
    requires forall i :: 0 <= i < k ==> Miss(Step(locators, id, singularize)(templates[i]))
    requires ParseSequence(templates[k], id, singularize) == Ok(g) && g.kind !in locators
    ensures ResolveSpec(templates, locators, id, singularize) == Err(NoLocator(g.kind))
  {
    ResolveFirstHit(templates, Step(locators, id, singularize), k);
  }

  /** The decision of `require`, given what the resolution returned: a string that cannot be
      parsed throws first; a falsy resolution throws unless `soft_fail` is `true`, with a message
      that quotes the identifier's text; otherwise `require` does not throw. */
  function RequireOutcome<O>(id: Ref, resolved: Located<O>, softFail: bool,
                             singularize: Inflect): (r: Result<()>)
    ensures Identify(id, singularize).Err? ==> r == Err(Identify(id, singularize).error)
    ensures Identify(id, singularize).Ok? ==> (r.Err? <==> !resolved.Found? && !softFail)
    ensures Identify(id, singularize).Ok? && r.Err? ==>
      r.error == Error("Identifier \"" + Render(Identify(id, singularize).value)
                       + "\" is not a correct resource identifier")
  {
    match Identify(id, singularize)
    case Err(e) => Err(e)
    case Ok(f) =>
      if !resolved.Found? && !softFail then
        Err(Error("Identifier \"" + Render(f) + "\" is not a correct resource identifier"))
      else Ok(())
  }

  /** For the text of canonical fields, the message quotes the string `require` was given,
      unchanged. */
  lemma RequireQuotesInput<O>(raw: string, f: Fields, resolved: Located<O>, singularize: Inflect)
    requires Canonical(f, singularize) && raw == Render(f)
    requires !resolved.Found?
    ensures RequireOutcome(Text(raw), resolved, false, singularize)
         == Err(Error("Identifier \"" + raw + "\" is not a correct resource identifier"))
    ensures RequireOutcome(Text(raw), resolved, true, singularize) == Ok(())
  {
    CloneStable(f, singularize);
  }

  /** The loader test of `require`: a miss for `custom://test/test.test.test2` throws with the
      string quoted, unless `soft_fail` is `true`. */
  lemma RequireTestVector<O>(singularize: Inflect)
    requires singularize("test2") == "test2"
    ensures RequireOutcome<O>(Text("custom://test/test.test.test2"), NotFound, false, singularize)
         == Err(Error("Identifier \"" + "custom://test/test.test.test2" + "\" is not a correct resource identifier"))
    ensures RequireOutcome<O>(Text("custom://test/test.test.test2"), NotFound, true, singularize) == Ok(())
  {
    var f := Fields("custom", "test", "test", ["test"], Some("test2"));
    CustomTestText();
    CustomTestCanonical(singularize);
    RequireQuotesInput<O>("custom://test/test.test.test2", f, NotFound, singularize);
  }

  /** The loader: the cache switch and the cache, the sequence of templates, the locator
      registry and the aliases. */
  class Loader<O> {
    var allowCache: bool
    var cache: map<string, O>
    var sequence: seq<string>
    var locators: map<string, Locator<O>>
    var aliases: map<string, Fields>

    /** `new ObjectLoader()`: caching off, and everything else empty. */
    constructor ()
      ensures !allowCache && cache == map[] && sequence == [] && locators == map[] && aliases == map[]
    {
      allowCache := false;
      cache := map[];
      sequence := [];
      locators := map[];
      aliases := map[];
    }

    /** `setSequence`: a non-empty array replaces the sequence and the loader is returned; any
        other argument throws and leaves the sequence as it was. */
    method SetSequence(arg: SequenceArg) returns (r: Result<Loader<O>>)
      modifies this`sequence
      ensures ValidateSequence(arg).Ok? ==> r == Ok(this) && sequence == arg.items
      ensures ValidateSequence(arg).Err? ==>
        r == Err(ValidateSequence(arg).error) && sequence == old(sequence)
    {
      if arg.Array? && |arg.items| > 0 {
        sequence := arg.items;
      } else if !arg.Array? {
        return Err(TypeError("The loader sequence is to be an array! (" + arg.typeOf + " given)"));
      } else {
        return Err(Error("The sequence needs to have at least on entry!"));
      }
      return Ok(this);
    }

    /** `setCache`: no argument switches caching on, a boolean sets the switch to that value;
        the loader is returned. */
    method SetCache(param: Option<bool>) returns (self: Loader<O>)
      modifies this`allowCache
      ensures self == this
      ensures allowCache <==> param.None? || param.value
    {
      if param.None? {
        allowCache := true;
      } else {
        allowCache := param.value;
      }
      return this;
    }

    /** The registry part of `addLocator`: the locator is stored under its type unless that type
        already has one. */
    method AddLocator(locator: Locator<O>)
      modifies this`locators
      ensures locators == Register(old(locators), locator)
    {
      if locator.kind !in locators {
        locators := locators[locator.kind := locator];
      }
    }

    /** `_resolve`: the templates of the sequence are tried in order and the first result that is
        not the literal `false` is returned, an exception included; `false` when all miss. The
        source calls `getSequence`, `parseSequence` and `receive`, which the loader does not
        define; the model reads the sequence field and uses `_parseSequence` and `_receive`,
        which is evidently meant. */
    method Resolve(id: Ref, singularize: Inflect) returns (r: Result<Located<O>>)
      ensures r == ResolveSpec(sequence, locators, id, singularize)
    {
      var i := 0;
      while i < |sequence|
        invariant 0 <= i <= |sequence|
        invariant FirstHit(sequence[i..], Step(locators, id, singularize))
               == ResolveSpec(sequence, locators, id, singularize)
      {
        assert sequence[i..][1..] == sequence[i + 1..];
        var ident := ParseSequence(sequence[i], id, singularize);
        if ident.Err? {
          return Err(ident.error);
        }
        var located := Receive(locators, ident.value);
        if !(located.Ok? && located.value.NotFound?) {
          return located;
        }
        i := i + 1;
      }
      return Ok(NotFound);
    }
  }

  // Proof helpers: regroupings of concatenations and evaluations of literal texts. Each is
  // proved alone, in a small context, and used by the lemmas above.

  /** Regrouping a right-nested concatenation of eight strings into the shape of an identifier's
      text: type, scheme, application, slash and the body of package, path and name. */
  lemma Flatten(t: string, g: string, a: string, sl: string, p: string, d: string, j: string, n: string)
    ensures t + (g + (a + (sl + (p + (d + (j + (d + n)))))))
         == t + g + a + sl + (p + d + (j + d) + n)
  {
  }

  /** Nesting eight concatenated strings to the right. */
  lemma Nest8(a: string, b: string, c: string, d: string, e: string, f: string, g: string, h: string)
    ensures a + b + c + d + e + f + g + h == a + (b + (c + (d + (e + (f + (g + h))))))
  {
  }

  /** Nesting nine concatenated strings to the right. */
  lemma Nest9(a: string, b: string, c: string, d: string, e: string, f: string, g: string, h: string, i: string)
    ensures a + b + c + d + e + f + g + h + i == a + (b + (c + (d + (e + (f + (g + (h + i)))))))
  {
  }

  /** The test's template as its chunks in a row. */
  lemma ApplicationTemplateFlat()
    ensures "<Type>://<Application>/<Package>.<Path>.<Name>"
         == "<Type>" + "://" + "<Application>/" + "<Package>" + "." + "<Path>" + "." + "<Name>"
  {
  }

  /** The five-token template as its chunks in a row. */
  lemma IdentityTemplateFlat()
    ensures "<Type>://<App>/<Package>.<Path>.<Name>"
         == "<Type>" + "://" + "<App>" + "/" + "<Package>" + "." + "<Path>" + "." + "<Name>"
  {
  }

  /** `<Application>/` is `<Application>` and a slash. */
  lemma ApplicationSlash(x: string)
    ensures "<Application>/" + x == "<Application>" + ("/" + x)
  {
    assert "<Application>/" == "<Application>" + "/";
  }

  /** `<Application>` holds no separator of the identifier syntax. */
  lemma ApplicationTokenPlain()
    ensures ':' !in "<Application>" && '/' !in "<Application>"
  {
  }

  /** The separators of the identifier syntax hold no `<`. */
  lemma SeparatorsFree()
    ensures '<' !in "://" && '<' !in "/" && '<' !in "."
  {
  }

  /** The text of the loader test's identifier. */
  lemma CustomTestText()
    ensures Render(Fields("custom", "test", "test", ["test"], Some("test2"))) == "custom://test/test.test.test2"
  {
  }

  /** The loader test's identifier holds no `<`. */
  lemma CustomTestFree()
    ensures '<' !in "custom" && '<' !in "test" && '<' !in Join(["test"], ".")
  {
    assert Join(["test"], ".") == "test";
  }

  /** The test's template, chunk by chunk. */
  lemma ApplicationTemplateChunks()
    ensures "<Type>://<Application>/<Package>.<Path>.<Name>"
         == "<Type>" + ("://" + ("<Application>/" + ("<Package>" + ("." + ("<Path>" + ("." + "<Name>"))))))
  {
    ApplicationTemplateFlat();
    Nest8("<Type>", "://", "<Application>/", "<Package>", ".", "<Path>", ".", "<Name>");
  }

  /** Which chunks of the test's template can hold which tokens: none of them. */
  lemma ApplicationGuards()
    ensures Guard("<Application>/", "<App>") && Guard("<Application>/", "<Package>")
    ensures Guard("<Application>/", "<Path>") && Guard("<Application>/", "<Name>")
    ensures Guard("<Package>", "<App>") && Guard("<Path>", "<App>") && Guard("<Name>", "<App>")
    ensures Guard("://", "<App>") && Guard("://", "<Package>") && Guard("://", "<Path>") && Guard("://", "<Name>")
    ensures Guard(".", "<App>") && Guard(".", "<Path>") && Guard(".", "<Name>")
  {
    ApplicationGuardsApp();
    var package, path, name := "<Package>", "<Path>", "<Name>";
    assert package[0] == '<' && package[1] == 'P';
    ApplicationGuardsToken(package);
    assert path[0] == '<' && path[1] == 'P';
    ApplicationGuardsToken(path);
    assert name[0] == '<' && name[1] == 'N';
    ApplicationGuardsToken(name);
    TokenGuardsApp();
    SeparatorGuards();
  }

  /** `<Application>/` differs from `<App>` at index 4. */
  lemma ApplicationGuardsApp()
    ensures Guard("<Application>/", "<App>")
  {
    var m, pat := "<Application>/", "<App>";
    assert m[4] == 'l' && pat[4] == '>';
    assert '<' !in m[1..];
    GuardToken(m, pat, 4);
  }

  /** `<Application>/` differs at index 1 from every token that does not start with `<A`. */
  lemma ApplicationGuardsToken(pat: string)
    requires |pat| >= 2 && pat[0] == '<' && pat[1] != 'A'
    ensures Guard("<Application>/", pat)
  {
    var m := "<Application>/";
    assert m[1] == 'A';
    assert '<' !in m[1..];
    GuardToken(m, pat, 1);
  }

  /** The other tokens differ from `<App>` at index 1. */
  lemma TokenGuardsApp()
    ensures Guard("<Package>", "<App>") && Guard("<Path>", "<App>") && Guard("<Name>", "<App>")
  {
    var pat := "<App>";
    assert pat[1] == 'A';
    var m1, m2, m3 := "<Package>", "<Path>", "<Name>";
    assert m1[1] == 'P' && '<' !in m1[1..];
    GuardToken(m1, pat, 1);
    assert m2[1] == 'P' && '<' !in m2[1..];
    GuardToken(m2, pat, 1);
    assert m3[1] == 'N' && '<' !in m3[1..];
    GuardToken(m3, pat, 1);
  }

  /** The separators hold no `<`, the first character of every token. */
  lemma SeparatorGuards()
    ensures Guard("://", "<App>") && Guard("://", "<Package>") && Guard("://", "<Path>") && Guard("://", "<Name>")
    ensures Guard(".", "<App>") && Guard(".", "<Path>") && Guard(".", "<Name>")
  {
    SeparatorsFree();
    GuardFree("://", "<App>");
    GuardFree("://", "<Package>");
    GuardFree("://", "<Path>");
    GuardFree("://", "<Name>");
    GuardFree(".", "<App>");
    GuardFree(".", "<Path>");
    GuardFree(".", "<Name>");
  }

  /** The five-token template, chunk by chunk. */
  lemma IdentityTemplateChunks()
    ensures "<Type>://<App>/<Package>.<Path>.<Name>"
         == "<Type>" + ("://" + ("<App>" + ("/" + ("<Package>" + ("." + ("<Path>" + ("." + "<Name>")))))))
  {
    IdentityTemplateFlat();
    Nest9("<Type>", "://", "<App>", "/", "<Package>", ".", "<Path>", ".", "<Name>");
  }
}
