/** ObjectIdentifier (lib/identifier.js): parsing `type:[//][application/]package.seg….name`
    into its fields, writing it back with `toString`, cloning by writing and re-parsing, and the
    chainable setters. The fields are first described as a value (`Fields`) with the parse and
    the serialisation as functions on it; the class `Identifier` holds the same fields as
    mutable state and is proved against those functions. */
module Identifiers {
  import opened Wrappers
  import opened Strings

  /** Inflector.singularize. The inflector is outside the model, so every operation that needs
      it takes it as an argument; round trips hold for names it leaves unchanged. */
  type Inflect = string -> string

  /** The five fields of an identifier. `kind` is the source's `type` (a reserved word here).
      `name` is None when the parse found no segment for it: `Array.prototype.pop` then gives
      `undefined`. */
  datatype Fields = Fields(
    kind: string,
    application: string,
    package: string,
    path: seq<string>,
    name: Option<string>)

  /** The text `toString` writes for a name: `undefined` and "" are both falsy and add nothing. */
  function NameText(name: Option<string>): string {
    match name
    case None => ""
    case Some(n) => n
  }

  /** The identifier's constructor. A string without `:` throws (the source's
      `indexOf(':') === -1`, which is the absence of `:` by Strings.IndexOfChar); otherwise the
      string is split on every `:` and only parts 0 and 1 are used: part 0 is the type and part 1
      is read by ReadPart. */
  function ParseFields(raw: string, singularize: Inflect): Result<Fields> {
    if ':' !in raw then Err(TypeError("Malformed identifier"))
    else
      var parts := Split(raw, ':');
      ReadPart(parts[0], parts[1], singularize)
  }

  /** Part 1 loses its first `//` (wherever it occurs) and is split on every `/`; either its
      only piece or, with two or more pieces, piece 1 (piece 0 being the application) then loses
      its first `/` and is split on `.` into segments. */
  function ReadPart(kind: string, text: string, singularize: Inflect): Result<Fields> {
    var pieces := Split(ReplaceFirst(text, "//", ""), '/');
    if |pieces| == 1 then
      FromSegments(kind, "", Split(ReplaceFirst(pieces[0], "/", ""), '.'), singularize)
    else
      FromSegments(kind, pieces[0], Split(ReplaceFirst(pieces[1], "/", ""), '.'), singularize)
  }

  /** The end of the constructor: `shift` the first segment off as the package, `pop` the last of
      the rest off and singularize it as the name; what remains is the path. */
  function FromSegments(kind: string, application: string, segments: seq<string>,
                        singularize: Inflect): (r: Result<Fields>)
    requires |segments| >= 1
    ensures r.Ok? && r.value.kind == kind && r.value.application == application
    ensures r.value.package == segments[0]
    ensures |segments| == 1 ==> r.value.path == [] && r.value.name == None
    ensures |segments| >= 2 ==>
      && r.value.path == segments[1..|segments| - 1]
      && |r.value.path| == |segments| - 2
      && r.value.name == Some(singularize(segments[|segments| - 1]))
  {
    var rest := segments[1..];
    if rest == [] then Ok(Fields(kind, application, segments[0], [], None))
    else Ok(Fields(kind, application, segments[0], rest[..|rest| - 1], Some(singularize(rest[|rest| - 1]))))
  }

  /** `toString`. The type is followed by `://` when there is an application and by `:`
      otherwise; an empty type, application, package or name adds nothing. The path always adds
      its segments joined by `.` and one more `.`, because an array, even an empty one, is
      truthy: an empty path therefore leaves two dots between the package and the name. */
  function Render(f: Fields): string {
    (if f.kind != "" then f.kind + (if f.application != "" then "://" else ":") else "")
    + (if f.application != "" then f.application + "/" else "")
    + (if f.package != "" then f.package + "." else "")
    + (Join(f.path, ".") + ".")
    + NameText(f.name)
  }

  /** A piece that survives splitting on every separator the parse uses. */
  predicate Segment(s: string) {
    ':' !in s && '/' !in s && '.' !in s
  }

  /** The fields a parse can produce: no part holds a separator that splits it out. */
  predicate Plain(f: Fields) {
    && ':' !in f.kind
    && ':' !in f.application && '/' !in f.application
    && Segment(f.package)
    && forall i :: 0 <= i < |f.path| ==> Segment(f.path[i])
  }

  /** No field holds `:`. */
  predicate ColonFree(f: Fields) {
    && ':' !in f.kind && ':' !in f.application && ':' !in f.package
    && (forall i :: 0 <= i < |f.path| ==> ':' !in f.path[i])
    && ':' !in NameText(f.name)
  }

  /** Fields that `toString` writes in a form the constructor reads back: a type and a package
      (both are dropped from the text when empty), plain parts, and a name the inflector keeps. */
  predicate Canonical(f: Fields, singularize: Inflect) {
    && Plain(f)
    && f.kind != ""
    && f.package != ""
    && Segment(NameText(f.name))
    && singularize(NameText(f.name)) == NameText(f.name)
  }

  /** What a write-and-reparse makes of fields: the empty path comes back as one empty segment
      and the name is always present. */
  function Normalize(f: Fields): Fields {
    f.(path := if f.path == [] then [""] else f.path, name := Some(NameText(f.name)))
  }

  /** The failure case: the constructor throws exactly when the string has no `:`. */
  lemma MalformedIffNoColon(raw: string, singularize: Inflect)
    ensures ParseFields(raw, singularize).Err? <==> ':' !in raw
    ensures ParseFields(raw, singularize).Err? ==>
      ParseFields(raw, singularize).error == TypeError("Malformed identifier")
  {
  }

  /** The type is the text before the first `:`. */
  lemma {:induction false} ParsedKindBeforeColon(raw: string, singularize: Inflect)
    requires ':' in raw
    ensures ParseFields(raw, singularize).Ok?
    ensures var k := ParseFields(raw, singularize).value.kind;
      |k| < |raw| && raw[..|k|] == k && raw[|k|] == ':' && ':' !in k
  {
    var parts := Split(raw, ':');
    assert Join(parts, ":") == parts[0] + ":" + Join(parts[1..], ":");
    assert raw[..|parts[0]|] == parts[0];
  }

  /** A type without `:` followed by one `:` and a part without `:`. */
  lemma ColonSplit(t: string, text: string, singularize: Inflect)
    requires ':' !in t && ':' !in text
    ensures ParseFields(t + ":" + text, singularize) == ReadPart(t, text, singularize)
  {
    assert t + ":" + text == t + [':'] + text;
    SplitAppend(t, text, ':');
    SplitWithout(text, ':');
  }

  /** How part 1 is read, in general: once its first `//` is removed, a single `/`-piece means
      no application and that piece is split on `.`; with two or more pieces, piece 0 is the
      application, piece 1 is split on `.` and the other pieces are not read. The
      `.replace('/', '')` on the piece never changes it, since no piece holds a `/`. */
  lemma ReadPartPieces(kind: string, text: string, singularize: Inflect)
    ensures var pieces := Split(ReplaceFirst(text, "//", ""), '/');
      && (|pieces| == 1 ==>
            ReadPart(kind, text, singularize) == FromSegments(kind, "", Split(pieces[0], '.'), singularize))
      && (|pieces| >= 2 ==>
            ReadPart(kind, text, singularize) == FromSegments(kind, pieces[0], Split(pieces[1], '.'), singularize))
  {
    var pieces := Split(ReplaceFirst(text, "//", ""), '/');
    ReplaceFirstAbsent(pieces[0], "/", "");
    if |pieces| >= 2 {
      ReplaceFirstAbsent(pieces[1], "/", "");
    }
  }

  /** `type://package.path.name`: the `//` goes, one piece remains, and there is no application. */
  lemma SlashesNoApplication(t: string, body: string, singularize: Inflect)
    requires ':' !in t && ':' !in body && '/' !in body
    ensures ParseFields(t + "://" + body, singularize) == FromSegments(t, "", Split(body, '.'), singularize)
    ensures ParseFields(t + "://" + body, singularize).value.application == ""
  {
    SchemeOnly(t, body);
    var text := "//" + body;
    ColonSplit(t, text, singularize);
    RemoveFirstHead("//", body);
    SplitWithout(body, '/');
    ReadPartPieces(t, text, singularize);
  }

  /** `type:app/package.name`: no `//` is needed for an application; the piece before the `/` is
      one. */
  lemma ApplicationWithoutSlashes(t: string, a: string, body: string, singularize: Inflect)
    requires ':' !in t && ':' !in a && ':' !in body
    requires '/' !in a && '/' !in body
    ensures ParseFields(t + ":" + (a + "/" + body), singularize) == FromSegments(t, a, Split(body, '.'), singularize)
    ensures ParseFields(t + ":" + (a + "/" + body), singularize).value.application == a
  {
    var text := a + "/" + body;
    ColonSplit(t, text, singularize);
    NoDoubleSlash(a, body);
    assert text == a + ['/'] + body;
    SplitAppend(a, body, '/');
    SplitWithout(body, '/');
    ReadPartPieces(t, text, singularize);
  }

  /** A text with a single `/` holds no `//`, so removing the first `//` leaves it as it is. */
  lemma NoDoubleSlash(a: string, b: string)
    requires '/' !in a && '/' !in b
    ensures ReplaceFirst(a + "/" + b, "//", "") == a + "/" + b
  {
    var s := a + "/" + b;
    forall i: nat
      ensures !OccursAt(s, "//", i)
    {
      if i + 2 <= |s| {
        assert s[i..i + 2][0] == s[i] && s[i..i + 2][1] == s[i + 1];
        if i < |a| {
          assert s[i] == a[i];
        } else if i == |a| {
          assert s[i + 1] == b[0];
        } else {
          assert s[i] == b[i - |a| - 1];
        }
      }
    }
    ReplaceNone(s, "//", "");
  }

  /** A `//` inside part 1 is removed too, wherever it stands: `type:app//package.name` is one
      piece, with no application, whose first segment runs from `app` into `package`. */
  lemma InnerSlashesRemoved(t: string, a: string, body: string, singularize: Inflect)
    requires ':' !in t && ':' !in a && ':' !in body
    requires '/' !in a && '/' !in body
    ensures ParseFields(t + ":" + (a + "//" + body), singularize) == FromSegments(t, "", Split(a + body, '.'), singularize)
  {
    var text := a + "//" + body;
    ColonSplit(t, text, singularize);
    RemoveFirstAfter(a, "//", body);
    SplitWithout(a + body, '/');
    ReadPartPieces(t, text, singularize);
  }

  /** Whatever follows a second `:` is ignored. */
  lemma DropsAfterSecondColon(x: string, y: string, z: string, singularize: Inflect)
    requires ':' !in x && ':' !in y
    ensures ParseFields(x + ":" + y + ":" + z, singularize) == ParseFields(x + ":" + y, singularize)
  {
    var raw := x + ":" + y + ":" + z;
    assert raw == x + [':'] + (y + [':'] + z);
    SplitAppend(y, z, ':');
    SplitAppend(x, y + [':'] + z, ':');
    assert Split(raw, ':')[0] == x && Split(raw, ':')[1] == y;
    assert ':' in raw;
    ColonSplit(x, y, singularize);
  }

  /** Without `/`, there is no application and the whole part after the `:` is split on `.`. */
  lemma NoApplication(t: string, body: string, singularize: Inflect)
    requires ':' !in t && ':' !in body && '/' !in body
    ensures ParseFields(t + ":" + body, singularize) == FromSegments(t, "", Split(body, '.'), singularize)
    ensures ParseFields(t + ":" + body, singularize).value.application == ""
  {
    ColonSplit(t, body, singularize);
    ReplaceFirstAbsent(body, "//", "");
    SplitWithout(body, '/');
    ReplaceFirstAbsent(body, "/", "");
  }

  /** Part 1 starting with `//`: the text up to the next `/` is the application, even when it is
      empty, and the piece after that `/` is split on `.`; further pieces are not read. */
  lemma ReadAfterSlashes(t: string, a: string, rest: string, piece: string, singularize: Inflect)
    requires '/' !in piece
    requires var pieces := Split(a + "/" + rest, '/'); |pieces| >= 2 && pieces[0] == a && pieces[1] == piece
    ensures ReadPart(t, "//" + a + "/" + rest, singularize) == FromSegments(t, a, Split(piece, '.'), singularize)
  {
    Regroup4("//", a, "/", rest);
    ReplaceFirstHead("//", a + "/" + rest, "");
    assert "" + (a + "/" + rest) == a + "/" + rest;
    ReplaceFirstAbsent(piece, "/", "");
  }

  /** After `://`, the text up to the next `/` is the application, even when it is empty, and
      the text after that `/` is split on `.`. */
  lemma WithApplication(t: string, a: string, body: string, singularize: Inflect)
    requires ':' !in t && ':' !in a && ':' !in body
    requires '/' !in a && '/' !in body
    ensures ParseFields(t + "://" + a + "/" + body, singularize) == FromSegments(t, a, Split(body, '.'), singularize)
    ensures ParseFields(t + "://" + a + "/" + body, singularize).value.application == a
  {
    var text := "//" + a + "/" + body;
    SchemeText(t, a, body);
    ColonSplit(t, text, singularize);
    assert a + "/" + body == a + ['/'] + body;
    SplitAppend(a, body, '/');
    SplitWithout(body, '/');
    ReadAfterSlashes(t, a, body, body, singularize);
  }

  /** With three or more `/`-pieces only the first two are read. */
  lemma IgnoresExtraPieces(t: string, a: string, body: string, z: string, singularize: Inflect)
    requires ':' !in t && ':' !in a && ':' !in body && ':' !in z
    requires '/' !in a && '/' !in body
    ensures ParseFields(t + "://" + a + "/" + body + "/" + z, singularize)
         == ParseFields(t + "://" + a + "/" + body, singularize)
  {
    var rest := body + "/" + z;
    var text := "//" + a + "/" + rest;
    SchemeText(t, a, rest);
    TailText(t + "://" + a + "/", body, z);
    ColonSplit(t, text, singularize);
    assert rest == body + ['/'] + z;
    SplitAppend(body, z, '/');
    assert a + "/" + rest == a + ['/'] + rest;
    SplitAppend(a, rest, '/');
    ReadAfterSlashes(t, a, rest, body, singularize);
    WithApplication(t, a, body, singularize);
  }

  /** Every field a parse produces, except the singularized name, is plain. */
  lemma ParsedFieldsArePlain(raw: string, singularize: Inflect)
    requires ':' in raw
    ensures Plain(ParseFields(raw, singularize).value)
  {
    var parts := Split(raw, ':');
    var text := ReplaceFirst(parts[1], "//", "");
    ReplaceFirstKeepsOut(parts[1], "//", ':');
    SplitPartsWithout(text, '/', ':');
    var pieces := Split(text, '/');
    var chosen := if |pieces| == 1 then pieces[0] else pieces[1];
    ReplaceFirstKeepsOut(chosen, "/", ':');
    ReplaceFirstKeepsOut(chosen, "/", '/');
    var segs := Split(ReplaceFirst(chosen, "/", ""), '.');
    SplitPartsWithout(ReplaceFirst(chosen, "/", ""), '.', ':');
    SplitPartsWithout(ReplaceFirst(chosen, "/", ""), '.', '/');
    var f := ParseFields(raw, singularize).value;
    assert f == FromSegments(parts[0], if |pieces| == 1 then "" else pieces[0], segs, singularize).value;
    forall i | 0 <= i < |f.path|
      ensures Segment(f.path[i])
    {
      assert f.path[i] == segs[i + 1];
    }
  }

  /** The text of the package, path and name, as `toString` writes it and as the segments it
      splits back into. */
  lemma BodySegments(f: Fields)
    requires Plain(f) && Segment(NameText(f.name))
    ensures var body := f.package + "." + (Join(f.path, ".") + ".") + NameText(f.name);
            var segs := [f.package] + (Normalize(f).path + [NameText(f.name)]);
            && Split(body, '.') == segs
            && ':' !in body && '/' !in body
  {
    var n := NameText(f.name);
    var p := Normalize(f).path;
    var segs := [f.package] + (p + [n]);
    var body := f.package + "." + (Join(f.path, ".") + ".") + n;
    assert Join(p, ".") == Join(f.path, ".");
    JoinSplitsOff(f.package, p, n);
    assert body == Join(segs, ".");
    forall i | 0 <= i < |segs|
      ensures Segment(segs[i])
    {
      if 0 < i < |segs| - 1 {
        assert segs[i] == p[i - 1];
      }
    }
    SplitJoin(segs, '.');
    NotInJoin(segs, ".", ':');
    NotInJoin(segs, ".", '/');
  }

  /** Joining a first part, a non-empty middle and a last part. */
  lemma JoinSplitsOff(first: string, middle: seq<string>, last: string)
    requires |middle| >= 1
    ensures Join([first] + (middle + [last]), ".") == first + "." + (Join(middle, ".") + ".") + last
  {
    JoinSnoc(middle, last, ".");
    JoinCons(first, middle + [last], ".");
    Regroup(first, Join(middle, "."), last);
  }

  /** toString then the constructor: canonical fields come back normalized, so that
      `parse(toString(f))` agrees with `f` up to the empty path and the absent name. */
  lemma ParseRender(f: Fields, singularize: Inflect)
    requires Canonical(f, singularize)
    ensures ParseFields(Render(f), singularize) == Ok(Normalize(f))
  {
    var n := NameText(f.name);
    var body := f.package + "." + (Join(f.path, ".") + ".") + n;
    BodySegments(f);
    RenderShape(f);
    if f.application == "" {
      NoApplication(f.kind, body, singularize);
    } else {
      WithApplication(f.kind, f.application, body, singularize);
    }
    SegmentsRead(f, singularize);
  }

  /** The two shapes of the text of fields with a type and a package. */
  lemma RenderShape(f: Fields)
    requires f.kind != "" && f.package != ""
    ensures var body := f.package + "." + (Join(f.path, ".") + ".") + NameText(f.name);
      Render(f) == if f.application == "" then f.kind + ":" + body
                   else f.kind + "://" + f.application + "/" + body
  {
  }

  /** The segments of the body of canonical fields read back as their normalized fields. */
  lemma SegmentsRead(f: Fields, singularize: Inflect)
    requires Canonical(f, singularize)
    ensures FromSegments(f.kind, f.application, [f.package] + (Normalize(f).path + [NameText(f.name)]), singularize)
         == Ok(Normalize(f))
  {
    var segs := [f.package] + (Normalize(f).path + [NameText(f.name)]);
    assert segs[1..|segs| - 1] == Normalize(f).path;
  }

  /** Normalizing does not change what toString writes. */
  lemma RenderNormalize(f: Fields)
    ensures Render(Normalize(f)) == Render(f)
  {
    assert Join([""], ".") == "" == Join([], ".");
  }

  /** The exact round trip `parse(toString(f)) == f`: canonical fields with a non-empty path and a
      name. */
  lemma RoundTrip(f: Fields, singularize: Inflect)
    requires Canonical(f, singularize) && f.path != [] && f.name.Some?
    ensures ParseFields(Render(f), singularize) == Ok(f)
  {
    ParseRender(f, singularize);
  }

  /** `clone().toString() == toString()` for canonical fields: writing and re-reading is stable. */
  lemma CloneStable(f: Fields, singularize: Inflect)
    requires Canonical(f, singularize)
    ensures ParseFields(Render(f), singularize).Ok?
    ensures Render(ParseFields(Render(f), singularize).value) == Render(f)
  {
    ParseRender(f, singularize);
    RenderNormalize(f);
  }

  /** The same for an identifier that was itself parsed from a string: it needs a type, a
      package (EmptyPackageCloneDiffers shows why) and a plain name the inflector keeps; a parse
      supplies the rest. */
  lemma ParsedCloneStable(raw: string, singularize: Inflect)
    requires ':' in raw
    requires var f := ParseFields(raw, singularize).value;
      f.kind != "" && f.package != "" && Segment(NameText(f.name))
      && singularize(NameText(f.name)) == NameText(f.name)
    ensures var f := ParseFields(raw, singularize).value;
      ParseFields(Render(f), singularize).Ok? && Render(ParseFields(Render(f), singularize).value) == Render(f)
  {
    ParsedFieldsArePlain(raw, singularize);
    CloneStable(ParseFields(raw, singularize).value, singularize);
  }

  /** The other way round, `toString(parse(s)) == s`, for every string that is the text of
      canonical fields with a non-empty path and a name. */
  lemma RenderParse(s: string, f: Fields, singularize: Inflect)
    requires Canonical(f, singularize) && f.path != [] && f.name.Some?
    requires s == Render(f)
    ensures ParseFields(s, singularize).Ok? && Render(ParseFields(s, singularize).value) == s
  {
    RoundTrip(f, singularize);
  }

  /** Without a type, and with no `:` in any field, there is no `:` to write, so the text cannot
      be parsed again: `clone` throws on such an identifier. */
  lemma TypelessCloneThrows(f: Fields, singularize: Inflect)
    requires f.kind == "" && ColonFree(f)
    ensures ParseFields(Render(f), singularize) == Err(TypeError("Malformed identifier"))
  {
    NotInJoin(f.path, ".", ':');
    assert Render(f) == (if f.application != "" then f.application + "/" else "")
      + (if f.package != "" then f.package + "." else "") + (Join(f.path, ".") + ".") + NameText(f.name);
  }

  /** Why ParsedCloneStable asks for a package: a parsed identifier with an empty package need
      not clone stably. `t:.x.n` is read with an empty package and the path `[x]`, and written
      as `t:x.n`; that text is read with the package `x` and an empty path, so the clone writes
      `t:x..n`. No field holds a separator and the path is non-empty. */
  lemma EmptyPackageCloneDiffers(t: string, x: string, n: string, singularize: Inflect)
    requires ':' !in t && t != "" && Segment(x) && x != "" && Segment(n) && singularize(n) == n
    ensures ParseFields(t + ":" + ("." + x + "." + n), singularize) == Ok(Fields(t, "", "", [x], Some(n)))
    ensures Render(Fields(t, "", "", [x], Some(n))) == t + ":" + (x + "." + n)
    ensures ParseFields(t + ":" + (x + "." + n), singularize) == Ok(Fields(t, "", x, [], Some(n)))
    ensures Render(Fields(t, "", x, [], Some(n))) == t + ":" + (x + ".." + n)
    ensures Render(Fields(t, "", x, [], Some(n))) != Render(Fields(t, "", "", [x], Some(n)))
  {
    LeadingDotRead(t, x, n, singularize);
    PackageFirstRead(t, x, n, singularize);
    EmptyPackageText(t, x, n);
    EmptyPathText(t, x, n);
    assert |x + ".." + n| == |x + "." + n| + 1;
  }

  /** `t:.x.n` has three segments, the first of them empty. */
  lemma LeadingDotRead(t: string, x: string, n: string, singularize: Inflect)
    requires ':' !in t && Segment(x) && Segment(n) && singularize(n) == n
    ensures ParseFields(t + ":" + ("." + x + "." + n), singularize) == Ok(Fields(t, "", "", [x], Some(n)))
  {
    var body := "." + x + "." + n;
    ThreeText(x, n);
    assert ':' !in body && '/' !in body;
    SplitJoin(["", x, n], '.');
    NoApplication(t, body, singularize);
  }

  /** `t:x.n` has two segments: a package and a name. */
  lemma PackageFirstRead(t: string, x: string, n: string, singularize: Inflect)
    requires ':' !in t && Segment(x) && Segment(n) && singularize(n) == n
    ensures ParseFields(t + ":" + (x + "." + n), singularize) == Ok(Fields(t, "", x, [], Some(n)))
  {
    var body := x + "." + n;
    TwoText(x, n);
    assert ':' !in body && '/' !in body;
    SplitJoin([x, n], '.');
    NoApplication(t, body, singularize);
  }

  /** The identifier of the first test string: every field is read, and written back. */
  lemma NormalTestString(singularize: Inflect)
    requires singularize("name") == "name"
    ensures ParseFields("type://application/package.path.name", singularize)
         == Ok(Fields("type", "application", "package", ["path"], Some("name")))
    ensures Render(Fields("type", "application", "package", ["path"], Some("name")))
         == "type://application/package.path.name"
  {
    var f := Fields("type", "application", "package", ["path"], Some("name"));
    NormalText();
    NormalCanonical(singularize);
    RoundTrip(f, singularize);
  }

  /** The first test identifier is canonical. */
  lemma NormalCanonical(singularize: Inflect)
    requires singularize("name") == "name"
    ensures Canonical(Fields("type", "application", "package", ["path"], Some("name")), singularize)
  {
    assert ':' !in "application" && '/' !in "application";
    assert Segment("package") && Segment("path") && Segment("name");
  }

  /** The identifier of the second test string, without an application. */
  lemma CoreTestString(singularize: Inflect)
    requires singularize("default") == "default"
    ensures ParseFields("core:database.table.default", singularize)
         == Ok(Fields("core", "", "database", ["table"], Some("default")))
    ensures Render(Fields("core", "", "database", ["table"], Some("default")))
         == "core:database.table.default"
  {
    var f := Fields("core", "", "database", ["table"], Some("default"));
    CoreText();
    CoreCanonical(singularize);
    RoundTrip(f, singularize);
  }

  /** The second test identifier is canonical. */
  lemma CoreCanonical(singularize: Inflect)
    requires singularize("default") == "default"
    ensures Canonical(Fields("core", "", "database", ["table"], Some("default")), singularize)
  {
  }

  /** The empty path still writes its dot: two dots end up between package and name. */
  lemma EmptyPathDoublesDot(singularize: Inflect)
    requires singularize("default") == "default"
    ensures Render(ParseFields("core:database.default", singularize).value) == "core:database..default"
  {
    CoreDefaultText();
    NoApplication("core", "database.default", singularize);
    TwoSegments();
    var f := FromSegments("core", "", ["database", "default"], singularize).value;
    assert f == Fields("core", "", "database", [], Some("default"));
    DoubleDotText();
  }

  /** "database.default" splits into its two segments. */
  lemma TwoSegments()
    ensures Split("database.default", '.') == ["database", "default"]
  {
    SplitJoin(["database", "default"], '.');
    assert Join(["database", "default"], ".") == "database.default";
  }

  /** An identifier: the five fields that the constructor fills in and the setters replace. */
  class Identifier {
    var kind: string
    var application: string
    var package: string
    var path: seq<string>
    var name: Option<string>

    /** The fields as a value. */
    function Value(): Fields
      reads this
    {
      Fields(kind, application, package, path, name)
    }

    /** `toString`. */
    function ToString(): string
      reads this
    {
      Render(Value())
    }

    /** The initial assignments of the constructor, before part 1 of the string is read. */
    constructor Blank(kind: string)
      ensures Value() == Fields(kind, "", "", [], Some(""))
    {
      this.kind := kind;
      this.application := "";
      this.package := "";
      this.path := [];
      this.name := Some("");
    }

    /** `new ObjectIdentifier(raw)`: a fresh identifier with the parsed fields, or the exception. */
    static method Parse(raw: string, singularize: Inflect) returns (r: Result<Identifier>)
      ensures r.Err? ==> ParseFields(raw, singularize) == Err(r.error)
      ensures r.Ok? ==> fresh(r.value) && ParseFields(raw, singularize) == Ok(r.value.Value())
    {
      if ':' !in raw {
        return Err(TypeError("Malformed identifier"));
      }
      var parts := Split(raw, ':');
      var id := new Identifier.Blank(parts[0]);
      var pieces := Split(ReplaceFirst(parts[1], "//", ""), '/');
      var segments: seq<string>;
      if |pieces| == 1 {
        id.application := "";
        segments := Split(ReplaceFirst(pieces[0], "/", ""), '.');
      } else {
        id.application := pieces[0];
        segments := Split(ReplaceFirst(pieces[1], "/", ""), '.');
      }
      assert ParseFields(raw, singularize) == FromSegments(parts[0], id.application, segments, singularize);
      // shift
      id.package := segments[0];
      var rest := segments[1..];
      // pop, then singularize
      if rest == [] {
        id.path := [];
        id.name := None;
      } else {
        id.path := rest[..|rest| - 1];
        id.name := Some(singularize(rest[|rest| - 1]));
      }
      return Ok(id);
    }

    /** `clone`: a fresh identifier parsed from this one's text. It throws when the text has no
        `:` (an empty type, when no field holds `:`), and reproduces the text whenever the fields
        are canonical. */
    method Clone(singularize: Inflect) returns (r: Result<Identifier>)
      ensures r.Err? ==> ParseFields(ToString(), singularize) == Err(r.error)
      ensures r.Ok? ==> fresh(r.value) && ParseFields(ToString(), singularize) == Ok(r.value.Value())
      ensures Canonical(Value(), singularize) ==>
        r.Ok? && r.value.Value() == Normalize(Value()) && r.value.ToString() == ToString()
    {
      r := Parse(ToString(), singularize);
      if Canonical(Value(), singularize) {
        CloneStable(Value(), singularize);
        ParseRender(Value(), singularize);
      }
    }

    /** `setType`: replaces the type only and returns the same identifier. */
    method SetType(kind: string) returns (self: Identifier)
      modifies this
      ensures self == this
      ensures Value() == old(Value()).(kind := kind)
    {
      this.kind := kind;
      return this;
    }

    /** `setApplication`: replaces the application only and returns the same identifier. */
    method SetApplication(application: string) returns (self: Identifier)
      modifies this
      ensures self == this
      ensures Value() == old(Value()).(application := application)
    {
      this.application := application;
      return this;
    }

    /** `setPackage`: replaces the package only and returns the same identifier. */
    method SetPackage(package: string) returns (self: Identifier)
      modifies this
      ensures self == this
      ensures Value() == old(Value()).(package := package)
    {
      this.package := package;
      return this;
    }

    /** `setPath`: replaces the path only and returns the same identifier. */
    method SetPath(path: seq<string>) returns (self: Identifier)
      modifies this
      ensures self == this
      ensures Value() == old(Value()).(path := path)
    {
      this.path := path;
      return this;
    }

    /** `setName`: replaces the name only and returns the same identifier. */
    method SetName(name: string) returns (self: Identifier)
      modifies this
      ensures self == this
      ensures Value() == old(Value()).(name := Some(name))
    {
      this.name := Some(name);
      return this;
    }
  }

  // Proof helpers: regroupings of concatenations and evaluations of literal texts. Each is
  // proved alone, in a small context, and used by the lemmas above.

  /** Regrouping the text of package, path and name. */
  lemma Regroup(first: string, middle: string, last: string)
    ensures first + "." + (middle + "." + last) == first + "." + (middle + ".") + last
  {
  }

  /** Regrouping a text that ends in two `/`-separated pieces. */
  lemma TailText(prefix: string, body: string, z: string)
    ensures prefix + body + "/" + z == prefix + (body + "/" + z)
  {
  }

  /** `://` directly followed by the body. */
  lemma SchemeOnly(t: string, body: string)
    ensures t + "://" + body == t + ":" + ("//" + body)
  {
    assert "://" == ":" + "//";
  }

  /** `://` is a `:` followed by `//`. */
  lemma SchemeText(t: string, a: string, body: string)
    ensures t + "://" + a + "/" + body == t + ":" + ("//" + a + "/" + body)
  {
    assert "://" == ":" + "//";
  }

  /** The second test string without its path segment. */
  lemma CoreDefaultText()
    ensures "core" + ":" + "database.default" == "core:database.default"
  {
  }

  /** The text of the first test identifier. */
  lemma NormalText()
    ensures Render(Fields("type", "application", "package", ["path"], Some("name")))
         == "type://application/package.path.name"
  {
  }

  /** The text of the second test identifier. */
  lemma CoreText()
    ensures Render(Fields("core", "", "database", ["table"], Some("default")))
         == "core:database.table.default"
  {
  }

  /** The texts of three and of two segments. */
  lemma ThreeText(x: string, n: string)
    ensures Join(["", x, n], ".") == "." + x + "." + n
  {
    JoinCons("", [x, n], ".");
    TwoText(x, n);
  }

  /** Two segments joined. */
  lemma TwoText(x: string, n: string)
    ensures Join([x, n], ".") == x + "." + n
  {
  }

  /** The text of fields with an empty package. */
  lemma EmptyPackageText(t: string, x: string, n: string)
    requires t != ""
    ensures Render(Fields(t, "", "", [x], Some(n))) == t + ":" + (x + "." + n)
  {
  }

  /** The text of fields with a package and an empty path. */
  lemma EmptyPathText(t: string, x: string, n: string)
    requires t != "" && x != ""
    ensures Render(Fields(t, "", x, [], Some(n))) == t + ":" + (x + ".." + n)
  {
  }

  /** The text of fields with an empty path. */
  lemma DoubleDotText()
    ensures Render(Fields("core", "", "database", [], Some("default"))) == "core:database..default"
  {
  }
}
