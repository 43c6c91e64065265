# raddish-loader: identifier parsing and object resolution, in Dafny

This project models the core of raddish-loader, which has two parts:

- **ObjectIdentifier** parses identifiers of the form `type:[//][application/]package.path….name`. It
  splits them into type, application, package, path segments and a singularized name. It writes them
  back with `toString`, clones them by writing and re-parsing, and has chainable setters.
- **ObjectLoader** holds a sequence of identifier templates, a registry of locators keyed by type,
  and a cache switch. It fills an identifier into each template and asks the locator for the
  resulting type. `require` then decides whether a failed resolution throws.

Files:

- `wrappers.dfy` (module `Wrappers`): `Option`, and the thrown exceptions as a `Result`. A
  `TypeError` or `Error` carries the exact message the source throws. `NoLocator(type)` is a
  distinct error that stands for the TypeError the runtime throws when `_receive` reads `locate`
  of a missing locator.
- `strings.dfy` (module `Strings`): the JavaScript builtins the code relies on. These are
  `indexOf`, `replace` with a string pattern (first occurrence only), `split` on one character
  (empty parts kept) and `join`. It also proves their laws: `split` undoes `join`, replacement past
  a prefix that cannot hold the pattern, and so on.
- `identifier.dfy` (module `Identifiers`):
  - the identifier's fields as a value (`Fields`);
  - the constructor (`ParseFields` with `ReadPart` and `FromSegments`) and `toString` (`Render`)
    as functions;
  - the round-trip lemmas;
  - the class `Identifier`. Its imperative constructor (`Parse`) fills in a fresh object and is
    proved to compute `ParseFields`. `Clone` returns a fresh object parsed from `Render` of this
    one. The setters update one field in place and are proved to leave the others as they were.
- `loader.dfy` (module `Loaders`):
  - the class `Loader`, with its state and `SetSequence`, `SetCache`, `AddLocator` and `Resolve`;
  - `_parseSequence` (`Substitute`, `ParseSequence`) and `_receive` (`Receive`), kept as plain
    definitions;
  - the ordered search `_resolve` (`ResolveSpec`, proved equal to the loop in `Loader.Resolve`);
  - the throw or soft-fail decision of `require` (`RequireOutcome`).

Modelling choices:

- **The inflector.** `Inflector.singularize` belongs to another package. It is a parameter
  `singularize: string -> string`. Round trips are stated for names it leaves unchanged.
- **JavaScript `undefined`.** A name that `pop` finds no segment for is `None`. `toString` writes
  nothing for it, and `_parseSequence` inserts the text `undefined` for it, as `replace` does.
- **What a locator returns** is `NotFound` (the literal `false`), `Falsy` (another falsy value) or
  `Found(obj)`. `_resolve` moves on only after `false`, while `require` throws on any falsy value.
  A `locate` that throws is an `Err`.
- **No locator for a type.** `_receive` then reads `locate` of `undefined`, which throws. The model
  returns the error `NoLocator(type)`, and that error ends the resolution (`UnregisteredStops`).
- **Calls to members that do not exist.** `_resolve` calls `getSequence`, `parseSequence` and
  `receive`, and `_receive` reads a free variable `locators`. None of these exist. The model uses
  the loader's `sequence` field, `_parseSequence`, `_receive` and the loader's registry, which is
  evidently meant.

Where the code does something its identifier format does not suggest, the model follows the code:

- Part 1 of the string (after the first `:`) loses its first `//` wherever it occurs, not only a
  leading one (`InnerSlashesRemoved`). An application needs no `//` (`ApplicationWithoutSlashes`),
  and `type://package.name` has none (`SlashesNoApplication`).
- The string is split on every `:`, and text after a second `:` is dropped
  (`DropsAfterSecondColon`).
- In the constructor, the `.replace('/', '')` applied to a `/`-piece changes nothing, because that
  piece contains no `/`.
- `toString` writes the path and one `.` even when the path is empty, because an empty array is
  truthy. `core:database.default` is written back as `core:database..default`
  (`EmptyPathDoublesDot`).
- Cloning throws for an identifier with an empty type when no field holds `:`
  (`TypelessCloneThrows`). It is stable for canonical fields: a type, a package, no separator
  inside a field, and a name the inflector keeps (`CloneStable`).
- A parsed identifier can have an empty package, and then its clone can write a different text
  (`EmptyPackageCloneDiffers`). `t:.x.n` is read with an empty package and the path `[x]` and is
  written as `t:x.n`; that text is read with the package `x` and an empty path, so the clone
  writes `t:x..n`. With an empty package the round trip
  `clone(parse(s)).toString() == parse(s).toString()` can therefore fail; `ParsedCloneStable`
  proves it when the parse yields a type and a package.
- The loader's own test fills in the template `<Type>://<Application>/<Package>.<Path>.<Name>`.
  `<Application>` is not a token, so it stays in the text and becomes the new identifier's
  application (`ApplicationTokenStays`). The template with `<App>` reads an identifier back
  (`IdentityTemplate`).

## Model

| member | source | states |
|---|---|---|
| Strings.IndexOf | lib/identifier.js:16 | `indexOf`: -1 exactly when the pattern occurs nowhere; otherwise an index where it occurs, with no occurrence before it |
| Strings.IndexOfChar | lib/identifier.js:16 | `indexOf(':') === -1`, the constructor's test, holds exactly when `:` does not occur, which is the test `ParseFields` and `Identifier.Parse` make |
| Strings.Split | lib/identifier.js:20 | `split` on one character: at least one part, no part holds the separator, joining the parts with it gives the string back, and there is more than one part exactly when the separator occurs |
| Strings.SplitAppend | lib/identifier.js:20 | a separator-free prefix followed by the separator is the first part, and the rest splits on its own |
| Strings.SplitJoin | lib/identifier.js:32 | splitting a join of separator-free parts gives the parts back |
| Strings.ReplaceFirstAfter | lib/identifier.js:28 | `replace` hits the first occurrence: after a prefix without the pattern's first character, that occurrence is replaced and the rest is kept |
| Strings.RemoveFirstAfter | lib/identifier.js:28 | `replace('//', '')` after a prefix without `/` removes that `//` and joins the text on either side |
| Strings.ReplaceFirstAbsent | lib/identifier.js:32 | a pattern that cannot occur leaves the string unchanged |
| Strings.ReplaceFirstKeepsOut | lib/identifier.js:28 | removing a match introduces no character |
| Strings.GuardedReplace | lib/loader.js:137-141 | after a prefix in which no occurrence can start, `replace` replaces in what follows the prefix |
| Identifiers.FromSegments | lib/identifier.js:38-39 | `shift` and `pop`: the package is the first segment; with two or more segments, the path is exactly the segments strictly between first and last (so it has two fewer) and the name is the singularized last one; with one segment the path is empty and the name is absent |
| Identifiers.MalformedIffNoColon | lib/identifier.js:16-18 | the constructor throws exactly when the string has no `:`, and then throws TypeError `Malformed identifier` |
| Identifiers.ParsedKindBeforeColon | lib/identifier.js:20-22 | the type is the text before the first `:` |
| Identifiers.ColonSplit | lib/identifier.js:20-28 | with exactly one `:`, the text after it is what is read for application, package, path and name |
| Identifiers.DropsAfterSecondColon | lib/identifier.js:20-28 | anything after a second `:` has no effect on the result |
| Identifiers.ReadPartPieces | lib/identifier.js:28-36 | in general: once the first `//` is removed, one `/`-piece means an empty application and that piece split on `.`; two or more mean piece 0 as the application and piece 1 split on `.`, any further pieces unread; the `.replace('/', '')` on the piece changes nothing |
| Identifiers.NoApplication | lib/identifier.js:28-32 | without `/` the application is empty and the whole text after `:` is split on `.` |
| Identifiers.SlashesNoApplication | lib/identifier.js:28-32 | `type://package.path.name`: the `//` goes, one piece remains, and the application is empty |
| Identifiers.ApplicationWithoutSlashes | lib/identifier.js:28-35 | `type:app/package.name` has application `app`: no `//` is needed |
| Identifiers.NoDoubleSlash | lib/identifier.js:28 | a text with a single `/` has no `//` to remove |
| Identifiers.InnerSlashesRemoved | lib/identifier.js:28-32 | a `//` inside part 1 is removed wherever it stands: `type:app//package.name` has no application and its first segment runs from `app` into `package` |
| Identifiers.WithApplication | lib/identifier.js:28-36 | after `://`, the text up to the next `/` is the application and the text after it is split on `.` |
| Identifiers.IgnoresExtraPieces | lib/identifier.js:33-36 | after `type://app/body`, a further `/` and whatever follows it change nothing (for any number of pieces, `ReadPartPieces`) |
| Identifiers.ParsedFieldsArePlain | lib/identifier.js:20-39 | the parsed type, application, package and path segments hold no `:`; application, package and path segments hold no `/`; package and path segments hold no `.` (the name is whatever the inflector makes of its segment) |
| Identifiers.BodySegments | lib/identifier.js:69-79 | the package, path and name written by `toString` split on `.` into the package, the normalized path and the name |
| Identifiers.RenderShape | lib/identifier.js:58-82 | with a type and a package, `toString` is `type:body` without an application and `type://application/body` with one |
| Identifiers.SegmentsRead | lib/identifier.js:38-39 | the segments of the written body are read back as the normalized fields |
| Identifiers.ParseRender | lib/identifier.js:13-82 | parsing the text of canonical fields gives them back, up to an empty path becoming `[""]` and an absent name becoming `""` |
| Identifiers.RenderNormalize | lib/identifier.js:73-79 | that normalization does not change the written text |
| Identifiers.RoundTrip | lib/identifier.js:13-82 | parse(toString(f)) == f exactly, for canonical fields with a non-empty path and a name |
| Identifiers.RenderParse | lib/identifier.js:58-82 | toString(parse(s)) == s for every string that is the text of such fields |
| Identifiers.CloneStable | lib/identifier.js:48-50 | `clone().toString() == toString()` for canonical fields |
| Identifiers.ParsedCloneStable | lib/identifier.js:48-50 | the same for a parsed identifier with a type, a package and a plain name the inflector keeps |
| Identifiers.TypelessCloneThrows | lib/identifier.js:61-63 | without a type, and with no `:` in any field, `toString` writes no `:`, so `clone` throws `Malformed identifier` |
| Identifiers.EmptyPackageCloneDiffers | lib/identifier.js:48-50 | `t:.x.n` parses to an empty package and path `[x]`, written `t:x.n`; that reparses to package `x` and an empty path, written `t:x..n`, a different text: a parse with an empty package can clone to a different text |
| Identifiers.EmptyPathDoublesDot | lib/identifier.js:73-75 | `core:database.default` is written back as `core:database..default` |
| Identifiers.NormalTestString | test/identifier.js:44-66 | `type://application/package.path.name` parses to type, application, package, path `["path"]` and name, and is written back unchanged |
| Identifiers.CoreTestString | test/identifier.js:74-96 | `core:database.table.default` parses to an empty application, package `database`, path `["table"]`, name `default`, and is written back unchanged |
| Identifiers.Identifier.Blank | lib/identifier.js:22-26 | the initial assignments: the given type, empty application, package and path, name `""` |
| Identifiers.Identifier.Parse | lib/identifier.js:13-40 | the imperative constructor throws exactly the error `ParseFields` gives, and otherwise returns a fresh identifier holding exactly the fields `ParseFields` computes |
| Identifiers.Identifier.Clone | lib/identifier.js:48-50 | a fresh identifier parsed from `toString`, or that parse's error; for canonical fields it succeeds, holds the normalized fields and has the same text |
| Identifiers.Identifier.SetType | lib/identifier.js:140-144 | only the type changes, and the identifier itself is returned |
| Identifiers.Identifier.SetApplication | lib/identifier.js:152-156 | only the application changes, and the identifier itself is returned |
| Identifiers.Identifier.SetPackage | lib/identifier.js:164-168 | only the package changes, and the identifier itself is returned |
| Identifiers.Identifier.SetPath | lib/identifier.js:176-180 | only the path changes, and the identifier itself is returned |
| Identifiers.Identifier.SetName | lib/identifier.js:188-192 | only the name changes, and the identifier itself is returned |
| Loaders.Locator.constructor | lib/locator.js:11-13 | a locator object, of any kind, serves one type and provides `locate` |
| Loaders.ValidateSequence | lib/loader.js:28-36 | accepted exactly for a non-empty array, which becomes the sequence; a non-array gives TypeError `The loader sequence is to be an array! (<typeof> given)`; an empty array gives Error `The sequence needs to have at least on entry!` |
| Loaders.Register | lib/loader.js:94-96 | the registry gains the locator's type; every type already registered keeps its locator; a new type maps to the locator |
| Loaders.FirstRegistrationWins | lib/loader.js:94-96 | registering a second locator for a type changes nothing: the first registration wins |
| Loaders.ParseSequenceIdentified | lib/loader.js:132-144 | `_parseSequence` depends only on the identifier a string or object stands for |
| Loaders.ApplicationTemplateText | lib/loader.js:137-141 | the test's template filled in with fields whose type, package and path hold no `<`: `<Application>` stays, and type, package, joined path and name are substituted |
| Loaders.ApplicationTokenStays | lib/loader.js:132-144 | with the test's template, canonical fields with a name, whose type, package and path hold no `<`, come back with the literal `<Application>` as their application |
| Loaders.ParseSequenceTestVector | test/loader.js:113-116 | the test's template and `custom://test/test.test.test2` give name `test2` (application `<Application>`, package `test`, path `["test"]`) |
| Loaders.IdentityTemplateText | lib/loader.js:137-141 | for fields whose type, application, package and joined path hold no `<`, the template `<Type>://<App>/<Package>.<Path>.<Name>` filled in is `type://application/` followed by package, joined path and name |
| Loaders.IdentityTemplate | lib/loader.js:132-144 | with that template, canonical fields with a name and no `<` come back as their normalized selves |
| Loaders.IdentityTemplateFromText | lib/loader.js:132-144 | the same when the identifier is given as its text |
| Loaders.ResolveAllMiss | lib/loader.js:110-119 | the search of `_resolve`, for any step taken per template, returns `false` exactly when every step returned `false` |
| Loaders.ResolveFirstHit | lib/loader.js:110-117 | when the steps for the first `k` templates return `false` and the step for template `k` does not, the search returns what that step gave, an exception included |
| Loaders.UnregisteredStops | lib/loader.js:154-156 | fail fast: when the templates before `k` miss and template `k` names a type without a locator, `_resolve` throws that error and tries no later template |
| Loaders.ResolveIgnoresLater | lib/loader.js:110-117 | templates after the first one whose step does not return `false` are never tried: appending templates changes nothing |
| Loaders.RequireOutcome | lib/loader.js:47-55 | a string that cannot be parsed throws its parse error; otherwise `require` throws exactly when the resolution is falsy and `soft_fail` is not `true`, naming the identifier's text |
| Loaders.RequireQuotesInput | lib/loader.js:53-55 | for the text of canonical fields, the message quotes the given string unchanged, and with `soft_fail` true nothing is thrown |
| Loaders.RequireTestVector | test/loader.js:98-110 | a miss for `custom://test/test.test.test2` throws `Identifier "custom://test/test.test.test2" is not a correct resource identifier`, and does not throw with `soft_fail` true |
| Loaders.Loader.constructor | lib/loader.js:13-19 | a fresh loader has caching off and an empty cache, sequence, registry and alias table |
| Loaders.Loader.SetSequence | lib/loader.js:27-39 | a non-empty array replaces the sequence and the loader is returned; otherwise the error of `ValidateSequence` is thrown and the sequence is unchanged; no other field changes |
| Loaders.Loader.SetCache | lib/loader.js:70-78 | with no argument caching is on, with a boolean it is that boolean; the loader is returned and no other field changes |
| Loaders.Loader.AddLocator | lib/loader.js:91-97 | the registry becomes `Register` of the old registry and the locator; no other field changes |
| Loaders.Loader.Resolve | lib/loader.js:107-120 | the loop over the sequence returns exactly the search over the sequence whose step is `_parseSequence` followed by `_receive` on the registry (`ResolveSpec`), so the three search lemmas apply to it |

## Left out

- `ObjectLoader.load` (lib/loader.js:169-217) is not modelled. It reads module-level `aliases` and `cache` that do not exist, and a global `Raddish` configuration. It deep-copies objects with the `clone` package and tests an undefined variable `object`.
- `ObjectLoader.getInstance` (lib/loader.js:221-227) is not modelled. It is the module-level singleton, which a model with explicit loader objects does not need.
- The resolution call in `require` (lib/loader.js:52) is not modelled. On a loader instance `this.prototype` is `undefined`, so reading `.resolve` from it throws a TypeError. As written, `require` therefore throws on every call that gets past parsing and never reaches lines 53-55. `RequireOutcome` models those lines as evidently meant, taking the resolved value as an argument. The unfinished return value (`// TBD`, line 57) is not modelled either; the model only says whether `require` throws.
- The dynamic `require(path)` and `new` in `addLocator` (lib/loader.js:92) load a module at run time. The model receives the constructed locator.
- The class `Locator` models locator objects in general, each with its type and its `locate`. The base class's default type `''` for a missing argument (lib/locator.js:12) is left out. Its always-throwing `locate` (lib/locator.js:15-17) is covered by `locate` being an arbitrary function that may return an error.
- test/locator/custom.js and the inflector package are not part of this model. `singularize` and `locate` are parameters.
- The getters (lib/identifier.js:90-132) are the fields of the `Identifier` class, read directly. Each returns its field unchanged.
- Arrays and objects are shared in the source, and the model holds them as values, so later changes through another reference are not seen. This applies to three places. `getPath` returns the path array itself and `setPath` stores the caller's array. `setSequence` stores the caller's array (lib/loader.js:29). `locate` receives the mutable ObjectIdentifier object, while the model passes its `Fields`.
- When the body has a single segment, the source calls `singularize(undefined)`. The model takes the name to be absent without calling the inflector.
- The constructor's `identifier.toString()` on arguments that are not strings (lib/identifier.js:14) is not modelled; identifiers are parsed from strings only.
- Loaders.Loader.SetCache: takes no argument or a boolean. The source also stores any other value, such as the pre-cache function its comment mentions, in `allow_cache`.
- Loaders.RequireOutcome: `soft_fail` is a boolean. Every value other than the boolean `true`, such as `"true"` or `1`, acts as `false`, as `!== true` does.
- Loaders.ValidateSequence: the sequence is an array of strings, with `typeof` of any other value given as text. Arrays holding non-strings are not modelled.
- Loaders.Register: the registry is a map. Keys inherited from `Object.prototype` (such as `constructor`), which the source's `!this.locators[type]` and `_receive` would find, are not modelled.
- Loaders.Substitute: `replace` special patterns such as `$&` or `$1` in a field's text are inserted literally, whereas JavaScript would expand them.
- Loaders.IdentityTemplate: stated for fields without `<` in type, application, package and path. A field holding a later token would itself be substituted.
- Loaders.ApplicationTokenStays: stated for fields without `<` in type, package and path, for the same reason.
- Loaders.Loader.Resolve: `for…in` over the sequence visits the array's indices in order. Extra enumerable properties on the array are not modelled.
