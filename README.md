# babel-plugin-precall, modelled in Dafny

`babel-plugin-precall` is a Babel plugin that runs code at compile time. The
plugin recognises two invocation forms that use a configured keyword
(`precall` by default):

- a call, ``precall(`module.exports=1555`)``;
- a tagged template, ``precall`module.exports=1555` ``.

It takes the literal text of the argument, compiles it with Babel and runs it
as a fresh Node module. It then replaces the invocation with the module's
export:

- `undefined` when the export is undefined;
- the function's own source text when the export is a function;
- the JSON encoding for anything else.

An empty text becomes the identifier `undefined` and is never run.

This project models the decision layer of `index.js` around those host calls:

- `Options`: option normalisation (`handleOptions`). The `value` option is a
  string, an array or absent. It becomes a key list and a key map with one
  `true` entry per distinct keyword.
- `Matching`: when each visitor fires and which text it extracts.
  - The call form requires an identifier callee that the key map finds and
    that no enclosing scope binds.
  - The tagged form requires an identifier tag that the key map finds and
    that a plain `{}` does not find. It does not look at the scope.
  - The scope is the set of every name `hasBinding` reports, Babel's builtin
    globals included.
  - The key map is a plain object, so `keyMap[name]` also finds inherited
    members of `Object.prototype`. Their names are the parameter `protoNames`.
    That makes the asymmetry visible: an inherited name that the scope does
    not report (such as `__lookupGetter__`) expands in the call form and never
    in the tagged form.
- `Replacement`: `replaceNode` and the classification of the export value.
  The value is a tagged variant `Undef | Fn(source) | Other(value)`.
  Compiling (`transformSync`), running (`Module._compile`) and
  `JSON.stringify` are the fields of a `Host` value passed in. `transform` and
  `run` may return a result or throw; `stringify` always returns text. The
  lemmas hold for every such host whose compile and run results depend only
  on the text and the file name.
- `Precall`: the plugin object as a class.
  - Its field `opts` is the closure variable, set at construction or on the
    first `Program.enter` and reused by every later file.
  - `PluginPass` is the per-file state that `Object.assign` fills in.
  - The two expression visitors are methods proved against the `Matching`
    functions.
- `Ast` and `Wrappers`: the few Babel node kinds the plugin inspects, and the
  `Option`/`Outcome` wrappers.

Babel's scope is a set of bound names. A node replacement is a returned
`Action`: keep, replace with a node, replace with source text, or abort with
the host's exception.

Three behaviours of the code are easy to miss:

- The tagged-template form has no scope check. A local binding of the tag
  name does not stop expansion (`Matching.TaggedIgnoresScope`).
- An empty keyword array is accepted and yields an empty key map. It is not a
  configuration error (`Options.EmptyKeywordList`).
- Keyword membership is a property read on a plain object, not a set test, so
  inherited names match in the call form
  (`Matching.InheritedNameAsymmetry`).

## Model

| member | source | states |
|---|---|---|
| `Options.MarkAll` | index.js:109-112 | the `reduce` yields a map whose keys are exactly the accumulator's keys plus the keywords; every keyword maps to `true`; other entries keep their value |
| `Options.KeyListOf` | index.js:107-108 | an absent `value` gives `["precall"]`; anything but an array gives a one-element list |
| `Options.HandleOptions` | index.js:106-118 | the key list is the normalised `value`; a name is a key of the map iff it is in the list; every entry is `true` |
| `Options.DefaultKeyword` | index.js:107-108 | with `value` absent the key list is exactly `["precall"]` and the map is `{precall: true}` |
| `Options.SingleKeyword` | index.js:107-112 | a string `value` becomes a one-element list and a one-entry map |
| `Options.SeveralKeywords` | index.js:108-112 | an array is used as the list unchanged; the map has a `true` entry for exactly its elements |
| `Options.EmptyKeywordList` | index.js:108-112 | an empty array yields an empty list and an empty map, with no error |
| `Options.KeyMapSize` | index.js:109-112 | the map's keys are the distinct keywords, so it never has more entries than the list |
| `Options.DuplicatesCollapse` | index.js:109-112 | a list with a repeated keyword gives a map with fewer entries than the list |
| `Options.KeyMapByElements` | index.js:109-112 | two lists with the same keywords, in any order or multiplicity, give the same map |
| `Replacement.Render` | index.js:89-95 | an undefined export renders as `undefined`, a function as its own source text, anything else as its JSON encoding |
| `Replacement.RenderByVariant` | index.js:90-94 | testing callability first gives the same text, so the undefined-first order never matters |
| `Replacement.ReplaceNode` | index.js:80-99 | never keeps the node; replaces it by the identifier `undefined` iff the text is empty; aborts iff the text is non-empty and compiling or running throws |
| `Replacement.EmptyTextRunsNothing` | index.js:82-97 | empty text gives the identifier `undefined` whatever the host would compile or run |
| `Replacement.CompileErrorAborts` | index.js:83-87 | a compile error aborts with the compiler's message and does not depend on what running would do |
| `Replacement.ExportRendered` | index.js:83-95 | compiled and run text is replaced by `"undefined"`, the function's source or the JSON encoding of the export; the module runs the compiled code under the same file name |
| `Matching.Truthy` | index.js:43-63 | for a map whose own entries are all `true` (the key map), a read is truthy iff the name is an own key or an inherited one; on `{}` iff it is inherited |
| `Matching.ExtractArgument` | index.js:46-52 | non-empty text comes only from a template or string-literal first argument; the exact text is stated by `TemplateArgumentFirstChunk` and `OtherArguments` |
| `Matching.CallMatches` | index.js:42-44 | a matching call's callee is an identifier the key map has as an own or inherited name, and no scope binds it |
| `Matching.TagMatches` | index.js:61-64 | a matching tag is an own `true` key of the map, never an inherited name, and its quasi is a template literal |
| `Matching.VisitCall` | index.js:41-55 | the call visitor acts iff the callee is an identifier, `keyMap[name]` is truthy and no scope binds the name |
| `Matching.VisitTagged` | index.js:59-67 | the tag visitor acts iff the tag is an identifier, `{}` does not find it, `keyMap` does, and the quasi is a template literal |
| `Matching.TemplateArgumentFirstChunk` | index.js:46-49 | a template argument yields the raw text of its first static chunk |
| `Matching.InterpolationsIgnored` | index.js:48-49 | templates that share their first chunk yield the same text, whatever their interpolations |
| `Matching.InterpolationExample` | index.js:48-49 | a template `module.exports=${x}` yields `module.exports=` |
| `Matching.OtherArguments` | index.js:46-52 | a string-literal argument yields its value; a missing or other-kind argument yields `""` |
| `Matching.CallExpansion` | index.js:41-54 | a matched call is replaced as `replaceNode` decides for its extracted text; a non-identifier or bound callee is kept |
| `Matching.ShadowedCallKept` | index.js:44 | any binding of the callee's name leaves the call untouched |
| `Matching.TaggedIgnoresScope` | index.js:60-66 | the tagged visitor's result is the same under every scope |
| `Matching.TaggedExpansion` | index.js:60-66 | an own-keyword tag on a template is replaced using the first chunk's raw text, even when the scope binds it |
| `Matching.FormsAgree` | index.js:41-66 | for an unbound, configured, non-inherited keyword, the call with a template argument and the tagged template expand identically |
| `Matching.InheritedNameAsymmetry` | index.js:41-66 | an unconfigured inherited name that no scope binds (such as `__lookupGetter__`) expands in the call form and is kept in the tagged form |
| `Matching.ConfiguredKeywords` | index.js:38-67 | with the map `handleOptions` builds, a tag expands only for a configured keyword; a call only for a configured or inherited name; every unbound configured keyword expands in the call form |
| `Precall.Plugin.constructor` | index.js:28 | `opts` is the normalised options when options are given, and unset otherwise |
| `Precall.Plugin.ProgramEnter` | index.js:33-36 | `opts` is computed from the file's options (or `{}`) only while unset, then kept; the state receives its key list and key map |
| `Precall.Plugin.CallExpression` | index.js:38-56 | the visitor computes `VisitCall` on the state's key map, with `p.js` as the file name when the state has none; a bound callee is kept |
| `Precall.Plugin.TaggedTemplateExpression` | index.js:57-68 | the visitor computes `VisitTagged` on the state's key map and default file name; what it expands is an own key of the map |
| `Precall.TwoFiles` | index.js:28-35 | across two files, the first file's options (or the constructor's) decide `opts`, and both files get the same key list and key map |

## Left out

- Compiling the extracted text (`transformSync`) and running it (`new Module(...)._compile`) are dynamic code execution inside Node. They are the oracle fields `Host.transform` and `Host.run`. Their exceptions are modelled only as an `Abort` carrying a message.
- The internals of `JSON.stringify` and `String(fn)` are left out. The first is the uninterpreted `Host.stringify`. The second is the text carried by `Fn`. `JSON.stringify` throwing on cyclic values, or returning `undefined`, is not modelled.
- Babel's traversal, `path.scope.hasBinding` and `replaceWithSourceString` are left out. So is the re-parsing of the produced source. Scope is a set of bound names and replacement is a returned `Action`, so in-place mutation of the tree is not captured.
- `transformSync` returning `null` is not modelled. With the destructuring `{ code }` that would throw.
- A non-string `value` option (`null`, a number) is not modelled. The source would stringify it as a key. Only strings and arrays of strings are.
- `Options.MarkAll`: treats `sum["__proto__"] = true` as creating an ordinary own key. In JavaScript that assignment creates no key. Matching is unaffected when `__proto__` is among `protoNames`, since the read then finds the inherited accessor.
- The host is modelled as deterministic functions of (text, file name). Effects one run has on later compiles or runs (process state, clocks, a fragment such as `module.exports=Date.now()`) are not captured.
- The key map object is shared by reference between the closure and every file's state. Nothing mutates it after construction, so it is modelled as a value.
