/**
 * `replaceNode`: what a matched invocation is replaced by. Compiling the
 * extracted text (`transformSync`), running it as a fresh module
 * (`Module._compile`) and `JSON.stringify` belong to the host; they are the
 * fields of a `Host` value, so the model covers every behaviour they may have.
 */
module Replacement {
  import opened Wrappers
  import opened Ast

  /** The module's export, classified: `undefined`, a function (with its `String(fn)` text), or anything else. */
  datatype ExportValue<V> = Undef | Fn(source: string) | Other(value: V)

  /** The host capabilities `replaceNode` calls, each tagged with the file name it receives. */
  datatype Host<!V> = Host(
    transform: (string, string) -> Outcome<string>,
    run: (string, string) -> Outcome<ExportValue<V>>,
    stringify: V -> string)

  /** What a visitor does to the node it visits. */
  datatype Action =
    | Keep                              // the node is left as it is
    | ReplaceWithNode(node: Node)       // `path.replaceWith(node)`
    | ReplaceWithSource(source: string) // `path.replaceWithSourceString(source)`
    | Abort(error: string)              // an exception propagates out of the visitor

  const UNDEFINED := "undefined"

  /** `newValue === undefined` */
  predicate IsUndefined<V>(v: ExportValue<V>) {
    v.Undef?
  }

  /** `typeof newValue === "function"` */
  predicate IsCallable<V>(v: ExportValue<V>) {
    v.Fn?
  }

  /** The conditional chain that turns the export into source text, tests in the source's order. */
  function Render<V>(v: ExportValue<V>, stringify: V -> string): (src: string)
    ensures src == match v
      case Undef => "undefined"
      case Fn(text) => text
      case Other(x) => stringify(x)
  {
    if IsUndefined(v) then UNDEFINED
    else if IsCallable(v) then v.source
    else stringify(v.value)
  }

  /**
   * Testing callability first would give the same text: the undefined and
   * callable tests never both hold.
   */
  lemma RenderByVariant<V>(v: ExportValue<V>, stringify: V -> string)
    ensures Render(v, stringify) ==
      (if IsCallable(v) then v.source else if IsUndefined(v) then UNDEFINED else stringify(v.value))
  {
  }

  function ReplaceNode<V>(moduleValue: string, filename: string, host: Host<V>): (a: Action)
    ensures !a.Keep?
    ensures a == ReplaceWithNode(Identifier(UNDEFINED)) <==> moduleValue == ""
    ensures a.ReplaceWithSource? ==> moduleValue != ""
    ensures a.Abort? <==>
      moduleValue != "" &&
      (host.transform(moduleValue, filename).Thrown? ||
       host.run(host.transform(moduleValue, filename).value, filename).Thrown?)
  {
    if moduleValue != "" then
      match host.transform(moduleValue, filename)
      case Thrown(e) => Abort(e)
      case Ok(code) =>
        match host.run(code, filename)
        case Thrown(e) => Abort(e)
        case Ok(newValue) => ReplaceWithSource(Render(newValue, host.stringify))
    else
      ReplaceWithNode(Identifier(UNDEFINED))
  }

  /** Empty text is replaced by `undefined` whatever the host would have compiled or run. */
  lemma EmptyTextRunsNothing<V>(filename: string, h1: Host<V>, h2: Host<V>)
    ensures ReplaceNode("", filename, h1) == ReplaceNode("", filename, h2)
                                           == ReplaceWithNode(Identifier("undefined"))
  {
  }

  /** A compile error aborts the replacement and nothing is run. */
  lemma CompileErrorAborts<V>(text: string, filename: string, host: Host<V>, other: Host<V>)
    requires text != "" && host.transform(text, filename).Thrown?
    requires other.transform == host.transform
    ensures ReplaceNode(text, filename, host) == Abort(host.transform(text, filename).message)
    ensures ReplaceNode(text, filename, host) == ReplaceNode(text, filename, other)
  {
  }

  /**
   * Non-empty text that compiles and runs is replaced by the rendered export:
   * `"undefined"`, the function's own text, or the JSON encoding; the compiled
   * code and the same file name are what the module runs with.
   */
  lemma ExportRendered<V>(text: string, filename: string, host: Host<V>, code: string, v: ExportValue<V>)
    requires text != ""
    requires host.transform(text, filename) == Ok(code)
    requires host.run(code, filename) == Ok(v)
    ensures v.Undef? ==> ReplaceNode(text, filename, host) == ReplaceWithSource("undefined")
    ensures v.Fn? ==> ReplaceNode(text, filename, host) == ReplaceWithSource(v.source)
    ensures v.Other? ==> ReplaceNode(text, filename, host) == ReplaceWithSource(host.stringify(v.value))
  {
  }
}
