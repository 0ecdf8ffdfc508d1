/**
 * The plugin object: the closure variable `opts`, computed once and then
 * shared by every file, and the three visitors that read the per-file state.
 */
module Precall {
  import opened Wrappers
  import opened Ast
  import opened Options
  import opened Replacement
  import opened Matching

  /** The file name used when the file being transformed has none. */
  const DEFAULT_FILENAME := "p.js"

  /** The per-file state Babel hands to every visitor of one file. */
  class PluginPass {
    const filename: Option<string>
    const opts: Option<PluginOptions>
    var keyList: Option<seq<string>>
    var keyMap: Option<map<string, bool>>

    constructor (filename: Option<string>, opts: Option<PluginOptions>)
      ensures this.filename == filename && this.opts == opts
      ensures keyList == None && keyMap == None
    {
      this.filename := filename;
      this.opts := opts;
      keyList, keyMap := None, None;
    }
  }

  class Plugin {
    /** The normalised options, once known; `None` while the closure's `opts` is falsy. */
    var opts: Option<Normalized>
    /** The names every plain object inherits, as seen by `keyMap[name]` and `emptyObj[name]`. */
    const protoNames: set<string>

    /** `let opts = options && handleOptions(options)` */
    constructor (options: Option<PluginOptions>, protoNames: set<string>)
      ensures this.protoNames == protoNames
      ensures options.Some? ==> opts == Some(HandleOptions(options.value))
      ensures options.None? ==> opts == None
    {
      this.protoNames := protoNames;
      if options.Some? {
        opts := Some(HandleOptions(options.value));
      } else {
        opts := None;
      }
    }

    /**
     * `Program.enter`: fill in `opts` from the file's options (or `{}`) only
     * if it is still unset, then copy `keyList` and `keyMap` into the state.
     */
    method ProgramEnter(state: PluginPass)
      modifies this`opts, state`keyList, state`keyMap
      ensures old(opts).Some? ==> opts == old(opts)
      ensures old(opts).None? ==> opts == Some(HandleOptions(state.opts.GetOr(EMPTY_OPTIONS)))
      ensures opts.Some?
      ensures state.keyList == Some(opts.value.keyList) && state.keyMap == Some(opts.value.keyMap)
    {
      if opts.None? {
        opts := Some(HandleOptions(state.opts.GetOr(EMPTY_OPTIONS)));
      }
      state.keyList := Some(opts.value.keyList);
      state.keyMap := Some(opts.value.keyMap);
    }

    /** The `CallExpression` visitor; `scope` is the set of names bound around the node. */
    method CallExpression<V>(node: Node, state: PluginPass, scope: set<string>, host: Host<V>)
      returns (action: Action)
      requires WellFormed(node) && state.keyMap.Some?
      ensures action == VisitCall(node, state.keyMap.value, protoNames, scope,
                                  state.filename.GetOr(DEFAULT_FILENAME), host)
      ensures node.CallExpression? && node.callee.Identifier? && node.callee.name in scope ==> action.Keep?
    {
      var filename := state.filename.GetOr(DEFAULT_FILENAME);
      var keyMap := state.keyMap.value;
      if node.CallExpression? && node.callee.Identifier? && Truthy(keyMap, protoNames, node.callee.name)
         && node.callee.name !in scope
      {
        var moduleValue := "";
        if node.arguments != [] {
          var n := node.arguments[0];
          assert n in node.arguments;
          if n.TemplateLiteral? {
            assert WellFormed(n);
            moduleValue := n.quasis[0].raw;
          } else if n.StringLiteral? {
            moduleValue := n.value;
          }
        }
        action := ReplaceNode(moduleValue, filename, host);
      } else {
        action := Keep;
      }
    }

    /** The `TaggedTemplateExpression` visitor; it is handed the scope and ignores it. */
    method TaggedTemplateExpression<V>(node: Node, state: PluginPass, scope: set<string>, host: Host<V>)
      returns (action: Action)
      requires WellFormed(node) && state.keyMap.Some?
      ensures action == VisitTagged(node, state.keyMap.value, protoNames, scope,
                                    state.filename.GetOr(DEFAULT_FILENAME), host)
      ensures !action.Keep? ==> node.tag.name in state.keyMap.value && node.tag.name !in protoNames
    {
      var filename := state.filename.GetOr(DEFAULT_FILENAME);
      var keyMap := state.keyMap.value;
      if node.TaggedTemplateExpression? && node.tag.Identifier? && !Truthy(map[], protoNames, node.tag.name)
         && Truthy(keyMap, protoNames, node.tag.name) && node.quasi.TemplateLiteral?
      {
        assert WellFormed(node.quasi);
        action := ReplaceNode(node.quasi.quasis[0].raw, filename, host);
      } else {
        action := Keep;
      }
    }
  }

  /**
   * Two files processed one after the other see the same keywords: the
   * second file's own options are ignored once the first has set `opts`.
   */
  method TwoFiles(plugin: Plugin, first: PluginPass, second: PluginPass)
    modifies plugin`opts, first`keyList, first`keyMap, second`keyList, second`keyMap
    ensures old(plugin.opts).None? ==>
      plugin.opts == Some(HandleOptions(first.opts.GetOr(EMPTY_OPTIONS)))
    ensures old(plugin.opts).Some? ==> plugin.opts == old(plugin.opts)
    ensures first.keyMap == second.keyMap && first.keyList == second.keyList
  {
    plugin.ProgramEnter(first);
    plugin.ProgramEnter(second);
  }
}
