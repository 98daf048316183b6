/**
 * The static tables that decide which plugins get synthetic parameters and
 * which are configured through the host's overwrite mapping.
 */
module ToolConfig {
  import opened PyValues
  import opened Params

  /** Plugins that read standard input without declaring it. */
  const StdinConsumingPlugins: seq<string> := ["note", "finding"]

  /** A synthetic parameter backed by a key of the host's overwrite mapping. */
  datatype OverwriteParam = OverwriteParam(name: string, configKey: string, annot: Annot, default: Value)

  /** Per plugin, its synthetic overwrite parameters in declaration order. */
  const ConfigOverwriteParams: map<string, seq<OverwriteParam>> := map[
    "note" := [OverwriteParam("title", "notetitle", OrNone(Str), VNone)]
  ]

  /** Plugins whose arguments go into the overwrite mapping instead of the constructor. */
  const PluginsRequiringConfigPopulation: seq<string> := ["file"]

  /** The synthetic overwrite parameters of a plugin (none if it is not listed). */
  function OverwriteParamsOf(plugin: string): seq<OverwriteParam> {
    if plugin in ConfigOverwriteParams then ConfigOverwriteParams[plugin] else []
  }
}
