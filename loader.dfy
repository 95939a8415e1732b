/** Defensive loading of the MDX plugin and the configuration blocks built from it:
    the MDX support is all or nothing. */
module MdxLoader {
  import opened PatchedParsers

  datatype Option<T> = None | Some(value: T)

  /** The plugin's `configs.flat.languageOptions.parser` path; any segment may be absent. */
  datatype LanguageOptions = LanguageOptions(parser: Option<MdxParser>)
  datatype FlatConfig = FlatConfig(languageOptions: Option<LanguageOptions>)
  datatype PluginConfigs = PluginConfigs(flat: Option<FlatConfig>)
  datatype Plugin = Plugin(configs: Option<PluginConfigs>)

  /** How the dynamic import of the plugin went: it threw, or it produced a default
      export, which may itself be null or undefined. */
  datatype Acquisition = ImportFailed(reason: string) | Imported(exported: Option<Plugin>)

  /** The loader's result: a validated plugin, or `null`. */
  datatype Outcome = Ready(plugin: Plugin) | Unavailable

  /** The optional chain `mdx?.configs?.flat?.languageOptions?.parser`. */
  function ParserAt(mdx: Option<Plugin>): Option<MdxParser> {
    match mdx
    case None => None
    case Some(p) =>
      match p.configs
      case None => None
      case Some(c) =>
        match c.flat
        case None => None
        case Some(f) =>
          match f.languageOptions
          case None => None
          case Some(lo) => lo.parser
  }

  /** Every segment of `configs.flat.languageOptions.parser` is present. */
  predicate HasParserPath(p: Plugin) {
    && p.configs.Some?
    && p.configs.value.flat.Some?
    && p.configs.value.flat.value.languageOptions.Some?
    && p.configs.value.flat.value.languageOptions.value.parser.Some?
  }

  /** `loadMDXPlugin`: an import failure and a plugin missing any segment of the
      parser path both end as `Unavailable`; only a complete plugin is `Ready`. */
  function LoadMdxPlugin(acquired: Acquisition): (r: Outcome)
    ensures r.Ready? <==> acquired.Imported? && acquired.exported.Some? && HasParserPath(acquired.exported.value)
    ensures r.Ready? ==> r.plugin == acquired.exported.value
  {
    match acquired
    case ImportFailed(_) => Unavailable
    case Imported(mdx) => if ParserAt(mdx).None? then Unavailable else Ready(mdx.value)
  }

  /** `mdx.configs.flat.languageOptions!.parser!`, defined on the plugins the loader accepts. */
  function ParserOf(p: Plugin): (parser: MdxParser)
    requires HasParserPath(p)
    ensures ParserAt(Some(p)) == Some(parser)
  {
    p.configs.value.flat.value.languageOptions.value.parser.value
  }

  /** A plugin whose `configs` is an empty object is refused without failing. */
  lemma EmptyConfigsUnavailable()
    ensures LoadMdxPlugin(Imported(Some(Plugin(Some(PluginConfigs(None)))))) == Unavailable
  {
  }

  const SetupBlock := "antfu/markdown-mdx/setup"
  const CodeBlocksBlock := "antfu/markdown-mdx/code-blocks"

  /** A flat configuration block, reduced to its name, the parser it installs and the
      plugins it registers. */
  datatype ConfigItem = ConfigItem(name: string, parser: Option<PatchedParser>, plugin: Option<Plugin>)

  /** `markdown`: nothing at all when the plugin is unavailable; otherwise the setup block,
      which installs the patched parser over the plugin's own, and the code-block block. */
  method Markdown(acquired: Acquisition) returns (items: seq<ConfigItem>)
    ensures LoadMdxPlugin(acquired).Unavailable? ==> items == []
    ensures LoadMdxPlugin(acquired).Ready? ==>
              var mdx := LoadMdxPlugin(acquired).plugin;
              && |items| == 2
              && items[0].name == SetupBlock
              && items[0].plugin == Some(mdx)
              && items[0].parser.Some?
              && fresh(items[0].parser.value)
              && items[0].parser.value.inner == ParserOf(mdx)
              && items[0].parser.value.parseForESLint == Filtering
              && items[1] == ConfigItem(CodeBlocksBlock, None, None)
  {
    var loaded := LoadMdxPlugin(acquired);
    if loaded.Unavailable? {
      return [];
    }
    var mdx := loaded.plugin;
    var patched := new PatchedParser(ParserOf(mdx));
    patched.AliasParseForESLint();
    items := [ConfigItem(SetupBlock, Some(patched), Some(mdx)), ConfigItem(CodeBlocksBlock, None, None)];
  }
}
