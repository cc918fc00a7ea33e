/**
 * The flattened, defaulted view of the merged configuration that UI components read.
 * Text fields fall back to a literal when absent or empty; switches are on only when the
 * configuration holds exactly the string "true".
 */
module UseBrandConfig {
  import opened Options
  import opened BrandConfig
  import opened ConfigWithBrand

  datatype BrandView = BrandView(
    siteName: string,
    siteURL: string,
    customBrandText: string,
    customDescriptionText: string,
    enableCustomBrand: bool,
    defaultTheme: string,
    enableThemeSelection: bool,
    allowCustomThemes: bool,
    config: ClientConfig)

  /** JavaScript's `value || fallback` on an optional string: the fallback when undefined or empty. */
  function OrElse(value: Option<string>, fallback: string): (r: string)
  {
    match value
    case Some(s) => if s != "" then s else fallback
    case None => fallback
  }

  /** JavaScript's `value === 'true'` on an optional string. */
  function IsTrue(value: Option<string>): (r: bool)
  {
    value == Some("true")
  }

  /** The view of a merged configuration. */
  function View(config: ClientConfig): (v: BrandView)
    ensures v.siteName != "" && v.defaultTheme != ""
    ensures v.siteName == (if SiteName in config && config[SiteName] != "" then config[SiteName] else "Mattermost")
    ensures v.siteURL == (if SiteURL in config then config[SiteURL] else "")
    ensures v.customBrandText == (if CustomBrandText in config then config[CustomBrandText] else "")
    ensures v.customDescriptionText ==
      (if CustomDescriptionText in config then config[CustomDescriptionText] else "")
    ensures v.defaultTheme ==
      (if DefaultTheme in config && config[DefaultTheme] != "" then config[DefaultTheme] else "denim")
    ensures v.enableCustomBrand <==> EnableCustomBrand in config && config[EnableCustomBrand] == "true"
    ensures v.enableThemeSelection <==> EnableThemeSelection in config && config[EnableThemeSelection] == "true"
    ensures v.allowCustomThemes <==> AllowCustomThemes in config && config[AllowCustomThemes] == "true"
    ensures v.config == config
  {
    BrandView(
      siteName := OrElse(Get(config, SiteName), "Mattermost"),
      siteURL := OrElse(Get(config, SiteURL), ""),
      customBrandText := OrElse(Get(config, CustomBrandText), ""),
      customDescriptionText := OrElse(Get(config, CustomDescriptionText), ""),
      enableCustomBrand := IsTrue(Get(config, EnableCustomBrand)),
      defaultTheme := OrElse(Get(config, DefaultTheme), "denim"),
      enableThemeSelection := IsTrue(Get(config, EnableThemeSelection)),
      allowCustomThemes := IsTrue(Get(config, AllowCustomThemes)),
      config := config)
  }

  /** The hook: the view of the configuration with the brand merged in. */
  function UseBrandConfig(backend: ClientConfig, brand: BrandProfile): (v: BrandView)
    ensures v.config == MergedConfig(backend, brand)
    ensures v.siteName != "" && v.defaultTheme != ""
  {
    View(MergedConfig(backend, brand))
  }

  /** With the switch on and a non-empty brand site name, components see that name. */
  lemma BrandSiteNameShown(backend: ClientConfig, brand: BrandProfile)
    requires brand.enableCustomBrand && brand.siteName != ""
    ensures UseBrandConfig(backend, brand).siteName == brand.siteName
  {
    SiteNameOverride(backend, brand);
  }

  /** A defined theme switch of the brand reaches components unchanged through its string encoding. */
  lemma ThemeSwitchesShown(backend: ClientConfig, brand: BrandProfile)
    ensures brand.enableThemeSelection.Some? ==>
      UseBrandConfig(backend, brand).enableThemeSelection == brand.enableThemeSelection.value
    ensures brand.allowCustomThemes.Some? ==>
      UseBrandConfig(backend, brand).allowCustomThemes == brand.allowCustomThemes.value
  {
    EnableThemeSelectionOverride(backend, brand);
    AllowCustomThemesOverride(backend, brand);
  }

  /** A non-empty brand theme is the theme components see, whatever the switch. */
  lemma BrandThemeShown(backend: ClientConfig, brand: BrandProfile)
    requires brand.defaultTheme != ""
    ensures UseBrandConfig(backend, brand).defaultTheme == brand.defaultTheme
  {
    DefaultThemeOverride(backend, brand);
  }

  /** With the shipped profile, every server configuration yields the same branded view. */
  lemma ShippedView(backend: ClientConfig)
    ensures UseBrandConfig(backend, Shipped).siteName == "Guduu OS"
    ensures UseBrandConfig(backend, Shipped).siteURL == "https://im.guduu.co"
    ensures UseBrandConfig(backend, Shipped).customDescriptionText == "Login"
    ensures UseBrandConfig(backend, Shipped).defaultTheme == "quartz"
    ensures UseBrandConfig(backend, Shipped).enableThemeSelection
    ensures UseBrandConfig(backend, Shipped).allowCustomThemes
  {
    ShippedIdentity(backend);
    ShippedTheme(backend);
  }

  /** An empty server site name is shown as the product's generic name, never as "". */
  lemma EmptySiteNameFallsBack(config: ClientConfig)
    requires Get(config, SiteName) == Some("")
    ensures View(config).siteName == "Mattermost"
  {
  }
}
