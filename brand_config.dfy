/**
 * The white-label brand profile: a read-only record of front-end override values.
 * An empty string in one of the identity or theme fields means "no override, keep the
 * server's value"; the two theme switches are optional booleans, `None` meaning
 * `undefined`.
 */
module BrandConfig {
  import opened Options

  /** Logo file paths, relative to the image directory. */
  datatype LogoPaths = LogoPaths(
    main: string,
    email: string,
    emailDark: string,
    emailBlue: string,
    emailGray: string,
    white: string)

  /** Marketing and documentation links. */
  datatype Links = Links(
    main: string,
    docs: string,
    termsOfService: string,
    privacyPolicy: string,
    billingDocs: string,
    pricing: string,
    deploymentOptions: string,
    cloudSignup: string,
    developerDocs: string,
    plugins: string,
    contactSales: string,
    trialInfo: string)

  /** Page metadata: the title suffix and the default description. */
  datatype Meta = Meta(titleSuffix: string, description: string)

  datatype BrandProfile = BrandProfile(
    siteName: string,
    siteNameShort: string,
    companyDomain: string,
    siteURL: string,
    customBrandText: string,
    customDescriptionText: string,
    enableCustomBrand: bool,
    defaultTheme: string,
    enableThemeSelection: Option<bool>,
    allowCustomThemes: Option<bool>,
    logo: LogoPaths,
    links: Links,
    meta: Meta)

  /** The built-in theme names the default theme may name. */
  const ThemeNames: set<string> := {"denim", "sapphire", "quartz", "indigo", "onyx"}

  /** A default theme is either the empty "no override" sentinel or one of the built-in themes. */
  predicate ValidDefaultTheme(theme: string)
  {
    theme == "" || theme in ThemeNames
  }

  /** The profile the application ships with. */
  const Shipped: BrandProfile := BrandProfile(
    siteName := "Guduu OS",
    siteNameShort := "Guduu OS",
    companyDomain := "https://im.guduu.co",
    siteURL := "https://im.guduu.co",
    customBrandText := "",
    customDescriptionText := "Login",
    enableCustomBrand := true,
    defaultTheme := "quartz",
    enableThemeSelection := Some(true),
    allowCustomThemes := Some(true),
    logo := LogoPaths(
      main := "logo.png",
      email := "logo-email.png",
      emailDark := "logo_email_dark.png",
      emailBlue := "logo_email_blue.png",
      emailGray := "logo_email_gray.png",
      white := "logoWhite.png"),
    links := Links(
      main := "https://yourcompany.com/",
      docs := "https://docs.yourcompany.com",
      termsOfService := "https://yourcompany.com/terms-of-use/",
      privacyPolicy := "https://yourcompany.com/privacy-policy/",
      billingDocs := "https://docs.yourcompany.com/cloud-billing",
      pricing := "https://yourcompany.com/pricing/",
      deploymentOptions := "https://yourcompany.com/deploy/",
      cloudSignup := "https://yourcompany.com/sign-up/",
      developerDocs := "https://docs.yourcompany.com/developer",
      plugins := "https://yourcompany.com/plugins",
      contactSales := "https://yourcompany.com/contact-sales/",
      trialInfo := "https://yourcompany.com/trial"),
    meta := Meta(titleSuffix := " - Guduu IM", description := "Guduu IM"))

  /** The shipped default theme is one of the built-in themes, and it does override. */
  lemma ShippedThemeIsValid()
    ensures ValidDefaultTheme(Shipped.defaultTheme) && Shipped.defaultTheme != ""
  {
  }
}
