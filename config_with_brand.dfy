/**
 * The configuration merge that every consumer sees as `getConfig`: the server's client
 * configuration with seven conditional overwrites of up to eight fields from the brand profile.
 *
 * Identity fields (site name, site URL, custom brand text, custom description text) are
 * overridden only when the profile's custom-brand switch is on and the brand value is
 * non-empty; the default theme whenever the brand value is non-empty; the two theme
 * switches whenever they are defined, written as the strings "true" or "false".
 */
module ConfigWithBrand {
  import opened Options
  import opened BrandConfig

  /** The client configuration delivered by the server: every field is a string and may be absent. */
  type ClientConfig = map<string, string>

  const SiteName := "SiteName"
  const SiteURL := "SiteURL"
  const CustomBrandText := "CustomBrandText"
  const EnableCustomBrand := "EnableCustomBrand"
  const CustomDescriptionText := "CustomDescriptionText"
  const DefaultTheme := "DefaultTheme"
  const EnableThemeSelection := "EnableThemeSelection"
  const AllowCustomThemes := "AllowCustomThemes"

  /** The keys the merge may write; every other key passes through. */
  const OverrideKeys: set<string> :=
    {SiteName, SiteURL, CustomBrandText, EnableCustomBrand, CustomDescriptionText,
     DefaultTheme, EnableThemeSelection, AllowCustomThemes}

  /** The configuration fields the merge may write, in the order it writes them. */
  datatype Field =
    | SiteNameField | SiteURLField | CustomBrandTextField | EnableCustomBrandField
    | CustomDescriptionTextField | DefaultThemeField | EnableThemeSelectionField | AllowCustomThemesField

  /**
   * The identity fields, gated on the custom-brand switch; the others (the theme fields)
   * are overridden independently of it.
   */
  predicate IsIdentity(f: Field)
  {
    !(f.DefaultThemeField? || f.EnableThemeSelectionField? || f.AllowCustomThemesField?)
  }

  /** The configuration key of a field. */
  function Key(f: Field): (r: string)
  {
    match f
    case SiteNameField => SiteName
    case SiteURLField => SiteURL
    case CustomBrandTextField => CustomBrandText
    case EnableCustomBrandField => EnableCustomBrand
    case CustomDescriptionTextField => CustomDescriptionText
    case DefaultThemeField => DefaultTheme
    case EnableThemeSelectionField => EnableThemeSelection
    case AllowCustomThemesField => AllowCustomThemes
  }

  /** The field a configuration key names, if it is one the merge may write. */
  function FieldOf(key: string): (r: Option<Field>)
    ensures r.Some? <==> key in OverrideKeys
    ensures r.Some? ==> Key(r.value) == key
  {
    if key == SiteName then Some(SiteNameField)
    else if key == SiteURL then Some(SiteURLField)
    else if key == CustomBrandText then Some(CustomBrandTextField)
    else if key == EnableCustomBrand then Some(EnableCustomBrandField)
    else if key == CustomDescriptionText then Some(CustomDescriptionTextField)
    else if key == DefaultTheme then Some(DefaultThemeField)
    else if key == EnableThemeSelection then Some(EnableThemeSelectionField)
    else if key == AllowCustomThemes then Some(AllowCustomThemesField)
    else None
  }

  /** Reading a field: `None` when the key is absent (`undefined`). */
  function Get(config: ClientConfig, key: string): (r: Option<string>)
  {
    if key in config then Some(config[key]) else None
  }

  /** The string encoding of a boolean used by the client configuration. */
  function BoolString(b: bool): (r: string)
  {
    if b then "true" else "false"
  }

  /** An identity field fires when the brand switch is on and the brand value is non-empty. */
  function Gated(brand: BrandProfile, value: string): Option<string>
  {
    if brand.enableCustomBrand && value != "" then Some(value) else None
  }

  /** A theme switch fires whenever it is defined. */
  function Switch(setting: Option<bool>): Option<string>
  {
    match setting
    case Some(b) => Some(BoolString(b))
    case None => None
  }

  /**
   * The override table: for each field, the value the brand profile forces, or `None`
   * when the field keeps the server's value.
   */
  function Override(brand: BrandProfile, f: Field): (r: Option<string>)
  {
    match f
    case SiteNameField => Gated(brand, brand.siteName)
    case SiteURLField => Gated(brand, brand.siteURL)
    case CustomBrandTextField => Gated(brand, brand.customBrandText)
    case EnableCustomBrandField => if Gated(brand, brand.customBrandText).Some? then Some("true") else None
    case CustomDescriptionTextField => Gated(brand, brand.customDescriptionText)
    case DefaultThemeField => if brand.defaultTheme != "" then Some(brand.defaultTheme) else None
    case EnableThemeSelectionField => Switch(brand.enableThemeSelection)
    case AllowCustomThemesField => Switch(brand.allowCustomThemes)
  }

  /** The override the brand forces on a configuration key, if any. */
  function OverrideFor(brand: BrandProfile, key: string): (r: Option<string>)
  {
    match FieldOf(key)
    case Some(f) => Override(brand, f)
    case None => None
  }

  /**
   * The effective configuration, key by key: the brand's override where one fires,
   * otherwise the server's value (or absence).
   */
  function MergedConfig(backend: ClientConfig, brand: BrandProfile): (r: ClientConfig)
  {
    map k | k in backend.Keys + OverrideKeys && (k in backend || OverrideFor(brand, k).Some?) ::
      OverrideFor(brand, k).GetOr(if k in backend then backend[k] else "")
  }

  /**
   * The merge itself: copies the server configuration, then applies seven independent
   * overwrites in turn. Since maps are values, the caller's configuration cannot change.
   */
  method GetConfigWithBrand(backend: ClientConfig, brand: BrandProfile) returns (merged: ClientConfig)
    ensures merged == MergedConfig(backend, brand)
  {
    merged := backend;
    ghost var m0 := merged;
    if brand.enableCustomBrand && brand.siteName != "" {
      merged := merged[SiteName := brand.siteName];
      OverwriteFires(m0, brand, SiteNameField, brand.siteName);
    } else {
      OverwriteSkips(m0, brand, SiteNameField);
    }
    ghost var m1 := merged;
    if brand.enableCustomBrand && brand.siteURL != "" {
      merged := merged[SiteURL := brand.siteURL];
      OverwriteFires(m1, brand, SiteURLField, brand.siteURL);
    } else {
      OverwriteSkips(m1, brand, SiteURLField);
    }
    ghost var m2 := merged;
    ghost var m3 := merged;
    if brand.enableCustomBrand && brand.customBrandText != "" {
      merged := merged[CustomBrandText := brand.customBrandText];
      m3 := merged;
      merged := merged[EnableCustomBrand := "true"];
      OverwriteFires(m2, brand, CustomBrandTextField, brand.customBrandText);
      OverwriteFires(m3, brand, EnableCustomBrandField, "true");
    } else {
      OverwriteSkips(m2, brand, CustomBrandTextField);
      OverwriteSkips(m3, brand, EnableCustomBrandField);
    }
    ghost var m4 := merged;
    if brand.enableCustomBrand && brand.customDescriptionText != "" {
      merged := merged[CustomDescriptionText := brand.customDescriptionText];
      OverwriteFires(m4, brand, CustomDescriptionTextField, brand.customDescriptionText);
    } else {
      OverwriteSkips(m4, brand, CustomDescriptionTextField);
    }
    ghost var m5 := merged;
    if brand.defaultTheme != "" {
      merged := merged[DefaultTheme := brand.defaultTheme];
      OverwriteFires(m5, brand, DefaultThemeField, brand.defaultTheme);
    } else {
      OverwriteSkips(m5, brand, DefaultThemeField);
    }
    ghost var m6 := merged;
    if brand.enableThemeSelection.Some? {
      merged := merged[EnableThemeSelection := BoolString(brand.enableThemeSelection.value)];
      OverwriteFires(m6, brand, EnableThemeSelectionField, BoolString(brand.enableThemeSelection.value));
    } else {
      OverwriteSkips(m6, brand, EnableThemeSelectionField);
    }
    ghost var m7 := merged;
    if brand.allowCustomThemes.Some? {
      merged := merged[AllowCustomThemes := BoolString(brand.allowCustomThemes.value)];
      OverwriteFires(m7, brand, AllowCustomThemesField, BoolString(brand.allowCustomThemes.value));
    } else {
      OverwriteSkips(m7, brand, AllowCustomThemesField);
    }
    MergeSteps(m0, m1, m2, m3, m4, m5, m6, m7, merged, brand);
  }

  /** Writes the override for field `f` into `config` if it fires. */
  function Overwrite(config: ClientConfig, brand: BrandProfile, f: Field): ClientConfig
  {
    match Override(brand, f)
    case Some(v) => config[Key(f) := v]
    case None => config
  }

  /** An overwrite whose override fires writes the field's key. */
  lemma OverwriteFires(config: ClientConfig, brand: BrandProfile, f: Field, v: string)
    requires Override(brand, f) == Some(v)
    ensures Overwrite(config, brand, f) == config[Key(f) := v]
  {
  }

  /** An overwrite whose override does not fire changes nothing. */
  lemma OverwriteSkips(config: ClientConfig, brand: BrandProfile, f: Field)
    requires Override(brand, f).None?
    ensures Overwrite(config, brand, f) == config
  {
  }

  /** One overwrite changes at most the key of its field. */
  lemma OverwriteLookup(config: ClientConfig, brand: BrandProfile, f: Field, k: string)
    ensures Get(Overwrite(config, brand, f), k) ==
      (if FieldOf(k) == Some(f) && Override(brand, f).Some? then Override(brand, f) else Get(config, k))
  {
    KeyOfField(f);
  }

  /** `FieldOf` inverts `Key`. */
  lemma KeyOfField(f: Field)
    ensures FieldOf(Key(f)) == Some(f)
  {
  }

  /** The eight field overwrites of the merge, applied in the source's order, give the key-wise merge. */
  lemma MergeSteps(m0: ClientConfig, m1: ClientConfig, m2: ClientConfig, m3: ClientConfig, m4: ClientConfig,
                   m5: ClientConfig, m6: ClientConfig, m7: ClientConfig, m8: ClientConfig, brand: BrandProfile)
    requires m1 == Overwrite(m0, brand, SiteNameField)
    requires m2 == Overwrite(m1, brand, SiteURLField)
    requires m3 == Overwrite(m2, brand, CustomBrandTextField)
    requires m4 == Overwrite(m3, brand, EnableCustomBrandField)
    requires m5 == Overwrite(m4, brand, CustomDescriptionTextField)
    requires m6 == Overwrite(m5, brand, DefaultThemeField)
    requires m7 == Overwrite(m6, brand, EnableThemeSelectionField)
    requires m8 == Overwrite(m7, brand, AllowCustomThemesField)
    ensures m8 == MergedConfig(m0, brand)
  {
    forall k ensures Get(m8, k) == Get(MergedConfig(m0, brand), k) {
      OverwriteLookup(m0, brand, SiteNameField, k);
      OverwriteLookup(m1, brand, SiteURLField, k);
      OverwriteLookup(m2, brand, CustomBrandTextField, k);
      OverwriteLookup(m3, brand, EnableCustomBrandField, k);
      OverwriteLookup(m4, brand, CustomDescriptionTextField, k);
      OverwriteLookup(m5, brand, DefaultThemeField, k);
      OverwriteLookup(m6, brand, EnableThemeSelectionField, k);
      OverwriteLookup(m7, brand, AllowCustomThemesField, k);
      MergedLookup(m0, brand, k);
    }
    SameLookupsSameMap(m8, MergedConfig(m0, brand));
  }

  /** Two configurations that read alike at every key are equal. */
  lemma SameLookupsSameMap(a: ClientConfig, b: ClientConfig)
    requires forall k :: Get(a, k) == Get(b, k)
    ensures a == b
  {
    assert a.Keys == b.Keys by {
      forall k ensures k in a <==> k in b {
        assert Get(a, k) == Get(b, k);
      }
    }
    forall k | k in a ensures a[k] == b[k] {
      assert Get(a, k) == Get(b, k);
    }
  }

  /** `getConfig` as every consumer sees it: the merge with the shipped profile. */
  method GetConfig(backend: ClientConfig) returns (merged: ClientConfig)
    ensures merged == MergedConfig(backend, Shipped)
  {
    merged := GetConfigWithBrand(backend, Shipped);
  }

  /**
   * With the shipped profile the identity fields take the brand's name, URL and description,
   * while the brand text and its marker stay as the server has them (the brand text is empty).
   */
  lemma ShippedIdentity(backend: ClientConfig)
    ensures Get(MergedConfig(backend, Shipped), SiteName) == Some("Guduu OS")
    ensures Get(MergedConfig(backend, Shipped), SiteURL) == Some("https://im.guduu.co")
    ensures Get(MergedConfig(backend, Shipped), CustomDescriptionText) == Some("Login")
    ensures Get(MergedConfig(backend, Shipped), CustomBrandText) == Get(backend, CustomBrandText)
    ensures Get(MergedConfig(backend, Shipped), EnableCustomBrand) == Get(backend, EnableCustomBrand)
  {
    SiteNameOverride(backend, Shipped);
    SiteURLOverride(backend, Shipped);
    CustomDescriptionTextOverride(backend, Shipped);
    CustomBrandTextOverride(backend, Shipped);
    EnableCustomBrandOverride(backend, Shipped);
  }

  /** With the shipped profile the theme is "quartz" and both theme switches read "true". */
  lemma ShippedTheme(backend: ClientConfig)
    ensures Get(MergedConfig(backend, Shipped), DefaultTheme) == Some("quartz")
    ensures Get(MergedConfig(backend, Shipped), EnableThemeSelection) == Some("true")
    ensures Get(MergedConfig(backend, Shipped), AllowCustomThemes) == Some("true")
  {
    DefaultThemeOverride(backend, Shipped);
    EnableThemeSelectionOverride(backend, Shipped);
    AllowCustomThemesOverride(backend, Shipped);
  }

  /** The unbranded server configuration, for callers that need it. */
  function GetOriginalConfigWithoutBrand(backend: ClientConfig): (r: ClientConfig)
    ensures r == backend
    ensures forall brand: BrandProfile, k :: k !in OverrideKeys ==>
      Get(r, k) == Get(MergedConfig(backend, brand), k)
  {
    MergedKeepsOtherKeys(backend);
    backend
  }

  // ---------- Properties of the merge ----------

  /** Reading a key of the merged configuration: the override if one fires, else the server's value. */
  lemma MergedLookup(backend: ClientConfig, brand: BrandProfile, k: string)
    ensures Get(MergedConfig(backend, brand), k) ==
      (if OverrideFor(brand, k).Some? then OverrideFor(brand, k) else Get(backend, k))
  {
  }

  /** Reading the key of an override field of the merged configuration. */
  lemma FieldLookup(backend: ClientConfig, brand: BrandProfile, f: Field)
    ensures Get(MergedConfig(backend, brand), Key(f)) ==
      (if Override(brand, f).Some? then Override(brand, f) else Get(backend, Key(f)))
  {
    MergedLookup(backend, brand, Key(f));
    KeyOfField(f);
  }

  /** Only the eight override keys can fire. */
  lemma OverridesOnlyOverrideKeys(brand: BrandProfile, k: string)
    ensures OverrideFor(brand, k).Some? ==> k in OverrideKeys
  {
  }

  /** Every key outside the override table keeps its server value, and none is added or removed. */
  lemma MergedKeepsOtherKeys(backend: ClientConfig)
    ensures forall brand: BrandProfile, k :: k !in OverrideKeys ==>
      Get(MergedConfig(backend, brand), k) == Get(backend, k)
  {
    forall brand: BrandProfile, k | k !in OverrideKeys
      ensures Get(MergedConfig(backend, brand), k) == Get(backend, k)
    {
      MergedLookup(backend, brand, k);
      OverridesOnlyOverrideKeys(brand, k);
    }
  }

  /** No key of the server configuration is lost; the only keys added are override keys. */
  lemma MergedKeys(backend: ClientConfig, brand: BrandProfile)
    ensures backend.Keys <= MergedConfig(backend, brand).Keys
    ensures MergedConfig(backend, brand).Keys - backend.Keys <= OverrideKeys
  {
  }

  // Each lemma below reads one key of the merged configuration.

  /** The site name is replaced iff the switch is on and the brand value is non-empty. */
  lemma SiteNameOverride(backend: ClientConfig, brand: BrandProfile)
    ensures Get(MergedConfig(backend, brand), SiteName) ==
      (if brand.enableCustomBrand && brand.siteName != "" then Some(brand.siteName) else Get(backend, SiteName))
  {
    FieldLookup(backend, brand, SiteNameField);
  }

  /** The site URL is replaced iff the switch is on and the brand value is non-empty. */
  lemma SiteURLOverride(backend: ClientConfig, brand: BrandProfile)
    ensures Get(MergedConfig(backend, brand), SiteURL) ==
      (if brand.enableCustomBrand && brand.siteURL != "" then Some(brand.siteURL) else Get(backend, SiteURL))
  {
    FieldLookup(backend, brand, SiteURLField);
  }

  /** The custom description text is replaced iff the switch is on and the brand value is non-empty. */
  lemma CustomDescriptionTextOverride(backend: ClientConfig, brand: BrandProfile)
    ensures Get(MergedConfig(backend, brand), CustomDescriptionText) ==
      (if brand.enableCustomBrand && brand.customDescriptionText != ""
       then Some(brand.customDescriptionText) else Get(backend, CustomDescriptionText))
  {
    FieldLookup(backend, brand, CustomDescriptionTextField);
  }

  /** The custom brand text is replaced iff the switch is on and the brand value is non-empty. */
  lemma CustomBrandTextOverride(backend: ClientConfig, brand: BrandProfile)
    ensures Get(MergedConfig(backend, brand), CustomBrandText) ==
      (if brand.enableCustomBrand && brand.customBrandText != ""
       then Some(brand.customBrandText) else Get(backend, CustomBrandText))
  {
    FieldLookup(backend, brand, CustomBrandTextField);
  }

  /** The custom-brand marker reads "true" under the same condition that replaces the brand text. */
  lemma EnableCustomBrandOverride(backend: ClientConfig, brand: BrandProfile)
    ensures Get(MergedConfig(backend, brand), EnableCustomBrand) ==
      (if brand.enableCustomBrand && brand.customBrandText != ""
       then Some("true") else Get(backend, EnableCustomBrand))
  {
    FieldLookup(backend, brand, EnableCustomBrandField);
  }

  /** The default theme is replaced exactly when the brand value is non-empty. */
  lemma DefaultThemeOverride(backend: ClientConfig, brand: BrandProfile)
    ensures Get(MergedConfig(backend, brand), DefaultTheme) ==
      (if brand.defaultTheme != "" then Some(brand.defaultTheme) else Get(backend, DefaultTheme))
  {
    FieldLookup(backend, brand, DefaultThemeField);
  }

  /** A defined theme-selection switch is written as "true" or "false"; an undefined one keeps the server's value. */
  lemma EnableThemeSelectionOverride(backend: ClientConfig, brand: BrandProfile)
    ensures Get(MergedConfig(backend, brand), EnableThemeSelection) ==
      (match brand.enableThemeSelection
       case Some(b) => Some(if b then "true" else "false")
       case None => Get(backend, EnableThemeSelection))
  {
    FieldLookup(backend, brand, EnableThemeSelectionField);
  }

  /** A defined custom-themes switch is written as "true" or "false"; an undefined one keeps the server's value. */
  lemma AllowCustomThemesOverride(backend: ClientConfig, brand: BrandProfile)
    ensures Get(MergedConfig(backend, brand), AllowCustomThemes) ==
      (match brand.allowCustomThemes
       case Some(b) => Some(if b then "true" else "false")
       case None => Get(backend, AllowCustomThemes))
  {
    FieldLookup(backend, brand, AllowCustomThemesField);
  }

  /** With the custom-brand switch off, no identity field differs from the server's. */
  lemma SwitchOffKeepsIdentity(backend: ClientConfig, brand: BrandProfile)
    requires !brand.enableCustomBrand
    ensures forall f :: IsIdentity(f) ==> Get(MergedConfig(backend, brand), Key(f)) == Get(backend, Key(f))
  {
    forall f | IsIdentity(f)
      ensures Get(MergedConfig(backend, brand), Key(f)) == Get(backend, Key(f))
    {
      assert Override(brand, f).None?;
      FieldLookup(backend, brand, f);
    }
  }

  /** The theme fields do not depend on the custom-brand switch. */
  lemma ThemeFieldsIgnoreSwitch(backend: ClientConfig, brand: BrandProfile, enable: bool)
    ensures forall f :: !IsIdentity(f) ==>
      Get(MergedConfig(backend, brand.(enableCustomBrand := enable)), Key(f)) == Get(MergedConfig(backend, brand), Key(f))
  {
    forall f | !IsIdentity(f)
      ensures Get(MergedConfig(backend, brand.(enableCustomBrand := enable)), Key(f)) == Get(MergedConfig(backend, brand), Key(f))
    {
      FieldLookup(backend, brand.(enableCustomBrand := enable), f);
      FieldLookup(backend, brand, f);
      ThemeOverrideIgnoresSwitch(brand, enable, f);
    }
  }

  /** The override table entry of a theme field does not read the custom-brand switch. */
  lemma ThemeOverrideIgnoresSwitch(brand: BrandProfile, enable: bool, f: Field)
    requires !IsIdentity(f)
    ensures Override(brand.(enableCustomBrand := enable), f) == Override(brand, f)
  {
  }

  /** Merging an already merged configuration again changes nothing. */
  lemma MergeIdempotent(backend: ClientConfig, brand: BrandProfile)
    ensures MergedConfig(MergedConfig(backend, brand), brand) == MergedConfig(backend, brand)
  {
    var once := MergedConfig(backend, brand);
    var twice := MergedConfig(once, brand);
    forall k
      ensures Get(twice, k) == Get(once, k)
    {
      MergedLookup(once, brand, k);
      MergedLookup(backend, brand, k);
    }
    SameLookupsSameMap(twice, once);
  }

  /**
   * A profile that sets only a site name and a theme changes no other override field; with
   * `MergedKeepsOtherKeys`, only the site name and the default theme can differ from the server's.
   */
  lemma NameAndThemeOnly(backend: ClientConfig, brand: BrandProfile)
    requires brand.siteURL == "" && brand.customBrandText == "" && brand.customDescriptionText == ""
    requires brand.enableThemeSelection.None? && brand.allowCustomThemes.None?
    ensures forall f :: f != SiteNameField && f != DefaultThemeField ==>
      Get(MergedConfig(backend, brand), Key(f)) == Get(backend, Key(f))
  {
    forall f | f != SiteNameField && f != DefaultThemeField
      ensures Get(MergedConfig(backend, brand), Key(f)) == Get(backend, Key(f))
    {
      assert Override(brand, f).None?;
      FieldLookup(backend, brand, f);
    }
  }

  /**
   * An example: a server configuration {SiteName: "Acme"} and the shipped profile with
   * only the site name and theme set gives exactly {SiteName: "Guduu OS", DefaultTheme: "quartz"}
   * (every other override key and every other key is absent); with the switch off the server's
   * name stays.
   */
  lemma MergeExample()
    ensures Get(MergedConfig(map[SiteName := "Acme"], ExampleBrand), SiteName) == Some("Guduu OS")
    ensures Get(MergedConfig(map[SiteName := "Acme"], ExampleBrand), DefaultTheme) == Some("quartz")
    ensures forall f :: f != SiteNameField && f != DefaultThemeField ==>
      Key(f) !in MergedConfig(map[SiteName := "Acme"], ExampleBrand)
    ensures forall k :: k !in OverrideKeys ==> k !in MergedConfig(map[SiteName := "Acme"], ExampleBrand)
    ensures Get(MergedConfig(map[SiteName := "Acme"], ExampleBrand.(enableCustomBrand := false)), SiteName) == Some("Acme")
  {
    SiteNameOverride(map[SiteName := "Acme"], ExampleBrand);
    DefaultThemeOverride(map[SiteName := "Acme"], ExampleBrand);
    NameAndThemeOnly(map[SiteName := "Acme"], ExampleBrand);
    forall f | f != SiteNameField && f != DefaultThemeField
      ensures Key(f) !in MergedConfig(map[SiteName := "Acme"], ExampleBrand)
    {
      assert Get(MergedConfig(map[SiteName := "Acme"], ExampleBrand), Key(f)) == Get(map[SiteName := "Acme"], Key(f));
      KeyOfField(f);
    }
    MergedKeepsOtherKeys(map[SiteName := "Acme"]);
    SiteNameOverride(map[SiteName := "Acme"], ExampleBrand.(enableCustomBrand := false));
  }

  /** The shipped profile reduced to its site name and theme. */
  const ExampleBrand := Shipped.(siteURL := "", customDescriptionText := "", enableThemeSelection := None, allowCustomThemes := None)
}
