/** The storefront appearance page (pages/Dashboard/StorefrontThemePage.tsx):
    theme colours, button style, the public slug and the store link. */
module StorefrontTheme {
  import opened Wrappers
  import opened Text

  const BaseUrl: string := "http://localhost:5173/store/"
  const DefaultPrimaryColor: string := "#FF8500"
  const DefaultSecondaryColor: string := "#1976d2"
  const DefaultButtonStyle: string := "rounded"

  const NoStorefrontMessage: string := "تعذر جلب بيانات المتجر!"
  const SlugRequiredMessage: string := "معرّف الرابط (slug) مطلوب"
  const SavedMessage: string := "تم حفظ إعدادات الثيم بنجاح!"
  const SaveFailedMessage: string := "حدث خطأ أثناء الحفظ"

  /** The storefront record of the server; `rest` stands for the fields this
      page never reads or writes. */
  datatype Storefront = Storefront(
    id: Option<string>,
    primaryColor: Option<string>,
    secondaryColor: Option<string>,
    buttonStyle: Option<string>,
    slug: Option<string>,
    domain: Option<string>,
    rest: map<string, string>)

  /** The four values the page edits and saves. */
  datatype Theme = Theme(primaryColor: string, secondaryColor: string, buttonStyle: string, slug: string)

  // ---------------------------------------------------------------- slug

  /** The characters the slug field keeps: `[A-Za-z0-9-_]`. */
  predicate IsSlugChar(c: char) {
    ('a' <= c <= 'z') || ('A' <= c <= 'Z') || ('0' <= c <= '9') || c == '-' || c == '_'
  }

  predicate AllSlugChars(s: string) {
    forall i :: 0 <= i < |s| ==> IsSlugChar(s[i])
  }

  /** The slug field's `onChange`: every character outside `[A-Za-z0-9-_]`
      is removed, the rest keep their order. */
  function SanitizeSlug(s: string): (r: string)
    ensures |r| <= |s|
    ensures AllSlugChars(r)
    ensures forall c :: c in r <==> c in s && IsSlugChar(c)
  {
    if s == [] then []
    else (if IsSlugChar(s[0]) then [s[0]] else []) + SanitizeSlug(s[1..])
  }

  /** Sanitising a concatenation sanitises each part: the characters kept
      from a prefix come first, in order. */
  lemma {:induction false} SanitizeSlugAppend(a: string, b: string)
    ensures SanitizeSlug(a + b) == SanitizeSlug(a) + SanitizeSlug(b)
    decreases |a|
  {
    if a != [] {
      assert (a + b)[0] == a[0];
      assert (a + b)[1..] == a[1..] + b;
      SanitizeSlugAppend(a[1..], b);
    } else {
      assert a + b == b;
    }
  }

  /** A string is left unchanged exactly when all its characters are allowed. */
  lemma {:induction false} SanitizeSlugIdentity(s: string)
    ensures SanitizeSlug(s) == s <==> AllSlugChars(s)
    decreases |s|
  {
    if s != [] {
      SanitizeSlugIdentity(s[1..]);
      if AllSlugChars(s) {
        assert AllSlugChars(s[1..]) by {
          forall i | 0 <= i < |s[1..]| ensures IsSlugChar(s[1..][i]) {
            assert s[1..][i] == s[i + 1];
          }
        }
      }
      if SanitizeSlug(s) == s {
        assert AllSlugChars(s);
      }
    }
  }

  /** Editing the slug field twice with the same text changes nothing more. */
  lemma SanitizeSlugIdempotent(s: string)
    ensures SanitizeSlug(SanitizeSlug(s)) == SanitizeSlug(s)
  {
    SanitizeSlugIdentity(SanitizeSlug(s));
  }

  // ---------------------------------------------------------------- store link

  /** `storeUrl`: the custom domain over https when one is set, else the
      slug under `BaseUrl`, else empty. */
  function StoreUrl(domain: Option<string>, slug: string): (url: string)
    ensures url == "" <==> !Truthy(domain) && slug == ""
    ensures Truthy(domain) ==> url == "https://" + domain.value
    ensures !Truthy(domain) && slug != "" ==> url == BaseUrl + slug && url[|BaseUrl|..] == slug
  {
    if Truthy(domain) then "https://" + domain.value
    else if slug != "" then BaseUrl + slug
    else ""
  }

  /** What `handleCopy` writes to the clipboard: nothing for an empty link. */
  function CopyText(url: string): (r: Option<string>)
    ensures r.None? <==> url == ""
    ensures r.Some? ==> r.value == url
  {
    if url == "" then None else Some(url)
  }

  // ---------------------------------------------------------------- load and save

  /** The form after a load: each stored value, or its default when it is
      missing or empty. */
  function LoadedTheme(data: Storefront): (t: Theme)
    ensures t.primaryColor == (if Truthy(data.primaryColor) then data.primaryColor.value else DefaultPrimaryColor)
    ensures t.secondaryColor == (if Truthy(data.secondaryColor) then data.secondaryColor.value else DefaultSecondaryColor)
    ensures t.buttonStyle == (if Truthy(data.buttonStyle) then data.buttonStyle.value else DefaultButtonStyle)
    ensures t.slug == data.slug.GetOr("")
    ensures t.primaryColor != "" && t.secondaryColor != "" && t.buttonStyle != ""
  {
    Theme(
      if Truthy(data.primaryColor) then data.primaryColor.value else DefaultPrimaryColor,
      if Truthy(data.secondaryColor) then data.secondaryColor.value else DefaultSecondaryColor,
      if Truthy(data.buttonStyle) then data.buttonStyle.value else DefaultButtonStyle,
      if Truthy(data.slug) then data.slug.value else "")
  }

  datatype SaveCheck = NoStorefront | SlugRequired | Ready(storefrontId: string)

  /** `handleSave`'s guards, in order: a loaded storefront with an id, then a
      non-empty slug. */
  function ValidateSave(storefront: Option<Storefront>, slug: string): (c: SaveCheck)
    ensures c.NoStorefront? <==> storefront.None? || !Truthy(storefront.value.id)
    ensures c.SlugRequired? <==> storefront.Some? && Truthy(storefront.value.id) && slug == ""
    ensures c.Ready? ==>
      storefront.Some? && storefront.value.id == Some(c.storefrontId) && c.storefrontId != "" && slug != ""
  {
    if storefront.None? || !Truthy(storefront.value.id) then NoStorefront
    else if slug == "" then SlugRequired
    else Ready(storefront.value.id.value)
  }

  /** The local record after a successful save: the four edited fields are
      replaced, everything else is kept. */
  function ApplyTheme(prev: Storefront, t: Theme): (r: Storefront)
    ensures r.id == prev.id && r.domain == prev.domain && r.rest == prev.rest
    ensures r.primaryColor == Some(t.primaryColor) && r.secondaryColor == Some(t.secondaryColor)
    ensures r.buttonStyle == Some(t.buttonStyle) && r.slug == Some(t.slug)
  {
    prev.(primaryColor := Some(t.primaryColor), secondaryColor := Some(t.secondaryColor),
          buttonStyle := Some(t.buttonStyle), slug := Some(t.slug))
  }

  /** Saving and then loading the saved record gives back the form, provided
      none of its values is empty (an empty value would reload as its default). */
  lemma SaveThenLoad(prev: Storefront, t: Theme)
    requires t.primaryColor != "" && t.secondaryColor != "" && t.buttonStyle != ""
    ensures LoadedTheme(ApplyTheme(prev, t)) == t
  {
  }

  /** An empty colour does not survive a save and reload: it comes back as the default. */
  lemma EmptyColourReloadsAsDefault(prev: Storefront, t: Theme)
    requires t.primaryColor == ""
    ensures LoadedTheme(ApplyTheme(prev, t)).primaryColor == DefaultPrimaryColor
    ensures LoadedTheme(ApplyTheme(prev, t)) != t
  {
  }

  datatype Severity = SuccessSeverity | ErrorSeverity

  datatype Snackbar = Snackbar(open: bool, message: string, severity: Severity)

  datatype UpdateRequest = UpdateRequest(storefrontId: string, theme: Theme)

  class ThemeEditor {
    const merchantId: string
    var storefront: Option<Storefront>
    var loading: bool
    var theme: Theme
    var domain: Option<string>
    var snackbar: Snackbar
    var copySuccess: bool

    constructor (merchantId: string)
      ensures this.merchantId == merchantId
      ensures storefront == None && loading && !copySuccess
      ensures theme == Theme(DefaultPrimaryColor, DefaultSecondaryColor, DefaultButtonStyle, "")
      ensures domain == None && !snackbar.open
    {
      this.merchantId := merchantId;
      storefront := None;
      loading := true;
      theme := Theme(DefaultPrimaryColor, DefaultSecondaryColor, DefaultButtonStyle, "");
      domain := None;
      snackbar := Snackbar(false, "", SuccessSeverity);
      copySuccess := false;
    }

    /** The form is rendered only once loading has ended with a storefront;
        until then the page shows a spinner, and the handlers of the form's
        controls cannot run. A failed load leaves `storefront` empty, so the
        spinner stays for good. */
    predicate FormShown()
      reads this
    {
      !loading && storefront.Some?
    }

    /** The link shown under the slug field. */
    function Url(): string
      reads this
    {
      StoreUrl(domain, theme.slug)
    }

    /** The storefront request settled (it is only sent for a non-empty
        merchant id): a record fills the form; loading ends either way. */
    method Loaded(data: Option<Storefront>)
      requires merchantId != ""
      modifies this
      ensures data.Some? ==> storefront == data && theme == LoadedTheme(data.value) && domain == data.value.domain
      ensures data.None? ==> storefront == old(storefront) && theme == old(theme) && domain == old(domain)
      ensures !loading
      ensures snackbar == old(snackbar) && copySuccess == old(copySuccess)
    {
      if data.Some? {
        storefront := data;
        theme := LoadedTheme(data.value);
        domain := data.value.domain;
      }
      loading := false;
    }

    method PickPrimaryColor(hex: string)
      modifies this
      ensures theme == if old(FormShown()) then old(theme).(primaryColor := hex) else old(theme)
      ensures storefront == old(storefront) && loading == old(loading)
      ensures domain == old(domain) && snackbar == old(snackbar) && copySuccess == old(copySuccess)
    {
      if FormShown() {
        theme := theme.(primaryColor := hex);
      }
    }

    method PickSecondaryColor(hex: string)
      modifies this
      ensures theme == if old(FormShown()) then old(theme).(secondaryColor := hex) else old(theme)
      ensures storefront == old(storefront) && loading == old(loading)
      ensures domain == old(domain) && snackbar == old(snackbar) && copySuccess == old(copySuccess)
    {
      if FormShown() {
        theme := theme.(secondaryColor := hex);
      }
    }

    method PickButtonStyle(style: string)
      requires style == "rounded" || style == "square"
      modifies this
      ensures theme == if old(FormShown()) then old(theme).(buttonStyle := style) else old(theme)
      ensures storefront == old(storefront) && loading == old(loading)
      ensures domain == old(domain) && snackbar == old(snackbar) && copySuccess == old(copySuccess)
    {
      if FormShown() {
        theme := theme.(buttonStyle := style);
      }
    }

    /** Typing in the slug field stores the sanitised text. */
    method EditSlug(typed: string)
      modifies this
      ensures theme == if old(FormShown()) then old(theme).(slug := SanitizeSlug(typed)) else old(theme)
      ensures old(FormShown()) ==> AllSlugChars(theme.slug)
      ensures storefront == old(storefront) && loading == old(loading)
      ensures domain == old(domain) && snackbar == old(snackbar) && copySuccess == old(copySuccess)
    {
      if FormShown() {
        theme := theme.(slug := SanitizeSlug(typed));
      }
    }

    /** `handleCopy`: an empty link copies nothing and changes nothing. */
    method HandleCopy() returns (copied: Option<string>)
      modifies this
      ensures copied == if old(FormShown()) then CopyText(old(Url())) else None
      ensures copySuccess == (copied.Some? || old(copySuccess))
      ensures storefront == old(storefront) && loading == old(loading)
      ensures theme == old(theme) && domain == old(domain) && snackbar == old(snackbar)
    {
      copied := if FormShown() then CopyText(StoreUrl(domain, theme.slug)) else None;
      if copied.Some? {
        copySuccess := true;
      }
    }

    /** The two-second timer after a copy. */
    method CopyTimerFired()
      modifies this
      ensures !copySuccess
      ensures storefront == old(storefront) && loading == old(loading)
      ensures theme == old(theme) && domain == old(domain) && snackbar == old(snackbar)
    {
      copySuccess := false;
    }

    /** `handleSave`, from the form's save button: a failed guard only shows
        its error (with the form shown, "no storefront" means a record without
        an id); otherwise the theme is sent for the storefront's id and, when
        the server accepts it (`saved`), only the four edited fields of the
        local record change. */
    method HandleSave(saved: bool) returns (request: Option<UpdateRequest>)
      modifies this
      ensures !old(FormShown()) ==> request.None? && snackbar == old(snackbar)
      ensures old(FormShown()) ==> var check := ValidateSave(old(storefront), old(theme).slug);
        && (request.Some? <==> check.Ready?)
        && (request.Some? ==> request.value == UpdateRequest(check.storefrontId, old(theme)))
        && (check.NoStorefront? ==> snackbar == Snackbar(true, NoStorefrontMessage, ErrorSeverity))
        && (check.SlugRequired? ==> snackbar == Snackbar(true, SlugRequiredMessage, ErrorSeverity))
      ensures request.Some? && saved ==>
        storefront == Some(ApplyTheme(old(storefront).value, old(theme)))
        && snackbar == Snackbar(true, SavedMessage, SuccessSeverity)
      ensures request.Some? && !saved ==>
        storefront == old(storefront) && snackbar == Snackbar(true, SaveFailedMessage, ErrorSeverity)
      ensures request.None? ==> storefront == old(storefront)
      ensures theme == old(theme) && domain == old(domain) && loading == old(loading) && copySuccess == old(copySuccess)
    {
      var check := ValidateSave(storefront, theme.slug);
      if !FormShown() {
        request := None;
      } else if check.NoStorefront? {
        snackbar := Snackbar(true, NoStorefrontMessage, ErrorSeverity);
        request := None;
      } else if check.SlugRequired? {
        snackbar := Snackbar(true, SlugRequiredMessage, ErrorSeverity);
        request := None;
      } else {
        request := Some(UpdateRequest(check.storefrontId, theme));
        if saved {
          storefront := Some(ApplyTheme(storefront.value, theme));
          snackbar := Snackbar(true, SavedMessage, SuccessSeverity);
        } else {
          snackbar := Snackbar(true, SaveFailedMessage, ErrorSeverity);
        }
      }
    }

    /** The snackbar closes; its text stays. */
    method CloseSnackbar()
      modifies this
      ensures snackbar == old(snackbar).(open := false)
      ensures storefront == old(storefront) && loading == old(loading)
      ensures theme == old(theme) && domain == old(domain) && copySuccess == old(copySuccess)
    {
      snackbar := snackbar.(open := false);
    }
  }
}
