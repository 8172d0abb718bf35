/** The chat-widget settings page (pages/Dashboard/ChatSettingsPage.tsx): the
    committed settings, an optional draft being edited, and the links derived
    from them. A settings object is a map from field to value, so that the
    page's object spreads are map unions. */
module ChatSettings {
  import opened Wrappers

  datatype EmbedMode = Bubble | Iframe | Bar | Conversational

  datatype Field =
    | BotName | WelcomeMessage | BrandColor | WidgetSlug | FontFamily
    | HeaderBgColor | BodyBgColor | EmbedModeField | ShareUrl

  /** A property value; `Undefined` is a property present with value `undefined`. */
  datatype Value = Text(s: string) | Mode(mode: EmbedMode) | Undefined

  type Record = map<Field, Value>

  const ChatBase: string := "http://localhost:5173/chat/"
  const NoLink: string := "—"
  const LoadFailedMessage: string := "فشل تحميل الإعدادات. حاول مجددًا."
  const SaveFailedMessage: string := "فشل حفظ الإعدادات. حاول مجددًا."

  /** The fields `saveAll` sends: all but the embed mode and the share link. */
  const SavedFields: set<Field> :=
    {BotName, BrandColor, WelcomeMessage, FontFamily, HeaderBgColor, BodyBgColor, WidgetSlug}

  const AllFields: set<Field> :=
    {BotName, WelcomeMessage, BrandColor, WidgetSlug, FontFamily, HeaderBgColor, BodyBgColor, EmbedModeField, ShareUrl}

  lemma FieldListed(f: Field)
    ensures f in AllFields
  {
    match f
    case BotName =>
    case WelcomeMessage =>
    case BrandColor =>
    case WidgetSlug =>
    case FontFamily =>
    case HeaderBgColor =>
    case BodyBgColor =>
    case EmbedModeField =>
    case ShareUrl =>
  }

  /** Every field of the settings type is present. */
  predicate Complete(r: Record) {
    AllFields <= r.Keys
  }

  /** A property read: absent reads as `undefined`. */
  function Get(r: Record, f: Field): Value {
    if f in r then r[f] else Undefined
  }

  /** JavaScript truthiness of a property value. */
  predicate TruthyValue(v: Value) {
    match v
    case Text(s) => s != ""
    case Mode(_) => true
    case Undefined => false
  }

  /** How a value reads inside a template literal. */
  function Interpolated(v: Value): string {
    match v
    case Text(s) => s
    case Mode(Bubble) => "bubble"
    case Mode(Iframe) => "iframe"
    case Mode(Bar) => "bar"
    case Mode(Conversational) => "conversational"
    case Undefined => "undefined"
  }

  /** `API_BASE.replace(/\/api$/, "")`: one trailing "/api" is dropped. */
  function StripApiSuffix(apiBase: string): (r: string)
    ensures |apiBase| >= 4 && apiBase[|apiBase| - 4..] == "/api" ==> r + "/api" == apiBase
    ensures !(|apiBase| >= 4 && apiBase[|apiBase| - 4..] == "/api") ==> r == apiBase
  {
    if |apiBase| >= 4 && apiBase[|apiBase| - 4..] == "/api" then apiBase[..|apiBase| - 4] else apiBase
  }

  /** The settings before the server answers. */
  function InitialSettings(apiBase: string, merchantId: string): (r: Record)
    ensures Complete(r)
    ensures r[BotName] == Text("Musaid Bot") && r[WelcomeMessage] == Text("")
    ensures r[BrandColor] == Text("#FF8500") && r[WidgetSlug] == Text("smart")
    ensures r[FontFamily] == Text("Tajawal") && r[HeaderBgColor] == Text("#FF8500")
    ensures r[BodyBgColor] == Text("#FFF5E6") && r[EmbedModeField] == Mode(Bubble)
    ensures r[ShareUrl] == Text(StripApiSuffix(apiBase) + "/chat/" + merchantId)
  {
    var r := map[BotName := Text("Musaid Bot"), WelcomeMessage := Text(""), BrandColor := Text("#FF8500"),
                 WidgetSlug := Text("smart"), FontFamily := Text("Tajawal"), HeaderBgColor := Text("#FF8500"),
                 BodyBgColor := Text("#FFF5E6"), EmbedModeField := Mode(Bubble),
                 ShareUrl := Text(StripApiSuffix(apiBase) + "/chat/" + merchantId)];
    r
  }

  /** What the form shows: the draft while one exists, else the settings. */
  function Effective(settings: Record, draft: Option<Record>): (r: Record)
    ensures draft.Some? ==> r == draft.value
    ensures draft.None? ==> r == settings
  {
    draft.GetOr(settings)
  }

  /** `handleChange(key, value)`: the new settings and draft. */
  function Changed(settings: Record, draft: Option<Record>, key: Field, value: Value): (r: (Record, Option<Record>))
    ensures Effective(r.0, r.1) == Effective(settings, draft)[key := value]
    ensures r.1.Some? <==> draft.Some?
    ensures draft.Some? ==> r.0 == settings
    ensures draft.None? ==> r.0 == settings[key := value]
  {
    if draft.Some? then (settings, Some(draft.value[key := value]))
    else (settings[key := value], None)
  }

  /** A change touches only its own field of the form. */
  lemma ChangeTouchesOneField(settings: Record, draft: Option<Record>, key: Field, value: Value, other: Field)
    requires other != key
    ensures var r := Changed(settings, draft, key, value);
      Get(Effective(r.0, r.1), other) == Get(Effective(settings, draft), other)
  {
  }

  /** `{ ...settings, ...draft }`: the draft's fields win. */
  function Merge(settings: Record, draft: Record): (r: Record)
    ensures r.Keys == settings.Keys + draft.Keys
    ensures forall f :: f in draft ==> r[f] == draft[f]
    ensures forall f :: f in settings && f !in draft ==> r[f] == settings[f]
  {
    settings + draft
  }

  /** A complete draft replaces the settings wholesale: after a successful
      save the committed settings are exactly what was edited. */
  lemma {:induction false} MergeCompleteDraft(settings: Record, draft: Record)
    requires Complete(draft)
    ensures Merge(settings, draft) == draft
  {
    var r := Merge(settings, draft);
    assert r.Keys == draft.Keys by {
      forall f | f in r ensures f in draft {
        FieldListed(f);
      }
    }
  }

  /** The body of the save request: exactly the seven saved fields, read
      from the draft. */
  function SavePayload(draft: Record): (p: Record)
    ensures p.Keys == SavedFields
    ensures EmbedModeField !in p && ShareUrl !in p
    ensures forall f :: f in p ==> p[f] == Get(draft, f)
  {
    map f | f in SavedFields :: Get(draft, f)
  }

  /** The settings after the server's record arrives: its fields override,
      but the bot name stays the local one, the slug is the server's (or
      `undefined`), and the share link is rebuilt from that slug only when
      it is truthy. */
  function LoadMerge(prev: Record, data: Record): (r: Record)
    ensures r.Keys == prev.Keys + data.Keys + {BotName, WidgetSlug, ShareUrl}
    ensures r[BotName] == Get(prev, BotName)
    ensures r[WidgetSlug] == Get(data, WidgetSlug)
    ensures TruthyValue(Get(data, WidgetSlug)) ==> r[ShareUrl] == Text(ChatBase + Interpolated(Get(data, WidgetSlug)))
    ensures !TruthyValue(Get(data, WidgetSlug)) ==> r[ShareUrl] == Get(prev, ShareUrl)
    ensures forall f :: f !in {BotName, WidgetSlug, ShareUrl} && f in data ==> r[f] == data[f]
    ensures forall f :: f !in {BotName, WidgetSlug, ShareUrl} && f !in data && f in prev ==> r[f] == prev[f]
    ensures Complete(prev) ==> Complete(r)
  {
    var slug := Get(data, WidgetSlug);
    var share := if TruthyValue(slug) then Text(ChatBase + Interpolated(slug)) else Get(prev, ShareUrl);
    prev + data + map[BotName := Get(prev, BotName), WidgetSlug := slug, ShareUrl := share]
  }

  /** `chatLink`: from the committed settings (not the draft), or a dash. */
  function ChatLink(settings: Record): (link: string)
    ensures TruthyValue(Get(settings, WidgetSlug)) ==>
      link == ChatBase + Interpolated(Get(settings, WidgetSlug)) && |link| > |ChatBase|
    ensures !TruthyValue(Get(settings, WidgetSlug)) ==> link == NoLink
  {
    if TruthyValue(Get(settings, WidgetSlug)) then ChatBase + Interpolated(Get(settings, WidgetSlug)) else NoLink
  }

  /** Editing a draft never changes the chat link; only saving it can. */
  lemma DraftEditKeepsChatLink(settings: Record, draft: Record, key: Field, value: Value)
    ensures ChatLink(Changed(settings, Some(draft), key, value).0) == ChatLink(settings)
  {
  }

  class SettingsPage {
    const apiBase: string
    const merchantId: string
    var settings: Record
    var draft: Option<Record>
    var loading: bool
    var apiError: Option<string>
    var showSuccess: bool

    /** The committed settings and any draft have every field. */
    predicate Valid()
      reads this
    {
      Complete(settings) && (draft.Some? ==> Complete(draft.value))
    }

    constructor (apiBase: string, merchantId: string)
      ensures Valid()
      ensures this.apiBase == apiBase && this.merchantId == merchantId
      ensures settings == InitialSettings(apiBase, merchantId) && draft == None
      ensures loading && apiError == None && !showSuccess
    {
      this.apiBase := apiBase;
      this.merchantId := merchantId;
      settings := InitialSettings(apiBase, merchantId);
      draft := None;
      loading := true;
      apiError := None;
      showSuccess := false;
    }

    /** The settings request settled: a record is merged in (`LoadMerge`), a
        failure sets the load error; loading ends either way. */
    method Loaded(data: Option<Record>)
      requires Valid()
      modifies this
      ensures Valid()
      ensures data.Some? ==> settings == LoadMerge(old(settings), data.value) && apiError == old(apiError)
      ensures data.None? ==> settings == old(settings) && apiError == Some(LoadFailedMessage)
      ensures draft == old(draft) && !loading && showSuccess == old(showSuccess)
    {
      if data.Some? {
        settings := LoadMerge(settings, data.value);
      } else {
        apiError := Some(LoadFailedMessage);
      }
      loading := false;
    }

    /** `handleChange`: the field is written to the draft when editing,
        otherwise to the settings. */
    method HandleChange(key: Field, value: Value)
      requires Valid() && !loading
      modifies this
      ensures Valid()
      ensures (settings, draft) == Changed(old(settings), old(draft), key, value)
      ensures loading == old(loading) && apiError == old(apiError) && showSuccess == old(showSuccess)
    {
      var r := Changed(settings, draft, key, value);
      settings, draft := r.0, r.1;
    }

    /** `cloneSettings`: editing starts from a copy of the settings. Its
        edit button is rendered only while there is no draft, so an existing
        draft is never overwritten. */
    method CloneSettings()
      requires Valid() && !loading
      modifies this
      ensures Valid()
      ensures draft == if old(draft).None? then Some(settings) else old(draft)
      ensures settings == old(settings)
      ensures loading == old(loading) && apiError == old(apiError) && showSuccess == old(showSuccess)
    {
      if draft.None? {
        draft := Some(settings);
      }
    }

    /** `discardDraft`: the edits are dropped, the settings stay. */
    method DiscardDraft()
      requires Valid() && !loading
      modifies this
      ensures Valid()
      ensures draft == None && settings == old(settings)
      ensures loading == old(loading) && apiError == old(apiError) && showSuccess == old(showSuccess)
    {
      draft := None;
    }

    /** `saveAll`: without a draft nothing happens. Otherwise `SavePayload`
        is sent; on success (`saved`) the draft becomes the settings and is
        dropped, on failure it is kept and the save error is shown. */
    method SaveAll(saved: bool) returns (payload: Option<Record>)
      requires Valid() && !loading
      modifies this
      ensures Valid()
      ensures payload.Some? <==> old(draft).Some?
      ensures payload.Some? ==> payload.value == SavePayload(old(draft).value)
      ensures payload.Some? && saved ==>
        settings == old(draft).value && draft == None && showSuccess && apiError == None
      ensures payload.Some? && !saved ==>
        settings == old(settings) && draft == old(draft) && showSuccess == old(showSuccess)
        && apiError == Some(SaveFailedMessage)
      ensures payload.None? ==>
        settings == old(settings) && draft == old(draft) && showSuccess == old(showSuccess)
        && apiError == old(apiError)
      ensures !loading
    {
      if draft.None? {
        payload := None;
        return;
      }
      payload := Some(SavePayload(draft.value));
      apiError := None;
      if saved {
        MergeCompleteDraft(settings, draft.value);
        settings := Merge(settings, draft.value);
        draft := None;
        showSuccess := true;
      } else {
        apiError := Some(SaveFailedMessage);
      }
      loading := false;
    }

    /** A generated slug arrived. The settings always take it; the draft
        takes it only if a draft existed when the button was clicked
        (`draftAtClick`, the handler's captured state) and still exists now. */
    method SlugGenerated(slug: Value, draftAtClick: bool)
      requires Valid()
      modifies this
      ensures Valid()
      ensures settings == old(settings)[WidgetSlug := slug]
      ensures draft == (if draftAtClick && old(draft).Some? then Some(old(draft).value[WidgetSlug := slug]) else old(draft))
      ensures loading == old(loading) && apiError == old(apiError) && showSuccess == old(showSuccess)
    {
      settings := settings[WidgetSlug := slug];
      if draftAtClick && draft.Some? {
        draft := Some(draft.value[WidgetSlug := slug]);
      }
    }

    method CloseSuccess()
      modifies this
      ensures !showSuccess
      ensures settings == old(settings) && draft == old(draft)
      ensures loading == old(loading) && apiError == old(apiError)
    {
      showSuccess := false;
    }
  }
}
