/**
 * Settings: the defaults, `loadSettings` (stored fields merged over the
 * defaults, with `safeJson`'s fallback), and the settings screen's handlers
 * that change a loaded record and save it back (theme toggle, save form,
 * clear keys). Storage holds one item; JSON text is abstracted to the object
 * it parses to, or to the fact that it does not parse.
 */
module Settings {
  import opened Wrappers

  /** The fields `DEFAULTS` names. */
  datatype Key =
    | Theme | TtsVoice | Provider | ProxyUrl
    | OpenrouterKey | OpenrouterModel | AzureKey | AzureRegion | SpeechaceKey

  /** The four credential fields that the "clear keys" button blanks. */
  predicate IsCredential(k: Key) {
    k == OpenrouterKey || k == AzureKey || k == AzureRegion || k == SpeechaceKey
  }

  /**
   * A loaded settings record: a value for every field of `DEFAULTS`, and
   * `extra` for any other stored field, which the spread carries along.
   */
  datatype Settings = Settings(
    theme: string, ttsVoice: string, provider: string, proxyUrl: string,
    openrouterKey: string, openrouterModel: string,
    azureKey: string, azureRegion: string, speechaceKey: string,
    extra: map<string, string>)
  {
    function Get(k: Key): string {
      match k
      case Theme => theme
      case TtsVoice => ttsVoice
      case Provider => provider
      case ProxyUrl => proxyUrl
      case OpenrouterKey => openrouterKey
      case OpenrouterModel => openrouterModel
      case AzureKey => azureKey
      case AzureRegion => azureRegion
      case SpeechaceKey => speechaceKey
    }
  }

  const DefaultModel: string := "openai/gpt-4o-mini"

  /** `DEFAULTS` */
  const Defaults: Settings := Settings("dark", "auto", "none", "", "", DefaultModel, "", "", "", map[])

  /** A parsed stored object: each known field present or not, and the other fields. */
  datatype StoredObject = StoredObject(
    theme: Option<string>, ttsVoice: Option<string>, provider: Option<string>, proxyUrl: Option<string>,
    openrouterKey: Option<string>, openrouterModel: Option<string>,
    azureKey: Option<string>, azureRegion: Option<string>, speechaceKey: Option<string>,
    extra: map<string, string>)
  {
    function Get(k: Key): Option<string> {
      match k
      case Theme => theme
      case TtsVoice => ttsVoice
      case Provider => provider
      case ProxyUrl => proxyUrl
      case OpenrouterKey => openrouterKey
      case OpenrouterModel => openrouterModel
      case AzureKey => azureKey
      case AzureRegion => azureRegion
      case SpeechaceKey => speechaceKey
    }
  }

  const EmptyObject: StoredObject := StoredObject(None, None, None, None, None, None, None, None, None, map[])

  /**
   * The settings item in storage: absent (or empty text, which is falsy),
   * text that `JSON.parse` rejects, or text that parses to an object.
   */
  datatype StoredItem = NoItem | Unparseable | Parsed(obj: StoredObject)

  /** `raw ? safeJson(raw, {}) : {}` */
  function StoredFields(item: StoredItem): (o: StoredObject)
    ensures item.Parsed? ==> o == item.obj
    ensures !item.Parsed? ==> o.extra == map[] && forall k: Key :: o.Get(k).None?
  {
    if item.Parsed? then item.obj else EmptyObject
  }

  /**
   * `loadSettings()`: `{...DEFAULTS, ...stored}`. A stored field wins over
   * the default, every other field takes its default, and text that does not
   * parse yields exactly the defaults.
   */
  function LoadSettings(item: StoredItem): (s: Settings)
    ensures forall k: Key :: s.Get(k) == StoredFields(item).Get(k).GetOr(Defaults.Get(k))
    ensures s.extra == StoredFields(item).extra
    ensures !item.Parsed? ==> s == Defaults
  {
    var o := StoredFields(item);
    Settings(
      o.theme.GetOr(Defaults.theme), o.ttsVoice.GetOr(Defaults.ttsVoice),
      o.provider.GetOr(Defaults.provider), o.proxyUrl.GetOr(Defaults.proxyUrl),
      o.openrouterKey.GetOr(Defaults.openrouterKey), o.openrouterModel.GetOr(Defaults.openrouterModel),
      o.azureKey.GetOr(Defaults.azureKey), o.azureRegion.GetOr(Defaults.azureRegion),
      o.speechaceKey.GetOr(Defaults.speechaceKey), o.extra)
  }

  /** `JSON.stringify(s)` seen as an object: every field is written. */
  function ToStored(s: Settings): (o: StoredObject)
    ensures forall k: Key :: o.Get(k) == Some(s.Get(k))
    ensures o.extra == s.extra
  {
    StoredObject(
      Some(s.theme), Some(s.ttsVoice), Some(s.provider), Some(s.proxyUrl),
      Some(s.openrouterKey), Some(s.openrouterModel),
      Some(s.azureKey), Some(s.azureRegion), Some(s.speechaceKey), s.extra)
  }

  /** What was saved is what is loaded. */
  lemma LoadAfterSave(s: Settings)
    ensures LoadSettings(Parsed(ToStored(s))) == s
  {
  }

  /** The "clear keys" handler's change: the four credentials become `""`. */
  function ClearCredentials(s: Settings): (r: Settings)
    ensures forall k: Key :: r.Get(k) == if IsCredential(k) then "" else s.Get(k)
    ensures r.extra == s.extra
  {
    s.(openrouterKey := "", azureKey := "", azureRegion := "", speechaceKey := "")
  }

  /** ECMAScript white space and line terminators, which `String.prototype.trim` removes. */
  predicate IsJsSpace(c: char) {
    c == '\t' || c == '\n' || c == '\U{B}' || c == '\U{C}' || c == '\r' || c == ' '
    || c == '\U{A0}' || c == '\U{1680}' || ('\U{2000}' <= c <= '\U{200A}')
    || c == '\U{2028}' || c == '\U{2029}' || c == '\U{202F}' || c == '\U{205F}'
    || c == '\U{3000}' || c == '\U{FEFF}'
  }

  function TrimStart(s: string): (r: string)
    ensures |r| <= |s| && r == s[|s| - |r|..]
    ensures r != [] ==> !IsJsSpace(r[0])
    ensures forall i :: 0 <= i < |s| - |r| ==> IsJsSpace(s[i])
    decreases |s|
  {
    if s != [] && IsJsSpace(s[0]) then TrimStart(s[1..]) else s
  }

  function TrimEnd(s: string): (r: string)
    ensures |r| <= |s| && r == s[..|r|]
    ensures r != [] ==> !IsJsSpace(r[|r| - 1])
    ensures forall i :: |r| <= i < |s| ==> IsJsSpace(s[i])
    decreases |s|
  {
    if s != [] && IsJsSpace(s[|s| - 1]) then TrimEnd(s[..|s| - 1]) else s
  }

  /** `s.trim()`: surrounding space removed, nothing else. */
  function Trim(s: string): (r: string)
    ensures r != [] ==> !IsJsSpace(r[0]) && !IsJsSpace(r[|r| - 1])
  {
    TrimEnd(TrimStart(s))
  }

  /** Text that neither starts nor ends with white space is left as it is. */
  lemma TrimKeeps(s: string)
    requires s != [] && !IsJsSpace(s[0]) && !IsJsSpace(s[|s| - 1])
    ensures Trim(s) == s
  {
  }

  /** Trimming twice is trimming once. */
  lemma TrimIdempotent(s: string)
    ensures Trim(Trim(s)) == Trim(s)
  {
    var r := Trim(s);
    if r != [] {
      assert TrimStart(r) == r;
      assert TrimEnd(r) == r;
    }
  }

  /** The raw values of the settings form's inputs. */
  datatype SettingsForm = SettingsForm(
    theme: string, ttsVoice: string, provider: string, proxyUrl: string,
    openrouterKey: string, openrouterModel: string,
    azureKey: string, azureRegion: string, speechaceKey: string)

  /** The model field of the save handler: the default model for an empty input, the trimmed input otherwise. */
  function FormModel(value: string): (m: string)
    ensures value == "" ==> m == DefaultModel
    ensures value != "" ==> m == Trim(value)
    ensures m == "" || (!IsJsSpace(m[0]) && !IsJsSpace(m[|m| - 1]))
  {
    if value == "" then DefaultModel else Trim(value)
  }

  /** `FormModel` is `(value || DEFAULTS.openrouterModel).trim()`: the default model is already trimmed. */
  lemma FormModelIsTrimmedOr(value: string)
    ensures FormModel(value) == Trim(if value == "" then DefaultModel else value)
  {
    if value == "" {
      var model := DefaultModel;
      assert model[0] == 'o' && model[|model| - 1] == 'i';
      TrimKeeps(model);
    }
  }

  /**
   * The save handler's change: each form field replaces the loaded one; the
   * text fields are trimmed and an empty model name falls back to the
   * default; stored fields the form does not know are kept.
   */
  function ApplyForm(s: Settings, f: SettingsForm): (r: Settings)
    ensures r.theme == f.theme && r.ttsVoice == f.ttsVoice && r.provider == f.provider
    ensures r.proxyUrl == Trim(f.proxyUrl) && r.openrouterKey == Trim(f.openrouterKey)
    ensures r.azureKey == Trim(f.azureKey) && r.azureRegion == Trim(f.azureRegion)
    ensures r.speechaceKey == Trim(f.speechaceKey)
    ensures r.openrouterModel == FormModel(f.openrouterModel)
    ensures r.extra == s.extra
  {
    Settings(f.theme, f.ttsVoice, f.provider, Trim(f.proxyUrl),
             Trim(f.openrouterKey), FormModel(f.openrouterModel),
             Trim(f.azureKey), Trim(f.azureRegion), Trim(f.speechaceKey), s.extra)
  }

  /** The settings item in storage, read and written whole. */
  class SettingsStore {
    var item: StoredItem

    constructor (item: StoredItem)
      ensures this.item == item
    {
      this.item := item;
    }

    /** `loadSettings()`: the store-side call of `LoadSettings` on the stored item. */
    method Load() returns (s: Settings)
      ensures s == LoadSettings(item)
    {
      s := LoadSettings(item);
    }

    /** `saveSettings(s)`: the record is written whole. */
    method Save(s: Settings)
      modifies this
      ensures item == Parsed(ToStored(s))
      ensures LoadSettings(item) == s
    {
      item := Parsed(ToStored(s));
    }

    /**
     * The header's theme button: the theme opposite to the one shown
     * (`currentTheme`, the document's `data-theme`) is stored and returned.
     */
    method ToggleTheme(currentTheme: string) returns (next: string)
      modifies this
      ensures next == if currentTheme == "light" then "dark" else "light"
      ensures LoadSettings(item) == LoadSettings(old(item)).(theme := next)
    {
      var s := Load();
      next := if currentTheme == "light" then "dark" else "light";
      s := s.(theme := next);
      Save(s);
    }

    /** The settings screen's save button. */
    method SaveForm(f: SettingsForm)
      modifies this
      ensures LoadSettings(item) == ApplyForm(LoadSettings(old(item)), f)
    {
      var next := Load();
      next := next.(theme := f.theme);
      next := next.(ttsVoice := f.ttsVoice);
      next := next.(provider := f.provider);
      next := next.(proxyUrl := Trim(f.proxyUrl));
      next := next.(openrouterKey := Trim(f.openrouterKey));
      next := next.(openrouterModel := FormModel(f.openrouterModel));
      next := next.(azureKey := Trim(f.azureKey));
      next := next.(azureRegion := Trim(f.azureRegion));
      next := next.(speechaceKey := Trim(f.speechaceKey));
      Save(next);
    }

    /**
     * The "clear keys" button: the four credentials are blanked and every
     * other loaded field is saved unchanged.
     */
    method ClearKeys()
      modifies this
      ensures LoadSettings(item) == ClearCredentials(LoadSettings(old(item)))
      ensures forall k: Key :: LoadSettings(item).Get(k) ==
                if IsCredential(k) then "" else LoadSettings(old(item)).Get(k)
    {
      var next := Load();
      next := next.(openrouterKey := "");
      next := next.(azureKey := "");
      next := next.(azureRegion := "");
      next := next.(speechaceKey := "");
      Save(next);
    }
  }
}
