/**
 * The admin's system settings page: editing a setting's value in the page's list, saving the
 * list, the input shown for each setting, the three display groups, the label derived from a
 * setting key and the style of the status message.
 */
module SystemSettings {
  import opened Common
  import opened Lists
  import opened Text

  datatype Setting = Setting(
    id: int,
    key: string,
    value: string,
    description: string,
    dataType: string,
    isEditable: bool)

  /** `settings.map(s => s.id === id ? { ...s, setting_value: value } : s)`. */
  function WithValue(settings: seq<Setting>, id: int, value: string): (r: seq<Setting>)
    ensures |r| == |settings|
    ensures forall i :: 0 <= i < |settings| && settings[i].id == id ==> r[i] == settings[i].(value := value)
    ensures forall i :: 0 <= i < |settings| && settings[i].id != id ==> r[i] == settings[i]
  {
    seq(|settings|, i requires 0 <= i < |settings| =>
      if settings[i].id == id then settings[i].(value := value) else settings[i])
  }

  /** Editing the same setting twice keeps only the second value. */
  lemma LaterEditWins(settings: seq<Setting>, id: int, v1: string, v2: string)
    ensures WithValue(WithValue(settings, id, v1), id, v2) == WithValue(settings, id, v2)
  {
  }

  /** What `renderSettingInput` shows. */
  datatype SettingInput = ReadOnlyText | EnabledDisabledSelect | NumberInput | TextInput

  function InputFor(s: Setting): (k: SettingInput)
    ensures !s.isEditable <==> k == ReadOnlyText
    ensures k == EnabledDisabledSelect <==> s.isEditable && s.dataType == "boolean"
    ensures k == NumberInput <==> s.isEditable && s.dataType == "number"
    ensures k == TextInput <==> s.isEditable && s.dataType != "boolean" && s.dataType != "number"
  {
    if !s.isEditable then ReadOnlyText
    else if s.dataType == "boolean" then EnabledDisabledSelect
    else if s.dataType == "number" then NumberInput
    else TextInput
  }

  /** The keys each card lists: Company Information, Financial Settings, System Preferences. */
  function CompanyKeys(): seq<string> { ["company_name", "company_address", "currency"] }
  function FinancialKeys(): seq<string> { ["tax_rate"] }
  function PreferenceKeys(): seq<string> { ["low_stock_alert", "backup_frequency"] }

  /** The settings one card shows, in list order. */
  function Group(settings: seq<Setting>, keys: seq<string>): (r: seq<Setting>)
    ensures IsSubsequence(r, settings)
    ensures forall s :: s in r <==> s in settings && s.key in keys
  {
    Filter(settings, (s: Setting) => s.key in keys)
  }

  /** The three key lists share no key, so no setting is shown on two cards. */
  lemma GroupsAreDisjoint(key: string)
    ensures !(key in CompanyKeys() && key in FinancialKeys())
    ensures !(key in CompanyKeys() && key in PreferenceKeys())
    ensures !(key in FinancialKeys() && key in PreferenceKeys())
  {
  }

  /** A setting is displayed iff its key is one of the six listed keys. */
  predicate Displayed(settings: seq<Setting>, s: Setting) {
    s in Group(settings, CompanyKeys()) || s in Group(settings, FinancialKeys()) || s in Group(settings, PreferenceKeys())
  }

  lemma DisplayedIffListedKey(settings: seq<Setting>, s: Setting)
    requires s in settings
    ensures Displayed(settings, s) <==>
            s.key in ["company_name", "company_address", "currency", "tax_rate", "low_stock_alert", "backup_frequency"]
  {
  }

  /** `\w` of a JavaScript regular expression without the `u` flag. */
  predicate IsWordChar(c: char) {
    'a' <= c <= 'z' || 'A' <= c <= 'Z' || '0' <= c <= '9' || c == '_'
  }

  /** `key.replace(/_/g, ' ')`. */
  function Spaced(key: string): (r: string)
    ensures |r| == |key|
    ensures forall i :: 0 <= i < |key| ==> r[i] == if key[i] == '_' then ' ' else key[i]
  {
    seq(|key|, i requires 0 <= i < |key| => if key[i] == '_' then ' ' else key[i])
  }

  /** `s.replace(/\b\w/g, l => l.toUpperCase())`: a word character after a non-word character (or first) is upper-cased. */
  function CapitalizeWords(s: string): (r: string)
    ensures |r| == |s|
    ensures forall i :: 0 <= i < |s| ==>
              r[i] == if IsWordChar(s[i]) && (i == 0 || !IsWordChar(s[i - 1])) then UpperChar(s[i]) else s[i]
  {
    seq(|s|, i requires 0 <= i < |s| =>
      if IsWordChar(s[i]) && (i == 0 || !IsWordChar(s[i - 1])) then UpperChar(s[i]) else s[i])
  }

  /** The label of a setting key. */
  function Label(key: string): (l: string)
    ensures |l| == |key|
  {
    CapitalizeWords(Spaced(key))
  }

  /**
   * In a label every underscore has become a space, and the first letter of every word is
   * upper case; every other character is as in the key.
   */
  lemma LabelShape(key: string)
    ensures '_' !in Label(key)
    ensures forall i :: 0 <= i < |key| && key[i] == '_' ==> Label(key)[i] == ' '
    ensures forall i :: 0 <= i < |key| && 'a' <= key[i] <= 'z' && (i == 0 || key[i - 1] == '_') ==>
              'A' <= Label(key)[i] <= 'Z'
    ensures forall i :: 0 <= i < |key| && key[i] != '_' && i > 0 && key[i - 1] != '_' && IsWordChar(key[i - 1]) ==>
              Label(key)[i] == key[i]
  {
    var sp := Spaced(key);
    forall i | 0 <= i < |key|
      ensures Label(key)[i] != '_'
    {
      assert sp[i] != '_';
    }
  }

  lemma TaxRateLabel()
    ensures Label("tax_rate") == "Tax Rate"
  {
  }

  /** The message banner is error-styled iff its text contains `Error`. */
  predicate IsErrorStyled(message: string) {
    Contains(message, "Error")
  }

  const SavedMessage := "Settings saved successfully!"
  const SaveFailedMessage := "Error saving settings"

  lemma MessagesStyledAsMeant()
    ensures IsErrorStyled(SaveFailedMessage)
    ensures !IsErrorStyled(SavedMessage)
  {
    assert "Error" <= SaveFailedMessage[0..];
    forall i | 0 <= i <= |SavedMessage| - 5
      ensures !("Error" <= SavedMessage[i..])
    {
      assert SavedMessage[i] != 'E';
    }
  }

  /** The page's state that its handlers change. */
  class SystemSettingsPage {
    var settings: seq<Setting>
    var saving: bool
    var message: string

    constructor (settings: seq<Setting>)
      ensures this.settings == settings && !saving && message == ""
    {
      this.settings := settings;
      saving := false;
      message := "";
    }

    /** `updateSetting`: replace the value of the setting with that id. */
    method UpdateSetting(id: int, value: string)
      modifies this
      ensures settings == WithValue(old(settings), id, value)
      ensures saving == old(saving) && message == old(message)
    {
      settings := WithValue(settings, id, value);
    }

    /**
     * `saveSettings`: `outcome` is how the `PUT` ended; a non-OK response is thrown and caught
     * like a network failure. `saving` is back to false on every path.
     */
    method SaveSettings(outcome: FetchOutcome)
      modifies this
      ensures !saving && settings == old(settings)
      ensures outcome == ResponseOk ==> message == SavedMessage && !IsErrorStyled(message)
      ensures outcome != ResponseOk ==> message == SaveFailedMessage && IsErrorStyled(message)
    {
      saving := true;
      if outcome == ResponseOk {
        message := SavedMessage;
      } else {
        message := SaveFailedMessage;
      }
      saving := false;
      MessagesStyledAsMeant();
    }
  }
}
