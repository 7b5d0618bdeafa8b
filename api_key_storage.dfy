/** The user's Fireworks API key: its "fireworks_api_key" entry in the
    browser's storage and the checks a key must pass before it is kept. */
module ApiKeys {
  import opened Base
  import opened Text

  const KeyPrefix := "fw_"
  const MinKeyLength := 20
  const EmptyKey := "API key cannot be empty"
  const BadPrefix := "Fireworks API key must start with \"fw_\""
  const TooShort := "API key appears to be too short"

  /** `{ valid, error? }` */
  datatype Validation = Validation(valid: bool, error: Option<string>)

  /** `validate`: the checks in order, the first failing one giving its
      message. The prefix and the length are those of the key as typed, not
      trimmed. */
  function Validate(key: string): (v: Validation)
    ensures v.valid <==> v.error.None?
  {
    if key == "" || |Trim(key)| == 0 then Validation(false, Some(EmptyKey))
    else if !StartsWith(key, KeyPrefix) then Validation(false, Some(BadPrefix))
    else if |key| < MinKeyLength then Validation(false, Some(TooShort))
    else Validation(true, None)
  }

  /** A key is accepted exactly when it starts with "fw_" and has at least 20
      characters; a blank key is refused as empty, a key with another start
      for its prefix, and a short "fw_" key for its length. */
  lemma ValidateIff(key: string)
    ensures Validate(key).valid <==> StartsWith(key, KeyPrefix) && |key| >= MinKeyLength
    ensures AllWhitespace(key) ==> Validate(key).error == Some(EmptyKey)
    ensures !AllWhitespace(key) && !StartsWith(key, KeyPrefix) ==> Validate(key).error == Some(BadPrefix)
    ensures StartsWith(key, KeyPrefix) && |key| < MinKeyLength ==> Validate(key).error == Some(TooShort)
  {
    TrimEmptyIff(key);
    if StartsWith(key, KeyPrefix) {
      assert key[0] == 'f' && !IsJsWhitespace(key[0]);
    }
  }

  /** The "fireworks_api_key" entry. */
  class KeyStore {
    var stored: Option<string>

    constructor ()
      ensures stored == None
    {
      stored := None;
    }

    /** `save`: the key is stored as given. */
    method Save(key: string)
      modifies this
      ensures stored == Some(key)
    {
      stored := Some(key);
    }

    /** `get`: the stored key, or None. */
    function Get(): (k: Option<string>)
      reads this
      ensures k == stored
    {
      stored
    }

    /** `remove`: the entry is gone. */
    method Remove()
      modifies this
      ensures stored == None
    {
      stored := None;
    }
  }

  /** Saving a key and reading it back gives the key; removing it makes the
      read give nothing. */
  method SaveGetRemove(store: KeyStore, key: string) returns (afterSave: Option<string>, afterRemove: Option<string>)
    modifies store
    ensures afterSave == Some(key) && afterRemove == None
  {
    store.Save(key);
    afterSave := store.Get();
    store.Remove();
    afterRemove := store.Get();
  }
}
