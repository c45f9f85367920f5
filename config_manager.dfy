/** The `set` and `reset` commands of `cli/config_manager.py`: the coercion
    of a command-line value into a setting, and the dispatch onto the
    configuration store. */
module ConfigManager {
  import opened Py
  import opened Text
  import opened Configuration

  /** `value.lower() in ('true', 'false')`. */
  predicate IsBoolWord(raw: string) {
    AsciiLower(raw) == "true" || AsciiLower(raw) == "false"
  }

  /** The value the `set` command stores for the command-line text `raw`:
      `true` and `false` in any letter case become booleans; failing that, a
      non-empty string of digits becomes its integer; anything else stays
      the string it was. */
  function Coerce(raw: string): (v: Value)
    ensures v.Bool? || v.Int? || v.Str?
    ensures v.Bool? <==> IsBoolWord(raw)
    ensures v.Bool? ==> (v.b <==> AsciiLower(raw) == "true")
    ensures v.Int? <==> !IsBoolWord(raw) && IsDigitString(raw)
    ensures v.Int? ==> v.i >= 0 && v.i == DigitsValue(raw)
    ensures v.Str? ==> v.s == raw
  {
    if IsBoolWord(raw) then Bool(AsciiLower(raw) == "true")
    else if IsDigitString(raw) then Int(DigitsValue(raw))
    else Str(raw)
  }

  /** A digit string never spells a boolean word, so the two conversions
      never compete. */
  lemma DigitsAreNotBoolWords(raw: string)
    requires IsDigitString(raw)
    ensures !IsBoolWord(raw)
  {
    assert AsciiLower(raw)[0] == LowerChar(raw[0]);
    assert "true"[0] == 't' && "false"[0] == 'f';
  }

  /** `str(n)` read back by the `set` command is `n`. */
  lemma {:induction false} CoerceDecimal(n: nat)
    ensures Coerce(NatToDecimal(n)) == Int(n)
  {
    DigitsAreNotBoolWords(NatToDecimal(n));
  }

  /** Letter case does not matter for `true`. */
  lemma CoerceTrueWords()
    ensures Coerce("true") == Bool(true) && Coerce("TRUE") == Bool(true) && Coerce("True") == Bool(true)
  {
    assert AsciiLower("TRUE") == "true" && AsciiLower("True") == "true";
  }

  /** Letter case does not matter for `false`. */
  lemma CoerceFalseWords()
    ensures Coerce("false") == Bool(false) && Coerce("FALSE") == Bool(false)
  {
    assert AsciiLower("FALSE") == "false";
  }

  /** Text that is neither a boolean word nor a digit string is stored as it
      is: the empty string, a sign, a decimal point, or a word. */
  lemma CoerceKeepsText()
    ensures Coerce("") == Str("")
    ensures Coerce("-5") == Str("-5")
    ensures Coerce("1.5") == Str("1.5")
    ensures Coerce("yes") == Str("yes")
  {
    assert AsciiLower("-5")[0] == '-';
    assert AsciiLower("1.5")[0] == '1';
    assert AsciiLower("yes")[0] == 'y';
    assert !IsDigit("-5"[0]) && !IsDigit("1.5"[1]) && !IsDigit("yes"[0]);
  }

  /** `set KEY VALUE`: stores the coerced value and saves the file; an
      unknown key is reported and neither the settings nor the file change. */
  method SetCommand(config: Config, key: string, raw: string, io: IoResult) returns (r: Outcome<PyError>)
    requires config.Valid()
    modifies config
    ensures config.Valid()
    ensures key in Defaults ==>
      && r == Pass
      && config.settings == old(config.settings)[key := Coerce(raw)]
      && config.file == Saved(old(config.file), config.settings, io)
    ensures key !in Defaults ==>
      r == Fail(KeyError(key)) && config.settings == old(config.settings) && config.file == old(config.file)
  {
    var value := Coerce(raw);
    r := config.Set(key, value);
    if r.Pass? {
      config.Save(io);
    }
  }

  /** `reset [--key KEY]`: a non-empty key resets only that key and saves,
      or is reported without any change when unknown; no key (or an empty
      one) resets everything and saves, but only when the user confirms. */
  method ResetCommand(config: Config, key: Option<string>, confirmed: bool, io: IoResult) returns (r: Outcome<PyError>)
    requires config.Valid()
    modifies config
    ensures config.Valid()
    ensures key.Some? && key.value != "" && key.value in Defaults ==>
      && r == Pass
      && config.settings == old(config.settings)[key.value := Defaults[key.value]]
      && config.file == Saved(old(config.file), config.settings, io)
    ensures key.Some? && key.value != "" && key.value !in Defaults ==>
      r == Fail(KeyError(key.value)) && config.settings == old(config.settings) && config.file == old(config.file)
    ensures (key.None? || key.value == "") && confirmed ==>
      r == Pass && config.settings == Defaults && config.file == Saved(old(config.file), Defaults, io)
    ensures (key.None? || key.value == "") && !confirmed ==>
      r == Pass && config.settings == old(config.settings) && config.file == old(config.file)
  {
    if key.Some? && key.value != "" {
      r := config.Reset(key);
      if r.Pass? {
        config.Save(io);
      }
    } else {
      r := Pass;
      if confirmed {
        r := config.Reset(None);
        config.Save(io);
      }
    }
  }
}
