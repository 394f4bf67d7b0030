/** Request validation: the custom `country` rule, the JSON field names the
    validator reports, the message for each failed rule, and the per-field
    error map a failed validation returns. The validation engine is left out;
    its answer is the list of field errors it reports. */
module Validator {
  import opened Wrappers
  import AppErrors
  import Strs

  /** One failed rule: the JSON name of the field, the rule's tag and its parameter. */
  datatype FieldError = FieldError(field: string, tag: string, param: string)

  const MinCountryBytes: nat := 2
  const MaxCountryBytes: nat := 56
  const ValidationFailed: string := "Validation failed"
  const InvalidValue: string := "Invalid value"

  /** The number of bytes `ch` takes in UTF-8. */
  function Utf8Width(ch: char): (n: nat)
    ensures 1 <= n <= 4
    ensures n == 1 <==> ch as int < 0x80
  {
    if ch as int < 0x80 then 1
    else if ch as int < 0x800 then 2
    else if ch as int < 0x10000 then 3
    else 4
  }

  /** Go's `len` of a string: its length in UTF-8 bytes. */
  function Utf8Length(s: string): (n: nat)
    ensures |s| <= n <= 4 * |s|
  {
    if s == [] then 0 else Utf8Width(s[0]) + Utf8Length(s[1..])
  }

  /** ASCII text takes one byte per character. */
  lemma {:induction false} AsciiLength(s: string)
    requires forall i :: 0 <= i < |s| ==> s[i] as int < 0x80
    ensures Utf8Length(s) == |s|
  {
    if s != [] {
      assert forall i :: 0 <= i < |s[1..]| ==> s[1..][i] as int < 0x80 by {
        forall i | 0 <= i < |s[1..]| ensures s[1..][i] as int < 0x80 {
          assert s[1..][i] == s[i + 1];
        }
      }
      AsciiLength(s[1..]);
    }
  }

  /** The `country` rule: between 2 and 56 bytes, whatever the characters. */
  predicate ValidateCountry(country: string)
  {
    MinCountryBytes <= Utf8Length(country) <= MaxCountryBytes
  }

  /** For ASCII input the rule is a character count: a two-letter code passes,
      one letter does not, and 56 characters is the limit. */
  lemma AsciiCountry(country: string)
    requires forall i :: 0 <= i < |country| ==> country[i] as int < 0x80
    ensures ValidateCountry(country) <==> 2 <= |country| <= 56
  {
    AsciiLength(country);
  }

  /** Because bytes are counted, a single two-byte character passes and 19
      three-byte characters (57 bytes) do not. */
  lemma BytesNotCharacters(ch: char, s: string)
    requires 0x80 <= ch as int < 0x800
    requires |s| == 19 && forall i :: 0 <= i < |s| ==> 0x800 <= s[i] as int < 0x10000
    ensures ValidateCountry([ch])
    ensures !ValidateCountry(s)
  {
    ThreeByteLength(s);
  }

  /** Characters from U+0800 to U+FFFF take three bytes each. */
  lemma {:induction false} ThreeByteLength(s: string)
    requires forall i :: 0 <= i < |s| ==> 0x800 <= s[i] as int < 0x10000
    ensures Utf8Length(s) == 3 * |s|
  {
    if s != [] {
      assert forall i :: 0 <= i < |s[1..]| ==> 0x800 <= s[1..][i] as int < 0x10000 by {
        forall i | 0 <= i < |s[1..]| ensures 0x800 <= s[1..][i] as int < 0x10000 {
          assert s[1..][i] == s[i + 1];
        }
      }
      ThreeByteLength(s[1..]);
    }
  }

  /** The name the validator reports for a field: its JSON tag up to the first
      comma, and "" for a field tagged "-". */
  function TagName(jsonTag: string): (name: string)
    ensures ',' !in name
    ensures name == "" || name <= jsonTag
    ensures ',' !in jsonTag && jsonTag != "-" ==> name == jsonTag
  {
    var first := Strs.SplitFirst(jsonTag, ',')[0];
    if first == "-" then "" else first
  }

  /** The tag options after the comma do not change the name. */
  lemma {:induction false} TagNameIgnoresOptions(name: string, options: string)
    requires ',' !in name && name != "-"
    ensures TagName(name + "," + options) == name
  {
    var tag := name + "," + options;
    assert tag == name + [','] + options && tag[|name|] == ',' && tag[..|name|] == name;
    Strs.IndexOfIs(tag, ',', |name|);
  }

  /** The message shown for a failed rule. */
  function ValidationErrorMessage(tag: string, param: string): string
  {
    match tag
    case "required" => "This field is required"
    case "min" => "Value must be greater than or equal to " + param
    case "max" => "Value must be less than or equal to " + param
    case "country" => "Invalid country name or code"
    case "oneof" => "Value must be one of: " + param
    case "gt" => "Value must be greater than " + param
    case "gte" => "Value must be greater than or equal to " + param
    case "lt" => "Value must be less than " + param
    case "lte" => "Value must be less than or equal to " + param
    case _ => InvalidValue
  }

  /** The rules with a message of their own. */
  const KnownTags: set<string> := {"required", "min", "max", "country", "oneof", "gt", "gte", "lt", "lte"}

  /** "min" reads like "gte" and "max" like "lte"; every rule without a message
      of its own reads "Invalid value", and every known rule reads otherwise. */
  lemma MessageAliases(param: string, tag: string)
    ensures ValidationErrorMessage("min", param) == ValidationErrorMessage("gte", param)
    ensures ValidationErrorMessage("max", param) == ValidationErrorMessage("lte", param)
    ensures ValidationErrorMessage(tag, param) == InvalidValue <==> tag !in KnownTags
  {
  }

  /** The comparison rules end their message with the rule's parameter. */
  lemma ComparisonMessagesEndWithParam(tag: string, param: string)
    requires tag in {"min", "max", "oneof", "gt", "gte", "lt", "lte"}
    ensures var m := ValidationErrorMessage(tag, param);
      |m| > |param| && m[|m| - |param|..] == param
  {
  }

  /** The field map of a list of errors: each field gets the message of its
      last error. */
  function ErrorsMap(errs: seq<FieldError>): map<string, string>
  {
    if errs == [] then map[]
    else
      var last := errs[|errs| - 1];
      ErrorsMap(errs[..|errs| - 1])[last.field := ValidationErrorMessage(last.tag, last.param)]
  }

  /** The map has exactly the reported fields as keys. */
  lemma {:induction false} ErrorsMapKeys(errs: seq<FieldError>)
    ensures ErrorsMap(errs).Keys == set i | 0 <= i < |errs| :: errs[i].field
  {
    if errs != [] {
      var init := errs[..|errs| - 1];
      ErrorsMapKeys(init);
      assert forall i :: 0 <= i < |init| ==> init[i] == errs[i];
    }
  }

  /** A field's message comes from its last error: an earlier error on the
      same field is overridden. */
  lemma {:induction false} ErrorsMapLastWins(errs: seq<FieldError>, i: nat)
    requires i < |errs|
    requires forall j :: i < j < |errs| ==> errs[j].field != errs[i].field
    ensures errs[i].field in ErrorsMap(errs)
    ensures ErrorsMap(errs)[errs[i].field] == ValidationErrorMessage(errs[i].tag, errs[i].param)
  {
    if i < |errs| - 1 {
      var init := errs[..|errs| - 1];
      assert init[i] == errs[i];
      ErrorsMapLastWins(init, i);
    }
  }

  /** `ValidateRequest`: with no validation engine, or no failed rule, nothing
      comes back; otherwise the field map and a validation error carrying it. */
  method ValidateRequest(engine: bool, errs: seq<FieldError>) returns (details: Option<map<string, string>>, err: Option<AppErrors.AppError>)
    ensures !engine || errs == [] ==> details == None && err == None
    ensures engine && errs != [] ==>
      && details == Some(ErrorsMap(errs))
      && err == Some(AppErrors.ValidationError(ValidationFailed, ErrorsMap(errs)))
  {
    if engine && errs != [] {
      var validationErrors: map<string, string> := map[];
      for i := 0 to |errs|
        invariant validationErrors == ErrorsMap(errs[..i])
      {
        assert errs[..i + 1][..i] == errs[..i];
        validationErrors := validationErrors[errs[i].field := ValidationErrorMessage(errs[i].tag, errs[i].param)];
      }
      assert errs[..|errs|] == errs;
      return Some(validationErrors), Some(AppErrors.ValidationError(ValidationFailed, validationErrors));
    }
    return None, None;
  }
}
