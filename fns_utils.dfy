/**
 * INN (taxpayer number) validation, the FNS_MODE switch and the allow-list
 * that restricts which tools may run with a "free" API key.
 */
module FnsUtils {
  import opened Strings
  import opened Common

  /** What `validate_inn` checks: the input stripped at both ends, with every space removed. */
  function CleanInn(inn: string): string {
    RemoveSpaces(Strip(inn))
  }

  /** `validate_inn(inn)`: after cleaning, 10 or 12 digits. */
  predicate ValidateInn(inn: string) {
    inn != "" && IsDigits(CleanInn(inn)) && (|CleanInn(inn)| == 10 || |CleanInn(inn)| == 12)
  }

  /** The empty string is rejected. */
  lemma EmptyInnRejected()
    ensures !ValidateInn("")
  {
  }

  /** Cleaning is the same as removing the spaces first and stripping afterwards. */
  lemma CleanInnSwap(inn: string)
    ensures CleanInn(inn) == Strip(RemoveSpaces(inn))
  {
    RemoveSpacesStrip(inn);
  }

  /** Deleting one space from the input leaves its cleaned form unchanged. */
  lemma {:induction false} CleanIgnoresSpace(a: string, b: string)
    ensures CleanInn(a + " " + b) == CleanInn(a + b)
  {
    var spaced, joined := a + " " + b, a + b;
    RemoveOneSpace(a, b);
    CleanInnSwap(spaced);
    CleanInnSwap(joined);
  }

  lemma RemoveOneSpace(a: string, b: string)
    ensures RemoveSpaces(a + " " + b) == RemoveSpaces(a + b)
  {
    RemoveSpacesConcat(a + " ", b);
    RemoveSpacesConcat(a, " ");
    RemoveSpacesConcat(a, b);
    assert RemoveSpaces(" ") == "";
  }

  /** A space anywhere never changes the verdict: `"7707 083893"` is judged as `"7707083893"`. */
  lemma {:induction false} SpaceNeverMatters(a: string, b: string)
    ensures ValidateInn(a + " " + b) == ValidateInn(a + b)
  {
    CleanIgnoresSpace(a, b);
    if a + b == "" {
      assert CleanInn(a + " " + b) == CleanInn("") == "";
    }
  }

  /** The documented example: `"7707 083893"` is accepted, as `"7707083893"` is. */
  lemma {:induction false} SpacedExample(spaced: string, joined: string)
    requires spaced == "7707 083893" && joined == "7707083893"
    ensures ValidateInn(spaced) && ValidateInn(joined)
  {
    var a, b := "7707", "083893";
    assert spaced == a + " " + b;
    assert joined == a + b;
    SpaceNeverMatters(a, b);
    TenDigitExample(joined);
  }

  lemma TenDigitExample(d: string)
    requires d == "7707083893"
    ensures ValidateInn(d)
  {
    assert IsDigits(d);
    AcceptsDigits(d);
  }

  /** A character that is neither whitespace nor a digit makes any input invalid. */
  lemma RejectsForeignCharacter(inn: string, i: nat)
    requires i < |inn| && !IsPySpace(inn[i]) && !IsDigit(inn[i])
    ensures !ValidateInn(inn)
  {
    StripKeeps(inn, i);
    var s := Strip(inn);
    var j :| 0 <= j < |s| && s[j] == inn[i];
    RemoveSpacesKeeps(s, j);
  }

  /** Exactly 10 or 12 ASCII digits, with nothing around them, is a valid INN. */
  lemma AcceptsDigits(d: string)
    requires IsDigits(d) && (|d| == 10 || |d| == 12)
    ensures ValidateInn(d)
  {
    DigitsFixed(d);
    assert CleanInn(d) == d;
  }

  /** A digit string of any other length is rejected. */
  lemma RejectsOtherLengths(d: string)
    requires IsDigits(d) && |d| != 10 && |d| != 12
    ensures !ValidateInn(d)
  {
    DigitsFixed(d);
    assert CleanInn(d) == d;
  }

  /**
   * `str.strip()` removes U+001C (an information separator counts as
   * whitespace), so a valid INN behind one still passes.
   */
  lemma SeparatorPrefixAccepted(d: string)
    requires IsDigits(d) && (|d| == 10 || |d| == 12)
    ensures ValidateInn("\U{1C}" + d)
  {
    var inn := "\U{1C}" + d;
    StripLeftSpace('\U{1C}', d);
    assert IsDigit(d[0]);
    StripLeftNoSpace(d);
    DigitsFixed(d);
    assert Strip(inn) == d;
    CleanAccepted(inn, d);
  }

  /** An input whose cleaned form is 10 or 12 digits is valid. */
  lemma CleanAccepted(inn: string, d: string)
    requires CleanInn(inn) == d && IsDigits(d) && (|d| == 10 || |d| == 12)
    ensures ValidateInn(inn)
  {
    assert |CleanInn(inn)| <= |inn|;
    assert CleanInn(inn) == d;
  }

  /** The error every declaration tool raises, before generating anything, for an INN `validate_inn` rejects. */
  function InvalidInn(): Error {
    McpError(InvalidParams, "ИНН должен содержать 10 или 12 цифр")
  }

  /** The prefixes of the internal error a declaration tool raises when generation fails. */
  const DeclarationFailed: string := "Не удалось сгенерировать декларацию: "
  const FormFailed: string := "Не удалось сгенерировать форму: "

  /** The tools a free API key may call. */
  const FreeAllowedTools: set<string> := {
    "search_companies", "autocomplete", "get_company_data", "multinfo_companies",
    "multcheck_companies", "check_counterparty", "track_changes", "monitor_companies",
    "get_extract", "get_accounting_report", "get_accounting_report_file",
    "get_inn_by_passport", "check_passport", "check_passport_info", "check_person_status",
    "get_fsrar_licenses", "get_api_statistics",
    "generate_usn_declaration", "generate_osno_declaration", "generate_nds_declaration",
    "generate_6ndfl_declaration"
  }

  lemma AllowListContents()
    ensures "generate_usn_declaration" in FreeAllowedTools && "generate_osno_declaration" in FreeAllowedTools
    ensures "generate_nds_declaration" in FreeAllowedTools && "generate_6ndfl_declaration" in FreeAllowedTools
    ensures "check_account_blocks" !in FreeAllowedTools && "check_account_blocks_file" !in FreeAllowedTools
    ensures "get_msp_extract" !in FreeAllowedTools
  {
  }

  /** `get_fns_mode()`: FNS_MODE lower-cased, "test" when unset. */
  function FnsMode(env: Env): (mode: string)
    ensures "FNS_MODE" !in env ==> mode == "test"
    ensures forall i :: 0 <= i < |mode| ==> !('A' <= mode[i] <= 'Z')
    ensures "FNS_MODE" in env ==> |mode| == |env["FNS_MODE"]|
    ensures "FNS_MODE" in env ==> forall i :: 0 <= i < |mode| ==> mode[i] == LowerChar(env["FNS_MODE"][i])
  {
    var m := Lower(GetEnv(env, "FNS_MODE", "test"));
    assert "FNS_MODE" !in env ==> m == "test";
    m
  }

  /** A value without capital letters is the mode as it stands. */
  lemma {:induction false} LowerCaseModeKept(env: Env)
    requires "FNS_MODE" in env && forall i :: 0 <= i < |env["FNS_MODE"]| ==> !('A' <= env["FNS_MODE"][i] <= 'Z')
    ensures FnsMode(env) == env["FNS_MODE"]
  {
    var v, m := env["FNS_MODE"], FnsMode(env);
    assert forall i :: 0 <= i < |m| ==> m[i] == v[i];
  }

  /** The character `Lower` maps to a lower-case letter `c` is `c` itself or its capital. */
  lemma LowerCharIs(x: char, c: char)
    requires 'a' <= c <= 'z'
    ensures LowerChar(x) == c <==> x == c || x == UpperChar(c)
  {
  }

  /** The mode is `word` exactly when FNS_MODE spells `word` in any mix of cases. */
  lemma {:induction false} ModeSpelled(env: Env, word: string)
    requires "FNS_MODE" in env && forall i :: 0 <= i < |word| ==> 'a' <= word[i] <= 'z'
    ensures FnsMode(env) == word <==>
      |env["FNS_MODE"]| == |word| && forall i :: 0 <= i < |word| ==> env["FNS_MODE"][i] == word[i] || env["FNS_MODE"][i] == UpperChar(word[i])
  {
    var v, m := env["FNS_MODE"], FnsMode(env);
    if |v| == |word| {
      forall i | 0 <= i < |word|
        ensures m[i] == word[i] <==> v[i] == word[i] || v[i] == UpperChar(word[i])
      {
        LowerCharIs(v[i], word[i]);
      }
      if forall i :: 0 <= i < |word| ==> m[i] == word[i] {
        assert m == word;
      }
    }
  }

  /** Free mode is FNS_MODE = "free" in any case; unset or any other value is not free. */
  lemma FreeMode(env: Env)
    ensures FnsMode(env) == "free" <==>
      "FNS_MODE" in env && |env["FNS_MODE"]| == 4 && forall i :: 0 <= i < 4 ==> env["FNS_MODE"][i] == "free"[i] || env["FNS_MODE"][i] == UpperChar("free"[i])
  {
    if "FNS_MODE" in env {
      ModeSpelled(env, "free");
    }
  }

  /** Test mode is FNS_MODE unset or "test" in any case. */
  lemma TestMode(env: Env)
    ensures FnsMode(env) == "test" <==>
      "FNS_MODE" !in env || (|env["FNS_MODE"]| == 4 && forall i :: 0 <= i < 4 ==> env["FNS_MODE"][i] == "test"[i] || env["FNS_MODE"][i] == UpperChar("test"[i]))
  {
    if "FNS_MODE" in env {
      ModeSpelled(env, "test");
    }
  }

  function FreeModeDenied(toolName: string): Error {
    McpError(InternalError, "Метод " + toolName + " недоступен в free режиме FNS ключа")
  }

  /** `ensure_allowed_in_free(tool_name)`: fails only in free mode and only for a name off the allow-list. */
  function EnsureAllowedInFree(env: Env, toolName: string): (r: Result<()>)
    ensures FnsMode(env) != "free" ==> r.Ok?
    ensures FnsMode(env) == "free" ==> (r.Ok? <==> toolName in FreeAllowedTools)
    ensures r.Err? ==> r.error.McpError? && r.error.code == InternalError && IsSubstring(toolName, r.error.message)
  {
    if FnsMode(env) != "free" then Ok(())
    else if toolName in FreeAllowedTools then Ok(())
    else
      SubstringOfConcat("Метод ", toolName, " недоступен в free режиме FNS ключа");
      Err(FreeModeDenied(toolName))
  }
}
