/**
 * The text lookup of `i18n_service.rs`: two fixed translation tables, a
 * current locale with a fallback to English, sequential `{}` placeholder
 * substitution, and the menu and tooltip strings built from them.
 */
module I18n {
  import opened Types

  // ---------------------------------------------------------------------
  // Locales
  // ---------------------------------------------------------------------

  /** `get_supported_locales`. */
  const SupportedLocales: seq<string> := ["en", "zh"]

  /** `is_locale_supported`. */
  predicate IsLocaleSupported(locale: string) {
    locale in SupportedLocales
  }

  /**
   * `detect_system_locale`, with the environment as parameters: `LANG`,
   * then `LC_ALL`, then the platform's own setting; the first that starts
   * with "zh" selects Chinese, and English is the default.
   */
  function DetectSystemLocale(lang: Option<string>, lcAll: Option<string>, platform: Option<string>): (r: string)
    ensures IsLocaleSupported(r)
    ensures r == "zh" <==> ((lang.Some? && StartsWith(lang.value, "zh"))
                           || (lcAll.Some? && StartsWith(lcAll.value, "zh"))
                           || (platform.Some? && StartsWith(platform.value, "zh")))
  {
    if lang.Some? && StartsWith(lang.value, "zh") then "zh"
    else if lcAll.Some? && StartsWith(lcAll.value, "zh") then "zh"
    else if platform.Some? && StartsWith(platform.value, "zh") then "zh"
    else "en"
  }

  // ---------------------------------------------------------------------
  // Translation tables
  // ---------------------------------------------------------------------

  type Table = map<string, string>

  function EnglishTexts(): Table {
    map[
      "app_name" := "CCCS",
      "app_description" := "Claude Code Configuration Switcher",
      "settings" := "Settings",
      "exit" := "Exit",
      "profile" := "Profile",
      "active" := "Active",
      "inactive" := "Inactive",
      "switch_profile" := "Switch to profile: {}",
      "switching_profile" := "Switching profile...",
      "profile_switched" := "Profile switched successfully",
      "switch_failed" := "Failed to switch profile",
      "claude_not_found" := "Claude Code installation not found",
      "settings_not_found" := "settings.json not found. Please run Claude Code at least once.",
      "monitor_interval" := "Monitor interval: {} minutes",
      "monitoring_started" := "File monitoring started",
      "monitoring_stopped" := "File monitoring stopped",
      "config_changed" := "Configuration file changed",
      "error" := "Error",
      "warning" := "Warning",
      "info" := "Information",
      "ok" := "OK",
      "cancel" := "Cancel",
      "close" := "Close",
      "save" := "Save",
      "loading" := "Loading...",
      "saving" := "Saving..."]
  }

  function ChineseTexts(): Table {
    map[
      "app_name" := "CCCS",
      "app_description" := "Claude Code 配置切换器",
      "settings" := "设置",
      "exit" := "退出",
      "profile" := "配置",
      "active" := "激活",
      "inactive" := "未激活",
      "switch_profile" := "切换到配置: {}",
      "switching_profile" := "正在切换配置...",
      "profile_switched" := "配置切换成功",
      "switch_failed" := "配置切换失败",
      "claude_not_found" := "未找到 Claude Code 安装",
      "settings_not_found" := "未找到 settings.json 文件。请至少运行一次 Claude Code。",
      "monitor_interval" := "监控间隔: {} 分钟",
      "monitoring_started" := "文件监控已启动",
      "monitoring_stopped" := "文件监控已停止",
      "config_changed" := "配置文件已更改",
      "error" := "错误",
      "warning" := "警告",
      "info" := "信息",
      "ok" := "确定",
      "cancel" := "取消",
      "close" := "关闭",
      "save" := "保存",
      "loading" := "加载中...",
      "saving" := "保存中..."]
  }

  /** What `load_text_resources` installs: one table per supported locale. */
  function LoadedResources(): map<string, Table> {
    map["en" := EnglishTexts(), "zh" := ChineseTexts()]
  }

  /** Every supported locale has a table, and both tables translate the same keys. */
  lemma TablesCoverTheSameKeys()
    ensures forall l :: IsLocaleSupported(l) ==> l in LoadedResources()
    ensures EnglishTexts().Keys == ChineseTexts().Keys
  {
  }

  /**
   * The table `get_text_with_args` uses: the current locale's, or the
   * English one when the locale has none; None where the source panics.
   */
  function ActiveTable(resources: map<string, Table>, locale: string): (r: Option<Table>)
    ensures locale in resources ==> r == Some(resources[locale])
    ensures locale !in resources && "en" in resources ==> r == Some(resources["en"])
    ensures r.None? <==> locale !in resources && "en" !in resources
  {
    if locale in resources then Some(resources[locale])
    else if "en" in resources then Some(resources["en"])
    else None
  }

  // ---------------------------------------------------------------------
  // Placeholder substitution
  // ---------------------------------------------------------------------

  /** A `{}` placeholder starts at position `k` of `s`. */
  predicate HoleAt(s: string, k: int) {
    0 <= k && k + 1 < |s| && s[k] == '{' && s[k + 1] == '}'
  }

  /** The first placeholder of `s` at or after position `i`. */
  function FindPlaceholderFrom(s: string, i: nat): (r: Option<nat>)
    requires i <= |s|
    ensures r.Some? ==> i <= r.value && HoleAt(s, r.value) && forall k :: i <= k < r.value ==> !HoleAt(s, k)
    ensures r.None? ==> forall k :: i <= k ==> !HoleAt(s, k)
    decreases |s| - i
  {
    if i + 1 >= |s| then None
    else if s[i] == '{' && s[i + 1] == '}' then Some(i)
    else FindPlaceholderFrom(s, i + 1)
  }

  /** `str::find("{}")`: the first placeholder of `s`. */
  function FindPlaceholder(s: string): (r: Option<nat>)
    ensures r.Some? ==> HoleAt(s, r.value) && forall k :: 0 <= k < r.value ==> !HoleAt(s, k)
    ensures r.None? ==> forall k :: !HoleAt(s, k)
  {
    FindPlaceholderFrom(s, 0)
  }

  /** The template after replacing its first placeholder by `arg`. */
  function FillFirst(s: string, pos: nat, arg: string): string
    requires HoleAt(s, pos)
  {
    s[..pos] + arg + s[pos + 2..]
  }

  /**
   * The result of the substitution loop: each argument in turn replaces the
   * first placeholder of the text produced so far; the loop stops when
   * no placeholder is left, so remaining arguments are ignored.
   */
  function Format(template: string, args: seq<string>): string
    decreases |args|
  {
    if args == [] then template
    else
      match FindPlaceholder(template)
      case None => template
      case Some(p) => Format(FillFirst(template, p, args[0]), args[1..])
  }

  /** Text with no braces at all. */
  predicate BraceFree(s: string) {
    '{' !in s && '}' !in s
  }

  /** The template `pieces[0]{}pieces[1]{}...`. */
  function Holes(pieces: seq<string>): string
    requires |pieces| >= 1
    decreases |pieces|
  {
    if |pieces| == 1 then pieces[0] else pieces[0] + "{}" + Holes(pieces[1..])
  }

  /**
   * The intended reading of positional substitution: the i-th argument
   * fills the i-th hole; holes without an argument stay as written and
   * arguments without a hole are dropped.
   */
  function Fill(pieces: seq<string>, args: seq<string>): string
    requires |pieces| >= 1
    decreases |pieces|
  {
    if |pieces| == 1 then pieces[0]
    else if args == [] then Holes(pieces)
    else pieces[0] + args[0] + Fill(pieces[1..], args[1..])
  }

  /** A brace-free text followed by a placeholder: that placeholder is the first. */
  lemma FirstHoleAfterBraceFree(u: string, rest: string)
    requires BraceFree(u)
    ensures FindPlaceholder(u + "{}" + rest) == Some(|u|)
  {
    var s := u + "{}" + rest;
    assert HoleAt(s, |u|);
    forall k | 0 <= k < |u| ensures !HoleAt(s, k) {
      assert s[k] == u[k];
    }
  }

  /** A brace-free text has no placeholder. */
  lemma NoHoleInBraceFree(u: string)
    requires BraceFree(u)
    ensures FindPlaceholder(u) == None
  {
    forall k ensures !HoleAt(u, k) {
    }
  }

  /** One round of the loop on a brace-free text followed by a placeholder. */
  lemma FormatStep(u: string, rest: string, args: seq<string>)
    requires BraceFree(u) && args != []
    ensures Format(u + "{}" + rest, args) == Format(u + args[0] + rest, args[1..])
  {
    FirstHoleAfterBraceFree(u, rest);
    var s := u + "{}" + rest;
    assert s[..|u|] == u;
    assert s[|u| + 2..] == rest;
    assert FillFirst(s, |u|, args[0]) == u + args[0] + rest;
  }

  /** Filling the first hole of `prefix + Holes(pieces)` when everything before it is brace-free. */
  lemma FillFirstHole(prefix: string, pieces: seq<string>, args: seq<string>)
    requires |pieces| >= 2 && args != [] && BraceFree(prefix) && BraceFree(pieces[0])
    ensures Format(prefix + Holes(pieces), args) == Format((prefix + pieces[0] + args[0]) + Holes(pieces[1..]), args[1..])
  {
    var u := prefix + pieces[0];
    var rest := Holes(pieces[1..]);
    assert prefix + Holes(pieces) == u + "{}" + rest;
    FormatStep(u, rest, args);
    assert u + args[0] + rest == (prefix + pieces[0] + args[0]) + rest;
  }

  /**
   * When neither the template's literal pieces nor the arguments contain
   * braces, the substitution loop fills the holes positionally.
   */
  lemma {:induction false} FormatFillsHolesInOrder(prefix: string, pieces: seq<string>, args: seq<string>)
    requires |pieces| >= 1 && BraceFree(prefix)
    requires forall i :: 0 <= i < |pieces| ==> BraceFree(pieces[i])
    requires forall i :: 0 <= i < |args| ==> BraceFree(args[i])
    ensures Format(prefix + Holes(pieces), args) == prefix + Fill(pieces, args)
    decreases |pieces|
  {
    if args == [] {
    } else if |pieces| == 1 {
      NoHoleInBraceFree(prefix + pieces[0]);
    } else {
      FillFirstHole(prefix, pieces, args);
      var next := prefix + pieces[0] + args[0];
      assert forall i :: 0 <= i < |pieces[1..]| ==> BraceFree(pieces[1..][i]) by {
        forall i | 0 <= i < |pieces[1..]| ensures BraceFree(pieces[1..][i]) { assert pieces[1..][i] == pieces[i + 1]; }
      }
      assert forall i :: 0 <= i < |args[1..]| ==> BraceFree(args[1..][i]) by {
        forall i | 0 <= i < |args[1..]| ensures BraceFree(args[1..][i]) { assert args[1..][i] == args[i + 1]; }
      }
      FormatFillsHolesInOrder(next, pieces[1..], args[1..]);
      assert next + Fill(pieces[1..], args[1..]) == prefix + (pieces[0] + args[0] + Fill(pieces[1..], args[1..]));
    }
  }

  /** Arguments beyond the last placeholder are ignored, and no arguments leave the template as it is. */
  lemma FormatWithoutHoles(template: string, args: seq<string>)
    requires FindPlaceholder(template).None? || args == []
    ensures Format(template, args) == template
  {
  }

  /**
   * An argument that itself contains `{}` is filled by the next argument,
   * because the search restarts at the start of the partly filled text.
   */
  lemma ArgumentsAreSearchedAgain()
    ensures Format("{}", ["{}", "x"]) == "x"
  {
    assert FindPlaceholder("{}") == Some(0);
    assert FillFirst("{}", 0, "{}") == "{}";
    assert FillFirst("{}", 0, "x") == "x";
  }

  // ---------------------------------------------------------------------
  // Lookup
  // ---------------------------------------------------------------------

  /** `get_text_with_args`: the formatted translation, or the key itself when it has none. */
  function Text(resources: map<string, Table>, locale: string, key: string, args: seq<string>): string
    requires ActiveTable(resources, locale).Some?
  {
    var table := ActiveTable(resources, locale).value;
    if key in table then Format(table[key], args) else key
  }

  /** A key with no translation is shown as itself, whatever the arguments. */
  lemma MissingKeyIsShownAsIs(resources: map<string, Table>, locale: string, key: string, args: seq<string>)
    requires ActiveTable(resources, locale).Some?
    requires key !in ActiveTable(resources, locale).value
    ensures Text(resources, locale, key, args) == key
  {
  }

  /** A locale without a table reads the English table. */
  lemma UnknownLocaleFallsBackToEnglish(resources: map<string, Table>, locale: string, key: string, args: seq<string>)
    requires locale !in resources && "en" in resources
    ensures Text(resources, locale, key, args) == Text(resources, "en", key, args)
  {
  }

  /** The lookups pinned by the unit tests. */
  lemma LookupExamples()
    ensures Text(LoadedResources(), "en", "app_name", []) == "CCCS"
    ensures Text(LoadedResources(), "en", "non_existent_key", []) == "non_existent_key"
    ensures Text(LoadedResources(), "en", "settings", []) == "Settings"
    ensures Text(LoadedResources(), "zh", "settings", []) == "设置"
  {
  }

  /** The profile-switch message fills its placeholder with the profile name. */
  lemma SwitchMessageExample()
    ensures Text(LoadedResources(), "en", "switch_profile", ["test"]) == "Switch to profile: test"
  {
    var template := "Switch to profile: {}";
    assert EnglishTexts()["switch_profile"] == template;
    assert HoleAt(template, 19);
    forall k | 0 <= k < 19 ensures !HoleAt(template, k) { }
    assert FindPlaceholder(template) == Some(19);
    assert FillFirst(template, 19, "test") == "Switch to profile: test";
  }

  // ---------------------------------------------------------------------
  // Menu and tooltip strings
  // ---------------------------------------------------------------------

  const ActiveMark := " ✅"

  /** `get_profile_menu_text`: the name, marked when the profile is active. */
  function ProfileMenuText(name: string, isActive: bool): (r: string)
    ensures StartsWith(r, name)
    ensures isActive ==> EndsWith(r, ActiveMark) && |r| == |name| + |ActiveMark|
    ensures !isActive ==> r == name
  {
    if isActive then name + ActiveMark else name
  }

  /** The menu entry identifies the profile: different names give different entries. */
  lemma MenuTextIsInjective(a: string, b: string, isActive: bool)
    requires ProfileMenuText(a, isActive) == ProfileMenuText(b, isActive)
    ensures a == b
  {
    if isActive {
      assert a == ProfileMenuText(a, isActive)[..|a|];
      assert b == ProfileMenuText(b, isActive)[..|b|];
    }
  }

  /**
   * `get_tray_tooltip` from its three looked-up words: the description
   * alone when there are no profiles, the active profile when one is
   * given, and otherwise the count with "Profile" pluralised unless it is 1.
   */
  function Tooltip(description: string, activeWord: string, profileWord: string,
                   profileCount: nat, activeProfile: Option<string>): string
  {
    if profileCount == 0 then description
    else if activeProfile.Some? then description + " - " + activeWord + ": " + activeProfile.value
    else description + " - " + NatToString(profileCount) + " " + (if profileCount == 1 then profileWord else profileWord + "s")
  }

  /**
   * How any tooltip reads: the description first, alone exactly when there
   * are no profiles; otherwise " - " and then either the active word and,
   * at the end, the active profile's name, or the count followed by the
   * profile word, pluralised unless the count is 1.
   */
  lemma TooltipShape(description: string, activeWord: string, profileWord: string,
                     profileCount: nat, activeProfile: Option<string>)
    ensures var r := Tooltip(description, activeWord, profileWord, profileCount, activeProfile);
      && StartsWith(r, description)
      && (r == description <==> profileCount == 0)
      && (profileCount > 0 ==> r[|description|..|description| + 3] == " - ")
      && (profileCount > 0 && activeProfile.Some? ==>
            StartsWith(r[|description| + 3..], activeWord + ": ") && EndsWith(r, activeProfile.value))
      && (profileCount > 0 && activeProfile.None? ==>
            StartsWith(r[|description| + 3..], NatToString(profileCount) + " ")
            && (profileCount == 1 ==> EndsWith(r, " " + profileWord))
            && (profileCount != 1 ==> EndsWith(r, " " + profileWord + "s")))
  {
    var r := Tooltip(description, activeWord, profileWord, profileCount, activeProfile);
    if profileCount > 0 {
      var rest := r[|description| + 3..];
      if activeProfile.Some? {
        assert r == description + " - " + (activeWord + ": " + activeProfile.value);
        assert rest == activeWord + ": " + activeProfile.value;
      } else {
        var word := if profileCount == 1 then profileWord else profileWord + "s";
        assert r == description + " - " + (NatToString(profileCount) + " " + word);
        assert rest == NatToString(profileCount) + " " + word;
      }
    }
  }

  /** The English tooltips, including the cases pinned by the unit tests. */
  lemma TooltipExamples()
    ensures Tooltip("Claude Code Configuration Switcher", "Active", "Profile", 0, Some("work"))
            == "Claude Code Configuration Switcher"
    ensures Tooltip("Claude Code Configuration Switcher", "Active", "Profile", 2, Some("work"))
            == "Claude Code Configuration Switcher - Active: work"
    ensures Tooltip("Claude Code Configuration Switcher", "Active", "Profile", 1, None)
            == "Claude Code Configuration Switcher - 1 Profile"
    ensures Tooltip("Claude Code Configuration Switcher", "Active", "Profile", 3, None)
            == "Claude Code Configuration Switcher - 3 Profiles"
  {
    assert NatToString(1) == "1";
    assert NatToString(3) == "3";
  }

  // ---------------------------------------------------------------------
  // The service
  // ---------------------------------------------------------------------

  /** `I18nService`: the current locale and the translation tables. */
  class I18nService {
    var currentLocale: string
    var textResources: map<string, Table>

    /** The locale is a supported one and both tables are loaded. */
    ghost predicate Valid()
      reads this
    {
      IsLocaleSupported(currentLocale) && textResources == LoadedResources()
    }

    /** `new`: detect the locale from the environment, then load the tables. */
    constructor (lang: Option<string>, lcAll: Option<string>, platform: Option<string>)
      ensures Valid()
      ensures currentLocale == DetectSystemLocale(lang, lcAll, platform)
    {
      currentLocale := DetectSystemLocale(lang, lcAll, platform);
      textResources := map[];
      new;
      var _ := LoadTextResources();
    }

    /** `load_text_resources`: replace the tables by the English and Chinese ones. */
    method LoadTextResources() returns (r: Result<()>)
      modifies this`textResources
      ensures r.Ok?
      ensures textResources == LoadedResources()
    {
      textResources := map[];
      textResources := textResources["en" := EnglishTexts()];
      textResources := textResources["zh" := ChineseTexts()];
      r := Ok(());
    }

    /**
     * `get_text_with_args`: look the key up in the active table and replace
     * placeholders one argument at a time, stopping at the first argument
     * for which no placeholder is left.
     */
    method GetTextWithArgs(key: string, args: seq<string>) returns (text: string)
      requires ActiveTable(textResources, currentLocale).Some?
      ensures text == Text(textResources, currentLocale, key, args)
    {
      var table := ActiveTable(textResources, currentLocale).value;
      if key !in table {
        return key;
      }
      var template := table[key];
      var result := template;
      var i := 0;
      while i < |args|
        invariant 0 <= i <= |args|
        invariant Format(result, args[i..]) == Format(template, args)
      {
        var pos := FindPlaceholder(result);
        if pos.None? {
          return result;
        }
        assert args[i..][1..] == args[i + 1..];
        result := FillFirst(result, pos.value, args[i]);
        i := i + 1;
      }
      text := result;
    }

    /** `get_text`: the lookup with no arguments, which is the bare translation. */
    method GetText(key: string) returns (text: string)
      requires ActiveTable(textResources, currentLocale).Some?
      ensures text == Text(textResources, currentLocale, key, [])
      ensures key in ActiveTable(textResources, currentLocale).value ==> text == ActiveTable(textResources, currentLocale).value[key]
    {
      text := GetTextWithArgs(key, []);
    }

    /** `set_locale`: only a supported locale is accepted; anything else changes nothing. */
    method SetLocale(locale: string) returns (r: Result<()>)
      modifies this`currentLocale
      ensures r.Ok? <==> IsLocaleSupported(locale)
      ensures r.Ok? ==> currentLocale == locale
      ensures r.Err? ==> r == Err(I18nError("Unsupported locale: " + locale)) && currentLocale == old(currentLocale)
    {
      if !IsLocaleSupported(locale) {
        return Err(I18nError("Unsupported locale: " + locale));
      }
      currentLocale := locale;
      r := Ok(());
    }

    /** `get_tray_tooltip`, built from the current locale's words. */
    method GetTrayTooltip(profileCount: nat, activeProfile: Option<string>) returns (tooltip: string)
      requires ActiveTable(textResources, currentLocale).Some?
      ensures tooltip == Tooltip(Text(textResources, currentLocale, "app_description", []),
                                 Text(textResources, currentLocale, "active", []),
                                 Text(textResources, currentLocale, "profile", []),
                                 profileCount, activeProfile)
    {
      var description := GetText("app_description");
      if profileCount == 0 {
        return description;
      }
      if activeProfile.Some? {
        var activeWord := GetText("active");
        return description + " - " + activeWord + ": " + activeProfile.value;
      }
      var profileWord := GetText("profile");
      var noun := if profileCount == 1 then profileWord else profileWord + "s";
      tooltip := description + " - " + NatToString(profileCount) + " " + noun;
    }
  }

  /** In English, the service's tooltip words are the ones of the English table. */
  lemma EnglishTooltipWords()
    ensures Text(LoadedResources(), "en", "app_description", []) == "Claude Code Configuration Switcher"
    ensures Text(LoadedResources(), "en", "active", []) == "Active"
    ensures Text(LoadedResources(), "en", "profile", []) == "Profile"
  {
  }
}
