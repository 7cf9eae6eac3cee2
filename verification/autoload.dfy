/**
 * The class autoloader registered by the plugin's bootstrap file: a class
 * named `Ict_Mcp_<Name>` is looked up as `includes/class-<name>.php`, where
 * `<name>` is the class name with every `Ict_Mcp_` removed, every `_` turned
 * into `-`, and everything lower-cased.
 */
module Autoload {
  import opened Php

  const PREFIX := "Ict_Mcp_"

  predicate StartsWith(s: string, prefix: string)
  {
    prefix <= s
  }

  /**
   * `str_replace($pat, $rep, $s)` for one non-empty pattern: occurrences are
   * found left to right, do not overlap, and replaced text is not scanned again.
   * Each occurrence trades `|pat|` characters for `|rep|`, so a replacement
   * of the same length keeps the length and a shorter one never lengthens.
   */
  function ReplaceAll(s: string, pat: string, rep: string): (r: string)
    requires |pat| > 0
    ensures |rep| == |pat| ==> |r| == |s|
    ensures |rep| <= |pat| ==> |r| <= |s|
    decreases |s|
  {
    if s == [] then []
    else if pat <= s then rep + ReplaceAll(s[|pat|..], pat, rep)
    else [s[0]] + ReplaceAll(s[1..], pat, rep)
  }

  /** `pat` occurs nowhere in `s`. */
  predicate Absent(s: string, pat: string)
  {
    forall i :: 0 <= i <= |s| ==> !(pat <= s[i..])
  }

  /** Replacing a single character maps the string character by character. */
  lemma {:induction false} ReplaceCharPointwise(s: string, c: char, d: char)
    ensures |ReplaceAll(s, [c], [d])| == |s|
    ensures forall i :: 0 <= i < |s| ==>
      ReplaceAll(s, [c], [d])[i] == if s[i] == c then d else s[i]
  {
    if s != [] {
      ReplaceCharPointwise(s[1..], c, d);
      var r := ReplaceAll(s, [c], [d]);
      var tail := ReplaceAll(s[1..], [c], [d]);
      if [c] <= s {
        assert r == [d] + tail;
      } else {
        assert r == [s[0]] + tail;
      }
      assert forall i :: 1 <= i < |s| ==> s[1..][i - 1] == s[i];
    }
  }

  /** A string the pattern does not occur in is left unchanged. */
  lemma {:induction false} ReplaceAbsent(s: string, pat: string, rep: string)
    requires |pat| > 0 && Absent(s, pat)
    ensures ReplaceAll(s, pat, rep) == s
    decreases |s|
  {
    if s != [] {
      assert s[0..] == s;
      assert forall i :: 0 <= i <= |s[1..]| ==> s[1..][i..] == s[i + 1..];
      ReplaceAbsent(s[1..], pat, rep);
    }
  }

  /** A pattern at the front is replaced and the scan resumes right after it. */
  lemma ReplaceAtFront(pat: string, rest: string, rep: string)
    requires |pat| > 0
    ensures ReplaceAll(pat + rest, pat, rep) == rep + ReplaceAll(rest, pat, rep)
  {
    assert pat <= pat + rest;
    assert (pat + rest)[|pat|..] == rest;
  }

  /** A string that lacks the pattern's first character lacks the pattern. */
  lemma AbsentByFirst(s: string, pat: string)
    requires |pat| > 0
    requires forall i :: 0 <= i < |s| ==> s[i] != pat[0]
    ensures Absent(s, pat)
  {
    forall i | 0 <= i <= |s|
      ensures !(pat <= s[i..])
    {
      if i < |s| {
        assert s[i..][0] == s[i];
      }
    }
  }

  predicate IsUpper(c: char)
  {
    'A' <= c <= 'Z'
  }

  predicate IsLower(c: char)
  {
    'a' <= c <= 'z'
  }

  /** `strtolower` on one character. */
  function LowerChar(c: char): char
  {
    if IsUpper(c) then (c as int + 32) as char else c
  }

  /**
   * `strtolower`: the result has no capital letter left, each capital
   * becomes its own small letter, and every character that is not a capital
   * letter, small letters included, stays where it is.
   */
  function ToLower(s: string): (r: string)
    ensures |r| == |s|
    ensures forall i :: 0 <= i < |r| ==> !IsUpper(r[i])
    ensures forall i :: 0 <= i < |s| && IsUpper(s[i]) ==> IsLower(r[i]) && r[i] as int - s[i] as int == 32
    ensures forall i :: 0 <= i < |s| && !IsUpper(s[i]) ==> r[i] == s[i]
  {
    seq(|s|, i requires 0 <= i < |s| => LowerChar(s[i]))
  }

  /** Lower-casing twice is lower-casing once. */
  lemma ToLowerIdempotent(s: string)
    ensures ToLower(ToLower(s)) == ToLower(s)
  {
    var once := ToLower(s);
    assert forall i :: 0 <= i < |once| ==> ToLower(once)[i] == once[i];
  }

  /** A string without capitals is its own lower-case form. */
  lemma ToLowerOfLower(s: string)
    requires forall i :: 0 <= i < |s| ==> !IsUpper(s[i])
    ensures ToLower(s) == s
  {
    assert forall i :: 0 <= i < |s| ==> ToLower(s)[i] == s[i];
  }

  /** The file-name part `<name>` for a class, or None for a class of another prefix. */
  function ClassFile(cls: string): (r: Option<string>)
    ensures r.None? <==> !StartsWith(cls, PREFIX)
    ensures r.Some? ==> forall i :: 0 <= i < |r.value| ==> r.value[i] != '_' && !IsUpper(r.value[i])
  {
    if !StartsWith(cls, PREFIX) then None
    else
      var stripped := ReplaceAll(cls, PREFIX, "");
      ReplaceCharPointwise(stripped, '_', '-');
      Some(ToLower(ReplaceAll(stripped, "_", "-")))
  }

  /** The path the autoloader tries, under the plugin directory `dir`. */
  function FilePath(dir: string, name: string): string
  {
    dir + "includes/class-" + name + ".php"
  }

  /**
   * The autoloader: the file it loads for `cls`, or None when the class has
   * another prefix or no such file exists (`fileExists` answers for the file
   * system).
   */
  function AutoloadFile(cls: string, dir: string, fileExists: string -> bool): (r: Option<string>)
    ensures r.Some? <==> StartsWith(cls, PREFIX) && fileExists(FilePath(dir, ClassFile(cls).value))
    ensures r.Some? ==> r.value == FilePath(dir, ClassFile(cls).value)
  {
    match ClassFile(cls)
    case None => None
    case Some(name) => if fileExists(FilePath(dir, name)) then Some(FilePath(dir, name)) else None
  }

  /**
   * The class name after the prefix, when it does not itself contain the
   * prefix, becomes its own text with `_` as `-`, lower-cased.
   */
  lemma ClassFileOfPrefixed(name: string)
    requires Absent(name, PREFIX)
    ensures ClassFile(PREFIX + name) == Some(ToLower(ReplaceAll(name, "_", "-")))
  {
    assert StartsWith(PREFIX + name, PREFIX);
    ReplaceAtFront(PREFIX, name, "");
    ReplaceAbsent(name, PREFIX, "");
    assert ReplaceAll(PREFIX + name, PREFIX, "") == name;
  }

  /** A prefixed name whose part after the prefix has no capital I. */
  lemma ClassFileByName(name: string, file: string)
    requires forall i :: 0 <= i < |name| ==> name[i] != 'I'
    requires |file| == |name|
    requires forall i :: 0 <= i < |name| ==>
      file[i] == if name[i] == '_' then '-' else LowerChar(name[i])
    ensures ClassFile(PREFIX + name) == Some(file)
  {
    AbsentByFirst(name, PREFIX);
    ClassFileOfPrefixed(name);
    ReplaceCharPointwise(name, '_', '-');
    var dashed := ReplaceAll(name, "_", "-");
    assert ToLower(dashed) == file by {
      forall i | 0 <= i < |name|
        ensures ToLower(dashed)[i] == file[i]
      {
        if name[i] == '_' {
          assert dashed[i] == '-';
        }
      }
    }
  }

  /** The settings tab class maps to the file name `settings-page`. */
  lemma SettingsPageClassFile()
    ensures ClassFile("Ict_Mcp_Settings_Page") == Some("settings-page")
  {
    assert "Ict_Mcp_Settings_Page" == PREFIX + "Settings_Page";
    ClassFileByName("Settings_Page", "settings-page");
  }

  /**
   * The settings tab class is loaded from `includes/class-settings-page.php`
   * when that file exists.
   */
  lemma SettingsPageFile(dir: string, fileExists: string -> bool)
    ensures AutoloadFile("Ict_Mcp_Settings_Page", dir, fileExists) ==
      if fileExists(dir + "includes/class-settings-page.php") then Some(dir + "includes/class-settings-page.php") else None
  {
    SettingsPageClassFile();
    SettingsPagePath(dir);
  }

  lemma SettingsPagePath(dir: string)
    ensures FilePath(dir, "settings-page") == dir + "includes/class-settings-page.php"
  {
  }

  /** The other classes of the modelled core are found in the files they live in. */
  lemma CoreClassFiles()
    ensures ClassFile("Ict_Mcp_Main") == Some("main")
    ensures ClassFile("Ict_Mcp_Settings") == Some("settings")
  {
    assert "Ict_Mcp_Main" == PREFIX + "Main";
    ClassFileByName("Main", "main");
    assert "Ict_Mcp_Settings" == PREFIX + "Settings";
    ClassFileByName("Settings", "settings");
  }

  /** The storefront class is found in `class-frontend.php`. */
  lemma FrontendClassFile()
    ensures ClassFile("Ict_Mcp_Frontend") == Some("frontend")
  {
    assert "Ict_Mcp_Frontend" == PREFIX + "Frontend";
    ClassFileByName("Frontend", "frontend");
  }

  /** Classes of WooCommerce or WordPress are left to other autoloaders. */
  lemma ForeignClassesIgnored(dir: string, fileExists: string -> bool)
    ensures AutoloadFile("WC_Product", dir, fileExists) == None
    ensures AutoloadFile("ict_mcp_main", dir, fileExists) == None
  {
    assert "WC_Product"[0] != PREFIX[0];
    assert "ict_mcp_main"[0] != PREFIX[0];
  }

  /**
   * Only the text after the prefix decides the file, after lower-casing: two
   * spellings that differ in letter case load the same file.
   */
  lemma CaseCollides()
    ensures ClassFile("Ict_Mcp_Main") == ClassFile("Ict_Mcp_main")
  {
    assert "Ict_Mcp_Main" == PREFIX + "Main";
    ClassFileByName("Main", "main");
    assert "Ict_Mcp_main" == PREFIX + "main";
    ClassFileByName("main", "main");
  }
}
