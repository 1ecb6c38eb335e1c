/** The validators, sanitizers, parameterized-query builder and CSRF token
    store of input_validation.py.

    Strings are sequences of characters. The regular expressions of the
    sanitizers are written out as the character filters and scans they
    denote; the `pattern` option of `validate_string` is an abstract
    predicate. */
module InputValidation {
  import opened Common

  // ---------------------------------------------------------------------------
  // Python string primitives
  // ---------------------------------------------------------------------------

  /** Python's `str.replace(needle, rep)`: every non-overlapping occurrence,
      scanning left to right, is replaced. */
  function Replace(s: string, needle: string, rep: string): (r: string)
    requires |needle| > 0
    ensures needle[0] !in s ==> r == s
    ensures forall c :: c in r ==> c in s || c in rep
    ensures |s| > 0 && (|s| < |needle| || s[..|needle|] != needle) ==> |r| > 0 && r[0] == s[0]
    decreases |s|
  {
    if |s| < |needle| then s
    else if s[..|needle|] == needle then rep + Replace(s[|needle|..], needle, rep)
    else [s[0]] + Replace(s[1..], needle, rep)
  }

  /** Python's `str.lstrip` with the characters `p` accepts. */
  function LStrip(s: string, p: char -> bool): (r: string)
    ensures |r| <= |s| && r == s[|s| - |r|..]
    ensures |r| > 0 ==> !p(r[0])
  {
    if |s| > 0 && p(s[0]) then LStrip(s[1..], p) else s
  }

  /** Python's `str.rstrip` with the characters `p` accepts. */
  function RStrip(s: string, p: char -> bool): (r: string)
    ensures |r| <= |s| && r == s[..|r|]
    ensures |r| > 0 ==> !p(r[|r| - 1])
  {
    if |s| > 0 && p(s[|s| - 1]) then RStrip(s[..|s| - 1], p) else s
  }

  /** The whitespace `str.strip()` removes (Python's `str.isspace`): tab,
      line feed, vertical tab, form feed, carriage return, the separators
      0x1c to 0x1f and space; next line and no-break space; and the Unicode
      spaces and separators 0x1680, 0x2000 to 0x200a, 0x2028, 0x2029,
      0x202f, 0x205f and 0x3000. */
  predicate IsSpace(c: char)
  {
    || '\t' <= c <= '\r' || '\U{001C}' <= c <= ' '
    || c == '\U{0085}' || c == '\U{00A0}' || c == '\U{1680}'
    || '\U{2000}' <= c <= '\U{200A}' || c == '\U{2028}' || c == '\U{2029}'
    || c == '\U{202F}' || c == '\U{205F}' || c == '\U{3000}'
  }

  /** Python's `str.strip()`. */
  function Strip(s: string): string
  {
    RStrip(LStrip(s, IsSpace), IsSpace)
  }

  /** The stripped string is a substring with no whitespace at either end,
      and stripping it again changes nothing. */
  lemma StripProperties(s: string)
    ensures var t := Strip(s);
            && (exists i, j :: 0 <= i <= j <= |s| && t == s[i..j])
            && (|t| > 0 ==> !IsSpace(t[0]) && !IsSpace(t[|t| - 1]))
            && Strip(t) == t
  {
    var l := LStrip(s, IsSpace);
    var t := RStrip(l, IsSpace);
    assert t == s[|s| - |l|..][..|t|] == s[|s| - |l|..|s| - |l| + |t|];
    if |t| > 0 {
      assert t[0] == l[0];
    }
  }

  /** The characters of `s` that `drop` does not reject, in order
      (`re.sub` of a character class with `''`). */
  function RemoveChars(s: string, drop: char -> bool): (r: string)
    ensures |r| <= |s|
    ensures forall c :: c in r <==> c in s && !drop(c)
  {
    if s == [] then []
    else if drop(s[0]) then RemoveChars(s[1..], drop)
    else [s[0]] + RemoveChars(s[1..], drop)
  }

  /** Removing the same characters twice is removing them once. */
  lemma {:induction false} RemoveCharsIdempotent(s: string, drop: char -> bool)
    ensures RemoveChars(RemoveChars(s, drop), drop) == RemoveChars(s, drop)
  {
    if s != [] {
      RemoveCharsIdempotent(s[1..], drop);
    }
  }

  // ---------------------------------------------------------------------------
  // validate_string
  // ---------------------------------------------------------------------------

  /** The options of `validate_string`; an absent or empty `pattern` is
      `None`, an absent whitelist is `[]`. */
  datatype Options = Options(minLength: int, maxLength: int, allowEmpty: bool,
                             pattern: Option<string -> bool>, whitelist: seq<string>)

  /** `options or {}` with every key defaulted. */
  const DefaultOptions := Options(0, 1000, false, None, [])

  /** `validate_string`: the stripped input when it passes, in order, the
      emptiness, minimum, maximum, pattern and whitelist checks. */
  function ValidateString(input: string, o: Options): (r: Result<string>)
    ensures var t := Strip(input);
            r.Ok? <==> && (o.allowEmpty || |t| > 0)
                       && o.minLength <= |t| <= o.maxLength
                       && (o.pattern.Some? ==> o.pattern.value(t))
                       && (o.whitelist != [] ==> t in o.whitelist)
    ensures r.Ok? ==> r.value == Strip(input)
    ensures !o.allowEmpty && Strip(input) == [] ==> r == Err("Input cannot be empty")
  {
    var t := Strip(input);
    if !o.allowEmpty && |t| == 0 then Err("Input cannot be empty")
    else if |t| < o.minLength then Err("Input too short (min: " + IntString(o.minLength) + ")")
    else if |t| > o.maxLength then Err("Input too long (max: " + IntString(o.maxLength) + ")")
    else if o.pattern.Some? && !o.pattern.value(t) then Err("Input does not match required pattern")
    else if o.whitelist != [] && t !in o.whitelist then Err("Input not in allowed list")
    else Ok(t)
  }

  /** With the default options an input is accepted iff it has between 1 and
      1000 characters once stripped. */
  lemma ValidateStringDefaults(input: string)
    ensures ValidateString(input, DefaultOptions).Ok? <==> 0 < |Strip(input)| <= 1000
  {
  }

  /** An input made only of whitespace strips to nothing, so the defaults
      reject it as empty. */
  lemma AllSpaceIsEmpty(input: string)
    requires forall i :: 0 <= i < |input| ==> IsSpace(input[i])
    ensures Strip(input) == []
    ensures ValidateString(input, DefaultOptions) == Err("Input cannot be empty")
  {
  }

  /** Non-ASCII whitespace counts: a no-break space, an ideographic space and
      a line separator make an empty input. */
  lemma UnicodeSpaceIsEmpty()
    ensures ValidateString("\U{00A0}\U{3000}\U{2028}", DefaultOptions) == Err("Input cannot be empty")
  {
    AllSpaceIsEmpty("\U{00A0}\U{3000}\U{2028}");
  }

  /** A value `validate_string` produced passes it again unchanged. */
  lemma ValidateStringIdempotent(input: string, o: Options)
    requires ValidateString(input, o).Ok?
    ensures ValidateString(ValidateString(input, o).value, o) == ValidateString(input, o)
  {
    StripProperties(input);
  }

  // ---------------------------------------------------------------------------
  // Entity escaping: a fold of `str.replace` over an entity table
  // ---------------------------------------------------------------------------

  /** The loop `for char, entity in entity_map.items(): s = s.replace(char, entity)`. */
  function ReplaceAll(s: string, table: seq<(char, string)>): string
    decreases |table|
  {
    if table == [] then s else ReplaceAll(Replace(s, [table[0].0], table[0].1), table[1..])
  }

  /** Replacing a single character works on each part of a concatenation. */
  lemma {:induction false} ReplaceCharConcat(a: string, b: string, c: char, e: string)
    ensures Replace(a + b, [c], e) == Replace(a, [c], e) + Replace(b, [c], e)
  {
    if a != [] {
      assert (a + b)[1..] == a[1..] + b;
      ReplaceCharConcat(a[1..], b, c, e);
    } else {
      assert a + b == b;
    }
  }

  lemma {:induction false} ReplaceAllConcat(a: string, b: string, table: seq<(char, string)>)
    ensures ReplaceAll(a + b, table) == ReplaceAll(a, table) + ReplaceAll(b, table)
    decreases |table|
  {
    if table != [] {
      ReplaceCharConcat(a, b, table[0].0, table[0].1);
      ReplaceAllConcat(Replace(a, [table[0].0], table[0].1), Replace(b, [table[0].0], table[0].1), table[1..]);
    }
  }

  /** The fold applied to each character separately, the results concatenated. */
  function PerChar(s: string, table: seq<(char, string)>): string
  {
    if s == [] then [] else ReplaceAll([s[0]], table) + PerChar(s[1..], table)
  }

  /** A fold of single-character replacements is a per-character substitution. */
  lemma {:induction false} ReplaceAllIsPerChar(s: string, table: seq<(char, string)>)
    ensures ReplaceAll(s, table) == PerChar(s, table)
  {
    if s != [] {
      calc {
        ReplaceAll(s, table);
        { assert s == [s[0]] + s[1..]; }
        ReplaceAll([s[0]] + s[1..], table);
        { ReplaceAllConcat([s[0]], s[1..], table); }
        ReplaceAll([s[0]], table) + ReplaceAll(s[1..], table);
        { ReplaceAllIsPerChar(s[1..], table); }
        PerChar(s, table);
      }
    } else {
      ReplaceAllAbsent(s, table);
    }
  }

  /** The entity map, in insertion order; the apostrophe's entity differs
      between `sanitize_html` (`&#x27;`) and `escape_html` (`&#39;`). */
  function HtmlTable(apos: string): seq<(char, string)>
  {
    [('&', "&amp;"), ('<', "&lt;"), ('>', "&gt;"), ('"', "&quot;"), ('\'', apos), ('/', "&#x2F;")]
  }

  /** The characters HTML escaping must eliminate. */
  predicate HtmlSpecial(c: char)
  {
    c == '<' || c == '>' || c == '"' || c == '\'' || c == '/'
  }

  /** The entity that stands for `c`, or `c` itself. */
  function HtmlEntity(c: char, apos: string): string
  {
    if c == '&' then "&amp;"
    else if c == '<' then "&lt;"
    else if c == '>' then "&gt;"
    else if c == '"' then "&quot;"
    else if c == '\'' then apos
    else if c == '/' then "&#x2F;"
    else [c]
  }

  /** Each character replaced by its entity: the intended meaning of the fold. */
  function Escaped(s: string, apos: string): (r: string)
    requires apos == "&#x27;" || apos == "&#39;"
    ensures forall c :: c in r ==> !HtmlSpecial(c)
  {
    if s == [] then [] else HtmlEntity(s[0], apos) + Escaped(s[1..], apos)
  }

  /** A fold whose characters do not occur in `s` leaves it alone. */
  lemma {:induction false} ReplaceAllAbsent(s: string, table: seq<(char, string)>)
    requires forall i :: 0 <= i < |table| ==> table[i].0 !in s
    ensures ReplaceAll(s, table) == s
    decreases |table|
  {
    if table != [] {
      ReplaceAllAbsent(s, table[1..]);
    }
  }

  /** On a single character the fold yields the entry of its first match,
      provided no later entry's character occurs in that replacement. */
  lemma {:induction false} ReplaceAllOnChar(c: char, table: seq<(char, string)>, k: nat)
    requires k < |table| && table[k].0 == c
    requires forall i :: 0 <= i < k ==> table[i].0 != c
    requires forall i :: k < i < |table| ==> table[i].0 !in table[k].1
    ensures ReplaceAll([c], table) == table[k].1
    decreases k
  {
    if k == 0 {
      assert Replace([c], [c], table[0].1) == table[0].1 + [];
      assert table[0].1 + [] == table[0].1;
      forall i | 0 <= i < |table[1..]| ensures table[1..][i].0 !in table[0].1 {
        assert table[1..][i] == table[i + 1];
      }
      ReplaceAllAbsent(table[0].1, table[1..]);
    } else {
      ReplaceAllOnChar(c, table[1..], k - 1);
    }
  }

  /** The fold maps a single character to its entity: `&` goes first, and no
      entity holds a character replaced after it. */
  lemma HtmlTableOnChar(c: char, apos: string)
    requires apos == "&#x27;" || apos == "&#39;"
    ensures ReplaceAll([c], HtmlTable(apos)) == HtmlEntity(c, apos)
  {
    var t := HtmlTable(apos);
    if c == '&' {
      ReplaceAllOnChar(c, t, 0);
    } else if c == '<' {
      ReplaceAllOnChar(c, t, 1);
    } else if c == '>' {
      ReplaceAllOnChar(c, t, 2);
    } else if c == '"' {
      ReplaceAllOnChar(c, t, 3);
    } else if c == '\'' {
      ReplaceAllOnChar(c, t, 4);
    } else if c == '/' {
      ReplaceAllOnChar(c, t, 5);
    } else {
      ReplaceAllAbsent([c], t);
    }
  }

  /** `escape_html`. */
  function EscapeHtml(s: string): string
  {
    ReplaceAll(s, HtmlTable("&#39;"))
  }

  /** `escape_html` substitutes each character by its entity, so its result
      holds none of `<`, `>`, `"`, `'` and `/`. */
  lemma {:induction false} EscapeHtmlIsEscaped(s: string)
    ensures EscapeHtml(s) == Escaped(s, "&#39;")
    ensures forall c :: c in EscapeHtml(s) ==> !HtmlSpecial(c)
  {
    ReplaceAllIsPerChar(s, HtmlTable("&#39;"));
    PerCharIsEscaped(s, "&#39;");
  }

  lemma {:induction false} PerCharIsEscaped(s: string, apos: string)
    requires apos == "&#x27;" || apos == "&#39;"
    ensures PerChar(s, HtmlTable(apos)) == Escaped(s, apos)
  {
    if s != [] {
      HtmlTableOnChar(s[0], apos);
      PerCharIsEscaped(s[1..], apos);
    }
  }

  // ---------------------------------------------------------------------------
  // sanitize_html
  // ---------------------------------------------------------------------------

  /** The first position of `c` in `s`. */
  function IndexOf(s: string, c: char): (i: nat)
    requires c in s
    ensures i < |s| && s[i] == c && c !in s[..i]
  {
    if s[0] == c then 0 else 1 + IndexOf(s[1..], c)
  }

  /** No `<` is followed, anywhere later, by a `>`: no tag is left. */
  predicate NoTag(s: string)
  {
    forall i, j :: 0 <= i < j < |s| && s[i] == '<' ==> s[j] != '>'
  }

  /** `re.sub(r'<[^>]*>', '', s)`: each `<` that has a `>` after it is removed
      together with everything up to the first such `>`. */
  function StripTags(s: string): (r: string)
    ensures forall c :: c in r ==> c in s
    ensures NoTag(r)
  {
    if s == [] then []
    else if s[0] == '<' && '>' in s then
      StripTags(s[IndexOf(s, '>') + 1..])
    else
      var rest := StripTags(s[1..]);
      assert s[0] == '<' ==> forall c :: c in rest ==> c != '>';
      [s[0]] + rest
  }

  /** `sanitize_html`: tags removed, then entity-escaped. */
  function SanitizeHtml(s: string): string
  {
    ReplaceAll(StripTags(s), HtmlTable("&#x27;"))
  }

  /** `sanitize_html` escapes each character left after tag removal, so its
      result holds none of `<`, `>`, `"`, `'` and `/`. */
  lemma SanitizeHtmlIsEscaped(s: string)
    ensures SanitizeHtml(s) == Escaped(StripTags(s), "&#x27;")
    ensures forall c :: c in SanitizeHtml(s) ==> !HtmlSpecial(c)
  {
    ReplaceAllIsPerChar(StripTags(s), HtmlTable("&#x27;"));
    PerCharIsEscaped(StripTags(s), "&#x27;");
  }

  // ---------------------------------------------------------------------------
  // sanitize_sql
  // ---------------------------------------------------------------------------

  /** The three replacements of `sanitize_sql`, in order. */
  const SqlTable: seq<(char, string)> := [('\'', "''"), ('\\', "\\\\"), (';', "")]

  /** `sanitize_sql`. */
  function SanitizeSql(s: string): string
  {
    ReplaceAll(s, SqlTable)
  }

  /** What each character becomes: a quote or a backslash doubled, a
      semicolon dropped. */
  function SqlEscaped(s: string): (r: string)
    ensures ';' !in r
  {
    if s == [] then []
    else (if s[0] == '\'' then "''" else if s[0] == '\\' then "\\\\" else if s[0] == ';' then "" else [s[0]])
         + SqlEscaped(s[1..])
  }

  /** `sanitize_sql` doubles every quote and backslash and drops every
      semicolon, so no `;` survives. */
  lemma {:induction false} SanitizeSqlIsEscaped(s: string)
    ensures SanitizeSql(s) == SqlEscaped(s)
    ensures ';' !in SanitizeSql(s)
  {
    ReplaceAllIsPerChar(s, SqlTable);
    PerCharIsSqlEscaped(s);
  }

  lemma {:induction false} PerCharIsSqlEscaped(s: string)
    ensures PerChar(s, SqlTable) == SqlEscaped(s)
  {
    if s != [] {
      var c := s[0];
      if c == '\'' {
        ReplaceAllOnChar(c, SqlTable, 0);
      } else if c == '\\' {
        ReplaceAllOnChar(c, SqlTable, 1);
      } else if c == ';' {
        ReplaceAllOnChar(c, SqlTable, 2);
      } else {
        ReplaceAllAbsent([c], SqlTable);
      }
      PerCharIsSqlEscaped(s[1..]);
    }
  }

  // ---------------------------------------------------------------------------
  // sanitize_command
  // ---------------------------------------------------------------------------

  /** The character class `[;&|`$(){}[\]\n\r]`. */
  predicate CommandChar(c: char)
  {
    c in ";&|`$(){}[]\n\r"
  }

  /** `sanitize_command`: the input without any command-injection character. */
  function SanitizeCommand(s: string): (r: string)
    ensures |r| <= |s|
    ensures forall c :: c in r <==> c in s && !CommandChar(c)
  {
    RemoveChars(s, CommandChar)
  }

  /** A sanitized command is a subsequence of the input. */
  predicate IsSubsequence(r: string, s: string)
  {
    if r == [] then true
    else if s == [] then false
    else if r[0] == s[0] then IsSubsequence(r[1..], s[1..])
    else IsSubsequence(r, s[1..])
  }

  lemma {:induction false} RemoveCharsIsSubsequence(s: string, drop: char -> bool)
    ensures IsSubsequence(RemoveChars(s, drop), s)
  {
    if s != [] {
      RemoveCharsIsSubsequence(s[1..], drop);
      var r := RemoveChars(s[1..], drop);
      if drop(s[0]) && r != [] {
        // r[0] survived the filter, so it is not s[0]
        assert r[0] in r;
      }
    }
  }

  // ---------------------------------------------------------------------------
  // sanitize_path
  // ---------------------------------------------------------------------------

  /** The character class `[<>:"|?*\x00-\x1f]`. */
  predicate PathChar(c: char)
  {
    c in "<>:\"|?*" || '\U{0000}' <= c <= '\U{001F}'
  }

  predicate IsSlash(c: char) { c == '/' }

  /** No two adjacent dots: no `..` traversal component. */
  predicate NoDotDot(s: string)
  {
    forall i :: 0 <= i < |s| - 1 ==> !(s[i] == '.' && s[i + 1] == '.')
  }

  /** The traversal and slash clean-up: remove `..`, collapse `//`, then
      strip leading and trailing slashes. */
  function TrimTraversal(s: string): string
  {
    RStrip(LStrip(Replace(Replace(s, "..", ""), "//", "/"), IsSlash), IsSlash)
  }

  /** `sanitize_path` as written: the traversal clean-up first, then the
      removal of the dangerous characters. */
  function SanitizePathAsWritten(s: string): string
  {
    RemoveChars(TrimTraversal(s), PathChar)
  }

  /** Removing a character between two dots joins them: `.<.` comes out
      as the traversal component `..`. */
  lemma SanitizePathAsWrittenLeavesDotDot()
    ensures SanitizePathAsWritten(".<.") == ".."
    ensures !NoDotDot(SanitizePathAsWritten(".<."))
  {
    TrimTraversalDotLtDot();
    RemoveCharsDotLtDot();
    var r := SanitizePathAsWritten(".<.");
    assert r[0] == '.' && r[1] == '.';
  }

  /** Removing the dangerous characters from `.<.` leaves `..`. */
  lemma RemoveCharsDotLtDot()
    ensures RemoveChars(".<.", PathChar) == ".."
  {
    assert !PathChar('.') by {
      assert forall i :: 0 <= i < |"<>:\"|?*"| ==> "<>:\"|?*"[i] != '.';
    }
    assert PathChar('<') by {
      assert "<>:\"|?*"[0] == '<';
    }
    assert RemoveChars(".", PathChar) == ".";
    assert RemoveChars("<.", PathChar) == ".";
  }

  /** `.<.` has no `..`, no `//` and no slash at either end. */
  lemma TrimTraversalDotLtDot()
    ensures TrimTraversal(".<.") == ".<."
  {
    assert Replace(".<.", "..", "") == ".<.";
    assert Replace(".<.", "//", "/") == ".<.";
    assert LStrip(".<.", IsSlash) == ".<.";
    assert RStrip(".<.", IsSlash) == ".<.";
  }

  /** `sanitize_path` with the dangerous characters removed before the
      traversal clean-up, so that no removal can join two dots afterwards. */
  function SanitizePath(s: string): string
  {
    TrimTraversal(RemoveChars(s, PathChar))
  }

  /** One pass of `replace('..', '')` leaves no two adjacent dots. */
  lemma {:induction false} DropDotDot(s: string)
    ensures NoDotDot(Replace(s, "..", ""))
    decreases |s|
  {
    if |s| >= 2 {
      if s[..2] == ".." {
        DropDotDot(s[2..]);
      } else {
        DropDotDot(s[1..]);
        var rest := Replace(s[1..], "..", "");
        if s[0] == '.' {
          assert s[1] != '.';
          assert |s[1..]| < 2 || s[1..][..2] != "..";
        }
      }
    }
  }

  /** `replace('//', '/')` does not join two dots. */
  lemma {:induction false} CollapseKeepsNoDotDot(s: string)
    requires NoDotDot(s)
    ensures NoDotDot(Replace(s, "//", "/"))
    decreases |s|
  {
    if |s| >= 2 {
      if s[..2] == "//" {
        CollapseKeepsNoDotDot(s[2..]);
      } else {
        assert NoDotDot(s[1..]) by {
          forall i | 0 <= i < |s[1..]| - 1 ensures !(s[1..][i] == '.' && s[1..][i + 1] == '.') {
            assert s[1..][i] == s[i + 1] && s[1..][i + 1] == s[i + 2];
          }
        }
        CollapseKeepsNoDotDot(s[1..]);
        var rest := Replace(s[1..], "//", "/");
        if s[0] == '.' && |rest| > 0 {
          if |s[1..]| >= 2 && s[1..][..2] == "//" {
            assert rest[0] == '/';
          } else {
            assert rest[0] == s[1];
          }
        }
      }
    }
  }

  /** A prefix of a suffix is a contiguous piece: stripping both ends keeps
      a slice. */
  lemma SliceOfSuffix(c: string, d: string, e: string)
    requires |d| <= |c| && d == c[|c| - |d|..] && |e| <= |d| && e == d[..|e|]
    ensures |c| - |d| + |e| <= |c| && e == c[|c| - |d|..|c| - |d| + |e|]
  {
    assert c[|c| - |d|..|c| - |d| + |e|] == c[|c| - |d|..][..|e|];
  }

  /** The corrected `sanitize_path` keeps no dangerous character. */
  lemma SanitizePathNoPathChar(s: string)
    ensures forall c :: c in SanitizePath(s) ==> !PathChar(c)
  {
    var a := RemoveChars(s, PathChar);
    var b := Replace(a, "..", "");
    var c := Replace(b, "//", "/");
    var d := LStrip(c, IsSlash);
    var e := RStrip(d, IsSlash);
    assert e == SanitizePath(s);
    SliceOfSuffix(c, d, e);
    forall x | x in e ensures !PathChar(x) {
      assert x in c;
    }
  }

  /** A prefix of a suffix of a string without `..` has none either. */
  lemma NoDotDotInside(c: string, d: string, e: string)
    requires NoDotDot(c)
    requires |d| <= |c| && d == c[|c| - |d|..] && |e| <= |d| && e == d[..|e|]
    ensures NoDotDot(e)
  {
    var off := |c| - |d|;
    forall k | 0 <= k < |e| - 1 ensures !(e[k] == '.' && e[k + 1] == '.') {
      assert e[k] == c[off + k] && e[k + 1] == c[off + k + 1];
    }
  }

  /** Stripping slashes from both ends does not create a `..`. */
  lemma TrimKeepsNoDotDot(c: string)
    requires NoDotDot(c)
    ensures NoDotDot(RStrip(LStrip(c, IsSlash), IsSlash))
  {
    var d := LStrip(c, IsSlash);
    NoDotDotInside(c, d, RStrip(d, IsSlash));
  }

  /** The corrected `sanitize_path` leaves no `..` component. */
  lemma SanitizePathNoDotDot(s: string)
    ensures NoDotDot(SanitizePath(s))
  {
    var a := RemoveChars(s, PathChar);
    DropDotDot(a);
    CollapseKeepsNoDotDot(Replace(a, "..", ""));
    TrimKeepsNoDotDot(Replace(Replace(a, "..", ""), "//", "/"));
  }

  /** `sanitize_path` (corrected) leaves neither a dangerous character nor a
      `..` component. */
  lemma SanitizePathSafe(s: string)
    ensures forall c :: c in SanitizePath(s) ==> !PathChar(c)
    ensures NoDotDot(SanitizePath(s))
  {
    SanitizePathNoPathChar(s);
    SanitizePathNoDotDot(s);
  }

  // ---------------------------------------------------------------------------
  // build_parameterized_query
  // ---------------------------------------------------------------------------

  /** The result of `build_parameterized_query`. */
  datatype Parameterized<V> = Parameterized(query: string, params: seq<V>, safe: bool)

  /** `:key` of the `n`-th key and onward replaced by `$n`, `$n+1`, ... */
  function Placeholders(query: string, keys: seq<string>, n: int): string
    decreases |keys|
  {
    if keys == [] then query
    else Placeholders(Replace(query, ":" + keys[0], "$" + IntString(n)), keys[1..], n + 1)
  }

  /** `build_parameterized_query` over the parameters in insertion order:
      each `:key` becomes `$i` for the key's 1-based position, and the values
      are listed in the same order. */
  method BuildParameterizedQuery<V>(query: string, params: seq<(string, V)>) returns (r: Parameterized<V>)
    ensures r.query == Placeholders(query, seq(|params|, i requires 0 <= i < |params| => params[i].0), 1)
    ensures |r.params| == |params| && forall i :: 0 <= i < |params| ==> r.params[i] == params[i].1
    ensures r.safe
  {
    var keys := seq(|params|, i requires 0 <= i < |params| => params[i].0);
    var parameterized := query;
    var paramList: seq<V> := [];
    var paramIndex := 1;
    var k := 0;
    while k < |params|
      invariant 0 <= k <= |params| && paramIndex == k + 1
      invariant Placeholders(parameterized, keys[k..], paramIndex) == Placeholders(query, keys, 1)
      invariant |paramList| == k && forall i :: 0 <= i < k ==> paramList[i] == params[i].1
    {
      var (key, value) := params[k];
      assert keys[k..][0] == key && keys[k..][1..] == keys[k + 1..];
      parameterized := Replace(parameterized, ":" + key, "$" + IntString(paramIndex));
      paramList := paramList + [value];
      paramIndex := paramIndex + 1;
      k := k + 1;
    }
    r := Parameterized(parameterized, paramList, true);
  }

  /** A query without any `:` is left as it is, whatever the parameters. */
  lemma {:induction false} NoColonUnchanged(query: string, keys: seq<string>, n: int)
    requires ':' !in query
    ensures Placeholders(query, keys, n) == query
    decreases |keys|
  {
    if keys != [] {
      NoColonUnchanged(query, keys[1..], n + 1);
    }
  }

  // ---------------------------------------------------------------------------
  // CSRF protection
  // ---------------------------------------------------------------------------

  /** A stored token and its expiry, in seconds. */
  datatype StoredToken = StoredToken(token: string, expiresAt: int)

  /** `timedelta(hours=1)`. */
  const TokenLifetime := 3600

  /** `CSRFProtection`: one token per session. Tokens are opaque inputs
      (the source draws them from `secrets.token_hex`). */
  class CsrfProtection {
    var tokens: map<string, StoredToken>

    constructor()
      ensures tokens == map[]
    {
      tokens := map[];
    }

    /** `generate_token`: stores `token` for the session, replacing any
        earlier one, valid for an hour. */
    method GenerateToken(sessionId: string, token: string, now: int) returns (t: string)
      modifies this
      ensures t == token
      ensures tokens == old(tokens)[sessionId := StoredToken(token, now + TokenLifetime)]
    {
      tokens := tokens[sessionId := StoredToken(token, now + TokenLifetime)];
      t := token;
    }

    /** `validate_token`: a missing session, an expired token (which is
        deleted) and a mismatch are errors; otherwise the token is valid. */
    method ValidateToken(sessionId: string, token: string, now: int) returns (r: Result<()>)
      modifies this
      ensures sessionId !in old(tokens) ==> r == Err("No token found for session") && tokens == old(tokens)
      ensures sessionId in old(tokens) && now > old(tokens)[sessionId].expiresAt ==>
                r == Err("Token expired") && tokens == old(tokens) - {sessionId}
      ensures sessionId in old(tokens) && now <= old(tokens)[sessionId].expiresAt ==>
                tokens == old(tokens) &&
                r == if old(tokens)[sessionId].token == token then Ok(()) else Err("Invalid token")
    {
      if sessionId !in tokens {
        return Err("No token found for session");
      }
      var stored := tokens[sessionId];
      if now > stored.expiresAt {
        tokens := tokens - {sessionId};
        return Err("Token expired");
      }
      if stored.token != token {
        return Err("Invalid token");
      }
      r := Ok(());
    }

    /** `cleanup`: deletes exactly the expired tokens. */
    method Cleanup(now: int)
      modifies this
      ensures forall s :: s in tokens <==> s in old(tokens) && now <= old(tokens)[s].expiresAt
      ensures forall s :: s in tokens ==> tokens[s] == old(tokens)[s]
    {
      var expired := set s | s in tokens && now > tokens[s].expiresAt;
      while expired != {}
        invariant expired <= old(tokens).Keys
        invariant forall s :: s in expired ==> now > old(tokens)[s].expiresAt
        invariant forall s :: s in tokens <==> s in old(tokens) && (now <= old(tokens)[s].expiresAt || s in expired)
        invariant forall s :: s in tokens ==> tokens[s] == old(tokens)[s]
        decreases |expired|
      {
        var s :| s in expired;
        tokens := tokens - {s};
        expired := expired - {s};
      }
    }
  }
}
