/**
 * The styling strings `ABuildingEnergyDisplay` builds from its colour cache for the
 * buildings tileset, written in the 3D Tiles Styling language of the OGC 3D Tiles
 * specification, and the `#RRGGBB` colour validation.
 */
module CesiumStyle {
  import opened Wrappers
  import opened UnrealString
  import opened CaseInsensitiveMap

  /** `FLinearColor`; the alpha channel is always 1 in this code and is not kept. */
  datatype LinearColor = LinearColor(r: real, g: real, b: real)

  type ColorCache = CIMap<LinearColor>

  // ---------------------------------------------------------------------
  // JSON string escaping
  // ---------------------------------------------------------------------

  /**
   * The `JsonEscape` lambda: five `ReplaceInline` calls in a fixed order, backslash first,
   * then quote, newline, carriage return and tab.
   */
  function JsonEscape(s: string): string
  {
    var a := Replace(s, "\\", "\\\\");
    var b := Replace(a, "\"", "\\\"");
    var c := Replace(b, "\n", "\\n");
    var d := Replace(c, "\r", "\\r");
    Replace(d, "\t", "\\t")
  }

  /** The escape of one character (the reference definition). */
  function EscapeChar(c: char): string
  {
    if c == '\\' then "\\\\"
    else if c == '"' then "\\\""
    else if c == '\n' then "\\n"
    else if c == '\r' then "\\r"
    else if c == '\t' then "\\t"
    else [c]
  }

  /** Every character replaced by its escape. */
  function EscapeChars(s: string): string
  {
    if |s| == 0 then [] else EscapeChar(s[0]) + EscapeChars(s[1..])
  }

  lemma JsonEscapeAppend(x: string, y: string)
    ensures JsonEscape(x + y) == JsonEscape(x) + JsonEscape(y)
  {
    var a1, a2 := Replace(x, "\\", "\\\\"), Replace(y, "\\", "\\\\");
    ReplaceCharAppend(x, y, '\\', "\\\\");
    var b1, b2 := Replace(a1, "\"", "\\\""), Replace(a2, "\"", "\\\"");
    ReplaceCharAppend(a1, a2, '"', "\\\"");
    var c1, c2 := Replace(b1, "\n", "\\n"), Replace(b2, "\n", "\\n");
    ReplaceCharAppend(b1, b2, '\n', "\\n");
    var d1, d2 := Replace(c1, "\r", "\\r"), Replace(c2, "\r", "\\r");
    ReplaceCharAppend(c1, c2, '\r', "\\r");
    ReplaceCharAppend(d1, d2, '\t', "\\t");
  }

  /** One `ReplaceInline` step applied to the one or two characters a single character has become. */
  lemma StepOn(s: string, c: char, t: string)
    requires 1 <= |s| <= 2
    requires !('A' <= c <= 'Z') && !('a' <= c <= 'z')
    ensures |s| == 1 ==> Replace(s, [c], t) == if s[0] == c then t else s
    ensures |s| == 2 ==> (Replace(s, [c], t) ==
      (if s[0] == c then t else [s[0]]) + (if s[1] == c then t else [s[1]]))
  {
    ReplaceCharIsEach(s, c, t);
    FoldCharNonLetter(s[0], c);
    if |s| == 2 {
      FoldCharNonLetter(s[1], c);
      assert s[1..][1..] == [];
    } else {
      assert s[1..] == [];
    }
  }

  /** The four steps after the first, applied to a text holding none of their characters. */
  lemma LaterStepsKeep(s: string, from: nat)
    requires 1 <= |s| <= 2 && 1 <= from <= 4
    requires forall i :: 0 <= i < |s| ==> s[i] != '\n' && s[i] != '\r' && s[i] != '\t'
    requires from <= 1 ==> forall i :: 0 <= i < |s| ==> s[i] != '"'
    ensures from <= 1 ==> Replace(s, "\"", "\\\"") == s
    ensures from <= 2 ==> Replace(s, "\n", "\\n") == s
    ensures from <= 3 ==> Replace(s, "\r", "\\r") == s
    ensures Replace(s, "\t", "\\t") == s
  {
    if from <= 1 {
      StepKeeps(s, '"', "\\\"");
    }
    StepKeeps(s, '\n', "\\n");
    StepKeeps(s, '\r', "\\r");
    StepKeeps(s, '\t', "\\t");
  }

  /** A step leaves a text holding none of its character unchanged. */
  lemma StepKeeps(s: string, c: char, t: string)
    requires 1 <= |s| <= 2
    requires !('A' <= c <= 'Z') && !('a' <= c <= 'z')
    requires forall i :: 0 <= i < |s| ==> s[i] != c
    ensures Replace(s, [c], t) == s
  {
    StepOn(s, c, t);
    if |s| == 2 {
      assert s == [s[0]] + [s[1]];
    }
  }

  lemma JsonEscapeChar(x: char)
    ensures JsonEscape([x]) == EscapeChar(x)
  {
    var a := Replace([x], "\\", "\\\\");
    StepOn([x], '\\', "\\\\");
    if x == '\\' {
      assert a == "\\\\";
      LaterStepsKeep(a, 1);
    } else {
      assert a == [x];
      var b := Replace(a, "\"", "\\\"");
      StepOn(a, '"', "\\\"");
      if x == '"' {
        LaterStepsKeep(b, 2);
      } else {
        var c := Replace(b, "\n", "\\n");
        StepOn(b, '\n', "\\n");
        if x == '\n' {
          LaterStepsKeep(c, 3);
        } else {
          var d := Replace(c, "\r", "\\r");
          StepOn(c, '\r', "\\r");
          if x == '\r' {
            LaterStepsKeep(d, 4);
          } else {
            StepOn(d, '\t', "\\t");
          }
        }
      }
    }
  }

  /** `JsonEscape` escapes each character on its own: no step rewrites what an earlier step inserted. */
  lemma {:induction false} JsonEscapeIsCharwise(s: string)
    ensures JsonEscape(s) == EscapeChars(s)
    decreases |s|
  {
    if |s| == 0 {
      assert Replace(s, "\\", "\\\\") == s;
    } else {
      assert s == [s[0]] + s[1..];
      JsonEscapeAppend([s[0]], s[1..]);
      JsonEscapeChar(s[0]);
      JsonEscapeIsCharwise(s[1..]);
    }
  }

  /** Characters JSON does not allow raw inside a string: controls below U+0020. */
  predicate IsControl(c: char) { c < ' ' }

  /** Control characters other than newline, carriage return and tab, which `JsonEscape` leaves raw. */
  predicate IsUnescapedControl(c: char) { IsControl(c) && c != '\n' && c != '\r' && c != '\t' }

  /**
   * Decoding the contents of a JSON string (section 7 of RFC 8259) for the escapes other
   * than `\u`: `None` for a raw quote, a raw control character, or an unknown escape.
   */
  function JsonUnescape(s: string): Option<string>
  {
    if |s| == 0 then Some([])
    else if s[0] == '"' || IsControl(s[0]) then None
    else if s[0] != '\\' then
      match JsonUnescape(s[1..])
      case None => None
      case Some(rest) => Some([s[0]] + rest)
    else if |s| < 2 then None
    else
      var d :=
        if s[1] == '\\' then Some('\\') else if s[1] == '"' then Some('"')
        else if s[1] == '/' then Some('/') else if s[1] == 'b' then Some('\U{0008}')
        else if s[1] == 'f' then Some('\U{000C}') else if s[1] == 'n' then Some('\n')
        else if s[1] == 'r' then Some('\r') else if s[1] == 't' then Some('\t')
        else None;
      match d
      case None => None
      case Some(c) =>
        match JsonUnescape(s[2..])
        case None => None
        case Some(rest) => Some([c] + rest)
  }

  /** Decoding one escaped character followed by more text. */
  lemma UnescapeCons(c: char, t: string)
    requires !IsUnescapedControl(c)
    ensures JsonUnescape(EscapeChar(c) + t) ==
      match JsonUnescape(t) case None => None case Some(r) => Some([c] + r)
  {
    var h := EscapeChar(c);
    var e := h + t;
    if |h| == 1 {
      assert e[0] == c && e[1..] == t;
    } else {
      assert e[0] == '\\' && e[1] == h[1] && e[2..] == t;
    }
  }

  /** Decoding the character-wise escape of text without raw control characters gives the text back. */
  lemma {:induction false} UnescapeEscapeChars(s: string)
    requires forall i :: 0 <= i < |s| ==> !IsUnescapedControl(s[i])
    ensures JsonUnescape(EscapeChars(s)) == Some(s)
    decreases |s|
  {
    if |s| > 0 {
      UnescapeEscapeChars(s[1..]);
      UnescapeCons(s[0], EscapeChars(s[1..]));
      assert s == [s[0]] + s[1..];
    }
  }

  /** Decoding an escaped string gives the string back, unless it holds a control character that stays raw. */
  lemma JsonEscapeRoundTrip(s: string)
    requires forall i :: 0 <= i < |s| ==> !IsUnescapedControl(s[i])
    ensures JsonUnescape(JsonEscape(s)) == Some(s)
  {
    JsonEscapeIsCharwise(s);
    UnescapeEscapeChars(s);
  }

  /** A control character such as U+0001 passes through unescaped, which JSON does not allow. */
  lemma ControlCharactersStayRaw()
    ensures JsonEscape("\U{0001}") == "\U{0001}"
    ensures JsonUnescape(JsonEscape("\U{0001}")).None?
  {
    JsonEscapeIsCharwise("\U{0001}");
    assert "\U{0001}"[1..] == [];
  }

  // ---------------------------------------------------------------------
  // Decimal numbers
  // ---------------------------------------------------------------------

  function DigitChar(d: nat): char
    requires d < 10
  {
    ('0' as int + d) as char
  }

  /** `%d` of a non-negative integer. */
  function NatToString(n: nat): (s: string)
    ensures |s| > 0 && forall i :: 0 <= i < |s| ==> '0' <= s[i] <= '9'
    decreases n
  {
    if n < 10 then [DigitChar(n)] else NatToString(n / 10) + [DigitChar(n % 10)]
  }

  /** The value of a string of decimal digits. */
  function DecimalValue(s: string): nat
    requires forall i :: 0 <= i < |s| ==> '0' <= s[i] <= '9'
  {
    if |s| == 0 then 0 else DecimalValue(s[..|s| - 1]) * 10 + (s[|s| - 1] as int - '0' as int)
  }

  lemma {:induction false} NatToStringRoundTrip(n: nat)
    ensures DecimalValue(NatToString(n)) == n
    decreases n
  {
    var s := NatToString(n);
    if n >= 10 {
      NatToStringRoundTrip(n / 10);
      assert s[..|s| - 1] == NatToString(n / 10);
    } else {
      assert s[..0] == [];
    }
  }

  // ---------------------------------------------------------------------
  // The conditions style
  // ---------------------------------------------------------------------

  /** `Clamp(RoundToInt(c * 255), 0, 255)`, with `RoundToInt(x)` = floor of x + 0.5. */
  function Channel(c: real): (v: nat)
    ensures v <= 255
    ensures 0.0 <= c <= 1.0 ==> (v as real) <= c * 255.0 + 0.5 < (v as real) + 1.0
  {
    var x := (c * 255.0 + 0.5).Floor;
    if x < 0 then 0 else if x > 255 then 255 else x
  }

  /** `rgba(%d,%d,%d,%.3f)` with alpha 1. */
  function ColorExpr(c: LinearColor): string
  {
    "rgba(" + NatToString(Channel(c.r)) + "," + NatToString(Channel(c.g)) + ","
      + NatToString(Channel(c.b)) + ",1.000)"
  }

  /** The condition comparing a feature's `gml:id` with an escaped cache key. */
  function Cond(key: string): string
  {
    CondOpen + JsonEscape(key) + "\""
  }

  const CondOpen := "${feature['gml:id']} === \""

  /** One `[condition, colour]` pair, both escaped again as JSON strings. */
  function Rule(key: string, c: LinearColor): string
  {
    "[\"" + JsonEscape(Cond(key)) + "\",\"" + JsonEscape(ColorExpr(c)) + "\"]"
  }

  const StyleHeader := "{\"color\":{\"conditions\":["
  const StyleFallback := "[\"true\",\"rgba(255,255,255,1.0)\"]"
  const StyleFooter := "]}}"

  /** The entries that get a rule: those with a non-empty key, in map order. */
  function RuleEntries(cache: ColorCache): ColorCache
  {
    if |cache| == 0 then []
    else
      var last := cache[|cache| - 1];
      RuleEntries(cache[..|cache| - 1]) + (if |last.0| == 0 then [] else [last])
  }

  /** The rules of `entries`, comma-separated. */
  function RenderRules(entries: ColorCache): string
  {
    if |entries| == 0 then ""
    else if |entries| == 1 then Rule(entries[0].0, entries[0].1)
    else RenderRules(entries[..|entries| - 1]) + "," + Rule(entries[|entries| - 1].0, entries[|entries| - 1].1)
  }

  /** The style document: header, the rules, the catch-all white rule, footer. */
  function StyleJson(cache: ColorCache): string
  {
    var entries := RuleEntries(cache);
    StyleHeader + RenderRules(entries) + (if |entries| > 0 then "," else "") + StyleFallback + StyleFooter
  }

  /** The entries with a rule are exactly the entries with a non-empty key. */
  lemma {:induction false} RuleEntriesMembers(cache: ColorCache, e: (string, LinearColor))
    ensures e in RuleEntries(cache) <==> e in cache && |e.0| > 0
  {
    if |cache| > 0 {
      var p := cache[..|cache| - 1];
      RuleEntriesMembers(p, e);
      assert cache == p + [cache[|cache| - 1]];
    }
  }

  /** The number of rules is the number of non-empty keys. */
  function NonEmptyKeys(cache: ColorCache): nat
  {
    if |cache| == 0 then 0
    else NonEmptyKeys(cache[..|cache| - 1]) + (if |cache[|cache| - 1].0| == 0 then 0 else 1)
  }

  lemma {:induction false} RuleEntriesCount(cache: ColorCache)
    ensures |RuleEntries(cache)| == NonEmptyKeys(cache)
  {
    if |cache| > 0 {
      RuleEntriesCount(cache[..|cache| - 1]);
    }
  }

  /** The document always opens with the conditions header and closes with the white catch-all rule. */
  lemma StyleJsonFrame(cache: ColorCache)
    ensures |StyleJson(cache)| >= |StyleHeader| + |StyleFallback| + |StyleFooter|
    ensures StyleJson(cache)[..|StyleHeader|] == StyleHeader
    ensures StyleJson(cache)[|StyleJson(cache)| - |StyleFallback + StyleFooter|..] == StyleFallback + StyleFooter
  {
    var entries := RuleEntries(cache);
    var rules, comma := RenderRules(entries), if |entries| > 0 then "," else "";
    assert StyleJson(cache) == StyleHeader + rules + comma + StyleFallback + StyleFooter;
    Framed(StyleHeader, rules, comma, StyleFallback, StyleFooter);
  }

  /** A document made of a header, two middle parts and two closing parts starts and ends with them. */
  lemma Framed(h: string, r: string, c: string, f: string, t: string)
    ensures |h + r + c + f + t| >= |h| + |f| + |t|
    ensures (h + r + c + f + t)[..|h|] == h
    ensures (h + r + c + f + t)[|h + r + c + f + t| - |f + t|..] == f + t
  {
    assert h + r + c + f + t == h + (r + c) + (f + t);
  }

  /** With an empty cache the document holds the catch-all rule alone. */
  lemma StyleJsonEmpty()
    ensures StyleJson([]) == StyleHeader + StyleFallback + StyleFooter
  {
  }

  /**
   * Inside a rule, the condition decodes to the condition text, and the quoted id inside
   * the condition decodes to the cache key, so the double escaping is undone in two steps.
   */
  lemma RuleDecodes(key: string)
    requires forall i :: 0 <= i < |key| ==> !IsUnescapedControl(key[i])
    ensures JsonUnescape(JsonEscape(Cond(key))) == Some(Cond(key))
    ensures JsonUnescape(JsonEscape(key)) == Some(key)
  {
    JsonEscapeRoundTrip(key);
    JsonEscapeIsCharwise(key);
    EscapeCharsNoControl(key);
    CondOpenNoControl();
    NoControlAppend(CondOpen, JsonEscape(key));
    NoControlAppend(CondOpen + JsonEscape(key), "\"");
    JsonEscapeRoundTrip(Cond(key));
  }

  lemma CondOpenNoControl()
    ensures forall i :: 0 <= i < |CondOpen| ==> !IsUnescapedControl(CondOpen[i])
    ensures forall i :: 0 <= i < |"\""| ==> !IsUnescapedControl("\""[i])
  {
  }

  lemma NoControlAppend(a: string, b: string)
    requires forall i :: 0 <= i < |a| ==> !IsUnescapedControl(a[i])
    requires forall i :: 0 <= i < |b| ==> !IsUnescapedControl(b[i])
    ensures forall i :: 0 <= i < |a + b| ==> !IsUnescapedControl((a + b)[i])
  {
    forall i | 0 <= i < |a + b| ensures !IsUnescapedControl((a + b)[i]) {
      if i >= |a| {
        assert (a + b)[i] == b[i - |a|];
      }
    }
  }

  lemma {:induction false} EscapeCharsNoControl(s: string)
    requires forall i :: 0 <= i < |s| ==> !IsUnescapedControl(s[i])
    ensures forall i :: 0 <= i < |EscapeChars(s)| ==> !IsUnescapedControl(EscapeChars(s)[i])
    decreases |s|
  {
    if |s| > 0 {
      EscapeCharsNoControl(s[1..]);
      var h, t := EscapeChar(s[0]), EscapeChars(s[1..]);
      assert EscapeChars(s) == h + t;
      forall i | 0 <= i < |h + t| ensures !IsUnescapedControl((h + t)[i]) {
        if i >= |h| {
          assert (h + t)[i] == t[i - |h|];
        }
      }
    }
  }

  lemma AppendAssoc(a: string, b: string, c: string, d: string)
    ensures a + b + c + d == a + (b + c + d)
  {
  }

  lemma AppendEmpty(a: string)
    ensures a + "" == a
  {
  }

  lemma RenderRulesSnoc(entries: ColorCache, e: (string, LinearColor))
    ensures RenderRules(entries + [e]) ==
      if |entries| == 0 then Rule(e.0, e.1) else RenderRules(entries) + "," + Rule(e.0, e.1)
  {
    assert (entries + [e])[..|entries|] == entries;
  }

  lemma RuleEntriesSnoc(cache: ColorCache, i: nat)
    requires i < |cache|
    ensures RuleEntries(cache[..i + 1]) ==
      RuleEntries(cache[..i]) + (if |cache[i].0| == 0 then [] else [cache[i]])
  {
    assert cache[..i + 1][..i] == cache[..i];
  }

  /** `BuildCesiumStyleJsonFromCache`: appends one rule per non-empty key, comma-separated. */
  method BuildCesiumStyleJsonFromCache(cache: ColorCache) returns (style: string)
    ensures style == StyleJson(cache)
  {
    style := StyleHeader;
    var first := true;
    var i := 0;
    assert cache[..0] == [];
    AppendEmpty(StyleHeader);
    while i < |cache|
      invariant 0 <= i <= |cache|
      invariant first <==> |RuleEntries(cache[..i])| == 0
      invariant style == StyleHeader + RenderRules(RuleEntries(cache[..i]))
    {
      RuleEntriesSnoc(cache, i);
      var key := cache[i].0;
      if |key| == 0 {
        assert RuleEntries(cache[..i + 1]) == RuleEntries(cache[..i]);
        i := i + 1;
        continue;
      }
      var c := cache[i].1;
      var done := RuleEntries(cache[..i]);
      RenderRulesSnoc(done, cache[i]);
      if !first {
        style := style + ",";
        AppendAssoc(StyleHeader, RenderRules(done), ",", Rule(key, c));
      } else {
        AppendEmpty(StyleHeader);
      }
      first := false;
      style := style + Rule(key, c);
      assert RuleEntries(cache[..i + 1]) == done + [cache[i]];
      assert style == StyleHeader + RenderRules(done + [cache[i]]);
      i := i + 1;
    }
    assert cache[..|cache|] == cache;
    if !first {
      style := style + ",";
    } else {
      AppendEmpty(style);
    }
    style := style + StyleFallback;
    style := style + StyleFooter;
  }

  // ---------------------------------------------------------------------
  // The match expression
  // ---------------------------------------------------------------------

  const DefaultGreenHex := "#66b032"
  const MatchHeader := "{\"color\": [\"match\", [\"get\", \"gml:id\"], "
  const MatchFooter := "\"#66b032\" ] }"
  const MatchLimit := 4000

  /** One `"ID", "#HEX", ` entry; the id is not escaped. */
  function MatchEntry(key: string, hex: string): string
  {
    "\"" + key + "\", \"" + hex + "\", "
  }

  /** All entries, in map order, with the colour formatted by `hexOf`. */
  function AllEntries(cache: ColorCache, hexOf: LinearColor -> string): string
  {
    if |cache| == 0 then "" else MatchEntry(cache[0].0, hexOf(cache[0].1)) + AllEntries(cache[1..], hexOf)
  }

  /** Appending the entries to `acc`, stopping right after the first append that exceeds the limit. */
  function MatchEntries(acc: string, cache: ColorCache, hexOf: LinearColor -> string): string
    decreases |cache|
  {
    if |cache| == 0 then acc
    else
      var e := acc + MatchEntry(cache[0].0, hexOf(cache[0].1));
      if |e| > MatchLimit then e else MatchEntries(e, cache[1..], hexOf)
  }

  function ColorExpression(cache: ColorCache, hexOf: LinearColor -> string): string
  {
    if |cache| == 0 then "color('#66b032')"
    else MatchEntries(MatchHeader, cache, hexOf) + MatchFooter
  }

  /** The stop cuts only between entries: the result is `acc`, then a prefix of the entries, ending at an entry. */
  lemma {:induction false} MatchEntriesIsPrefix(acc: string, cache: ColorCache, hexOf: LinearColor -> string)
    ensures |acc| <= |MatchEntries(acc, cache, hexOf)| <= |acc + AllEntries(cache, hexOf)|
    ensures MatchEntries(acc, cache, hexOf) == (acc + AllEntries(cache, hexOf))[..|MatchEntries(acc, cache, hexOf)|]
    decreases |cache|
  {
    if |cache| > 0 {
      var e := acc + MatchEntry(cache[0].0, hexOf(cache[0].1));
      assert acc + AllEntries(cache, hexOf) == e + AllEntries(cache[1..], hexOf);
      if |e| <= MatchLimit {
        MatchEntriesIsPrefix(e, cache[1..], hexOf);
      }
    }
  }

  /** While everything fits within the limit, every entry is present. */
  lemma {:induction false} MatchEntriesComplete(acc: string, cache: ColorCache, hexOf: LinearColor -> string)
    requires |acc + AllEntries(cache, hexOf)| <= MatchLimit
    ensures MatchEntries(acc, cache, hexOf) == acc + AllEntries(cache, hexOf)
    decreases |cache|
  {
    if |cache| > 0 {
      var e := acc + MatchEntry(cache[0].0, hexOf(cache[0].1));
      assert acc + AllEntries(cache, hexOf) == e + AllEntries(cache[1..], hexOf);
      MatchEntriesComplete(e, cache[1..], hexOf);
    }
  }

  /** The entries never run past the limit by more than one entry. */
  lemma {:induction false} MatchEntriesBound(acc: string, cache: ColorCache, hexOf: LinearColor -> string, m: nat)
    requires |acc| <= MatchLimit
    requires forall i :: 0 <= i < |cache| ==> |MatchEntry(cache[i].0, hexOf(cache[i].1))| <= m
    ensures |MatchEntries(acc, cache, hexOf)| <= MatchLimit + m
    decreases |cache|
  {
    if |cache| > 0 {
      var e := acc + MatchEntry(cache[0].0, hexOf(cache[0].1));
      if |e| <= MatchLimit {
        assert forall i :: 0 <= i < |cache[1..]| ==> cache[1..][i] == cache[i + 1];
        MatchEntriesBound(e, cache[1..], hexOf, m);
      }
    }
  }

  /** `CreateCesiumColorExpression`. */
  method CreateCesiumColorExpression(cache: ColorCache, hexOf: LinearColor -> string) returns (expr: string)
    ensures expr == ColorExpression(cache, hexOf)
  {
    if |cache| == 0 {
      return "color('#66b032')";
    }
    expr := MatchHeader;
    var i := 0;
    while i < |cache|
      invariant 0 <= i <= |cache|
      invariant |expr| <= MatchLimit
      invariant MatchEntries(expr, cache[i..], hexOf) == MatchEntries(MatchHeader, cache, hexOf)
    {
      assert cache[i..][1..] == cache[i + 1..];
      expr := expr + MatchEntry(cache[i].0, hexOf(cache[i].1));
      i := i + 1;
      if |expr| > MatchLimit {
        break;
      }
    }
    expr := expr + MatchFooter;
  }

  // ---------------------------------------------------------------------
  // Hex colours
  // ---------------------------------------------------------------------

  predicate IsHexDigit(c: char)
  {
    ('0' <= c <= '9') || ('A' <= c <= 'F') || ('a' <= c <= 'f')
  }

  function HexValue(c: char): nat
    requires IsHexDigit(c)
  {
    if '0' <= c <= '9' then c as int - '0' as int
    else if 'A' <= c <= 'F' then c as int - 'A' as int + 10
    else c as int - 'a' as int + 10
  }

  /** The text with every '#' removed. */
  function WithoutHash(s: string): string
  {
    if |s| == 0 then [] else (if s[0] == '#' then [] else [s[0]]) + WithoutHash(s[1..])
  }

  /** `Replace("#", "")` removes every '#' and nothing else. */
  lemma {:induction false} RemoveHashIsFilter(s: string)
    ensures Replace(s, "#", "") == WithoutHash(s)
    decreases |s|
  {
    ReplaceCharIsEach(s, '#', "");
    ReplaceEachHash(s);
  }

  lemma {:induction false} ReplaceEachHash(s: string)
    ensures ReplaceEach(s, '#', "") == WithoutHash(s)
    decreases |s|
  {
    if |s| > 0 {
      FoldCharNonLetter(s[0], '#');
      ReplaceEachHash(s[1..]);
    }
  }

  /** The result of the validation half of `ConvertHexToLinearColor`. */
  datatype HexResult = Parsed(r: nat, g: nat, b: nat) | Fallback

  function ByteAt(s: string, k: nat): nat
    requires 2 * k + 1 < |s| && IsHexDigit(s[2 * k]) && IsHexDigit(s[2 * k + 1])
  {
    HexValue(s[2 * k]) * 16 + HexValue(s[2 * k + 1])
  }

  /** Exactly six hex digits must remain once every '#' is removed. */
  function HexParse(hex: string): (res: HexResult)
    ensures res.Parsed? <==>
      |WithoutHash(hex)| == 6 && forall i :: 0 <= i < 6 ==> IsHexDigit(WithoutHash(hex)[i])
    ensures res.Parsed? ==> res.r < 256 && res.g < 256 && res.b < 256
  {
    RemoveHashIsFilter(hex);
    var clean := Replace(hex, "#", "");
    if |clean| == 6 && forall i :: 0 <= i < 6 ==> IsHexDigit(clean[i]) then
      Parsed(ByteAt(clean, 0), ByteAt(clean, 1), ByteAt(clean, 2))
    else Fallback
  }

  /** The fixed fallback colour; it is not the conversion of "#66b032". */
  const FallbackColor := LinearColor(0.4, 0.69, 0.2)

  /** The colour `ConvertHexToLinearColor` returns, given the sRGB-to-linear conversion. */
  function LinearOfHex(hex: string, srgb: (nat, nat, nat) -> LinearColor): LinearColor
  {
    match HexParse(hex)
    case Parsed(r, g, b) => srgb(r, g, b)
    case Fallback => FallbackColor
  }

  /** `ConvertHexToLinearColor`: removes '#', checks the length, then checks every character. */
  method ConvertHexToLinearColor(hex: string, srgb: (nat, nat, nat) -> LinearColor) returns (color: LinearColor)
    ensures color == LinearOfHex(hex, srgb)
  {
    var clean := Replace(hex, "#", "");
    if |clean| != 6 {
      return FallbackColor;
    }
    var i := 0;
    while i < |clean|
      invariant 0 <= i <= |clean|
      invariant forall j :: 0 <= j < i ==> IsHexDigit(clean[j])
    {
      if !IsHexDigit(clean[i]) {
        return FallbackColor;
      }
      i := i + 1;
    }
    color := srgb(ByteAt(clean, 0), ByteAt(clean, 1), ByteAt(clean, 2));
  }

  /** The six digits of the default green are hex digits worth 102, 176 and 50. */
  lemma GreenDigits()
    ensures |"66b032"| == 6 && forall i :: 0 <= i < 6 ==> IsHexDigit("66b032"[i])
    ensures ByteAt("66b032", 0) == 102 && ByteAt("66b032", 1) == 176 && ByteAt("66b032", 2) == 50
  {
    var clean := "66b032";
    assert IsHexDigit(clean[0]) && IsHexDigit(clean[1]) && IsHexDigit(clean[2]);
    assert IsHexDigit(clean[3]) && IsHexDigit(clean[4]) && IsHexDigit(clean[5]);
  }

  /** Any text that is "66b032" once its '#' are removed parses to the default green. */
  lemma ParsesToGreen(hex: string)
    requires WithoutHash(hex) == "66b032"
    ensures HexParse(hex) == Parsed(102, 176, 50)
  {
    RemoveHashIsFilter(hex);
    GreenDigits();
  }

  /** The default green parses to (102, 176, 50). */
  lemma HexDefaultGreen()
    ensures HexParse("#66b032") == Parsed(102, 176, 50)
  {
    assert WithoutHash("#66b032") == "66b032";
    ParsesToGreen("#66b032");
  }

  /** A '#' anywhere is removed, not only in front. */
  lemma HexHashInside()
    ensures HexParse("66b0#32") == Parsed(102, 176, 50)
  {
    assert WithoutHash("66b0#32") == "66b032";
    ParsesToGreen("66b0#32");
  }

  /** Five digits, or a non-hex character, fall back. */
  lemma HexRejected()
    ensures HexParse("#66b03") == Fallback
    ensures HexParse("#66b03g") == Fallback
  {
    assert |WithoutHash("#66b03")| == 5;
    assert WithoutHash("#66b03g") == "66b03g";
    assert !IsHexDigit(WithoutHash("#66b03g")[5]);
  }

  /** On a rejected input the result is the constant, whatever the colour conversion. */
  lemma FallbackIgnoresConversion(hex: string, srgb1: (nat, nat, nat) -> LinearColor,
                                  srgb2: (nat, nat, nat) -> LinearColor)
    requires HexParse(hex) == Fallback
    ensures LinearOfHex(hex, srgb1) == LinearOfHex(hex, srgb2) == FallbackColor
  {
  }
}
