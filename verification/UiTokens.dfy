/** The translation of {TOKEN}, as operators write it, into {{TOKEN}}, as the expander reads it. */
module UiTokens {
  import opened Options
  import opened TemplateTokens

  /** The operators' names of tokens and the expander's. */
  type Table = map<string, string>

  const UI_TOKENS: Table := map[
    "EMAIL" := "EMAIL",
    "DATA_USAGE" := "TRAFFIC_USED",
    "DATA_LEFT" := "TRAFFIC_LEFT",
    "DATA_LIMIT" := "TRAFFIC_TOTAL",
    "DAYS_LEFT" := "DAYS_LEFT",
    "EXPIRE_DATE" := "EXPIRE_DATE",
    "JALALI_EXPIRE_DATE" := "JALALI_EXPIRE_DATE",
    "TIME_LEFT" := "TIME_LEFT",
    "STATUS_EMOJI" := "STATUS_EMOJI",
    "USAGE_PERCENTAGE" := "USAGE_PERCENTAGE",
    "PROTOCOL" := "PROTOCOL",
    "TRANSPORT" := "TRANSPORT",
    "SECURITY" := "SECURITY"
  ]

  predicate IsName(s: string) { s != "" && forall k :: 0 <= k < |s| ==> NameChar(s[k]) }

  predicate NamesOnly(ui: Table) { forall t :: t in ui ==> IsName(t) && IsName(ui[t]) }

  lemma UiTokensAreNames()
    ensures NamesOnly(UI_TOKENS)
  {
    FewNames();
    MoreNames();
    forall t | t in UI_TOKENS ensures IsName(t) && IsName(UI_TOKENS[t]) {}
  }

  lemma FewNames()
    ensures IsName("EMAIL") && IsName("DATA_USAGE") && IsName("TRAFFIC_USED") && IsName("DATA_LEFT") && IsName("TRAFFIC_LEFT")
    ensures IsName("DATA_LIMIT") && IsName("TRAFFIC_TOTAL") && IsName("DAYS_LEFT") && IsName("EXPIRE_DATE")
  {
  }

  lemma MoreNames()
    ensures IsName("JALALI_EXPIRE_DATE") && IsName("TIME_LEFT") && IsName("STATUS_EMOJI") && IsName("USAGE_PERCENTAGE")
    ensures IsName("PROTOCOL") && IsName("TRANSPORT") && IsName("SECURITY")
  {
  }

  function Close(s: string, k: nat): (r: nat)
    requires k <= |s|
    ensures k <= r <= |s| && (forall j :: k <= j < r ==> s[j] != '}') && (r < |s| ==> s[r] == '}')
    decreases |s| - k
  {
    if k < |s| && s[k] != '}' then Close(s, k + 1) else k
  }

  /** What a single-brace token at the start of s stands for. */
  function Leading(ui: Table, s: string): Option<string> {
    if s != "" && s[0] == '{' && Close(s, 1) < |s| && s[1..Close(s, 1)] in ui then Some(ui[s[1..Close(s, 1)]]) else None
  }

  /** The translation of text that follows an opening brace or not. */
  function Translated(ui: Table, s: string, afterBrace: bool): string
    decreases |s|
  {
    if s == "" then ""
    else if !afterBrace && Leading(ui, s).Some? then
      "{{" + Leading(ui, s).value + "}}" + Translated(ui, s[Close(s, 1) + 1..], false)
    else [s[0]] + Translated(ui, s[1..], s[0] == '{')
  }

  /** The scan for a single-brace token at position i: its translation and where the text goes on. */
  method Scan(ui: Table, s: string, i: nat) returns (found: Option<string>, next: nat)
    requires i < |s| && s[i] == '{'
    ensures found == Leading(ui, s[i..])
    ensures found.Some? ==> i < next <= |s| && next == i + Close(s[i..], 1) + 1
  {
    found, next := None, i;
    var j := i + 1;
    while j < |s| && s[j] != '}'
      invariant i < j <= |s| && forall k :: i < k < j ==> s[k] != '}'
    {
      j := j + 1;
    }
    CloseIs(s[i..], j - i);
    assert s[i..][1..j - i] == s[i + 1..j];
    if j < |s| && s[i + 1..j] in ui {
      found, next := Some(ui[s[i + 1..j]]), j + 1;
    }
  }

  /** Translating a token at position i, and the text behind it. */
  lemma TokenStep(ui: Table, s: string, i: nat, next: nat)
    requires i < next <= |s| && Leading(ui, s[i..]).Some? && next == i + Close(s[i..], 1) + 1
    ensures Translated(ui, s[i..], false) == "{{" + Leading(ui, s[i..]).value + "}}" + Translated(ui, s[next..], false)
    ensures s[next - 1] == '}'
  {
    var rest := s[i..];
    assert rest[Close(rest, 1) + 1..] == s[next..] && rest[Close(rest, 1)] == s[next - 1];
  }

  /** Translating text that begins with any other character. */
  lemma CharStep(ui: Table, s: string, i: nat, afterBrace: bool)
    requires i < |s| && (afterBrace || Leading(ui, s[i..]).None?)
    ensures Translated(ui, s[i..], afterBrace) == [s[i]] + Translated(ui, s[i + 1..], s[i] == '{')
  {
    assert s[i..][1..] == s[i + 1..];
  }

  method Translate(ui: Table, template: string) returns (r: string)
    ensures r == Translated(ui, template, false)
  {
    r := "";
    var i := 0;
    ghost var all := Translated(ui, template, false);
    assert template[0..] == template;
    while i < |template|
      invariant i <= |template|
      invariant r + Translated(ui, template[i..], i > 0 && template[i - 1] == '{') == all
    {
      var found: Option<string>, next := None, i;
      if template[i] == '{' && (i == 0 || template[i - 1] != '{') {
        found, next := Scan(ui, template, i);
      }
      if found.Some? {
        TokenStep(ui, template, i, next);
        Regroup(r, "{{" + found.value + "}}", Translated(ui, template[next..], false));
        r := r + ("{{" + found.value + "}}");
        i := next;
      } else {
        CharStep(ui, template, i, i > 0 && template[i - 1] == '{');
        Regroup(r, [template[i]], Translated(ui, template[i + 1..], template[i] == '{'));
        r := r + [template[i]];
        i := i + 1;
      }
    }
    assert template[i..] == "" && r + "" == r;
  }

  lemma CloseIs(s: string, j: nat)
    requires 1 <= j <= |s| && (forall k :: 1 <= k < j ==> s[k] != '}') && (j < |s| ==> s[j] == '}')
    ensures Close(s, 1) == j
  {
    var c := Close(s, 1);
    assert c < |s| ==> s[c] == '}';
  }

  // ---------- What a translation is ----------

  /** Text without an opening brace is left alone, and what follows it does not follow a brace. */
  lemma {:induction false} PlainTextStays(ui: Table, x: string, y: string, afterBrace: bool)
    requires x != "" && '{' !in x
    ensures Translated(ui, x + y, afterBrace) == x + Translated(ui, y, false)
  {
    var s := x + y;
    assert s[0] == x[0] && x[0] in x && Leading(ui, s).None?;
    if |x| == 1 {
      assert s[1..] == y;
    } else {
      assert s[1..] == x[1..] + y;
      PlainTextStays(ui, x[1..], y, false);
      Regroup([x[0]], x[1..], Translated(ui, y, false));
      assert [x[0]] + x[1..] == x;
    }
  }

  /** A name the operators may use, in single braces, becomes the expander's name in double ones. */
  lemma KnownTokenIsTranslated(ui: Table, name: string, y: string)
    requires name in ui && '}' !in name
    ensures Translated(ui, "{" + name + "}" + y, false) == "{{" + ui[name] + "}}" + Translated(ui, y, false)
  {
    var s := "{" + name + "}" + y;
    forall k | 1 <= k < |name| + 1 ensures s[k] != '}' { assert s[k] == name[k - 1]; }
    CloseIs(s, |name| + 1);
    assert s[1..|name| + 1] == name && s[|name| + 2..] == y;
  }

  lemma LeadingIsKnown(ui: Table, y: string)
    requires Leading(ui, "{" + y).Some?
    ensures exists k :: 0 <= k < |y| && y[k] == '}' && '}' !in y[..k] && y[..k] in ui
  {
    var s := "{" + y;
    var k := Close(s, 1) - 1;
    assert y[k] == s[k + 1] && y[..k] == s[1..k + 1];
    forall j | 0 <= j < k ensures y[j] != '}' { assert y[j] == s[j + 1]; }
  }

  /** Any other opening brace stays: one behind another, one that no brace closes, and one around anything else. */
  lemma OtherBraceStays(ui: Table, y: string, afterBrace: bool)
    requires afterBrace || forall k :: 0 <= k < |y| && y[k] == '}' && '}' !in y[..k] ==> y[..k] !in ui
    ensures Translated(ui, "{" + y, afterBrace) == "{" + Translated(ui, y, true)
  {
    assert ("{" + y)[1..] == y;
    if !afterBrace && Leading(ui, "{" + y).Some? { LeadingIsKnown(ui, y); }
  }

  // ---------- Translating twice ----------

  /** A brace pair around text, the opening one not preceded by another. */
  predicate Single(s: string, afterBrace: bool, p: nat, q: nat) {
    p < q < |s| && s[p] == '{' && s[q] == '}' && if p == 0 then !afterBrace else s[p - 1] != '{'
  }

  /** The text has no single-brace token left. */
  ghost predicate Settled(ui: Table, s: string, afterBrace: bool) {
    forall p: nat, q: nat :: Single(s, afterBrace, p, q) ==> s[p + 1..q] !in ui
  }

  /** A name up to a closing brace in the translation stood there before, as every translated token begins with a brace. */
  lemma {:induction false} NamesComeFromSource(ui: Table, s: string, afterBrace: bool, q: nat)
    requires q < |Translated(ui, s, afterBrace)| && Translated(ui, s, afterBrace)[q] == '}'
    requires forall k :: 0 <= k < q ==> NameChar(Translated(ui, s, afterBrace)[k])
    ensures q < |s| && forall k :: 0 <= k <= q ==> s[k] == Translated(ui, s, afterBrace)[k]
    decreases |s|
  {
    var u := Translated(ui, s, afterBrace);
    assert u[0] != '{';
    var v := Translated(ui, s[1..], s[0] == '{');
    assert u == [s[0]] + v;
    if q > 0 {
      assert forall k :: 0 <= k < q ==> v[k] == u[k + 1];
      NamesComeFromSource(ui, s[1..], s[0] == '{', q - 1);
    }
  }

  lemma SettledBehindToken(ui: Table, name: string, v: string)
    requires NamesOnly(ui) && IsName(name) && Settled(ui, v, false)
    ensures Settled(ui, "{{" + name + "}}" + v, false)
  {
    var u := "{{" + name + "}}" + v;
    var n := |name| + 4;
    assert forall k :: n <= k < |u| ==> u[k] == v[k - n];
    assert u[1] == '{' && forall k :: 2 <= k < n ==> u[k] != '{';
    forall p: nat, q: nat | Single(u, false, p, q) ensures u[p + 1..q] !in ui {
      if p == 0 {
        assert q > 1 && u[1..q][0] == '{';
      } else {
        assert p >= n && Single(v, false, p - n, q - n);
        assert u[p + 1..q] == v[p - n + 1..q - n];
      }
    }
  }

  lemma SettledBehindChar(ui: Table, s: string, afterBrace: bool)
    requires NamesOnly(ui) && s != "" && (afterBrace || Leading(ui, s).None?)
    requires Settled(ui, Translated(ui, s[1..], s[0] == '{'), s[0] == '{')
    ensures Settled(ui, Translated(ui, s, afterBrace), afterBrace)
  {
    var u, v := Translated(ui, s, afterBrace), Translated(ui, s[1..], s[0] == '{');
    assert u == [s[0]] + v;
    forall p: nat, q: nat | Single(u, afterBrace, p, q) ensures u[p + 1..q] !in ui {
      if p == 0 {
        if u[1..q] in ui { NewToken(ui, s, q); }
      } else {
        assert Single(v, s[0] == '{', p - 1, q - 1);
        assert v == u[1..|u|];
        SliceOfSlice(u, 1, |u|, p, q - 1);
      }
    }
  }

  /** A token that the translation of the rest would complete was a token of the source. */
  lemma NewToken(ui: Table, s: string, q: nat)
    requires NamesOnly(ui) && s != "" && s[0] == '{'
    requires var u := [s[0]] + Translated(ui, s[1..], true); 0 < q < |u| && u[q] == '}' && u[1..q] in ui
    ensures Leading(ui, s).Some?
  {
    var v := Translated(ui, s[1..], true);
    var u := [s[0]] + v;
    assert forall k :: 0 <= k < q ==> v[k] == u[k + 1];
    assert forall k :: 0 <= k < q - 1 ==> u[1..q][k] == v[k];
    NamesComeFromSource(ui, s[1..], true, q - 1);
    assert forall k :: 0 <= k < q ==> s[k + 1] == s[1..][k] == v[k];
    CloseIs(s, q);
    assert s[1..q] == u[1..q];
  }

  /** After a translation nothing is left to translate. */
  lemma {:induction false} TranslationSettles(ui: Table, s: string, afterBrace: bool)
    requires NamesOnly(ui)
    ensures Settled(ui, Translated(ui, s, afterBrace), afterBrace)
    decreases |s|
  {
    if s != "" {
      if !afterBrace && Leading(ui, s).Some? {
        var rest := s[Close(s, 1) + 1..];
        TranslationSettles(ui, rest, false);
        SettledBehindToken(ui, Leading(ui, s).value, Translated(ui, rest, false));
      } else {
        TranslationSettles(ui, s[1..], s[0] == '{');
        SettledBehindChar(ui, s, afterBrace);
      }
    }
  }

  lemma SettledTail(ui: Table, s: string, afterBrace: bool)
    requires s != "" && Settled(ui, s, afterBrace)
    ensures Settled(ui, s[1..], s[0] == '{')
  {
    var u, after := s[1..], s[0] == '{';
    forall p: nat, q: nat | Single(u, after, p, q) ensures u[p + 1..q] !in ui {
      assert Single(s, afterBrace, p + 1, q + 1);
      assert u == s[1..|s|];
      SliceOfSlice(s, 1, |s|, p + 1, q);
    }
  }

  lemma SettledHasNoLeading(ui: Table, s: string, afterBrace: bool)
    requires s != "" && Settled(ui, s, afterBrace)
    ensures afterBrace || Leading(ui, s).None?
  {
    if !afterBrace && s[0] == '{' && Close(s, 1) < |s| { assert Single(s, afterBrace, 0, Close(s, 1)); }
  }

  lemma FirstCharStays(ui: Table, s: string, afterBrace: bool, rest: string)
    requires s != "" && (afterBrace || Leading(ui, s).None?) && rest == Translated(ui, s[1..], s[0] == '{')
    ensures Translated(ui, s, afterBrace) == [s[0]] + rest
  {
  }

  /** Text is its own translation when no single-brace token is left in it. */
  lemma {:induction false} SettledIsFixed(ui: Table, s: string, afterBrace: bool)
    requires NamesOnly(ui) && Settled(ui, s, afterBrace)
    ensures Translated(ui, s, afterBrace) == s
    decreases |s|
  {
    if s != "" {
      SettledTail(ui, s, afterBrace);
      SettledIsFixed(ui, s[1..], s[0] == '{');
      SettledHasNoLeading(ui, s, afterBrace);
      FirstCharStays(ui, s, afterBrace, s[1..]);
    }
  }

  /** Translating twice is translating once. */
  lemma TranslationIsIdempotent(ui: Table, s: string)
    requires NamesOnly(ui)
    ensures Translated(ui, Translated(ui, s, false), false) == Translated(ui, s, false)
  {
    TranslationSettles(ui, s, false);
    SettledIsFixed(ui, Translated(ui, s, false), false);
  }

  // ---------- Cutting and joining settled text ----------

  /** A cut at a does not free an opening brace from the one before it. */
  predicate SafeCut(s: string, a: nat)
    requires a <= |s|
  {
    a == 0 || s[a - 1] != '{' || (a + 1 < |s| && s[a] == '{' && s[a + 1] == '{')
  }

  lemma SettledSlice(ui: Table, s: string, a: nat, b: nat)
    requires NamesOnly(ui) && Settled(ui, s, false) && a <= b <= |s| && SafeCut(s, a)
    ensures Settled(ui, s[a..b], false)
  {
    var u := s[a..b];
    forall p: nat, q: nat | Single(u, false, p, q) ensures u[p + 1..q] !in ui {
      SliceOfSlice(s, a, b, p + 1, q);
      if p > 0 || a == 0 || s[a - 1] != '{' {
        assert p > 0 ==> s[a + p - 1] == u[p - 1];
        assert Single(s, false, a + p, a + q);
      } else {
        assert u[1] == '{' && q > 1 && u[1..q][0] == '{';
      }
    }
  }

  lemma SettledAround(ui: Table, x: string, c: char, y: string)
    requires NamesOnly(ui) && Settled(ui, x, false) && Settled(ui, y, false) && !TokenChar(c)
    ensures Settled(ui, x + [c] + y, false)
  {
    var u := x + [c] + y;
    var m := |x|;
    forall p: nat, q: nat | Single(u, false, p, q) ensures u[p + 1..q] !in ui {
      if q < m {
        assert Single(x, false, p, q) && u[p + 1..q] == x[p + 1..q];
      } else if p > m {
        assert p > m + 1 ==> u[p - 1] == y[p - m - 2];
        assert Single(y, false, p - m - 1, q - m - 1) && u[p + 1..q] == y[p - m..q - m - 1];
      } else {
        assert p < m < q && u[p + 1..q][m - p - 1] == c;
      }
    }
  }
}
