/** SimpleTemplateEngine: every `{{key}}` token is replaced, entry by entry,
    with the entry's value, using Java's `String.replace` (literal,
    left-to-right, non-overlapping, replace every occurrence).
 */
module Template {
  import opened Wrappers

  /** One entry of the variables map; values are already in their string form. */
  datatype Entry = Entry(key: string, value: string)

  /** The variables map, in its iteration order. */
  type Vars = seq<Entry>

  /** The placeholder text searched for a key. */
  function Token(key: string): (t: string)
    ensures |t| == |key| + 4
    ensures t[..2] == "{{" && t[|t| - 2..] == "}}" && t[2..|t| - 2] == key
  {
    "{{" + key + "}}"
  }

  /** `pat` occurs in `s` starting at index `i`. */
  predicate MatchAt(s: string, i: int, pat: string) {
    0 <= i <= |s| && pat <= s[i..]
  }

  /** Java `s.replace(pat, rep)` for a non-empty target: scan left to right,
      and whenever `pat` starts at the current position emit `rep` and skip
      past the whole occurrence. */
  function ReplaceAll(s: string, pat: string, rep: string): (r: string)
    requires |pat| > 0
    ensures |pat| == |rep| ==> |r| == |s|
    decreases |s|
  {
    if |s| == 0 then []
    else if pat <= s then rep + ReplaceAll(s[|pat|..], pat, rep)
    else [s[0]] + ReplaceAll(s[1..], pat, rep)
  }

  /** Every value is exactly as long as the token it replaces. */
  predicate LengthPreserving(vars: Vars) {
    forall i :: 0 <= i < |vars| ==> |vars[i].value| == |Token(vars[i].key)|
  }

  /** The loop body of `render` folded over the entries in order: each step
      works on the running result, not on the original template. */
  function RenderEntries(template: string, vars: Vars): (r: string)
    ensures LengthPreserving(vars) ==> |r| == |template|
    decreases |vars|
  {
    if |vars| == 0 then template
    else
      assert forall i :: 1 <= i < |vars| ==> vars[1..][i - 1] == vars[i];
      RenderEntries(ReplaceAll(template, Token(vars[0].key), vars[0].value), vars[1..])
  }

  /** SimpleTemplateEngine.render: a null variables map is dereferenced
      (`variables.entrySet()`) and throws; an empty one leaves the template
      as it is. */
  function Render(template: string, variables: Option<Vars>): (r: Outcome<string>)
    ensures r.Crash? <==> variables.None?
    ensures variables == Some([]) ==> r == Ok(template)
    ensures r.Ok? ==> r.value == RenderEntries(template, variables.value)
  {
    match variables
    case None => Crash
    case Some(es) => Ok(RenderEntries(template, es))
  }

  // ---------------------------------------------------------------------
  // Properties of a single replace-all

  lemma MatchAtTail(s: string, i: int, pat: string)
    requires 0 < |s| && 0 <= i < |s|
    ensures MatchAt(s[1..], i, pat) <==> MatchAt(s, i + 1, pat)
  {
    assert s[1..][i..] == s[i + 1..];
  }

  /** A text in which the target never occurs is returned unchanged. */
  lemma {:induction false} ReplaceAllNoMatch(s: string, pat: string, rep: string)
    requires |pat| > 0
    requires forall i :: 0 <= i < |s| ==> !MatchAt(s, i, pat)
    ensures ReplaceAll(s, pat, rep) == s
    decreases |s|
  {
    if |s| > 0 {
      assert s[0..] == s;
      assert !MatchAt(s, 0, pat);
      forall i | 0 <= i < |s[1..]| ensures !MatchAt(s[1..], i, pat) {
        MatchAtTail(s, i, pat);
      }
      ReplaceAllNoMatch(s[1..], pat, rep);
      assert s == [s[0]] + s[1..];
    }
  }

  /** Replacing a target by itself changes nothing. */
  lemma {:induction false} ReplaceAllBySelf(s: string, pat: string)
    requires |pat| > 0
    ensures ReplaceAll(s, pat, pat) == s
    decreases |s|
  {
    if |s| > 0 {
      if pat <= s {
        ReplaceAllBySelf(s[|pat|..], pat);
        assert s == s[..|pat|] + s[|pat|..];
      } else {
        ReplaceAllBySelf(s[1..], pat);
        assert s == [s[0]] + s[1..];
      }
    }
  }

  /** Replace-all distributes over a concatenation when no occurrence of the
      target straddles the seam. */
  lemma {:induction false} ReplaceAllAppend(x: string, y: string, pat: string, rep: string)
    requires |pat| > 0
    requires forall i :: 0 <= i < |x| < i + |pat| ==> !MatchAt(x + y, i, pat)
    ensures ReplaceAll(x + y, pat, rep) == ReplaceAll(x, pat, rep) + ReplaceAll(y, pat, rep)
    decreases |x|
  {
    if |x| == 0 {
      assert x + y == y;
    } else if pat <= x + y {
      assert (x + y)[0..] == x + y;
      assert MatchAt(x + y, 0, pat);
      assert |pat| <= |x|;
      assert (x + y)[..|pat|] == x[..|pat|];
      assert pat <= x;
      var x' := x[|pat|..];
      assert (x + y)[|pat|..] == x' + y;
      forall i | 0 <= i < |x'| < i + |pat| ensures !MatchAt(x' + y, i, pat) {
        assert (x' + y)[i..] == (x + y)[i + |pat|..];
        assert !MatchAt(x + y, i + |pat|, pat);
      }
      ReplaceAllAppend(x', y, pat, rep);
    } else {
      var x' := x[1..];
      assert (x + y)[1..] == x' + y;
      forall i | 0 <= i < |x'| < i + |pat| ensures !MatchAt(x' + y, i, pat) {
        MatchAtTail(x + y, i, pat);
      }
      ReplaceAllAppend(x', y, pat, rep);
      assert (x + y)[0] == x[0];
    }
  }

  /** The leftmost occurrence is the first one replaced: text before it is
      copied and scanning resumes right after it. */
  lemma ReplaceAllLeftmost(a: string, b: string, pat: string, rep: string)
    requires |pat| > 0
    requires forall i :: 0 <= i < |a| ==> !MatchAt(a + pat + b, i, pat)
    ensures ReplaceAll(a + pat + b, pat, rep) == a + rep + ReplaceAll(b, pat, rep)
  {
    assert a + pat + b == a + (pat + b);
    ReplaceAllAppend(a, pat + b, pat, rep);
    forall i | 0 <= i < |a| ensures !MatchAt(a, i, pat) {
      if MatchAt(a, i, pat) {
        assert (a + pat + b)[i..][..|pat|] == a[i..][..|pat|];
        assert MatchAt(a + pat + b, i, pat);
      }
    }
    ReplaceAllNoMatch(a, pat, rep);
    assert (pat + b)[..|pat|] == pat;
    assert (pat + b)[|pat|..] == b;
  }

  // ---------------------------------------------------------------------
  // Placeholders of keys that are not in the map

  /** A key with no brace characters in it. */
  predicate BraceFree(k: string) {
    forall i :: 0 <= i < |k| ==> k[i] != '{' && k[i] != '}'
  }

  /** In the token of a brace-free key, `{` appears only in the first two
      positions and `}` only in the last two. */
  lemma TokenBraces(k: string)
    requires BraceFree(k)
    ensures forall j :: 0 <= j < |Token(k)| ==>
      (Token(k)[j] == '{' <==> j < 2) && (Token(k)[j] == '}' <==> j >= |k| + 2)
  {
    var t := Token(k);
    forall j | 0 <= j < |t| ensures (t[j] == '{' <==> j < 2) && (t[j] == '}' <==> j >= |k| + 2) {
      if 2 <= j < |k| + 2 {
        assert t[j] == t[2..|t| - 2][j - 2] == k[j - 2];
      } else if j < 2 {
        assert t[j] == t[..2][j];
      } else {
        assert t[j] == t[|t| - 2..][j - |k| - 2];
      }
    }
  }

  /** The token of one brace-free key never overlaps the token of another. */
  lemma TokensDoNotOverlap(x: string, y: string, key: string, k: string)
    requires BraceFree(key) && BraceFree(k) && key != k
    ensures forall i :: 0 <= i < |x| + |Token(k)| && |x| < i + |Token(key)| ==>
      !MatchAt(x + Token(k) + y, i, Token(key))
  {
    var pat, t := Token(key), Token(k);
    var s := x + t + y;
    var n, p, l := |x|, |pat|, |t|;
    TokenBraces(key);
    TokenBraces(k);
    assert forall j :: 0 <= j < l ==> s[n + j] == t[j];
    forall i | 0 <= i < n + l && n < i + p ensures !MatchAt(s, i, pat) {
      if i + p <= |s| {
        // an index inside the would-be occurrence where the texts differ
        var j: int;
        if i < n {
          j := if n - i >= 2 then n - i else 2;
          assert s[i + j] == t[i + j - n];
          assert i + j - n < 2 && j >= 2;
          assert s[i + j] != pat[j];
        } else if i == n {
          if |key| < |k| {
            j := p - 2;
            assert s[i + j] == t[j];
            assert s[i + j] != pat[j];
          } else if |key| > |k| {
            j := l - 2;
            assert s[i + j] == t[j];
            assert s[i + j] != pat[j];
          } else {
            assert exists m :: 0 <= m < |key| && key[m] != k[m];
            var m :| 0 <= m < |key| && key[m] != k[m];
            assert pat[m + 2] == pat[2..p - 2][m];
            assert t[m + 2] == t[2..l - 2][m];
            j := m + 2;
            assert s[i + j] == t[j];
            assert s[i + j] != pat[j];
          }
        } else {
          j := if i - n >= 2 then 0 else 1;
          assert s[i + j] == t[i + j - n];
          assert s[i + j] != pat[j];
        }
        assert 0 <= j < p && s[i + j] != pat[j];
        assert s[i..][j] == s[i + j];
      }
    }
  }

  /** A placeholder whose key differs from the replaced one survives a
      replace-all, and the text on either side is processed independently. */
  lemma PlaceholderSurvivesReplace(x: string, y: string, key: string, k: string, rep: string)
    requires BraceFree(key) && BraceFree(k) && key != k
    ensures ReplaceAll(x + Token(k) + y, Token(key), rep)
         == ReplaceAll(x, Token(key), rep) + Token(k) + ReplaceAll(y, Token(key), rep)
  {
    var pat, t := Token(key), Token(k);
    TokensDoNotOverlap(x, y, key, k);
    assert x + t + y == x + (t + y);
    ReplaceAllAppend(x, t + y, pat, rep);
    TokensDoNotOverlap([], y, key, k);
    assert [] + t + y == t + y;
    ReplaceAllAppend(t, y, pat, rep);
    TokensDoNotOverlap([], [], key, k);
    assert [] + t + [] == t;
    ReplaceAllNoMatch(t, pat, rep);
  }

  /** No token starts inside brace-free text. */
  lemma NoTokenStartsInBraceFree(a: string, b: string, key: string)
    requires BraceFree(a)
    ensures forall i :: 0 <= i < |a| ==> !MatchAt(a + b, i, Token(key))
  {
    forall i | 0 <= i < |a| ensures !MatchAt(a + b, i, Token(key)) {
      assert (a + b)[i..][0] == a[i];
    }
  }

  /** `parts[0] + sep + parts[1] + sep + ... + parts[n-1]` */
  function Join(parts: seq<string>, sep: string): string
    requires |parts| > 0
    decreases |parts|
  {
    if |parts| == 1 then parts[0] else parts[0] + sep + Join(parts[1..], sep)
  }

  /** Every occurrence is replaced: a template made of brace-free text
      pieces separated by the token of `k` comes out as the same pieces
      separated by the value. */
  lemma {:induction false} ReplaceEveryPlaceholder(parts: seq<string>, k: string, v: string)
    requires |parts| > 0 && forall i :: 0 <= i < |parts| ==> BraceFree(parts[i])
    ensures ReplaceAll(Join(parts, Token(k)), Token(k), v) == Join(parts, v)
    decreases |parts|
  {
    var pat := Token(k);
    if |parts| == 1 {
      NoTokenStartsInBraceFree(parts[0], [], k);
      assert parts[0] + [] == parts[0];
      ReplaceAllNoMatch(parts[0], pat, v);
    } else {
      var rest := Join(parts[1..], pat);
      NoTokenStartsInBraceFree(parts[0], pat + rest, k);
      assert parts[0] + (pat + rest) == parts[0] + pat + rest;
      ReplaceAllLeftmost(parts[0], rest, pat, v);
      ReplaceEveryPlaceholder(parts[1..], k, v);
    }
  }

  // ---------------------------------------------------------------------
  // Properties of the fold over the entries

  /** The output is the fold of single-key replacements in entry order: one
      more entry is one more replace-all on the running result. */
  lemma {:induction false} RenderEntriesSnoc(template: string, vars: Vars, e: Entry)
    ensures RenderEntries(template, vars + [e])
         == ReplaceAll(RenderEntries(template, vars), Token(e.key), e.value)
    decreases |vars|
  {
    if |vars| > 0 {
      assert (vars + [e])[1..] == vars[1..] + [e];
      RenderEntriesSnoc(ReplaceAll(template, Token(vars[0].key), vars[0].value), vars[1..], e);
    }
  }

  /** A template that holds no token of any mapped key renders to itself. */
  lemma {:induction false} RenderWithoutTokens(template: string, vars: Vars)
    requires forall j, i :: 0 <= j < |vars| && 0 <= i < |template| ==>
      !MatchAt(template, i, Token(vars[j].key))
    ensures RenderEntries(template, vars) == template
    decreases |vars|
  {
    if |vars| > 0 {
      ReplaceAllNoMatch(template, Token(vars[0].key), vars[0].value);
      RenderWithoutTokens(template, vars[1..]);
    }
  }

  /** The keys of the map are brace-free and none of them is `k`. */
  predicate KeysAvoid(vars: Vars, k: string) {
    forall j :: 0 <= j < |vars| ==> BraceFree(vars[j].key) && vars[j].key != k
  }

  /** A placeholder whose key is not in the map stays verbatim in the output,
      and the text around it renders as if it were alone. */
  lemma {:induction false} UnmappedPlaceholderSurvives(x: string, y: string, k: string, vars: Vars)
    requires BraceFree(k) && KeysAvoid(vars, k)
    ensures RenderEntries(x + Token(k) + y, vars)
         == RenderEntries(x, vars) + Token(k) + RenderEntries(y, vars)
    decreases |vars|
  {
    if |vars| > 0 {
      var e := vars[0];
      PlaceholderSurvivesReplace(x, y, e.key, k, e.value);
      UnmappedPlaceholderSurvives(ReplaceAll(x, Token(e.key), e.value),
                                  ReplaceAll(y, Token(e.key), e.value), k, vars[1..]);
    }
  }

  /** With a single entry, rendering replaces every placeholder of its key. */
  lemma RenderSingleEntry(parts: seq<string>, k: string, v: string)
    requires |parts| > 0 && forall i :: 0 <= i < |parts| ==> BraceFree(parts[i])
    ensures RenderEntries(Join(parts, Token(k)), [Entry(k, v)]) == Join(parts, v)
  {
    ReplaceEveryPlaceholder(parts, k, v);
    assert [Entry(k, v)][1..] == [];
  }

  /** Without the brace-free condition a mapped key can swallow a placeholder
      of a key that is not in the map: the key `a}}{{b` makes its token
      `{{a}}{{b}}`, which covers both `{{a}}` and `{{b}}`. */
  lemma BracedKeyConsumesPlaceholder()
    ensures var a, b, key := "a", "b", "a}}{{b";
      var out := RenderEntries(Token(a) + Token(b), [Entry(key, "X")]);
      key != a && out == "X" && out != Token(a) + Token(b)
  {
    var a, b, key := "a", "b", "a}}{{b";
    var template := Token(a) + Token(b);
    assert template == Token(key);
    assert Token(key) <= template;
    assert template[|Token(key)|..] == [];
    assert ReplaceAll(template, Token(key), "X") == "X" + ReplaceAll([], Token(key), "X");
    assert ReplaceAll(template, Token(key), "X") == "X";
    assert [Entry(key, "X")][1..] == [];
    assert RenderEntries(template, [Entry(key, "X")]) == RenderEntries("X", []);
  }
}
