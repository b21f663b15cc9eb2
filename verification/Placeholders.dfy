/**
 Environment placeholders of the MCP configuration loader: the leftmost scan that replaces
 every `${NAME}`, what it means without mentioning the scan, and the exact condition on the
 environment under which resolving twice is resolving once.
 */
module Placeholders {
  import opened Common

  type Env = map<string, string>

  // ---------------------------------------------------------------- the pattern

  predicate NameStart(c: char) { 'A' <= c <= 'Z' || c == '_' }

  predicate NameChar(c: char) { NameStart(c) || '0' <= c <= '9' }

  predicate IsName(s: string) {
    |s| > 0 && NameStart(s[0]) && forall i :: 0 <= i < |s| ==> NameChar(s[i])
  }

  function Wrap(name: string): string { "${" + name + "}" }

  /** The whole of `w` is one placeholder. */
  predicate IsPlaceholder(w: string) {
    |w| >= 4 && w == Wrap(w[2..|w| - 1]) && IsName(w[2..|w| - 1])
  }

  /** End of the run of name characters that starts at `i`. */
  function RunEnd(s: string, i: nat): (e: nat)
    requires i <= |s|
    ensures i <= e <= |s|
    ensures forall k :: i <= k < e ==> NameChar(s[k])
    ensures e < |s| ==> !NameChar(s[e])
    decreases |s| - i
  {
    if i < |s| && NameChar(s[i]) then RunEnd(s, i + 1) else i
  }

  /** Length of the match of the pattern at the start of `s`; 0 when there is none. */
  function MatchLen(s: string): (n: nat)
    ensures n <= |s|
  {
    if |s| >= 3 && s[0] == '$' && s[1] == '{' && NameStart(s[2]) then
      var e := RunEnd(s, 2);
      if e < |s| && s[e] == '}' then e + 1 else 0
    else 0
  }

  // ------------------------------------------------------------ the substitution

  /** What one scan step emits for the chunk it consumed: the callback's answer, or the text itself. */
  function Sub(w: string, env: Env): string {
    if IsPlaceholder(w) && w[2..|w| - 1] in env then env[w[2..|w| - 1]] else w
  }

  /** Characters one scan step consumes: the match, or one character where nothing matches. */
  function StepLen(s: string): (n: nat)
    requires s != ""
    ensures 0 < n <= |s|
  {
    if MatchLen(s) > 0 then MatchLen(s) else 1
  }

  /** Leftmost, non-overlapping replacement, left to right. */
  function ResolveString(s: string, env: Env): string
    decreases |s|
  {
    if s == "" then ""
    else Sub(s[..StepLen(s)], env) + ResolveString(s[StepLen(s)..], env)
  }

  /** Lifted over JSON: strings are resolved, lists and objects element by element. */
  function ResolveValue(v: Json, env: Env): Json {
    match v
    case Str(s) => Str(ResolveString(s, env))
    case Arr(xs) => Arr(seq(|xs|, i requires 0 <= i < |xs| => ResolveValue(xs[i], env)))
    case Obj(m) => Obj(map k | k in m :: ResolveValue(m[k], env))
    case _ => v
  }

  // ------------------------------------------------- the pattern, declaratively

  lemma MatchIsPlaceholder(s: string)
    requires MatchLen(s) > 0
    ensures IsPlaceholder(s[..MatchLen(s)])
  {
    var w := s[..MatchLen(s)];
    assert w[2..|w| - 1] == s[2..MatchLen(s) - 1];
    assert w == Wrap(w[2..|w| - 1]);
  }

  lemma PlaceholderShape(w: string)
    requires IsPlaceholder(w)
    ensures w[0] == '$' && w[1] == '{' && NameStart(w[2]) && w[|w| - 1] == '}'
    ensures forall k :: 2 <= k < |w| - 1 ==> NameChar(w[k])
    ensures forall k :: 1 <= k < |w| ==> w[k] != '$'
    ensures forall k :: 0 <= k < |w| - 1 ==> w[k] != '}'
  {
    var name := w[2..|w| - 1];
    assert name[0] == w[2];
    forall k | 2 <= k < |w| - 1 ensures NameChar(w[k]) { assert w[k] == name[k - 2]; }
  }

  lemma RunEndUnique(s: string, i: nat, e: nat)
    requires i <= e < |s| && !NameChar(s[e])
    requires forall k :: i <= k < e ==> NameChar(s[k])
    ensures RunEnd(s, i) == e
    decreases e - i
  {
    if i < e { RunEndUnique(s, i + 1, e); }
  }

  /** The scan finds a match of length `n` exactly when the first `n` characters are a placeholder. */
  lemma MatchLenIff(s: string, n: nat)
    requires 0 < n <= |s|
    ensures MatchLen(s) == n <==> IsPlaceholder(s[..n])
  {
    if MatchLen(s) == n { MatchIsPlaceholder(s); }
    if IsPlaceholder(s[..n]) {
      var w := s[..n];
      PlaceholderShape(w);
      assert forall k :: 0 <= k < n ==> s[k] == w[k];
      RunEndUnique(s, 2, n - 1);
    }
  }

  /** The text `w` stands in `s` at position `i`. */
  ghost predicate OccursAt(w: string, s: string, i: int) {
    0 <= i && i + |w| <= |s| && forall k {:trigger w[k]} :: 0 <= k < |w| ==> s[i + k] == w[k]
  }

  lemma OccursSlice(w: string, s: string, i: int)
    requires OccursAt(w, s, i)
    ensures s[i..i + |w|] == w
  {}

  /** Two placeholder occurrences in one text are the same one or do not overlap. */
  lemma OccurrencesDisjoint(s: string, w: string, i: nat, w': string, j: nat)
    requires IsPlaceholder(w) && IsPlaceholder(w')
    requires OccursAt(w, s, i) && OccursAt(w', s, j)
    ensures i == j ==> w == w'
    ensures i < j ==> i + |w| <= j
  {
    PlaceholderShape(w); PlaceholderShape(w');
    if i == j {
      OccursSlice(w, s, i); OccursSlice(w', s, j);
      assert s[i..][..|w|] == w && s[i..][..|w'|] == w';
      MatchLenIff(s[i..], |w|); MatchLenIff(s[i..], |w'|);
    } else if i < j < i + |w| {
      OccursChar(w, s, i, j);
    }
  }

  lemma OccursChar(w: string, s: string, i: int, j: int)
    requires OccursAt(w, s, i) && i <= j < i + |w|
    ensures s[j] == w[j - i]
  {
    assert s[i + (j - i)] == w[j - i];
  }

  // -------------------------------------------------- the substitution, declaratively

  /** What follows a placeholder-free gap does not change whether the scan matches before it. */
  lemma MatchBefore(p: string, w: string, q: string)
    requires IsPlaceholder(w) && p != ""
    ensures MatchLen(p + w + q) == MatchLen(p)
  {
    var s := p + w + q;
    var n, m := MatchLen(s), MatchLen(p);
    if n > 0 {
      MatchIsPlaceholder(s);
      OccurrencesDisjoint(s, s[..n], 0, w, |p|);
      assert p[..n] == s[..n];
      MatchLenIff(p, n);
    } else if m > 0 {
      MatchIsPlaceholder(p);
      assert s[..m] == p[..m];
      MatchLenIff(s, m);
    }
  }

  lemma StepAt(w: string, q: string, env: Env)
    requires IsPlaceholder(w)
    ensures ResolveString(w + q, env) == Sub(w, env) + ResolveString(q, env)
  {
    var s := w + q;
    assert s[..|w|] == w && s[|w|..] == q;
    MatchLenIff(s, |w|);
  }

  lemma StepBefore(p: string, w: string, q: string, env: Env)
    requires IsPlaceholder(w) && p != ""
    ensures ResolveString(p + w + q, env) == Sub(p[..StepLen(p)], env) + ResolveString(p[StepLen(p)..] + w + q, env)
  {
    var s, h := p + w + q, StepLen(p);
    MatchBefore(p, w, q);
    assert s[h..] == p[h..] + w + q && s[..h] == p[..h];
  }

  lemma Assoc(a: string, b: string, c: string, d: string)
    ensures a + (b + c + d) == (a + b) + c + d
  {}

  /** Every occurrence is replaced, wherever it stands, and the rest is resolved on its own. */
  lemma {:induction false} EveryOccurrenceReplaced(p: string, w: string, q: string, env: Env)
    requires IsPlaceholder(w)
    ensures ResolveString(p + w + q, env) == ResolveString(p, env) + Sub(w, env) + ResolveString(q, env)
    decreases |p|
  {
    if p == "" {
      assert p + w + q == w + q;
      StepAt(w, q, env);
      Assoc("", "", Sub(w, env), ResolveString(q, env));
    } else {
      var h := StepLen(p);
      StepBefore(p, w, q, env);
      EveryOccurrenceReplaced(p[h..], w, q, env);
      Assoc(Sub(p[..h], env), ResolveString(p[h..], env), Sub(w, env), ResolveString(q, env));
    }
  }

  /** Names whose placeholder is changed by one substitution. */
  ghost predicate Effective(name: string, env: Env) {
    IsName(name) && name in env && env[name] != Wrap(name)
  }

  lemma WrapIsPlaceholder(name: string)
    requires IsName(name)
    ensures IsPlaceholder(Wrap(name)) && Wrap(name)[2..|Wrap(name)| - 1] == name
  {
    assert Wrap(name)[2..|Wrap(name)| - 1] == name;
  }

  lemma ReplacedIn(p: string, x: string, q: string, env: Env)
    requires Effective(x, env)
    ensures ResolveString(p + Wrap(x) + q, env) == ResolveString(p, env) + env[x] + ResolveString(q, env)
  {
    WrapIsPlaceholder(x);
    EveryOccurrenceReplaced(p, Wrap(x), q, env);
  }

  lemma ReplacedAlone(x: string, env: Env)
    requires Effective(x, env)
    ensures ResolveString(Wrap(x), env) == env[x]
  {
    WrapIsPlaceholder(x);
    StepAt(Wrap(x), "", env);
    assert Wrap(x) + "" == Wrap(x);
  }

  /** No placeholder that a substitution would change is left. */
  ghost predicate Settled(s: string, env: Env) {
    forall name, i :: Effective(name, env) ==> !OccursAt(Wrap(name), s, i)
  }

  lemma SettledPart(s: string, lo: nat, hi: nat, env: Env)
    requires lo <= hi <= |s| && Settled(s, env)
    ensures Settled(s[lo..hi], env)
  {
    forall name, i | Effective(name, env) ensures !OccursAt(Wrap(name), s[lo..hi], i) {
      if OccursAt(Wrap(name), s[lo..hi], i) { Shift(Wrap(name), s, lo, hi, i); }
    }
  }

  lemma Shift(w: string, s: string, lo: nat, hi: nat, i: int)
    requires lo <= hi <= |s| && OccursAt(w, s[lo..hi], i)
    ensures OccursAt(w, s, lo + i)
  {
    forall k | 0 <= k < |w| ensures s[lo + i + k] == w[k] { assert s[lo..hi][i + k] == w[k]; }
  }

  lemma {:induction false} SettledFixed(s: string, env: Env)
    requires Settled(s, env)
    ensures ResolveString(s, env) == s
    decreases |s|
  {
    if s != "" {
      var h := StepLen(s);
      SettledPart(s, h, |s|, env);
      assert s[h..] == s[h..|s|];
      SettledFixed(s[h..], env);
      SettledChunk(s, h, env);
      assert s == s[..h] + s[h..];
    }
  }

  lemma SettledChunk(s: string, h: nat, env: Env)
    requires h <= |s| && Settled(s, env)
    ensures Sub(s[..h], env) == s[..h]
  {
    var c := s[..h];
    if IsPlaceholder(c) { assert OccursAt(Wrap(c[2..h - 1]), s, 0); }
  }

  /** A text that lacks a character every placeholder has is left as it is. */
  lemma FixedWithout(s: string, c: char, env: Env)
    requires c == '$' || c == '}'
    requires forall k :: 0 <= k < |s| ==> s[k] != c
    ensures ResolveString(s, env) == s
  {
    forall name, i | Effective(name, env) ensures !OccursAt(Wrap(name), s, i) {
      var w := Wrap(name);
      assert w[0] == '$' && w[|w| - 1] == '}';
    }
    SettledFixed(s, env);
  }

  // ------------------------------------------------------------- idempotence

  /** Laid over `v` with its start at `d`, the text `w` agrees with `v` on the common part. */
  ghost predicate Agree(v: string, w: string, d: int) {
    forall k {:trigger v[k]} :: 0 <= k < |v| && 0 <= k - d < |w| ==> v[k] == w[k - d]
  }

  /**
   `w` can lie across `v`: they share characters, or `v` is empty and lies strictly inside `w`.
   */
  ghost predicate Overlap(v: string, w: string) {
    exists d :: -|w| < d < |v| && Agree(v, w, d)
  }

  /** No value that can be inserted overlaps a placeholder that would still be replaced. */
  ghost predicate Separated(env: Env) {
    forall b, x :: Effective(b, env) && Effective(x, env) ==> !Overlap(env[b], Wrap(x))
  }

  ghost predicate StableOn(s: string, env: Env) {
    ResolveString(ResolveString(s, env), env) == ResolveString(s, env)
  }

  ghost predicate Idempotent(env: Env) { forall s :: StableOn(s, env) }

  /** The part of `w` from `k` on stands at the start of `s`. */
  ghost predicate TailAt(w: string, k: nat, s: string) {
    |w| - k <= |s| && forall j {:trigger w[j]} :: k <= j < |w| ==> s[j - k] == w[j]
  }

  lemma TailUncons(w: string, k: nat, c: char, r: string)
    requires k < |w| && TailAt(w, k, [c] + r)
    ensures c == w[k] && TailAt(w, k + 1, r)
  {
    assert ([c] + r)[k - k] == w[k];
    forall j | k + 1 <= j < |w| ensures r[j - (k + 1)] == w[j] { assert ([c] + r)[j - k] == w[j]; }
  }

  lemma TailCons(w: string, k: nat, t: string)
    requires k < |w| && t != "" && t[0] == w[k] && TailAt(w, k + 1, t[1..])
    ensures TailAt(w, k, t)
  {
    forall j | k <= j < |w| ensures t[j - k] == w[j] {
      if j > k { assert t[1..][j - (k + 1)] == w[j]; }
    }
  }

  lemma TailAgrees(w: string, k: nat, v: string, r: string)
    requires 1 <= k && TailAt(w, k, v + r)
    ensures Agree(v, w, 0 - k)
  {
    forall j | 0 <= j < |v| && 0 <= j + k < |w| ensures v[j] == w[j + k] {
      assert (v + r)[(j + k) - k] == w[j + k];
    }
  }

  /** A tail of a placeholder at the start of the result was already at the start of the input. */
  lemma {:induction false} TailReflected(t: string, x: string, k: nat, env: Env)
    requires Separated(env) && Effective(x, env)
    requires 1 <= k <= |Wrap(x)| && TailAt(Wrap(x), k, ResolveString(t, env))
    ensures TailAt(Wrap(x), k, t)
    decreases |t|
  {
    if k < |Wrap(x)| {
      TailNotValue(t, x, k, env);
      TailUncons(Wrap(x), k, t[0], ResolveString(t[1..], env));
      TailReflected(t[1..], x, k + 1, env);
      TailCons(Wrap(x), k, t);
    }
  }

  /** Such a tail cannot begin inside something the scan inserted or kept as a placeholder. */
  lemma TailNotValue(t: string, x: string, k: nat, env: Env)
    requires Separated(env) && Effective(x, env)
    requires 1 <= k < |Wrap(x)| && TailAt(Wrap(x), k, ResolveString(t, env))
    ensures t != "" && MatchLen(t) == 0 && ResolveString(t, env) == [t[0]] + ResolveString(t[1..], env)
  {
    if MatchLen(t) > 0 { TailNotAtMatch(t, x, k, env); }
  }

  lemma TailNotAtMatch(t: string, x: string, k: nat, env: Env)
    requires Separated(env) && Effective(x, env) && 1 <= k < |Wrap(x)| && MatchLen(t) > 0
    ensures !TailAt(Wrap(x), k, ResolveString(t, env))
  {
    var w, m, r := Wrap(x), t[..MatchLen(t)], ResolveString(t[MatchLen(t)..], env);
    WrapIsPlaceholder(x);
    PlaceholderShape(w);
    MatchIsPlaceholder(t);
    PlaceholderShape(m);
    var replaced := Effective(m[2..|m| - 1], env);
    if TailAt(w, k, Sub(m, env) + r) { TailAgrees(w, k, Sub(m, env), r); }
  }

  /** With separated values one pass leaves nothing that a second pass would change. */
  lemma {:induction false} ImageSettled(t: string, env: Env)
    requires Separated(env)
    ensures Settled(ResolveString(t, env), env)
    decreases |t|
  {
    if t != "" {
      var n := MatchLen(t);
      if n > 0 {
        MatchIsPlaceholder(t);
        ImageSettled(t[n..], env);
        forall x, i | Effective(x, env) ensures !OccursAt(Wrap(x), ResolveString(t, env), i) {
          MatchStepSettled(t[..n], ResolveString(t[n..], env), x, i, env);
        }
      } else {
        ImageSettled(t[1..], env);
        forall x, i | Effective(x, env) ensures !OccursAt(Wrap(x), ResolveString(t, env), i) {
          LiteralStepSettled(t, x, i, env);
        }
      }
    }
  }

  lemma RightOf(w: string, v: string, r: string, i: int)
    requires |v| <= i && OccursAt(w, v + r, i)
    ensures OccursAt(w, r, i - |v|)
  {
    forall k | 0 <= k < |w| ensures r[i - |v| + k] == w[k] { assert (v + r)[i + k] == w[k]; }
  }

  lemma MatchStepSettled(m: string, r: string, x: string, i: int, env: Env)
    requires Separated(env) && Settled(r, env) && IsPlaceholder(m) && Effective(x, env)
    ensures !OccursAt(Wrap(x), Sub(m, env) + r, i)
  {
    var w, v, b := Wrap(x), Sub(m, env), m[2..|m| - 1];
    if OccursAt(w, v + r, i) {
      if i >= |v| { RightOf(w, v, r, i); }
      else if Effective(b, env) { LiesAcross(w, v, r, i); }
      else {
        WrapIsPlaceholder(x);
        PlaceholderShape(w);
        PlaceholderShape(m);
        if i == 0 { OccurrencesDisjoint(m + r, w, 0, m, 0); }
      }
    }
  }

  lemma LiesAcross(w: string, v: string, r: string, i: int)
    requires i < |v| && OccursAt(w, v + r, i) && |w| > 0
    ensures Overlap(v, w)
  {
    assert Agree(v, w, i) by {
      forall k | 0 <= k < |v| && 0 <= k - i < |w| ensures v[k] == w[k - i] { assert (v + r)[i + (k - i)] == w[k - i]; }
    }
  }

  lemma LiteralStepSettled(t: string, x: string, i: int, env: Env)
    requires t != "" && MatchLen(t) == 0
    requires Separated(env) && Settled(ResolveString(t[1..], env), env) && Effective(x, env)
    ensures !OccursAt(Wrap(x), ResolveString(t, env), i)
  {
    var r, w := ResolveString(t[1..], env), Wrap(x);
    if OccursAt(w, [t[0]] + r, i) {
      if i >= 1 { RightOf(w, [t[0]], r, i); }
      else {
        assert TailAt(w, 1, r) by {
          forall j | 1 <= j < |w| ensures r[j - 1] == w[j] { assert ([t[0]] + r)[0 + j] == w[j]; }
        }
        TailReflected(t[1..], x, 1, env);
        assert ([t[0]] + r)[0 + 0] == w[0];
        StartsWith(t, x);
      }
    }
  }

  lemma StartsWith(t: string, x: string)
    requires IsName(x) && t != "" && TailAt(Wrap(x), 1, t[1..]) && t[0] == '$'
    ensures MatchLen(t) > 0
  {
    var w := Wrap(x);
    WrapIsPlaceholder(x);
    forall j | 0 <= j < |w| ensures t[j] == w[j] { if j > 0 { assert t[1..][j - 1] == w[j]; } }
    assert t[..|w|] == w;
    MatchLenIff(t, |w|);
  }

  lemma SeparatedIdempotent(env: Env)
    requires Separated(env)
    ensures Idempotent(env)
  {
    forall s ensures StableOn(s, env) {
      ImageSettled(s, env);
      SettledFixed(ResolveString(s, env), env);
    }
  }

  // The converse: an overlap always yields a text on which a second pass changes something.

  /** Under idempotence an effective placeholder is never the result of resolving something. */
  lemma WholePlaceholderNotImage(t: string, x: string, env: Env)
    requires Idempotent(env) && Effective(x, env)
    ensures ResolveString(t, env) != Wrap(x)
  {
    ReplacedAlone(x, env);
    assert StableOn(t, env);
  }

  lemma NoEmptyValue(e: string, x: string, env: Env)
    requires Idempotent(env) && Effective(x, env) && Effective(e, env)
    ensures env[e] != ""
  {
    if env[e] == "" {
      EmptyImage(e, x, env);
      WholePlaceholderNotImage("$" + Wrap(e) + Wrap(x)[1..], x, env);
    }
  }

  lemma EmptyImage(e: string, x: string, env: Env)
    requires Effective(x, env) && Effective(e, env) && env[e] == ""
    ensures ResolveString("$" + Wrap(e) + Wrap(x)[1..], env) == Wrap(x)
  {
    var w := Wrap(x);
    WrapIsPlaceholder(x);
    PlaceholderShape(w);
    FixedWithout("$", '}', env);
    TailWithoutDollar(w);
    FixedWithout(w[1..], '$', env);
    ReplacedIn("$", e, w[1..], env);
    Rejoined(w);
  }

  lemma TailWithoutDollar(w: string)
    requires IsPlaceholder(w)
    ensures forall k :: 0 <= k < |w[1..]| ==> w[1..][k] != '$'
  {
    PlaceholderShape(w);
    forall k | 0 <= k < |w[1..]| ensures w[1..][k] != '$' { assert w[1..][k] == w[k + 1]; }
  }

  lemma Rejoined(w: string)
    requires w != "" && w[0] == '$'
    ensures "$" + "" + w[1..] == w
  {}

  lemma {:induction false} NonEmptyImage(s: string, env: Env)
    requires s != ""
    requires forall e :: Effective(e, env) ==> env[e] != ""
    ensures ResolveString(s, env) != ""
  {
    var n := MatchLen(s);
    if n > 0 {
      MatchIsPlaceholder(s);
      assert Effective(s[..n][2..n - 1], env) || Sub(s[..n], env) == s[..n];
    }
  }

  lemma ValueNotPrefix(x: string, env: Env)
    requires Idempotent(env) && Effective(x, env)
    ensures !(env[x] <= Wrap(x))
  {
    var w, v := Wrap(x), env[x];
    NoEmptyValue(x, x, env);
    if v <= w {
      PrefixImage(x, env);
      WholePlaceholderNotImage(w + w[|v|..], x, env);
    }
  }

  lemma PrefixImage(x: string, env: Env)
    requires Effective(x, env) && env[x] != "" && env[x] <= Wrap(x)
    ensures ResolveString(Wrap(x) + Wrap(x)[|env[x]|..], env) == Wrap(x)
  {
    hide ResolveString, StepLen, MatchLen, IsPlaceholder, NameChar, NameStart;
    var w, v := Wrap(x), env[x];
    var q := w[|v|..];
    WrapIsPlaceholder(x);
    PlaceholderShape(w);
    assert forall k :: 0 <= k < |q| ==> q[k] == w[|v| + k];
    FixedWithout(q, '$', env);
    StepAt(w, q, env);
  }

  lemma ValueNotExtension(x: string, env: Env)
    requires Idempotent(env) && Effective(x, env)
    ensures !(Wrap(x) <= env[x])
  {
    var w, v := Wrap(x), env[x];
    forall e | Effective(e, env) ensures env[e] != "" { NoEmptyValue(e, x, env); }
    if w <= v {
      var z := v[|w|..];
      assert v == "" + w + z;
      ReplacedIn("", x, z, env);
      ReplacedAlone(x, env);
      assert StableOn(w, env);
      assert |v| == |v| + |ResolveString(z, env)|;
      NonEmptyImage(z, env);
    }
  }

  lemma OccursSplit(w: string, s: string, i: int)
    requires OccursAt(w, s, i)
    ensures 0 <= i && i + |w| <= |s| && s == s[..i] + w + s[i + |w|..]
  {
    OccursSlice(w, s, i);
  }

  lemma PrefixSettled(r: string, i: nat, env: Env)
    requires i <= |r| && forall y, j: nat | j < i && Effective(y, env) :: !OccursAt(Wrap(y), r, j)
    ensures Settled(r[..i], env)
  {
    hide Effective;
    forall y, j | Effective(y, env) ensures !OccursAt(Wrap(y), r[..i], j) {
      if OccursAt(Wrap(y), r[..i], j) { Shift(Wrap(y), r, 0, i, j); }
    }
  }

  lemma IdempotentOccurrence(p: string, x: string, q: string, env: Env)
    requires Idempotent(env) && Effective(x, env) && Settled(p, env)
    ensures ResolveString(p + Wrap(x) + q, env) != p + Wrap(x) + q
  {
    hide ResolveString, Settled, Wrap, Idempotent;
    SettledFixed(p, env);
    ReplacedIn(p, x, q, env);
    ValueNotPrefix(x, env);
    ValueNotExtension(x, env);
    if p + env[x] + ResolveString(q, env) == p + Wrap(x) + q {
      SamePrefix(p, env[x], ResolveString(q, env), Wrap(x), q);
    }
  }

  /** Under idempotence no result holds a placeholder that would still be replaced. */
  lemma {:induction false} IdempotentImageSettled(t: string, x: string, i: nat, env: Env)
    requires Idempotent(env) && Effective(x, env)
    ensures !OccursAt(Wrap(x), ResolveString(t, env), i)
    decreases i
  {
    assert StableOn(t, env);
    hide ResolveString, Effective, Settled, Wrap, OccursAt, Idempotent;
    var r, w := ResolveString(t, env), Wrap(x);
    forall y, j: nat | j < i && Effective(y, env) ensures !OccursAt(Wrap(y), r, j) {
      IdempotentImageSettled(t, y, j, env);
    }
    if OccursAt(w, r, i) {
      OccursSplit(w, r, i);
      PrefixSettled(r, i, env);
      IdempotentOccurrence(r[..i], x, r[i + |w|..], env);
    }
  }

  lemma SamePrefix(p: string, a: string, b: string, c: string, d: string)
    requires p + a + b == p + c + d
    ensures a <= c || c <= a
  {
    var s := p + a + b;
    assert a == s[|p|..|p| + |a|];
    assert c == (p + c + d)[|p|..|p| + |c|];
    if |a| <= |c| { assert a == s[|p|..|p| + |c|][..|a|]; }
    else { assert c == s[|p|..|p| + |a|][..|c|]; }
  }

  /** From an overlap, a text whose result holds a placeholder that would still be replaced. */
  lemma OverlapWitness(b: string, x: string, env: Env) returns (t: string, i: nat)
    requires Effective(b, env) && Effective(x, env) && Overlap(env[b], Wrap(x))
    ensures OccursAt(Wrap(x), ResolveString(t, env), i)
  {
    var v, w := env[b], Wrap(x);
    WrapIsPlaceholder(x);
    PlaceholderShape(w);
    var d :| -|w| < d < |v| && Agree(v, w, d);
    var p := if d < 0 then w[..-d] else "";
    var q := if d + |w| > |v| then w[|v| - d..] else "";
    FixedWithout(p, '}', env);
    FixedWithout(q, '$', env);
    ReplacedIn(p, b, q, env);
    t, i := p + Wrap(b) + q, if d < 0 then 0 else d;
    Laid(p, v, q, w, d, i);
  }

  lemma Laid(p: string, v: string, q: string, w: string, d: int, i: nat)
    requires -|w| < d < |v| && Agree(v, w, d)
    requires p == if d < 0 then w[..-d] else ""
    requires q == if d + |w| > |v| then w[|v| - d..] else ""
    requires i == if d < 0 then 0 else d
    ensures OccursAt(w, p + v + q, i)
  {
    var s := p + v + q;
    forall k | 0 <= k < |w| ensures s[i + k] == w[k] {
      if i + k < |p| {} else if i + k < |p| + |v| { assert s[i + k] == v[k + d]; } else {}
    }
  }

  /** Resolving twice equals resolving once on every text exactly when the values are separated. */
  lemma IdempotentIff(env: Env)
    ensures Idempotent(env) <==> Separated(env)
  {
    if Separated(env) { SeparatedIdempotent(env); }
    if Idempotent(env) {
      forall b, x | Effective(b, env) && Effective(x, env) ensures !Overlap(env[b], Wrap(x)) {
        if Overlap(env[b], Wrap(x)) {
          var t, i := OverlapWitness(b, x, env);
          IdempotentImageSettled(t, x, i, env);
        }
      }
    }
  }

  /** A concrete failure: `${${A}}` with A=B and B=x resolves to `${B}`, and then to `x`. */
  lemma NestedNotStable()
    ensures var env := map["A" := "B", "B" := "x"];
            && ResolveString("${${A}}", env) == "${B}"
            && ResolveString("${B}", env) == "x"
            && !Separated(env)
  {
    var env: Env := map["A" := "B", "B" := "x"];
    NestedTexts();
    assert Effective("A", env) && Effective("B", env);
    FixedWithout("${", '}', env);
    FixedWithout("}", '$', env);
    ReplacedIn("${", "A", "}", env);
    ReplacedAlone("B", env);
    IdempotentIff(env);
    assert !StableOn("${${A}}", env);
  }

  lemma NestedTexts()
    ensures "${" + Wrap("A") + "}" == "${${A}}" && "${" + "B" + "}" == "${B}" == Wrap("B")
    ensures IsName("A") && IsName("B")
  {}

  /** A simple sufficient test: no `$`, no `}` and one character that no placeholder contains. */
  ghost predicate Foreign(v: string) {
    && (forall k :: 0 <= k < |v| ==> v[k] != '$' && v[k] != '}')
    && exists k :: 0 <= k < |v| && !NameChar(v[k]) && v[k] != '{'
  }

  lemma ForeignSeparated(env: Env)
    requires forall b :: Effective(b, env) ==> Foreign(env[b])
    ensures Separated(env) && Idempotent(env)
  {
    forall b, x | Effective(b, env) && Effective(x, env) ensures !Overlap(env[b], Wrap(x)) {
      WrapIsPlaceholder(x);
      PlaceholderShape(Wrap(x));
      forall d | -|Wrap(x)| < d < |env[b]| ensures !Agree(env[b], Wrap(x), d) {
        ForeignDisagrees(env[b], Wrap(x), d);
      }
    }
    SeparatedIdempotent(env);
  }

  lemma ForeignDisagrees(v: string, w: string, d: int)
    requires Foreign(v) && IsPlaceholder(w) && -|w| < d < |v|
    ensures !Agree(v, w, d)
  {
    PlaceholderShape(w);
    var k :| 0 <= k < |v| && !NameChar(v[k]) && v[k] != '{';
    // one of these three positions of `v` differs from the character of `w` laid over it
    if d >= 0 { assert v[d] != w[d - d]; }
    else if d + |w| <= |v| { assert v[d + |w| - 1] != w[d + |w| - 1 - d]; }
    else { assert v[k] != w[k - d]; }
  }

  // -------------------------------------------------------------- JSON trees

  /** One step down a document: the value under a key, or the item at a position. */
  datatype Place = Key(name: string) | Index(i: nat)

  /** What stands in the document at the end of a path, if the path leads anywhere. */
  function At(v: Json, p: seq<Place>): Option<Json> {
    if p == [] then Some(v) else
      match (v, p[0])
      case (Obj(m), Key(k)) => if k in m then At(m[k], p[1..]) else None
      case (Arr(xs), Index(i)) => if i < |xs| then At(xs[i], p[1..]) else None
      case _ => None
  }

  /** What resolution may do at one place: text is resolved, the rest stays, containers keep their places. */
  predicate PlaceResolved(a: Json, b: Json, env: Env) {
    match a
    case Str(s) => b == Str(ResolveString(s, env))
    case Arr(xs) => b.Arr? && |b.items| == |xs|
    case Obj(m) => b.Obj? && b.fields.Keys == m.Keys
    case _ => b == a
  }

  /** The path leads somewhere in both documents or in neither, and there they are related. */
  predicate ResolvedBy(v: Json, r: Json, p: seq<Place>, env: Env) {
    match (At(v, p), At(r, p))
    case (None, None) => true
    case (Some(a), Some(b)) => PlaceResolved(a, b, env)
    case _ => false
  }

  /** At every path, of any depth through keys and positions, the text is resolved and all else stays. */
  lemma {:induction false} ResolvedAt(v: Json, p: seq<Place>, env: Env)
    ensures ResolvedBy(v, ResolveValue(v, env), p, env)
    ensures forall s :: At(v, p) == Some(Str(s)) ==> At(ResolveValue(v, env), p) == Some(Str(ResolveString(s, env)))
    ensures At(v, p).None? <==> At(ResolveValue(v, env), p).None?
    decreases p
  {
    if p != [] {
      match (v, p[0])
      case (Obj(m), Key(k)) => if k in m { ResolvedAt(m[k], p[1..], env); }
      case (Arr(xs), Index(i)) => if i < |xs| { ResolvedAt(xs[i], p[1..], env); }
      case _ =>
    }
  }

  ghost predicate ResolvedEverywhere(v: Json, r: Json, env: Env) {
    forall p :: ResolvedBy(v, r, p, env)
  }

  lemma Below(v: Json, r: Json, env: Env, h: Place)
    requires ResolvedEverywhere(v, r, env) && At(v, [h]).Some? && At(r, [h]).Some?
    ensures ResolvedEverywhere(At(v, [h]).value, At(r, [h]).value, env)
  {
    forall p ensures ResolvedBy(At(v, [h]).value, At(r, [h]).value, p, env) {
      assert ([h] + p)[1..] == p && [h][1..] == [];
      assert ResolvedBy(v, r, [h] + p, env);
    }
  }

  lemma {:induction false} ResolvedUnique(v: Json, r: Json, env: Env)
    requires ResolvedEverywhere(v, r, env)
    ensures r == ResolveValue(v, env)
    decreases v
  {
    assert ResolvedBy(v, r, [], env);
    match v
    case Arr(xs) =>
      forall i | 0 <= i < |xs| ensures r.items[i] == ResolveValue(xs[i], env) {
        Below(v, r, env, Index(i));
        ResolvedUnique(xs[i], r.items[i], env);
      }
    case Obj(m) =>
      forall k | k in m ensures r.fields[k] == ResolveValue(m[k], env) {
        Below(v, r, env, Key(k));
        ResolvedUnique(m[k], r.fields[k], env);
      }
    case _ =>
  }

  /** The resolved document is the one and only document resolved at every path. */
  lemma ResolvedIff(v: Json, r: Json, env: Env)
    ensures r == ResolveValue(v, env) <==> ResolvedEverywhere(v, r, env)
  {
    if r == ResolveValue(v, env) { forall p ensures ResolvedBy(v, r, p, env) { ResolvedAt(v, p, env); } }
    if ResolvedEverywhere(v, r, env) { ResolvedUnique(v, r, env); }
  }

  /** Same constructors, same lengths, same keys; only string contents may differ. */
  predicate SameShape(a: Json, b: Json) {
    match (a, b)
    case (Str(_), Str(_)) => true
    case (Arr(xs), Arr(ys)) => |xs| == |ys| && forall i :: 0 <= i < |xs| ==> SameShape(xs[i], ys[i])
    case (Obj(m), Obj(n)) => m.Keys == n.Keys && forall k :: k in m ==> SameShape(m[k], n[k])
    case _ => a == b
  }

  lemma {:induction false} ShapeKept(v: Json, env: Env)
    ensures SameShape(v, ResolveValue(v, env))
  {
    match v
    case Arr(xs) => forall i | 0 <= i < |xs|
        ensures SameShape(xs[i], ResolveValue(xs[i], env)) { ShapeKept(xs[i], env); }
    case Obj(m) => forall k | k in m ensures SameShape(m[k], ResolveValue(m[k], env)) { ShapeKept(m[k], env); }
    case _ =>
  }

  lemma {:induction false} TreeStable(v: Json, env: Env)
    requires Idempotent(env)
    ensures ResolveValue(ResolveValue(v, env), env) == ResolveValue(v, env)
  {
    match v
    case Str(s) => assert StableOn(s, env);
    case Arr(xs) =>
      forall i | 0 <= i < |xs| ensures ResolveValue(ResolveValue(xs[i], env), env) == ResolveValue(xs[i], env) {
        TreeStable(xs[i], env);
      }
    case Obj(m) =>
      forall k | k in m ensures ResolveValue(ResolveValue(m[k], env), env) == ResolveValue(m[k], env) {
        TreeStable(m[k], env);
      }
    case _ =>
  }

  ghost predicate TreeIdempotent(env: Env) {
    forall v :: ResolveValue(ResolveValue(v, env), env) == ResolveValue(v, env)
  }

  /** The same exact condition decides idempotence on every configuration tree. */
  lemma TreeIdempotentIff(env: Env)
    ensures TreeIdempotent(env) <==> Separated(env)
  {
    IdempotentIff(env);
    if Idempotent(env) { forall v { TreeStable(v, env); } }
    if TreeIdempotent(env) {
      forall s ensures StableOn(s, env) {
        assert ResolveValue(ResolveValue(Str(s), env), env) == ResolveValue(Str(s), env);
      }
    }
  }
}
