/** The slug of a seller's first store, and the store a seller lands in. */
module StoreSlug {

  predicate SlugChar(c: char) {
    'a' <= c <= 'z' || '0' <= c <= '9' || c == '-'
  }

  /** After lower-casing and trimming: keep letters and digits, turn separators into dashes, drop the rest. */
  function Mapped(s: string): (r: string)
    ensures forall i :: 0 <= i < |r| ==> SlugChar(r[i])
  {
    if s == "" then ""
    else if ('a' <= s[0] <= 'z') || ('0' <= s[0] <= '9') then [s[0]] + Mapped(s[1..])
    else if s[0] == '-' || s[0] == '_' || s[0] == ' ' then "-" + Mapped(s[1..])
    else Mapped(s[1..])
  }

  predicate DoubleDashAt(s: string, i: int) {
    0 <= i < |s| - 1 && s[i] == '-' && s[i + 1] == '-'
  }

  predicate HasDoubleDash(s: string) {
    exists i :: 0 <= i < |s| - 1 && DoubleDashAt(s, i)
  }

  /** All non-overlapping double dashes, left to right, become single ones. */
  function ReplaceAll(s: string): string {
    if |s| < 2 then s
    else if s[0] == '-' && s[1] == '-' then "-" + ReplaceAll(s[2..])
    else [s[0]] + ReplaceAll(s[1..])
  }

  /** Every run of dashes becomes one dash, in one pass. */
  function Collapse(s: string): string {
    if |s| < 2 then s
    else if s[0] == '-' && s[1] == '-' then Collapse(s[1..])
    else [s[0]] + Collapse(s[1..])
  }

  lemma {:induction false} ReplacingKeepsCollapse(c: char, s: string)
    ensures Collapse([c] + ReplaceAll(s)) == Collapse([c] + s)
    decreases |s|
  {
    if |s| >= 2 {
      var rest := if s[0] == '-' && s[1] == '-' then s[2..] else s[1..];
      var r := [s[0]] + ReplaceAll(rest);
      assert ReplaceAll(s) == r;
      ReplacingKeepsCollapse(s[0], rest);
      assert ([c] + r)[1..] == r && ([c] + s)[1..] == s;
      assert s[1..] == [s[1]] + s[2..];
      if s[0] == '-' && s[1] == '-' {
        assert ["-"[0]] + rest == s[1..];
        assert Collapse(s) == Collapse(s[1..]);
      } else {
        assert [s[0]] + rest == s;
      }
    }
  }

  lemma CollapseSurvivesReplacing(s: string)
    ensures Collapse(ReplaceAll(s)) == Collapse(s)
  {
    if |s| >= 2 {
      if s[0] == '-' && s[1] == '-' {
        ReplacingKeepsCollapse('-', s[2..]);
        assert "-" + s[2..] == s[1..];
      } else {
        ReplacingKeepsCollapse(s[0], s[1..]);
        assert [s[0]] + s[1..] == s;
      }
    }
  }

  lemma {:induction false} ReplacingShortens(s: string)
    ensures |ReplaceAll(s)| <= |s|
    ensures HasDoubleDash(s) ==> |ReplaceAll(s)| < |s|
    decreases |s|
  {
    if |s| >= 2 {
      if s[0] == '-' && s[1] == '-' {
        ReplacingShortens(s[2..]);
      } else {
        ReplacingShortens(s[1..]);
        if HasDoubleDash(s) {
          assert !DoubleDashAt(s, 0);
          var i :| 0 < i < |s| - 1 && DoubleDashAt(s, i);
          assert s[1..][i - 1] == s[i] && s[1..][i] == s[i + 1];
          assert DoubleDashAt(s[1..], i - 1);
        }
      }
    }
  }

  lemma {:induction false} CollapsedIsFixed(s: string)
    requires !HasDoubleDash(s)
    ensures Collapse(s) == s
    decreases |s|
  {
    if |s| >= 2 {
      assert !DoubleDashAt(s, 0);
      forall i
        ensures !DoubleDashAt(s[1..], i)
      {
        assert !DoubleDashAt(s, i + 1);
      }
      CollapsedIsFixed(s[1..]);
    }
  }

  /** A pass leaves the first character, no double dash, and only characters it found. */
  lemma {:induction false} CollapseIsClean(s: string)
    ensures !HasDoubleDash(Collapse(s))
    ensures s != "" ==> Collapse(s) != "" && Collapse(s)[0] == s[0]
    ensures forall i :: 0 <= i < |Collapse(s)| ==> Collapse(s)[i] in s
    decreases |s|
  {
    if |s| >= 2 {
      var tail := Collapse(s[1..]);
      CollapseIsClean(s[1..]);
      if !(s[0] == '-' && s[1] == '-') {
        forall i
          ensures !DoubleDashAt([s[0]] + tail, i)
        {
          assert !DoubleDashAt(tail, i - 1);
        }
      }
    }
  }

  /** The loop: replace until no double dash is left. It ends, with every run collapsed. */
  method CollapseDashes(s: string) returns (r: string)
    ensures r == Collapse(s)
  {
    r := s;
    while HasDoubleDash(r)
      invariant Collapse(r) == Collapse(s)
      decreases |r|
    {
      CollapseSurvivesReplacing(r);
      ReplacingShortens(r);
      r := ReplaceAll(r);
    }
    CollapsedIsFixed(r);
  }

  function TrimLeft(s: string): string {
    if s != "" && s[0] == '-' then TrimLeft(s[1..]) else s
  }

  function TrimRight(s: string): string {
    if s != "" && s[|s| - 1] == '-' then TrimRight(s[..|s| - 1]) else s
  }

  function Trim(s: string): string {
    TrimRight(TrimLeft(s))
  }

  function Normal(s: string): string {
    Trim(Collapse(Mapped(s)))
  }

  /** Letters, digits and single inner dashes. */
  predicate WellFormed(s: string) {
    && (forall i :: 0 <= i < |s| ==> SlugChar(s[i]))
    && !HasDoubleDash(s)
    && (s != "" ==> s[0] != '-' && s[|s| - 1] != '-')
  }

  predicate Inner(s: string) {
    (forall i :: 0 <= i < |s| ==> SlugChar(s[i])) && !HasDoubleDash(s)
  }

  lemma {:induction false} TrimLeftIsClean(s: string)
    requires Inner(s)
    ensures Inner(TrimLeft(s)) && (TrimLeft(s) != "" ==> TrimLeft(s)[0] != '-')
    decreases |s|
  {
    if s != "" && s[0] == '-' {
      forall i
        ensures !DoubleDashAt(s[1..], i)
      {
        assert !DoubleDashAt(s, i + 1);
      }
      TrimLeftIsClean(s[1..]);
    }
  }

  lemma {:induction false} TrimRightIsClean(s: string)
    requires Inner(s) && (s != "" ==> s[0] != '-')
    ensures WellFormed(TrimRight(s))
    decreases |s|
  {
    if s != "" && s[|s| - 1] == '-' {
      var t := s[..|s| - 1];
      forall i
        ensures !DoubleDashAt(t, i)
      {
        assert !DoubleDashAt(s, i);
      }
      TrimRightIsClean(t);
    }
  }

  lemma NormalIsWellFormed(s: string)
    ensures WellFormed(Normal(s))
  {
    var m := Mapped(s);
    CollapseIsClean(m);
    assert forall c :: c in m ==> SlugChar(c);
    TrimLeftIsClean(Collapse(m));
    TrimRightIsClean(TrimLeft(Collapse(m)));
  }

  lemma {:induction false} MappedIsFixed(s: string)
    requires forall i :: 0 <= i < |s| ==> SlugChar(s[i])
    ensures Mapped(s) == s
    decreases |s|
  {
    if s != "" {
      MappedIsFixed(s[1..]);
    }
  }

  /** Exactly the well-formed strings are left alone. */
  lemma NormalFixesTheWellFormed(s: string)
    ensures Normal(s) == s <==> WellFormed(s)
  {
    if WellFormed(s) {
      MappedIsFixed(s);
      CollapsedIsFixed(s);
    }
    NormalIsWellFormed(s);
  }

  /** Normalising again changes nothing, for any lower-casing and trimming that leaves slug characters alone. */
  lemma NormalisingTwiceIsOnce(fold: string -> string, s: string)
    requires forall t :: (forall i :: 0 <= i < |t| ==> SlugChar(t[i])) ==> fold(t) == t
    ensures Normal(fold(Normal(fold(s)))) == Normal(fold(s))
  {
    NormalIsWellFormed(fold(s));
    NormalFixesTheWellFormed(Normal(fold(s)));
  }

  // ---------------------------------------------------------------------------
  // The words of a slug
  // ---------------------------------------------------------------------------

  predicate Letter(c: char) {
    'a' <= c <= 'z' || '0' <= c <= '9'
  }

  predicate Separator(c: char) {
    c == ' ' || c == '_' || c == '-'
  }

  /** The words still to come, with one begun: separators end a word, any other sign but a letter or digit is dropped. */
  function Words(word: string, s: string): seq<string>
    decreases |s|
  {
    if s == "" then Ended(word)
    else if Letter(s[0]) then Words(word + [s[0]], s[1..])
    else if Separator(s[0]) then Ended(word) + Words("", s[1..])
    else Words(word, s[1..])
  }

  function Ended(word: string): seq<string> {
    if word == "" then [] else [word]
  }

  function Joined(words: seq<string>): string {
    if |words| == 0 then "" else if |words| == 1 then words[0] else words[0] + "-" + Joined(words[1..])
  }

  /** The slug of a text is its words, joined by single dashes. */
  lemma NormalJoinsTheWords(s: string)
    ensures Normal(s) == Joined(Words("", s))
  {
    var m := Mapped(s);
    MappingKeepsWords("", s);
    CollapsingKeepsWords("", m);
    var t := TrimLeft(Collapse(m));
    TrimmingLeftKeepsWords(Collapse(m));
    TrimmingRightKeepsWords("", t);
    NormalIsWellFormed(s);
    WordsOfTheWellFormed("", Normal(s));
    assert "" + Normal(s) == Normal(s);
  }

  lemma {:induction false} MappingKeepsWords(word: string, s: string)
    ensures Words(word, Mapped(s)) == Words(word, s)
    decreases |s|
  {
    if s != "" {
      if Letter(s[0]) {
        assert ([s[0]] + Mapped(s[1..]))[1..] == Mapped(s[1..]);
        MappingKeepsWords(word + [s[0]], s[1..]);
      } else if Separator(s[0]) {
        assert ("-" + Mapped(s[1..]))[1..] == Mapped(s[1..]);
        MappingKeepsWords("", s[1..]);
      } else {
        MappingKeepsWords(word, s[1..]);
      }
    }
  }

  lemma {:induction false} CollapsingKeepsWords(word: string, s: string)
    ensures Words(word, Collapse(s)) == Words(word, s)
    decreases |s|
  {
    if |s| >= 2 {
      if s[0] == '-' && s[1] == '-' {
        CollapsingKeepsWords(word, s[1..]);
        assert Words(word, s) == Ended(word) + Words("", s[1..]) == Ended(word) + ([] + Words("", s[1..][1..]));
        assert Words(word, s[1..]) == Ended(word) + Words("", s[1..][1..]);
      } else {
        assert ([s[0]] + Collapse(s[1..]))[1..] == Collapse(s[1..]);
        CollapsingKeepsWords(word + [s[0]], s[1..]);
        CollapsingKeepsWords("", s[1..]);
        CollapsingKeepsWords(word, s[1..]);
      }
    }
  }

  lemma {:induction false} TrimmingLeftKeepsWords(s: string)
    ensures Words("", TrimLeft(s)) == Words("", s)
    decreases |s|
  {
    if s != "" && s[0] == '-' {
      TrimmingLeftKeepsWords(s[1..]);
      assert Words("", s) == [] + Words("", s[1..]);
    }
  }

  lemma {:induction false} LastDashEndsNoWord(word: string, s: string)
    ensures Words(word, s + "-") == Words(word, s)
    decreases |s|
  {
    if s == "" {
      assert s + "-" == "-" && "-"[1..] == "";
    } else {
      assert (s + "-")[1..] == s[1..] + "-" && (s + "-")[0] == s[0];
      LastDashEndsNoWord(word + [s[0]], s[1..]);
      LastDashEndsNoWord("", s[1..]);
      LastDashEndsNoWord(word, s[1..]);
    }
  }

  lemma {:induction false} TrimmingRightKeepsWords(word: string, s: string)
    ensures Words(word, TrimRight(s)) == Words(word, s)
    decreases |s|
  {
    if s != "" && s[|s| - 1] == '-' {
      TrimmingRightKeepsWords(word, s[..|s| - 1]);
      LastDashEndsNoWord(word, s[..|s| - 1]);
      assert s == s[..|s| - 1] + "-";
    }
  }

  /** A well-formed text is its words, joined. */
  lemma {:induction false} WordsOfTheWellFormed(word: string, s: string)
    requires Inner(s) && (s != "" ==> s[|s| - 1] != '-') && (word == "" && s != "" ==> s[0] != '-')
    ensures word + s == Joined(Words(word, s))
    decreases |s|
  {
    if s == "" {
      assert word + s == word;
    } else {
      TailIsInner(s);
      hide Inner;
      if s[0] == '-' {
        WordsOfTheWellFormed("", s[1..]);
        OneWordMore(word, s[1..], Words("", s[1..]));
        assert word + s == word + "-" + s[1..];
      } else {
        WordsOfTheWellFormed(word + [s[0]], s[1..]);
        assert word + s == word + [s[0]] + s[1..];
      }
    }
  }

  lemma TailIsInner(s: string)
    requires Inner(s) && s != "" && s[|s| - 1] != '-'
    ensures Inner(s[1..]) && (s[0] == '-' ==> |s| >= 2 && s[1] != '-') && (s[0] != '-' ==> Letter(s[0]))
  {
    forall i
      ensures !DoubleDashAt(s[1..], i)
    {
      assert !DoubleDashAt(s, i + 1);
    }
    assert !DoubleDashAt(s, 0);
  }

  lemma OneWordMore(word: string, rest: string, words: seq<string>)
    requires word != "" && rest != "" && "" + rest == Joined(words)
    ensures Joined([word] + words) == word + "-" + rest
  {
    assert "" + rest == rest;
    assert ([word] + words)[1..] == words;
  }

  const MIN_LENGTH: nat := 3
  const MAX_FALLBACK: nat := 40

  function Fallback(id: string): string {
    var s := "store-" + id;
    Trim(if |s| > MAX_FALLBACK then s[..MAX_FALLBACK] else s)
  }

  /** folded is the lower-cased and trimmed request, id a lower-cased generated identifier. */
  method NormalizeSlug(folded: string, id: string) returns (slug: string)
    ensures slug == if |Normal(folded)| < MIN_LENGTH then Fallback(id) else Normal(folded)
    ensures WellFormed(id) ==> WellFormed(slug) && |slug| >= MIN_LENGTH
  {
    slug := CollapseDashes(Mapped(folded));
    slug := Trim(slug);
    NormalIsWellFormed(folded);
    if |slug| < MIN_LENGTH {
      slug := "store-" + id;
      if |slug| > MAX_FALLBACK {
        slug := slug[..MAX_FALLBACK];
      }
      slug := Trim(slug);
      if WellFormed(id) {
        FallbackIsWellFormed(id);
      }
    }
  }

  lemma {:induction false} TrimRightKeepsPrefix(p: string, s: string)
    requires p != "" && p[|p| - 1] != '-'
    ensures |TrimRight(p + s)| >= |p|
    decreases |s|
  {
    if s != "" && s[|s| - 1] == '-' {
      assert (p + s)[..|p + s| - 1] == p + s[..|s| - 1];
      TrimRightKeepsPrefix(p, s[..|s| - 1]);
    } else if s == "" {
      assert p + s == p;
    }
  }

  lemma FallbackIsWellFormed(id: string)
    requires WellFormed(id)
    ensures WellFormed(Fallback(id)) && |Fallback(id)| >= MIN_LENGTH
  {
    var s := "store-" + id;
    var cut := if |s| > MAX_FALLBACK then s[..MAX_FALLBACK] else s;
    assert forall i :: 0 <= i < |s| ==> s[i] == if i < 6 then "store-"[i] else id[i - 6];
    forall i
      ensures !DoubleDashAt(cut, i)
    {
      assert !DoubleDashAt(id, i - 6);
    }
    assert cut[0] == 's' && TrimLeft(cut) == cut;
    TrimRightIsClean(cut);
    assert cut == "store" + cut[5..];
    TrimRightKeepsPrefix("store", cut[5..]);
  }

  /** The fallback is the identifier behind "store-", cut at 40 characters and without a last dash. */
  lemma FallbackIs(id: string)
    requires WellFormed(id)
    ensures Fallback(id) <= "store-" + id && |Fallback(id)| <= 40
    ensures 0 < |id| <= 34 ==> Fallback(id) == "store-" + id
    ensures |id| > 34 ==> |Fallback(id)| >= 39
  {
    var s := "store-" + id;
    var cut := if |s| > MAX_FALLBACK then s[..MAX_FALLBACK] else s;
    assert cut[0] == 's' && TrimLeft(cut) == cut && cut <= s;
    TrimRightIsPrefix(cut);
    if |id| > 34 {
      assert cut[38] == id[32] && cut[39] == id[33];
      assert !DoubleDashAt(id, 32);
      if cut[39] == '-' {
        assert cut[..39][38] != '-' && TrimRight(cut) == TrimRight(cut[..39]);
      }
    } else if |id| > 0 {
      assert cut[|cut| - 1] == id[|id| - 1];
    }
  }

  lemma {:induction false} TrimRightIsPrefix(s: string)
    ensures TrimRight(s) <= s
    decreases |s|
  {
    if s != "" && s[|s| - 1] == '-' {
      TrimRightIsPrefix(s[..|s| - 1]);
    }
  }

  /** The preferred store, else the canonical one, else the first in order; empty for none. */
  function SelectCurrent(preferred: string, canonical: string, allowed: set<string>, order: seq<string>): string {
    if preferred != "" && preferred in allowed then preferred
    else if canonical != "" && canonical in allowed then canonical
    else if order != [] then order[0]
    else ""
  }

  /** When the order lists exactly the allowed stores, a seller lands in an allowed store whenever
      there is one; a preference wins exactly while it is allowed, and the canonical store comes next. */
  lemma SelectionIsAllowed(preferred: string, canonical: string, allowed: set<string>, order: seq<string>)
    requires forall x :: x in order <==> x in allowed
    ensures var c := SelectCurrent(preferred, canonical, allowed, order);
            && (allowed != {} ==> c in allowed)
            && (allowed == {} ==> c == "")
            && (preferred != "" ==> (c == preferred <==> preferred in allowed))
            && ((preferred == "" || preferred !in allowed) && canonical != "" && canonical in allowed ==> c == canonical)
  {
    if allowed != {} {
      var x :| x in allowed;
      assert x in order;
    }
    if order != [] {
      assert order[0] in order;
    }
  }
}
