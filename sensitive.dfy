/**
 * The sensitive-word filter: the configured phrase list becomes a
 * lower-cased dictionary, a multi-pattern matcher reports the hits in the
 * lower-cased text, and redaction splices a mask over each hit in turn.
 *
 * The Aho-Corasick matcher is a foreign library. Its answer is a parameter
 * (`hits`) that callers must take from a matcher satisfying MatcherHits:
 * every hit is an occurrence of a dictionary word, and every occurrence of a
 * non-empty word is reported.
 */
module Sensitive {
  import opened Wrappers
  import opened Strings

  /** The text spliced over every hit. */
  const Mask: string := "*###*"

  /** One report of the matcher: `word` occurs at offset `pos` of the searched text. */
  datatype Hit = Hit(pos: nat, word: string)

  /** What SensitiveWordReplace answers: was anything hit, the hit words, the redacted text. */
  datatype Redaction = Redaction(sensitive: bool, words: seq<string>, text: string)

  // ---------------------------------------------------------------------
  // The dictionary (readRunes)

  /** One configured phrase as the matcher sees it: lower-cased, then trimmed of white space. */
  function NormalizeWord(w: string): string
  {
    TrimSpace(Lower(w))
  }

  /** A dictionary entry is lower case and has no white space at either end. */
  lemma NormalizedWordShape(w: string)
    ensures IsLower(NormalizeWord(w))
    ensures var e := NormalizeWord(w); e == [] || (!IsSpace(e[0]) && !IsSpace(e[|e| - 1]))
  {
    var l := Lower(w);
    TrimSpaceIsCore(l);
    LowerIsLower(w);
    SliceOfLower(l, LeadingSpace(l), LeadingSpace(l) + |TrimSpace(l)|);
  }

  /** The dictionary built from the configured phrases: one normalised entry per phrase, in configuration order. */
  function Dictionary(words: seq<string>): (dict: seq<string>)
    ensures |dict| == |words|
  {
    seq(|words|, i requires 0 <= i < |words| => NormalizeWord(words[i]))
  }

  /** readRunes: a loop appending each normalised configured phrase. */
  method ReadRunes(words: seq<string>) returns (dict: seq<string>)
    ensures dict == Dictionary(words)
    ensures |dict| == |words|
    ensures forall i :: 0 <= i < |dict| ==> IsLower(dict[i])
  {
    dict := [];
    for i := 0 to |words|
      invariant dict == Dictionary(words)[..i]
    {
      DictionaryStep(words, i);
      dict := dict + [NormalizeWord(words[i])];
    }
    DictionaryIsLower(words);
  }

  /** The dictionary's first i + 1 entries extend its first i by the normalised i-th phrase. */
  lemma DictionaryStep(words: seq<string>, i: nat)
    requires i < |words|
    ensures Dictionary(words)[..i + 1] == Dictionary(words)[..i] + [NormalizeWord(words[i])]
  {
    var all := Dictionary(words);
    assert all[..i + 1] == all[..i] + [all[i]];
  }

  /** Every dictionary entry is lower case. */
  lemma DictionaryIsLower(words: seq<string>)
    ensures forall i :: 0 <= i < |words| ==> IsLower(Dictionary(words)[i])
  {
    forall i | 0 <= i < |words| ensures IsLower(Dictionary(words)[i]) {
      NormalizedWordShape(words[i]);
    }
  }

  // ---------------------------------------------------------------------
  // The matcher, specified

  /**
   * The hits a matcher built over `dict` may report for the searched text `t`:
   * each is an occurrence of a dictionary word; when not asked to return
   * immediately every occurrence of a non-empty word is among them, and when
   * asked to return immediately it reports at most one, and one if there is any.
   */
  ghost predicate MatcherHits(dict: seq<string>, t: string, hits: seq<Hit>, returnImmediately: bool)
  {
    && (forall i :: 0 <= i < |hits| ==> IsHit(dict, t, HitAt(hits, i)))
    && (forall w, p: nat :: DictionaryWordAt(dict, t, w, p) ==>
          if returnImmediately then |hits| > 0 else Reported(hits, p, w))
    && (returnImmediately ==> |hits| <= 1)
    && (|dict| == 0 ==> |hits| == 0)
  }

  /** The i-th hit (a name of its own, so that facts about hits are drawn on only where a proof asks for them). */
  ghost function HitAt(hits: seq<Hit>, i: nat): Hit
    requires i < |hits|
  {
    hits[i]
  }

  /** A hit is an occurrence of a dictionary word. */
  ghost predicate IsHit(dict: seq<string>, t: string, h: Hit)
  {
    h.word in dict && OccursAt(t, h.word, h.pos)
  }

  /** A non-empty dictionary word occurs in `t` at offset `p`. */
  ghost predicate DictionaryWordAt(dict: seq<string>, t: string, w: string, p: nat)
  {
    w in dict && w != [] && OccursAt(t, w, p)
  }

  ghost predicate Reported(hits: seq<Hit>, p: nat, w: string)
  {
    exists i :: 0 <= i < |hits| && hits[i] == Hit(p, w)
  }

  /** Searching the lower-cased text makes matching case-insensitive: a lower-case entry occurs there exactly where the original text spells it in any case. */
  lemma OccursIgnoringCase(e: string, text: string, p: nat)
    requires IsLower(e)
    ensures OccursAt(Lower(text), e, p) <==> p + |e| <= |text| && Lower(text[p..p + |e|]) == e
  {
    if p + |e| <= |text| {
      LowerSlice(text, p, p + |e|);
    }
  }

  /** There are hits exactly when some dictionary word occurs (for non-empty words, in both directions). */
  lemma HitsIffOccurrence(dict: seq<string>, t: string, hits: seq<Hit>)
    requires MatcherHits(dict, t, hits, false)
    ensures |hits| > 0 ==> exists w, p: nat :: w in dict && OccursAt(t, w, p)
    ensures (exists w, p: nat :: DictionaryWordAt(dict, t, w, p)) ==> |hits| > 0
  {
    if |hits| > 0 {
      assert IsHit(dict, t, HitAt(hits, 0));
    }
  }

  /** The words of the hits, in hit order. */
  function HitWords(hits: seq<Hit>): (ws: seq<string>)
    ensures |ws| == |hits|
  {
    if hits == [] then [] else HitWords(hits[..|hits| - 1]) + [hits[|hits| - 1].word]
  }

  lemma {:induction false} HitWordsAt(hits: seq<Hit>, i: nat)
    requires i < |hits|
    ensures HitWords(hits)[i] == hits[i].word
  {
    if i < |hits| - 1 {
      HitWordsAt(hits[..|hits| - 1], i);
    }
  }

  // ---------------------------------------------------------------------
  // SensitiveWordContains

  /**
   * SensitiveWordContains: `hits` is what the matcher built over the
   * configured phrases reports for the lower-cased text.
   */
  method SensitiveWordContains(configured: seq<string>, text: string, hits: seq<Hit>)
    returns (found: bool, words: seq<string>)
    requires MatcherHits(Dictionary(configured), Lower(text), hits, false)
    ensures configured == [] ==> !found && words == []
    ensures found <==> |hits| > 0
    ensures words == if found then HitWords(hits) else []
  {
    if |configured| == 0 {
      return false, [];
    }
    if |hits| > 0 {
      words := [];
      for i := 0 to |hits|
        invariant words == HitWords(hits[..i])
      {
        assert hits[..i + 1][..i] == hits[..i];
        words := words + [hits[i].word];
      }
      assert hits[..|hits|] == hits;
      return true, words;
    }
    return false, [];
  }

  // ---------------------------------------------------------------------
  // SensitiveWordReplace

  /** One splice: the word's span at `pos` replaced by the mask; None is Go's slice-bounds panic. */
  function SpliceAt(text: string, h: Hit): (r: Option<string>)
    ensures r.Some? <==> h.pos + |h.word| <= |text|
    ensures r.Some? ==> |r.value| == |text| - |h.word| + |Mask|
  {
    if h.pos + |h.word| <= |text| then Some(text[..h.pos] + Mask + text[h.pos + |h.word|..]) else None
  }

  /**
   * The splice loop as written: each hit is spliced, at the offset the
   * matcher reported against the original text, into the text the earlier
   * splices produced.
   */
  function SpliceAll(text: string, hits: seq<Hit>): Option<string>
    decreases |hits|
  {
    if hits == [] then Some(text)
    else match SpliceAt(text, hits[0])
      case None => None
      case Some(t) => SpliceAll(t, hits[1..])
  }

  /** Splicing the hits from index i on is splicing hit i and then the rest. */
  lemma SpliceAllStep(t: string, hits: seq<Hit>, i: nat)
    requires i < |hits|
    ensures SpliceAll(t, hits[i..]) == match SpliceAt(t, hits[i])
                                       case None => None
                                       case Some(u) => SpliceAll(u, hits[i + 1..])
  {
    assert hits[i..][0] == hits[i];
    assert hits[i..][1..] == hits[i + 1..];
  }

  /**
   * What SensitiveWordReplace answers for the configured phrases, a text and
   * the matcher's hits on it: nothing flagged when no phrase is configured or
   * nothing matched, otherwise every hit spliced and its word reported.
   */
  function Redact(configured: seq<string>, text: string, hits: seq<Hit>): Option<Redaction>
  {
    if configured == [] || hits == [] then Some(Redaction(false, [], text))
    else match SpliceAll(text, hits)
      case None => None
      case Some(t) => Some(Redaction(true, HitWords(hits), t))
  }

  /**
   * SensitiveWordReplace: `hits` is what the matcher built over the configured
   * phrases reports for the lower-cased text. None models the runtime panic
   * of a splice whose span ends beyond the current text.
   */
  method SensitiveWordReplace(configured: seq<string>, text: string, hits: seq<Hit>, returnImmediately: bool)
    returns (r: Option<Redaction>)
    requires MatcherHits(Dictionary(configured), Lower(text), hits, returnImmediately)
    ensures configured == [] ==> r == Some(Redaction(false, [], text))
    ensures hits == [] ==> r == Some(Redaction(false, [], text))
    ensures hits != [] ==> r == match SpliceAll(text, hits)
                                case None => None
                                case Some(t) => Some(Redaction(true, HitWords(hits), t))
    ensures r == Redact(configured, text, hits)
  {
    if |configured| == 0 {
      return Some(Redaction(false, [], text));
    }
    if |hits| > 0 {
      r := SpliceHits(text, hits);
      return;
    }
    return Some(Redaction(false, [], text));
  }

  /** The loop of SensitiveWordReplace over a non-empty hit list: splice each hit and collect its word. */
  method SpliceHits(text: string, hits: seq<Hit>) returns (r: Option<Redaction>)
    ensures r == match SpliceAll(text, hits)
                 case None => None
                 case Some(t) => Some(Redaction(true, HitWords(hits), t))
  {
    var words := [];
    var current := text;
    for i := 0 to |hits|
      invariant words == HitWords(hits[..i])
      invariant SpliceAll(text, hits) == SpliceAll(current, hits[i..])
    {
      var h := hits[i];
      SpliceAllStep(current, hits, i);
      if h.pos + |h.word| > |current| {
        return None;
      }
      current := current[..h.pos] + Mask + current[h.pos + |h.word|..];
      assert hits[..i + 1][..i] == hits[..i];
      words := words + [h.word];
    }
    assert hits[..|hits|] == hits;
    return Some(Redaction(true, words, current));
  }

  // ---------------------------------------------------------------------
  // What the splice loop does

  /** A single hit of `w` at `pos` masks exactly that span, changing the length by 5 - |w|. */
  lemma SingleHitSplice(text: string, h: Hit)
    requires OccursAt(Lower(text), h.word, h.pos)
    ensures SpliceAll(text, [h]) == Some(text[..h.pos] + Mask + text[h.pos + |h.word|..])
    ensures |SpliceAll(text, [h]).value| == |text| + |Mask| - |h.word|
  {
    assert [h][1..] == [];
  }

  /** Splices after the first use the old offsets in the new text: with two hits the second misses its word and cuts into the first mask. */
  lemma OffsetsAreNotRecomputed()
    ensures MatcherHits(["ab", "cd"], "ab cd", [Hit(0, "ab"), Hit(3, "cd")], false)
    ensures SpliceAll("ab cd", [Hit(0, "ab"), Hit(3, "cd")]) == Some("*##*###* cd")
  {
    var t := "ab cd";
    var hits := [Hit(0, "ab"), Hit(3, "cd")];
    forall w, p: nat | w in ["ab", "cd"] && w != [] && OccursAt(t, w, p)
      ensures Reported(hits, p, w)
    {
      assert p <= 3;
      if w == "ab" {
        assert t[p..p + 2][0] == t[p];
        assert p == 0;
        assert hits[0] == Hit(p, w);
      } else {
        assert t[p..p + 2][0] == t[p];
        assert p == 3;
        assert hits[1] == Hit(p, w);
      }
    }
    assert t[..0] + Mask + t[2..] == "*###* cd";
    var u := "*###* cd";
    assert u[..3] + Mask + u[5..] == "*##*###* cd";
    assert hits[1..][0] == hits[1];
    assert hits[1..][1..] == [];
  }

  /** When an earlier word is longer than the mask, a later hit's span can run past the shortened text: the loop panics. */
  lemma StaleOffsetCanPanic()
    ensures MatcherHits(["abcdefgh", "xy"], "abcdefgh xy", [Hit(0, "abcdefgh"), Hit(9, "xy")], false)
    ensures SpliceAll("abcdefgh xy", [Hit(0, "abcdefgh"), Hit(9, "xy")]) == None
  {
    StaleHitsAreMatcherOutput();
    StaleSecondSpliceFails();
  }

  /** Both hits are occurrences, and every occurrence is reported. */
  lemma StaleHitsAreMatcherOutput()
    ensures MatcherHits(["abcdefgh", "xy"], "abcdefgh xy", [Hit(0, "abcdefgh"), Hit(9, "xy")], false)
  {
    var t := "abcdefgh xy";
    var hits := [Hit(0, "abcdefgh"), Hit(9, "xy")];
    forall w, p: nat | w in ["abcdefgh", "xy"] && w != [] && OccursAt(t, w, p)
      ensures Reported(hits, p, w)
    {
      if w == "abcdefgh" {
        assert t[p..p + 8][0] == t[p];
        assert p == 0;
        assert hits[0] == Hit(p, w);
      } else {
        assert t[p..p + 2][0] == t[p];
        assert p == 9;
        assert hits[1] == Hit(p, w);
      }
    }
  }

  /** After the first splice the text has 8 characters, so the span 9..11 of the second hit is out of range. */
  lemma StaleSecondSpliceFails()
    ensures SpliceAll("abcdefgh xy", [Hit(0, "abcdefgh"), Hit(9, "xy")]) == None
  {
    var t := "abcdefgh xy";
    var hits := [Hit(0, "abcdefgh"), Hit(9, "xy")];
    assert t[..0] + Mask + t[8..] == "*###* xy";
    assert hits[1..][0] == hits[1];
  }

  /** The hits' spans lie inside a text of length n and do not overlap one another. */
  ghost predicate DisjointSpans(hits: seq<Hit>, n: nat)
  {
    && (forall i :: 0 <= i < |hits| ==> hits[i].pos + |hits[i].word| <= n)
    && (forall i, j :: 0 <= i < j < |hits| ==>
          hits[i].pos + |hits[i].word| <= hits[j].pos || hits[j].pos + |hits[j].word| <= hits[i].pos)
  }

  ghost predicate Covered(hits: seq<Hit>, k: nat)
  {
    exists i :: 0 <= i < |hits| && hits[i].pos <= k < hits[i].pos + |hits[i].word|
  }

  /** A mask-length splice keeps the length, writes the mask over the span and keeps every other character. */
  lemma MaskSplice(text: string, h: Hit)
    requires |h.word| == |Mask| && h.pos + |h.word| <= |text|
    ensures SpliceAt(text, h).Some?
    ensures |SpliceAt(text, h).value| == |text|
    ensures forall k :: h.pos <= k < h.pos + |Mask| ==> SpliceAt(text, h).value[k] == Mask[k - h.pos]
    ensures forall k :: 0 <= k < |text| && !(h.pos <= k < h.pos + |Mask|) ==> SpliceAt(text, h).value[k] == text[k]
  {
  }

  /** Dropping the first hit keeps the spans disjoint, and a position the first hit covers is covered by no other. */
  lemma DisjointTail(hits: seq<Hit>, n: nat, k: nat)
    requires hits != [] && DisjointSpans(hits, n)
    ensures DisjointSpans(hits[1..], n)
    ensures hits[0].pos <= k < hits[0].pos + |hits[0].word| ==> !Covered(hits[1..], k)
  {
    var rest := hits[1..];
    forall i, j | 0 <= i < j < |rest|
      ensures rest[i].pos + |rest[i].word| <= rest[j].pos || rest[j].pos + |rest[j].word| <= rest[i].pos
    {
      assert rest[i] == hits[i + 1] && rest[j] == hits[j + 1];
    }
    if hits[0].pos <= k < hits[0].pos + |hits[0].word| {
      forall j | 0 <= j < |rest| ensures !(rest[j].pos <= k < rest[j].pos + |rest[j].word|) {
        assert rest[j] == hits[j + 1];
      }
    }
  }

  /** A position no hit covers is covered neither by the first hit nor by the rest. */
  lemma UncoveredTail(hits: seq<Hit>, k: nat)
    requires hits != [] && !Covered(hits, k)
    ensures !(hits[0].pos <= k < hits[0].pos + |hits[0].word|)
    ensures !Covered(hits[1..], k)
  {
    var rest := hits[1..];
    forall j | 0 <= j < |rest| ensures !(rest[j].pos <= k < rest[j].pos + |rest[j].word|) {
      assert rest[j] == hits[j + 1];
    }
  }

  /**
   * Only when every hit word is as long as the mask does the loop redact as
   * intended: each hit's span becomes the mask and every other character is
   * kept.
   */
  lemma {:induction false} MaskLengthWordsAreRedacted(text: string, hits: seq<Hit>)
    requires forall i :: 0 <= i < |hits| ==> |hits[i].word| == |Mask|
    requires DisjointSpans(hits, |text|)
    ensures SpliceAll(text, hits).Some?
    ensures |SpliceAll(text, hits).value| == |text|
    ensures forall i, k :: 0 <= i < |hits| && hits[i].pos <= k < hits[i].pos + |Mask| ==>
              SpliceAll(text, hits).value[k] == Mask[k - hits[i].pos]
    ensures forall k :: 0 <= k < |text| && !Covered(hits, k) ==> SpliceAll(text, hits).value[k] == text[k]
    decreases |hits|
  {
    if hits != [] {
      var h := hits[0];
      MaskSplice(text, h);
      var t := SpliceAt(text, h).value;
      var rest := hits[1..];
      DisjointTail(hits, |text|, 0);
      assert forall i :: 0 <= i < |rest| ==> |rest[i].word| == |Mask| by {
        forall i | 0 <= i < |rest| ensures |rest[i].word| == |Mask| { assert rest[i] == hits[i + 1]; }
      }
      MaskLengthWordsAreRedacted(t, rest);
      var r := SpliceAll(t, rest).value;
      assert SpliceAll(text, hits) == SpliceAll(t, rest);
      forall i, k | 0 <= i < |hits| && hits[i].pos <= k < hits[i].pos + |Mask|
        ensures r[k] == Mask[k - hits[i].pos]
      {
        if i == 0 {
          DisjointTail(hits, |text|, k);
        } else {
          assert hits[i] == rest[i - 1];
        }
      }
      forall k | 0 <= k < |text| && !Covered(hits, k)
        ensures r[k] == text[k]
      {
        UncoveredTail(hits, k);
      }
    }
  }
}
