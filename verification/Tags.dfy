/** Normalisation of provider tags: no emoji, no boilerplate, single spaces. */
module Tags {
  import opened Text

  const BOILERPLATE := "(Без рекламы)"

  predicate IsEmoji(c: char) {
    var n := c as int;
    || 0x1F1E0 <= n <= 0x1F1FF || 0x1F300 <= n <= 0x1F5FF || 0x1F600 <= n <= 0x1F64F || 0x1F680 <= n <= 0x1F6FF
    || 0x1F900 <= n <= 0x1F9FF || 0x2600 <= n <= 0x27BF || 0x2800 <= n <= 0x28FF
    || n == 0x200D || n == 0xFE0F || n == 0xA9 || n == 0xAE
  }

  function StripEmoji(s: string): string {
    if s == [] then [] else (if IsEmoji(s[0]) then [] else [s[0]]) + StripEmoji(s[1..])
  }

  /** How many characters the first word of `s` has. */
  function WordLength(s: string): (n: nat)
    ensures n <= |s|
    ensures forall i :: 0 <= i < n ==> !IsSpace(s[i])
    ensures n < |s| ==> IsSpace(s[n])
  {
    if s == [] || IsSpace(s[0]) then 0 else 1 + WordLength(s[1..])
  }

  /** str.split(): the maximal runs of other characters than white space. */
  function Words(s: string): seq<string>
    decreases |s|
  {
    if s == [] then []
    else if IsSpace(s[0]) then Words(s[1..])
    else [s[..WordLength(s)]] + Words(s[WordLength(s)..])
  }

  /** " ".join */
  function Join(words: seq<string>): string {
    if words == [] then []
    else if |words| == 1 then words[0]
    else words[0] + " " + Join(words[1..])
  }

  function NormalizeTag(tag: string): string {
    Strip(Join(Words(Erase(StripEmoji(tag), BOILERPLATE))))
  }

  // ---------------------------------------------------------------- word lists

  predicate IsWord(w: string) {
    w != [] && forall c :: c in w ==> !IsSpace(c)
  }

  ghost predicate AllWords(words: seq<string>) {
    forall w :: w in words ==> IsWord(w)
  }

  lemma {:induction false} SplitGivesWords(s: string)
    ensures AllWords(Words(s))
    ensures forall w, c :: w in Words(s) && c in w ==> c in s
    decreases |s|
  {
    if s != [] {
      if IsSpace(s[0]) {
        SplitGivesWords(s[1..]);
      } else {
        var n := WordLength(s);
        SplitGivesWords(s[n..]);
        forall c | c in s[..n] ensures !IsSpace(c) {
          var i :| 0 <= i < n && s[..n][i] == c;
        }
      }
    }
  }

  lemma {:induction false} WordLengthOf(w: string, rest: string)
    requires forall c :: c in w ==> !IsSpace(c)
    requires rest == [] || IsSpace(rest[0])
    ensures WordLength(w + rest) == |w|
  {
    if w == [] {
      assert w + rest == rest;
    } else {
      assert (w + rest)[1..] == w[1..] + rest;
      WordLengthOf(w[1..], rest);
    }
  }

  /** Splitting undoes joining. */
  lemma {:induction false} SplitJoin(words: seq<string>)
    requires AllWords(words)
    ensures Words(Join(words)) == words
  {
    if words != [] {
      var w := words[0];
      assert IsWord(w);
      assert !IsSpace(w[0]);
      if |words| == 1 {
        WordLengthOf(w, []);
        assert w + [] == w;
        assert Words(w[|w|..]) == [];
      } else {
        var rest := " " + Join(words[1..]);
        assert Join(words) == w + rest;
        WordLengthOf(w, rest);
        assert (w + rest)[..|w|] == w && (w + rest)[|w|..] == rest;
        assert rest[1..] == Join(words[1..]);
        SplitJoin(words[1..]);
      }
    }
  }

  /** Collapsing white space never lengthens a text. */
  lemma {:induction false} CollapseShortens(s: string)
    ensures |Join(Words(s))| <= |s|
    decreases |s|
  {
    if s != [] {
      if IsSpace(s[0]) {
        CollapseShortens(s[1..]);
      } else {
        var n := WordLength(s);
        var rest := s[n..];
        CollapseShortens(rest);
        assert Words(s)[1..] == Words(rest);
        if rest != [] && Words(rest) != [] {
          CollapseShortens(rest[1..]);
          assert Words(rest) == Words(rest[1..]);
        }
      }
    }
  }

  lemma {:induction false} JoinEnds(words: seq<string>)
    requires AllWords(words) && words != []
    ensures Join(words) != []
    ensures !IsSpace(Join(words)[0]) && !IsSpace(Join(words)[|Join(words)| - 1])
  {
    assert IsWord(words[0]);
    if |words| > 1 {
      JoinEnds(words[1..]);
    } else {
      assert words[0][|words[0]| - 1] in words[0];
    }
    assert words[0][0] in words[0];
  }

  lemma StripJoin(words: seq<string>)
    requires AllWords(words)
    ensures Strip(Join(words)) == Join(words)
  {
    if words != [] {
      JoinEnds(words);
    }
  }

  lemma {:induction false} JoinChars(words: seq<string>)
    ensures forall c :: c in Join(words) ==> c == ' ' || exists w :: w in words && c in w
  {
    if |words| > 1 {
      JoinChars(words[1..]);
      forall c | c in Join(words) ensures c == ' ' || exists w :: w in words && c in w {
        if c in words[0] {
          assert words[0] in words;
        } else if c in Join(words[1..]) && c != ' ' {
          var w :| w in words[1..] && c in w;
          assert w in words;
        }
      }
    } else if |words| == 1 {
      assert words[0] in words;
    }
  }

  // ------------------------------------------------------- erasing and emoji

  lemma {:induction false} StripEmojiLeavesNone(s: string)
    ensures forall c :: c in StripEmoji(s) ==> c in s && !IsEmoji(c)
  {
    if s != [] {
      StripEmojiLeavesNone(s[1..]);
    }
  }

  lemma {:induction false} NoEmojiToStrip(s: string)
    requires forall c :: c in s ==> !IsEmoji(c)
    ensures StripEmoji(s) == s
  {
    if s != [] {
      assert s == [s[0]] + s[1..];
      NoEmojiToStrip(s[1..]);
    }
  }

  lemma {:induction false} EraseChars(s: string, part: string)
    requires part != []
    ensures forall c :: c in Erase(s, part) ==> c in s
    ensures |Erase(s, part)| <= |s|
    decreases |s|
  {
    if s != [] {
      if part <= s {
        EraseChars(s[|part|..], part);
      } else {
        EraseChars(s[1..], part);
      }
    }
  }

  lemma {:induction false} EraseIff(s: string, part: string)
    requires part != []
    ensures !Contains(s, part) ==> Erase(s, part) == s
    ensures Contains(s, part) ==> |Erase(s, part)| < |s|
    decreases |s|
  {
    if s != [] {
      if part <= s {
        EraseChars(s[|part|..], part);
      } else {
        EraseIff(s[1..], part);
      }
    }
  }

  lemma {:induction false} ContainsChars(s: string, part: string)
    requires Contains(s, part)
    ensures forall c :: c in part ==> c in s
    decreases |s|
  {
    if part <= s {
      assert s == part + s[|part|..];
    } else {
      ContainsChars(s[1..], part);
    }
  }

  // -------------------------------------------------------------- main results

  /** The normal form is words without emoji, joined by single spaces. */
  lemma NormalForm(tag: string) returns (words: seq<string>)
    ensures AllWords(words) && NormalizeTag(tag) == Join(words)
    ensures forall c :: c in NormalizeTag(tag) ==> !IsEmoji(c)
  {
    var bare := StripEmoji(tag);
    var kept := Erase(bare, BOILERPLATE);
    words := Words(kept);
    SplitGivesWords(kept);
    StripJoin(words);
    StripEmojiLeavesNone(tag);
    EraseChars(bare, BOILERPLATE);
    JoinChars(words);
    forall c | c in NormalizeTag(tag) ensures !IsEmoji(c) {
      if c != ' ' {
        var w :| w in words && c in w;
        assert c in kept;
      }
    }
  }

  /**
   Normalising again changes nothing if and only if the first pass left no boilerplate
   behind: removing one piece can bring the halves of another together.
   */
  lemma NormalizeIdempotentIff(tag: string)
    ensures NormalizeTag(NormalizeTag(tag)) == NormalizeTag(tag) <==> !Contains(NormalizeTag(tag), BOILERPLATE)
  {
    var n := NormalizeTag(tag);
    var words := NormalForm(tag);
    NoEmojiToStrip(n);
    EraseIff(n, BOILERPLATE);
    var kept := Erase(n, BOILERPLATE);
    SplitGivesWords(kept);
    StripJoin(Words(kept));
    CollapseShortens(kept);
    SplitJoin(words);
  }

  /** A tag of plain characters is its own normal form. */
  lemma PlainTagUnchanged(tag: string)
    requires forall c :: c in tag ==> !IsEmoji(c) && !IsSpace(c) && c != '('
    ensures NormalizeTag(tag) == tag
  {
    NoEmojiToStrip(tag);
    EraseIff(tag, BOILERPLATE);
    assert BOILERPLATE[0] == '(' && '(' in BOILERPLATE;
    if Contains(tag, BOILERPLATE) {
      ContainsChars(tag, BOILERPLATE);
    }
    if tag != [] {
      WordLengthOf(tag, []);
      assert tag + [] == tag;
      assert Words(tag[|tag|..]) == [];
      assert Words(tag) == [tag];
      assert AllWords([tag]);
      StripJoin([tag]);
    }
  }

  /** No flag is left in a normal form, and no picture of the blocks emoji come from. */
  lemma FlagsGone(tag: string, c: char)
    requires c in NormalizeTag(tag)
    ensures !(0x1F1E6 <= c as int <= 0x1F1FF) && !(0x1F300 <= c as int <= 0x1F64F) && !(0x1F680 <= c as int <= 0x1F6FF)
    ensures !(0x2600 <= c as int <= 0x28FF && !(0x27C0 <= c as int <= 0x27FF)) && c != '\U{FE0F}' && c != '\U{200D}'
  {
    var words := NormalForm(tag);
  }

  /** A word of Latin, Greek or Cyrillic letters, digits and signs below U+2000 is its own normal form. */
  lemma LettersStay(word: string)
    requires forall c :: c in word ==>
      (0x21 <= c as int <= 0x7E && c != '(') || (0xA1 <= c as int <= 0x167F && c != '\U{A9}' && c != '\U{AE}')
    ensures NormalizeTag(word) == word
  {
    PlainTagUnchanged(word);
  }

  lemma {:induction false} EraseAround(head: string, part: string, tail: string)
    requires part != []
    requires forall i :: 0 <= i < |head| ==> !(part <= (head + part + tail)[i..])
    ensures Erase(head + part + tail, part) == head + Erase(tail, part)
    decreases |head|
  {
    var s := head + part + tail;
    if head == [] {
      assert s == part + tail && s[|part|..] == tail;
    } else {
      assert s[0..] == s;
      assert s[1..] == head[1..] + part + tail;
      forall i | 0 <= i < |head[1..]| ensures !(part <= (head[1..] + part + tail)[i..]) {
        assert s[1..][i..] == s[i + 1..];
      }
      EraseAround(head[1..], part, tail);
    }
  }

  /** Erasing what stands between two texts joins them. */
  lemma EraseBetween(head: string, part: string, tail: string)
    requires part != [] && !Contains(tail, part)
    requires forall i :: 0 <= i < |head| ==> !(part <= (head + part + tail)[i..])
    ensures Erase(head + part + tail, part) == head + tail
  {
    EraseAround(head, part, tail);
    EraseIff(tail, part);
  }

  lemma EraseWhole(part: string)
    requires part != []
    ensures Erase(part, part) == []
  {
    assert part == [] + part + [];
    EraseAround([], part, []);
  }

  /** The boilerplate's second half holds no opening parenthesis, so no boilerplate. */
  lemma TailHasNone()
    ensures !Contains("рекламы)", BOILERPLATE)
  {
    var tail := "рекламы)";
    assert BOILERPLATE[0] !in tail && BOILERPLATE[0] in BOILERPLATE;
    if Contains(tail, BOILERPLATE) {
      ContainsChars(tail, BOILERPLATE);
    }
  }

  lemma HeadStartsNone(tag: string)
    requires tag == "(Без " + BOILERPLATE + "рекламы)"
    ensures forall i :: 0 <= i < 5 ==> !(BOILERPLATE <= tag[i..])
  {
    forall i | 0 <= i < 5 ensures !(BOILERPLATE <= tag[i..]) {
      assert tag[i..][0] == tag[i] && tag[i..][5] == tag[i + 5];
    }
  }

  lemma NestedErased()
    ensures Erase("(Без " + BOILERPLATE + "рекламы)", BOILERPLATE) == BOILERPLATE
  {
    var head, tail := "(Без ", "рекламы)";
    TailHasNone();
    HeadStartsNone(head + BOILERPLATE + tail);
    EraseBetween(head, BOILERPLATE, tail);
    assert head + tail == BOILERPLATE;
  }

  lemma BoilerplateCollapsed()
    ensures Strip(Join(Words(BOILERPLATE))) == BOILERPLATE
  {
    var words := ["(Без", "рекламы)"];
    assert IsWord(words[0]) && IsWord(words[1]);
    assert words[1..] == [words[1]];
    assert Join(words) == BOILERPLATE;
    SplitJoin(words);
    StripJoin(words);
  }

  lemma NormalizeSteps(tag: string, kept: string)
    requires forall c :: c in tag ==> !IsEmoji(c)
    requires Erase(tag, BOILERPLATE) == kept
    ensures NormalizeTag(tag) == Strip(Join(Words(kept)))
  {
    NoEmojiToStrip(tag);
  }

  lemma NoEmojiNested()
    ensures forall c :: c in BOILERPLATE ==> !IsEmoji(c)
    ensures forall c :: c in "(Без " + BOILERPLATE + "рекламы)" ==> !IsEmoji(c)
  {
  }

  /** A tag whose second pass takes away what the first one put together. */
  lemma NormalizeTwiceDiffers(tag: string)
    requires tag == "(Без " + BOILERPLATE + "рекламы)"
    ensures NormalizeTag(tag) == BOILERPLATE && NormalizeTag(BOILERPLATE) == ""
  {
    NoEmojiNested();
    NestedErased();
    NormalizeSteps(tag, BOILERPLATE);
    BoilerplateCollapsed();
    EraseWhole(BOILERPLATE);
    NormalizeSteps(BOILERPLATE, []);
    assert Words([]) == [];
  }
}
