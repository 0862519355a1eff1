/**
 Word wrapping of the prompts drawn over the session
 (`wrap` in crates/termland-client/src/overlay.rs).
 */
module Wrapping {
  import opened Greedy

  // ----- Words -----

  /** The text between single spaces; one empty word for an empty text. */
  function Split(text: string): (words: seq<string>)
    ensures |words| > 0
  {
    if text == "" then [""]
    else
      var rest := Split(text[1..]);
      if text[0] == ' ' then [""] + rest else [[text[0]] + rest[0]] + rest[1..]
  }

  /** Words or lines put together with one space between. */
  function Join(words: seq<string>): string {
    if |words| == 0 then ""
    else if |words| == 1 then words[0]
    else words[0] + " " + Join(words[1..])
  }

  function NonEmpty(words: seq<string>): seq<string> {
    if |words| == 0 then []
    else (if words[0] == "" then [] else [words[0]]) + NonEmpty(words[1..])
  }

  /** The words of a line, however many spaces stand between them. */
  function Words(line: string): seq<string> {
    NonEmpty(Split(line))
  }

  function LineWords(lines: seq<string>): seq<string> {
    if |lines| == 0 then [] else LineWords(lines[..|lines| - 1]) + Words(lines[|lines| - 1])
  }

  /** A word in pieces of `max` characters and a shorter rest. */
  function Chop(word: string, max: nat): seq<string>
    requires max > 0
    decreases |word|
  {
    if word == "" then []
    else if |word| <= max then [word]
    else [word[..max]] + Chop(word[max..], max)
  }

  /** Nothing of a word is lost or moved: full pieces, and a shorter rest that is not empty. */
  lemma {:induction false} ChopPieces(word: string, max: nat)
    requires max > 0
    ensures Flatten(Chop(word, max)) == word
    ensures forall k :: 0 <= k < |Chop(word, max)| - 1 ==> |Chop(word, max)[k]| == max
    ensures word != "" ==> Chop(word, max) != [] && 0 < |Chop(word, max)[|Chop(word, max)| - 1]| <= max
    ensures word == "" ==> Chop(word, max) == []
    decreases |word|
  {
    if |word| > max {
      var rest := Chop(word[max..], max);
      ChopPieces(word[max..], max);
      assert Chop(word, max)[1..] == rest;
      assert word[..max] + word[max..] == word;
    } else if word != "" {
      assert [word][1..] == [] && word + [] == word;
    }
  }

  function Chopped(words: seq<string>, max: nat): seq<string>
    requires max > 0
  {
    if |words| == 0 then [] else Chopped(words[..|words| - 1], max) + Chop(words[|words| - 1], max)
  }

  predicate SpaceFree(word: string) {
    ' ' !in word
  }

  lemma {:induction false} SplitJoin(a: string, b: string)
    ensures Split(a + " " + b) == Split(a) + Split(b)
  {
    var text := a + " " + b;
    SplitFirst(text);
    if a == "" {
      assert text[1..] == b && Split(a) == [""];
    } else {
      hide Split;
      SplitFirst(a);
      var head, tail := Split(a[1..]), Split(b);
      assert text[1..] == a[1..] + " " + b;
      SplitJoin(a[1..], b);
      SplitGrows(a[0], head, tail);
    }
  }

  lemma OneMore(words: seq<string>, i: nat)
    requires i < |words|
    ensures words[..i + 1] == words[..i] + [words[i]]
  {
  }

  lemma SplitGrows(c: char, head: seq<string>, tail: seq<string>)
    requires |head| > 0
    ensures [""] + (head + tail) == ([""] + head) + tail
    ensures (head + tail)[0] == head[0]
    ensures [[c] + head[0]] + (head + tail)[1..] == ([[c] + head[0]] + head[1..]) + tail
  {
  }

  lemma SplitFirst(text: string)
    requires text != ""
    ensures var rest := Split(text[1..]);
            Split(text) == if text[0] == ' ' then [""] + rest else [[text[0]] + rest[0]] + rest[1..]
  {
  }

  lemma {:induction false} SplitWord(word: string)
    requires SpaceFree(word)
    ensures Split(word) == [word]
  {
    if word != "" {
      SplitWord(word[1..]);
      assert [word[0]] + word[1..] == word;
    }
  }

  lemma {:induction false} SplitIsSpaceFree(text: string)
    ensures forall w :: w in Split(text) ==> SpaceFree(w)
  {
    if text != "" {
      SplitIsSpaceFree(text[1..]);
      var rest := Split(text[1..]);
      assert SpaceFree(rest[0]);
      assert text[0] != ' ' ==> SpaceFree([text[0]] + rest[0]);
    }
  }

  lemma {:induction false} JoinSplit(text: string)
    ensures Join(Split(text)) == text
  {
    if text != "" {
      JoinSplit(text[1..]);
      var rest := Split(text[1..]);
      if text[0] == ' ' {
        assert Split(text)[1..] == rest;
        assert "" + " " + text[1..] == text;
      } else {
        JoinGrown(text[0], rest[0], rest[1..]);
        assert [rest[0]] + rest[1..] == rest;
        assert [text[0]] + text[1..] == text;
      }
    }
  }

  lemma JoinCons(first: string, rest: seq<string>)
    requires |rest| > 0
    ensures Join([first] + rest) == first + " " + Join(rest)
  {
    assert ([first] + rest)[1..] == rest;
  }

  lemma JoinGrown(c: char, first: string, rest: seq<string>)
    ensures Join([[c] + first] + rest) == [c] + Join([first] + rest)
  {
    if rest == [] {
      assert [[c] + first] + rest == [[c] + first] && [first] + rest == [first];
    } else {
      JoinCons(first, rest);
      JoinCons([c] + first, rest);
      assert ([c] + first) + " " + Join(rest) == [c] + (first + " " + Join(rest));
    }
  }

  lemma {:induction false} NonEmptyAppend(a: seq<string>, b: seq<string>)
    ensures NonEmpty(a + b) == NonEmpty(a) + NonEmpty(b)
  {
    if |a| == 0 {
      assert a + b == b;
    } else {
      assert (a + b)[1..] == a[1..] + b;
      NonEmptyAppend(a[1..], b);
    }
  }

  lemma WordsJoin(a: string, b: string)
    ensures Words(a + " " + b) == Words(a) + Words(b)
  {
    SplitJoin(a, b);
    NonEmptyAppend(Split(a), Split(b));
  }

  lemma WordsOfWord(word: string)
    requires SpaceFree(word)
    ensures Words(word) == if word == "" then [] else [word]
  {
    SplitWord(word);
    assert NonEmpty([word]) == (if word == "" then [] else [word]) + NonEmpty([word][1..]);
  }

  lemma {:induction false} JoinAppend(words: seq<string>, word: string)
    requires |words| > 0
    ensures Join(words + [word]) == Join(words) + " " + word
  {
    if |words| == 1 {
      assert words + [word] == [words[0]] + [word];
      JoinCons(words[0], [word]);
    } else {
      assert words == [words[0]] + words[1..];
      assert words + [word] == [words[0]] + (words[1..] + [word]);
      JoinCons(words[0], words[1..] + [word]);
      JoinAppend(words[1..], word);
      assert words[0] + " " + (Join(words[1..]) + " " + word) == (words[0] + " " + Join(words[1..])) + " " + word;
    }
  }

  // ----- The layout -----

  function Joins(pieces: seq<seq<string>>): (lines: seq<string>)
    ensures |lines| == |pieces|
    ensures forall k :: 0 <= k < |lines| ==> lines[k] == Join(pieces[k])
  {
    if |pieces| == 0 then [] else Joins(pieces[..|pieces| - 1]) + [Join(pieces[|pieces| - 1])]
  }

  predicate FitsIn(max: nat, words: seq<string>) {
    |Join(words)| <= max
  }

  function Fits(max: nat): seq<string> -> bool {
    words => FitsIn(max, words)
  }

  /** Every line was as full as it could be when the next was begun; a full one may be the last. */
  ghost predicate Tight(pieces: seq<seq<string>>, current: seq<string>, max: nat) {
    if current != [] then Filled(Fits(max), pieces + [current])
    else Filled(Fits(max), pieces) && (pieces != [] ==> |Join(pieces[|pieces| - 1])| == max)
  }

  /** The finished lines and the one in progress, as the words they are made of. */
  ghost predicate Laid(lines: seq<string>, line: string, pieces: seq<seq<string>>, current: seq<string>, max: nat) {
    && lines == Joins(pieces)
    && line == Join(current)
    && (line == "" <==> current == [])
    && Tight(pieces, current, max)
  }

  lemma LaidShort(lines: seq<string>, line: string, pieces: seq<seq<string>>, current: seq<string>, max: nat)
    requires Laid(lines, line, pieces, current, max)
    ensures |line| <= max && forall l :: l in lines ==> |l| <= max
  {
    var all := if current != [] then pieces + [current] else pieces;
    assert current != [] ==> all[|all| - 1] == current;
    forall k | 0 <= k < |pieces|
      ensures |lines[k]| <= max
    {
      assert all[k] == pieces[k] && all[k] in all;
      assert Fits(max)(all[k]);
    }
    assert current != [] ==> Fits(max)(current);
  }

  /** Nothing more fits on a finished line of `max` characters. */
  lemma FullIsTight(pieces: seq<seq<string>>, next: seq<string>, max: nat)
    requires Filled(Fits(max), pieces) && next != [] && FitsIn(max, next)
    requires pieces != [] ==> |Join(pieces[|pieces| - 1])| + 1 + |next[0]| > max
    ensures Filled(Fits(max), pieces + [next])
  {
    var all := pieces + [next];
    if pieces != [] {
      JoinAppend(pieces[|pieces| - 1], next[0]);
    }
    forall k | 0 <= k < |all| - 1
      ensures !Fits(max)(all[k] + [all[k + 1][0]])
    {
      assert all[k] == pieces[k];
      if k < |pieces| - 1 {
        assert all[k + 1] == pieces[k + 1];
      }
    }
  }

  lemma JoinsAppend(pieces: seq<seq<string>>, piece: seq<string>)
    ensures Joins(pieces + [piece]) == Joins(pieces) + [Join(piece)]
  {
    assert (pieces + [piece])[..|pieces|] == pieces;
  }

  /** A line goes out because `next` no longer fits behind it, and `next` begins the following one. */
  lemma LaidNext(lines: seq<string>, line: string, pieces: seq<seq<string>>, current: seq<string>,
                 next: string, max: nat)
    requires Laid(lines, line, pieces, current, max) && current != []
    requires |line| + 1 + |next| > max && 0 < |next| <= max
    ensures Laid(lines + [line], next, pieces + [current], [next], max)
  {
    JoinsAppend(pieces, current);
    FullIsTight(pieces + [current], [next], max);
  }

  /** An empty word behind a full line. */
  lemma LaidFull(lines: seq<string>, line: string, pieces: seq<seq<string>>, current: seq<string>, max: nat)
    requires Laid(lines, line, pieces, current, max) && current != [] && |line| + 1 > max
    ensures Laid(lines + [line], "", pieces + [current], [], max)
  {
    LaidShort(lines, line, pieces, current, max);
    JoinsAppend(pieces, current);
  }

  /** The first word of a line. */
  lemma LaidFirst(lines: seq<string>, pieces: seq<seq<string>>, word: string, max: nat)
    requires Laid(lines, "", pieces, [], max) && 0 < |word| <= max
    ensures Laid(lines, word, pieces, [word], max)
  {
    FullIsTight(pieces, [word], max);
  }

  /** A piece of exactly the width is a line of its own. */
  lemma LaidHead(lines: seq<string>, head: string, pieces: seq<seq<string>>, max: nat)
    requires Laid(lines, head, pieces, [head], max) && |head| == max > 0
    ensures Laid(lines + [head], "", pieces + [[head]], [], max)
  {
    JoinsAppend(pieces, [head]);
  }

  /** One word more on the line. */
  lemma LaidMore(lines: seq<string>, line: string, pieces: seq<seq<string>>, current: seq<string>,
                 word: string, max: nat)
    requires Laid(lines, line, pieces, current, max) && current != []
    requires |line| + 1 + |word| <= max
    ensures Laid(lines, line + " " + word, pieces, current + [word], max)
  {
    JoinAppend(current, word);
    var was, now := pieces + [current], pieces + [current + [word]];
    forall k | 0 <= k < |now|
      ensures now[k] != [] && now[k][0] == was[k][0]
    {
      assert was[k] != [];
      assert k < |now| - 1 ==> now[k] == was[k];
    }
    forall k | 0 <= k < |now| - 1
      ensures !Fits(max)(now[k] + [now[k + 1][0]])
    {
      assert now[k] == was[k] && now[k + 1][0] == was[k + 1][0];
    }
    forall p | p in now
      ensures Fits(max)(p)
    {
      assert p in was || p == current + [word];
    }
  }

  /** A piece of the full width, behind whatever line was begun. */
  lemma CutStep(lines: seq<string>, line: string, pieces: seq<seq<string>>, current: seq<string>,
                head: string, max: nat)
    requires Laid(lines, line, pieces, current, max) && |head| == max > 0
    ensures line != "" ==>
              Laid(lines + [line] + [head], "", pieces + [current] + [[head]], [], max)
              && Flatten(pieces + [current] + [[head]]) == Flatten(pieces) + current + [head]
    ensures line == "" ==>
              current == [] && Laid(lines + [head], "", pieces + [[head]], [], max)
              && Flatten(pieces + [[head]]) == Flatten(pieces) + [head]
  {
    if line != "" {
      LaidNext(lines, line, pieces, current, head, max);
      LaidHead(lines + [line], head, pieces + [current], max);
      FlattenAppend(pieces, current);
      FlattenAppend(pieces + [current], [head]);
    } else {
      LaidFirst(lines, pieces, head, max);
      LaidHead(lines, head, pieces, max);
      FlattenAppend(pieces, [head]);
    }
  }

  /** After a word was placed: it stands at the end, unless it was empty and stood nowhere. */
  ghost predicate PlacedWord(kept: seq<string>, word: string, pieces: seq<seq<string>>, current: seq<string>) {
    && (word != "" ==> current != [])
    && (Flatten(pieces) + current == kept + [word] || (word == "" && Flatten(pieces) + current == kept))
  }

  /** A word no longer than a line, on this line or the next. */
  lemma PlaceStep(lines: seq<string>, line: string, pieces: seq<seq<string>>, current: seq<string>,
                  word: string, max: nat)
    returns (piecesAfter: seq<seq<string>>, currentAfter: seq<string>)
    requires Laid(lines, line, pieces, current, max) && |word| <= max
    ensures PlacedWord(Flatten(pieces) + current, word, piecesAfter, currentAfter)
    ensures
      if line == "" then Laid(lines, word, piecesAfter, currentAfter, max)
      else if |line| + 1 + |word| > max then Laid(lines + [line], word, piecesAfter, currentAfter, max)
      else Laid(lines, line + " " + word, piecesAfter, currentAfter, max)
  {
    hide Flatten, Tight, Joins;
    var kept := Flatten(pieces) + current;
    if line != "" && |line| + 1 + |word| > max {
      FlattenAppend(pieces, current);
      piecesAfter, currentAfter := pieces + [current], if word == "" then [] else [word];
      if word == "" {
        LaidFull(lines, line, pieces, current, max);
        assert kept + [] == kept;
      } else {
        LaidNext(lines, line, pieces, current, word, max);
      }
    } else if line != "" {
      piecesAfter, currentAfter := pieces, current + [word];
      LaidMore(lines, line, pieces, current, word, max);
      assert Flatten(pieces) + (current + [word]) == kept + [word];
    } else {
      piecesAfter, currentAfter := pieces, if word == "" then [] else [word];
      if word != "" {
        LaidFirst(lines, pieces, word, max);
        assert kept == Flatten(pieces);
      }
    }
  }

  // ----- What was placed -----

  /** The words on the lines are those of the text, long ones chopped; empty ones only if the text has some. */
  ghost predicate Faithful(kept: seq<string>, words: seq<string>, max: nat)
    requires max > 0
  {
    && NonEmpty(kept) == Chopped(words, max)
    && ("" !in words ==> "" !in kept)
    && forall w :: w in kept ==> SpaceFree(w)
  }

  lemma NonEmptyOne(kept: seq<string>, word: string)
    ensures NonEmpty(kept + [word]) == NonEmpty(kept) + if word == "" then [] else [word]
  {
    NonEmptyAppend(kept, [word]);
    assert NonEmpty([word]) == (if word == "" then [] else [word]) + NonEmpty([word][1..]);
  }

  lemma {:induction false} NonEmptyAll(kept: seq<string>)
    requires "" !in kept
    ensures NonEmpty(kept) == kept
  {
    if |kept| > 0 {
      NonEmptyAll(kept[1..]);
      assert [kept[0]] + kept[1..] == kept;
    }
  }

  /** One word of the text more: cut, then placed. */
  lemma FaithfulStep(kept: seq<string>, words: seq<string>, whole: string, cut: seq<string>, word: string,
                     pieces: seq<seq<string>>, current: seq<string>, max: nat)
    requires max > 0 && Faithful(kept, words, max) && SpaceFree(whole)
    requires if whole == "" then cut == [] && word == "" else word != "" && cut + [word] == Chop(whole, max)
    requires PlacedWord(kept + cut, word, pieces, current)
    ensures Faithful(Flatten(pieces) + current, words + [whole], max)
    ensures whole != "" ==> current != []
  {
    assert (words + [whole])[..|words|] == words;
    if whole == "" {
      assert kept + cut == kept;
      NonEmptyOne(kept, "");
    } else {
      assert (kept + cut) + [word] == kept + Chop(whole, max);
      ChopIsWords(whole, max);
      NonEmptyAppend(kept, Chop(whole, max));
      NonEmptyAll(Chop(whole, max));
    }
  }

  lemma {:induction false} ChopIsWords(word: string, max: nat)
    requires max > 0 && SpaceFree(word)
    ensures "" !in Chop(word, max) && forall w :: w in Chop(word, max) ==> SpaceFree(w)
    decreases |word|
  {
    if |word| > max {
      ChopIsWords(word[max..], max);
    }
  }

  /** One word of the text: cut, then placed. */
  method LayWord(done: seq<string>, begun: string, ghost before: seq<string>, whole: string,
                 ghost piecesBefore: seq<seq<string>>, ghost currentBefore: seq<string>, max: nat)
    returns (lines: seq<string>, line: string, ghost pieces: seq<seq<string>>, ghost current: seq<string>)
    requires max > 0 && Laid(done, begun, piecesBefore, currentBefore, max)
    requires Faithful(Flatten(piecesBefore) + currentBefore, before, max) && SpaceFree(whole)
    ensures Laid(lines, line, pieces, current, max)
    ensures Faithful(Flatten(pieces) + current, before + [whole], max)
    ensures whole != "" ==> current != []
  {
    hide Laid, Faithful, Flatten, PlacedWord, SpaceFree, Chop;
    var word;
    ghost var cut;
    lines, line, word, pieces, current, cut := CutWord(done, begun, whole, piecesBefore, currentBefore, max);
    lines, line, pieces, current := PlaceWord(lines, line, word, pieces, current, max);
    FaithfulStep(Flatten(piecesBefore) + currentBefore, before, whole, cut, word, pieces, current, max);
  }

  /** Cut what is too long for a line; what is left of the word is no longer than one. */
  method CutWord(done: seq<string>, begun: string, whole: string,
                 ghost piecesBefore: seq<seq<string>>, ghost currentBefore: seq<string>, max: nat)
    returns (lines: seq<string>, line: string, word: string,
             ghost pieces: seq<seq<string>>, ghost current: seq<string>, ghost cut: seq<string>)
    requires max > 0 && Laid(done, begun, piecesBefore, currentBefore, max)
    ensures Laid(lines, line, pieces, current, max) && |word| <= max
    ensures Flatten(pieces) + current == Flatten(piecesBefore) + currentBefore + cut
    ensures if whole == "" then cut == [] && word == "" else word != "" && cut + [word] == Chop(whole, max)
  {
    hide Laid, Flatten, Chop;
    lines, line, pieces, current := done, begun, piecesBefore, currentBefore;
    ghost var kept := Flatten(pieces) + current;
    word, cut := whole, [];
    while |word| > max
      invariant Laid(lines, line, pieces, current, max)
      invariant Flatten(pieces) + current == kept + cut
      invariant cut + Chop(word, max) == Chop(whole, max)
      invariant if whole == "" then cut == [] && word == "" else word != ""
    {
      var head := word[..max];
      ghost var more := Chop(word[max..], max);
      CutStep(lines, line, pieces, current, head, max);
      ChopFirst(word, max);
      assert kept + (cut + [head]) == (kept + cut) + [head];
      assert cut + ([head] + more) == (cut + [head]) + more;
      if line != "" {
        lines, line := lines + [line], "";
        pieces, current := pieces + [current], [];
      }
      word := word[max..];
      lines := lines + [head];
      pieces := pieces + [[head]];
      cut := cut + [head];
    }
    ChopFirst(word, max);
    assert kept + [] == kept;
  }

  lemma ChopFirst(word: string, max: nat)
    requires max > 0
    ensures Chop(word, max) ==
            if word == "" then [] else if |word| <= max then [word] else [word[..max]] + Chop(word[max..], max)
  {
  }

  /** Place a word no longer than a line. */
  method PlaceWord(done: seq<string>, begun: string, word: string,
                   ghost piecesBefore: seq<seq<string>>, ghost currentBefore: seq<string>, max: nat)
    returns (lines: seq<string>, line: string, ghost pieces: seq<seq<string>>, ghost current: seq<string>)
    requires Laid(done, begun, piecesBefore, currentBefore, max) && |word| <= max
    ensures Laid(lines, line, pieces, current, max)
    ensures PlacedWord(Flatten(piecesBefore) + currentBefore, word, pieces, current)
  {
    lines, line := done, begun;
    pieces, current := PlaceStep(lines, line, piecesBefore, currentBefore, word, max);
    var needed := if line == "" then |word| else |line| + 1 + |word|;
    if needed > max {
      lines, line := lines + [line], "";
    }
    if line != "" {
      line := line + " ";
    }
    assert "" + word == word;
    line := line + word;
  }

  // ----- What the layout means for the text -----

  lemma {:induction false} JoinConcat(a: seq<string>, b: seq<string>)
    requires |a| > 0 && |b| > 0
    ensures Join(a + b) == Join(a) + " " + Join(b)
  {
    assert a == [a[0]] + a[1..];
    if |a| == 1 {
      JoinCons(a[0], b);
    } else {
      assert a + b == [a[0]] + (a[1..] + b);
      JoinCons(a[0], a[1..] + b);
      JoinConcat(a[1..], b);
      assert a[0] + " " + (Join(a[1..]) + " " + Join(b)) == (a[0] + " " + Join(a[1..])) + " " + Join(b);
    }
  }

  lemma JoinPart(words: seq<string>, k: nat)
    requires k <= |words|
    ensures |Join(words[..k])| <= |Join(words)| && |Join(words[k..])| <= |Join(words)|
  {
    assert words == words[..k] + words[k..];
    if 0 < k < |words| {
      JoinConcat(words[..k], words[k..]);
    } else {
      assert words[..k] == (if k == 0 then [] else words) && words[k..] == (if k == 0 then words else []);
    }
  }

  lemma FitsIsHereditary(max: nat)
    ensures Hereditary(Fits(max))
  {
    forall s: seq<string>, i: int, j: int | 0 <= i <= j <= |s| && Fits(max)(s)
      ensures Fits(max)(s[i..j])
    {
      JoinPart(s, j);
      JoinPart(s[..j], i);
      assert s[..j][i..] == s[i..j];
    }
  }

  lemma {:induction false} WordsOfLine(piece: seq<string>)
    requires forall w :: w in piece ==> SpaceFree(w)
    ensures Words(Join(piece)) == NonEmpty(piece)
  {
    if |piece| == 0 {
      WordsOfWord("");
    } else {
      WordsOfWord(piece[0]);
      if |piece| == 1 {
        assert NonEmpty(piece[1..]) == [];
      } else {
        WordsOfLine(piece[1..]);
        WordsJoin(piece[0], Join(piece[1..]));
      }
    }
  }

  /** The words read off the lines are the words laid out. */
  lemma {:induction false} WordsOfLines(pieces: seq<seq<string>>)
    requires forall w :: w in Flatten(pieces) ==> SpaceFree(w)
    ensures LineWords(Joins(pieces)) == NonEmpty(Flatten(pieces))
  {
    if |pieces| > 0 {
      var before, last := pieces[..|pieces| - 1], pieces[|pieces| - 1];
      assert pieces == before + [last];
      FlattenAppend(before, last);
      WordsOfLines(before);
      WordsOfLine(last);
      NonEmptyAppend(Flatten(before), last);
      assert Joins(pieces)[..|pieces| - 1] == Joins(before);
    }
  }

  /** No word is empty and none is longer than a line: nothing but spaces is ever cut. */
  ghost predicate Regular(words: seq<string>, max: nat) {
    forall w :: w in words ==> 0 < |w| <= max
  }

  lemma {:induction false} ChoppedRegular(words: seq<string>, max: nat)
    requires max > 0 && Regular(words, max)
    ensures Chopped(words, max) == words
  {
    if |words| > 0 {
      var last := words[|words| - 1];
      assert last in words;
      ChoppedRegular(words[..|words| - 1], max);
      assert words == words[..|words| - 1] + [last];
    }
  }

  lemma {:induction false} JoinOfJoins(pieces: seq<seq<string>>)
    requires forall k :: 0 <= k < |pieces| ==> pieces[k] != []
    ensures Join(Joins(pieces)) == Join(Flatten(pieces))
  {
    if |pieces| > 0 {
      var before, last := pieces[..|pieces| - 1], pieces[|pieces| - 1];
      assert pieces == before + [last];
      FlattenAppend(before, last);
      JoinsAppend(before, last);
      if before == [] {
        assert Flatten(before) + last == last && Joins(pieces) == [Join(last)];
      } else {
        JoinOfJoins(before);
        assert Flatten(before) != [] by {
          assert before[0] != [];
        }
        JoinConcat(Flatten(before), last);
        JoinAppend(Joins(before), Join(last));
      }
    }
  }

  function Splits(lines: seq<string>): (pieces: seq<seq<string>>)
    ensures |pieces| == |lines| && forall k :: 0 <= k < |lines| ==> pieces[k] == Split(lines[k])
  {
    if |lines| == 0 then [] else [Split(lines[0])] + Splits(lines[1..])
  }

  lemma {:induction false} SplitsFlatten(lines: seq<string>)
    requires |lines| > 0
    ensures Flatten(Splits(lines)) == Split(Join(lines))
  {
    assert Splits(lines)[1..] == Splits(lines[1..]);
    if |lines| == 1 {
      assert Flatten(Splits(lines)[1..]) == [];
    } else {
      SplitsFlatten(lines[1..]);
      SplitJoin(lines[0], Join(lines[1..]));
    }
  }

  lemma SplitsFit(lines: seq<string>, max: nat)
    requires forall l :: l in lines ==> |l| <= max
    ensures AllFit(Fits(max), Splits(lines))
  {
    forall p | p in Splits(lines)
      ensures Fits(max)(p)
    {
      var k :| 0 <= k < |lines| && p == Splits(lines)[k];
      JoinSplit(lines[k]);
      assert lines[k] in lines;
    }
  }

  /** A tight layout of a text uses no more lines than any other way to break it at spaces. */
  lemma FewestLines(text: string, pieces: seq<seq<string>>, max: nat, others: seq<string>)
    requires Filled(Fits(max), pieces) && Flatten(pieces) == Split(text)
    requires "" !in Split(text)
    requires Join(others) == text && forall l :: l in others ==> |l| <= max
    ensures |pieces| <= |others|
  {
    assert "" in Split("");
    SplitsFlatten(others);
    FitsIsHereditary(max);
    SplitsFit(others, max);
    FilledIsFewest(Fits(max), pieces, Splits(others));
  }

  /** The loop of `wrap`, with the words of each line as evidence. */
  method Lay(text: string, width: nat) returns (lines: seq<string>, ghost pieces: seq<seq<string>>)
    ensures |lines| > 0 && lines == Joins(pieces)
    ensures forall l :: l in lines ==> |l| <= Width(width)
    ensures Faithful(Flatten(pieces), Split(text), Width(width))
    ensures "" !in Split(text) ==> Filled(Fits(Width(width)), pieces)
  {
    var max := if width == 0 then 1 else width;
    lines := [];
    var line := "";
    var words := Split(text);
    SplitIsSpaceFree(text);
    pieces := [];
    ghost var current: seq<string> := [];
    LaidStart(max);
    hide Laid, Faithful, Flatten, Split, PlacedWord, Filled, Joins;
    for i := 0 to |words|
      invariant Laid(lines, line, pieces, current, max)
      invariant Faithful(Flatten(pieces) + current, words[..i], max)
      invariant i > 0 && words[i - 1] != "" ==> current != []
    {
      lines, line, pieces, current := LayWord(lines, line, words[..i], words[i], pieces, current, max);
      OneMore(words, i);
    }
    assert words[..|words|] == words;
    LaidShort(lines, line, pieces, current, max);
    LaidEnd(lines, line, pieces, current, max);
    lines, pieces := lines + [line], pieces + [current];
  }

  lemma LaidStart(max: nat)
    requires max > 0
    ensures Laid([], "", [], [], max) && Faithful(Flatten([]) + [], [], max)
  {
  }

  lemma LaidEnd(lines: seq<string>, line: string, pieces: seq<seq<string>>, current: seq<string>, max: nat)
    requires Laid(lines, line, pieces, current, max)
    ensures lines + [line] == Joins(pieces + [current])
    ensures Flatten(pieces + [current]) == Flatten(pieces) + current
    ensures current != [] ==> Filled(Fits(max), pieces + [current])
  {
    FlattenAppend(pieces, current);
    JoinsAppend(pieces, current);
  }

  function Width(width: nat): nat {
    if width == 0 then 1 else width
  }

  /**
   `wrap`. No line is too long, and the lines hold the words of the text in
   order; only words that no line could hold are cut. When the words
   stand one space apart and each fits on a line, the lines are the text
   broken at spaces, and no other breaking has fewer lines.
   */
  method Wrap(text: string, width: nat) returns (lines: seq<string>)
    ensures forall l :: l in lines ==> |l| <= Width(width)
    ensures LineWords(lines) == Chopped(Split(text), Width(width))
    ensures Regular(Split(text), Width(width)) ==> Join(lines) == text
    ensures Regular(Split(text), Width(width)) ==>
              forall others :: Join(others) == text && (forall l :: l in others ==> |l| <= Width(width)) ==>
                |lines| <= |others|
  {
    ghost var pieces;
    lines, pieces := Lay(text, width);
    WordsOfLines(pieces);
    if Regular(Split(text), Width(width)) {
      assert "" !in Split(text);
      ChoppedRegular(Split(text), Width(width));
      NonEmptyAll(Flatten(pieces));
      JoinOfJoins(pieces);
      JoinSplit(text);
      forall others | Join(others) == text && (forall l :: l in others ==> |l| <= Width(width))
        ensures |lines| <= |others|
      {
        FewestLines(text, pieces, Width(width), others);
      }
    }
  }
}
