/** Putting names back into text, one token after another (agent/anonymizer.py). The order of the
    replacements, the shapes of tokens and what the names look like decide whether this is the
    simultaneous substitution. */
module Deanonymize {
  import opened Tokens

  // str.replace for a non-empty pattern: leftmost matches, not overlapping.
  function ReplaceAll(text: string, pattern: string, name: string): string
    requires pattern != ""
  {
    if |text| < |pattern| then text
    else if pattern <= text then name + ReplaceAll(text[|pattern|..], pattern, name)
    else [text[0]] + ReplaceAll(text[1..], pattern, name)
  }

  lemma TokenNotEmpty(k: nat)
    ensures Token(k) != ""
  {
    assert |PREFIX| == 5;
  }

  // The loop, for whatever order the map is walked in.
  ghost function ReplaceInOrder(text: string, order: seq<nat>, names: seq<string>): string
    requires forall i | 0 <= i < |order| :: order[i] < |names|
  {
    if order == [] then text
    else
      var k := order[|order| - 1];
      TokenNotEmpty(k);
      ReplaceAll(ReplaceInOrder(text, order[..|order| - 1], names), Token(k), names[k])
  }

  ghost function InsertionOrder(n: nat): seq<nat> { seq(n, i => i) }

  // ---- Texts made of whole tokens and text without underscores ------------------------------

  datatype Segment = Piece(s: string) | Mark(k: nat)

  ghost predicate Clean(s: string) { '_' !in s }

  ghost function Show(g: Segment): string {
    match g
    case Piece(s) => s
    case Mark(k) => Token(k)
  }

  ghost function Render(segments: seq<Segment>): string {
    if segments == [] then "" else Show(segments[0]) + Render(segments[1..])
  }

  ghost predicate CleanPieces(segments: seq<Segment>) {
    forall i | 0 <= i < |segments| && segments[i].Piece? :: Clean(segments[i].s)
  }

  ghost predicate MarksBelow(segments: seq<Segment>, n: nat) {
    forall i | 0 <= i < |segments| && segments[i].Mark? :: segments[i].k < n
  }

  // A text the anonymiser may be asked to put names back into.
  ghost predicate Valid(segments: seq<Segment>, names: seq<string>) {
    CleanPieces(segments) && MarksBelow(segments, |names|)
  }

  ghost function Substitute(g: Segment, names: seq<string>): string
    requires g.Mark? ==> g.k < |names|
  {
    match g
    case Piece(s) => s
    case Mark(k) => names[k]
  }

  /** Substituting every whole token by its name, all at once. */
  ghost function Simultaneous(segments: seq<Segment>, names: seq<string>): string
    requires MarksBelow(segments, |names|)
  {
    if segments == [] then "" else Substitute(segments[0], names) + Simultaneous(segments[1..], names)
  }

  lemma JoinJoin(a: string, b: string, c: string)
    ensures a + b + c == a + (b + c)
  {
  }

  lemma {:induction false} RenderJoin(a: seq<Segment>, b: seq<Segment>)
    ensures Render(a + b) == Render(a) + Render(b)
  {
    hide Show;
    if a == [] {
      assert a + b == b;
    } else {
      RenderJoin(a[1..], b);
      assert (a + b)[1..] == a[1..] + b;
      JoinJoin(Show(a[0]), Render(a[1..]), Render(b));
    }
  }

  lemma {:induction false} SimultaneousJoin(a: seq<Segment>, b: seq<Segment>, names: seq<string>)
    requires MarksBelow(a, |names|) && MarksBelow(b, |names|)
    ensures MarksBelow(a + b, |names|)
    ensures Simultaneous(a + b, names) == Simultaneous(a, names) + Simultaneous(b, names)
  {
    hide Substitute;
    if a == [] {
      assert a + b == b;
    } else {
      SimultaneousJoin(a[1..], b, names);
      assert (a + b)[1..] == a[1..] + b;
      JoinJoin(Substitute(a[0], names), Simultaneous(a[1..], names), Simultaneous(b, names));
    }
  }

  // ---- Letters of tokens ----------------------------------------------------------------------

  // Which of the first 26 tokens begins token `k`.
  ghost function First(k: nat): (i: nat)
    ensures i < 26
  {
    LettersCount(k);
    Digit(Letters(k)[0])
  }

  ghost function Tail(k: nat): string {
    LettersCount(k);
    Letters(k)[1..]
  }

  lemma TailClean(k: nat)
    ensures Letters(k) == [Letter(First(k))] + Tail(k) && Clean(Tail(k)) && Clean(Letters(k))
    ensures k < 26 ==> First(k) == k && Letters(k) == [Letter(k)] && Tail(k) == ""
    ensures First(k) <= k
  {
    LettersCount(k);
    assert forall c :: IsUpper(c) ==> c != '_';
  }

  const LEAD := "USER"

  lemma TokenShape(k: nat)
    ensures Token(k) == LEAD + ['_'] + Letters(k) && |LEAD| == 4
  {
  }

  // ---- Names that read as tokens --------------------------------------------------------------

  // One of the two begins with the other.
  ghost predicate Agrees(s: string, w: string) { forall i | 0 <= i < |s| && i < |w| :: s[i] == w[i] }

  /** At `p` the name has an underscore that could be that of the token with letters `w`: what the name holds
      before it, up to four characters, ends "USER", and what it holds after it agrees with `w`. */
  ghost predicate ReadsAt(name: string, w: string, p: nat)
    requires p < |name|
  {
    && name[p] == '_'
    && (if p < 4 then name[..p] == LEAD[4 - p..] else name[p - 4..p] == LEAD)
    && Agrees(name[p + 1..], w)
  }

  /** The name, in some surroundings, holds the token with letters `w` or its end or beginning with the underscore. */
  ghost predicate Reads(name: string, w: string) { exists p: nat :: p < |name| && ReadsAt(name, w, p) }

  // Name `j` may come after name `i`: it is not read there, or replacing its token by it changes nothing.
  ghost predicate Harmless(names: seq<string>, i: nat, j: nat)
    requires i < |names| && j < |names|
  {
    Reads(names[i], Letters(j)) ==> names[j] == Token(j)
  }

  lemma CleanReadsNothing(s: string, w: string)
    requires Clean(s)
    ensures !Reads(s, w)
  {
  }

  ghost predicate Quiet(segments: seq<Segment>, w: string) {
    forall i | 0 <= i < |segments| && segments[i].Piece? :: !Reads(segments[i].s, w)
  }

  lemma CleanIsQuiet(segments: seq<Segment>, w: string)
    requires CleanPieces(segments)
    ensures Quiet(segments, w)
  {
    forall i | 0 <= i < |segments| && segments[i].Piece?
      ensures !Reads(segments[i].s, w)
    {
      CleanReadsNothing(segments[i].s, w);
    }
  }

  // `text` begins with what is left of a token's prefix from `m` characters before the underscore, and its letters.
  ghost predicate Completes(text: string, m: nat, w: string)
    requires m <= 4
  {
    m < |text| && text[..m] == LEAD[4 - m..] && text[m] == '_' && w <= text[m + 1..]
  }

  // ---- One replacement ------------------------------------------------------------------------

  lemma {:induction false} NoneCompleted(segments: seq<Segment>, m: nat, w: string)
    requires Quiet(segments, w) && m < 4
    ensures !Completes(Render(segments), m, w)
  {
    var text := Render(segments);
    if segments != [] && Completes(text, m, w) {
      var g, rest := segments[0], Render(segments[1..]);
      if g.Mark? {
        MarkOpens(g.k, m, text);
      } else if m < |g.s| {
        WithinReads(g.s, rest, m, w);
      } else {
        CompletedLater(g.s, rest, m, w);
        NoneCompleted(segments[1..], m - |g.s|, w);
      }
    }
  }

  lemma MarkOpens(k: nat, m: nat, text: string)
    requires m < 4 && Token(k) <= text
    ensures m < |text| && text[m] != '_'
  {
    TokenShape(k);
    assert text[..4] == LEAD;
    assert text[m] == text[..4][m];
  }

  lemma WithinReads(s: string, rest: string, m: nat, w: string)
    requires m < 4 && m < |s| && Completes(s + rest, m, w)
    ensures Reads(s, w)
  {
    var text := s + rest;
    assert text[..m] == s[..m];
    AgreesWithin(s, rest, m + 1, w);
    assert ReadsAt(s, w, m);
  }

  lemma AgreesWithin(s: string, rest: string, from: nat, w: string)
    requires from <= |s| && w <= (s + rest)[from..]
    ensures Agrees(s[from..], w)
  {
    assert (s + rest)[from..] == s[from..] + rest;
  }

  lemma LeadLength()
    ensures |LEAD| == 4
  {
  }

  lemma EndOfEqual(a: string, b: string, whole: string)
    requires a + b == whole
    ensures b == whole[|a|..]
  {
  }

  lemma CompletedLater(s: string, rest: string, m: nat, w: string)
    requires |s| <= m <= 4 && Completes(s + rest, m, w)
    ensures Completes(rest, m - |s|, w)
  {
    hide LEAD;
    LeadLength();
    var text, l := s + rest, m - |s|;
    assert text[m + 1..] == rest[l + 1..];
    assert text[..m] == s + rest[..l];
    EndOfEqual(s, rest[..l], LEAD[4 - m..]);
    assert LEAD[4 - m..][|s|..] == LEAD[4 - l..];
  }

  lemma BeginsCompletes(text: string, k: nat)
    requires Token(k) <= text
    ensures Completes(text, 4, Letters(k))
  {
    TokenShape(k);
    assert text[..4] == Token(k)[..4] == LEAD && text[4] == Token(k)[4];
    assert Token(k)[5..] == Letters(k);
    assert text[5..][..|Letters(k)|] == Token(k)[5..];
  }

  lemma FurtherInReads(s: string, i: nat, rest: string, w: string)
    requires i + 4 < |s| && Completes(s[i..] + rest, 4, w)
    ensures Reads(s, w)
  {
    var text := s[i..] + rest;
    assert s[i..i + 4] == text[..4] && LEAD[0..] == LEAD;
    AgreesWithin(s[i..], rest, 5, w);
    assert s[i..][5..] == s[i + 5..];
    assert ReadsAt(s, w, i + 4);
  }

  // From no position of a quiet text does a token begin, even one completed by what follows.
  lemma NoneBegins(s: string, i: nat, segments: seq<Segment>, k: nat)
    requires i < |s| && !Reads(s, Letters(k)) && Quiet(segments, Letters(k))
    ensures !(Token(k) <= s[i..] + Render(segments))
  {
    hide Reads, Completes, Render, Quiet, Token, Letters;
    if Token(k) <= s[i..] + Render(segments) {
      BeginsCompletes(s[i..] + Render(segments), k);
      if i + 4 < |s| {
        FurtherInReads(s, i, Render(segments), Letters(k));
      } else {
        CompletedLater(s[i..], Render(segments), 4, Letters(k));
        NoneCompleted(segments, 4 - |s[i..]|, Letters(k));
      }
    }
  }

  lemma {:induction false} PiecePasses(s: string, i: nat, segments: seq<Segment>, k: nat, name: string)
    requires i <= |s| && !Reads(s, Letters(k)) && Quiet(segments, Letters(k))
    ensures Token(k) != ""
    ensures ReplaceAll(s[i..] + Render(segments), Token(k), name)
              == s[i..] + ReplaceAll(Render(segments), Token(k), name)
    decreases |s| - i
  {
    hide Render, Token, Reads, Quiet, ReplaceAll, Letters;
    TokenNotEmpty(k);
    var rest := Render(segments);
    if i == |s| {
      assert s[i..] + rest == rest;
    } else {
      PiecePasses(s, i + 1, segments, k, name);
      NoneBegins(s, i, segments, k);
      var text := s[i..] + rest;
      assert text[1..] == s[i + 1..] + rest && text[0] == s[i];
      NotHere(text, Token(k), name);
      assert s[i..] == [s[i]] + s[i + 1..];
    }
  }

  lemma NotHere(text: string, pattern: string, name: string)
    requires text != "" && pattern != "" && !(pattern <= text)
    ensures ReplaceAll(text, pattern, name) == [text[0]] + ReplaceAll(text[1..], pattern, name)
  {
    if |text| < |pattern| { assert text == [text[0]] + text[1..]; }
  }

  lemma SkipOne(c: char, rest: string, k: nat, name: string)
    requires c != 'U'
    ensures Token(k) != "" && ReplaceAll([c] + rest, Token(k), name) == [c] + ReplaceAll(rest, Token(k), name)
  {
    hide ReplaceAll;
    TokenShape(k);
    var text := [c] + rest;
    assert text[1..] == rest;
    assert Token(k)[0] == 'U';
    NotHere(text, Token(k), name);
  }

  lemma MarkMissed(i: nat, rest: seq<Segment>, k: nat, name: string)
    requires Quiet(rest, Letters(k)) && i < 26 && k < 26 && i != k
    ensures Token(k) != ""
    ensures ReplaceAll(Token(i) + Render(rest), Token(k), name) == Token(i) + ReplaceAll(Render(rest), Token(k), name)
  {
    hide ReplaceAll, Render, Quiet, Reads, Letters;
    TokenShape(i);
    TokenShape(k);
    TailClean(i);
    TailClean(k);
    var letter := [Letter(i)];
    var after := letter + Render(rest);
    CleanReadsNothing(letter, Letters(k));
    PiecePasses(letter, 0, rest, k, name);
    assert letter[0..] == letter;
    SkipOne('_', after, k, name);
    SkipOne('R', ['_'] + after, k, name);
    SkipOne('E', ['R'] + (['_'] + after), k, name);
    SkipOne('S', ['E'] + (['R'] + (['_'] + after)), k, name);
    var tail := ['S'] + (['E'] + (['R'] + (['_'] + after)));
    var text := Token(i) + Render(rest);
    assert text == ['U'] + tail && text[1..] == tail;
    assert text[5] == Letter(i) && Token(k)[5] == Letter(k);
    LettersDiffer(i, k);
    NotHere(text, Token(k), name);
    assert Token(i) == ['U', 'S', 'E', 'R', '_', Letter(i)];
  }

  lemma LettersDiffer(i: nat, k: nat)
    requires i < 26 && k < 26 && i != k
    ensures Letter(i) != Letter(k)
  {
  }

  // Tokens in `done` are filled by their names.
  ghost function FillOne(g: Segment, done: set<nat>, names: seq<string>): Segment
    requires forall i | i in done :: i < |names|
  {
    if g.Mark? && g.k in done then Piece(names[g.k]) else g
  }

  ghost function Fill(segments: seq<Segment>, done: set<nat>, names: seq<string>): seq<Segment>
    requires forall i | i in done :: i < |names|
  {
    seq(|segments|, i requires 0 <= i < |segments| => FillOne(segments[i], done, names))
  }

  lemma FillRest(segments: seq<Segment>, done: set<nat>, names: seq<string>)
    requires segments != [] && forall i | i in done :: i < |names|
    ensures Fill(segments, done, names)[0] == FillOne(segments[0], done, names)
    ensures Fill(segments, done, names)[1..] == Fill(segments[1..], done, names)
  {
  }

  /** One step of the loop fills exactly the tokens it looks for, in any text where no piece reads as that token. */
  lemma {:induction false} StepFills(segments: seq<Segment>, k: nat, names: seq<string>)
    requires Quiet(segments, Letters(k)) && MarksBelow(segments, 26) && k < 26 && k < |names|
    ensures Token(k) != ""
    ensures ReplaceAll(Render(segments), Token(k), names[k]) == Render(Fill(segments, {k}, names))
  {
    hide Reads, Letters, Token;
    TokenNotEmpty(k);
    if segments != [] {
      var rest := segments[1..];
      assert Quiet(rest, Letters(k)) && MarksBelow(rest, 26);
      StepFills(rest, k, names);
      FillRest(segments, {k}, names);
      match segments[0]
      case Piece(s) =>
        PiecePasses(s, 0, rest, k, names[k]);
        assert s[0..] == s;
      case Mark(i) =>
        if i == k {
          var text := Token(k) + Render(rest);
          assert Token(k) <= text && text[|Token(k)|..] == Render(rest);
        } else {
          MarkMissed(i, rest, k, names[k]);
        }
    }
  }

  lemma {:induction false} NothingToReplace(segments: seq<Segment>, k: nat, name: string)
    requires Quiet(segments, Letters(k)) && forall i | 0 <= i < |segments| :: segments[i].Piece?
    ensures Token(k) != "" && ReplaceAll(Render(segments), Token(k), name) == Render(segments)
  {
    hide Reads, Letters, Token;
    TokenNotEmpty(k);
    if segments != [] {
      NothingToReplace(segments[1..], k, name);
      PiecePasses(segments[0].s, 0, segments[1..], k, name);
      assert segments[0].s[0..] == segments[0].s;
    }
  }

  lemma {:induction false} ReplacedByItself(text: string, pattern: string)
    requires pattern != ""
    ensures ReplaceAll(text, pattern, pattern) == text
    decreases |text|
  {
    if |text| >= |pattern| {
      if pattern <= text {
        ReplacedByItself(text[|pattern|..], pattern);
        assert text == pattern + text[|pattern|..];
      } else {
        ReplacedByItself(text[1..], pattern);
      }
    }
  }

  ghost predicate Occurs(pattern: string, text: string) { exists p: nat :: p <= |text| && pattern <= text[p..] }

  /** Replacing something that occurs by something else changes the text. */
  lemma {:induction false} ReplacingChanges(text: string, pattern: string, name: string)
    requires pattern != "" && name != pattern && Occurs(pattern, text)
    ensures ReplaceAll(text, pattern, name) != text
  {
    if |name| == |pattern| {
      SameLengthChanges(text, pattern, name);
    } else {
      LengthChanges(text, pattern, name);
    }
  }

  lemma OccursLater(text: string, pattern: string)
    requires pattern != "" && Occurs(pattern, text)
    ensures |text| >= |pattern| && (pattern <= text || Occurs(pattern, text[1..]))
  {
    var p: nat :| p <= |text| && pattern <= text[p..];
    if p == 0 {
      assert text[0..] == text;
    } else {
      assert text[1..][p - 1..] == text[p..];
    }
  }

  lemma {:induction false} SameLengthChanges(text: string, pattern: string, name: string)
    requires pattern != "" && name != pattern && |name| == |pattern| && Occurs(pattern, text)
    ensures ReplaceAll(text, pattern, name) != text
    decreases |text|
  {
    OccursLater(text, pattern);
    var after := ReplaceAll(text, pattern, name);
    if pattern <= text {
      assert after[..|name|] == name && text[..|pattern|] == pattern;
    } else {
      SameLengthChanges(text[1..], pattern, name);
      assert after[1..] == ReplaceAll(text[1..], pattern, name);
    }
  }

  lemma {:induction false} LengthChanges(text: string, pattern: string, name: string)
    requires pattern != ""
    ensures var n := |ReplaceAll(text, pattern, name)|;
            && (|name| < |pattern| ==> n <= |text| && (Occurs(pattern, text) ==> n < |text|))
            && (|name| > |pattern| ==> n >= |text| && (Occurs(pattern, text) ==> n > |text|))
    decreases |text|
  {
    if |text| >= |pattern| {
      if pattern <= text {
        LengthChanges(text[|pattern|..], pattern, name);
      } else {
        LengthChanges(text[1..], pattern, name);
        if Occurs(pattern, text) { OccursLater(text, pattern); }
      }
    } else if Occurs(pattern, text) {
      OccursLater(text, pattern);
    }
  }

  // ---- The loop --------------------------------------------------------------------------------

  ghost function UpTo(n: nat): (s: set<nat>)
    ensures forall i: nat :: i in s <==> i < n
  {
    if n == 0 then {} else UpTo(n - 1) + {n - 1}
  }

  // How many of the first `n` tokens have a single letter.
  ghost function Single(n: nat): nat { if n < 26 then n else 26 }

  lemma FillTwice(segments: seq<Segment>, done: set<nat>, k: nat, names: seq<string>)
    requires (forall j | j in done :: j < |names|) && k < |names|
    ensures Fill(Fill(segments, done, names), {k}, names) == Fill(segments, done + {k}, names)
  {
  }

  lemma FillQuiet(segments: seq<Segment>, done: set<nat>, names: seq<string>, w: string)
    requires CleanPieces(segments) && forall i | i in done :: i < |names| && !Reads(names[i], w)
    ensures Quiet(Fill(segments, done, names), w)
  {
    hide Reads;
    CleanIsQuiet(segments, w);
  }

  lemma {:induction false} FillIdle(segments: seq<Segment>, done: set<nat>, k: nat, names: seq<string>)
    requires (forall j | j in done :: j < |names|) && k < |names| && names[k] == Token(k)
    ensures Render(Fill(segments, done + {k}, names)) == Render(Fill(segments, done, names))
  {
    if segments != [] {
      FillIdle(segments[1..], done, k, names);
      FillRest(segments, done, names);
      FillRest(segments, done + {k}, names);
    }
  }

  lemma LoopStep(segments: seq<Segment>, done: set<nat>, k: nat, names: seq<string>)
    requires CleanPieces(segments) && MarksBelow(segments, 26) && k < 26 && k < |names|
    requires forall i | i in done :: i < |names| && Harmless(names, i, k)
    ensures Token(k) != ""
    ensures ReplaceAll(Render(Fill(segments, done, names)), Token(k), names[k])
              == Render(Fill(segments, done + {k}, names))
  {
    hide Reads, Letters, Token, Render, ReplaceAll;
    TokenNotEmpty(k);
    var filled := Fill(segments, done, names);
    if names[k] == Token(k) {
      ReplacedByItself(Render(filled), Token(k));
      FillIdle(segments, done, k, names);
    } else {
      FillQuiet(segments, done, names, Letters(k));
      assert MarksBelow(filled, 26);
      StepFills(filled, k, names);
      FillTwice(segments, done, k, names);
    }
  }

  ghost function Seen(order: seq<nat>): set<nat> { set i | i in order }

  /** After any replacements of single-letter tokens, in an order in which no earlier name is disturbed by a later
      token, exactly those tokens are filled. */
  lemma {:induction false} LoopFills(segments: seq<Segment>, order: seq<nat>, names: seq<string>)
    requires CleanPieces(segments) && MarksBelow(segments, 26)
    requires forall i | 0 <= i < |order| :: order[i] < |names| && order[i] < 26
    requires forall i, j | 0 <= i < j < |order| :: Harmless(names, order[i], order[j])
    ensures ReplaceInOrder(Render(segments), order, names) == Render(Fill(segments, Seen(order), names))
  {
    hide Render, ReplaceAll, Harmless, MarksBelow, CleanPieces;
    if order == [] {
      assert Fill(segments, {}, names) == segments;
      assert Seen(order) == {};
    } else {
      var n := |order| - 1;
      LoopFills(segments, order[..n], names);
      LoopStep(segments, Seen(order[..n]), order[n], names);
      assert Seen(order) == Seen(order[..n]) + {order[n]};
    }
  }

  lemma {:induction false} AllFilled(segments: seq<Segment>, done: set<nat>, names: seq<string>)
    requires MarksBelow(segments, |names|) && forall i | i in done :: i < |names|
    requires forall i | 0 <= i < |segments| && segments[i].Mark? :: segments[i].k in done
    ensures Render(Fill(segments, done, names)) == Simultaneous(segments, names)
  {
    if segments != [] {
      FillRest(segments, done, names);
      AllFilled(segments[1..], done, names);
    }
  }

  // ---- Every order -----------------------------------------------------------------------------

  // A walk over a map of `n` tokens.
  ghost predicate WalksAll(order: seq<nat>, n: nat) {
    && (forall i | 0 <= i < |order| :: order[i] < n)
    && (forall i, j | 0 <= i < j < |order| :: order[i] != order[j])
    && (forall k: nat | k < n :: k in order)
  }

  ghost predicate CorrectInOrder(names: seq<string>, order: seq<nat>)
    requires forall i | 0 <= i < |order| :: order[i] < |names|
  {
    forall segments: seq<Segment> | Valid(segments, names) ::
      ReplaceInOrder(Render(segments), order, names) == Simultaneous(segments, names)
  }

  ghost predicate CorrectInEveryOrder(names: seq<string>) {
    forall order: seq<nat> | WalksAll(order, |names|) :: CorrectInOrder(names, order)
  }

  lemma OrderCorrect(names: seq<string>, order: seq<nat>)
    requires |names| <= 26 && WalksAll(order, |names|)
    requires forall i, j | 0 <= i < j < |order| :: Harmless(names, order[i], order[j])
    ensures CorrectInOrder(names, order)
  {
    hide Harmless, Render, ReplaceInOrder, Simultaneous;
    forall segments: seq<Segment> | Valid(segments, names)
      ensures ReplaceInOrder(Render(segments), order, names) == Simultaneous(segments, names)
    {
      LoopFills(segments, order, names);
      AllFilled(segments, Seen(order), names);
    }
  }

  /** At most 26 names: whatever order the map is walked in, on every text, the loop is the simultaneous
      substitution; exactly if no name reads as another's token, save one replaced by itself. */
  lemma EveryOrderIff(names: seq<string>)
    requires |names| <= 26
    ensures CorrectInEveryOrder(names) <==>
            forall i: nat, j: nat | i < |names| && j < |names| && i != j :: Harmless(names, i, j)
  {
    hide Harmless, CorrectInOrder;
    if forall i: nat, j: nat | i < |names| && j < |names| && i != j :: Harmless(names, i, j) {
      forall order: seq<nat> | WalksAll(order, |names|)
        ensures CorrectInOrder(names, order)
      {
        OrderCorrect(names, order);
      }
    } else {
      var i: nat, j: nat :| i < |names| && j < |names| && i != j && !Harmless(names, i, j);
      DisturbedLast(names, i, j);
    }
  }

  ghost function Without(n: nat, i: nat, j: nat): seq<nat> {
    if n == 0 then [] else Without(n - 1, i, j) + if n - 1 == i || n - 1 == j then [] else [n - 1]
  }

  lemma {:induction false} WithoutAll(n: nat, i: nat, j: nat)
    ensures forall k: nat :: k in Without(n, i, j) <==> k < n && k != i && k != j
    ensures forall a, b | 0 <= a < b < |Without(n, i, j)| :: Without(n, i, j)[a] != Without(n, i, j)[b]
  {
    if n > 0 {
      var front := Without(n - 1, i, j);
      WithoutAll(n - 1, i, j);
      assert forall a | 0 <= a < |front| :: front[a] in front;
    }
  }

  lemma WalkEnds(n: nat, i: nat, j: nat)
    requires i < n && j < n && i != j
    ensures WalksAll(Without(n, i, j) + [i, j], n)
    ensures forall a | 0 <= a < |Without(n, i, j)| :: Without(n, i, j)[a] < n
    ensures i !in Without(n, i, j)
  {
    var front := Without(n, i, j);
    WithoutAll(n, i, j);
    assert forall a | 0 <= a < |front| :: front[a] in front;
    var order := front + [i, j];
    assert order[|front|] == i && order[|front| + 1] == j;
    forall k: nat | k < n
      ensures k in order
    {
      assert k != i && k != j ==> k in front;
    }
  }

  /** A text that goes wrong when name `i` is put in just before token `j` is looked for. */
  ghost function Trap(name: string, w: string, p: nat): (string, string)
    requires p < |name|
  {
    (if p < 4 then LEAD[..4 - p] else "", if |name| - p - 1 < |w| then w[|name| - p - 1..] else "")
  }

  lemma TrapSprings(name: string, k: nat, p: nat)
    requires p < |name| && ReadsAt(name, Letters(k), p)
    ensures var (before, after) := Trap(name, Letters(k), p);
            Clean(before) && Clean(after) && Occurs(Token(k), before + name + after)
  {
    hide Token, Letters, ReadsAt, Clean, Agrees;
    var w, rest := Letters(k), name[p + 1..];
    var (before, after) := Trap(name, w, p);
    TokenShape(k);
    TrapClean(name, k, p);
    TrapLeads(name, w, p);
    AgreeingCompletes(name, w, p);
    LedToken(before + name + after, |before| + p - 4, w);
  }

  lemma TrapClean(name: string, k: nat, p: nat)
    requires p < |name|
    ensures var (before, after) := Trap(name, Letters(k), p); Clean(before) && Clean(after)
  {
    TailClean(k);
  }

  lemma LedToken(text: string, start: nat, w: string)
    requires start + 4 < |text| && text[start..start + 4] == LEAD && text[start + 4] == '_' && w <= text[start + 5..]
    ensures Occurs(LEAD + ['_'] + w, text)
  {
    var rest := text[start..];
    assert rest == text[start..start + 4] + [text[start + 4]] + text[start + 5..];
    assert LEAD + ['_'] + w <= rest;
  }

  lemma TrapLeads(name: string, w: string, p: nat)
    requires p < |name| && ReadsAt(name, w, p)
    ensures var (before, after) := Trap(name, w, p);
            var text, start: int := before + name + after, |before| + p - 4;
            && 0 <= start && start + 4 < |text| && text[start..start + 4] == LEAD && text[start + 4] == '_'
            && text[start + 5..] == name[p + 1..] + after
  {
    hide Agrees, LEAD;
    LeadLength();
    var trap := Trap(name, w, p);
    var text := trap.0 + name + trap.1;
    if p < 4 {
      assert text[..4] == LEAD[..4 - p] + name[..p];
      assert LEAD[..4 - p] + LEAD[4 - p..] == LEAD;
    } else {
      assert text[p - 4..p] == name[p - 4..p];
    }
  }

  lemma AgreeingCompletes(name: string, w: string, p: nat)
    requires p < |name| && ReadsAt(name, w, p)
    ensures w <= name[p + 1..] + Trap(name, w, p).1
  {
  }

  lemma TrapFor(names: seq<string>, i: nat, j: nat) returns (before: string, after: string)
    requires i < |names| && j < |names| && !Harmless(names, i, j)
    ensures Clean(before) && Clean(after) && Occurs(Token(j), before + names[i] + after) && names[j] != Token(j)
  {
    hide Letters, Token, ReadsAt, Clean, Occurs;
    var p: nat :| p < |names[i]| && ReadsAt(names[i], Letters(j), p);
    TrapSprings(names[i], j, p);
    var trap := Trap(names[i], Letters(j), p);
    before, after := trap.0, trap.1;
  }

  ghost function TrapText(names: seq<string>, i: nat, before: string, after: string): seq<Segment> {
    [Piece(before), Mark(i), Piece(after)]
  }

  lemma TrapRenders(names: seq<string>, i: nat, before: string, after: string, done: set<nat>)
    requires i < |names| && i in done && (forall k | k in done :: k < |names|)
    ensures var segments := TrapText(names, i, before, after);
            Render(Fill(segments, done, names)) == before + names[i] + after == Simultaneous(segments, names)
  {
    hide Render, Simultaneous;
    var segments := TrapText(names, i, before, after);
    assert Fill(segments, done, names) == [Piece(before)] + ([Piece(names[i])] + [Piece(after)]);
    RenderJoin([Piece(before)], [Piece(names[i])] + [Piece(after)]);
    RenderJoin([Piece(names[i])], [Piece(after)]);
    assert segments == [Piece(before)] + ([Mark(i)] + [Piece(after)]);
    SimultaneousJoin([Piece(before)], [Mark(i)] + [Piece(after)], names);
    SimultaneousJoin([Mark(i)], [Piece(after)], names);
    RenderOne(Piece(before));
    RenderOne(Piece(names[i]));
    RenderOne(Piece(after));
    SimultaneousOne(Piece(before), names);
    SimultaneousOne(Mark(i), names);
    SimultaneousOne(Piece(after), names);
  }

  lemma RenderOne(g: Segment)
    ensures Render([g]) == Show(g)
  {
    hide Show;
    assert [g][1..] == [];
  }

  lemma SimultaneousOne(g: Segment, names: seq<string>)
    requires g.Mark? ==> g.k < |names|
    ensures Simultaneous([g], names) == Substitute(g, names)
  {
    hide Substitute;
    assert [g][1..] == [];
  }

  lemma DisturbedLast(names: seq<string>, i: nat, j: nat)
    requires |names| <= 26 && i < |names| && j < |names| && i != j && !Harmless(names, i, j)
    ensures !CorrectInEveryOrder(names)
  {
    hide Letters, Token, Render, ReplaceAll, Simultaneous, Harmless, Occurs, WalksAll, Without;
    var front := Without(|names|, i, j);
    var order := front + [i, j];
    WalkEnds(|names|, i, j);
    var before, after := TrapFor(names, i, j);
    var segments := TrapText(names, i, before, after);
    assert Valid(segments, names);
    NotThere(segments, front, names);
    var text := before + names[i] + after;
    assert order[..|order| - 1] == front + [i] && (front + [i])[..|front|] == front;
    CleanIsQuiet(segments, Letters(i));
    StepFills(segments, i, names);
    TrapRenders(names, i, before, after, {i});
    TokenNotEmpty(j);
    ReplacingChanges(text, Token(j), names[j]);
    assert ReplaceInOrder(Render(segments), front + [i], names) == text;
    assert ReplaceInOrder(Render(segments), order, names) != Simultaneous(segments, names);
    assert !CorrectInOrder(names, order);
  }

  // Looking for tokens a text does not hold changes nothing.
  lemma {:induction false} NotThere(segments: seq<Segment>, order: seq<nat>, names: seq<string>)
    requires CleanPieces(segments) && MarksBelow(segments, 26)
    requires forall i | 0 <= i < |order| :: order[i] < |names| && order[i] < 26
    requires forall i | 0 <= i < |segments| && segments[i].Mark? :: segments[i].k !in order
    ensures ReplaceInOrder(Render(segments), order, names) == Render(segments)
  {
    if order != [] {
      hide Render, ReplaceAll, Letters, Token;
      var k := order[|order| - 1];
      NotThere(segments, order[..|order| - 1], names);
      CleanIsQuiet(segments, Letters(k));
      StepFills(segments, k, names);
      assert Fill(segments, {k}, names) == segments;
    }
  }

  lemma CleanIsHarmless(names: seq<string>)
    requires forall i | 0 <= i < |names| :: Clean(names[i])
    ensures forall i: nat, j: nat | i < |names| && j < |names| :: Harmless(names, i, j)
  {
    forall i: nat, j: nat | i < |names| && j < |names|
      ensures Harmless(names, i, j)
    {
      CleanReadsNothing(names[i], Letters(j));
    }
  }

  /** In particular names without underscores can be put back in any order. */
  lemma AnyOrderIsSimultaneous(segments: seq<Segment>, order: seq<nat>, names: seq<string>)
    requires |names| <= 26 && (forall i | 0 <= i < |names| :: Clean(names[i]))
    requires Valid(segments, names) && WalksAll(order, |names|)
    ensures ReplaceInOrder(Render(segments), order, names) == Simultaneous(segments, names)
  {
    hide ReplaceInOrder, Render, Simultaneous, Harmless, Clean;
    CleanIsHarmless(names);
    EveryOrderIff(names);
    assert CorrectInOrder(names, order);
  }

  // ---- The order of insertion ------------------------------------------------------------------

  // Putting names back with a map of these names, made in this order, is right on every text.
  ghost predicate Correct(names: seq<string>) { CorrectInOrder(names, InsertionOrder(|names|)) }

  // What the loop makes of token `k` in the order of insertion, if no name is disturbed.
  ghost function Becomes(k: nat, names: seq<string>): string
    requires k < |names|
  {
    TailClean(k);
    names[First(k)] + Tail(k)
  }

  // No name put in is disturbed by a later token; tokens of more letters are never put in.
  ghost predicate Undisturbed(names: seq<string>) {
    forall i: nat, j: nat | i < j < |names| && i < 26 :: Harmless(names, i, j)
  }

  ghost predicate Lucky(names: seq<string>) {
    forall k: nat | 26 <= k < |names| :: names[k] == Becomes(k, names)
  }

  ghost function SplitOne(g: Segment): seq<Segment> {
    if g.Mark? && g.k >= 26 then [Mark(First(g.k)), Piece(Tail(g.k))] else [g]
  }

  // The same text, a token of more letters taken for its first letter's and the others.
  ghost function Split(segments: seq<Segment>): seq<Segment> {
    if segments == [] then [] else SplitOne(segments[0]) + Split(segments[1..])
  }

  lemma SplitOneSame(g: Segment, n: nat)
    requires g.Mark? ==> g.k < n
    requires g.Piece? ==> Clean(g.s)
    ensures var split := SplitOne(g);
            CleanPieces(split) && MarksBelow(split, 26) && MarksBelow(split, n) && Render(split) == Show(g)
  {
    hide Render, Token, Letters, First, Tail;
    if g.Mark? {
      TailClean(g.k);
      TokenShape(g.k);
      TokenShape(First(g.k));
      TailClean(First(g.k));
      RenderJoin([Mark(First(g.k))], [Piece(Tail(g.k))]);
      RenderOne(Mark(First(g.k)));
      RenderOne(Piece(Tail(g.k)));
      assert g.k >= 26 ==> SplitOne(g) == [Mark(First(g.k))] + [Piece(Tail(g.k))];
    }
    RenderOne(g);
  }

  lemma {:induction false} SplitSame(segments: seq<Segment>, names: seq<string>)
    requires Valid(segments, names)
    ensures Valid(Split(segments), names) && MarksBelow(Split(segments), 26)
    ensures Render(Split(segments)) == Render(segments)
  {
    if segments != [] {
      hide SplitOne, Clean;
      SplitOneSame(segments[0], |names|);
      SplitSame(segments[1..], names);
      RenderJoin(SplitOne(segments[0]), Split(segments[1..]));
    }
  }

  lemma SplitOneMeansSame(g: Segment, names: seq<string>)
    requires (g.Mark? ==> g.k < |names|) && Lucky(names)
    ensures MarksBelow(SplitOne(g), |names|) && Simultaneous(SplitOne(g), names) == Substitute(g, names)
  {
    hide Simultaneous, First, Tail;
    SimultaneousOne(g, names);
    if g.Mark? && g.k >= 26 {
      TailClean(g.k);
      SimultaneousOne(Mark(First(g.k)), names);
      SimultaneousOne(Piece(Tail(g.k)), names);
      SimultaneousJoin([Mark(First(g.k))], [Piece(Tail(g.k))], names);
      assert SplitOne(g) == [Mark(First(g.k))] + [Piece(Tail(g.k))];
      assert names[g.k] == Becomes(g.k, names);
    }
  }

  lemma {:induction false} SplitMeansSame(segments: seq<Segment>, names: seq<string>)
    requires Valid(segments, names) && Valid(Split(segments), names) && Lucky(names)
    ensures Simultaneous(Split(segments), names) == Simultaneous(segments, names)
  {
    if segments != [] {
      var g := segments[0];
      SplitOneSame(g, |names|);
      SplitSame(segments[1..], names);
      SplitMeansSame(segments[1..], names);
      SimultaneousJoin(SplitOne(g), Split(segments[1..]), names);
      SplitOneMeansSame(g, names);
    }
  }

  /** In insertion order every single-letter token is replaced first, so a longer token never survives to be looked
      up: its first letter is taken for a name and its other letters stay. */
  lemma {:induction false} InsertionOrderFills(segments: seq<Segment>, names: seq<string>, n: nat)
    requires CleanPieces(segments) && MarksBelow(segments, 26) && n <= |names|
    requires forall i: nat, j: nat | i < j < n && i < 26 :: Harmless(names, i, j)
    ensures ReplaceInOrder(Render(segments), InsertionOrder(n), names) == Render(Fill(segments, UpTo(Single(n)), names))
  {
    hide Render, ReplaceAll, Reads, Token, Letters;
    if n <= 26 {
      LoopFills(segments, InsertionOrder(n), names);
      forall i: nat | i < n
        ensures i in InsertionOrder(n)
      {
        assert InsertionOrder(n)[i] == i;
      }
      assert Seen(InsertionOrder(n)) == UpTo(n);
    } else {
      InsertionOrderFills(segments, names, n - 1);
      assert InsertionOrder(n)[..n - 1] == InsertionOrder(n - 1);
      LaterStepIdle(segments, names, n - 1);
    }
  }

  lemma LaterStepIdle(segments: seq<Segment>, names: seq<string>, k: nat)
    requires CleanPieces(segments) && MarksBelow(segments, 26) && 26 <= k < |names|
    requires forall i: nat | i < 26 :: Harmless(names, i, k)
    ensures Token(k) != ""
    ensures var text := Render(Fill(segments, UpTo(26), names)); ReplaceAll(text, Token(k), names[k]) == text
  {
    hide Render, ReplaceAll, Reads, Token, Letters;
    TokenNotEmpty(k);
    var filled := Fill(segments, UpTo(26), names);
    if names[k] == Token(k) {
      ReplacedByItself(Render(filled), Token(k));
    } else {
      assert forall i | i in UpTo(26) :: Harmless(names, i, k);
      FillQuiet(segments, UpTo(26), names, Letters(k));
      NothingToReplace(filled, k, names[k]);
    }
  }

  lemma LoopSubstitutes(segments: seq<Segment>, names: seq<string>)
    requires Undisturbed(names) && Valid(segments, names)
    ensures Valid(Split(segments), names)
    ensures ReplaceInOrder(Render(segments), InsertionOrder(|names|), names) == Simultaneous(Split(segments), names)
  {
    hide Harmless, Render, ReplaceInOrder, Simultaneous, Split;
    SplitSame(segments, names);
    InsertionOrderFills(Split(segments), names, |names|);
    AllFilled(Split(segments), UpTo(Single(|names|)), names);
  }

  /** If no name is disturbed, the loop is the simultaneous substitution on every text exactly if each name past the
      twenty-sixth happens to be the name of its token's first letter followed by the other letters. */
  lemma SimultaneousIff(names: seq<string>)
    requires Undisturbed(names)
    ensures Correct(names) <==> Lucky(names)
  {
    hide Undisturbed, Render, ReplaceInOrder, Simultaneous, Split, Becomes;
    if Lucky(names) {
      forall segments: seq<Segment> | Valid(segments, names)
        ensures ReplaceInOrder(Render(segments), InsertionOrder(|names|), names) == Simultaneous(segments, names)
      {
        LoopSubstitutes(segments, names);
        SplitMeansSame(segments, names);
      }
    } else {
      var k: nat :| 26 <= k < |names| && names[k] != Becomes(k, names);
      TokenMisread(k, names);
      assert Valid([Mark(k)], names);
    }
  }

  /** What the loop does to the text that is a token of more letters alone. */
  lemma TokenMisread(k: nat, names: seq<string>)
    requires Undisturbed(names) && 26 <= k < |names|
    ensures ReplaceInOrder(Render([Mark(k)]), InsertionOrder(|names|), names) == Becomes(k, names)
    ensures Simultaneous([Mark(k)], names) == names[k]
  {
    hide Undisturbed, Render, ReplaceInOrder, First, Tail;
    LoopSubstitutes([Mark(k)], names);
    TailClean(k);
    var letter, others := Mark(First(k)), Piece(Tail(k));
    assert Split([Mark(k)]) == [letter] + [others] by { assert [Mark(k)][1..] == []; }
    SimultaneousJoin([letter], [others], names);
    SimultaneousOne(letter, names);
    SimultaneousOne(others, names);
    SimultaneousOne(Mark(k), names);
  }

  /** The map only grows while a session lasts. Putting names back is right on every text from the first name to the
      last exactly if no name is disturbed and the names past the twenty-sixth are lucky. Nothing is asked of the
      names, nor of how many there are. */
  lemma CorrectThroughoutIff(names: seq<string>)
    ensures (forall m: nat | m <= |names| :: Correct(names[..m])) <==> Undisturbed(names) && Lucky(names)
  {
    hide Correct, Harmless, Becomes;
    if Undisturbed(names) && Lucky(names) {
      forall m: nat | m <= |names|
        ensures Correct(names[..m])
      {
        FrontToo(names, m);
        SimultaneousIff(names[..m]);
      }
    } else if forall m: nat | m <= |names| :: Correct(names[..m]) {
      forall i: nat, j: nat | i < j < |names| && i < 26
        ensures Harmless(names, i, j)
      {
        CorrectIsHarmless(names, i, j);
      }
      assert names[..|names|] == names;
      SimultaneousIff(names);
      assert false;
    }
  }

  lemma FrontToo(names: seq<string>, m: nat)
    requires m <= |names| && Undisturbed(names)
    ensures Undisturbed(names[..m]) && (Lucky(names) ==> Lucky(names[..m]))
  {
    hide Reads, Letters, Token, First, Tail;
    var front := names[..m];
    forall i: nat, j: nat | i < j < m && i < 26
      ensures Harmless(front, i, j)
    {
      assert Harmless(names, i, j);
    }
    if Lucky(names) {
      forall k: nat | 26 <= k < m
        ensures front[k] == Becomes(k, front)
      {
        TailClean(k);
        assert names[k] == Becomes(k, names);
      }
    }
  }

  lemma {:induction false} CorrectIsHarmless(names: seq<string>, i: nat, j: nat)
    requires (forall m: nat | m <= |names| :: Correct(names[..m])) && i < j < |names| && i < 26
    ensures Harmless(names, i, j)
    decreases j
  {
    hide Correct, Harmless;
    forall a: nat, b: nat | a < b < j && a < 26
      ensures Harmless(names, a, b)
    {
      CorrectIsHarmless(names, a, b);
    }
    if !Harmless(names, i, j) {
      assert Correct(names[..j + 1]);
      Disturbed(names, i, j);
    }
  }

  lemma SameNames(names: seq<string>, ns: seq<string>, a: nat, b: nat)
    requires ns <= names && a < |ns| && b < |ns|
    ensures Harmless(ns, a, b) <==> Harmless(names, a, b)
  {
  }

  /** The first name to be disturbed is: with the map as it is when the token comes to be given out, some text goes
      wrong. */
  lemma Disturbed(names: seq<string>, i: nat, j: nat)
    requires i < j < |names| && i < 26 && !Harmless(names, i, j)
    requires forall a: nat, b: nat | a < b < j && a < 26 :: Harmless(names, a, b)
    ensures !Correct(names[..j + 1])
  {
    hide Letters, Token, Render, ReplaceAll, Simultaneous, Harmless, Occurs;
    var ns := names[..j + 1];
    var before, after := TrapFor(names, i, j);
    var segments := TrapText(ns, i, before, after);
    assert Valid(segments, ns);
    forall a: nat, b: nat | a < b < j && a < 26
      ensures Harmless(ns, a, b)
    {
      SameNames(names, ns, a, b);
    }
    InsertionOrderFills(segments, ns, j);
    TrapRenders(ns, i, before, after, UpTo(Single(j)));
    assert InsertionOrder(j + 1)[..j] == InsertionOrder(j);
    TokenNotEmpty(j);
    ReplacingChanges(before + ns[i] + after, Token(j), ns[j]);
    assert ReplaceInOrder(Render(segments), InsertionOrder(j + 1), ns) != Simultaneous(segments, ns);
  }

  /** A name that is the next token is itself replaced, unless by itself. */
  lemma NameReadAsToken(other: string)
    ensures Correct([Token(1), other]) <==> other == Token(1)
  {
    hide Correct, Token, Letters, Reads;
    var names := [Token(1), other];
    assert names[..2] == names;
    TokenReadsItself(1);
    if other == Token(1) {
      SimultaneousIff(names);
    } else {
      Disturbed(names, 0, 1);
    }
  }

  lemma TokenReadsItself(k: nat)
    ensures Reads(Token(k), Letters(k))
  {
    TokenShape(k);
    assert Token(k)[5..] == Letters(k) && Token(k)[..4] == LEAD;
    assert ReadsAt(Token(k), Letters(k), 4);
  }

  /** An underscore after anything but the end of "USER" does no harm. */
  lemma ServiceAccountReadsNothing(w: string)
    ensures !Reads("svc_backup", w)
  {
    assert forall p: nat | p < 10 && "svc_backup"[p] == '_' :: p == 3;
    assert "svc_backup"[..3][0] != LEAD[1..][0];
  }

  // ---- Right by accident -----------------------------------------------------------------------

  /** For one size of the map the condition is not needed: here a name is disturbed, by the second token, and then put
      together again by the third. */
  lemma RightByAccident(names: seq<string>)
    requires names == ["USER_BR_C", "UUSE", "SER_BR_C"]
    ensures !Undisturbed(names) && !Correct(names[..2]) && Correct(names)
  {
    hide Correct, Letters, Token, Reads;
    ReadsSecondToken();
    assert !Harmless(names, 0, 1) by { FirstLetters(); }
    Disturbed(names, 0, 1);
    CorrectAgain(names);
  }

  lemma ReadsSecondToken()
    ensures Reads("USER_BR_C", "B")
  {
    var name := "USER_BR_C";
    assert name[..4] == LEAD && name[5..][0] == 'B';
    assert ReadsAt(name, "B", 4);
  }

  lemma FirstLetters()
    ensures Letters(0) == "A" && Letters(1) == "B" && Letters(2) == "C"
    ensures Token(0) == "USER_A" && Token(1) == "USER_B" && Token(2) == "USER_C"
  {
  }

  // The text once the first token is replaced, and once the second is, as tokens and pieces still to be replaced.
  ghost function AfterFirst(g: Segment): seq<Segment> {
    if g == Mark(0) then [Mark(1), Piece("R_C")] else [g]
  }

  ghost function AfterSecond(g: Segment): seq<Segment> {
    if g == Mark(0) then [Piece("U"), Mark(2)] else if g == Mark(1) then [Piece("UUSE")] else [g]
  }

  ghost function Each(segments: seq<Segment>, f: Segment -> seq<Segment>): seq<Segment> {
    if segments == [] then [] else f(segments[0]) + Each(segments[1..], f)
  }

  lemma FillJoin(a: seq<Segment>, b: seq<Segment>, done: set<nat>, names: seq<string>)
    requires forall i | i in done :: i < |names|
    ensures Fill(a + b, done, names) == Fill(a, done, names) + Fill(b, done, names)
  {
  }

  lemma {:induction false} FirstStage(segments: seq<Segment>, names: seq<string>)
    requires CleanPieces(segments) && MarksBelow(segments, 3) && names == ["USER_BR_C", "UUSE", "SER_BR_C"]
    ensures Render(Fill(segments, {0}, names)) == Render(Each(segments, AfterFirst))
    ensures MarksBelow(Each(segments, AfterFirst), 26) && Quiet(Each(segments, AfterFirst), Letters(1))
  {
    hide Token, Letters, Reads;
    if segments != [] {
      hide Render;
      var g, rest := segments[0], segments[1..];
      FirstStage(rest, names);
      FillJoin([g], rest, {0}, names);
      assert [g] + rest == segments;
      RenderJoin(Fill([g], {0}, names), Fill(rest, {0}, names));
      RenderJoin(AfterFirst(g), Each(rest, AfterFirst));
      FirstStageOne(g, names);
    }
  }

  lemma FirstStageOne(g: Segment, names: seq<string>)
    requires (g.Piece? ==> Clean(g.s)) && names == ["USER_BR_C", "UUSE", "SER_BR_C"]
    ensures Render(Fill([g], {0}, names)) == Render(AfterFirst(g)) && Quiet(AfterFirst(g), Letters(1))
  {
    hide Render, Reads, Letters, Token;
    FirstLetters();
    if g.Piece? { CleanReadsNothing(g.s, Letters(1)); }
    assert Fill([g], {0}, names) == [FillOne(g, {0}, names)];
    if g == Mark(0) {
      RenderOne(Piece(names[0]));
      RenderOne(Mark(1));
      RenderOne(Piece("R_C"));
      RenderJoin([Mark(1)], [Piece("R_C")]);
      assert AfterFirst(g) == [Mark(1)] + [Piece("R_C")];
      OtherLetterRead();
    }
  }

  lemma OtherLetterRead()
    ensures !Reads("R_C", "B")
  {
    assert forall p: nat | p < 3 && "R_C"[p] == '_' :: p == 1;
    assert "R_C"[2..][0] == 'C';
  }

  lemma {:induction false} SecondStage(segments: seq<Segment>, names: seq<string>)
    requires CleanPieces(segments) && MarksBelow(segments, 3) && names == ["USER_BR_C", "UUSE", "SER_BR_C"]
    ensures Render(Fill(Each(segments, AfterFirst), {1}, names)) == Render(Each(segments, AfterSecond))
  {
    if segments != [] {
      hide Render, Token, Letters, Clean, AfterFirst, AfterSecond;
      var g, rest := segments[0], segments[1..];
      SecondStage(rest, names);
      FillJoin(AfterFirst(g), Each(rest, AfterFirst), {1}, names);
      RenderJoin(Fill(AfterFirst(g), {1}, names), Fill(Each(rest, AfterFirst), {1}, names));
      RenderJoin(AfterSecond(g), Each(rest, AfterSecond));
      SecondStageOne(g, names);
    }
  }

  lemma {:induction false} SecondStageClean(segments: seq<Segment>)
    requires CleanPieces(segments) && MarksBelow(segments, 3)
    ensures MarksBelow(Each(segments, AfterSecond), 26) && CleanPieces(Each(segments, AfterSecond))
  {
    if segments != [] { SecondStageClean(segments[1..]); }
  }

  lemma SecondStageOne(g: Segment, names: seq<string>)
    requires names == ["USER_BR_C", "UUSE", "SER_BR_C"]
    ensures Render(Fill(AfterFirst(g), {1}, names)) == Render(AfterSecond(g))
  {
    hide Render, Letters, Token;
    FirstLetters();
    if g == Mark(0) {
      assert Fill(AfterFirst(g), {1}, names) == [Piece("UUSE")] + [Piece("R_C")];
      assert AfterSecond(g) == [Piece("U")] + [Mark(2)];
      RenderOne(Piece("UUSE"));
      RenderOne(Piece("R_C"));
      RenderOne(Piece("U"));
      RenderOne(Mark(2));
      RenderJoin([Piece("UUSE")], [Piece("R_C")]);
      RenderJoin([Piece("U")], [Mark(2)]);
    } else {
      assert Fill([g], {1}, names) == AfterSecond(g);
    }
  }

  lemma {:induction false} ThirdStage(segments: seq<Segment>, names: seq<string>)
    requires CleanPieces(segments) && MarksBelow(segments, 3) && names == ["USER_BR_C", "UUSE", "SER_BR_C"]
    ensures Render(Fill(Each(segments, AfterSecond), {2}, names)) == Simultaneous(segments, names)
  {
    if segments != [] {
      hide Render, Token, Letters, Substitute;
      var g, rest := segments[0], segments[1..];
      ThirdStage(rest, names);
      FillJoin(AfterSecond(g), Each(rest, AfterSecond), {2}, names);
      RenderJoin(Fill(AfterSecond(g), {2}, names), Fill(Each(rest, AfterSecond), {2}, names));
      ThirdStageOne(g, names);
    }
  }

  lemma ThirdStageOne(g: Segment, names: seq<string>)
    requires (g.Mark? ==> g.k < 3) && names == ["USER_BR_C", "UUSE", "SER_BR_C"]
    ensures Render(Fill(AfterSecond(g), {2}, names)) == Substitute(g, names)
  {
    hide Render, Letters, Token;
    if g == Mark(0) {
      assert Fill(AfterSecond(g), {2}, names) == [Piece("U")] + [Piece("SER_BR_C")];
      RenderOne(Piece("U"));
      RenderOne(Piece("SER_BR_C"));
      RenderJoin([Piece("U")], [Piece("SER_BR_C")]);
    } else {
      var shown := if g == Mark(1) then Piece("UUSE") else FillOne(g, {2}, names);
      assert Fill(AfterSecond(g), {2}, names) == [shown];
      RenderOne(shown);
    }
  }

  lemma CorrectAgain(names: seq<string>)
    requires names == ["USER_BR_C", "UUSE", "SER_BR_C"]
    ensures Correct(names)
  {
    hide Render, Token, Letters, Reads, ReplaceAll, Simultaneous, ReplaceInOrder;
    forall segments: seq<Segment> | Valid(segments, names)
      ensures ReplaceInOrder(Render(segments), InsertionOrder(|names|), names) == Simultaneous(segments, names)
    {
      FirstStage(segments, names);
      SecondStage(segments, names);
      SecondStageClean(segments);
      ThirdStage(segments, names);
      CleanIsQuiet(segments, Letters(0));
      StepFills(segments, 0, names);
      StepFills(Each(segments, AfterFirst), 1, names);
      CleanIsQuiet(Each(segments, AfterSecond), Letters(2));
      StepFills(Each(segments, AfterSecond), 2, names);
      NoStep(Render(segments), names);
      InsertionStep(Render(segments), 0, names);
      InsertionStep(Render(segments), 1, names);
      InsertionStep(Render(segments), 2, names);
    }
  }

  lemma NoStep(text: string, names: seq<string>)
    ensures ReplaceInOrder(text, InsertionOrder(0), names) == text
  {
  }

  lemma InsertionStep(text: string, n: nat, names: seq<string>)
    requires n < |names|
    ensures Token(n) != ""
    ensures ReplaceInOrder(text, InsertionOrder(n + 1), names)
            == ReplaceAll(ReplaceInOrder(text, InsertionOrder(n), names), Token(n), names[n])
  {
    TokenNotEmpty(n);
    assert InsertionOrder(n + 1)[..n] == InsertionOrder(n);
  }
}
