/** Replacing display names by tokens before text leaves the system, and putting them back
    (agent/anonymizer.py). */
module Tokens {
  // ---- Token letters: counting A..Z, AA..ZZ, AAA.. ------------------------------------------

  predicate IsUpper(c: char) { 'A' <= c <= 'Z' }

  predicate AllUpper(s: string) { forall i | 0 <= i < |s| :: IsUpper(s[i]) }

  function Letter(d: nat): (c: char)
    requires d < 26
    ensures IsUpper(c) && Digit(c) == d
  {
    'A' + d as char
  }

  function Digit(c: char): (d: nat)
    requires IsUpper(c)
    ensures d < 26
  {
    (c as int) - ('A' as int)
  }

  ghost function Letters(n: nat): string {
    if n < 26 then [Letter(n)] else Letters(n / 26 - 1) + [Letter(n % 26)]
  }

  // The number a letter string counts as, computed without reference to how it was made.
  ghost function Number(s: string): nat
    requires s != "" && AllUpper(s)
  {
    if |s| == 1 then Digit(s[0]) else 26 * (Number(s[..|s| - 1]) + 1) + Digit(s[|s| - 1])
  }

  lemma {:induction false} LettersCount(n: nat)
    ensures Letters(n) != "" && AllUpper(Letters(n)) && Number(Letters(n)) == n
    ensures |Letters(n)| == 1 <==> n < 26
  {
    if n >= 26 {
      LettersCount(n / 26 - 1);
      assert Letters(n)[..|Letters(n)| - 1] == Letters(n / 26 - 1);
    }
  }

  lemma {:induction false} NumberSpells(s: string)
    requires s != "" && AllUpper(s)
    ensures Letters(Number(s)) == s
  {
    if |s| > 1 {
      var front, d := s[..|s| - 1], Digit(s[|s| - 1]);
      NumberSpells(front);
      assert Number(s) == 26 * (Number(front) + 1) + d;
      assert Number(s) / 26 - 1 == Number(front) && Number(s) % 26 == d;
      assert s == front + [Letter(d)];
    } else {
      assert s == [s[0]];
    }
  }

  /** Counters and non-empty upper-case strings correspond one to one. */
  lemma LettersBijection(n: nat, m: nat, s: string)
    ensures Letters(n) == Letters(m) <==> n == m
    ensures s != "" && AllUpper(s) <==> exists k: nat :: Letters(k) == s
  {
    LettersCount(n);
    LettersCount(m);
    if s != "" && AllUpper(s) { NumberSpells(s); }
    if k: nat :| Letters(k) == s { LettersCount(k); }
  }

  const PREFIX := "USER_"

  ghost function Token(n: nat): string { PREFIX + Letters(n) }

  lemma TokensDistinct(n: nat, m: nat)
    ensures Token(n) == Token(m) <==> n == m
  {
    LettersBijection(n, m, "");
    assert Token(n)[5..] == Letters(n) && Token(m)[5..] == Letters(m);
  }

  /** The digit loop. */
  method SpellToken(counter: nat) returns (token: string)
    ensures token == Token(counter)
  {
    var n: int := counter;
    var letters := "";
    while true
      invariant n >= 0
      invariant Letters(counter) == Letters(n) + letters
      decreases n
    {
      letters := [Letter(n % 26)] + letters;
      var next: int := n / 26 - 1;
      assert n >= 26 ==> Letters(n) == Letters(next) + [Letter(n % 26)];
      assert n < 26 ==> Letters(n) == [Letter(n % 26)];
      if next < 0 {
        break;
      }
      n := next;
    }
    token := PREFIX + letters;
  }
}

module Anonymizer {
  import opened Tokens
  import D = Deanonymize

  // JSON payloads: objects keep the order of their members.
  datatype Tree =
    | Atom(text: string)
    | Text(s: string)
    | List(items: seq<Tree>)
    | Dict(members: seq<(string, Tree)>)

  predicate Skipped(name: string) { name == "" || name == "Unknown" }

  /** The names given out so far, oldest first, determine both maps. */
  ghost predicate Consistent(names: seq<string>, realToToken: map<string, string>, tokenToReal: map<string, string>) {
    && (forall i | 0 <= i < |names| :: names[i] in realToToken && realToToken[names[i]] == Token(i))
    && (forall i | 0 <= i < |names| :: Token(i) in tokenToReal && tokenToReal[Token(i)] == names[i])
    && (forall r | r in realToToken :: exists i :: 0 <= i < |names| && names[i] == r)
    && (forall t | t in tokenToReal :: exists i :: 0 <= i < |names| && Token(i) == t)
    && (forall i, j | 0 <= i < j < |names| :: names[i] != names[j])
    && (forall i | 0 <= i < |names| :: !Skipped(names[i]))
  }

  // ---- Payload trees ------------------------------------------------------------------------

  ghost function MaskName(name: string, names: seq<string>): string {
    if Skipped(name) then name else Token(IndexOf(names, name))
  }

  ghost function MaskMember(m: (string, Tree), keys: set<string>, names: seq<string>): (string, Tree)
    decreases m.1, 1
  {
    if m.0 in keys && m.1.Text? then (m.0, Text(MaskName(m.1.s, names))) else (m.0, Mask(m.1, keys, names))
  }

  ghost function Mask(t: Tree, keys: set<string>, names: seq<string>): Tree
    decreases t, 0
  {
    match t
    case Atom(_) => t
    case Text(_) => t
    case List(items) => List(seq(|items|, i requires 0 <= i < |items| => Mask(items[i], keys, names)))
    case Dict(members) => Dict(seq(|members|, i requires 0 <= i < |members| => MaskMember(members[i], keys, names)))
  }

  // Every name to be replaced in the tree has been given a token.
  ghost predicate KnownMember(m: (string, Tree), keys: set<string>, names: seq<string>)
    decreases m.1, 1
  {
    if m.0 in keys && m.1.Text? then Skipped(m.1.s) || m.1.s in names else Known(m.1, keys, names)
  }

  ghost predicate Known(t: Tree, keys: set<string>, names: seq<string>)
    decreases t, 0
  {
    match t
    case Atom(_) => true
    case Text(_) => true
    case List(items) => forall i | 0 <= i < |items| :: Known(items[i], keys, names)
    case Dict(members) => forall i | 0 <= i < |members| :: KnownMember(members[i], keys, names)
  }

  lemma {:induction false} MaskStable(t: Tree, keys: set<string>, names: seq<string>, more: seq<string>)
    requires Known(t, keys, names) && names <= more
    ensures Known(t, keys, more) && Mask(t, keys, names) == Mask(t, keys, more)
    decreases t, 0
  {
    match t
    case Atom(_) =>
    case Text(_) =>
    case List(items) =>
      forall i | 0 <= i < |items|
        ensures Known(items[i], keys, more) && Mask(items[i], keys, names) == Mask(items[i], keys, more)
      {
        MaskStable(items[i], keys, names, more);
      }
    case Dict(members) =>
      forall i | 0 <= i < |members|
        ensures KnownMember(members[i], keys, more)
        ensures MaskMember(members[i], keys, names) == MaskMember(members[i], keys, more)
      {
        MaskMemberStable(members[i], keys, names, more);
      }
  }

  lemma {:induction false} MaskMemberStable(m: (string, Tree), keys: set<string>, names: seq<string>, more: seq<string>)
    requires KnownMember(m, keys, names) && names <= more
    ensures KnownMember(m, keys, more) && MaskMember(m, keys, names) == MaskMember(m, keys, more)
    decreases m.1, 1
  {
    if m.0 in keys && m.1.Text? {
      if !Skipped(m.1.s) { IndexOfPrefix(names, more, m.1.s); }
    } else {
      MaskStable(m.1, keys, names, more);
    }
  }

  // Looking every string under a listed key up in the token map.
  function RestoreMember(m: (string, Tree), keys: set<string>, tokenToReal: map<string, string>): (string, Tree)
    decreases m.1, 1
  {
    if m.0 in keys && m.1.Text? then (m.0, Text(if m.1.s in tokenToReal then tokenToReal[m.1.s] else m.1.s))
    else (m.0, Restore(m.1, keys, tokenToReal))
  }

  function Restore(t: Tree, keys: set<string>, tokenToReal: map<string, string>): Tree
    decreases t, 0
  {
    match t
    case Atom(_) => t
    case Text(_) => t
    case List(items) => List(seq(|items|, i requires 0 <= i < |items| => Restore(items[i], keys, tokenToReal)))
    case Dict(members) => Dict(seq(|members|,
                                   i requires 0 <= i < |members| => RestoreMember(members[i], keys, tokenToReal)))
  }

  /** Round trip: the token map gives back the payload, even if a real name looks like a token or
      names were added since. */
  lemma {:induction false} RestoreUndoesMask(t: Tree, keys: set<string>, names: seq<string>,
                                             realToToken: map<string, string>, tokenToReal: map<string, string>)
    requires Consistent(names, realToToken, tokenToReal) && Known(t, keys, names)
    ensures Restore(Mask(t, keys, names), keys, tokenToReal) == t
    decreases t, 0
  {
    match t
    case Atom(_) =>
    case Text(_) =>
    case List(items) =>
      forall i | 0 <= i < |items|
        ensures Restore(Mask(items[i], keys, names), keys, tokenToReal) == items[i]
      {
        RestoreUndoesMask(items[i], keys, names, realToToken, tokenToReal);
      }
      assert Restore(Mask(t, keys, names), keys, tokenToReal).items == items;
    case Dict(members) =>
      forall i | 0 <= i < |members|
        ensures RestoreMember(MaskMember(members[i], keys, names), keys, tokenToReal) == members[i]
      {
        RestoreMemberUndoesMask(members[i], keys, names, realToToken, tokenToReal);
      }
      assert Restore(Mask(t, keys, names), keys, tokenToReal).members == members;
  }

  lemma {:induction false} RestoreMemberUndoesMask(m: (string, Tree), keys: set<string>, names: seq<string>,
                                                   realToToken: map<string, string>, tokenToReal: map<string, string>)
    requires Consistent(names, realToToken, tokenToReal) && KnownMember(m, keys, names)
    ensures RestoreMember(MaskMember(m, keys, names), keys, tokenToReal) == m
    decreases m.1, 1
  {
    if m.0 in keys && m.1.Text? {
      IndexOfAt(names, m.1.s);
      TokensNotSkipped();
    } else {
      RestoreUndoesMask(m.1, keys, names, realToToken, tokenToReal);
    }
  }

  lemma TokensNotSkipped()
    ensures forall k: nat :: !Skipped(Token(k))
  {
    forall k: nat
      ensures !Skipped(Token(k))
    {
      assert Token(k)[4] == '_';
    }
  }

  // What is left of a tree when the strings under listed keys are blanked.
  ghost function ShapeMember(m: (string, Tree), keys: set<string>): (string, Tree)
    decreases m.1, 1
  {
    if m.0 in keys && m.1.Text? then (m.0, Text("")) else (m.0, Shape(m.1, keys))
  }

  ghost function Shape(t: Tree, keys: set<string>): Tree
    decreases t, 0
  {
    match t
    case Atom(_) => t
    case Text(_) => t
    case List(items) => List(seq(|items|, i requires 0 <= i < |items| => Shape(items[i], keys)))
    case Dict(members) => Dict(seq(|members|, i requires 0 <= i < |members| => ShapeMember(members[i], keys)))
  }

  /** Everything but the names is left as it was. */
  lemma {:induction false} MaskKeepsShape(t: Tree, keys: set<string>, names: seq<string>)
    ensures Shape(Mask(t, keys, names), keys) == Shape(t, keys)
    decreases t, 0
  {
    match t
    case Atom(_) =>
    case Text(_) =>
    case List(items) =>
      forall i | 0 <= i < |items|
        ensures Shape(Mask(items[i], keys, names), keys) == Shape(items[i], keys)
      {
        MaskKeepsShape(items[i], keys, names);
      }
      assert Shape(Mask(t, keys, names), keys).items == Shape(t, keys).items;
    case Dict(members) =>
      forall i | 0 <= i < |members|
        ensures ShapeMember(MaskMember(members[i], keys, names), keys) == ShapeMember(members[i], keys)
      {
        if !(members[i].0 in keys && members[i].1.Text?) {
          MaskKeepsShape(members[i].1, keys, names);
        }
      }
      assert Shape(Mask(t, keys, names), keys).members == Shape(t, keys).members;
  }

  /** And no name survives: under a listed key there is only a token, "" or "Unknown". */
  ghost predicate HidesMember(m: (string, Tree), keys: set<string>)
    decreases m.1, 1
  {
    if m.0 in keys && m.1.Text? then Skipped(m.1.s) || exists k: nat :: m.1.s == Token(k) else Hides(m.1, keys)
  }

  ghost predicate Hides(t: Tree, keys: set<string>)
    decreases t, 0
  {
    match t
    case Atom(_) => true
    case Text(_) => true
    case List(items) => forall i | 0 <= i < |items| :: Hides(items[i], keys)
    case Dict(members) => forall i | 0 <= i < |members| :: HidesMember(members[i], keys)
  }

  lemma {:induction false} MaskHides(t: Tree, keys: set<string>, names: seq<string>)
    ensures Hides(Mask(t, keys, names), keys)
    decreases t
  {
    match t
    case Atom(_) =>
    case Text(_) =>
    case List(items) =>
      forall i | 0 <= i < |items|
        ensures Hides(Mask(items[i], keys, names), keys)
      {
        MaskHides(items[i], keys, names);
      }
    case Dict(members) =>
      forall i | 0 <= i < |members|
        ensures HidesMember(MaskMember(members[i], keys, names), keys)
      {
        if !(members[i].0 in keys && members[i].1.Text?) {
          MaskHides(members[i].1, keys, names);
        }
      }
  }

  lemma Extend(names: seq<string>, realToToken: map<string, string>, tokenToReal: map<string, string>, name: string)
    requires Consistent(names, realToToken, tokenToReal) && name !in realToToken && !Skipped(name)
    ensures Consistent(names + [name], realToToken[name := Token(|names|)], tokenToReal[Token(|names|) := name])
    ensures name !in names
  {
    hide Token;
    var more := names + [name];
    forall i | 0 <= i < |names|
      ensures Token(i) != Token(|names|)
    {
      TokensDistinct(i, |names|);
    }
    assert more[|names|] == name;
    forall r | r in realToToken
      ensures exists i :: 0 <= i < |more| && more[i] == r
    {
      var i :| 0 <= i < |names| && names[i] == r;
      assert more[i] == r;
    }
  }

  /** The two maps undo each other and hold one entry per name given out. */
  lemma MapsInverse(names: seq<string>, realToToken: map<string, string>, tokenToReal: map<string, string>)
    requires Consistent(names, realToToken, tokenToReal)
    ensures forall r | r in realToToken :: realToToken[r] in tokenToReal && tokenToReal[realToToken[r]] == r
    ensures forall t | t in tokenToReal :: tokenToReal[t] in realToToken && realToToken[tokenToReal[t]] == t
    ensures |realToToken| == |tokenToReal| == |names|
  {
    hide Token;
    DistinctSize(names);
    assert realToToken.Keys == set x | x in names;
    TokenMapSize(names, realToToken, tokenToReal);
  }

  lemma TokenMapSize(names: seq<string>, realToToken: map<string, string>, tokenToReal: map<string, string>)
    requires Consistent(names, realToToken, tokenToReal)
    ensures |tokenToReal| == |names|
  {
    hide Token;
    var tokens := seq(|names|, i requires 0 <= i => Token(i));
    forall i, j | 0 <= i < j < |tokens|
      ensures tokens[i] != tokens[j]
    {
      TokensDistinct(i, j);
    }
    DistinctSize(tokens);
    forall t
      ensures t in tokenToReal <==> t in tokens
    {
      if t in tokenToReal {
        var i :| 0 <= i < |names| && Token(i) == t;
        assert tokens[i] == t;
      }
    }
    assert tokenToReal.Keys == set x | x in tokens;
  }

  lemma {:induction false} DistinctSize(xs: seq<string>)
    requires forall i, j | 0 <= i < j < |xs| :: xs[i] != xs[j]
    ensures |set x | x in xs| == |xs|
  {
    if xs != [] {
      var n := |xs| - 1;
      DistinctSize(xs[..n]);
      assert (set x | x in xs) == (set x | x in xs[..n]) + {xs[n]};
    }
  }

  // Where a name stands; the length of the list if it is not there.
  ghost function IndexOf(names: seq<string>, name: string): nat {
    if names == [] then 0
    else if name in names[..|names| - 1] then IndexOf(names[..|names| - 1], name)
    else if names[|names| - 1] == name then |names| - 1 else |names|
  }

  lemma {:induction false} IndexOfAt(names: seq<string>, name: string)
    ensures name in names ==> IndexOf(names, name) < |names| && names[IndexOf(names, name)] == name
    ensures name !in names ==> IndexOf(names, name) == |names|
  {
    if names != [] { IndexOfAt(names[..|names| - 1], name); }
  }

  lemma {:induction false} IndexOfPrefix(names: seq<string>, more: seq<string>, name: string)
    requires names <= more && name in names
    ensures IndexOf(more, name) == IndexOf(names, name)
    decreases |more|
  {
    if |names| < |more| {
      IndexOfPrefix(names, more[..|more| - 1], name);
      var i :| 0 <= i < |names| && names[i] == name;
      assert more[..|more| - 1][i] == name;
    } else {
      assert names == more;
    }
  }

  // ---- The anonymizer ----------------------------------------------------------------------

  class Anonymizer {
    var realToToken: map<string, string>
    var tokenToReal: map<string, string>
    var counter: nat
    // Names in the order they were first met: the order in which dicts iterate.
    var names: seq<string>

    ghost predicate Valid()
      reads this
    {
      counter == |names| && Consistent(names, realToToken, tokenToReal)
    }

    constructor ()
      ensures Valid() && names == []
    {
      realToToken, tokenToReal, counter, names := map[], map[], 0, [];
    }

    method NextToken() returns (token: string)
      modifies this`counter
      ensures token == Token(old(counter)) && counter == old(counter) + 1
    {
      token := SpellToken(counter);
      counter := counter + 1;
    }

    /** Existing assignments never change; a new name gets the next token; the empty name and
        "Unknown" are passed through. */
    method AnonymizeValue(name: string) returns (r: string)
      requires Valid()
      modifies this
      ensures Valid()
      ensures names == old(names) + if Skipped(name) || name in old(names) then [] else [name]
      ensures r == if Skipped(name) then name else Token(IndexOf(names, name))
      ensures Skipped(name) || name in names
    {
      if Skipped(name) {
        return name;
      }
      if name !in realToToken {
        var token := NextToken();
        Extend(names, realToToken, tokenToReal, name);
        realToToken := realToToken[name := token];
        tokenToReal := tokenToReal[token := name];
        names := names + [name];
      }
      r := realToToken[name];
      IndexOfAt(names, name);
    }

    /** A payload with the string under every listed key replaced. */
    method AnonymizeData(data: Tree, keys: set<string>) returns (r: Tree)
      requires Valid()
      modifies this
      ensures Valid() && old(names) <= names
      ensures Known(data, keys, names) && r == Mask(data, keys, names)
      decreases data, 0
    {
      hide Consistent, KnownMember, MaskMember;
      match data
      case Atom(_) => r := data;
      case Text(_) => r := data;
      case List(items) =>
        var masked: seq<Tree> := [];
        for i := 0 to |items|
          invariant Valid() && old(names) <= names && |masked| == i
          invariant forall k | 0 <= k < i :: Known(items[k], keys, names) && masked[k] == Mask(items[k], keys, names)
        {
          ghost var before := names;
          var item := AnonymizeData(items[i], keys);
          forall k | 0 <= k < i
            ensures Known(items[k], keys, names) && masked[k] == Mask(items[k], keys, names)
          {
            MaskStable(items[k], keys, before, names);
          }
          masked := masked + [item];
        }
        r := List(masked);
      case Dict(members) =>
        var masked: seq<(string, Tree)> := [];
        for i := 0 to |members|
          invariant Valid() && old(names) <= names && |masked| == i
          invariant forall k | 0 <= k < i ::
                    KnownMember(members[k], keys, names) && masked[k] == MaskMember(members[k], keys, names)
        {
          ghost var before := names;
          var member := AnonymizeMember(members[i], keys);
          masked := masked + [member];
          forall k | 0 <= k < i
            ensures KnownMember(members[k], keys, names) && masked[k] == MaskMember(members[k], keys, names)
          {
            MaskMemberStable(members[k], keys, before, names);
          }
        }
        r := Dict(masked);
    }

    method AnonymizeMember(m: (string, Tree), keys: set<string>) returns (r: (string, Tree))
      requires Valid()
      modifies this
      ensures Valid() && old(names) <= names
      ensures KnownMember(m, keys, names) && r == MaskMember(m, keys, names)
      decreases m.1, 1
    {
      hide Consistent;
      var (key, value) := m;
      if key in keys && value.Text? {
        var token := AnonymizeValue(value.s);
        r := (key, Text(token));
      } else {
        var inner := AnonymizeData(value, keys);
        r := (key, inner);
      }
    }

    /** A walk over the token map in the order its entries were made. */
    method Deanonymize(text: string) returns (r: string)
      requires Valid()
      ensures r == D.ReplaceInOrder(text, D.InsertionOrder(|names|), names)
    {
      r := text;
      for i := 0 to |names|
        invariant r == D.ReplaceInOrder(text, D.InsertionOrder(i), names)
      {
        assert D.InsertionOrder(i + 1)[..i] == D.InsertionOrder(i);
        D.TokenNotEmpty(i);
        r := D.ReplaceAll(r, realToToken[names[i]], names[i]);
      }
    }
  }
}
