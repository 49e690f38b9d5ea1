/** Exactly when two bodies are given one group address: when the words left on their
    rungs of the naming ladder are the same. */
module NameClashes {
  import opened Basics
  import opened Naming

  /** The words a slug is made of. */
  function TextWords(text: string): seq<string> {
    Words(Depunctuate(Norm(text)))
  }

  /** What a slug shows between its dashes: its words, or one empty part. */
  function Parts(text: string): (r: seq<string>)
    ensures r != []
  {
    if TextWords(text) == [] then [[]] else TextWords(text)
  }

  function WordInitials(text: string): string {
    Initials(TextWords(text))
  }

  /** The rung a body's address is on: the first that fits. */
  function Rung(name: string, bodyType: string, kind: GroupKind): (r: Option<nat>)
    ensures r.Some? ==> r.value < 3
  {
    var e := EmailRungs(name, bodyType, kind);
    if |e[0]| <= EMAIL_LOCAL_CAP then Some(0)
    else if |e[1]| <= EMAIL_LOCAL_CAP then Some(1)
    else if |e[2]| <= EMAIL_LOCAL_CAP then Some(2)
    else None
  }

  /** The parts of a body's address on one rung, before the kind. */
  function RungParts(name: string, bodyType: string, rung: nat): seq<string> {
    if rung == 0 then Parts(name) + Parts(bodyType)
    else if rung == 1 then Parts(name) + [WordInitials(bodyType)]
    else [WordInitials(name)] + [WordInitials(bodyType)]
  }

  // ------------------------------------------------------------ splitting at dashes

  lemma {:induction false} SplitAppend(a: string, b: string)
    ensures SplitOn(a + ['-'] + b, '-') == SplitOn(a, '-') + SplitOn(b, '-')
  {
    var s := a + ['-'] + b;
    if a == [] {
      assert s[0] == '-' && s[1..] == b;
    } else {
      assert s[0] == a[0] && s[1..] == a[1..] + ['-'] + b;
      SplitAppend(a[1..], b);
    }
  }

  lemma {:induction false} JoinSplit(s: string)
    ensures Join('-', SplitOn(s, '-')) == s
  {
    if s != [] {
      var rest := SplitOn(s[1..], '-');
      JoinSplit(s[1..]);
      if s[0] == '-' {
        JoinMore([], rest);
        assert s == ['-'] + s[1..];
      } else {
        JoinLonger(s[0], rest);
        assert s == [s[0]] + s[1..];
      }
    }
  }

  lemma JoinMore(first: string, rest: seq<string>)
    requires rest != []
    ensures Join('-', [first] + rest) == first + ['-'] + Join('-', rest)
  {
    assert ([first] + rest)[1..] == rest;
  }

  lemma JoinLonger(c: char, parts: seq<string>)
    requires parts != []
    ensures Join('-', [[c] + parts[0]] + parts[1..]) == [c] + Join('-', parts)
  {
    hide Join;
    var first, rest := parts[0], parts[1..];
    assert parts == [first] + rest;
    if rest == [] {
      JoinOne('-', first);
      JoinOne('-', [c] + first);
    } else {
      JoinMore(first, rest);
      JoinMore([c] + first, rest);
      Prepend(c, first, '-', Join('-', rest));
    }
  }

  lemma Prepend(c: char, a: string, d: char, b: string)
    ensures ([c] + a) + [d] + b == [c] + (a + [d] + b)
  {
  }

  /** A text is its parts. */
  lemma SplitInjective(a: string, b: string)
    ensures SplitOn(a, '-') == SplitOn(b, '-') <==> a == b
  {
    JoinSplit(a);
    JoinSplit(b);
  }

  lemma NoDash(s: string)
    requires forall c :: c in s ==> c != '-'
    ensures SplitOn(s, '-') == [s]
  {
    SplitPlain(s, []);
    assert s + [] == s && SplitOn([], '-') == [[]];
  }

  lemma WordsArePlain(text: string)
    ensures forall w, c :: w in TextWords(text) && c in w ==> c != '-'
  {
    WordsOf(Depunctuate(Norm(text)));
  }

  lemma SlugParts(text: string)
    ensures SplitOn(Slugify(text), '-') == Parts(text)
    ensures Short(Slugify(text)) == WordInitials(text)
  {
    hide Slugify, Words, Depunctuate, Short;
    SlugIsJoinedWords(text);
    ShortIsWordInitials(text);
    WordsArePlain(text);
    if TextWords(text) != [] { SplitJoined(TextWords(text)); }
  }

  lemma {:induction false} InitialsPlain(words: seq<string>)
    requires forall w, c :: w in words && c in w ==> c != '-'
    ensures forall c :: c in Initials(words) ==> c != '-'
  {
    if words != [] {
      assert forall w :: w in words[1..] ==> w in words;
      InitialsPlain(words[1..]);
      assert words[0] in words;
      if words[0] != [] { assert words[0][0] in words[0]; }
    }
  }

  lemma InitialsAreOnePart(text: string)
    ensures SplitOn(WordInitials(text), '-') == [WordInitials(text)]
  {
    hide Words, Depunctuate;
    WordsArePlain(text);
    InitialsPlain(TextWords(text));
    NoDash(WordInitials(text));
  }

  lemma ThreeParts(a: string, b: string, c: string)
    ensures SplitOn(a + "-" + b + "-" + c, '-') == SplitOn(a, '-') + SplitOn(b, '-') + SplitOn(c, '-')
  {
    assert a + "-" + b + "-" + c == (a + ['-'] + b) + ['-'] + c;
    SplitAppend(a + ['-'] + b, c);
    SplitAppend(a, b);
  }

  /** An address's local part on a rung is that rung's parts and the kind. */
  lemma RungSplits(name: string, bodyType: string, kind: GroupKind, rung: nat)
    requires rung < 3
    ensures SplitOn(EmailRungs(name, bodyType, kind)[rung], '-') == RungParts(name, bodyType, rung) + [kind.Suffix()]
  {
    hide Slugify, Short, SplitOn, TextWords, Parts, WordInitials;
    SlugParts(name);
    SlugParts(bodyType);
    InitialsAreOnePart(name);
    InitialsAreOnePart(bodyType);
    NoDash(kind.Suffix());
    var n, t := Slugify(name), Slugify(bodyType);
    if rung == 0 {
      ThreeParts(n, t, kind.Suffix());
    } else if rung == 1 {
      ThreeParts(n, Short(t), kind.Suffix());
    } else {
      ThreeParts(Short(n), Short(t), kind.Suffix());
    }
  }

  lemma LocalOnRung(name: string, bodyType: string, kind: GroupKind)
    ensures var rung := Rung(name, bodyType, kind);
            GroupLocal(name, bodyType, kind) ==
                if rung.Some? then Some(EmailRungs(name, bodyType, kind)[rung.value]) else None
  {
    var e := EmailRungs(name, bodyType, kind);
    hide EmailRungs;
    assert e[1..][0] == e[1] && e[1..][1..][0] == e[2] && e[1..][1..][1..] == [];
    assert FirstFitting([], EMAIL_LOCAL_CAP) == None;
    assert FirstFitting(e[1..][1..], EMAIL_LOCAL_CAP) == if |e[2]| <= EMAIL_LOCAL_CAP then Some(e[2]) else None;
    assert FirstFitting(e[1..], EMAIL_LOCAL_CAP) == if |e[1]| <= EMAIL_LOCAL_CAP then Some(e[1])
        else FirstFitting(e[1..][1..], EMAIL_LOCAL_CAP);
  }

  // --------------------------------------------------------------- main results

  /** Two bodies, of one type or of two, share an address exactly when both can be
      named and show the same parts on their rungs. */
  lemma AddressesCoincideExactly(name1: string, type1: string, name2: string, type2: string, kind: GroupKind,
      domain: string)
    ensures var a, b := GroupEmail(name1, type1, kind, domain), GroupEmail(name2, type2, kind, domain);
            var r1, r2 := Rung(name1, type1, kind), Rung(name2, type2, kind);
            a.Some? && a == b <==>
                r1.Some? && r2.Some? && RungParts(name1, type1, r1.value) == RungParts(name2, type2, r2.value)
  {
    hide EmailRungs, GroupLocal, RungParts, SplitOn, Rung;
    LocalOnRung(name1, type1, kind);
    LocalOnRung(name2, type2, kind);
    var r1, r2 := Rung(name1, type1, kind), Rung(name2, type2, kind);
    if r1.Some? && r2.Some? {
      var p, q := EmailRungs(name1, type1, kind)[r1.value], EmailRungs(name2, type2, kind)[r2.value];
      RungSplits(name1, type1, kind, r1.value);
      RungSplits(name2, type2, kind, r2.value);
      SplitInjective(p, q);
      SameEnd(RungParts(name1, type1, r1.value), RungParts(name2, type2, r2.value), kind.Suffix());
      SameDomain(p, q, domain);
    }
  }

  lemma SameEnd(a: seq<string>, b: seq<string>, x: string)
    ensures a + [x] == b + [x] <==> a == b
  {
    if a + [x] == b + [x] {
      assert a == (a + [x])[..|a|] && b == (b + [x])[..|b|];
    }
  }

  lemma SameDomain(p: string, q: string, domain: string)
    ensures p + "@" + domain == q + "@" + domain <==> p == q
  {
    var x, y := p + "@" + domain, q + "@" + domain;
    if x == y {
      assert |x| == |p| + 1 + |domain| && |y| == |q| + 1 + |domain|;
      assert p == x[..|p|] && q == y[..|q|];
    }
  }

  /** What two bodies of one type must share for one address, by their rungs: their
      words, while both names are written out; their initials, when neither is; and
      where only the type or only one name is, a name that spells out the rest. */
  ghost predicate SharesName(name1: string, rung1: nat, name2: string, rung2: nat, bodyType: string)
    requires rung1 <= rung2 < 3
  {
    var t := Parts(bodyType);
    if rung1 == rung2 then
      if rung1 < 2 then TextWords(name1) == TextWords(name2) else WordInitials(name1) == WordInitials(name2)
    else if rung1 == 1 then Parts(name1) == [WordInitials(name2)]
    else if rung2 == 1 then Parts(name2) == Parts(name1) + t[..|t| - 1] && t[|t| - 1] == WordInitials(bodyType)
    else Parts(name1) == [WordInitials(name2)] && t == [WordInitials(bodyType)]
  }

  /** The words decide for two bodies of one type, the one on the earlier rung first. */
  lemma SameTypeCoincide(name1: string, name2: string, bodyType: string, kind: GroupKind, domain: string)
    requires var r1, r2 := Rung(name1, bodyType, kind), Rung(name2, bodyType, kind);
             r1.Some? && r2.Some? && r1.value <= r2.value
    ensures var r1, r2 := Rung(name1, bodyType, kind).value, Rung(name2, bodyType, kind).value;
            GroupEmail(name1, bodyType, kind, domain) == GroupEmail(name2, bodyType, kind, domain) <==>
                SharesName(name1, r1, name2, r2, bodyType)
  {
    AddressesCoincideExactly(name1, bodyType, name2, bodyType, kind, domain);
    LocalOnRung(name1, bodyType, kind);
    hide EmailRungs, GroupLocal, Rung, Parts, WordInitials, TextWords;
    var r1, r2 := Rung(name1, bodyType, kind).value, Rung(name2, bodyType, kind).value;
    PartsAreWords(name1, name2);
    var n1, n2, t, i1, i2, it :=
        Parts(name1), Parts(name2), Parts(bodyType),
        WordInitials(name1), WordInitials(name2), WordInitials(bodyType);
    if r1 == r2 {
      if r1 == 0 {
        SameTail(n1, n2, t);
      } else if r1 == 1 {
        SameTail(n1, n2, [it]);
      } else {
        SameTail([i1], [i2], [it]);
      }
    } else if r1 == 1 {
      SameTail(n1, [i2], [it]);
    } else if r2 == 1 {
      assert t == t[..|t| - 1] + [t[|t| - 1]];
      assert n1 + t == (n1 + t[..|t| - 1]) + [t[|t| - 1]];
      LastAndRest(n2, n1 + t[..|t| - 1], it, t[|t| - 1]);
    } else {
      PairSplits(n1, t, i2, it);
    }
  }

  lemma PartsAreWords(name1: string, name2: string)
    ensures Parts(name1) == Parts(name2) <==> TextWords(name1) == TextWords(name2)
  {
    hide Depunctuate;
    assert forall w :: w in TextWords(name1) ==> w != [];
    assert forall w :: w in TextWords(name2) ==> w != [];
    if TextWords(name1) != [] { assert TextWords(name1)[0] in TextWords(name1); }
    if TextWords(name2) != [] { assert TextWords(name2)[0] in TextWords(name2); }
  }

  lemma SameTail(a: seq<string>, b: seq<string>, t: seq<string>)
    ensures a + t == b + t <==> a == b
  {
    if a + t == b + t {
      assert |a| == |b|;
      assert a == (a + t)[..|a|] && b == (b + t)[..|b|];
    }
  }

  lemma LastAndRest(a: seq<string>, b: seq<string>, x: string, y: string)
    ensures b + [y] == a + [x] <==> a == b && x == y
  {
    if b + [y] == a + [x] {
      assert a == (a + [x])[..|a|] && b == (b + [y])[..|b|];
      assert (a + [x])[|a|] == x && (b + [y])[|b|] == y;
    }
  }

  lemma PairSplits(n: seq<string>, t: seq<string>, x: string, y: string)
    requires n != [] && t != []
    ensures n + t == [x] + [y] <==> n == [x] && t == [y]
  {
    if n + t == [x] + [y] {
      assert |n| == 1 && |t| == 1;
      assert (n + t)[0] == n[0] && (n + t)[1] == t[0];
    }
  }

  // ------------------------------------------------------------------- witnesses

  lemma {:induction false} CollapseSize(s: string)
    ensures |Collapse(s)| <= |s|
    decreases |s|
  {
    if s != [] {
      if IsSpace(s[0]) { CollapseSize(Lstrip(s)); } else { CollapseSize(s[1..]); }
    }
  }

  lemma SlugSize(text: string)
    ensures |Slugify(text)| <= |text|
  {
    CollapseSize(Depunctuate(Norm(text)));
    hide Collapse, Depunctuate, Norm, Lstrip, Rstrip;
  }

  /** A short name is written out in full. */
  lemma ShortNamesFit(name: string, bodyType: string, kind: GroupKind)
    requires |name| + |bodyType| + 9 <= EMAIL_LOCAL_CAP
    ensures Rung(name, bodyType, kind) == Some(0)
  {
    SlugSize(name);
    SlugSize(bodyType);
    hide Slugify, Short;
  }

  lemma SameWords(name1: string, name2: string)
    requires Norm(name1) == Norm(name2)
    ensures TextWords(name1) == TextWords(name2)
  {
  }

  lemma ZineNormed()
    ensures Norm("Zine") == Norm("zine")
  {
  }

  /** The slug forgets case: two short names that differ in nothing else are given one
      address. */
  lemma CaseIsForgotten(kind: GroupKind, domain: string)
    ensures var a := GroupEmail("Zine", "Committee", kind, domain);
            a.Some? && a == GroupEmail("zine", "Committee", kind, domain)
  {
    hide Norm, Rung, Words, Depunctuate, TextWords, Parts, WordInitials, EmailRungs, GroupLocal;
    ShortNamesFit("Zine", "Committee", kind);
    ShortNamesFit("zine", "Committee", kind);
    ZineNormed();
    SameWords("Zine", "zine");
    SameTypeCoincide("Zine", "zine", "Committee", kind, domain);
    LocalOnRung("Zine", "Committee", kind);
  }

  /** A word of 60 letters. */
  function LongWord(c: char): string {
    ['a'] + seq(59, _ => c)
  }

  lemma {:induction false} PlainDepunctuated(s: string)
    requires forall c :: c in s ==> IsSlugChar(c)
    ensures Depunctuate(s) == s
  {
    if s != [] {
      assert s[0] in s && forall c :: c in s[1..] ==> c in s;
      PlainDepunctuated(s[1..]);
      assert s == [s[0]] + s[1..];
    }
  }

  lemma {:induction false} PlainFirstWord(s: string)
    requires forall c :: c in s ==> !IsSpace(c)
    ensures FirstWord(s) == s
  {
    if s != [] {
      assert s[0] in s && forall c :: c in s[1..] ==> c in s;
      PlainFirstWord(s[1..]);
      assert s == [s[0]] + s[1..];
    }
  }

  lemma OneWord(s: string)
    requires s != [] && forall c :: c in s ==> IsSlugChar(c)
    ensures TextWords(s) == [s]
  {
    assert Norm(s) == s by {
      assert forall c :: IsSlugChar(c) ==> LowerChar(c) == c;
      assert forall i :: 0 <= i < |s| ==> s[i] in s;
    }
    PlainDepunctuated(s);
    assert forall c :: IsSlugChar(c) ==> !IsSpace(c);
    PlainFirstWord(s);
    assert s[0] in s;
    assert Lstrip(s) == s && s[|s|..] == [];
    NoWords();
    hide FirstWord, Lstrip, Depunctuate;
    assert [s] + [] == [s];
  }

  lemma OneWordInitial(s: string)
    requires s != [] && TextWords(s) == [s]
    ensures WordInitials(s) == [s[0]]
  {
    assert [s][1..] == [];
    assert Initials([]) == [];
  }

  lemma LongWordParts(c: char)
    requires IsSlugChar(c)
    ensures TextWords(LongWord(c)) == [LongWord(c)] && WordInitials(LongWord(c)) == "a"
    ensures Slugify(LongWord(c)) == LongWord(c) && Short(Slugify(LongWord(c))) == "a"
  {
    var w := LongWord(c);
    assert w[0] == 'a' && forall x :: x in w ==> IsSlugChar(x);
    hide Slugify, Words, Depunctuate, Initials, SplitOn, TextWords, Short;
    OneWord(w);
    OneWordInitial(w);
    SlugParts(w);
    JoinSplit(Slugify(w));
    assert [w[0]] == "a";
  }

  /** Such a name is too long for the rungs that write it out. */
  lemma LongWordRung(c: char, kind: GroupKind)
    requires IsSlugChar(c)
    ensures Rung(LongWord(c), "Committee", kind) == Some(2)
  {
    hide Slugify, Words, Depunctuate, Initials, SplitOn, TextWords, Short, LongWord;
    LongWordParts(c);
    SlugSize("Committee");
    SplitSize(Slugify("Committee"), '-');
    ShortSize("Committee");
    assert |LongWord(c)| == 60 by { LongWordSize(c); }
  }

  lemma LongWordSize(c: char)
    ensures |LongWord(c)| == 60
  {
  }

  lemma ShortSize(text: string)
    ensures |Short(Slugify(text))| <= |Slugify(text)|
  {
    SplitSize(Slugify(text), '-');
  }

  /** So does the last rung, of everything but the initials: two long names that share
      nothing else are given one address. */
  lemma InitialsAreShared(kind: GroupKind, domain: string)
    ensures var a := GroupEmail(LongWord('b'), "Committee", kind, domain);
            a.Some? && a == GroupEmail(LongWord('c'), "Committee", kind, domain) && LongWord('b') != LongWord('c')
  {
    LongWordRung('b', kind);
    LongWordRung('c', kind);
    LongWordParts('b');
    LongWordParts('c');
    assert LongWord('b')[1] == 'b' && LongWord('c')[1] == 'c';
    hide Rung, Words, Depunctuate, LongWord, WordInitials, TextWords;
    SameTypeCoincide(LongWord('b'), LongWord('c'), "Committee", kind, domain);
    LocalOnRung(LongWord('b'), "Committee", kind);
  }
}
