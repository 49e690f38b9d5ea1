/** A body's two names at Google in literal words: how a text is split and initialed,
    and what each rung of the two ladders reads. */
module NamesInWords {
  import opened Basics
  import opened Naming
  import opened NameClashes

  // ------------------------------------------------------------------ splitting

  /** White space, by character code. */
  predicate Blank(c: char) {
    c as int in {9, 10, 11, 12, 13, 28, 29, 30, 31, 32}
  }

  lemma BlankIsSpace(c: char)
    ensures IsSpace(c) <==> Blank(c)
  {
  }

  /** A text's words are its maximal runs without white space: none in an empty text, a
      run by itself is one, and white space anywhere splits the words before it from
      those after. */
  lemma WordsDistribute(a: string, c: char, b: string)
    requires Blank(c)
    ensures Words(a + [c] + b) == Words(a) + Words(b)
    ensures Words([]) == []
    ensures a != [] && (forall x :: x in a ==> !Blank(x)) ==> Words(a) == [a]
  {
    forall x ensures IsSpace(x) <==> Blank(x) { BlankIsSpace(x); }
    hide IsSpace, Blank, Words;
    NoWords();
    SpaceSplits(a, c, b);
    if a != [] && forall x :: x in a ==> !Blank(x) {
      RunIsWord(a);
    }
  }

  lemma RunIsWord(a: string)
    requires a != [] && forall x :: x in a ==> !IsSpace(x)
    ensures Words(a) == [a]
  {
    hide IsSpace;
    PlainFirstWord(a);
    assert a[0] in a && a[|a|..] == [];
    FirstWordThenRest(a);
    NoWords();
    hide Words, FirstWord;
  }

  lemma WordThenSplit(a: string, c: char, b: string)
    requires a != [] && !IsSpace(a[0]) && IsSpace(c)
    requires var rest := a[|FirstWord(a)|..]; Words(rest + [c] + b) == Words(rest) + Words(b)
    ensures Words(a + [c] + b) == Words(a) + Words(b)
  {
    hide IsSpace, Words, FirstWord, Lstrip;
    FirstOf(a, c, b);
    var w := FirstWord(a);
    var rest := a[|w|..];
    FirstWordThenRest(a);
    FirstWordThenRest(a + [c] + b);
    assert (a + [c] + b)[|w|..] == rest + [c] + b;
    WordsAfterSpace(rest);
    WordsAfterSpace(rest + [c] + b);
    assert [w] + (Words(rest) + Words(b)) == ([w] + Words(rest)) + Words(b);
  }

  lemma {:induction false} SpaceSplits(a: string, c: char, b: string)
    requires IsSpace(c)
    ensures Words(a + [c] + b) == Words(a) + Words(b)
    decreases |a|
  {
    hide IsSpace, Words;
    if a == [] {
      assert a + [c] + b == [c] + b && ([c] + b)[1..] == b;
      SkipSpace([c] + b);
      NoWords();
    } else if IsSpace(a[0]) {
      SpaceSplits(a[1..], c, b);
      assert (a + [c] + b)[1..] == a[1..] + [c] + b;
      SkipSpace(a);
      SkipSpace(a + [c] + b);
    } else {
      hide FirstWord, Lstrip;
      var w := FirstWord(a);
      var rest := a[|w|..];
      SpaceSplits(rest, c, b);
      WordThenSplit(a, c, b);
    }
  }

  lemma SkipSpace(s: string)
    requires s != [] && IsSpace(s[0])
    ensures Words(s) == Words(s[1..])
  {
    WordsAfterSpace(s);
    WordsAfterSpace(s[1..]);
    hide Words, IsSpace;
  }

  /** A space after a text does not reach its first word. */
  lemma {:induction false} FirstOf(a: string, c: char, b: string)
    requires a != [] && !IsSpace(a[0]) && IsSpace(c)
    ensures FirstWord(a + [c] + b) == FirstWord(a)
    decreases |a|
  {
    hide IsSpace;
    var s := a + [c] + b;
    assert s[0] == a[0] && s[1..] == a[1..] + [c] + b;
    if a[1..] != [] && !IsSpace(a[1..][0]) {
      FirstOf(a[1..], c, b);
    } else if a[1..] == [] {
      assert s[1..] == [c] + b;
      assert FirstWord([c] + b) == [] && FirstWord([]) == [];
    } else {
      assert s[1..][0] == a[1..][0];
      assert FirstWord(s[1..]) == [] && FirstWord(a[1..]) == [];
    }
  }

  /** What the slug keeps of a lower-cased text: letters, digits and white space. */
  lemma {:induction false} DepunctuateDistributes(a: string, c: char, b: string)
    ensures Depunctuate(a + b) == Depunctuate(a) + Depunctuate(b)
    ensures Depunctuate([c]) == if 'a' <= c <= 'z' || '0' <= c <= '9' || Blank(c) then [c] else []
  {
    BlankIsSpace(c);
    hide IsSpace, IsSlugChar;
    assert Depunctuate([c]) == (if IsSlugChar(c) || IsSpace(c) then [c] else []) by {
      assert [c][1..] == [] && Depunctuate([]) == [];
    }
    if a == [] {
      assert a + b == b;
    } else {
      assert (a + b)[0] == a[0] && (a + b)[1..] == a[1..] + b;
      DepunctuateDistributes(a[1..], c, b);
    }
    SlugChars(c);
  }

  lemma SlugChars(c: char)
    ensures IsSlugChar(c) <==> 'a' <= c <= 'z' || '0' <= c <= '9'
  {
  }

  // ------------------------------------------------------------------ initialing

  /** An address keeps every word's first character. */
  lemma {:induction false} InitialsDistribute(a: seq<string>, w: string, b: seq<string>)
    requires w != []
    ensures Initials(a + b) == Initials(a) + Initials(b) && Initials([w]) == [w[0]]
  {
    assert [w][1..] == [] && Initials([]) == [];
    if a == [] {
      assert a + b == b;
    } else {
      assert (a + b)[0] == a[0] && (a + b)[1..] == a[1..] + b;
      InitialsDistribute(a[1..], w, b);
    }
  }

  /** A letter in upper case; any other character as it is. */
  function Upper(c: char): char {
    if 'a' <= c <= 'z' then (c as int - 'a' as int + 'A' as int) as char else c
  }

  /** A label keeps, in upper case, the first character of each word that starts with a
      letter and is no small word. */
  lemma {:induction false} LabelInitialsDistribute(a: seq<string>, w: string, b: seq<string>)
    requires w != []
    ensures SignificantInitials(a + b) == SignificantInitials(a) + SignificantInitials(b)
    ensures SignificantInitials([w]) ==
        if ('a' <= w[0] <= 'z' || 'A' <= w[0] <= 'Z')
           && Norm(w) !in {"a", "an", "and", "the", "of", "for", "in", "to"} then [Upper(w[0])] else []
  {
    assert [w][1..] == [] && SignificantInitials([]) == [];
    if a == [] {
      assert a + b == b;
    } else {
      assert (a + b)[0] == a[0] && (a + b)[1..] == a[1..] + b;
      hide Significant;
      LabelInitialsDistribute(a[1..], w, b);
    }
  }

  /** The words of a text, each with its first letter in upper case. */
  function TitledWords(text: string): seq<string> {
    var words := Words(text);
    seq(|words|, k requires 0 <= k < |words| =>
      assert words[k] in words; [Upper(words[k][0])] + words[k][1..])
  }

  lemma UpperMeans()
    ensures forall c :: Upper(c) == UpperChar(c)
  {
  }

  lemma {:induction false} Capitalises(words: seq<string>)
    requires forall w :: w in words ==> w != []
    ensures |CapitaliseAll(words)| == |words|
    ensures forall k :: 0 <= k < |words| ==>
        words[k] != [] && CapitaliseAll(words)[k] == [Upper(words[k][0])] + words[k][1..]
  {
    hide Upper, UpperChar;
    if words != [] {
      UpperMeans();
      assert words[0] in words && forall w :: w in words[1..] ==> w in words;
      Capitalises(words[1..]);
      forall k | 0 <= k < |words|
        ensures words[k] != [] && CapitaliseAll(words)[k] == [Upper(words[k][0])] + words[k][1..]
      {
        if k > 0 { assert words[k] == words[1..][k - 1]; }
      }
    }
  }

  lemma TitledExactly(text: string)
    ensures Titlecase(text) == Join(' ', TitledWords(text))
  {
    var words := Words(text);
    Capitalises(words);
    hide Words, Upper, UpperChar, CapitaliseAll;
    assert CapitaliseAll(words) == TitledWords(text);
  }

  // ------------------------------------------------------------------ the ladders

  /** The words of a text, lower-cased and stripped of punctuation, joined by dashes. */
  function DashedWords(text: string): string {
    Join('-', TextWords(text))
  }

  /** A group's address: the words of the name and of the type, the latter then initialed,
      then both, whichever first keeps within 64 characters; always with its kind at the
      end, before the domain. */
  lemma EmailInWords(name: string, bodyType: string, kind: GroupKind, domain: string)
    ensures var end := if kind == Leaders then "-leaders" else "-editors";
            var first := DashedWords(name) + "-" + DashedWords(bodyType) + end;
            var second := DashedWords(name) + "-" + WordInitials(bodyType) + end;
            var third := WordInitials(name) + "-" + WordInitials(bodyType) + end;
            GroupEmail(name, bodyType, kind, domain) ==
                if |first| <= 64 then Some(first + "@" + domain)
                else if |second| <= 64 then Some(second + "@" + domain)
                else if |third| <= 64 then Some(third + "@" + domain)
                else None
  {
    hide Slugify, Short, Words, Depunctuate, Norm, Join, Initials, GroupLocal, EmailRungs, Rung;
    SlugIsJoinedWords(name);
    SlugIsJoinedWords(bodyType);
    ShortIsWordInitials(name);
    ShortIsWordInitials(bodyType);
    LocalOnRung(name, bodyType, kind);
    RungsInWords(name, bodyType, kind);
    RungFits(name, bodyType, kind);
  }

  lemma RungsInWords(name: string, bodyType: string, kind: GroupKind)
    ensures var end := if kind == Leaders then "-leaders" else "-editors";
            var n, t, i, j := Slugify(name), Slugify(bodyType), Short(Slugify(name)), Short(Slugify(bodyType));
            EmailRungs(name, bodyType, kind) == [n + "-" + t + end, n + "-" + j + end, i + "-" + j + end]
  {
    hide Slugify, Short;
    var word := if kind == Leaders then "leaders" else "editors";
    assert kind.Suffix() == word;
    assert "-" + word == (if kind == Leaders then "-leaders" else "-editors");
    var n, t, i, j := Slugify(name), Slugify(bodyType), Short(Slugify(name)), Short(Slugify(bodyType));
    assert n + "-" + t + "-" + word == n + "-" + t + ("-" + word);
    assert n + "-" + j + "-" + word == n + "-" + j + ("-" + word);
    assert i + "-" + j + "-" + word == i + "-" + j + ("-" + word);
  }

  lemma RungFits(name: string, bodyType: string, kind: GroupKind)
    ensures var e := EmailRungs(name, bodyType, kind);
            Rung(name, bodyType, kind) ==
              if |e[0]| <= 64 then Some(0) else if |e[1]| <= 64 then Some(1) else if |e[2]| <= 64 then Some(2) else None
  {
    hide EmailRungs;
  }

  /** A group's label: the titled name and the type, then the type initialed, then one
      acronym for both, whichever first keeps within 73 characters; always with the word
      for its kind at the end. */
  lemma LabelInWords(name: string, bodyType: string, kind: GroupKind)
    ensures var word := if kind == Leaders then " Leaders" else " Editors";
            var titled := Join(' ', TitledWords(name));
            var first := titled + " " + bodyType + word;
            var second := titled + " " + SignificantInitials(Words(bodyType)) + word;
            var third := SignificantInitials(Words(name)) + SignificantInitials(Words(bodyType)) + word;
            GroupLabel(name, bodyType, kind) ==
                if |first| <= 73 then Some(first)
                else if |second| <= 73 then Some(second)
                else if |third| <= 73 then Some(third)
                else None
  {
    TitledExactly(name);
    hide Words, SignificantInitials, TitledWords, Titlecase, Join;
    var word := if kind == Leaders then "Leaders" else "Editors";
    assert kind.DisplayWord() == word;
    assert " " + word == (if kind == Leaders then " Leaders" else " Editors");
    var t, a, b := Titlecase(name), LabelInitials(name), LabelInitials(bodyType);
    assert t + " " + bodyType + " " + word == t + " " + bodyType + (" " + word);
    assert t + " " + b + " " + word == t + " " + b + (" " + word);
    assert a + b + " " + word == a + b + (" " + word);
    FirstOfLabels(LabelRungs(name, bodyType, kind), 73);
  }

  lemma FirstOfLabels(rungs: seq<string>, cap: nat)
    requires |rungs| == 3
    ensures FirstFitting(rungs, cap) ==
        if |rungs[0]| <= cap then Some(rungs[0])
        else if |rungs[1]| <= cap then Some(rungs[1])
        else if |rungs[2]| <= cap then Some(rungs[2])
        else None
  {
    assert rungs[1..][0] == rungs[1] && rungs[1..][1..][0] == rungs[2] && rungs[1..][1..][1..] == [];
    assert FirstFitting([], cap) == None;
    assert FirstFitting(rungs[1..][1..], cap) == if |rungs[2]| <= cap then Some(rungs[2]) else None;
    assert FirstFitting(rungs[1..], cap) ==
        if |rungs[1]| <= cap then Some(rungs[1]) else FirstFitting(rungs[1..][1..], cap);
  }

  // ------------------------------------------------------------- a body, for one

  lemma Lowered()
    ensures Norm("Fountain") == "fountain" && Norm("Committee") == "committee"
  {
  }

  lemma LoweredWord(text: string, word: string)
    requires Norm(text) == word && word != [] && forall c :: c in word ==> IsSlugChar(c)
    ensures TextWords(text) == [word]
  {
    PlainDepunctuated(word);
    forall c | c in word ensures !IsSpace(c) { assert IsSlugChar(c); }
    hide Norm, Depunctuate, IsSlugChar, IsSpace, Words;
    RunIsWord(word);
  }

  lemma Labelled(text: string)
    requires text != [] && 'A' <= text[0] <= 'Z' && forall c :: c in text ==> !IsSpace(c)
    ensures TitledWords(text) == [text]
  {
    hide IsSpace, Words;
    RunIsWord(text);
    assert [Upper(text[0])] + text[1..] == text;
  }

  lemma FountainsAddress(kind: GroupKind, end: string, local: string)
    requires end == (if kind == Leaders then "-leaders" else "-editors") && |local| <= 64
    requires "fountain" + "-" + "committee" + end == local
    ensures GroupEmail("Fountain", "Committee", kind, "dsa.org") == Some(local + "@" + "dsa.org")
  {
    FountainsWords();
    hide DashedWords, GroupEmail, WordInitials, Norm, TextWords;
    EmailInWords("Fountain", "Committee", kind, "dsa.org");
  }

  lemma FountainsWords()
    ensures DashedWords("Fountain") == "fountain" && DashedWords("Committee") == "committee"
  {
    Lowered();
    hide DashedWords, Norm;
    DashedOne("Fountain", "fountain");
    DashedOne("Committee", "committee");
  }

  lemma DashedOne(text: string, word: string)
    requires Norm(text) == word && word != [] && forall c :: c in word ==> IsSlugChar(c)
    ensures DashedWords(text) == word
  {
    hide Norm, TextWords, Join, IsSlugChar;
    LoweredWord(text, word);
    JoinOne('-', word);
  }

  lemma FountainsLabel(kind: GroupKind, word: string, shown: string)
    requires word == (if kind == Leaders then " Leaders" else " Editors") && |shown| <= 73
    requires "Fountain" + " " + "Committee" + word == shown
    ensures GroupLabel("Fountain", "Committee", kind) == Some(shown)
  {
    Labelled("Fountain");
    hide TitledWords, GroupLabel, SignificantInitials, Words, Join;
    JoinOne(' ', "Fountain");
    LabelInWords("Fountain", "Committee", kind);
  }

  /** The committee Fountain's two groups, by address. */
  lemma FountainsAddresses()
    ensures GroupEmail("Fountain", "Committee", Leaders, "dsa.org") ==
        Some("fountain-committee-leaders" + "@" + "dsa.org")
    ensures GroupEmail("Fountain", "Committee", Editors, "dsa.org") ==
        Some("fountain-committee-editors" + "@" + "dsa.org")
  {
    hide GroupEmail;
    FountainsAddress(Leaders, "-leaders", "fountain-committee-leaders");
    FountainsAddress(Editors, "-editors", "fountain-committee-editors");
  }

  /** And by label. */
  lemma FountainsLabels()
    ensures GroupLabel("Fountain", "Committee", Leaders) == Some("Fountain Committee Leaders")
    ensures GroupLabel("Fountain", "Committee", Editors) == Some("Fountain Committee Editors")
  {
    hide GroupLabel;
    FountainsLabel(Leaders, " Leaders", "Fountain Committee Leaders");
    FountainsLabel(Editors, " Editors", "Fountain Committee Editors");
  }
}
