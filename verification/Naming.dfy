/** A body's two names at Google - the address and the display label - each
    shortened only as far as Google's caps require. Text is ASCII. */
module Naming {
  import opened Basics

  const EMAIL_LOCAL_CAP := 64
  const DISPLAY_NAME_CAP := 73
  const LABEL_STOPWORDS := {"a", "an", "and", "the", "of", "for", "in", "to"}

  datatype GroupKind = Leaders | Editors {

    function Suffix(): string {
      if Leaders? then "leaders" else "editors"
    }

    function DisplayWord(): string {
      if Leaders? then "Leaders" else "Editors"
    }
  }

  // -------------------------------------------------------------------- text

  /** The ASCII characters `\s` and `str.split` treat as white space. */
  predicate IsSpace(c: char) {
    9 <= c as int <= 13 || 28 <= c as int <= 32
  }

  predicate IsLetter(c: char) {
    'a' <= c <= 'z' || 'A' <= c <= 'Z'
  }

  predicate IsSlugChar(c: char) {
    'a' <= c <= 'z' || '0' <= c <= '9'
  }

  /** `re.sub(r"[^a-z0-9\s]+", "", ...)`. */
  function Depunctuate(s: string): (r: string)
    ensures forall c :: c in r ==> IsSlugChar(c) || IsSpace(c)
    ensures |r| <= |s|
  {
    if s == [] then []
    else if IsSlugChar(s[0]) || IsSpace(s[0]) then [s[0]] + Depunctuate(s[1..])
    else Depunctuate(s[1..])
  }

  /** The rest of `s` after its leading white space. */
  function Lstrip(s: string): (r: string)
    ensures |r| <= |s| && (r != [] ==> !IsSpace(r[0]))
    ensures s != [] && IsSpace(s[0]) ==> |r| < |s|
    ensures s != [] && !IsSpace(s[0]) ==> r == s
  {
    if s != [] && IsSpace(s[0]) then Lstrip(s[1..]) else s
  }

  function Rstrip(s: string): (r: string)
    ensures |r| <= |s|
  {
    if s != [] && IsSpace(s[|s| - 1]) then Rstrip(s[..|s| - 1]) else s
  }

  /** `re.sub(r"\s+", " ", ...)`. */
  function Collapse(s: string): string
    decreases |s|
  {
    if s == [] then []
    else if IsSpace(s[0]) then [' '] + Collapse(Lstrip(s))
    else [s[0]] + Collapse(s[1..])
  }

  function Dashed(s: string): (r: string)
    ensures |r| == |s|
  {
    seq(|s|, i requires 0 <= i < |s| => if s[i] == ' ' then '-' else s[i])
  }

  function Slugify(text: string): string {
    Dashed(Rstrip(Lstrip(Collapse(Depunctuate(Norm(text))))))
  }

  /** The leading run of non-space characters. */
  function FirstWord(s: string): (r: string)
    ensures |r| <= |s| && r <= s && (forall c :: c in r ==> !IsSpace(c))
    ensures s != [] && !IsSpace(s[0]) ==> r != []
    ensures |r| < |s| ==> IsSpace(s[|r|])
  {
    if s == [] || IsSpace(s[0]) then [] else [s[0]] + FirstWord(s[1..])
  }

  /** `str.split()`. */
  function Words(s: string): (r: seq<string>)
    ensures forall w :: w in r ==> w != [] && forall c :: c in w ==> !IsSpace(c)
    decreases |s|
  {
    var t := Lstrip(s);
    if t == [] then [] else [FirstWord(t)] + Words(t[|FirstWord(t)|..])
  }

  function Join(separator: char, words: seq<string>): string {
    if words == [] then []
    else if |words| == 1 then words[0]
    else words[0] + [separator] + Join(separator, words[1..])
  }

  function SplitOn(s: string, c: char): (r: seq<string>)
    ensures r != []
  {
    if s == [] then [[]]
    else if s[0] == c then [[]] + SplitOn(s[1..], c)
    else
      var rest := SplitOn(s[1..], c);
      [[s[0]] + rest[0]] + rest[1..]
  }

  /** The first character of each non-empty part. */
  function Initials(parts: seq<string>): string {
    if parts == [] then []
    else (if parts[0] == [] then [] else [parts[0][0]]) + Initials(parts[1..])
  }

  /** `Shortenable.short`. */
  function Short(slug: string): string {
    Initials(SplitOn(slug, '-'))
  }

  function Capitalised(w: string): (r: string)
    ensures |r| == |w|
  {
    if w == [] then [] else [UpperChar(w[0])] + w[1..]
  }

  function CapitaliseAll(words: seq<string>): (r: seq<string>)
    ensures |r| == |words| && forall k :: 0 <= k < |r| ==> |r[k]| == |words[k]|
  {
    if words == [] then [] else [Capitalised(words[0])] + CapitaliseAll(words[1..])
  }

  function Titlecase(text: string): string {
    Join(' ', CapitaliseAll(Words(text)))
  }

  predicate Significant(w: string) {
    w != [] && IsLetter(w[0]) && Norm(w) !in LABEL_STOPWORDS
  }

  function SignificantInitials(words: seq<string>): (r: string)
    ensures |r| <= |words|
  {
    if words == [] then []
    else (if Significant(words[0]) then [UpperChar(words[0][0])] else []) + SignificantInitials(words[1..])
  }

  function LabelInitials(text: string): string {
    SignificantInitials(Words(text))
  }

  // ------------------------------------------------------------------ ladders

  function EmailRungs(name: string, bodyType: string, kind: GroupKind): (r: seq<string>)
    ensures |r| == 3
  {
    var n, t := Slugify(name), Slugify(bodyType);
    [n + "-" + t + "-" + kind.Suffix(),
     n + "-" + Short(t) + "-" + kind.Suffix(),
     Short(n) + "-" + Short(t) + "-" + kind.Suffix()]
  }

  function LabelRungs(name: string, bodyType: string, kind: GroupKind): seq<string> {
    [Titlecase(name) + " " + bodyType + " " + kind.DisplayWord(),
     Titlecase(name) + " " + LabelInitials(bodyType) + " " + kind.DisplayWord(),
     LabelInitials(name) + LabelInitials(bodyType) + " " + kind.DisplayWord()]
  }

  /** The first rung within the cap; `None` is `GroupNameTooLong`. */
  function FirstFitting(rungs: seq<string>, cap: nat): Option<string> {
    if rungs == [] then None
    else if |rungs[0]| <= cap then Some(rungs[0])
    else FirstFitting(rungs[1..], cap)
  }

  function GroupLocal(name: string, bodyType: string, kind: GroupKind): Option<string> {
    FirstFitting(EmailRungs(name, bodyType, kind), EMAIL_LOCAL_CAP)
  }

  /** `GoogleGroupEmail`. */
  function GroupEmail(name: string, bodyType: string, kind: GroupKind, domain: string): Option<Email> {
    match GroupLocal(name, bodyType, kind)
    case None => None
    case Some(local) => Some(local + "@" + domain)
  }

  /** `GoogleGroupName`. */
  function GroupLabel(name: string, bodyType: string, kind: GroupKind): Option<string> {
    FirstFitting(LabelRungs(name, bodyType, kind), DISPLAY_NAME_CAP)
  }

  // ------------------------------------------------- what a slug is, in words

  lemma FirstWordThenRest(s: string)
    requires s != [] && !IsSpace(s[0])
    ensures var w := FirstWord(s);
            && w != [] && s == w + s[|w|..] && (s[|w|..] != [] ==> IsSpace(s[|w|..][0]))
            && Words(s) == [w] + Words(Lstrip(s[|w|..]))
  {
    hide IsSpace, FirstWord, Lstrip;
    assert Lstrip(s) == s;
    WordsAfterSpace(s[|FirstWord(s)|..]);
    hide Words;
  }

  lemma WordsAfterSpace(s: string)
    ensures Words(s) == Words(Lstrip(s))
  {
    hide IsSpace, FirstWord;
    assert Lstrip(Lstrip(s)) == Lstrip(s);
  }

  /** One space if the text ends in any. */
  function End(s: string): string {
    if s != [] && IsSpace(s[|s| - 1]) then [' '] else []
  }

  lemma CollapseOneWord(s: string, w: string, rest: string, next: string)
    requires s == w + rest && w != [] && (forall c :: c in w ==> !IsSpace(c)) && (rest != [] ==> IsSpace(rest[0]))
    requires next == Lstrip(rest) && Words(s) == [w] + Words(next)
    requires Collapse(next) == Join(' ', Words(next)) + End(next)
    ensures Collapse(s) == Join(' ', Words(s)) + End(s)
  {
    hide IsSpace, FirstWord, Words, Lstrip, Join;
    CollapseWord(w, rest);
    LstripSuffix(rest);
    NoWords();
    JoinOne(' ', w);
    if rest == [] {
      assert w[|w| - 1] in w;
      assert Collapse(s) == w && End(s) == [];
    } else {
      assert Collapse(rest) == [' '] + Collapse(next);
      assert s[|s| - 1] == rest[|rest| - 1];
      if next == [] {
        assert Collapse(next) == [] && End(s) == [' '];
      } else {
        assert Words(next) != [] by { FirstWordThenRest(next); }
        JoinThen(w, Words(next), Collapse(next), End(next));
      }
    }
  }

  lemma JoinOne(c: char, w: string)
    ensures Join(c, [w]) == w && [w] + [] == [w]
  {
    assert [w][1..] == [];
  }

  /** Collapsing a text that starts with a word leaves its words with one space
      between them, and one at the end if there was any. */
  lemma {:induction false} CollapseWords(s: string)
    requires s == [] || !IsSpace(s[0])
    ensures Collapse(s) == Join(' ', Words(s)) + End(s)
    decreases |s|
  {
    if s != [] {
      var w := FirstWord(s);
      var next := Lstrip(s[|w|..]);
      FirstWordThenRest(s);
      CollapseWords(next);
      hide Words, Lstrip, Collapse, Join, End, IsSpace;
      CollapseOneWord(s, w, s[|w|..], next);
    }
  }

  lemma NoWords()
    ensures Words([]) == [] && Lstrip([]) == []
  {
  }

  lemma JoinThen(w: string, words: seq<string>, collapsed: string, end: string)
    requires words != [] && collapsed == Join(' ', words) + end
    ensures w + ([' '] + collapsed) == Join(' ', [w] + words) + end
  {
    assert ([w] + words)[1..] == words;
    var joined := Join(' ', words);
    assert Join(' ', [w] + words) == w + [' '] + joined;
    hide Join;
    assert w + ([' '] + (joined + end)) == (w + [' '] + joined) + end;
  }

  /** Leading space runs to the end, or up to a word. */
  lemma {:induction false} LstripSuffix(s: string)
    ensures var r := Lstrip(s);
            && r == s[|s| - |r|..] && (forall i :: 0 <= i < |s| - |r| ==> IsSpace(s[i]))
            && (r == [] && s != [] ==> IsSpace(s[|s| - 1]))
            && (r != [] ==> r[|r| - 1] == s[|s| - 1])
  {
    hide IsSpace;
    if s != [] && IsSpace(s[0]) {
      LstripSuffix(s[1..]);
      SuffixLonger(s, Lstrip(s));
    } else {
      assert Lstrip(s) == s && s[0..] == s;
    }
  }

  lemma SuffixLonger(s: string, r: string)
    requires s != [] && IsSpace(s[0]) && |r| < |s| && r == s[1..][|s| - 1 - |r|..]
    requires forall i :: 0 <= i < |s| - 1 - |r| ==> IsSpace(s[1..][i])
    ensures r == s[|s| - |r|..] && forall i :: 0 <= i < |s| - |r| ==> IsSpace(s[i])
    ensures |s| > 1 ==> s[1..][|s| - 2] == s[|s| - 1]
  {
    hide IsSpace;
    forall i | 0 <= i < |s| - |r| ensures IsSpace(s[i]) {
      if i > 0 { assert s[i] == s[1..][i - 1]; }
    }
  }

  lemma {:induction false} CollapseWord(w: string, rest: string)
    requires forall c :: c in w ==> !IsSpace(c)
    ensures Collapse(w + rest) == w + Collapse(rest)
  {
    if w == [] {
      assert w + rest == rest;
    } else {
      assert (w + rest)[1..] == w[1..] + rest;
      CollapseWord(w[1..], rest);
    }
  }

  lemma {:induction false} JoinEnds(c: char, words: seq<string>)
    requires words != [] && forall w :: w in words ==> w != [] && !IsSpace(w[0]) && !IsSpace(w[|w| - 1])
    ensures var r := Join(c, words); r != [] && !IsSpace(r[0]) && !IsSpace(r[|r| - 1])
  {
    assert words[0] in words;
    if |words| > 1 {
      assert forall w :: w in words[1..] ==> w in words;
      JoinEnds(c, words[1..]);
    }
  }

  lemma {:induction false} JoinDashed(words: seq<string>)
    requires forall w :: w in words ==> forall c :: c in w ==> !IsSpace(c)
    ensures Dashed(Join(' ', words)) == Join('-', words)
  {
    if words != [] {
      assert words[0] in words;
      forall i | 0 <= i < |words[0]| ensures words[0][i] != ' ' { assert words[0][i] in words[0]; }
      if |words| == 1 {
        assert Dashed(words[0]) == words[0];
      } else {
        assert forall w :: w in words[1..] ==> w in words;
        JoinDashed(words[1..]);
        assert Dashed(words[0]) == words[0];
        assert Join(' ', words) == words[0] + [' '] + Join(' ', words[1..]);
        assert Dashed(Join(' ', words)) == Dashed(words[0]) + ['-'] + Dashed(Join(' ', words[1..]));
      }
    }
  }

  /** A slug is its words - lower-cased, stripped of everything but letters, digits
      and white space - joined by single dashes. */
  lemma SlugIsJoinedWords(text: string)
    ensures Slugify(text) == Join('-', Words(Depunctuate(Norm(text))))
  {
    var s := Depunctuate(Norm(text));
    StrippedIsJoined(s);
    JoinDashed(Words(s));
  }

  /** Leading space collapses to one space or none. */
  lemma CollapseLstrip(s: string)
    ensures Collapse(s) == (if s != [] && IsSpace(s[0]) then [' '] + Collapse(Lstrip(s)) else Collapse(Lstrip(s)))
    ensures Words(Lstrip(s)) == Words(s)
  {
    assert s != [] && IsSpace(s[0]) ==> Lstrip(s[1..]) == Lstrip(s);
  }

  lemma StrippedIsJoined(s: string)
    ensures Rstrip(Lstrip(Collapse(s))) == Join(' ', Words(s))
  {
    var t, words := Lstrip(s), Words(s);
    CollapseLstrip(s);
    CollapseWords(t);
    if words == [] {
      assert t == [] by { WordsOfWord(t); }
      assert Collapse(s) == [] || Collapse(s) == [' '];
    } else {
      WordEnds(words);
      hide Words, Collapse, Lstrip, IsSpace;
      JoinEnds(' ', words);
      hide Join, Rstrip;
      StripsToEnd(Join(' ', words), End(t), Collapse(s));
    }
  }

  lemma WordsOfWord(t: string)
    requires Words(t) == [] && (t != [] ==> !IsSpace(t[0]))
    ensures t == []
  {
  }

  lemma StripsToEnd(s: string, end: string, collapsed: string)
    requires s != [] && !IsSpace(s[0]) && !IsSpace(s[|s| - 1])
    requires (end == [] || end == [' ']) && (collapsed == s + end || collapsed == [' '] + (s + end))
    ensures Rstrip(Lstrip(collapsed)) == s
  {
    StripsTo(s);
    hide Rstrip, Lstrip, IsSpace;
    assert s + [] == s;
  }

  lemma WordEnds(words: seq<string>)
    requires forall w :: w in words ==> w != [] && forall c :: c in w ==> !IsSpace(c)
    ensures forall w :: w in words ==> w != [] && !IsSpace(w[0]) && !IsSpace(w[|w| - 1])
  {
    forall w | w in words ensures w != [] && !IsSpace(w[0]) && !IsSpace(w[|w| - 1]) {
      assert w[0] in w && w[|w| - 1] in w;
    }
  }

  /** Stripping undoes any collapsed space at either end. */
  lemma StripsTo(s: string)
    requires s != [] && !IsSpace(s[0]) && !IsSpace(s[|s| - 1])
    ensures Rstrip(Lstrip(s)) == s && Rstrip(Lstrip(s + [' '])) == s
    ensures Rstrip(Lstrip([' '] + s)) == s && Rstrip(Lstrip([' '] + (s + [' ']))) == s
  {
    assert ([' '] + s)[1..] == s && ([' '] + (s + [' ']))[1..] == s + [' '];
    assert (s + [' '])[..|s|] == s;
  }

  /** The characters of a depunctuated text's words. */
  lemma {:induction false} WordsOf(s: string)
    ensures forall w, c :: w in Words(s) && c in w ==> c in s
    decreases |s|
  {
    var t := Lstrip(s);
    if t != [] {
      LstripSuffix(s);
      WordsOf(t[|FirstWord(t)|..]);
      assert forall c :: c in t ==> c in s;
    }
  }

  lemma {:induction false} SplitJoined(words: seq<string>)
    requires words != [] && forall w :: w in words ==> forall c :: c in w ==> c != '-'
    ensures SplitOn(Join('-', words), '-') == words
  {
    assert words[0] in words;
    if |words| == 1 {
      SplitPlain(words[0], []);
      assert words[0] + [] == words[0];
    } else {
      assert forall w :: w in words[1..] ==> w in words;
      SplitJoined(words[1..]);
      var tail := ['-'] + Join('-', words[1..]);
      assert Join('-', words) == words[0] + tail;
      assert tail[1..] == Join('-', words[1..]);
      SplitPlain(words[0], tail);
      assert SplitOn(tail, '-') == [[]] + words[1..];
      assert ([[]] + words[1..])[1..] == words[1..] && words[0] + [] == words[0];
      assert [words[0]] + words[1..] == words;
    }
  }

  lemma {:induction false} SplitPlain(w: string, tail: string)
    requires forall c :: c in w ==> c != '-'
    ensures SplitOn(w + tail, '-') == [w + SplitOn(tail, '-')[0]] + SplitOn(tail, '-')[1..]
  {
    if w == [] {
      var parts := SplitOn(tail, '-');
      assert w + tail == tail && w + parts[0] == parts[0];
      assert parts == [parts[0]] + parts[1..];
    } else {
      assert (w + tail)[1..] == w[1..] + tail && (w + tail)[0] == w[0];
      assert forall c :: c in w[1..] ==> c in w;
      assert w[0] in w;
      SplitPlain(w[1..], tail);
      assert [w[0]] + (w[1..] + SplitOn(tail, '-')[0]) == w + SplitOn(tail, '-')[0];
    }
  }

  /** A slug's short form is the first letters of the words it was made of. */
  lemma ShortIsWordInitials(text: string)
    ensures Short(Slugify(text)) == Initials(Words(Depunctuate(Norm(text))))
  {
    var words := Words(Depunctuate(Norm(text)));
    SlugIsJoinedWords(text);
    if words == [] {
      assert SplitOn([], '-') == [[]];
      assert Initials([[]]) == [] + Initials([[]][1..]);
    } else {
      WordsOf(Depunctuate(Norm(text)));
      SplitJoined(words);
    }
  }

  // ----------------------------------------------------------- ladder bounds

  lemma {:induction false} SplitSize(s: string, c: char)
    ensures |Initials(SplitOn(s, c))| <= |s|
  {
    if s != [] {
      SplitSize(s[1..], c);
      var rest := SplitOn(s[1..], c);
      if s[0] == c {
        assert ([[]] + rest)[1..] == rest;
      } else {
        assert ([[s[0]] + rest[0]] + rest[1..])[1..] == rest[1..];
      }
    }
  }

  lemma {:induction false} WordsSize(s: string)
    ensures |Words(s)| <= |s|
    decreases |s|
  {
    var t := Lstrip(s);
    if t != [] { WordsSize(t[|FirstWord(t)|..]); }
  }

  lemma {:induction false} JoinSize(c: char, words: seq<string>)
    requires forall w :: w in words ==> w != []
    ensures |words| <= |Join(c, words)| && (words != [] ==> |words| <= |Join(c, words)|)
  {
    if words != [] {
      assert words[0] in words;
      if |words| > 1 {
        assert forall w :: w in words[1..] ==> w in words;
        JoinSize(c, words[1..]);
      }
    }
  }

  /** No rung of either ladder is longer than the one before it. */
  lemma RungsShrink(name: string, bodyType: string, kind: GroupKind)
    ensures var e, l := EmailRungs(name, bodyType, kind), LabelRungs(name, bodyType, kind);
            |e[0]| >= |e[1]| >= |e[2]| && |l[0]| >= |l[1]| >= |l[2]|
  {
    SplitSize(Slugify(name), '-');
    SplitSize(Slugify(bodyType), '-');
    WordsSize(bodyType);
    var titled := CapitaliseAll(Words(name));
    forall w | w in titled ensures w != [] {
      var k :| 0 <= k < |titled| && titled[k] == w;
      assert Words(name)[k] in Words(name);
    }
    JoinSize(' ', titled);
  }

  /** Naming fails exactly when the shortest rung is too long, and otherwise gives
      the first rung that fits - the longest, since rungs only shrink. */
  lemma NamingFailsExactly(name: string, bodyType: string, kind: GroupKind)
    ensures var e, local := EmailRungs(name, bodyType, kind), GroupLocal(name, bodyType, kind);
            && (local.None? <==> |e[2]| > EMAIL_LOCAL_CAP)
            && (local.Some? ==>
                  && local.value in e && |local.value| <= EMAIL_LOCAL_CAP
                  && forall r :: r in e && |r| <= EMAIL_LOCAL_CAP ==> |r| <= |local.value|)
    ensures var l, shown := LabelRungs(name, bodyType, kind), GroupLabel(name, bodyType, kind);
            && (shown.None? <==> |l[2]| > DISPLAY_NAME_CAP)
            && (shown.Some? ==>
                  && shown.value in l && |shown.value| <= DISPLAY_NAME_CAP
                  && forall r :: r in l && |r| <= DISPLAY_NAME_CAP ==> |r| <= |shown.value|)
  {
    RungsShrink(name, bodyType, kind);
    FirstOfThree(EmailRungs(name, bodyType, kind), EMAIL_LOCAL_CAP);
    FirstOfThree(LabelRungs(name, bodyType, kind), DISPLAY_NAME_CAP);
  }

  lemma FirstOfThree(rungs: seq<string>, cap: nat)
    requires |rungs| == 3 && |rungs[0]| >= |rungs[1]| >= |rungs[2]|
    ensures var r := FirstFitting(rungs, cap);
            && (r.None? <==> |rungs[2]| > cap)
            && (r.Some? ==> r.value in rungs && |r.value| <= cap)
            && (r.Some? ==> forall x :: x in rungs && |x| <= cap ==> |x| <= |r.value|)
  {
    var r1 := rungs[1..];
    var r2 := r1[1..];
    assert r1[0] == rungs[1] && r2[0] == rungs[2] && r2[1..] == [];
    assert FirstFitting(r2, cap) == if |rungs[2]| <= cap then Some(rungs[2]) else None;
    assert FirstFitting(r1, cap) == if |rungs[1]| <= cap then Some(rungs[1]) else FirstFitting(r2, cap);
    assert forall x :: x in rungs ==> x == rungs[0] || x == rungs[1] || x == rungs[2];
  }

  lemma EndsWithAppended(prefix: string, suffix: string)
    ensures EndsWith(prefix + suffix, suffix)
  {
  }

  /** Every rung ends in its kind's suffix. */
  lemma LocalEndsInSuffix(name: string, bodyType: string, kind: GroupKind)
    ensures var local := GroupLocal(name, bodyType, kind);
            local.Some? ==> EndsWith(local.value, kind.Suffix())
  {
    NamingFailsExactly(name, bodyType, kind);
    hide GroupLocal, Slugify, Short, EndsWith;
    var n, t := Slugify(name), Slugify(bodyType);
    EndsWithAppended(n + "-" + t + "-", kind.Suffix());
    EndsWithAppended(n + "-" + Short(t) + "-", kind.Suffix());
    EndsWithAppended(Short(n) + "-" + Short(t) + "-", kind.Suffix());
  }

  /** A leaders address never equals an editors address, whatever the two bodies. */
  lemma KindsNeverCollide(name1: string, type1: string, name2: string, type2: string, domain: string)
    ensures var a, b := GroupEmail(name1, type1, Leaders, domain), GroupEmail(name2, type2, Editors, domain);
            a.Some? && b.Some? ==> a != b
  {
    var p, q := GroupLocal(name1, type1, Leaders), GroupLocal(name2, type2, Editors);
    LocalEndsInSuffix(name1, type1, Leaders);
    LocalEndsInSuffix(name2, type2, Editors);
    if p.Some? && q.Some? {
      var a, b := p.value + "@" + domain, q.value + "@" + domain;
      assert a[|p.value| - 7] == p.value[|p.value| - 7..][0] == 'l';
      assert b[|q.value| - 7] == q.value[|q.value| - 7..][0] == 'e';
      assert |a| == |p.value| + 1 + |domain| && |b| == |q.value| + 1 + |domain|;
    }
  }
}
