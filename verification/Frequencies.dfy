/** The frequency table of common_power_open (power/nvpowerhal.cpp): the list is read from a text file by two
    passes of strtok over one buffer, and two boost frequencies are picked from it. */
module Frequencies {
  import opened Wrappers
  import opened CText

  const SIZE := 256
  const INTERACTION_THRESHOLD := 1326000
  const ANIMATION_THRESHOLD := 1024000

  // ---------- Tokens ----------

  function DropSpaces(s: string): (t: string)
    ensures |t| <= |s| && (t != [] ==> t[0] != ' ')
  {
    if s != [] && s[0] == ' ' then DropSpaces(s[1..]) else s
  }

  function Word(s: string): (w: string)
    ensures w <= s && (forall i :: 0 <= i < |w| ==> w[i] != ' ') && (|w| < |s| ==> s[|w|] == ' ')
  {
    if s == [] || s[0] == ' ' then [] else [s[0]] + Word(s[1..])
  }

  /** The pieces between runs of spaces. */
  function Tokens(s: string): seq<string>
    decreases |s|
  {
    var t := DropSpaces(s);
    if t == [] then [] else [Word(t)] + Tokens(t[|Word(t)|..])
  }

  lemma CStrOfTail(s: seq<char>, i: nat)
    requires i < |s|
    ensures s[i] == '\0' ==> CStr(s[i..]) == []
    ensures s[i] != '\0' ==> CStr(s[i..]) == [s[i]] + CStr(s[i + 1..]) && CStr(s[i..])[1..] == CStr(s[i + 1..])
  {
    assert s[i..][1..] == s[i + 1..];
  }

  lemma {:induction false} CStrOfWord(s: seq<char>, w: string)
    requires w <= s && '\0' !in w
    ensures |w| < |s| && s[|w|] == '\0' ==> CStr(s) == w
    ensures CStr(s) == w + CStr(s[|w|..])
  {
    if w == [] {
      assert s[0..] == s;
    } else {
      assert s[1..][|w| - 1..] == s[|w|..] && w[1..] <= s[1..];
      assert forall c :: c in w[1..] ==> c in w;
      CStrOfWord(s[1..], w[1..]);
    }
  }

  /** What a call of strtok does to the rest of the text: it takes the next token and leaves the others. */
  ghost predicate Took(before: string, token: string, after: string) {
    && Tokens(before) != [] && token == Tokens(before)[0] && Tokens(after) == Tokens(before)[1..]
  }

  lemma TokensAfterWord(t: string, after: string)
    requires t != [] && t[0] != ' '
    requires after == t[|Word(t)|..] || (|Word(t)| < |t| && after == t[|Word(t)| + 1..])
    ensures Tokens(t)[0] == Word(t) && Tokens(after) == Tokens(t)[1..]
  {
    var rest := t[|Word(t)|..];
    if after != rest {
      assert rest[0] == ' ' && rest[1..] == after;
      assert DropSpaces(rest) == DropSpaces(after);
    }
  }

  lemma TokensOfDropped(s: string)
    ensures Tokens(DropSpaces(s)) == Tokens(s)
  {
    assert DropSpaces(DropSpaces(s)) == DropSpaces(s);
  }

  /** strtok(buf, " "), with its hidden pointer made explicit: it starts at `start`, returns the position of the
      token, which it terminates in place, and where to go on. */
  method StrTok(buf: array<char>, start: nat) returns (token: Option<nat>, next: nat)
    requires start <= buf.Length && '\0' in buf[start..]
    modifies buf
    ensures start <= next <= buf.Length && '\0' in buf[next..] && buf[..start] == old(buf[..start])
    ensures forall k :: 0 <= k < buf.Length ==> buf[k] == old(buf[k]) || buf[k] == '\0'
    ensures token.None? <==> Tokens(old(CStr(buf[start..]))) == []
    ensures token.None? ==> Tokens(CStr(buf[next..])) == []
    ensures token.Some? ==>
              && start <= token.value < next
              && Took(old(CStr(buf[start..])), CStr(buf[token.value..]), CStr(buf[next..]))
  {
    hide Tokens, Took, CStr, Word, DropSpaces;
    ghost var all := CStr(buf[start..]);
    var i := SkipSpaces(buf, start);
    ghost var t := CStr(buf[i..]);
    EndOfString(buf[..], i);
    assert buf[..][i..] == buf[i..];
    if buf[i] == '\0' {
      NothingLeft(all, t);
      return None, i;
    }
    var p := i;
    i := SkipWord(buf, p);
    next := Terminate(buf, p, i);
    token := Some(p);
    FirstToken(all, t, CStr(buf[next..]));
    assert buf[..start] == old(buf[..p])[..start];
  }

  lemma EndOfString(s: seq<char>, i: nat)
    requires i < |s|
    ensures CStr(s[i..]) == [] <==> s[i] == '\0'
    ensures s[i] != '\0' ==> CStr(s[i..])[0] == s[i]
  {
    CStrOfTail(s, i);
  }

  lemma NothingLeft(all: string, t: string)
    requires t == DropSpaces(all) == []
    ensures Tokens(all) == [] && Tokens(t) == []
  {
  }

  lemma FirstToken(all: string, t: string, after: string)
    requires t == DropSpaces(all) != []
    requires after == t[|Word(t)|..] || (|Word(t)| < |t| && after == t[|Word(t)| + 1..])
    ensures Took(all, Word(t), after)
  {
    TokensOfDropped(all);
    TokensAfterWord(t, after);
  }

  /** The end of strtok: the word from `p` to `i` becomes a string of its own. */
  method Terminate(buf: array<char>, p: nat, i: nat) returns (next: nat)
    requires p < i < buf.Length && '\0' in buf[i..] && '\0' !in buf[p..i]
    modifies buf
    ensures i <= next <= i + 1 && next <= buf.Length && '\0' in buf[next..] && buf[..i] == old(buf[..i])
    ensures forall k :: 0 <= k < buf.Length ==> buf[k] == old(buf[k]) || buf[k] == '\0'
    ensures CStr(buf[p..]) == old(buf[p..i])
    ensures if old(buf[i]) == '\0' then CStr(buf[next..]) == old(CStr(buf[i..]))
            else old(CStr(buf[i..])) == [old(buf[i])] + CStr(buf[next..])
  {
    ghost var w := buf[p..i];
    CStrOfTail(buf[..], i);
    assert buf[..][i..] == buf[i..];
    next := i;
    if buf[i] != '\0' {
      ghost var rest := buf[i + 1..];
      assert buf[..][i + 1..] == rest;
      buf[i] := '\0';
      next := i + 1;
      assert buf[next..] == rest;
    }
    assert buf[p..i] == w;
    assert buf[p..][..|w|] == w && buf[p..][|w|] == '\0';
    CStrOfWord(buf[p..], w);
  }

  method SkipSpaces(buf: array<char>, start: nat) returns (i: nat)
    requires start <= buf.Length && '\0' in buf[start..]
    ensures start <= i < buf.Length && '\0' in buf[i..] && buf[i] != ' '
    ensures CStr(buf[i..]) == DropSpaces(CStr(buf[start..]))
  {
    i := start;
    while buf[i] == ' '
      invariant start <= i < buf.Length && '\0' in buf[i..]
      invariant DropSpaces(CStr(buf[i..])) == DropSpaces(CStr(buf[start..]))
      decreases buf.Length - i
    {
      CStrOfTail(buf[..], i);
      assert buf[..][i..] == buf[i..] && buf[..][i + 1..] == buf[i + 1..];
      i := i + 1;
    }
    CStrOfTail(buf[..], i);
    assert buf[..][i..] == buf[i..];
  }

  method SkipWord(buf: array<char>, p: nat) returns (i: nat)
    requires p < buf.Length && '\0' in buf[p..] && buf[p] != ' ' && buf[p] != '\0'
    ensures p < i < buf.Length && '\0' in buf[i..] && (buf[i] == ' ' || buf[i] == '\0')
    ensures '\0' !in buf[p..i] && buf[p..i] == Word(CStr(buf[p..]))
    ensures CStr(buf[p..])[i - p..] == CStr(buf[i..])
  {
    i := p;
    while buf[i] != ' ' && buf[i] != '\0'
      invariant p <= i < buf.Length && '\0' in buf[i..]
      invariant forall k :: p <= k < i ==> buf[k] != ' ' && buf[k] != '\0'
      decreases buf.Length - i
    {
      i := i + 1;
    }
    var w := buf[p..i];
    assert buf[p..][..|w|] == w && buf[p..][|w|..] == buf[i..];
    CStrOfWord(buf[p..], w);
    CStrOfTail(buf[..], i);
    assert buf[..][i..] == buf[i..];
    WordOf(w, CStr(buf[i..]));
  }

  lemma {:induction false} WordOf(w: string, rest: string)
    requires ' ' !in w && (rest != [] ==> rest[0] == ' ')
    ensures Word(w + rest) == w
  {
    if w == [] {
      assert w + rest == rest;
    } else {
      assert w[0] in w && forall c :: c in w[1..] ==> c in w;
      assert (w + rest)[1..] == w[1..] + rest;
      WordOf(w[1..], rest);
    }
  }

  // ---------- The two passes ----------

  /** read(2) into a buffer: the text lies over what was there, and nothing terminates it. */
  method SysfsRead(content: string, buf: array<char>)
    modifies buf
    ensures var n := if |content| < buf.Length then |content| else buf.Length;
            buf[..n] == content[..n] && forall k :: n <= k < buf.Length ==> buf[k] == old(buf[k])
  {
    forall i | 0 <= i < |content| && i < buf.Length { buf[i] := content[i]; }
  }

  /** First pass: the number of tokens less one. */
  method CountTokens(buf: array<char>) returns (num: int)
    requires '\0' in buf[..]
    modifies buf
    ensures num == |Tokens(old(CStr(buf[..])))| - 1
    ensures forall k :: 0 <= k < buf.Length ==> buf[k] == old(buf[k]) || buf[k] == '\0'
  {
    hide Tokens, CStr;
    ghost var tokens := Tokens(CStr(buf[..]));
    assert buf[0..] == buf[..];
    var pch, next := StrTok(buf, 0);
    num := -1;
    while pch.Some?
      invariant next <= buf.Length && '\0' in buf[next..]
      invariant |Tokens(CStr(buf[next..]))| + (if pch.Some? then 1 else 0) + num + 1 == |tokens|
      invariant pch.None? ==> Tokens(CStr(buf[next..])) == []
      invariant forall k :: 0 <= k < buf.Length ==> buf[k] == old(buf[k]) || buf[k] == '\0'
      decreases |Tokens(CStr(buf[next..]))| + (if pch.Some? then 1 else 0)
    {
      pch, next := StrTok(buf, next);
      num := num + 1;
    }
  }

  function Values(tokens: seq<string>): seq<int> {
    seq(|tokens|, i requires 0 <= i < |tokens| => Atoi(tokens[i]))
  }

  /** Second pass: the values of the first `num` tokens, in order. */
  method StoreFrequencies(buf: array<char>, num: int) returns (freqs: array<int>)
    requires '\0' in buf[..] && num <= |Tokens(CStr(buf[..]))|
    modifies buf
    ensures fresh(freqs) && freqs.Length == (if num < 0 then 0 else num)
    ensures freqs[..] == Values(Tokens(old(CStr(buf[..]))))[..freqs.Length]
  {
    hide Tokens, CStr;
    ghost var tokens := Tokens(CStr(buf[..]));
    assert buf[0..] == buf[..];
    var pch: Option<nat>, next := StrTok(buf, 0);
    freqs := new int[if num < 0 then 0 else num];
    var i := 0;
    while i < num
      invariant i <= freqs.Length && next <= buf.Length && '\0' in buf[next..]
      invariant forall j :: 0 <= j < i ==> freqs[j] == Atoi(tokens[j])
      invariant i < |tokens| ==>
                  && pch.Some? && pch.value < buf.Length
                  && CStr(buf[pch.value..]) == tokens[i] && Tokens(CStr(buf[next..])) == tokens[i + 1..]
    {
      freqs[i] := Atoi(CStr(buf[pch.value..]));
      pch, next := StrTok(buf, next);
      i := i + 1;
    }
  }

  /** The table read from a file whose content fits in the buffer with a terminator and stays the same. */
  method LoadFrequencies(content: string) returns (num: int, freqs: array<int>, buf: array<char>)
    requires |content| < SIZE && '\0' !in content
    ensures num == |Tokens(content)| - 1 && fresh(freqs) && fresh(buf) && buf.Length == SIZE
    ensures freqs.Length == (if num < 0 then 0 else num) && freqs[..] == Values(Tokens(content))[..freqs.Length]
  {
    buf := new char[SIZE](i => '\0');
    SysfsRead(content, buf);
    StringInBuffer(buf[..], content);
    num := CountTokens(buf);
    SysfsRead(content, buf);
    StringInBuffer(buf[..], content);
    freqs := StoreFrequencies(buf, num);
  }

  lemma StringInBuffer(s: seq<char>, content: string)
    requires '\0' !in content && content <= s && |content| < |s| && s[|content|] == '\0'
    ensures CStr(s) == content && '\0' in s
  {
    CStrOfWord(s, content);
  }

  // ---------- The round trip ----------

  /** How the kernel prints the list: each frequency and a space, then a newline. */
  function Render(freqs: seq<int>): string {
    if freqs == [] then "\n" else Decimal(freqs[0]) + " " + Render(freqs[1..])
  }

  function Words(freqs: seq<int>): seq<string> {
    if freqs == [] then [] else [Decimal(freqs[0])] + Words(freqs[1..])
  }

  lemma {:induction false} TokensOfRendered(freqs: seq<int>)
    ensures Tokens(Render(freqs)) == Words(freqs) + ["\n"]
  {
    if freqs == [] {
      assert Word("\n") == "\n";
    } else {
      TokensOfRendered(freqs[1..]);
      DecimalIsDecimal(freqs[0]);
      FirstOf(Decimal(freqs[0]), Render(freqs[1..]));
    }
  }

  lemma {:induction false} ValuesOfWords(freqs: seq<int>)
    ensures |Words(freqs)| == |freqs| && forall i :: 0 <= i < |freqs| ==> Atoi(Words(freqs)[i]) == freqs[i]
  {
    if freqs != [] {
      DecimalIsDecimal(freqs[0]);
      ValuesOfWords(freqs[1..]);
    }
  }

  lemma FirstOf(word: string, rest: string)
    requires word != [] && ' ' !in word
    ensures Tokens(word + " " + rest) == [word] + Tokens(rest)
  {
    var s := word + " " + rest;
    assert s == word + (" " + rest);
    WordOf(word, " " + rest);
    assert s[0] in word && DropSpaces(s) == s;
    assert s[|word|..] == " " + rest && s[|word| + 1..] == rest;
    TokensAfterWord(s, rest);
  }

  lemma {:induction false} RenderedHasNoNul(freqs: seq<int>)
    ensures '\0' !in Render(freqs)
  {
    if freqs != [] {
      DecimalIsDecimal(freqs[0]);
      RenderedHasNoNul(freqs[1..]);
    }
  }

  /** Of a printed list the two passes keep every frequency, in order, and drop only the newline. */
  lemma ListRoundTrip(freqs: seq<int>)
    ensures |Tokens(Render(freqs))| - 1 == |freqs|
    ensures Values(Tokens(Render(freqs)))[..|freqs|] == freqs
    ensures '\0' !in Render(freqs)
  {
    TokensOfRendered(freqs);
    ValuesOfWords(freqs);
    RenderedHasNoNul(freqs);
    hide Tokens, Render, Words, Atoi;
  }

  /** For instance: what is read from a list of three as the kernel prints it. */
  lemma ThreeFrequencies()
    ensures |Tokens("102000 1044000 1326000 \n")| == 4
    ensures Values(Tokens("102000 1044000 1326000 \n"))[..3] == [102000, 1044000, 1326000]
  {
    hide Tokens, Render, Atoi;
    ThreeRendered();
    ListRoundTrip([102000, 1044000, 1326000]);
  }

  /** And the two boosts that are taken from it. */
  lemma ThreeBoosts(fallback: int, interaction: int, animation: int)
    ensures IsFirst([102000, 1044000, 1326000], 1326000, fallback, interaction) <==> interaction == 1326000
    ensures IsFirst([102000, 1044000, 1326000], 1024000, fallback, animation) <==> animation == 1044000
  {
    var freqs := [102000, 1044000, 1326000];
    assert freqs[0] == 102000 && freqs[1] == 1044000 && freqs[2] == 1326000;
  }

  lemma RenderedFirst(f: int, rest: seq<int>)
    ensures Render([f] + rest) == Decimal(f) + " " + Render(rest)
  {
  }

  lemma ThreeRendered()
    ensures Render([102000, 1044000, 1326000]) == "102000 1044000 1326000 \n"
  {
    hide Render, Decimal;
    ThreeDecimals();
    assert Render([]) == "\n" by { NoneRendered(); }
    RenderedFirst(1326000, []);
    RenderedFirst(1044000, [1326000]);
    RenderedFirst(102000, [1044000, 1326000]);
    assert [1326000] + [] == [1326000];
    assert [1044000] + [1326000] == [1044000, 1326000];
    assert [102000] + [1044000, 1326000] == [102000, 1044000, 1326000];
    assert "1326000" + " " + "\n" == "1326000 \n";
    assert "1044000" + " " + "1326000 \n" == "1044000 1326000 \n";
    assert "102000" + " " + "1044000 1326000 \n" == "102000 1044000 1326000 \n";
  }

  lemma NoneRendered()
    ensures Render([]) == "\n"
  {
  }

  lemma ThreeDecimals()
    ensures Decimal(102000) == "102000" && Decimal(1044000) == "1044000" && Decimal(1326000) == "1326000"
  {
    ThreeZeroes(102);
    ThreeZeroes(1044);
    ThreeZeroes(1326);
    SmallNumbers();
    hide Digits;
  }

  lemma SmallNumbers()
    ensures Digits(102) == "102" && Digits(1044) == "1044" && Digits(1326) == "1326"
  {
    TwoDigits(10);
    TwoDigits(13);
    assert Digits(102) == Digits(10) + "2" && Digits(104) == Digits(10) + "4" && Digits(132) == Digits(13) + "2";
    assert Digits(1044) == Digits(104) + "4" && Digits(1326) == Digits(132) + "6";
  }

  /** A printed list is read into a table with a last entry if and only if it is not empty, and then that entry is the
      list's own last one. */
  lemma PrintedLastEntryIff(list: seq<int>)
    ensures |Tokens(Render(list))| >= 2 <==> list != []
    ensures |Tokens(Render(list))| == |list| + 1
    ensures list != [] ==> Values(Tokens(Render(list)))[|list| - 1] == list[|list| - 1]
  {
    ListRoundTrip(list);
    hide Tokens, Render;
    var values := Values(Tokens(Render(list)));
    if list != [] { assert values[..|list|][|list| - 1] == values[|list| - 1]; }
  }

  /** A number on a line of its own is read right whatever an earlier read left in the buffer. */
  lemma NumberOverLeftovers(n: int, leftovers: seq<char>)
    ensures Atoi(CStr(Decimal(n) + "\n" + leftovers)) == n
  {
    var number, rest := Decimal(n), "\n" + CStr(leftovers);
    DecimalIsDecimal(n);
    AtoiOfDecimal(n, rest);
    hide Decimal, Atoi, CStr;
    var line := number + "\n";
    CStrOfWord(line + leftovers, line);
    assert (line + leftovers)[|line|..] == leftovers;
    assert line + CStr(leftovers) == number + rest;
  }

  // ---------- Boost frequencies ----------

  /** The first listed frequency at or above the threshold, or the fallback. */
  ghost predicate IsFirst(freqs: seq<int>, threshold: int, fallback: int, boost: int) {
    || (boost == fallback && forall i :: 0 <= i < |freqs| ==> freqs[i] < threshold)
    || (exists i :: 0 <= i < |freqs| && boost == freqs[i] >= threshold
                    && forall j :: 0 <= j < i ==> freqs[j] < threshold)
  }

  /** The least listed frequency at or above the threshold, or the fallback. */
  ghost predicate IsBoost(freqs: seq<int>, threshold: int, fallback: int, boost: int) {
    if exists f :: f in freqs && f >= threshold
    then boost in freqs && boost >= threshold && forall f :: f in freqs && f >= threshold ==> boost <= f
    else boost == fallback
  }

  predicate Ascending(freqs: seq<int>) {
    forall i, j :: 0 <= i < j < |freqs| ==> freqs[i] <= freqs[j]
  }

  /** The first entry at or above the threshold, or the fallback; on an ascending table that is the boost. */
  method ChooseBoost(freqs: array<int>, threshold: int, fallback: int) returns (boost: int)
    ensures IsFirst(freqs[..], threshold, fallback, boost)
    ensures Ascending(freqs[..]) ==> IsBoost(freqs[..], threshold, fallback, boost)
  {
    boost := fallback;
    var i := 0;
    while i < freqs.Length
      invariant i <= freqs.Length && boost == fallback
      invariant forall j :: 0 <= j < i ==> freqs[j] < threshold
    {
      if freqs[i] >= threshold {
        boost := freqs[i];
        assert freqs[..][i] in freqs[..];
        break;
      }
      i := i + 1;
    }
  }

  method IsAvailableFrequency(freqs: array<int>, freq: int) returns (available: bool)
    ensures available <==> freq in freqs[..]
  {
    var i := 0;
    while i < freqs.Length
      invariant i <= freqs.Length && freq !in freqs[..i]
    {
      if freqs[i] == freq { return true; }
      i := i + 1;
    }
    return false;
  }

  /** Each boost is a listed frequency or the fallback. The animation boost is no higher than the interaction
      boost exactly when some frequency reaches the interaction threshold, or none reaches the animation
      threshold, or one that does is no higher than the fallback. */
  lemma BoostsOrdered(freqs: seq<int>, fallback: int, interaction: int, animation: int)
    requires IsBoost(freqs, 1326000, fallback, interaction) && IsBoost(freqs, 1024000, fallback, animation)
    ensures interaction in freqs || interaction == fallback
    ensures animation in freqs || animation == fallback
    ensures animation <= interaction <==>
              || (exists f :: f in freqs && f >= 1326000)
              || (forall f :: f in freqs ==> f < 1024000)
              || (exists f :: f in freqs && 1024000 <= f <= fallback)
  {
  }
}
