/** What a slug says of the name it was made from. */
module SlugSpelling {
  import opened Selections
  import opened Slugs

  // ---- The statement ----

  /** What is left of a name without the white space at its ends. */
  ghost predicate TrimmedTo(name: string, drop: char -> bool, from: nat, to: nat) {
    && from <= to <= |name|
    && (forall k :: 0 <= k < from || to <= k < |name| ==> drop(name[k]))
    && (from < to ==> !drop(name[from]) && !drop(name[to - 1]))
  }

  /** The characters found in text at pos are found in word at at. */
  ghost predicate Found(word: string, text: string, pos: seq<nat>, at: seq<nat>) {
    && |at| == |pos|
    && forall k :: 0 <= k < |pos| ==> at[k] < |word| && pos[k] < |text| && word[at[k]] == text[pos[k]]
  }

  /** Neighbours stay neighbours, and one hyphen stands where something was dropped in between. */
  ghost predicate Joined(word: string, pos: seq<nat>, at: seq<nat>) {
    && |at| == |pos|
    && forall k :: 0 < k < |pos| ==>
         if pos[k] == pos[k - 1] + 1 then at[k] == at[k - 1] + 1
         else at[k] == at[k - 1] + 2 && at[k] <= |word| && word[at[k] - 1] == '-'
  }

  /** Nothing comes before the first or after the last of them. */
  ghost predicate Covers(word: string, at: seq<nat>) {
    if at == [] then word == "" else at[0] == 0 && at[|at| - 1] == |word| - 1
  }

  /** word holds exactly the letters and digits of text, in order, hyphens marking the gaps. */
  ghost predicate SpellsAt(word: string, text: string, pos: seq<nat>, at: seq<nat>) {
    Picks(text, IsAlnum, pos) && Found(word, text, pos, at) && Joined(word, pos, at) && Covers(word, at)
  }

  ghost predicate Spells(word: string, text: string) {
    exists pos: seq<nat>, at: seq<nat> :: SpellsAt(word, text, pos, at)
  }

  /** The first 40 characters, without a hyphen that the cut would leave at the end. */
  predicate CappedTo(word: string, base: string) {
    && base <= word
    && |base| == if |word| <= 40 then |word| else if word[39] == '-' then 39 else 40
  }

  ghost predicate BaseSpells(t: TextRules, name: string, base: string, from: nat, to: nat, word: string) {
    && TrimmedTo(name, t.isSpace, from, to)
    && Spells(word, Lower(t, name[from..to]))
    && if word == "" then base == "client" else CappedTo(word, base)
  }

  /** The base is the capped spelling of the lower-cased name; "client" if that has no letter or digit. */
  ghost predicate BaseSays(t: TextRules, name: string, base: string) {
    exists from: nat, to: nat, word :: BaseSpells(t, name, base, from, to, word)
  }

  // ---- Spelling letter by letter ----

  /** Each letter or digit is appended, after a hyphen if something was dropped since the last one. */
  function Spell(text: string): (word: string)
    ensures word != "" ==> IsAlnum(word[|word| - 1])
  {
    if text == "" then ""
    else
      var front, c := text[..|text| - 1], text[|text| - 1];
      var before := Spell(front);
      if !IsAlnum(c) then before
      else if before == "" || IsAlnum(front[|front| - 1]) then before + [c]
      else before + "-" + [c]
  }

  lemma SpellNext(front: string, c: char)
    ensures Spell(front + [c])
         == if !IsAlnum(c) then Spell(front)
            else if Spell(front) == "" || IsAlnum(front[|front| - 1]) then Spell(front) + [c]
            else Spell(front) + "-" + [c]
  {
    var text := front + [c];
    assert text[..|text| - 1] == front && text[|text| - 1] == c;
    SpellUnfold(text);
    hide Spell;
  }

  lemma SpellUnfold(text: string)
    requires text != ""
    ensures var front, c := text[..|text| - 1], text[|text| - 1];
            Spell(text)
              == if !IsAlnum(c) then Spell(front)
                 else if Spell(front) == "" || IsAlnum(front[|front| - 1]) then Spell(front) + [c]
                 else Spell(front) + "-" + [c]
  {
  }

  lemma SpellsDropped(word: string, front: string, c: char, pos: seq<nat>, at: seq<nat>)
    requires SpellsAt(word, front, pos, at) && !IsAlnum(c)
    ensures SpellsAt(word, front + [c], pos, at)
  {
    PicksNext(front, IsAlnum, pos, c);
    hide Picks;
  }

  lemma FoundNext(word: string, front: string, c: char, pos: seq<nat>, at: seq<nat>, gap: string)
    requires Found(word, front, pos, at)
    ensures Found(word + gap + [c], front + [c], pos + [|front|], at + [|word + gap|])
  {
    var longer, pos', at' := word + gap + [c], pos + [|front|], at + [|word + gap|];
    forall k | 0 <= k < |pos'|
      ensures at'[k] < |longer| && pos'[k] < |front + [c]| && longer[at'[k]] == (front + [c])[pos'[k]]
    {
      if k < |pos| {
        assert at'[k] == at[k] && pos'[k] == pos[k];
        assert longer[at[k]] == word[at[k]] && (front + [c])[pos[k]] == front[pos[k]];
      } else {
        assert at'[k] == |word + gap| && pos'[k] == |front|;
      }
    }
  }

  lemma JoinedNext(word: string, front: string, c: char, pos: seq<nat>, at: seq<nat>, gap: string)
    requires Found(word, front, pos, at) && Joined(word, pos, at) && Covers(word, at)
    requires gap == "" || gap == "-"
    requires pos != [] ==> (gap == "" <==> pos[|pos| - 1] == |front| - 1)
    ensures Joined(word + gap + [c], pos + [|front|], at + [|word + gap|])
  {
    var longer, pos', at' := word + gap + [c], pos + [|front|], at + [|word + gap|];
    forall k | 0 < k < |pos'|
      ensures if pos'[k] == pos'[k - 1] + 1 then at'[k] == at'[k - 1] + 1
              else at'[k] == at'[k - 1] + 2 && at'[k] <= |longer| && longer[at'[k] - 1] == '-'
    {
      assert at'[k - 1] == at[k - 1] && pos'[k - 1] == pos[k - 1];
      if k < |pos| {
        assert at'[k] == at[k] && pos'[k] == pos[k];
        assert at[k] > 0 ==> longer[at[k] - 1] == word[at[k] - 1];
      } else {
        assert at'[k] == |word + gap| && pos'[k] == |front|;
        assert gap == "-" ==> longer[|word|] == '-';
      }
    }
  }

  lemma SpellsKept(word: string, front: string, c: char, pos: seq<nat>, at: seq<nat>, gap: string)
    requires SpellsAt(word, front, pos, at) && IsAlnum(c)
    requires gap == "" || (gap == "-" && word != "")
    requires pos != [] ==> (gap == "" <==> pos[|pos| - 1] == |front| - 1)
    ensures SpellsAt(word + gap + [c], front + [c], pos + [|front|], at + [|word + gap|])
  {
    hide Picks, Found, Joined, Covers;
    PicksNext(front, IsAlnum, pos, c);
    FoundNext(word, front, c, pos, at, gap);
    JoinedNext(word, front, c, pos, at, gap);
    SameLength(word, front, pos, at);
    CoversNext(word, at, gap, c);
  }

  lemma SameLength(word: string, text: string, pos: seq<nat>, at: seq<nat>)
    requires Found(word, text, pos, at)
    ensures |at| == |pos|
  {
  }

  lemma CoversNext(word: string, at: seq<nat>, gap: string, c: char)
    requires Covers(word, at) && (word == "" ==> gap == "")
    ensures Covers(word + gap + [c], at + [|word + gap|])
  {
  }

  /** The last character passes exactly when the last pick is its position. */
  lemma LastPickIsLast(text: string, pos: seq<nat>)
    requires Picks(text, IsAlnum, pos)
    ensures pos != [] ==> text != "" && (IsAlnum(text[|text| - 1]) <==> pos[|pos| - 1] == |text| - 1)
    ensures text != "" && IsAlnum(text[|text| - 1]) ==> pos != []
  {
    if pos != [] {
      assert pos[|pos| - 1] < |text| && IsAlnum(text[pos[|pos| - 1]]);
    }
    if text != "" && IsAlnum(text[|text| - 1]) {
      assert |text| - 1 in pos;
      var i :| 0 <= i < |pos| && pos[i] == |text| - 1;
      assert pos[i] <= pos[|pos| - 1] < |text|;
    }
  }

  lemma {:induction false} SpellSpells(text: string)
    ensures Spells(Spell(text), text)
  {
    hide Spells;
    if text == "" {
      SpellsEmpty();
    } else {
      var front, c := text[..|text| - 1], text[|text| - 1];
      SpellSpells(front);
      SpellsStep(front, c);
      assert front + [c] == text;
    }
  }

  lemma SpellsStep(front: string, c: char)
    requires Spells(Spell(front), front)
    ensures Spells(Spell(front + [c]), front + [c])
  {
    hide Spell, SpellsAt;
    var word := Spell(front);
    var pos: seq<nat>, at: seq<nat> :| SpellsAt(word, front, pos, at);
    SpellNext(front, c);
    if !IsAlnum(c) {
      SpellsDropped(word, front, c, pos, at);
    } else {
      PickedInWord(word, front, pos, at);
      LastPickIsLast(front, pos);
      var gap := if word == "" || IsAlnum(front[|front| - 1]) then "" else "-";
      SpellsKept(word, front, c, pos, at, gap);
      assert word + "" + [c] == word + [c];
    }
  }

  lemma PickedInWord(word: string, text: string, pos: seq<nat>, at: seq<nat>)
    requires SpellsAt(word, text, pos, at)
    ensures Picks(text, IsAlnum, pos) && (word == "" <==> pos == [])
  {
    hide Picks;
  }

  lemma SpellsEmpty()
    ensures Spells("", "")
  {
    assert SpellsAt("", "", [], []);
  }

  // ---- Collapsing runs spells the name, up to hyphens at its ends ----

  lemma {:induction false} SkipRunNext(s: string, c: char)
    ensures SkipRun(s + [c]) == if SkipRun(s) != "" then SkipRun(s) + [c] else if IsAlnum(c) then [c] else ""
    ensures SkipRun(s) != "" ==> s != "" && SkipRun(s)[|SkipRun(s)| - 1] == s[|s| - 1]
    ensures s != "" && SkipRun(s) == "" ==> !IsAlnum(s[|s| - 1])
  {
    if s == "" {
      assert s + [c] == [c];
    } else {
      SkipRunNext(s[1..], c);
      assert (s + [c])[1..] == s[1..] + [c];
    }
  }

  lemma CollapseStep(s: string)
    requires s != ""
    ensures Collapse(s) == if IsAlnum(s[0]) then [s[0]] + Collapse(s[1..]) else "-" + Collapse(SkipRun(s[1..]))
  {
  }

  lemma {:induction false} CollapseNext(s: string, c: char)
    ensures Collapse(s + [c])
         == if IsAlnum(c) then Collapse(s) + [c]
            else if s == "" || IsAlnum(s[|s| - 1]) then Collapse(s) + "-"
            else Collapse(s)
    decreases |s|
  {
    if s == "" {
      assert s + [c] == [c];
    } else {
      hide Collapse, SkipRun;
      var rest := s[1..];
      assert (s + [c])[1..] == rest + [c];
      CollapseStep(s);
      CollapseStep(s + [c]);
      SkipRunNext(rest, c);
      if IsAlnum(s[0]) {
        CollapseNext(rest, c);
        CollapseEmpty();
      } else if SkipRun(rest) != "" {
        CollapseNext(SkipRun(rest), c);
      } else {
        CollapseEmpty();
        CollapseOne(c);
      }
    }
  }

  lemma CollapseOne(c: char)
    ensures IsAlnum(c) ==> Collapse([c]) == [c]
  {
  }

  lemma {:induction false} TrimLeftNext(s: string, c: char)
    ensures TrimLeft(s + [c], IsHyphen)
         == if TrimLeft(s, IsHyphen) != "" then TrimLeft(s, IsHyphen) + [c] else if c == '-' then "" else [c]
  {
    if s == "" {
      assert s + [c] == [c];
    } else {
      assert (s + [c])[1..] == s[1..] + [c];
      if s[0] == '-' {
        TrimLeftNext(s[1..], c);
      }
    }
  }

  function TrailingHyphen(text: string): string {
    if Spell(text) != "" && !IsAlnum(text[|text| - 1]) then "-" else ""
  }

  lemma {:induction false} CollapseSpells(text: string)
    ensures TrimLeft(Collapse(text), IsHyphen) == Spell(text) + TrailingHyphen(text)
  {
    if text == "" {
    } else {
      var front, c := text[..|text| - 1], text[|text| - 1];
      assert front + [c] == text;
      CollapseSpells(front);
      hide Collapse, TrimLeft, Spell;
      SpellEmpty();
      CollapseEmpty();
      CollapseNext(front, c);
      SpellNext(front, c);
      TrimLeftNext(Collapse(front), c);
      TrimLeftNext(Collapse(front), '-');
    }
  }

  lemma SpellEmpty()
    ensures Spell("") == ""
  {
  }

  lemma CollapseEmpty()
    ensures Collapse("") == "" && TrimLeft("", IsHyphen) == ""
  {
  }

  lemma TrimmedCollapse(text: string)
    ensures Trim(Collapse(text), IsHyphen) == Spell(text)
  {
    hide Collapse, TrimLeft, Spell;
    CollapseSpells(text);
    var word := Spell(text);
    assert (word + "-")[..|word|] == word;
    assert TrimRight(word, IsHyphen) == word;
    assert word + "" == word;
    assert TrimRight(word + "-", IsHyphen) == TrimRight(word, IsHyphen);
  }

  lemma CapLaw(word: string)
    requires HyphenatedRuns(word)
    ensures CappedTo(word, TrimRight(if |word| > BASE_CAP then word[..BASE_CAP] else word, IsHyphen))
  {
    if |word| > BASE_CAP && word[BASE_CAP - 1] == '-' {
      var capped := word[..BASE_CAP];
      assert capped[|capped| - 1] == '-' && word[BASE_CAP - 2] != '-';
      assert TrimRight(capped, IsHyphen) == TrimRight(capped[..|capped| - 1], IsHyphen);
    }
  }

  lemma {:induction false} TrimLeftSlice(s: string, drop: char -> bool) returns (from: nat)
    ensures from <= |s| && TrimLeft(s, drop) == s[from..]
    ensures forall k :: 0 <= k < from ==> drop(s[k])
    ensures from < |s| ==> !drop(s[from])
  {
    if s == "" || !drop(s[0]) {
      from := 0;
    } else {
      var rest := TrimLeftSlice(s[1..], drop);
      from := rest + 1;
      assert forall k :: 0 < k < from ==> s[k] == s[1..][k - 1];
    }
  }

  lemma {:induction false} TrimRightSlice(s: string, drop: char -> bool) returns (to: nat)
    ensures to <= |s| && TrimRight(s, drop) == s[..to]
    ensures forall k :: to <= k < |s| ==> drop(s[k])
    ensures 0 < to ==> !drop(s[to - 1])
  {
    if s == "" || !drop(s[|s| - 1]) {
      to := |s|;
    } else {
      to := TrimRightSlice(s[..|s| - 1], drop);
    }
  }

  lemma TrimSlice(s: string, drop: char -> bool) returns (from: nat, to: nat)
    ensures TrimmedTo(s, drop, from, to) && Trim(s, drop) == s[from..to]
  {
    from := TrimLeftSlice(s, drop);
    var length := TrimRightSlice(s[from..], drop);
    to := from + length;
    forall k | to <= k < |s|
      ensures drop(s[k])
    {
      assert s[k] == s[from..][k - from];
    }
    assert s[from..][..length] == s[from..to];
  }

  lemma SpellHasRuns(text: string)
    requires Spell(text) != ""
    ensures HyphenatedRuns(Spell(text))
  {
    hide Spell, Collapse;
    TrimmedCollapse(text);
    CollapseSeparates(text);
    TrimLeftKeepsSeparation(Collapse(text));
    TrimRightKeepsSeparation(TrimLeft(Collapse(text), IsHyphen));
  }

  /** Main result: for every name, the base says what the name says. */
  lemma SlugBaseSpellsName(t: TextRules, name: string)
    ensures BaseSays(t, name, SlugBase(t, name))
  {
    hide Spell, Collapse, Spells, TrimRight, TrimLeft, Trim, TrimmedTo, CappedTo, Lower;
    var from, to := TrimSlice(name, t.isSpace);
    var text := Lower(t, name[from..to]);
    var word := Spell(text);
    SpellSpells(text);
    TrimmedCollapse(text);
    if word == "" {
      FallbackFits();
    } else {
      SpellHasRuns(text);
      CapLaw(word);
    }
    assert BaseSpells(t, name, SlugBase(t, name), from, to, word);
  }

  lemma FallbackFits()
    ensures TrimRight("client", IsHyphen) == "client"
  {
  }
}
