/** How the slots for measured words are spent, and exactly when a text oversteps their array. */
module WordBudget {
  import opened TextMeasure

  /** Free and used slots for words; or the measurement was given up, or stepped beyond the array. */
  datatype Budget = Left(free: nat, used: nat) | GivenUp | Overstep

  /** One word takes a free slot, or the next one of the array. */
  function Spend(b: Budget, cap: nat): Budget {
    match b
    case Left(free, used) => if free > 0 then Left(free - 1, used) else if used < cap then Left(0, used + 1)
      else Overstep
    case _ => b
  }

  /** A space costs one word; a line break one, or two if it ends a word. */
  function SpendAt(c: char, inWord: bool, b: Budget, cap: nat): Budget {
    if c == ' ' then Spend(b, cap)
    else if c == '\n' then Spend(if inWord then Spend(b, cap) else b, cap)
    else b
  }

  /** The check for room comes once per character and only stops at exactly one slot left. */
  function SpendChar(c: char, inWord: bool, b: Budget, cap: nat): Budget {
    if b.Left? && b.used + 1 == cap then GivenUp else if b.Left? then SpendAt(c, inWord, b, cap) else b
  }

  /** Where the word that the first `end` characters leave open begins. */
  function WordStart(text: string, end: nat): (start: nat)
    requires end <= |text|
    ensures start <= end
  {
    if end == 0 || text[end - 1] == ' ' || text[end - 1] == '\n' then end else WordStart(text, end - 1)
  }

  function SpendTo(text: string, end: nat, b: Budget, cap: nat): Budget
    requires end <= |text|
  {
    if end == 0 then b
    else SpendChar(text[end - 1], WordStart(text, end - 1) < end - 1, SpendTo(text, end - 1, b, cap), cap)
  }

  /** What measuring a whole text does to the room there is. */
  function SpendAll(text: string, b: Budget, cap: nat): Budget {
    var s := SpendTo(text, |text|, b, cap);
    if WordStart(text, |text|) < |text| then Spend(s, cap) else s
  }

  lemma {:induction false} StartIs(m: Measurer, key: Key, end: nat)
    requires end <= |key.text|
    ensures ScanTo(m, key, end).start == WordStart(key.text, end)
  {
    if end > 0 {
      StartIs(m, key, end - 1);
    }
  }

  /** Once given up or overstepped, it stays so. */
  lemma {:induction false} SpendStuck(text: string, from: nat, b: Budget, cap: nat)
    requires from <= |text| && !SpendTo(text, from, b, cap).Left?
    ensures SpendAll(text, b, cap) == SpendTo(text, from, b, cap)
    decreases |text| - from
  {
    if from < |text| {
      SpendStuck(text, from + 1, b, cap);
    }
  }

  /** With room for two words per character and one to spare, a text is always measured. */
  lemma {:induction false} RoomSuffices(text: string, end: nat, free: nat, used: nat, cap: nat)
    requires end <= |text| && used + 2 * |text| + 1 < cap
    ensures var s := SpendTo(text, end, Left(free, used), cap); s.Left? && s.used <= used + 2 * end
    ensures end == |text| ==> SpendAll(text, Left(free, used), cap).Left?
  {
    if end > 0 {
      RoomSuffices(text, end - 1, free, used, cap);
    }
  }

  /** A word and its line break step over the check and fill the array; then the next text oversteps it. */
  lemma CheckIsSteppedOver(cap: nat)
    requires cap >= 3
    ensures SpendAll("a\n", Left(0, cap - 2), cap) == Left(0, cap)
    ensures SpendAll("a", Left(0, cap), cap) == Overstep
  {
    var t, b := "a\n", Left(0, cap - 2);
    assert SpendTo(t, 0, b, cap) == b && SpendTo(t, 1, b, cap) == b;
    assert WordStart(t, 1) == WordStart(t, 0) == 0 && WordStart(t, 2) == 2;
    assert SpendTo(t, 2, b, cap) == Left(0, cap);
    var u, full := "a", Left(0, cap);
    assert SpendTo(u, 0, full, cap) == full && SpendTo(u, 1, full, cap) == full
      && WordStart(u, 1) == WordStart(u, 0) == 0;
  }

  /** Exactly which texts overstep a full array: every text but the empty one. */
  lemma FullOversteps(text: string, cap: nat)
    requires cap >= 1
    ensures SpendAll(text, Left(0, cap), cap) == Overstep <==> text != ""
  {
    if text != "" {
      FullUntilBreak(text, |text|, cap);
    }
  }

  lemma {:induction false} FullUntilBreak(text: string, end: nat, cap: nat)
    requires end <= |text| && cap >= 1
    ensures SpendTo(text, end, Left(0, cap), cap) == if WordStart(text, end) == 0 then Left(0, cap) else Overstep
  {
    if end > 0 {
      FullUntilBreak(text, end - 1, cap);
    }
  }

  // The closed form ------------------------------------------------------------------------------

  predicate IsBreak(c: char) { c == ' ' || c == '\n' }

  /** The words that the character at `i` completes: one at a space, two at a line break that ends a word. */
  function WordsAt(text: string, i: nat): nat
    requires i < |text|
  {
    if text[i] == ' ' then 1
    else if text[i] == '\n' then (if i > 0 && !IsBreak(text[i - 1]) then 2 else 1)
    else 0
  }

  /** The words that the first `end` characters complete. */
  function WordsIn(text: string, end: nat): nat
    requires end <= |text|
  {
    if end == 0 then 0 else WordsIn(text, end - 1) + WordsAt(text, end - 1)
  }

  /** All words of a text, the last one included that no break follows. */
  function WordCount(text: string): nat {
    WordsIn(text, |text|) + if text != "" && !IsBreak(text[|text| - 1]) then 1 else 0
  }

  lemma OpenWord(text: string, end: nat)
    requires end <= |text|
    ensures WordStart(text, end) < end <==> end > 0 && !IsBreak(text[end - 1])
  {
  }

  /** They are the words that a fresh measurement has. */
  lemma {:induction false} WordsAreCounted(m: Measurer, key: Key, end: nat)
    requires end <= |key.text|
    ensures |ScanTo(m, key, end).pieces| == WordsIn(key.text, end)
    ensures |Fresh(m, key).pieces| == WordCount(key.text) || end < |key.text|
  {
    StartIs(m, key, end);
    OpenWord(key.text, end);
    if end > 0 {
      StartIs(m, key, end - 1);
      OpenWord(key.text, end - 1);
      WordsAreCounted(m, key, end - 1);
    }
  }

  /** The slots in use after `n` words: free slots are taken first. */
  function UsedAfter(free: nat, used: nat, n: nat): nat {
    if n <= free then used else used + n - free
  }

  /** The room after `n` words. */
  function After(free: nat, used: nat, n: nat, cap: nat): Budget
    requires used <= cap
  {
    if n > free + cap - used then Overstep else Left(if n <= free then free - n else 0, UsedAfter(free, used, n))
  }

  lemma SpendOnce(free: nat, used: nat, n: nat, cap: nat)
    requires used <= cap
    ensures Spend(After(free, used, n, cap), cap) == After(free, used, n + 1, cap)
  {
  }

  /** Some character before `end` is reached with exactly one slot left unused. */
  ghost predicate Noticed(text: string, end: nat, free: nat, used: nat, cap: nat)
    requires end <= |text|
  {
    exists e :: 0 <= e < end && UsedAfter(free, used, WordsIn(text, e)) + 1 == cap
  }

  lemma {:induction false} SpendToExactly(text: string, end: nat, free: nat, used: nat, cap: nat)
    requires end <= |text| && used <= cap
    ensures SpendTo(text, end, Left(free, used), cap) ==
            if Noticed(text, end, free, used, cap) then GivenUp else After(free, used, WordsIn(text, end), cap)
  {
    if end > 0 {
      var e := end - 1;
      var n := WordsIn(text, e);
      SpendToExactly(text, e, free, used, cap);
      OpenWord(text, e);
      SpendOnce(free, used, n, cap);
      SpendOnce(free, used, n + 1, cap);
    }
  }

  /**
   * What measuring a text comes to: it is given up if some character is reached with exactly one slot left
   * unused, and otherwise oversteps the array if it has more words than there is room for.
   */
  lemma SpendAllExactly(text: string, free: nat, used: nat, cap: nat)
    requires used <= cap
    ensures SpendAll(text, Left(free, used), cap) ==
            if Noticed(text, |text|, free, used, cap) then GivenUp else After(free, used, WordCount(text), cap)
  {
    SpendToExactly(text, |text|, free, used, cap);
    OpenWord(text, |text|);
    SpendOnce(free, used, WordsIn(text, |text|), cap);
  }

  /** The line break at `i` ends a word and steps over the last unused slot. */
  predicate StepsOver(text: string, i: nat, free: nat, used: nat, cap: nat)
    requires i < |text|
  {
    i > 0 && text[i] == '\n' && !IsBreak(text[i - 1]) && WordsIn(text, i) + 2 == free + cap - used
  }

  lemma {:induction false} CrossesOrMeets(text: string, end: nat, k: nat)
    requires end <= |text| && 0 < k < WordsIn(text, end)
    ensures (exists e :: 0 <= e < end && WordsIn(text, e) == k) ||
            exists i :: 0 <= i < end && WordsIn(text, i) + 1 == k && WordsAt(text, i) == 2
  {
    var e := end - 1;
    if WordsIn(text, e) > k {
      CrossesOrMeets(text, e, k);
    } else if WordsIn(text, e) == k {
    } else {
      assert WordsIn(text, e) + 1 == k && WordsAt(text, e) == 2;
    }
  }

  lemma {:induction false} WordsGrow(text: string, i: nat, j: nat)
    requires i <= j <= |text|
    ensures WordsIn(text, i) <= WordsIn(text, j)
    decreases j
  {
    if i < j {
      WordsGrow(text, i, j - 1);
    }
  }

  /**
   * With two slots or more unused, a text oversteps the array exactly if it has more words than there is
   * room for and some line break steps over the last unused slot.
   */
  lemma OverstepsExactly(text: string, free: nat, used: nat, cap: nat)
    requires used + 2 <= cap
    ensures SpendAll(text, Left(free, used), cap) == Overstep <==>
            WordCount(text) > free + cap - used && exists i :: 0 <= i < |text| && StepsOver(text, i, free, used, cap)
  {
    SpendAllExactly(text, free, used, cap);
    var k := free + cap - used - 1;
    assert forall n: nat :: UsedAfter(free, used, n) + 1 == cap <==> n == k;
    if i :| 0 <= i < |text| && StepsOver(text, i, free, used, cap) {
      NeverMeets(text, i, k);
    } else if WordCount(text) > k + 1 {
      CrossesOrMeets(text, |text|, k);
      assert forall i :: 0 <= i < |text| && WordsIn(text, i) + 1 == k && WordsAt(text, i) == 2 ==>
        StepsOver(text, i, free, used, cap);
    }
  }

  lemma NeverMeets(text: string, i: nat, k: nat)
    requires i < |text| && WordsIn(text, i) + 1 == k && WordsAt(text, i) == 2
    ensures forall e :: 0 <= e < |text| ==> WordsIn(text, e) != k
  {
    forall e | 0 <= e < |text|
      ensures WordsIn(text, e) != k
    {
      if e <= i {
        WordsGrow(text, e, i);
      } else {
        WordsGrow(text, i + 1, e);
      }
    }
  }

  /** Slots in use are never given back, and a measurement is only given up with one slot left unused. */
  lemma NeverShrinks(text: string, free: nat, used: nat, cap: nat)
    requires used <= cap
    ensures var s := SpendAll(text, Left(free, used), cap); (s.Left? ==> used <= s.used) && (s.GivenUp? ==> used < cap)
  {
    SpendAllExactly(text, free, used, cap);
  }

  /** With one slot left unused, every text but the empty one is given up, however many slots are free. */
  lemma LastSlotGivesUp(text: string, free: nat, cap: nat)
    requires cap >= 1
    ensures SpendAll(text, Left(free, cap - 1), cap) == if text == "" then Left(free, cap - 1) else GivenUp
  {
    SpendAllExactly(text, free, cap - 1, cap);
    if text != "" {
      assert UsedAfter(free, cap - 1, WordsIn(text, 0)) + 1 == cap;
    }
  }

  /** A single word comes to that state from the one before it. */
  lemma OneWordClogs(cap: nat)
    requires cap >= 2
    ensures SpendAll("a", Left(0, cap - 2), cap) == Left(0, cap - 1)
  {
    var t, b := "a", Left(0, cap - 2);
    assert SpendTo(t, 0, b, cap) == b && SpendTo(t, 1, b, cap) == b && WordStart(t, 1) == WordStart(t, 0) == 0;
  }
}
