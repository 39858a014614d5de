/** Chain identifiers: the bijective base-26 letter encoding ("A", ..., "Z",
    "AA", ...) and the register that hands out identifiers not yet taken. */
module SeqId {

  /** The letter for digit value `d`: 0 is 'A', 25 is 'Z'. */
  function Letter(d: nat): char
    requires d < 26
  {
    ('A' as int + d) as char
  }

  predicate IsUpper(c: char) {
    'A' <= c <= 'Z'
  }

  /** Every character of `s` is one of 'A'..'Z'. */
  predicate IsLetters(s: string) {
    forall i :: 0 <= i < |s| ==> IsUpper(s[i])
  }

  /** The digit value of a letter in the bijective system: 'A' is 1, 'Z' is 26. */
  function DigitValue(c: char): (v: nat)
    requires IsUpper(c)
    ensures 1 <= v <= 26
  {
    (c as int) - ('A' as int) + 1
  }

  /** Quotient and remainder by 26, by repeated subtraction; equal to `/` and
      `%` (DivMod26), written this way to keep the solver's arithmetic small. */
  function Div26(m: nat): nat
  {
    if m < 26 then 0 else 1 + Div26(m - 26)
  }

  function Mod26(m: nat): nat
  {
    if m < 26 then m else Mod26(m - 26)
  }

  lemma {:induction false} DivMod26(m: nat)
    ensures Div26(m) == m / 26 && Mod26(m) == m % 26
    decreases m
  {
    if m >= 26 {
      DivMod26(m - 26);
    }
  }

  /** `num_to_letters`: spreadsheet-column letters for `n >= 1`, i.e. bijective
      base 26 with digits A (1) .. Z (26) and no zero digit. */
  function NumToLetters(n: nat): (r: string)
    requires n >= 1
    ensures |r| >= 1
    decreases n
  {
    DivMod26(n - 1);
    if n <= 26 then [Letter(n - 1)] else NumToLetters(Div26(n - 1)) + [Letter(Mod26(n - 1))]
  }

  /** The inverse reading: the number a non-empty letter string stands for. */
  function LettersToNum(s: string): (n: nat)
    requires |s| >= 1 && IsLetters(s)
    ensures n >= 1
    decreases |s|
  {
    var last := DigitValue(s[|s| - 1]);
    if |s| == 1 then last else LettersToNum(s[..|s| - 1]) * 26 + last
  }

  /** Identifiers only ever use the letters 'A'..'Z'. */
  lemma {:induction false} NumToLettersIsLetters(n: nat)
    requires n >= 1
    ensures IsLetters(NumToLetters(n))
    decreases n
  {
    if n > 26 {
      DivMod26(n - 1);
      NumToLettersIsLetters(Div26(n - 1));
    }
  }

  /** Reading back the letters of `n` gives `n`. */
  lemma {:induction false} LettersToNumOfNumToLetters(n: nat)
    requires n >= 1
    ensures IsLetters(NumToLetters(n)) && LettersToNum(NumToLetters(n)) == n
    decreases n
  {
    NumToLettersIsLetters(n);
    DivMod26(n - 1);
    var q, d := Div26(n - 1), Mod26(n - 1);
    var s := NumToLetters(n);
    assert DigitValue(Letter(d)) == d + 1;
    if n > 26 {
      LettersToNumOfNumToLetters(q);
      assert s[..|s| - 1] == NumToLetters(q);
    }
  }

  /** Every non-empty string of capital letters is the encoding of exactly
      the number it reads as: the encoding is onto the letter strings. */
  lemma {:induction false} NumToLettersOfLettersToNum(s: string)
    requires |s| >= 1 && IsLetters(s)
    ensures NumToLetters(LettersToNum(s)) == s
    decreases |s|
  {
    var c := s[|s| - 1];
    var n := LettersToNum(s);
    assert Letter(DigitValue(c) - 1) == c;
    if |s| == 1 {
      assert s == [c];
    } else {
      assert n > 26;
      var p := s[..|s| - 1];
      NumToLettersOfLettersToNum(p);
      var m := LettersToNum(p);
      assert n - 1 == m * 26 + (DigitValue(c) - 1);
      DivMod26(n - 1);
      assert Div26(n - 1) == m && Mod26(n - 1) == DigitValue(c) - 1;
      assert s == p + [c];
    }
  }

  /** Distinct counter values give distinct identifiers. */
  lemma NumToLettersInjective(a: nat, b: nat)
    requires a >= 1 && b >= 1
    ensures NumToLetters(a) == NumToLetters(b) <==> a == b
  {
    LettersToNumOfNumToLetters(a);
    LettersToNumOfNumToLetters(b);
  }

  lemma TwoLetterVectors()
    ensures NumToLetters(27) == "AA" && NumToLetters(28) == "AB"
    ensures NumToLetters(52) == "AZ" && NumToLetters(53) == "BA"
  {
    DivMod26(26);
    DivMod26(27);
    DivMod26(51);
    DivMod26(52);
  }

  lemma ThreeLetterVectors()
    ensures NumToLetters(703) == "AAA" && NumToLetters(704) == "AAB"
  {
    TwoLetterVectors();
    DivMod26(702);
    DivMod26(703);
    assert NumToLetters(703) == NumToLetters(27) + "A";
    assert NumToLetters(704) == NumToLetters(27) + "B";
  }

  /** The vectors of tests/test_seqid.py:6-12. */
  lemma NumToLettersVectors()
    ensures NumToLetters(1) == "A" && NumToLetters(2) == "B" && NumToLetters(3) == "C"
    ensures NumToLetters(26) == "Z" && NumToLetters(27) == "AA" && NumToLetters(28) == "AB"
    ensures NumToLetters(52) == "AZ" && NumToLetters(53) == "BA"
    ensures NumToLetters(703) == "AAA" && NumToLetters(704) == "AAB"
  {
    TwoLetterVectors();
    ThreeLetterVectors();
  }


  /** The candidates a counter at `c` has already passed: the encodings of 1..c. */
  ghost function Candidates(c: nat): set<string>
    decreases c
  {
    if c == 0 then {} else Candidates(c - 1) + {NumToLetters(c)}
  }

  /** Every counter value up to `c` has its encoding among the candidates. */
  lemma {:induction false} CandidateIn(c: nat, k: nat)
    requires 1 <= k <= c
    ensures NumToLetters(k) in Candidates(c)
    decreases c
  {
    if k < c {
      CandidateIn(c - 1, k);
    }
  }

  /** Only the encodings of 1..c are candidates. */
  lemma {:induction false} CandidateFrom(c: nat, x: string)
    requires x in Candidates(c)
    ensures exists k :: 1 <= k <= c && x == NumToLetters(k)
    decreases c
  {
    if x != NumToLetters(c) {
      CandidateFrom(c - 1, x);
    }
  }

  /** A counter value beyond `c` is not yet a candidate. */
  lemma {:induction false} CandidateIsNew(c: nat, m: nat)
    requires m > c
    ensures NumToLetters(m) !in Candidates(c)
    decreases c
  {
    if c > 0 {
      NumToLettersInjective(c, m);
      CandidateIsNew(c - 1, m);
    }
  }

  lemma DifferenceCard<T>(a: set<T>, b: set<T>)
    ensures |a - b| <= |a|
  {
    assert a == (a - b) + (a * b);
  }

  /** Skipping a taken candidate leaves one fewer taken identifier ahead. */
  lemma SkipOne(reg: set<string>, c: nat)
    requires NumToLetters(c + 1) in reg
    ensures reg - Candidates(c + 1) < reg - Candidates(c)
    ensures |reg - Candidates(c + 1)| + 1 == |reg - Candidates(c)|
  {
    CandidateIsNew(c, c + 1);
    assert reg - Candidates(c) == (reg - Candidates(c + 1)) + {NumToLetters(c + 1)};
  }

  /** The counter value at which `generate`, started with the counter at `c`
      and the registered set `reg`, stops: the first value after `c` whose
      encoding is not registered. */
  function FirstFree(reg: set<string>, c: nat): (r: nat)
    ensures r > c && NumToLetters(r) !in reg
    decreases reg - Candidates(c)
  {
    if NumToLetters(c + 1) !in reg then
      c + 1
    else
      SkipOne(reg, c);
      FirstFree(reg, c + 1)
  }

  /** Every candidate `generate` passes over on the way is already taken. */
  lemma {:induction false} FirstFreeSkipsOnlyTaken(reg: set<string>, c: nat, j: nat)
    requires c < j < FirstFree(reg, c)
    ensures NumToLetters(j) in reg
    decreases reg - Candidates(c)
  {
    if j > c + 1 {
      SkipOne(reg, c);
      FirstFreeSkipsOnlyTaken(reg, c + 1, j);
    }
  }

  /** The skip loop ends: it tries at most one candidate more than there are
      registered identifiers the counter has not yet passed. */
  lemma {:induction false} FirstFreeBound(reg: set<string>, c: nat)
    ensures FirstFree(reg, c) <= c + |reg - Candidates(c)| + 1
    ensures FirstFree(reg, c) <= c + |reg| + 1
    decreases reg - Candidates(c)
  {
    if NumToLetters(c + 1) in reg {
      SkipOne(reg, c);
      FirstFreeBound(reg, c + 1);
    }
    DifferenceCard(reg, Candidates(c));
  }

  /** The identifiers `k` successive `generate` calls return, starting from
      the registered set `reg` and the counter `c`. */
  function GenerateRun(reg: set<string>, c: nat, k: nat): (ids: seq<string>)
    ensures |ids| == k
    ensures forall i :: 0 <= i < k ==> ids[i] !in reg
    ensures forall i, j :: 0 <= i < j < k ==> ids[i] != ids[j]
    decreases k
  {
    if k == 0 then
      []
    else
      var n := FirstFree(reg, c);
      var id := NumToLetters(n);
      [id] + GenerateRun(reg + {id}, n, k - 1)
  }

  /** The encodings of c+1, ..., c+k, in order. */
  function Encodings(c: nat, k: nat): (ids: seq<string>)
    decreases k
  {
    if k == 0 then [] else [NumToLetters(c + 1)] + Encodings(c + 1, k - 1)
  }

  /** Extending a run of encodings by one more at the end. */
  lemma {:induction false} EncodingsSnoc(c: nat, k: nat)
    ensures Encodings(c, k + 1) == Encodings(c, k) + [NumToLetters(c + k + 1)]
    decreases k
  {
    if k > 0 {
      EncodingsSnoc(c + 1, k - 1);
    }
  }

  /** While only generated identifiers are taken, `generate` advances the
      counter by exactly one and the taken set stays "the encodings of 1..count". */
  lemma NoSkipWithoutManualRegistration(c: nat)
    ensures FirstFree(Candidates(c), c) == c + 1
    ensures Candidates(c) + {NumToLetters(c + 1)} == Candidates(c + 1)
  {
    CandidateIsNew(c, c + 1);
  }

  /** Without manual registrations the register hands out the encodings of
      c+1, c+2, ... in order; from a fresh register that is "A", "B", "C", ... */
  lemma {:induction false} SequentialRun(c: nat, k: nat)
    ensures GenerateRun(Candidates(c), c, k) == Encodings(c, k)
    decreases k
  {
    if k > 0 {
      NoSkipWithoutManualRegistration(c);
      SequentialRun(c + 1, k - 1);
    }
  }

  /** tests/test_seqid.py:20-24: a fresh register generates "A", "B", "C", "D". */
  lemma FreshRegisterRun()
    ensures GenerateRun({}, 0, 4) == ["A", "B", "C", "D"]
  {
    SequentialRun(0, 4);
    NumToLettersVectors();
    assert NumToLetters(4) == "D";
  }

  /** After a generation every candidate up to the new counter is taken:
      those passed before, those skipped, and the one just handed out. */
  lemma GenerateKeepsCandidatesTaken(reg: set<string>, c0: nat)
    requires Candidates(c0) <= reg
    ensures Candidates(FirstFree(reg, c0)) <= reg + {NumToLetters(FirstFree(reg, c0))}
  {
    var r := FirstFree(reg, c0);
    forall x | x in Candidates(r)
      ensures x in reg + {NumToLetters(r)}
    {
      CandidateFrom(r, x);
      var k :| 1 <= k <= r && x == NumToLetters(k);
      if k <= c0 {
        CandidateIn(c0, k);
      } else if k < r {
        FirstFreeSkipsOnlyTaken(reg, c0, k);
      }
    }
  }

  /** What the register's invariant buys: when every candidate up to the
      counter is taken, the stopping point is the smallest number whose
      encoding is free at all, not just the smallest beyond the counter. */
  lemma {:induction false} ValidStopIsSmallestFree(reg: set<string>, c: nat, k: nat)
    requires Candidates(c) <= reg
    requires 1 <= k < FirstFree(reg, c)
    ensures NumToLetters(k) in reg
  {
    if k <= c {
      CandidateIn(c, k);
    } else {
      FirstFreeSkipsOnlyTaken(reg, c, k);
    }
  }

  /** The skip loop of `generate`: from the counter at `c`, step the counter
      past every candidate that is taken and stop at the first free one. */
  method SkipTaken(reg: set<string>, c: nat) returns (r: nat, id: string)
    ensures r == FirstFree(reg, c) && id == NumToLetters(r)
  {
    r := c + 1;
    id := NumToLetters(r);
    while id in reg
      invariant c < r && id == NumToLetters(r)
      invariant FirstFree(reg, r - 1) == FirstFree(reg, c)
      decreases FirstFree(reg, c) - r
    {
      r := r + 1;
      id := NumToLetters(r);
    }
  }

  /** `IDRegister`: the set of identifiers taken and the counter of
      candidates tried so far. */
  class IDRegister {
    var registered: set<string>
    var count: nat

    /** Every candidate the counter has passed is taken, so `Generate`
        hands out the smallest free encoding (ValidStopIsSmallestFree). */
    ghost predicate Valid()
      reads this
    {
      Candidates(count) <= registered
    }

    constructor ()
      ensures Valid()
      ensures registered == {} && count == 0
    {
      registered := {};
      count := 0;
    }

    /** `register`: takes any string, letter-shaped or not; the counter
        does not move. */
    method Register(id: string)
      requires Valid()
      modifies this
      ensures Valid()
      ensures registered == old(registered) + {id}
      ensures count == old(count)
    {
      registered := registered + {id};
    }

    /** `generate`: advances the counter past every taken candidate and
        takes and returns the first free one. */
    method Generate() returns (id: string)
      requires Valid()
      modifies this
      ensures Valid()
      ensures count == FirstFree(old(registered), old(count))
      ensures id == NumToLetters(count)
      ensures id !in old(registered)
      ensures registered == old(registered) + {id}
      ensures forall k :: 1 <= k < count ==> NumToLetters(k) in old(registered)
    {
      GenerateKeepsCandidatesTaken(registered, count);
      ghost var reg0, c0 := registered, count;
      count, id := SkipTaken(registered, count);
      registered := registered + {id};
      forall k | 1 <= k < count
        ensures NumToLetters(k) in reg0
      {
        ValidStopIsSmallestFree(reg0, c0, k);
      }
    }
  }

  /** `n` calls of `Generate` on a register that holds only the identifiers
      it generated itself: they return the next `n` encodings in order. */
  method GenerateSequentially(r: IDRegister, n: nat) returns (ids: seq<string>)
    requires r.Valid() && r.registered == Candidates(r.count)
    modifies r
    ensures r.Valid() && r.count == old(r.count) + n && r.registered == Candidates(r.count)
    ensures ids == Encodings(old(r.count), n)
  {
    ids := [];
    var i := 0;
    while i < n
      invariant 0 <= i <= n && r.count == old(r.count) + i
      invariant r.Valid() && r.registered == Candidates(r.count)
      invariant ids == Encodings(old(r.count), i)
    {
      NoSkipWithoutManualRegistration(r.count);
      var id := r.Generate();
      EncodingsSnoc(old(r.count), i);
      ids := ids + [id];
      i := i + 1;
    }
  }

  /** tests/test_seqid.py:27-33: "F".."I" (the encodings of 6..9) are
      registered by hand; the counter stays at 4. */
  method FillRegister(r: IDRegister)
    requires r.Valid() && r.registered == Candidates(4) && r.count == 4
    modifies r
    ensures r.Valid() && r.count == 4
    ensures r.registered == Candidates(4) + {NumToLetters(6), NumToLetters(7), NumToLetters(8), NumToLetters(9)}
  {
    FilledRegisterLetters();
    r.Register("F");
    r.Register("G");
    r.Register("H");
    r.Register("I");
  }

  /** tests/test_seqid.py:36-40: five calls on the filled register return
      "E", "J", "K", "L", "M" and leave the counter at 13. */
  method GenerateOnFilledRegister(r: IDRegister) returns (ids: seq<string>)
    requires r.Valid() && r.count == 4
    requires r.registered == Candidates(4) + {NumToLetters(6), NumToLetters(7), NumToLetters(8), NumToLetters(9)}
    modifies r
    ensures ids == ["E", "J", "K", "L", "M"]
    ensures r.Valid() && r.count == 13 && r.registered == Candidates(13)
  {
    FilledRegisterFirstStop(r.registered);
    var e := r.Generate();
    FilledRegisterSecondStop();
    var j := r.Generate();
    assert r.registered == Candidates(10);
    var rest := GenerateSequentially(r, 3);
    FilledRegisterStops(Candidates(4) + {NumToLetters(6), NumToLetters(7), NumToLetters(8), NumToLetters(9)});
    FilledRegisterLetters();
    ids := [e, j] + rest;
  }

  /** The calls of tests/test_seqid.py:15-48 on one shared register: four
      generations return "A".."D"; "F".."I" registered by hand leave the
      counter at 4; five more generations return "E", "J", "K", "L", "M";
      "N", "NN", "NNN", "NNNN" are then registered as given. */
  method SharedRegisterReplay() returns (first: seq<string>, second: seq<string>, r: IDRegister)
    ensures first == ["A", "B", "C", "D"]
    ensures second == ["E", "J", "K", "L", "M"]
    ensures r.count == 13
    ensures r.registered == Candidates(13) + {"N", "NN", "NNN", "NNNN"}
  {
    r := new IDRegister();
    first := GenerateSequentially(r, 4);
    SequentialRun(0, 4);
    FreshRegisterRun();
    FillRegister(r);
    second := GenerateOnFilledRegister(r);
    r.Register("N");
    r.Register("NN");
    r.Register("NNN");
    r.Register("NNNN");
  }



  /** The single letters the filled-register calls involve. */
  lemma FilledRegisterLetters()
    ensures NumToLetters(5) == "E" && NumToLetters(6) == "F" && NumToLetters(7) == "G"
    ensures NumToLetters(8) == "H" && NumToLetters(9) == "I" && NumToLetters(10) == "J"
    ensures NumToLetters(11) == "K" && NumToLetters(12) == "L" && NumToLetters(13) == "M"
  {
  }

  /** The first of the five calls in tests/test_seqid.py:36-40: "E" (the
      encoding of 5) is free, and taking it leaves every encoding of 1..9 taken. */
  lemma FilledRegisterFirstStop(taken: set<string>)
    requires taken == Candidates(4) + {NumToLetters(6), NumToLetters(7), NumToLetters(8), NumToLetters(9)}
    ensures FirstFree(taken, 4) == 5
    ensures taken + {NumToLetters(5)} == Candidates(9)
  {
    CandidateIsNew(4, 5);
    NumToLettersInjective(5, 6);
    NumToLettersInjective(5, 7);
    NumToLettersInjective(5, 8);
    NumToLettersInjective(5, 9);
  }

  /** The second call: "F".."I" (6..9) are skipped and "J" (10) is free. */
  lemma FilledRegisterSecondStop()
    ensures FirstFree(Candidates(9), 5) == 10
  {
    CandidateIn(9, 6);
    CandidateIn(9, 7);
    CandidateIn(9, 8);
    CandidateIn(9, 9);
    CandidateIsNew(9, 10);
    assert FirstFree(Candidates(9), 9) == 10;
    assert FirstFree(Candidates(9), 8) == 10;
    assert FirstFree(Candidates(9), 7) == 10;
    assert FirstFree(Candidates(9), 6) == 10;
  }

  /** The five calls of tests/test_seqid.py:36-40 stop at 5, 10, 11, 12 and 13. */
  lemma FilledRegisterStops(taken: set<string>)
    requires taken == Candidates(4) + {NumToLetters(6), NumToLetters(7), NumToLetters(8), NumToLetters(9)}
    ensures GenerateRun(taken, 4, 5)
         == [NumToLetters(5), NumToLetters(10), NumToLetters(11), NumToLetters(12), NumToLetters(13)]
  {
    FilledRegisterFirstStop(taken);
    FilledRegisterSecondStop();
    SequentialRun(10, 3);
    assert Candidates(9) + {NumToLetters(10)} == Candidates(10);
    assert GenerateRun(Candidates(9), 5, 4) == [NumToLetters(10)] + Encodings(10, 3);
  }

  /** tests/test_seqid.py:27-40: after "A".."D" were generated (the taken set
      is then the encodings of 1..4) and "F".."I" (the encodings of 6..9)
      were registered by hand with the counter still at 4, five more calls
      skip the taken letters and return "E", "J", "K", "L", "M". */
  lemma FilledRegisterRun()
    ensures GenerateRun(Candidates(4) + {NumToLetters(6), NumToLetters(7), NumToLetters(8), NumToLetters(9)}, 4, 5)
         == ["E", "J", "K", "L", "M"]
  {
    FilledRegisterStops(Candidates(4) + {NumToLetters(6), NumToLetters(7), NumToLetters(8), NumToLetters(9)});
    assert NumToLetters(5) == "E" && NumToLetters(10) == "J" && NumToLetters(11) == "K";
    assert NumToLetters(12) == "L" && NumToLetters(13) == "M";
  }


}
