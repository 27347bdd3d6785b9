/** The Math Challenge engine (src/domain/casino/math-challenge/MathChallengeEngine.ts):
    a batch of multiple-choice arithmetic problems generated from a seed, the
    same batch regenerated when the answers come back, and a grade from the
    share of correct answers and the average time taken. */
module MathChallenge {
  import opened Shared
  import opened GameConfig
  import opened Random
  import opened FisherYates

  datatype Difficulty = Easy | Medium | Hard

  /** `MathChallengeInput`; bets are whole minutes, the time limit is in seconds. */
  datatype Input = Input(bet: int, difficulty: Difficulty, timeLimit: real)

  /** `validateInput`. The difficulty check always passes on the datatype. */
  function ValidateInput(input: Input): (ok: bool)
    ensures ok <==> 5 <= input.bet <= 30 && 0.0 < input.timeLimit <= 300.0
  {
    InBounds(MATH_PROBLEMS, input.bet) && input.timeLimit > 0.0 && input.timeLimit <= 300.0
  }

  // ---------------------------------------------------------------------------
  // Per-difficulty constants
  // ---------------------------------------------------------------------------

  /** `getProblemCount`. */
  function ProblemCount(d: Difficulty): nat {
    match d
    case Easy => 5
    case Medium => 4
    case Hard => 3
  }

  /** The `timeLimit` that `generateProblem` gives each problem. */
  function TimeLimit(d: Difficulty): int {
    match d
    case Easy => 10
    case Medium => 8
    case Hard => 5
  }

  /** `getRequiredAccuracy`. */
  function RequiredAccuracy(d: Difficulty): real {
    match d
    case Easy => 0.8
    case Medium => 0.75
    case Hard => 0.67
  }

  /** `getTargetTime`, in seconds. */
  function TargetTime(d: Difficulty): real {
    match d
    case Easy => 15.0
    case Medium => 25.0
    case Hard => 40.0
  }

  // ---------------------------------------------------------------------------
  // Problems
  // ---------------------------------------------------------------------------

  /** The numbers a question shows and its operation; the question text is
      formatted from these. */
  datatype Question =
    | Sum3(a: int, b: int, c: int)         // `a + b + c = ?`
    | Difference3(a: int, b: int, c: int)  // `a - b - c = ?`
    | Product(a: int, b: int)              // `a × b = ?`
    | Quotient(a: int, b: int)             // `a ÷ b = ?`
    | Power(base: int, exponent: int)      // `base^exponent = ?`

  /** b to the power e. */
  function Pow(b: int, e: nat): int
    decreases e
  {
    if e == 0 then 1 else b * Pow(b, e - 1)
  }

  /** `Math.pow(b, e)`; a negative exponent, which no live generator state
      draws, is taken as 0. */
  function MathPow(b: int, e: int): int {
    if e <= 0 then 1 else Pow(b, e)
  }

  /** What a question asks for, computed from the numbers it shows. */
  function Value(q: Question): int {
    match q
    case Sum3(a, b, c) => a + b + c
    case Difference3(a, b, c) => a - b - c
    case Product(a, b) => a * b
    case Quotient(a, b) => if b == 0 then 0 else a / b
    case Power(base, exponent) => MathPow(base, exponent)
  }

  /** The operations and operand ranges each difficulty draws from. */
  predicate Operands(d: Difficulty, q: Question) {
    match q
    case Sum3(a, b, c) => d == Easy && 10 <= a <= 50 && 10 <= b <= 50 && 10 <= c <= 50
    case Difference3(a, b, c) => d == Easy && 5 <= c <= 20 && 10 <= b <= 30 && b + c + 10 <= a <= b + c + 80
    case Product(a, b) => d == Medium && 12 <= a <= 25 && 11 <= b <= 20
    case Quotient(a, b) => d == Medium && 6 <= b <= 15 && a % b == 0 && 8 <= a / b <= 25
    case Power(base, exponent) => d == Hard && 2 <= base <= 9 && 2 <= exponent <= 4
  }

  /** A generated question, its answer and the generator state after it. */
  datatype Generated = Generated(question: Question, answer: int, state: int)

  /** `generateEasyProblem`: `operations[nextInt(0, 1)]` is '+' for index 0. */
  function EasyProblem(s: int): (g: Generated)
    ensures g.question.Sum3? || g.question.Difference3?
    ensures g.answer == Value(g.question)
  {
    var s1 := LcgStep(s);
    var s2 := LcgStep(s1);
    var s3 := LcgStep(s2);
    var s4 := LcgStep(s3);
    if LcgInt(s1, 0, 1) == 0 then
      var a := LcgInt(s2, 10, 50);
      var b := LcgInt(s3, 10, 50);
      var c := LcgInt(s4, 10, 50);
      Generated(Sum3(a, b, c), a + b + c, s4)
    else
      var c := LcgInt(s2, 5, 20);
      var b := LcgInt(s3, 10, 30);
      var a := LcgInt(s4, b + c + 10, b + c + 80);
      Generated(Difference3(a, b, c), a - b - c, s4)
  }

  /** `generateMediumProblem`: '*' for index 0, else a division built from
      its quotient. */
  function MediumProblem(s: int): (g: Generated)
    ensures g.question.Product? || g.question.Quotient?
    ensures g.question.Product? ==> g.answer == Value(g.question)
    ensures g.question.Quotient? ==> g.question.a == g.question.b * g.answer
  {
    var s1 := LcgStep(s);
    var s2 := LcgStep(s1);
    var s3 := LcgStep(s2);
    if LcgInt(s1, 0, 1) == 0 then
      var a := LcgInt(s2, 12, 25);
      var b := LcgInt(s3, 11, 20);
      Generated(Product(a, b), a * b, s3)
    else
      var b := LcgInt(s2, 6, 15);
      var quotient := LcgInt(s3, 8, 25);
      Generated(Quotient(b * quotient, b), quotient, s3)
  }

  /** `generateHardProblem`. */
  function HardProblem(s: int): (g: Generated)
    ensures g.question.Power? && g.answer == Value(g.question)
  {
    var s1 := LcgStep(s);
    var s2 := LcgStep(s1);
    var base := LcgInt(s1, 2, 9);
    var exponent := LcgInt(s2, 2, 4);
    Generated(Power(base, exponent), MathPow(base, exponent), s2)
  }

  /** The `switch` of `generateProblem`. */
  function Generate(d: Difficulty, s: int): Generated {
    match d
    case Easy => EasyProblem(s)
    case Medium => MediumProblem(s)
    case Hard => HardProblem(s)
  }

  /** A draw from a state whose successor is not negative lands in [lo, hi],
      and the generator stays that way. */
  lemma NextIntRange(s: int, lo: int, hi: int)
    requires LcgStep(s) >= 0 && lo <= hi
    ensures lo <= LcgInt(LcgStep(s), lo, hi) <= hi
    ensures LcgStep(LcgStep(s)) >= 0
  {
    LcgScaleBelow(s, 1);
    LcgIntRange(LcgStep(s), lo, hi);
  }

  /** b * q / b == q with no remainder. */
  lemma DivExact(b: int, q: int)
    requires b > 0
    ensures (b * q) / b == q && (b * q) % b == 0
  {
    var k, r := (b * q) / b, (b * q) % b;
    assert b * q == b * k + r && 0 <= r < b;
    assert b * (q - k) == r;
    if q - k >= 1 {
      MulMonotone(1, q - k, b);
    } else if q - k <= -1 {
      assert b * (k - q) == -r;
      MulMonotone(1, k - q, b);
    }
  }

  /** x1 * x2 <= y1 * y2 for 0 <= x1 <= y1 and 0 <= x2 <= y2. */
  lemma MulBoth(x1: int, y1: int, x2: int, y2: int)
    requires 0 <= x1 <= y1 && 0 <= x2 <= y2
    ensures x1 * x2 <= y1 * y2
  {
    MulMonotone(x1, y1, x2);
    MulMonotone(x2, y2, y1);
  }

  lemma {:induction false} PowBetween(b: int, e: nat)
    requires 2 <= b <= 9
    ensures 1 <= Pow(2, e) <= Pow(b, e) <= Pow(9, e)
    ensures e >= 1 && b > 2 ==> Pow(2, e) < Pow(b, e)
    decreases e
  {
    if e > 0 {
      PowBetween(b, e - 1);
      MulBoth(2, b, Pow(2, e - 1), Pow(b, e - 1));
      MulBoth(b, 9, Pow(b, e - 1), Pow(9, e - 1));
      if b > 2 {
        MulMonotone(2, b - 1, Pow(2, e - 1));
        MulMonotone(Pow(2, e - 1), Pow(b, e - 1), b);
      }
    }
  }

  /** Easy problems draw from the easy ranges and answer what they ask. */
  lemma EasyRanges(s: int)
    requires LcgStep(s) >= 0
    ensures var g := EasyProblem(s);
      Operands(Easy, g.question) && g.answer == Value(g.question) && LcgStep(g.state) >= 0
  {
    var s1 := LcgStep(s);
    var s2 := LcgStep(s1);
    var s3 := LcgStep(s2);
    NextIntRange(s, 0, 1);
    NextIntRange(s1, 5, 20);
    NextIntRange(s2, 10, 30);
    if LcgInt(s1, 0, 1) == 0 {
      NextIntRange(s1, 10, 50);
      NextIntRange(s2, 10, 50);
      NextIntRange(s3, 10, 50);
    } else {
      var c := LcgInt(s2, 5, 20);
      var b := LcgInt(s3, 10, 30);
      NextIntRange(s3, b + c + 10, b + c + 80);
    }
  }

  lemma MediumRanges(s: int)
    requires LcgStep(s) >= 0
    ensures var g := MediumProblem(s);
      Operands(Medium, g.question) && g.answer == Value(g.question) && LcgStep(g.state) >= 0
  {
    var s1 := LcgStep(s);
    var s2 := LcgStep(s1);
    NextIntRange(s, 0, 1);
    if LcgInt(s1, 0, 1) == 0 {
      NextIntRange(s1, 12, 25);
      NextIntRange(s2, 11, 20);
    } else {
      NextIntRange(s1, 6, 15);
      NextIntRange(s2, 8, 25);
      DivExact(LcgInt(s2, 6, 15), LcgInt(LcgStep(s2), 8, 25));
    }
  }

  lemma HardRanges(s: int)
    requires LcgStep(s) >= 0
    ensures var g := HardProblem(s);
      Operands(Hard, g.question) && g.answer == Value(g.question) && LcgStep(g.state) >= 0
  {
    NextIntRange(s, 2, 9);
    NextIntRange(LcgStep(s), 2, 4);
  }

  /** Every generated problem uses its difficulty's operation and operand
      ranges, and its answer is the value of the question. */
  lemma GenerateRanges(d: Difficulty, s: int)
    requires LcgStep(s) >= 0
    ensures var g := Generate(d, s);
      Operands(d, g.question) && g.answer == Value(g.question) && LcgStep(g.state) >= 0
  {
    match d
    case Easy => EasyRanges(s);
    case Medium => MediumRanges(s);
    case Hard => HardRanges(s);
  }

  /** The answers the ranges allow: easy sums 30..150 and differences 10..80,
      medium products 132..500 and quotients 8..25 with a = b * answer, hard
      powers 4..6561. The only answer below 5 is 4 = 2^2. */
  lemma AnswerRanges(d: Difficulty, q: Question)
    requires Operands(d, q)
    ensures q.Sum3? ==> 30 <= Value(q) <= 150
    ensures q.Difference3? ==> 10 <= Value(q) <= 80
    ensures q.Product? ==> 132 <= Value(q) <= 500
    ensures q.Quotient? ==> 8 <= Value(q) <= 25 && q.a == q.b * Value(q)
    ensures q.Power? ==> 4 <= Value(q) <= 6561
    ensures Value(q) < 5 <==> q == Power(2, 2)
  {
    match q
    case Product(a, b) =>
      MulBoth(12, a, 11, b);
      MulBoth(a, 25, b, 20);
    case Power(base, exponent) =>
      PowBetween(base, exponent);
      assert Pow(2, 2) == 4 && Pow(2, 3) == 8 && Pow(2, 4) == 16;
      assert Pow(9, 2) == 81 && Pow(9, 3) == 729 && Pow(9, 4) == 6561;
      if exponent > 2 {
        PowBetween(2, exponent);
      }
    case _ =>
  }

  // ---------------------------------------------------------------------------
  // Options (`generateOptions`)
  // ---------------------------------------------------------------------------

  /** `Math.round(Math.max(1, Math.abs(correctAnswer) * 0.3))`: how far a wrong
      option may lie from the answer. It is 1 exactly for answers -4..4. */
  function Spread(answer: int): (r: int)
    ensures r >= 1
    ensures r == 1 <==> -4 <= answer <= 4
  {
    var magnitude := if answer < 0 then -answer else answer;
    var variance := if 1.0 > magnitude as real * 0.3 then 1.0 else magnitude as real * 0.3;
    Round(variance)
  }

  /** `Math.round(x * 100) / 100` leaves a whole number unchanged. */
  lemma HundredthsExact(x: int)
    ensures Round(x as real * 100.0) / 100 == x
  {
  }

  /** One run of the do-while loop, with at most `fuel` draws: a candidate
      answer + offset, offset drawn from [-Spread, Spread], is kept when the
      options do not hold it yet. */
  function DrawWrong(answer: int, options: seq<int>, s: int, fuel: nat): (r: Result<(int, int)>)
    ensures r.Err? ==> r.failure == NoTermination
    decreases fuel
  {
    if fuel == 0 then Err(NoTermination)
    else
      var s1 := LcgStep(s);
      var wrong := answer + LcgInt(s1, -Spread(answer), Spread(answer));
      if wrong in options then DrawWrong(answer, options, s1, fuel - 1)
      else Ok((wrong, s1))
  }

  /** `count` runs of the do-while loop, each adding its wrong answer. */
  function PickWrong(answer: int, options: seq<int>, s: int, fuel: nat, count: nat): (r: Result<(seq<int>, int)>)
    ensures r.Ok? ==> |r.value.0| == |options| + count
    ensures r.Err? ==> r.failure == NoTermination
    decreases count
  {
    if count == 0 then Ok((options, s))
    else
      match DrawWrong(answer, options, s, fuel)
      case Err(f) => Err(f)
      case Ok((wrong, s1)) => PickWrong(answer, options + [wrong], s1, fuel, count - 1)
  }

  /** `generateOptions`: the answer, three wrong answers, then the shuffle of
      the four from index 3 down. */
  function Options(answer: int, s: int, fuel: nat): (r: Result<(seq<int>, int)>)
    ensures r.Ok? ==> |r.value.0| == 4
    ensures r.Err? ==> r.failure == NoTermination || r.failure == NotModelled
  {
    match PickWrong(answer, [answer], s, fuel, 3)
    case Err(f) => Err(f)
    case Ok((picked, s1)) =>
      var js := LcgSwapIndices(s1, 3);
      if InRange(js, 3) then Ok((Swaps(picked, 3, js), LcgAfter(s1, 3))) else Err(NotModelled)
  }

  /** Options without repeats that hold the answer, every one within the
      spread of it. */
  predicate Spaced(answer: int, options: seq<int>) {
    Distinct(options) && answer in options
    && forall k :: 0 <= k < |options| ==> answer - Spread(answer) <= options[k] <= answer + Spread(answer)
  }

  /** A wrong answer found is new and within the spread. */
  lemma {:induction false} DrawWrongSpec(answer: int, options: seq<int>, s: int, fuel: nat)
    requires LcgStep(s) >= 0
    ensures var r := DrawWrong(answer, options, s, fuel);
      r.Ok? ==> (r.value.0 !in options && answer - Spread(answer) <= r.value.0 <= answer + Spread(answer)
                 && LcgStep(r.value.1) >= 0)
    decreases fuel
  {
    if fuel > 0 {
      NextIntRange(s, -Spread(answer), Spread(answer));
      DrawWrongSpec(answer, options, LcgStep(s), fuel - 1);
    }
  }

  /** Once the options hold answer - 1, answer and answer + 1 and the spread
      is 1, every draw repeats an option, so the loop runs out of draws. */
  lemma {:induction false} DrawWrongStuck(answer: int, options: seq<int>, s: int, fuel: nat)
    requires LcgStep(s) >= 0 && Spread(answer) == 1
    requires answer - 1 in options && answer in options && answer + 1 in options
    ensures DrawWrong(answer, options, s, fuel) == Err(NoTermination)
    decreases fuel
  {
    if fuel > 0 {
      DrawRepeats(answer, options, s);
      DrawWrongStuck(answer, options, LcgStep(s), fuel - 1);
    }
  }

  lemma DrawRepeats(answer: int, options: seq<int>, s: int)
    requires LcgStep(s) >= 0 && Spread(answer) == 1
    requires answer - 1 in options && answer in options && answer + 1 in options
    ensures answer + LcgInt(LcgStep(s), -Spread(answer), Spread(answer)) in options
    ensures LcgStep(LcgStep(s)) >= 0
  {
    NextIntRange(s, -1, 1);
  }

  lemma {:induction false} PickWrongSpec(answer: int, options: seq<int>, s: int, fuel: nat, count: nat)
    requires LcgStep(s) >= 0 && Spaced(answer, options)
    ensures var r := PickWrong(answer, options, s, fuel, count);
      r.Ok? ==> Spaced(answer, r.value.0) && LcgStep(r.value.1) >= 0
    decreases count
  {
    if count > 0 {
      DrawWrongSpec(answer, options, s, fuel);
      var d := DrawWrong(answer, options, s, fuel);
      if d.Ok? {
        var wrong := d.value.0;
        SpacedSnoc(answer, options, wrong);
        PickWrongSpec(answer, options + [wrong], d.value.1, fuel, count - 1);
      }
    }
  }

  lemma SpacedSnoc(answer: int, options: seq<int>, wrong: int)
    requires Spaced(answer, options) && wrong !in options
    requires answer - Spread(answer) <= wrong <= answer + Spread(answer)
    ensures Spaced(answer, options + [wrong])
  {
    var t := options + [wrong];
    assert t[..|options|] == options;
    forall i, j | 0 <= i < j < |t| ensures t[i] != t[j] {
      if j == |options| {
        assert t[i] in options;
      }
    }
  }

  /** With spread 1 only answer - 1 and answer + 1 can be wrong answers, so the
      third wrong answer is never found. */
  lemma PickWrongStuck(answer: int, s: int, fuel: nat)
    requires LcgStep(s) >= 0 && Spread(answer) == 1
    ensures PickWrong(answer, [answer], s, fuel, 3) == Err(NoTermination)
  {
    DrawWrongSpec(answer, [answer], s, fuel);
    var d1 := DrawWrong(answer, [answer], s, fuel);
    if d1.Ok? {
      var (w1, s1) := d1.value;
      var two := [answer, w1];
      assert [answer] + [w1] == two;
      assert PickWrong(answer, [answer], s, fuel, 3) == PickWrong(answer, two, s1, fuel, 2);
      DrawWrongSpec(answer, two, s1, fuel);
      var d2 := DrawWrong(answer, two, s1, fuel);
      if d2.Ok? {
        var (w2, s2) := d2.value;
        var three := [answer, w1, w2];
        assert two + [w2] == three;
        assert PickWrong(answer, two, s1, fuel, 2) == PickWrong(answer, three, s2, fuel, 1);
        assert w1 != w2 && w1 != answer && w2 != answer;
        assert three[0] == answer && three[1] == w1 && three[2] == w2;
        DrawWrongStuck(answer, three, s2, fuel);
        assert PickWrong(answer, three, s2, fuel, 1) == Err(NoTermination);
      }
    }
  }

  /** `generateOptions` yields four distinct options holding the answer, each
      within the spread of it; it can only fail by running out of draws, and it
      always does so when the spread is 1 (answers -4..4, among generated
      answers only 2^2 = 4). */
  lemma OptionsSpec(answer: int, s: int, fuel: nat)
    requires LcgStep(s) >= 0
    ensures var r := Options(answer, s, fuel);
      && (r.Ok? ==> |r.value.0| == 4 && Spaced(answer, r.value.0) && LcgStep(r.value.1) >= 0)
      && (r.Err? ==> r.failure == NoTermination)
      && (Spread(answer) == 1 ==> r == Err(NoTermination))
  {
    var p := PickWrong(answer, [answer], s, fuel, 3);
    if Spread(answer) == 1 {
      PickWrongStuck(answer, s, fuel);
    }
    assert Spaced(answer, [answer]);
    PickWrongSpec(answer, [answer], s, fuel, 3);
    if p.Ok? {
      ShuffleSpaced(answer, p.value.0, p.value.1);
    }
  }

  /** The shuffle of four spaced options from a state whose successor is not
      negative draws indices in range and keeps them spaced. */
  lemma ShuffleSpaced(answer: int, picked: seq<int>, s: int)
    requires |picked| == 4 && Spaced(answer, picked) && LcgStep(s) >= 0
    ensures var js := LcgSwapIndices(s, 3);
      && InRange(js, 3)
      && Spaced(answer, Swaps(picked, 3, js))
      && LcgStep(LcgAfter(s, 3)) >= 0
  {
    LcgSwapIndicesInRange(s, 3);
    var js := LcgSwapIndices(s, 3);
    SwapsPermutes(picked, 3, js);
    ShuffledSpaced(answer, picked, Swaps(picked, 3, js));
    LcgScaleBelow(s, 1);
    LcgLiveAfter(LcgStep(s), 2);
    assert LcgAfter(s, 3) == LcgAfter(LcgStep(s), 2) by {
      LcgAfterShift(s, 2);
    }
    LcgScaleBelow(LcgAfter(s, 3), 1);
  }

  /** k + 1 steps from s are k steps from the state after s. */
  lemma {:induction false} LcgAfterShift(s: int, k: nat)
    ensures LcgAfter(s, k + 1) == LcgAfter(LcgStep(s), k)
    decreases k
  {
    if k > 0 {
      LcgAfterShift(s, k - 1);
    }
  }

  /** A rearrangement of spaced options is spaced. */
  lemma ShuffledSpaced(answer: int, picked: seq<int>, shuffled: seq<int>)
    requires Spaced(answer, picked) && multiset(shuffled) == multiset(picked)
    ensures Spaced(answer, shuffled)
  {
    DistinctSubmultiset(picked, shuffled);
    assert answer in multiset(picked);
    forall k | 0 <= k < |shuffled|
      ensures answer - Spread(answer) <= shuffled[k] <= answer + Spread(answer)
    {
      assert shuffled[k] in multiset(picked);
    }
  }

  // ---------------------------------------------------------------------------
  // The batch (`generateProblem`, `generateProblems`)
  // ---------------------------------------------------------------------------

  /** `MathProblem`; the question text is left to its numbers. */
  datatype Problem = Problem(
    id: string,
    question: Question,
    answer: int,
    options: seq<int>,
    difficulty: Difficulty,
    timeLimit: int)

  /** `i.toString()` for a whole number: its decimal digits. */
  function NatToString(n: nat): (s: string)
    ensures |s| >= 1
    decreases n
  {
    (if n < 10 then [] else NatToString(n / 10)) + [('0' as int + n % 10) as char]
  }

  /** Reads decimal digits back. */
  function ParseNat(s: string): nat
    decreases |s|
  {
    if s == [] then 0
    else
      var c := s[|s| - 1];
      var digit := if '0' <= c <= '9' then c as int - '0' as int else 0;
      ParseNat(s[..|s| - 1]) * 10 + digit
  }

  /** Reading the digits back gives the number, so distinct indices get
      distinct ids. */
  lemma {:induction false} ParseNatToString(n: nat)
    ensures ParseNat(NatToString(n)) == n
    decreases n
  {
    var prefix := if n < 10 then [] else NatToString(n / 10);
    var c := ('0' as int + n % 10) as char;
    assert NatToString(n) == prefix + [c];
    ParseSnoc(prefix, c);
    if n >= 10 {
      ParseNatToString(n / 10);
    }
  }

  /** Reading one more digit. */
  lemma ParseSnoc(s: string, c: char)
    requires '0' <= c <= '9'
    ensures ParseNat(s + [c]) == ParseNat(s) * 10 + (c as int - '0' as int)
  {
    assert (s + [c])[..|s|] == s;
  }

  lemma IdsDistinct(m: nat, n: nat)
    ensures NatToString(m) == NatToString(n) ==> m == n
  {
    ParseNatToString(m);
    ParseNatToString(n);
  }

  /** `generateProblem(difficulty, random, id)` from generator state s. */
  function ProblemAt(d: Difficulty, s: int, id: string, fuel: nat): Result<(Problem, int)> {
    var g := Generate(d, s);
    match Options(g.answer, g.state, fuel)
    case Err(f) => Err(f)
    case Ok((options, s1)) => Ok((Problem(id, g.question, g.answer, options, d, TimeLimit(d)), s1))
  }

  /** Problem k of a batch, drawn from a generator state. */
  type Draw = (int, nat) -> Result<(Problem, int)>

  /** The loop body of `generateProblems`: problem k gets the id `k.toString()`. */
  function DrawOf(d: Difficulty, fuel: nat): Draw {
    (s: int, k: nat) => ProblemAt(d, s, NatToString(k), fuel)
  }

  /** The first n problems drawn one after another from the seed, and the
      generator state after them. */
  function Batch(draw: Draw, n: nat, seed: int): (r: Result<(seq<Problem>, int)>)
    ensures r.Ok? ==> |r.value.0| == n
    decreases n
  {
    if n == 0 then Ok(([], seed))
    else
      match Batch(draw, n - 1, seed)
      case Err(f) => Err(f)
      case Ok((problems, s)) =>
        match draw(s, n - 1)
        case Err(f) => Err(f)
        case Ok((p, s1)) => Ok((problems + [p], s1))
  }

  /** `generateProblems(difficulty, count, seed)`. A seed below -5 whose first
      state is negative would draw negative indices; it is not followed. */
  function Problems(d: Difficulty, count: int, seed: int, fuel: nat): (r: Result<seq<Problem>>)
    ensures r.Ok? ==> |r.value| == if count < 0 then 0 else count
  {
    if count >= 1 && LcgStep(seed) < 0 then Err(NotModelled)
    else
      match Batch(DrawOf(d, fuel), if count < 0 then 0 else count, seed)
      case Err(f) => Err(f)
      case Ok((problems, _)) => Ok(problems)
  }

  /** Problem k of a batch. */
  predicate WellFormed(p: Problem, d: Difficulty, k: nat) {
    && p.id == NatToString(k)
    && p.difficulty == d
    && p.timeLimit == TimeLimit(d)
    && Operands(d, p.question)
    && p.answer == Value(p.question)
    && |p.options| == 4
    && Spaced(p.answer, p.options)
    && Spread(p.answer) >= 2
  }

  /** A draw of problem k: well formed and leaving a good state, or stuck in
      an options loop. */
  predicate DrawGood(d: Difficulty, r: Result<(Problem, int)>, k: nat) {
    && (r.Ok? ==> WellFormed(r.value.0, d, k) && LcgStep(r.value.1) >= 0)
    && (r.Err? ==> r.failure == NoTermination)
  }

  /** The same for the first n problems. */
  predicate BatchGood(d: Difficulty, r: Result<(seq<Problem>, int)>, n: nat) {
    && (r.Ok? ==> |r.value.0| == n && (forall k :: 0 <= k < n ==> WellFormed(r.value.0[k], d, k))
                  && LcgStep(r.value.1) >= 0)
    && (r.Err? ==> r.failure == NoTermination)
  }

  /** Every draw from a good state is good. */
  ghost predicate Sound(d: Difficulty, draw: Draw) {
    forall s: int, k: nat :: LcgStep(s) >= 0 ==> DrawGood(d, draw(s, k), k)
  }

  lemma ProblemAtSpec(d: Difficulty, s: int, k: nat, fuel: nat)
    requires LcgStep(s) >= 0
    ensures DrawGood(d, ProblemAt(d, s, NatToString(k), fuel), k)
  {
    var g := Generate(d, s);
    GenerateRanges(d, s);
    OptionsSpec(g.answer, g.state, fuel);
  }

  /** The loop body of `generateProblems` draws well-formed problems. */
  lemma DrawOfSound(d: Difficulty, fuel: nat)
    ensures Sound(d, DrawOf(d, fuel))
  {
    forall s: int, k: nat | LcgStep(s) >= 0
      ensures DrawGood(d, DrawOf(d, fuel)(s, k), k)
    {
      ProblemAtSpec(d, s, k, fuel);
    }
  }

  /** Good draws make a good batch. */
  lemma {:induction false} BatchSpec(d: Difficulty, draw: Draw, n: nat, seed: int)
    requires LcgStep(seed) >= 0 && Sound(d, draw)
    ensures BatchGood(d, Batch(draw, n, seed), n)
    decreases n
  {
    if n > 0 {
      BatchSpec(d, draw, n - 1, seed);
      var prev := Batch(draw, n - 1, seed);
      if prev.Ok? {
        var r := draw(prev.value.1, n - 1);
        assert DrawGood(d, r, n - 1);
        if r.Ok? {
          BatchSnoc(d, prev.value.0, r.value.0, n);
        }
      }
    }
  }

  lemma BatchSnoc(d: Difficulty, problems: seq<Problem>, p: Problem, n: nat)
    requires |problems| == n - 1 && n >= 1
    requires forall k :: 0 <= k < n - 1 ==> WellFormed(problems[k], d, k)
    requires WellFormed(p, d, n - 1)
    ensures forall k :: 0 <= k < n ==> WellFormed((problems + [p])[k], d, k)
  {
    forall k | 0 <= k < n ensures WellFormed((problems + [p])[k], d, k) {
      if k < n - 1 {
        assert (problems + [p])[k] == problems[k];
      }
    }
  }

  /** One more draw after a batch of n. */
  lemma BatchNext(draw: Draw, n: nat, seed: int)
    requires Batch(draw, n, seed).Ok?
    ensures var (problems, s) := Batch(draw, n, seed).value;
      Batch(draw, n + 1, seed) ==
        match draw(s, n)
        case Err(f) => Err(f)
        case Ok((p, s1)) => Ok((problems + [p], s1))
  {
  }

  /** A batch that fails at n problems fails the same way for every larger
      count. */
  lemma {:induction false} BatchErrSticks(draw: Draw, n: nat, m: nat, seed: int)
    requires n <= m && Batch(draw, n, seed).Err?
    ensures Batch(draw, m, seed) == Batch(draw, n, seed)
    decreases m
  {
    if n < m {
      BatchErrSticks(draw, n, m - 1, seed);
    }
  }

  /** `generateProblems` returns `count` problems with ids "0", "1", ...,
      each using its difficulty's operation, ranges and time limit, with four
      distinct options that include the answer. It fails only where the model
      stops (a negative first state, seeds below -5) or where an options loop
      cannot end. */
  lemma ProblemsSpec(d: Difficulty, count: int, seed: int, fuel: nat)
    ensures var r := Problems(d, count, seed, fuel);
      && (r.Ok? ==> forall k :: 0 <= k < |r.value| ==> WellFormed(r.value[k], d, k))
      && (r == Err(NotModelled) <==> count >= 1 && LcgStep(seed) < 0)
      && (r.Err? && r.failure != NotModelled ==> r.failure == NoTermination)
      && (count <= 0 ==> r == Ok([]))
      && (seed >= -5 ==> r != Err(NotModelled))
  {
    LcgScaleBelow(seed, 1);
    if !(count >= 1 && LcgStep(seed) < 0) {
      if count >= 1 {
        DrawOfSound(d, fuel);
        BatchSpec(d, DrawOf(d, fuel), count, seed);
      }
    }
  }

  /** A batch whose first draw fails fails with it, whatever its length. */
  lemma BatchFirstErr(draw: Draw, n: nat, seed: int)
    requires n >= 1 && draw(seed, 0).Err?
    ensures Batch(draw, n, seed) == Err(draw(seed, 0).failure)
  {
    assert Batch(draw, 1, seed) == Err(draw(seed, 0).failure);
    BatchErrSticks(draw, 1, n, seed);
  }

  /** The first two generator states from seed 21 and the draws they give. */
  lemma TwentyOneStates()
    ensures LcgStep(21) == 11338 && LcgStep(11338) == 61475
    ensures LcgInt(11338, 2, 9) == 2 && LcgInt(61475, 2, 4) == 2
  {
    assert 244618 % 233280 == 11338;
    assert 105504035 % 233280 == 61475;
  }

  /** The hard problem 2^2 = 4 leaves only 3 and 5 as wrong answers, so its
      options loop never ends. */
  lemma SquareOfTwoHangs(s: int, id: string, fuel: nat)
    requires LcgStep(s) >= 0 && Generate(Hard, s).question == Power(2, 2)
    ensures ProblemAt(Hard, s, id, fuel) == Err(NoTermination)
  {
    var g := Generate(Hard, s);
    GenerateRanges(Hard, s);
    AnswerRanges(Hard, g.question);
    OptionsSpec(g.answer, g.state, fuel);
  }

  /** A hard batch whose first problem is 2^2 never finishes. */
  lemma SquareFirstHangs(seed: int, fuel: nat)
    requires LcgStep(seed) >= 0 && Generate(Hard, seed).question == Power(2, 2)
    ensures Problems(Hard, 3, seed, fuel) == Err(NoTermination)
  {
    SquareOfTwoHangs(seed, NatToString(0), fuel);
    BatchFirstErr(DrawOf(Hard, fuel), 3, seed);
  }

  /** Seed 21 is such a seed: it draws 2^2 first. */
  lemma TwentyOneDrawsSquare()
    ensures LcgStep(21) == 11338 && HardProblem(21).question == Power(2, 2)
  {
    TwentyOneStates();
  }

  // ---------------------------------------------------------------------------
  // Grading (`play`)
  // ---------------------------------------------------------------------------

  /** Agreeing positions among the first n. */
  function Agreements(user: seq<int>, correct: seq<int>, n: nat): nat
    requires n <= |user| && n <= |correct|
    decreases n
  {
    if n == 0 then 0
    else Agreements(user, correct, n - 1) + (if user[n - 1] == correct[n - 1] then 1 else 0)
  }

  /** `totalCorrect`: the positions below both lengths where the user's
      answer equals the correct one. */
  function CountCorrect(user: seq<int>, correct: seq<int>): nat {
    Agreements(user, correct, if |user| < |correct| then |user| else |correct|)
  }

  /** The count is the number of agreeing positions, at most n. */
  lemma {:induction false} AgreementsSet(user: seq<int>, correct: seq<int>, n: nat)
    requires n <= |user| && n <= |correct|
    ensures Agreements(user, correct, n) == |set k | 0 <= k < n && user[k] == correct[k]|
    ensures Agreements(user, correct, n) <= n
    decreases n
  {
    if n > 0 {
      AgreementsSet(user, correct, n - 1);
      var before := set k | 0 <= k < n - 1 && user[k] == correct[k];
      var after := set k | 0 <= k < n && user[k] == correct[k];
      if user[n - 1] == correct[n - 1] {
        assert after == before + {n - 1};
      } else {
        assert after == before;
      }
    }
  }

  /** The counting loop of `play`. */
  method CountCorrectLoop(userAnswers: seq<int>, correctAnswers: seq<int>) returns (totalCorrect: nat)
    ensures totalCorrect == CountCorrect(userAnswers, correctAnswers)
  {
    totalCorrect := 0;
    var i := 0;
    while i < |userAnswers| && i < |correctAnswers|
      invariant 0 <= i <= |userAnswers| && i <= |correctAnswers|
      invariant totalCorrect == Agreements(userAnswers, correctAnswers, i)
    {
      if userAnswers[i] == correctAnswers[i] {
        totalCorrect := totalCorrect + 1;
      }
      i := i + 1;
    }
  }

  /** `timeSpent.reduce((sum, time) => sum + time, 0)`. */
  function Total(times: seq<real>): real
    decreases |times|
  {
    if times == [] then 0.0 else Total(times[..|times| - 1]) + times[|times| - 1]
  }

  /** `averageTime`; `None` is the `NaN` of 0 / 0 for no times. */
  function AverageTime(times: seq<real>): (r: Option<real>)
    ensures r.None? <==> times == []
  {
    if times == [] then None else Some(Total(times) / |times| as real)
  }

  /** `calculateSpeedBonus`: `Math.min(2, Math.max(0.5, target / averageTime))`.
      An average of 0 gives the ratio +Infinity, a negative one a negative
      ratio; `NaN` stays `NaN`. */
  function SpeedBonus(average: Option<real>, d: Difficulty): (r: Option<real>)
    ensures r.None? <==> average.None?
    ensures r.Some? ==> 0.5 <= r.get <= 2.0
    ensures average.Some? && 0.0 <= average.get <= TargetTime(d) / 2.0 ==> r == Some(2.0)
    ensures average.Some? && (average.get < 0.0 || average.get >= 2.0 * TargetTime(d)) ==> r == Some(0.5)
  {
    match average
    case None => None
    case Some(a) =>
      if a == 0.0 then Some(2.0)
      else
        var ratio := TargetTime(d) / a;
        RatioBounds(TargetTime(d), a);
        Some(if ratio > 2.0 then 2.0 else if ratio < 0.5 then 0.5 else ratio)
  }

  /** Where t / a lies for a target t > 0. */
  lemma RatioBounds(t: real, a: real)
    requires t > 0.0 && a != 0.0
    ensures 0.0 < a <= t / 2.0 ==> t / a >= 2.0
    ensures a >= 2.0 * t ==> t / a <= 0.5
    ensures a < 0.0 ==> t / a < 0.0
  {
    var ratio := t / a;
    assert ratio * a == t;
    if 0.0 < a <= t / 2.0 {
      assert ratio * a >= 2.0 * a;
    }
    if a >= 2.0 * t {
      assert (ratio - 0.5) * a == t - 0.5 * a;
    }
  }

  /** Answering faster never lowers the speed bonus. */
  lemma SpeedBonusMonotone(a1: real, a2: real, d: Difficulty)
    requires 0.0 < a1 <= a2
    ensures SpeedBonus(Some(a1), d).get >= SpeedBonus(Some(a2), d).get
  {
    DivAntitone(TargetTime(d), a1, a2);
  }

  /** t / a2 <= t / a1 for t > 0 and 0 < a1 <= a2. */
  lemma DivAntitone(t: real, a1: real, a2: real)
    requires t > 0.0 && 0.0 < a1 <= a2
    ensures t / a2 <= t / a1
  {
    var x, y := t / a1, t / a2;
    assert x * a1 == t && y * a2 == t;
    assert y > 0.0;
    assert y * (a2 - a1) >= 0.0;
    assert (x - y) * a1 >= 0.0;
  }

  /** `Math.max(0.1, accuracy * speedBonus)`; `NaN` stays `NaN`. */
  function BonusMultiplier(accuracy: real, speed: Option<real>): (r: Option<real>)
    ensures r.None? <==> speed.None?
    ensures r.Some? ==> r.get >= 0.1
  {
    match speed
    case None => None
    case Some(b) => Some(if 0.1 > accuracy * b then 0.1 else accuracy * b)
  }

  /** An accuracy in [0, 1] and a speed bonus in [0.5, 2] give a multiplier
      in [0.1, 2]. */
  lemma BonusRange(accuracy: real, speed: real)
    requires 0.0 <= accuracy <= 1.0 && 0.5 <= speed <= 2.0
    ensures 0.1 <= BonusMultiplier(accuracy, Some(speed)).get <= 2.0
  {
    assert speed - accuracy * speed == (1.0 - accuracy) * speed;
    assert (1.0 - accuracy) * speed >= 0.0;
  }

  /** `Math.round(bet * bonusMultiplier)`; `NaN` stays `NaN`. */
  function WinDelta(bet: int, bonus: Option<real>): (r: Option<int>)
    ensures r.None? <==> bonus.None?
  {
    match bonus
    case None => None
    case Some(b) => Some(Round(bet as real * b))
  }

  /** A bonus of at most 2 pays at most twice the bet. */
  lemma WinDeltaBound(bet: int, bonus: real)
    requires bet >= 0 && 0.0 <= bonus <= 2.0
    ensures 0 <= WinDelta(bet, Some(bonus)).get <= 2 * bet
  {
    var x := bet as real;
    assert (2.0 - bonus) * x >= 0.0;
    assert x * bonus >= 0.0;
  }

  /** The result and the delta from the share of correct answers: a win pays
      `Math.round(bet * bonus)` (`NaN` when the bonus is), a push pays
      nothing, a loss costs `Math.round(bet * 0.5)`. */
  function Grade(d: Difficulty, totalCorrect: nat, count: nat, bet: int, bonus: Option<real>): (r: (GameResult, Option<int>))
    requires count > 0
    ensures totalCorrect >= count ==> r.0 == Win
    ensures totalCorrect == 0 ==> r.0 == Loss
    ensures r.1.None? <==> r.0 == Win && bonus.None?
  {
    var accuracy := totalCorrect as real / count as real;
    if accuracy >= RequiredAccuracy(d) then (Win, WinDelta(bet, bonus))
    else if accuracy >= RequiredAccuracy(d) * 0.5 then (Push, Some(0))
    else (Loss, Some(-Round(bet as real * 0.5)))
  }

  /** The grade by number correct: easy wins from 4 of 5, medium from 3 of 4,
      hard only with 3 of 3, since 2/3 is below 0.67; every difficulty pushes
      at 2 correct (and easy at 3) and loses at 0 or 1. */
  lemma GradeTable(d: Difficulty, c: nat, bet: int, bonus: Option<real>)
    requires c <= ProblemCount(d)
    ensures var (result, delta) := Grade(d, c, ProblemCount(d), bet, bonus);
      && (result == Win <==> c >= ProblemCount(d) - (if d == Hard then 0 else 1))
      && (result == Loss <==> c <= 1)
      && (result == Push ==> delta == Some(0))
      && (result == Loss ==> delta == Some(-Round(bet as real * 0.5)))
      && (result == Win ==> (delta.None? <==> bonus.None?))
      && (result == Win && bonus.Some? ==> delta == Some(Round(bet as real * bonus.get)))
  {
    if bonus.Some? {
      assert WinDelta(bet, bonus) == Some(Round(bet as real * bonus.get));
    }
  }

  // ---------------------------------------------------------------------------
  // The round
  // ---------------------------------------------------------------------------

  /** `GameOutcome` with `MathChallengeDisplay`; a `None` delta or bonus is `NaN`. */
  datatype Outcome = Outcome(
    result: GameResult,
    delta: Option<int>,
    problems: seq<Problem>,
    userAnswers: seq<int>,
    correctAnswers: seq<int>,
    timeSpent: seq<real>,
    totalCorrect: nat,
    totalProblems: nat,
    accuracy: real,
    bonusMultiplier: Option<real>)

  /** Draws allowed to each run of the options loop: one period of the generator. */
  const PERIOD: nat := LCG_MODULUS

  /** `problems.map(p => p.answer)`. */
  function Answers(problems: seq<Problem>): (answers: seq<int>)
    ensures |answers| == |problems|
    ensures forall k :: 0 <= k < |problems| ==> answers[k] == problems[k].answer
  {
    seq(|problems|, k requires 0 <= k < |problems| => problems[k].answer)
  }

  /** The grading half of `play`: the answers against a regenerated batch. */
  function Grading(input: Input, problems: seq<Problem>, userAnswers: seq<int>, timeSpent: seq<real>): Outcome
    requires |problems| == ProblemCount(input.difficulty)
  {
    var d := input.difficulty;
    var correctAnswers := Answers(problems);
    var totalCorrect := CountCorrect(userAnswers, correctAnswers);
    var accuracy := totalCorrect as real / |problems| as real;
    var bonus := BonusMultiplier(accuracy, SpeedBonus(AverageTime(timeSpent), d));
    var (result, delta) := Grade(d, totalCorrect, |problems|, input.bet, bonus);
    Outcome(result, delta, problems, userAnswers, correctAnswers, timeSpent,
            totalCorrect, |problems|, accuracy, bonus)
  }

  /** `play(input, seed, userAnswers, timeSpent)`: regenerate the batch from
      the seed and grade the answers against it. */
  function Game(input: Input, seed: int, userAnswers: seq<int>, timeSpent: seq<real>): (r: Result<Outcome>)
    ensures r.Ok? ==> |r.value.problems| == r.value.totalProblems == ProblemCount(input.difficulty)
    ensures r.Ok? ==> r.value.userAnswers == userAnswers && r.value.timeSpent == timeSpent
  {
    var d := input.difficulty;
    match Problems(d, ProblemCount(d), seed, PERIOD)
    case Err(f) => Err(f)
    case Ok(problems) => Ok(Grading(input, problems, userAnswers, timeSpent))
  }

  /** What an outcome says about the problems it was graded against: the
      correct answers are theirs, the count is the number of positions
      answered correctly, the accuracy its share, the bonus in [0.1, 2] and
      `NaN` exactly when no times are given, and the grade and the delta as
      GradeTable has them. */
  predicate Graded(input: Input, problems: seq<Problem>, userAnswers: seq<int>, timeSpent: seq<real>, o: Outcome)
    requires |problems| == ProblemCount(input.difficulty)
  {
    var d := input.difficulty;
    var n := |problems|;
    && o.problems == problems && o.userAnswers == userAnswers && o.timeSpent == timeSpent
    && o.totalProblems == n && |o.correctAnswers| == n
    && (forall k :: 0 <= k < n ==> o.correctAnswers[k] == problems[k].answer)
    && o.totalCorrect == |set k | 0 <= k < |userAnswers| && k < n && userAnswers[k] == o.correctAnswers[k]|
    && o.accuracy == o.totalCorrect as real / n as real
    && 0.0 <= o.accuracy <= 1.0
    && (o.bonusMultiplier.None? <==> timeSpent == [])
    && (o.bonusMultiplier.Some? ==> 0.1 <= o.bonusMultiplier.get <= 2.0)
    && (o.result == Win <==> o.totalCorrect >= n - (if d == Hard then 0 else 1))
    && (o.result == Loss <==> o.totalCorrect <= 1)
    && (o.result == Push ==> o.delta == Some(0))
    && (o.result == Loss ==> o.delta == Some(-Round(input.bet as real * 0.5)))
    && (o.result == Win ==> (o.delta.None? <==> timeSpent == []))
    && (o.result == Win && o.delta.Some? && input.bet >= 0 ==> 0 <= o.delta.get <= 2 * input.bet)
  }

  lemma GradingSpec(input: Input, problems: seq<Problem>, userAnswers: seq<int>, timeSpent: seq<real>)
    requires |problems| == ProblemCount(input.difficulty)
    ensures Graded(input, problems, userAnswers, timeSpent, Grading(input, problems, userAnswers, timeSpent))
  {
    var d := input.difficulty;
    var o := Grading(input, problems, userAnswers, timeSpent);
    CountSpec(userAnswers, Answers(problems));
    var speed := SpeedBonus(AverageTime(timeSpent), d);
    if speed.Some? {
      BonusRange(o.accuracy, speed.get);
    }
    GradeTable(d, o.totalCorrect, input.bet, o.bonusMultiplier);
    if o.result == Win && o.bonusMultiplier.Some? && input.bet >= 0 {
      WinDeltaBound(input.bet, o.bonusMultiplier.get);
    }
  }

  /** The count of `play` is the number of agreeing positions below both
      lengths. */
  lemma CountSpec(user: seq<int>, correct: seq<int>)
    ensures CountCorrect(user, correct) == |set k | 0 <= k < |user| && k < |correct| && user[k] == correct[k]|
    ensures CountCorrect(user, correct) <= |correct|
  {
    var n := if |user| < |correct| then |user| else |correct|;
    AgreementsSet(user, correct, n);
    assert (set k | 0 <= k < n && user[k] == correct[k])
      == (set k | 0 <= k < |user| && k < |correct| && user[k] == correct[k]);
  }

  /** `play` grades against the batch regenerated from the same seed, with
      the problem count of the difficulty, every problem well formed; it
      fails only for a negative first state (never from seed -5 up) or an
      options loop that cannot end. */
  lemma GameSpec(input: Input, seed: int, userAnswers: seq<int>, timeSpent: seq<real>)
    ensures var r := Game(input, seed, userAnswers, timeSpent);
      var d := input.difficulty;
      && (r == Err(NotModelled) <==> LcgStep(seed) < 0)
      && (r.Err? && r.failure != NotModelled ==> r.failure == NoTermination)
      && (seed >= -5 ==> r != Err(NotModelled))
      && (r.Ok? ==>
            && Problems(d, ProblemCount(d), seed, PERIOD) == Ok(r.value.problems)
            && |r.value.problems| == ProblemCount(d)
            && (forall k :: 0 <= k < ProblemCount(d) ==> WellFormed(r.value.problems[k], d, k))
            && Graded(input, r.value.problems, userAnswers, timeSpent, r.value))
  {
    var d := input.difficulty;
    var p := Problems(d, ProblemCount(d), seed, PERIOD);
    ProblemsSpec(d, ProblemCount(d), seed, PERIOD);
    if p.Ok? {
      GradingSpec(input, p.value, userAnswers, timeSpent);
    }
  }

  /** With hard problems, a seed whose first problem is 2^2 never finishes
      (seed 21 is one, by TwentyOneDrawsSquare). */
  lemma HardSeedHangs(input: Input, seed: int, userAnswers: seq<int>, timeSpent: seq<real>)
    requires input.difficulty == Hard
    requires LcgStep(seed) >= 0 && Generate(Hard, seed).question == Power(2, 2)
    ensures Game(input, seed, userAnswers, timeSpent) == Err(NoTermination)
  {
    SquareFirstHangs(seed, PERIOD);
  }

  // ---------------------------------------------------------------------------
  // The engine's methods
  // ---------------------------------------------------------------------------

  /** Drops the generator state from a result. */
  function WithoutState<T>(r: Result<(T, int)>): Result<T> {
    match r
    case Err(f) => Err(f)
    case Ok((x, _)) => Ok(x)
  }

  method GenerateEasyProblem(random: Lcg) returns (question: Question, answer: int)
    modifies random
    ensures Generated(question, answer, random.seed) == EasyProblem(old(random.seed))
  {
    var operation := random.NextInt(0, 1);
    if operation == 0 {
      var a := random.NextInt(10, 50);
      var b := random.NextInt(10, 50);
      var c := random.NextInt(10, 50);
      answer := a + b + c;
      question := Sum3(a, b, c);
    } else {
      var c := random.NextInt(5, 20);
      var b := random.NextInt(10, 30);
      var a := random.NextInt(b + c + 10, b + c + 80);
      answer := a - b - c;
      question := Difference3(a, b, c);
    }
  }

  method GenerateMediumProblem(random: Lcg) returns (question: Question, answer: int)
    modifies random
    ensures Generated(question, answer, random.seed) == MediumProblem(old(random.seed))
  {
    var operation := random.NextInt(0, 1);
    if operation == 0 {
      var a := random.NextInt(12, 25);
      var b := random.NextInt(11, 20);
      answer := a * b;
      question := Product(a, b);
    } else {
      var b := random.NextInt(6, 15);
      var quotient := random.NextInt(8, 25);
      var a := b * quotient;
      answer := quotient;
      question := Quotient(a, b);
    }
  }

  method GenerateHardProblem(random: Lcg) returns (question: Question, answer: int)
    modifies random
    ensures Generated(question, answer, random.seed) == HardProblem(old(random.seed))
  {
    var base := random.NextInt(2, 9);
    var exponent := random.NextInt(2, 4);
    answer := MathPow(base, exponent);
    question := Power(base, exponent);
  }

  /** The three do-while loops of `generateOptions`, each allowed `fuel` draws. */
  method PickWrongAnswers(answer: int, random: Lcg, fuel: nat) returns (r: Result<seq<int>>)
    modifies random
    ensures r == WithoutState(PickWrong(answer, [answer], old(random.seed), fuel, 3))
    ensures r.Ok? ==> random.seed == PickWrong(answer, [answer], old(random.seed), fuel, 3).value.1
  {
    ghost var spec := PickWrong(answer, [answer], random.seed, fuel, 3);
    var options := [answer];
    var i := 0;
    while i < 3
      invariant 0 <= i <= 3
      invariant spec == PickWrong(answer, options, random.seed, fuel, 3 - i)
    {
      ghost var start := random.seed;
      var draws := 0;
      var wrongAnswer := 0;
      var again := true;
      while again
        invariant draws <= fuel
        invariant again ==> DrawWrong(answer, options, start, fuel) == DrawWrong(answer, options, random.seed, fuel - draws)
        invariant !again ==> DrawWrong(answer, options, start, fuel) == Ok((wrongAnswer, random.seed))
        decreases fuel - draws
      {
        if draws == fuel {
          return Err(NoTermination);
        }
        var spread := Spread(answer);
        var offset := random.NextInt(-spread, spread);
        HundredthsExact(answer + offset);
        wrongAnswer := Round((answer + offset) as real * 100.0) / 100;
        draws := draws + 1;
        again := wrongAnswer in options;
      }
      options := options + [wrongAnswer];
      i := i + 1;
    }
    r := Ok(options);
  }

  /** The shuffle of `generateOptions`, from the last index down. */
  method ShuffleOptions(options: seq<int>, random: Lcg) returns (r: Result<seq<int>>)
    requires |options| == 4
    modifies random
    ensures var js := LcgSwapIndices(old(random.seed), 3);
      && (r.Ok? <==> InRange(js, 3))
      && (r.Ok? ==> r.value == Swaps(options, 3, js) && random.seed == LcgAfter(old(random.seed), 3))
      && (r.Err? ==> r == Err(NotModelled))
  {
    ghost var seed := random.seed;
    ghost var done: seq<int> := [];
    var shuffled := options;
    var i := |shuffled| - 1;
    while i > 0
      invariant LcgDrawn(seed, 3, done, random.seed, i)
      invariant shuffled == Swaps(options, 3, done)
    {
      ghost var before := random.seed;
      var j := random.NextInt(0, i);
      LcgShuffleStep(seed, 3, done, before, i);
      if j < 0 {
        return Err(NotModelled);
      }
      shuffled := shuffled[i := shuffled[j]][j := shuffled[i]];
      SwapsSnoc(options, 3, done, j);
      done := done + [j];
      i := i - 1;
    }
    LcgDrawnAll(seed, 3, done, random.seed);
    r := Ok(shuffled);
  }

  /** `generateOptions(correctAnswer, random)`. */
  method GenerateOptions(answer: int, random: Lcg, fuel: nat) returns (r: Result<seq<int>>)
    modifies random
    ensures r == WithoutState(Options(answer, old(random.seed), fuel))
    ensures r.Ok? ==> random.seed == Options(answer, old(random.seed), fuel).value.1
  {
    var picked := PickWrongAnswers(answer, random, fuel);
    if picked.Err? {
      return Err(picked.failure);
    }
    r := ShuffleOptions(picked.value, random);
  }

  /** The `switch` on the difficulty in `generateProblem`. */
  method GenerateQuestion(d: Difficulty, random: Lcg) returns (question: Question, answer: int)
    modifies random
    ensures Generated(question, answer, random.seed) == Generate(d, old(random.seed))
  {
    match d
    case Easy =>
      question, answer := GenerateEasyProblem(random);
    case Medium =>
      question, answer := GenerateMediumProblem(random);
    case Hard =>
      question, answer := GenerateHardProblem(random);
  }

  /** `generateProblem(difficulty, random, id)`. */
  method GenerateProblem(d: Difficulty, random: Lcg, id: string, fuel: nat) returns (r: Result<Problem>)
    modifies random
    ensures r == WithoutState(ProblemAt(d, old(random.seed), id, fuel))
    ensures r.Ok? ==> random.seed == ProblemAt(d, old(random.seed), id, fuel).value.1
  {
    var question, answer := GenerateQuestion(d, random);
    var options := GenerateOptions(answer, random, fuel);
    if options.Err? {
      return Err(options.failure);
    }
    r := Ok(Problem(id, question, answer, options.value, d, TimeLimit(d)));
  }

  /** `generateProblems(difficulty, count, seed)`. */
  method GenerateProblems(d: Difficulty, count: int, seed: int, fuel: nat) returns (r: Result<seq<Problem>>)
    ensures r == Problems(d, count, seed, fuel)
  {
    if count >= 1 && LcgStep(seed) < 0 {
      return Err(NotModelled);
    }
    var random := new Lcg(seed);
    r := GenerateBatch(d, if count < 0 then 0 else count, random, fuel);
  }

  /** The loop of `generateProblems`: problems "0" to n - 1 from one generator. */
  method GenerateBatch(d: Difficulty, n: nat, random: Lcg, fuel: nat) returns (r: Result<seq<Problem>>)
    modifies random
    ensures r == WithoutState(Batch(DrawOf(d, fuel), n, old(random.seed)))
  {
    ghost var draw := DrawOf(d, fuel);
    ghost var seed := random.seed;
    var problems: seq<Problem> := [];
    var i := 0;
    while i < n
      invariant 0 <= i <= n
      invariant Batch(draw, i, seed) == Ok((problems, random.seed))
    {
      ghost var before := random.seed;
      var p := GenerateProblem(d, random, NatToString(i), fuel);
      assert draw(before, i) == ProblemAt(d, before, NatToString(i), fuel);
      BatchNext(draw, i, seed);
      if p.Err? {
        BatchErrSticks(draw, i + 1, n, seed);
        return Err(p.failure);
      }
      problems := problems + [p.value];
      i := i + 1;
    }
    r := Ok(problems);
  }

  /** The grading half of `play`, statement by statement. */
  method GradeAnswers(input: Input, problems: seq<Problem>, userAnswers: seq<int>, timeSpent: seq<real>)
    returns (o: Outcome)
    requires |problems| == ProblemCount(input.difficulty)
    ensures o == Grading(input, problems, userAnswers, timeSpent)
  {
    var correctAnswers := Answers(problems);
    var totalCorrect := CountCorrectLoop(userAnswers, correctAnswers);
    var accuracy := totalCorrect as real / |problems| as real;
    var averageTime := AverageTime(timeSpent);
    var speedBonus := SpeedBonus(averageTime, input.difficulty);
    var bonusMultiplier := BonusMultiplier(accuracy, speedBonus);
    var result, screenTimeDelta := Settle(input.difficulty, totalCorrect, |problems|, input.bet, bonusMultiplier);
    o := Outcome(result, screenTimeDelta, problems, userAnswers, correctAnswers, timeSpent,
                 totalCorrect, |problems|, accuracy, bonusMultiplier);
  }

  /** The result and the delta of `play`, statement by statement. */
  method Settle(difficulty: Difficulty, totalCorrect: nat, count: nat, betAmount: int, bonusMultiplier: Option<real>)
    returns (result: GameResult, screenTimeDelta: Option<int>)
    requires count > 0
    ensures (result, screenTimeDelta) == Grade(difficulty, totalCorrect, count, betAmount, bonusMultiplier)
  {
    var accuracy := totalCorrect as real / count as real;
    var requiredAccuracy := RequiredAccuracy(difficulty);
    if accuracy >= requiredAccuracy {
      result := Win;
      screenTimeDelta := WinDelta(betAmount, bonusMultiplier);
    } else if accuracy >= requiredAccuracy * 0.5 {
      result := Push;
      screenTimeDelta := Some(0);
    } else {
      result := Loss;
      screenTimeDelta := Some(-Round(betAmount as real * 0.5));
    }
  }

  /** `play(input, seed, userAnswers, timeSpent)`. */
  method Play(input: Input, seed: int, userAnswers: seq<int>, timeSpent: seq<real>) returns (r: Result<Outcome>)
    ensures r == Game(input, seed, userAnswers, timeSpent)
  {
    var generated := GenerateProblems(input.difficulty, ProblemCount(input.difficulty), seed, PERIOD);
    if generated.Err? {
      return Err(generated.failure);
    }
    var outcome := GradeAnswers(input, generated.value, userAnswers, timeSpent);
    r := Ok(outcome);
  }
}
